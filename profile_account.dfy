/** The `Account` class of the top-level `Account.py`: a profile that is connected to one
    email address found in the private data. Reading `private.yaml` is a parameter:
    `Missing` when the file does not exist, otherwise what `yaml.safe_load` returned. */
module ProfileAccount {
  import opened Wrappers
  import opened PyValues

  datatype PrivateFile = Missing | Loaded(data: Value)

  /** `needle` occurs in `s` starting at index `i`. */
  predicate OccursAt(needle: string, s: string, i: nat)
  {
    i + |needle| <= |s| && s[i..i + |needle|] == needle
  }

  /** `needle in s` for two strings: `s` holds `needle` as a contiguous run. */
  ghost predicate IsSubstring(needle: string, s: string)
  {
    exists i: nat :: OccursAt(needle, s, i)
  }

  /** Whether `needle` occurs in `s` at index `i` or later. */
  function SubstringFrom(needle: string, s: string, i: nat): (r: bool)
    ensures r <==> exists j: nat :: i <= j && OccursAt(needle, s, j)
    decreases |s| + 1 - i
  {
    if i + |needle| > |s| then
      assert forall j: nat :: i <= j ==> !OccursAt(needle, s, j);
      false
    else if s[i..i + |needle|] == needle then assert OccursAt(needle, s, i); true
    else
      var r := SubstringFrom(needle, s, i + 1);
      assert (exists j: nat :: i <= j && OccursAt(needle, s, j)) ==> exists j: nat :: i + 1 <= j && OccursAt(needle, s, j);
      r
  }

  /** `email in private_data`: key of a dict, element of a list, substring of a string;
      `in` on `None`, a number or a boolean raises `TypeError`. */
  function Contains(data: Value, email: string): (r: Result<bool, Exc>)
    ensures data.Dict? ==> r == Ok(email in Keys(data.entries))
    ensures data.List? ==> r == Ok(Str(email) in data.items)
    ensures data.Str? ==> r == Ok(IsSubstring(email, data.s))
    ensures (data.Null? || data.Int? || data.Bool?) ==> r == Err(TypeError)
  {
    match data
    case Dict(entries) => Ok(email in Keys(entries))
    case List(items) => Ok(Str(email) in items)
    case Str(s) => Ok(SubstringFrom(email, s, 0))
    case _ => Err(TypeError)
  }

  /** The two attributes of a profile. */
  datatype State = State(connected: bool, email: Option<string>)

  /** `connected` is set exactly when an address is held. */
  predicate Consistent(st: State)
  {
    st.connected <==> st.email.Some?
  }

  /** What a call returns and the line it prints; `printed` is `None` when it raises. */
  datatype Reply = Reply(result: Result<bool, Exc>, printed: Option<string>)

  /** `connect(email)` */
  function ConnectSpec(st: State, email: string, file: PrivateFile): (State, Reply)
  {
    match file
    case Missing => (st, Reply(Ok(false), Some("Error: private.yaml file not found")))
    case Loaded(data) =>
      match Contains(data, email)
      case Err(e) => (st, Reply(Err(e), None))
      case Ok(true) => (State(true, Some(email)), Reply(Ok(true), Some("Connected to account: " + email)))
      case Ok(false) => (st, Reply(Ok(false), Some("No data found for email: " + email)))
  }

  /** `disconnect()` */
  function DisconnectSpec(st: State): (State, Reply)
    requires Consistent(st)
  {
    if st.connected then
      (State(false, None), Reply(Ok(true), Some("Disconnected from account: " + st.email.value)))
    else (st, Reply(Ok(false), Some("No active connection to disconnect")))
  }

  class Account {
    var connected: bool
    var email: Option<string>

    function Current(): State
      reads this
    {
      State(connected, email)
    }

    ghost predicate Valid()
      reads this
    {
      Consistent(Current())
    }

    /** A new profile is not connected and holds no address. */
    constructor ()
      ensures Valid() && Current() == State(false, None)
    {
      connected := false;
      email := None;
    }

    method Connect(address: string, file: PrivateFile) returns (reply: Reply)
      requires Valid()
      modifies this
      ensures Valid()
      ensures (Current(), reply) == ConnectSpec(old(Current()), address, file)
    {
      if file.Missing? {
        return Reply(Ok(false), Some("Error: private.yaml file not found"));
      }
      var found := Contains(file.data, address);
      if found.Err? {
        return Reply(Err(found.error), None);
      }
      if found.value {
        email := Some(address);
        connected := true;
        return Reply(Ok(true), Some("Connected to account: " + address));
      } else {
        return Reply(Ok(false), Some("No data found for email: " + address));
      }
    }

    method Disconnect() returns (reply: Reply)
      requires Valid()
      modifies this
      ensures Valid()
      ensures (Current(), reply) == DisconnectSpec(old(Current()))
    {
      if connected {
        connected := false;
        var line := "Disconnected from account: " + email.value;
        email := None;
        return Reply(Ok(true), Some(line));
      } else {
        return Reply(Ok(false), Some("No active connection to disconnect"));
      }
    }
  }

  /** Connect succeeds exactly when the address is a key of the private data mapping, and
      then holds that address; every other outcome leaves the profile as it was. */
  lemma ConnectOutcome(st: State, email: string, file: PrivateFile)
    requires Consistent(st)
    ensures var (t, reply) := ConnectSpec(st, email, file);
      && Consistent(t)
      && (reply.result == Ok(true) ==> t == State(true, Some(email)))
      && (reply.result != Ok(true) ==> t == st)
      && (file.Loaded? && file.data.Dict? ==> (reply.result == Ok(true) <==> email in Keys(file.data.entries)))
      && (file.Missing? ==> reply.result == Ok(false))
      && (file.Loaded? && file.data.Null? ==> reply.result == Err(TypeError))
  {
  }

  /** Disconnect returns `True` exactly when connected, and leaves the profile
      disconnected either way; a second disconnect returns `False`. */
  lemma DisconnectOutcome(st: State)
    requires Consistent(st)
    ensures var (t, reply) := DisconnectSpec(st);
      && t == State(false, None)
      && (reply.result == Ok(true) <==> st.connected)
      && DisconnectSpec(t).1.result == Ok(false)
  {
  }

  /** After a successful connect, disconnect reports the address that was connected. */
  lemma ConnectThenDisconnect(st: State, email: string, file: PrivateFile)
    requires Consistent(st) && ConnectSpec(st, email, file).1.result == Ok(true)
    ensures var t := ConnectSpec(st, email, file).0;
      DisconnectSpec(t) == (State(false, None), Reply(Ok(true), Some("Disconnected from account: " + email)))
  {
  }

  /** With a private data mapping whose only key is another address, connect returns
      `False`; with a list holding the address, it connects. */
  lemma ContainsExamples()
    ensures Contains(Dict([Entry("a@x.io", Null)]), "b@x.io") == Ok(false)
    ensures Contains(List([Str("b@x.io")]), "b@x.io") == Ok(true)
    ensures Contains(Str("b@x.io, c@x.io"), "c@x.io") == Ok(true)
  {
    assert Keys([Entry("a@x.io", Null)]) == ["a@x.io"];
    assert OccursAt("c@x.io", "b@x.io, c@x.io", 8);
  }
}
