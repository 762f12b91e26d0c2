/** The `Account` class of `python/Account.py`: five service slots that `connect` fills
    and `disconnect` empties. The service classes themselves are not modelled: building a
    service either succeeds, giving a `Connection` that records its type and constructor
    arguments, or raises, as the parameter `build` says. */
module ServiceAccount {
  import opened Wrappers
  import opened PyValues

  /** A constructed service object. */
  datatype Connection = Connection(serviceType: string, args: seq<Value>)

  /** `build(serviceType, args)` is the exception the service's constructor raises, or
      `None` when it returns. */
  type Build = (string, seq<Value>) -> Option<Exc>

  datatype Slot = EmailSlot | CloudflareSlot | GitLabSlot | GitHubSlot | PleskSlot

  /** The five attributes of an account. */
  datatype Slots = Slots(
    email: Option<Connection>,
    cloudflare: Option<Connection>,
    gitlab: Option<Connection>,
    github: Option<Connection>,
    plesk: Option<Connection>)
  {
    function Get(slot: Slot): Option<Connection>
    {
      match slot
      case EmailSlot => email
      case CloudflareSlot => cloudflare
      case GitLabSlot => gitlab
      case GitHubSlot => github
      case PleskSlot => plesk
    }

    function Set(slot: Slot, c: Option<Connection>): (r: Slots)
      ensures r.Get(slot) == c
      ensures forall other :: other != slot ==> r.Get(other) == Get(other)
    {
      match slot
      case EmailSlot => this.(email := c)
      case CloudflareSlot => this.(cloudflare := c)
      case GitLabSlot => this.(gitlab := c)
      case GitHubSlot => this.(github := c)
      case PleskSlot => this.(plesk := c)
    }
  }

  const Empty := Slots(None, None, None, None, None)

  /** The slot a service type lives in; both mail services share `email_service`. */
  function SlotOf(serviceType: string): Option<Slot>
  {
    if serviceType == "GmailService" || serviceType == "OutlookService" then Some(EmailSlot)
    else if serviceType == "CloudflareService" then Some(CloudflareSlot)
    else if serviceType == "GitLabService" then Some(GitLabSlot)
    else if serviceType == "GitHubService" then Some(GitHubSlot)
    else if serviceType == "PleskService" then Some(PleskSlot)
    else None
  }

  /** The keyword arguments each supported service's constructor is given, in order. */
  function RequiredArgs(serviceType: string): seq<string>
  {
    if serviceType == "GmailService" || serviceType == "OutlookService" then ["username", "password"]
    else if serviceType == "CloudflareService" then ["api_key", "email"]
    else if serviceType == "GitLabService" then ["base_url", "private_token"]
    else if serviceType == "GitHubService" then ["access_token"]
    else if serviceType == "PleskService" then ["host", "username", "password"]
    else []
  }

  /** The first of `names` that is not a keyword argument: its lookup raises `KeyError`
      before the constructor runs. */
  function FirstMissing(kwargs: map<string, Value>, names: seq<string>): (r: Option<string>)
    ensures r.None? <==> forall i :: 0 <= i < |names| ==> names[i] in kwargs
    ensures r.Some? ==> r.value in names && r.value !in kwargs
  {
    if names == [] then None
    else if names[0] !in kwargs then Some(names[0])
    else FirstMissing(kwargs, names[1..])
  }

  function Arguments(kwargs: map<string, Value>, names: seq<string>): (r: seq<Value>)
    requires forall i :: 0 <= i < |names| ==> names[i] in kwargs
    ensures |r| == |names| && forall i :: 0 <= i < |names| ==> r[i] == kwargs[names[i]]
  {
    seq(|names|, i requires 0 <= i < |names| => kwargs[names[i]])
  }

  /** `connect(service_type, **kwargs)`: the new slots and what the call returns or
      raises. */
  function ConnectSpec(s: Slots, serviceType: string, kwargs: map<string, Value>, build: Build): (Slots, Result<string, Exc>)
  {
    match SlotOf(serviceType)
    case None => (s, Err(ValueError))
    case Some(slot) =>
      var names := RequiredArgs(serviceType);
      match FirstMissing(kwargs, names)
      case Some(k) => (s, Err(KeyError(k)))
      case None =>
        var args := Arguments(kwargs, names);
        match build(serviceType, args)
        case Some(e) => (s, Err(e))
        case None => (s.Set(slot, Some(Connection(serviceType, args))), Ok("Connected to " + serviceType + " successfully"))
  }

  /** `disconnect(service_type)` */
  function DisconnectSpec(s: Slots, serviceType: string): (Slots, Result<string, Exc>)
  {
    match SlotOf(serviceType)
    case None => (s, Err(ValueError))
    case Some(slot) => (s.Set(slot, None), Ok("Disconnected from " + serviceType + " successfully"))
  }

  class Account {
    var emailService: Option<Connection>
    var cloudflareService: Option<Connection>
    var gitlabService: Option<Connection>
    var githubService: Option<Connection>
    var pleskService: Option<Connection>

    function State(): Slots
      reads this
    {
      Slots(emailService, cloudflareService, gitlabService, githubService, pleskService)
    }

    /** A new account has every slot empty. */
    constructor ()
      ensures State() == Empty
    {
      emailService := None;
      cloudflareService := None;
      gitlabService := None;
      githubService := None;
      pleskService := None;
    }

    method SetSlot(slot: Slot, c: Option<Connection>)
      modifies this
      ensures State() == old(State()).Set(slot, c)
    {
      match slot
      case EmailSlot => emailService := c;
      case CloudflareSlot => cloudflareService := c;
      case GitLabSlot => gitlabService := c;
      case GitHubSlot => githubService := c;
      case PleskSlot => pleskService := c;
    }

    method Connect(serviceType: string, kwargs: map<string, Value>, build: Build) returns (r: Result<string, Exc>)
      modifies this
      ensures (State(), r) == ConnectSpec(old(State()), serviceType, kwargs, build)
    {
      var slot := SlotOf(serviceType);
      if slot.None? {
        return Err(ValueError);
      }
      var names := RequiredArgs(serviceType);
      var missing := FirstMissing(kwargs, names);
      if missing.Some? {
        return Err(KeyError(missing.value));
      }
      var args := Arguments(kwargs, names);
      var raised := build(serviceType, args);
      if raised.Some? {
        return Err(raised.value);
      }
      SetSlot(slot.value, Some(Connection(serviceType, args)));
      return Ok("Connected to " + serviceType + " successfully");
    }

    method Disconnect(serviceType: string) returns (r: Result<string, Exc>)
      modifies this
      ensures (State(), r) == DisconnectSpec(old(State()), serviceType)
    {
      var slot := SlotOf(serviceType);
      if slot.None? {
        return Err(ValueError);
      }
      SetSlot(slot.value, None);
      return Ok("Disconnected from " + serviceType + " successfully");
    }
  }

  /** A successful connect fills the service's own slot with the service built from the
      keyword arguments and touches no other slot; both mail services fill the email slot.
      A failed one changes nothing: an unsupported type raises `ValueError`, a missing
      keyword argument `KeyError`, and a constructor's exception passes through. */
  lemma ConnectChangesOnlyItsSlot(s: Slots, serviceType: string, kwargs: map<string, Value>, build: Build)
    ensures var (t, r) := ConnectSpec(s, serviceType, kwargs, build);
      && (r.Ok? <==> SlotOf(serviceType).Some? && FirstMissing(kwargs, RequiredArgs(serviceType)).None?
                     && build(serviceType, Arguments(kwargs, RequiredArgs(serviceType))).None?)
      && (r.Ok? ==>
            && r.value == "Connected to " + serviceType + " successfully"
            && t.Get(SlotOf(serviceType).value) == Some(Connection(serviceType, Arguments(kwargs, RequiredArgs(serviceType))))
            && forall other :: other != SlotOf(serviceType).value ==> t.Get(other) == s.Get(other))
      && (r.Err? ==> t == s)
      && (SlotOf(serviceType).None? ==> r == Err(ValueError))
      && ((serviceType == "GmailService" || serviceType == "OutlookService") ==> SlotOf(serviceType) == Some(EmailSlot))
  {
  }

  /** A disconnect empties the service's own slot and no other; an unsupported type raises
      `ValueError` and changes nothing. */
  lemma DisconnectChangesOnlyItsSlot(s: Slots, serviceType: string)
    ensures var (t, r) := DisconnectSpec(s, serviceType);
      && (r.Ok? <==> SlotOf(serviceType).Some?)
      && (r.Ok? ==>
            && t.Get(SlotOf(serviceType).value).None?
            && forall other :: other != SlotOf(serviceType).value ==> t.Get(other) == s.Get(other))
      && (r.Err? ==> t == s && r.error == ValueError)
  {
  }

  /** Connecting and then disconnecting the same type leaves its slot empty and every other
      slot as it was before the connect. */
  lemma ConnectThenDisconnect(s: Slots, serviceType: string, kwargs: map<string, Value>, build: Build)
    requires ConnectSpec(s, serviceType, kwargs, build).1.Ok?
    ensures var t := DisconnectSpec(ConnectSpec(s, serviceType, kwargs, build).0, serviceType).0;
      t == s.Set(SlotOf(serviceType).value, None)
  {
    var slot := SlotOf(serviceType).value;
    var mid := ConnectSpec(s, serviceType, kwargs, build).0;
    var t := DisconnectSpec(mid, serviceType).0;
    assert t == mid.Set(slot, None);
    assert forall other :: t.Get(other) == s.Set(slot, None).Get(other);
  }

  /** The mail services share one slot: disconnecting Outlook drops a Gmail connection. */
  lemma MailServicesShareASlot(s: Slots, kwargs: map<string, Value>, build: Build)
    ensures DisconnectSpec(ConnectSpec(s, "GmailService", kwargs, build).0, "OutlookService").0.email.None?
  {
  }
}
