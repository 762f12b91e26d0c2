/** The append-only `query` table: `save_result` adds a row, `get_latest_result` reads the
    newest row for a (service, method) pair back. JSON encoding and decoding are a codec
    given as a parameter; the database clock is the `now` argument of a save. */
module ResultStore {
  import opened Wrappers
  import opened PyValues

  /** `json.dumps` and `json.loads`; `decode` gives `None` where `json.loads` raises
      `JSONDecodeError`. */
  datatype Codec = Codec(encode: Value -> string, decode: string -> Option<Value>)

  /** What the runner relies on from JSON: decoding the encoding of a value Python can
      build (no dict with a repeated key) gives the value back. */
  ghost predicate Lawful(codec: Codec)
  {
    forall v :: WellFormed(v) ==> codec.decode(codec.encode(v)) == Some(v)
  }

  /** A row of `query(id, command, name, service_name, method_name, result, timestamp)`. */
  datatype Record = Record(
    id: nat,
    command: string,
    name: string,
    serviceName: string,
    methodName: string,
    result: string,
    timestamp: int)

  /** The text `save_result` stores: a string verbatim, anything else as its JSON. */
  function Serialize(codec: Codec, result: Value): string
  {
    if result.Str? then result.s else codec.encode(result)
  }

  /** What `get_latest_result` makes of stored text: the decoded JSON, or the raw text
      when it does not decode. */
  function Deserialize(codec: Codec, text: string): Value
  {
    match codec.decode(text)
    case Some(v) => v
    case None => Str(text)
  }

  predicate Matching(r: Record, serviceName: string, methodName: string)
  {
    r.serviceName == serviceName && r.methodName == methodName
  }

  /** The row `WHERE service_name = ? AND method_name = ? ORDER BY timestamp DESC LIMIT 1`
      selects. SQLite leaves the order among equal timestamps open; this definition takes
      the earliest of them, and its contract promises only a row of greatest timestamp. */
  function LatestIndex(rows: seq<Record>, serviceName: string, methodName: string): (r: Option<nat>)
    ensures r.None? <==> forall i :: 0 <= i < |rows| ==> !Matching(rows[i], serviceName, methodName)
    ensures r.Some? ==>
      && r.value < |rows|
      && Matching(rows[r.value], serviceName, methodName)
      && forall i :: 0 <= i < |rows| && Matching(rows[i], serviceName, methodName) ==>
           rows[i].timestamp <= rows[r.value].timestamp
  {
    if rows == [] then None
    else
      var prev := LatestIndex(rows[..|rows| - 1], serviceName, methodName);
      var last := rows[|rows| - 1];
      if Matching(last, serviceName, methodName) && (prev.None? || last.timestamp > rows[prev.value].timestamp)
      then Some(|rows| - 1)
      else prev
  }

  /** `get_latest_result(service_name, method_name)`: `Null` when no row matches. */
  function GetLatestResult(rows: seq<Record>, serviceName: string, methodName: string, codec: Codec): (r: Value)
    ensures (forall i :: 0 <= i < |rows| ==> !Matching(rows[i], serviceName, methodName)) ==> r == Null
    ensures (exists i :: 0 <= i < |rows| && Matching(rows[i], serviceName, methodName)) ==>
      exists i :: 0 <= i < |rows| && Matching(rows[i], serviceName, methodName)
        && (forall j :: 0 <= j < |rows| && Matching(rows[j], serviceName, methodName) ==> rows[j].timestamp <= rows[i].timestamp)
        && r == Deserialize(codec, rows[i].result)
  {
    match LatestIndex(rows, serviceName, methodName)
    case None => Null
    case Some(i) => Deserialize(codec, rows[i].result)
  }

  /** The `query` table. */
  class ResultTable {
    var rows: seq<Record>
    /** The id SQLite's AUTOINCREMENT hands out next. */
    var nextId: nat

    ghost predicate Valid()
      reads this
    {
      && 1 <= nextId
      && (forall i :: 0 <= i < |rows| ==> 1 <= rows[i].id < nextId)
      && (forall i, j :: 0 <= i < j < |rows| ==> rows[i].id < rows[j].id)
    }

    constructor ()
      ensures Valid() && rows == []
    {
      rows := [];
      nextId := 1;
    }

    /** `save_result(command, name, service_name, method_name, result)` at time `now`:
        one new row at the end, every earlier row untouched. */
    method SaveResult(command: string, name: string, serviceName: string, methodName: string,
                      result: Value, codec: Codec, now: int) returns (id: nat)
      requires Valid()
      modifies this
      ensures Valid()
      ensures id == old(nextId) && nextId == old(nextId) + 1
      ensures rows == old(rows) + [Record(id, command, name, serviceName, methodName, Serialize(codec, result), now)]
    {
      var text := if result.Str? then result.s else codec.encode(result);
      id := nextId;
      rows := rows + [Record(id, command, name, serviceName, methodName, text, now)];
      nextId := nextId + 1;
    }
  }

  /** A save for another (service, method) pair never changes what the lookup returns. */
  lemma {:induction false} OtherPairsDoNotAffectLatest(rows: seq<Record>, r: Record, serviceName: string, methodName: string, codec: Codec)
    requires !Matching(r, serviceName, methodName)
    ensures GetLatestResult(rows + [r], serviceName, methodName, codec) == GetLatestResult(rows, serviceName, methodName, codec)
  {
    assert (rows + [r])[..|rows|] == rows;
  }

  /** A save whose timestamp is later than every earlier row of its pair is what the
      lookup returns next. */
  lemma {:induction false} LatestIsNewestSave(rows: seq<Record>, r: Record, codec: Codec)
    requires forall i :: 0 <= i < |rows| && Matching(rows[i], r.serviceName, r.methodName) ==> rows[i].timestamp < r.timestamp
    ensures GetLatestResult(rows + [r], r.serviceName, r.methodName, codec) == Deserialize(codec, r.result)
  {
    var all := rows + [r];
    assert all[..|rows|] == rows;
    var prev := LatestIndex(rows, r.serviceName, r.methodName);
    if prev.Some? {
      assert rows[prev.value].timestamp < r.timestamp;
    }
  }

  /** With a lawful codec, any result that is not a string survives save then get. */
  lemma SaveThenGetNonString(rows: seq<Record>, result: Value, codec: Codec, r: Record)
    requires Lawful(codec) && !result.Str? && WellFormed(result)
    requires r.result == Serialize(codec, result)
    requires forall i :: 0 <= i < |rows| && Matching(rows[i], r.serviceName, r.methodName) ==> rows[i].timestamp < r.timestamp
    ensures GetLatestResult(rows + [r], r.serviceName, r.methodName, codec) == result
  {
    LatestIsNewestSave(rows, r, codec);
  }

  /** A string result that is itself JSON text is not returned as the string: it comes back
      decoded, so the text of the JSON number 42 is read back as the integer 42. */
  lemma JsonLookingStringComesBackDecoded(codec: Codec)
    requires Lawful(codec)
    ensures
      var text := codec.encode(Int(42));
      Deserialize(codec, Serialize(codec, Str(text))) == Int(42) != Str(text)
  {
  }

  /** A stored JSON `null` reads back exactly as a pair that has no row at all. */
  lemma StoredNullLooksAbsent(r: Record, codec: Codec)
    requires codec.decode(r.result) == Some(Null)
    ensures GetLatestResult([r], r.serviceName, r.methodName, codec) == GetLatestResult([], r.serviceName, r.methodName, codec)
  {
    LatestIsNewestSave([], r, codec);
  }
}
