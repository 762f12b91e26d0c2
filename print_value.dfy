/** `print_value`: filter the stored data, then print one `value_key: ...` line per
    matching record (or one for a dict), or a "No data found" line. The printed lines are
    returned instead of written to standard output. */
module Printing {
  import opened Wrappers
  import opened PyValues
  import opened Filtering

  /** `f"{value_key}: {d.get(value_key, 'Not found')}"` for a dict `d`. */
  function ValueLine(entries: seq<Entry>, valueKey: string): string
  {
    valueKey + ": " + Show(Get(entries, valueKey, Str("Not found")))
  }

  /** The line printed for one record of a filtered list (every such record is a dict). */
  function RecordLine(item: Value, valueKey: string): string
  {
    ValueLine(if item.Dict? then item.entries else [], valueKey)
  }

  function NoDataLine(filterKey: string, filterValue: string): string
  {
    "No data found matching the filter: " + filterKey + "=" + filterValue
  }

  /** The lines `print_value(data, value_key, filter_key, filter_value)` prints, or the
      exception `filter_data` raises. */
  function ValueLines(data: Value, valueKey: string, filterKey: string, filterValue: string): Result<seq<string>, Exc>
  {
    match FilterData(data, filterKey, filterValue)
    case Err(e) => Err(e)
    case Ok(filtered) =>
      if !Truthy(filtered) then Ok([NoDataLine(filterKey, filterValue)])
      else if filtered.List? then
        Ok(seq(|filtered.items|, i requires 0 <= i < |filtered.items| => RecordLine(filtered.items[i], valueKey)))
      else if filtered.Dict? then Ok([ValueLine(filtered.entries, valueKey)])
      else Ok([])
  }

  /** `print_value`, with the loop over the filtered list. */
  method PrintValue(data: Value, valueKey: string, filterKey: string, filterValue: string)
    returns (lines: Result<seq<string>, Exc>)
    ensures lines == ValueLines(data, valueKey, filterKey, filterValue)
  {
    var filtered := FilterData(data, filterKey, filterValue);
    if filtered.Err? {
      return Err(filtered.error);
    }
    var f := filtered.value;
    if !Truthy(f) {
      return Ok([NoDataLine(filterKey, filterValue)]);
    }
    if f.List? {
      var out: seq<string> := [];
      for i := 0 to |f.items|
        invariant |out| == i
        invariant forall j :: 0 <= j < i ==> out[j] == RecordLine(f.items[j], valueKey)
      {
        out := out + [RecordLine(f.items[i], valueKey)];
      }
      assert out == seq(|f.items|, i requires 0 <= i < |f.items| => RecordLine(f.items[i], valueKey));
      return Ok(out);
    } else if f.Dict? {
      return Ok([ValueLine(f.entries, valueKey)]);
    }
    return Ok([]);
  }

  /** When nothing matches, exactly one line reports the filter that found nothing. */
  lemma NoMatchPrintsOneLine(data: Value, valueKey: string, filterKey: string, filterValue: string)
    requires data.List? || data.Dict?
    requires FilterData(data, filterKey, filterValue) == Ok(if data.List? then List([]) else Dict([]))
    ensures ValueLines(data, valueKey, filterKey, filterValue)
      == Ok(["No data found matching the filter: " + filterKey + "=" + filterValue])
  {
  }

  /** A list prints one line per matching record, in the records' order, each showing that
      record's `value_key` field or `Not found`. */
  lemma ListPrintsOneLinePerMatch(items: seq<Value>, valueKey: string, filterKey: string, filterValue: string)
    requires Filtering.AllDicts(items)
    ensures
      var kept := Seqs.Where(items, x => Matches(x, filterKey, filterValue));
      && ValueLines(List(items), valueKey, filterKey, filterValue).Ok?
      && var lines := ValueLines(List(items), valueKey, filterKey, filterValue).value;
      && (kept == [] ==> lines == [NoDataLine(filterKey, filterValue)])
      && (kept != [] ==>
            |lines| == |kept|
            && forall i :: 0 <= i < |kept| ==>
                 kept[i].Dict? && lines[i] == valueKey + ": " + Show(Get(kept[i].entries, valueKey, Str("Not found"))))
  {
    var p := x => Matches(x, filterKey, filterValue);
    var kept := Seqs.Where(items, p);
    forall i | 0 <= i < |kept| ensures kept[i].Dict? {
      Seqs.WhereMembership(items, p, kept[i]);
    }
  }

  /** A dict with matches prints exactly one line, and it looks `value_key` up among the
      filtered dict's own keys (the record ids), not inside the records. */
  lemma DictPrintsOneLine(entries: seq<Entry>, valueKey: string, filterKey: string, filterValue: string)
    requires Filtering.AllDictValues(entries)
    requires exists e :: e in entries && Matches(e.value, filterKey, filterValue)
    ensures
      var kept := Seqs.Where(entries, (e: Entry) => Matches(e.value, filterKey, filterValue));
      ValueLines(Dict(entries), valueKey, filterKey, filterValue)
        == Ok([valueKey + ": " + Show(Get(kept, valueKey, Str("Not found")))])
  {
    var e :| e in entries && Matches(e.value, filterKey, filterValue);
    Seqs.WhereMembership(entries, (e: Entry) => Matches(e.value, filterKey, filterValue), e);
  }

  /** Truthy data that is neither a list nor a dict passes the filter unchanged and
      prints nothing. */
  lemma OtherTruthyPrintsNothing(data: Value, valueKey: string, filterKey: string, filterValue: string)
    requires Truthy(data) && !data.List? && !data.Dict?
    ensures ValueLines(data, valueKey, filterKey, filterValue) == Ok([])
  {
    FilterOther(data, filterKey, filterValue);
  }
}
