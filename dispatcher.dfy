/** `execute_command` of `src/execute_command.py`: route one command, already split into
    tokens, to the SQL path, the `filter` / `print value` forms, or a service operation
    resolved through the account profiles and the service registry, and save what a
    successful call returns. Service construction, the operation call and
    `parse_command_args` are collaborators given in `Services`. */
module Dispatcher {
  import opened Wrappers
  import opened PyValues
  import Text
  import Filtering
  import Printing
  import opened ResultStore

  /** `classes_and_objects[name]`: the names of its methods table, lower-cased when the
      registry is built. */
  datatype ServiceEntry = ServiceEntry(methods: set<string>)

  /** What `service_class(**constructor_args)` does: returns, or raises `exc`. */
  datatype Construction = Constructed | ConstructorRaised(exc: Exc)

  /** What `method(instance, **method_args)` does. */
  datatype Call = Returned(value: Value) | CallRaised(exc: Exc)

  datatype Services = Services(
    construct: (string, map<string, Value>) -> Construction,
    invoke: (string, map<string, Value>, string, map<string, Value>) -> Call,
    parseArgs: seq<string> -> map<string, Value>)

  /** What `execute_command` logs (or prints) when it returns normally. */
  datatype Log =
    | SqlQueryRun
    | InvalidCommandFormat
    | FilteredSaved
    | NoDataForKey
    | ValuePrinted(lines: seq<string>)
    | NoDataForPrint
    | InvalidAccountAlias
    | InvalidServiceName
    | ConstructionFailed
    | MethodNotFound
    | ResultSaved
    | ExecutionFailed(exc: Exc)

  /** `Raised` is an exception that leaves `execute_command`. */
  datatype Outcome = Handled(log: Log) | Raised(exc: Exc)

  /** The arguments of the one `save_result` call, made after everything else succeeded. */
  datatype Save = Save(name: string, serviceName: string, methodName: string, result: Value)

  datatype Decision = Decision(outcome: Outcome, save: Option<Save>)

  /** `command.strip().upper().startswith("SELECT")` */
  predicate IsSqlQuery(command: string)
  {
    Text.StartsWith(Text.Upper(Text.TrimStart(command)), "SELECT")
  }

  /** The first index at or after `i` holding a profile key, or `|parts|`. */
  function AliasIndexFrom(parts: seq<string>, profiles: map<string, map<string, Value>>, i: nat): (k: nat)
    requires i <= |parts|
    ensures i <= k <= |parts|
    ensures forall j :: i <= j < k ==> parts[j] !in profiles
    ensures k < |parts| ==> parts[k] in profiles
    decreases |parts| - i
  {
    if i == |parts| || parts[i] in profiles then i else AliasIndexFrom(parts, profiles, i + 1)
  }

  /** Where the account alias sits: the first token that is a profile key. */
  function AliasIndex(parts: seq<string>, profiles: map<string, map<string, Value>>): nat
  {
    AliasIndexFrom(parts, profiles, 0)
  }

  /** `'_'.join(method_parts).lower()` */
  function MethodName(methodParts: seq<string>): string
  {
    Text.Lower(Text.Join("_", methodParts))
  }

  /** `{k: v for k, v in service_info.items() if k != 'service'}` */
  function ConstructorArgs(info: map<string, Value>): (args: map<string, Value>)
    ensures args.Keys == info.Keys - {"service"}
    ensures forall k :: k in args ==> args[k] == info[k]
  {
    map k | k in info && k != "service" :: info[k]
  }

  /** `filter <service>_<method> <key> <value>` */
  function FilterCommand(parts: seq<string>, rows: seq<Record>, codec: Codec): (d: Decision)
    ensures d.save.Some? <==> d.outcome == Handled(FilteredSaved)
  {
    if |parts| < 4 then Decision(Raised(IndexError), None)
    else match Text.SplitOnce(parts[1], '_')
      case None => Decision(Raised(ValueError), None)
      case Some((svc, m)) =>
        var data := GetLatestResult(rows, svc, m, codec);
        if !Truthy(data) then Decision(Handled(NoDataForKey), None)
        else match Filtering.FilterData(data, parts[2], parts[3])
          case Err(e) => Decision(Raised(e), None)
          case Ok(filtered) => Decision(Handled(FilteredSaved), Some(Save("name", svc, m, filtered)))
  }

  /** `print value <value_key> <any> <key>=<value> ... <service>_<method>` */
  function PrintCommand(parts: seq<string>, rows: seq<Record>, codec: Codec): (d: Decision)
    ensures d.save.None?
  {
    if |parts| < 5 then Decision(Raised(IndexError), None)
    else match Text.SplitOnce(parts[4], '=')
      case None => Decision(Raised(ValueError), None)
      case Some((filterKey, filterValue)) =>
        if '=' in filterValue then Decision(Raised(ValueError), None)
        else match Text.SplitOnce(parts[|parts| - 1], '_')
          case None => Decision(Raised(ValueError), None)
          case Some((svc, m)) =>
            var data := GetLatestResult(rows, svc, m, codec);
            if !Truthy(data) then Decision(Handled(NoDataForPrint), None)
            else match Printing.ValueLines(data, parts[2], filterKey, filterValue)
              case Err(e) => Decision(Raised(e), None)
              case Ok(lines) => Decision(Handled(ValuePrinted(lines)), None)
  }

  /** `<method words> <alias> <arguments>` */
  function ServiceCommand(parts: seq<string>, registry: map<string, ServiceEntry>,
                          profiles: map<string, map<string, Value>>, services: Services): (d: Decision)
    ensures d.save.Some? <==> d.outcome == Handled(ResultSaved)
  {
    var k := AliasIndex(parts, profiles);
    if k == |parts| || parts[k] == "" then Decision(Handled(InvalidAccountAlias), None)
    else
      var alias := parts[k];
      var methodName := MethodName(parts[..k]);
      var info := profiles[alias];
      if "service" !in info then Decision(Raised(KeyError("service")), None)
      else
        var svc := info["service"];
        if svc.List? || svc.Dict? then Decision(Raised(TypeError), None)
        else if !svc.Str? || svc.s !in registry then Decision(Handled(InvalidServiceName), None)
        else
          var ctorArgs := ConstructorArgs(info);
          match services.construct(svc.s, ctorArgs)
          case ConstructorRaised(e) =>
            if e == TypeError then Decision(Handled(ConstructionFailed), None) else Decision(Raised(e), None)
          case Constructed =>
            if methodName !in registry[svc.s].methods then Decision(Handled(MethodNotFound), None)
            else match services.invoke(svc.s, ctorArgs, methodName, services.parseArgs(parts[k + 1..]))
              case CallRaised(e) => Decision(Handled(ExecutionFailed(e)), None)
              case Returned(v) => Decision(Handled(ResultSaved), Some(Save(alias, svc.s, methodName, v)))
  }

  /** Neither a SQL query, nor too short, nor one of the two special forms. */
  predicate IsServiceForm(command: string, parts: seq<string>)
  {
    !IsSqlQuery(command) && |parts| >= 2
    && Text.Lower(parts[0]) != "filter"
    && !(Text.Lower(parts[0]) == "print" && parts[1] == "value")
  }

  /** The branch of `execute_command` a command takes, in the order the code tests them. */
  datatype Form = SqlForm | ShortForm | FilterForm | PrintForm | ServiceForm

  function FormOf(command: string, parts: seq<string>): Form
  {
    if IsSqlQuery(command) then SqlForm
    else if |parts| < 2 then ShortForm
    else if Text.Lower(parts[0]) == "filter" then FilterForm
    else if Text.Lower(parts[0]) == "print" && parts[1] == "value" then PrintForm
    else ServiceForm
  }

  /** What each branch decides. */
  function Decide(form: Form, parts: seq<string>, registry: map<string, ServiceEntry>,
                  profiles: map<string, map<string, Value>>, rows: seq<Record>,
                  codec: Codec, services: Services): (d: Decision)
    ensures d.save.Some? <==> d.outcome == Handled(FilteredSaved) || d.outcome == Handled(ResultSaved)
  {
    match form
    case SqlForm => Decision(Handled(SqlQueryRun), None)
    case ShortForm => Decision(Handled(InvalidCommandFormat), None)
    case FilterForm => FilterCommand(parts, rows, codec)
    case PrintForm => PrintCommand(parts, rows, codec)
    case ServiceForm => ServiceCommand(parts, registry, profiles, services)
  }

  /** Everything `execute_command(command, classes_and_objects, service_config)` decides,
      given the tokens `shlex.split(command)` and the rows of the result table. */
  function Dispatch(command: string, parts: seq<string>, registry: map<string, ServiceEntry>,
                    profiles: map<string, map<string, Value>>, rows: seq<Record>,
                    codec: Codec, services: Services): (d: Decision)
    ensures d.save.Some? <==> d.outcome == Handled(FilteredSaved) || d.outcome == Handled(ResultSaved)
  {
    Decide(FormOf(command, parts), parts, registry, profiles, rows, codec, services)
  }

  /** The rows one `save_result` call appends for a decision. */
  function Appended(save: Option<Save>, id: nat, command: string, codec: Codec, now: int): seq<Record>
  {
    match save
    case None => []
    case Some(s) => [Record(id, command, s.name, s.serviceName, s.methodName, Serialize(codec, s.result), now)]
  }

  /** The loop of lines 62-68: collect tokens until the first profile key. */
  method FindAlias(parts: seq<string>, profiles: map<string, map<string, Value>>)
    returns (methodParts: seq<string>, alias: Option<string>)
    ensures |methodParts| == AliasIndex(parts, profiles)
    ensures methodParts == parts[..|methodParts|]
    ensures alias == if |methodParts| < |parts| then Some(parts[|methodParts|]) else None
  {
    methodParts := [];
    alias := None;
    var i := 0;
    while i < |parts|
      invariant 0 <= i <= |parts|
      invariant methodParts == parts[..i]
      invariant AliasIndexFrom(parts, profiles, i) == AliasIndex(parts, profiles)
    {
      if parts[i] in profiles {
        alias := Some(parts[i]);
        return;
      }
      methodParts := methodParts + [parts[i]];
      i := i + 1;
    }
  }

  /** `execute_command`: its outcome is the one `Dispatch` decides, and the result table
      grows by exactly the row of the decided save, if any. */
  method ExecuteCommand(table: ResultTable, command: string, parts: seq<string>,
                        registry: map<string, ServiceEntry>, profiles: map<string, map<string, Value>>,
                        services: Services, codec: Codec, now: int)
    returns (outcome: Outcome)
    requires table.Valid()
    modifies table
    ensures table.Valid()
    ensures outcome == Dispatch(command, parts, registry, profiles, old(table.rows), codec, services).outcome
    ensures table.rows == old(table.rows)
      + Appended(Dispatch(command, parts, registry, profiles, old(table.rows), codec, services).save,
                 old(table.nextId), command, codec, now)
  {
    ghost var decided := Dispatch(command, parts, registry, profiles, table.rows, codec, services);
    if IsSqlQuery(command) {
      SqlQueryIsOnlyRouted(command, parts, registry, profiles, table.rows, codec, services);
      assert Appended(decided.save, table.nextId, command, codec, now) == [];
      return Handled(SqlQueryRun);
    }
    if |parts| < 2 {
      ShortCommandIsInvalid(command, parts, registry, profiles, table.rows, codec, services);
      assert Appended(decided.save, table.nextId, command, codec, now) == [];
      return Handled(InvalidCommandFormat);
    }
    var action := Text.Lower(parts[0]);
    if action == "filter" {
      FilterFormDispatch(command, parts, registry, profiles, table.rows, codec, services);
      outcome := ExecuteFilter(table, command, parts, codec, now);
    } else if action == "print" && parts[1] == "value" {
      PrintFormDispatch(command, parts, registry, profiles, table.rows, codec, services);
      assert Appended(decided.save, table.nextId, command, codec, now) == [];
      outcome := ExecutePrint(table, parts, codec);
    } else {
      ServiceFormDispatch(command, parts, registry, profiles, table.rows, codec, services);
      outcome := ExecuteService(table, command, parts, registry, profiles, services, codec, now);
    }
  }

  /** Lines 35-48: the `filter` form. */
  method ExecuteFilter(table: ResultTable, command: string, parts: seq<string>, codec: Codec, now: int)
    returns (outcome: Outcome)
    requires table.Valid()
    modifies table
    ensures table.Valid()
    ensures outcome == FilterCommand(parts, old(table.rows), codec).outcome
    ensures table.rows == old(table.rows) + Appended(FilterCommand(parts, old(table.rows), codec).save,
                                                     old(table.nextId), command, codec, now)
  {
    if |parts| < 4 {
      return Raised(IndexError);
    }
    var key := Text.SplitOnce(parts[1], '_');
    if key.None? {
      return Raised(ValueError);
    }
    var (svc, m) := key.value;
    var data := GetLatestResult(table.rows, svc, m, codec);
    if Truthy(data) {
      var filtered := Filtering.FilterData(data, parts[2], parts[3]);
      if filtered.Err? {
        return Raised(filtered.error);
      }
      var _ := table.SaveResult(command, "name", svc, m, filtered.value, codec, now);
      return Handled(FilteredSaved);
    }
    return Handled(NoDataForKey);
  }

  /** Lines 49-60: the `print value` form, which saves nothing. */
  method ExecutePrint(table: ResultTable, parts: seq<string>, codec: Codec) returns (outcome: Outcome)
    ensures outcome == PrintCommand(parts, table.rows, codec).outcome
  {
    if |parts| < 5 {
      return Raised(IndexError);
    }
    var pair := Text.SplitOnce(parts[4], '=');
    if pair.None? || '=' in pair.value.1 {
      return Raised(ValueError);
    }
    var (filterKey, filterValue) := pair.value;
    var key := Text.SplitOnce(parts[|parts| - 1], '_');
    if key.None? {
      return Raised(ValueError);
    }
    var (svc, m) := key.value;
    var data := GetLatestResult(table.rows, svc, m, codec);
    if Truthy(data) {
      var lines := Printing.PrintValue(data, parts[2], filterKey, filterValue);
      if lines.Err? {
        return Raised(lines.error);
      }
      return Handled(ValuePrinted(lines.value));
    }
    return Handled(NoDataForPrint);
  }

  /** Lines 62-110: the service form. */
  method ExecuteService(table: ResultTable, command: string, parts: seq<string>,
                        registry: map<string, ServiceEntry>, profiles: map<string, map<string, Value>>,
                        services: Services, codec: Codec, now: int)
    returns (outcome: Outcome)
    requires table.Valid()
    modifies table
    ensures table.Valid()
    ensures outcome == ServiceCommand(parts, registry, profiles, services).outcome
    ensures table.rows == old(table.rows) + Appended(ServiceCommand(parts, registry, profiles, services).save,
                                                     old(table.nextId), command, codec, now)
  {
    var methodParts, alias := FindAlias(parts, profiles);
    if alias.None? || alias.value == "" {
      return Handled(InvalidAccountAlias);
    }
    var methodName := MethodName(methodParts);
    var info := profiles[alias.value];
    if "service" !in info {
      return Raised(KeyError("service"));
    }
    var svc := info["service"];
    if svc.List? || svc.Dict? {
      return Raised(TypeError);
    }
    if !svc.Str? || svc.s !in registry {
      return Handled(InvalidServiceName);
    }
    var ctorArgs := ConstructorArgs(info);
    var instance := services.construct(svc.s, ctorArgs);
    if instance == ConstructorRaised(TypeError) {
      return Handled(ConstructionFailed);
    } else if instance.ConstructorRaised? {
      return Raised(instance.exc);
    }
    if methodName !in registry[svc.s].methods {
      return Handled(MethodNotFound);
    }
    var args := services.parseArgs(parts[|methodParts| + 1..]);
    var call := services.invoke(svc.s, ctorArgs, methodName, args);
    if call.CallRaised? {
      return Handled(ExecutionFailed(call.exc));
    }
    var _ := table.SaveResult(command, alias.value, svc.s, methodName, call.value, codec, now);
    return Handled(ResultSaved);
  }

  /** A command that starts with SELECT, in any case and after any leading whitespace, only
      goes to the SQL path: nothing is resolved, constructed, called or saved, whatever the
      profiles, registry, table and services. */
  lemma SqlQueryIsOnlyRouted(command: string, parts: seq<string>, registry: map<string, ServiceEntry>,
                             profiles: map<string, map<string, Value>>, rows: seq<Record>,
                             codec: Codec, services: Services)
    requires IsSqlQuery(command)
    ensures Dispatch(command, parts, registry, profiles, rows, codec, services) == Decision(Handled(SqlQueryRun), None)
  {
  }

  /** The SELECT test ignores case and leading whitespace. */
  lemma SqlQueryExamples()
    ensures IsSqlQuery(" select 1")
    ensures !IsSqlQuery("list 1")
  {
    var s := " select 1";
    assert s[0] == ' ' && !Text.IsSpace(s[1]);
    assert Text.TrimStart(s) == s[1..];
    UpperStartsWithSelect(s[1..]);
    var t := "list 1";
    assert !Text.IsSpace(t[0]);
    assert Text.TrimStart(t) == t;
    assert Text.Upper(t)[0] == 'L';
  }

  lemma UpperStartsWithSelect(s: string)
    requires |s| >= 6 && s[..6] == "select"
    ensures Text.StartsWith(Text.Upper(s), "SELECT")
  {
    assert Text.Upper(s)[..6] == "SELECT";
  }

  /** Fewer than two tokens: logged as invalid, nothing looked up or saved. */
  lemma ShortCommandIsInvalid(command: string, parts: seq<string>, registry: map<string, ServiceEntry>,
                              profiles: map<string, map<string, Value>>, rows: seq<Record>,
                              codec: Codec, services: Services)
    requires !IsSqlQuery(command) && |parts| < 2
    ensures Dispatch(command, parts, registry, profiles, rows, codec, services) == Decision(Handled(InvalidCommandFormat), None)
  {
  }

  /** `filter <svc>_<method> k v` reads the latest result of the pair the key names (split
      at its first `_`); with data it saves exactly the filtered data once, under the
      literal name `name`, and without data it saves nothing. */
  lemma FilterSavesUnderItsKey(parts: seq<string>, rows: seq<Record>, codec: Codec, svc: string, m: string)
    requires |parts| >= 4
    requires parts[1] == svc + "_" + m && '_' !in svc
    ensures
      var d := FilterCommand(parts, rows, codec);
      var data := GetLatestResult(rows, svc, m, codec);
      && (!Truthy(data) ==> d == Decision(Handled(NoDataForKey), None))
      && (Truthy(data) && Filtering.FilterData(data, parts[2], parts[3]).Ok? ==>
            d == Decision(Handled(FilteredSaved),
                          Some(Save("name", svc, m, Filtering.FilterData(data, parts[2], parts[3]).value))))
  {
    Text.SplitOnceAt(svc, '_', m);
  }

  /** The `filter` form goes to the filter command. */
  lemma FilterFormDispatch(command: string, parts: seq<string>, registry: map<string, ServiceEntry>,
                           profiles: map<string, map<string, Value>>, rows: seq<Record>,
                           codec: Codec, services: Services)
    requires !IsSqlQuery(command) && |parts| >= 2 && Text.Lower(parts[0]) == "filter"
    ensures Dispatch(command, parts, registry, profiles, rows, codec, services) == FilterCommand(parts, rows, codec)
  {
  }

  /** The `print value` form goes to the print command. */
  lemma PrintFormDispatch(command: string, parts: seq<string>, registry: map<string, ServiceEntry>,
                          profiles: map<string, map<string, Value>>, rows: seq<Record>,
                          codec: Codec, services: Services)
    requires !IsSqlQuery(command) && |parts| >= 2 && Text.Lower(parts[0]) != "filter"
    requires Text.Lower(parts[0]) == "print" && parts[1] == "value"
    ensures Dispatch(command, parts, registry, profiles, rows, codec, services) == PrintCommand(parts, rows, codec)
  {
  }

  /** In the service form the decision is the service command's. */
  lemma ServiceFormDispatch(command: string, parts: seq<string>, registry: map<string, ServiceEntry>,
                            profiles: map<string, map<string, Value>>, rows: seq<Record>,
                            codec: Codec, services: Services)
    requires IsServiceForm(command, parts)
    ensures Dispatch(command, parts, registry, profiles, rows, codec, services) == ServiceCommand(parts, registry, profiles, services)
  {
  }

  /** In the service form, a saved row names as account the first token that is a profile
      key, and as method the tokens before it joined with `_` and lower-cased; the service is
      the profile's `service` field, the constructor gets the profile's other fields, and
      the call gets the arguments parsed from the tokens after the alias. */
  lemma ServiceSaveResolvesFirstAlias(parts: seq<string>, registry: map<string, ServiceEntry>,
                                      profiles: map<string, map<string, Value>>, services: Services)
    ensures
      var d := ServiceCommand(parts, registry, profiles, services);
      d.save.Some? ==>
        exists k :: 0 <= k < |parts|
          && parts[k] in profiles && (forall j :: 0 <= j < k ==> parts[j] !in profiles)
          && d.save.value.name == parts[k]
          && d.save.value.methodName == MethodName(parts[..k])
          && "service" in profiles[parts[k]]
          && profiles[parts[k]]["service"] == Str(d.save.value.serviceName)
          && d.save.value.serviceName in registry
          && d.save.value.methodName in registry[d.save.value.serviceName].methods
          && services.construct(d.save.value.serviceName, ConstructorArgs(profiles[parts[k]])) == Constructed
          && services.invoke(d.save.value.serviceName, ConstructorArgs(profiles[parts[k]]),
                             d.save.value.methodName, services.parseArgs(parts[k + 1..]))
             == Returned(d.save.value.result)
  {
    var d := ServiceCommand(parts, registry, profiles, services);
    if d.save.Some? {
      var k := AliasIndex(parts, profiles);
      assert k < |parts|;
    }
  }

  /** When no token is a profile key, an error is logged and nothing is constructed,
      called or saved. */
  lemma NoAliasSavesNothing(parts: seq<string>, registry: map<string, ServiceEntry>,
                            profiles: map<string, map<string, Value>>, services: Services)
    requires forall i :: 0 <= i < |parts| ==> parts[i] !in profiles
    ensures ServiceCommand(parts, registry, profiles, services) == Decision(Handled(InvalidAccountAlias), None)
  {
  }

  /** The failures after the alias is found, in the order the code meets them: an unknown
      service, a `TypeError` from the constructor (checked before the method name; any
      other exception from the constructor escapes), a method missing from the table, and
      an exception from the call, which is logged and not raised. None of them saves
      anything. */
  lemma ServiceFailuresSaveNothing(parts: seq<string>, registry: map<string, ServiceEntry>,
                                   profiles: map<string, map<string, Value>>, services: Services)
    requires AliasIndex(parts, profiles) < |parts| && parts[AliasIndex(parts, profiles)] != ""
    requires "service" in profiles[parts[AliasIndex(parts, profiles)]]
    ensures
      var k := AliasIndex(parts, profiles);
      var info := profiles[parts[k]];
      var svc := info["service"];
      var d := ServiceCommand(parts, registry, profiles, services);
      var built := svc.Str? && svc.s in registry && services.construct(svc.s, ConstructorArgs(info)) == Constructed;
      && (svc.Str? && svc.s !in registry ==> d == Decision(Handled(InvalidServiceName), None))
      && ((svc.Str? && svc.s in registry && services.construct(svc.s, ConstructorArgs(info)) == ConstructorRaised(TypeError))
            ==> d == Decision(Handled(ConstructionFailed), None))
      && (forall e :: e != TypeError && svc.Str? && svc.s in registry
                      && services.construct(svc.s, ConstructorArgs(info)) == ConstructorRaised(e)
            ==> d == Decision(Raised(e), None))
      && ((built && MethodName(parts[..k]) !in registry[svc.s].methods)
            ==> d == Decision(Handled(MethodNotFound), None))
      && ((built && MethodName(parts[..k]) in registry[svc.s].methods
           && services.invoke(svc.s, ConstructorArgs(info), MethodName(parts[..k]), services.parseArgs(parts[k + 1..])).CallRaised?)
            ==> d.save.None? && d.outcome.Handled? && d.outcome.log.ExecutionFailed?)
  {
  }

  /** The converse of the failures: once the alias names a profile whose `service` is a
      registered class, the instance is built, the method is in its table and the call
      returns `v`, exactly one row is saved, naming the alias as account, the service, the
      lower-cased method and `v`. */
  lemma ServiceReturnSaves(parts: seq<string>, registry: map<string, ServiceEntry>,
                           profiles: map<string, map<string, Value>>, services: Services, v: Value)
    requires AliasIndex(parts, profiles) < |parts| && parts[AliasIndex(parts, profiles)] != ""
    requires "service" in profiles[parts[AliasIndex(parts, profiles)]]
    requires
      var k := AliasIndex(parts, profiles);
      var info := profiles[parts[k]];
      var svc := info["service"];
      && svc.Str? && svc.s in registry
      && services.construct(svc.s, ConstructorArgs(info)) == Constructed
      && MethodName(parts[..k]) in registry[svc.s].methods
      && services.invoke(svc.s, ConstructorArgs(info), MethodName(parts[..k]), services.parseArgs(parts[k + 1..])) == Returned(v)
    ensures
      var k := AliasIndex(parts, profiles);
      var svc := profiles[parts[k]]["service"];
      ServiceCommand(parts, registry, profiles, services)
        == Decision(Handled(ResultSaved), Some(Save(parts[k], svc.s, MethodName(parts[..k]), v)))
  {
  }

  /** `list repos github_main filter=x` with the profile `github_main` calls `list_repos`. */
  lemma ListReposExample(profiles: map<string, map<string, Value>>)
    requires "github_main" in profiles && "list" !in profiles && "repos" !in profiles
    ensures
      var parts := ["list", "repos", "github_main", "filter=x"];
      AliasIndex(parts, profiles) == 2 && MethodName(parts[..2]) == "list_repos"
  {
    var parts := ["list", "repos", "github_main", "filter=x"];
    assert AliasIndexFrom(parts, profiles, 2) == 2;
    assert AliasIndexFrom(parts, profiles, 1) == 2;
    assert parts[..2] == ["list", "repos"];
    assert Text.Join("_", ["list", "repos"]) == "list" + "_" + Text.Join("_", ["repos"]);
  }
}
