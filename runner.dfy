/** The older command runner of `runner.py`: `execute_command` looks a command's first
    token up as a module and its second as a method of that module's class, turns the
    remaining `key=value` tokens into keyword arguments and prints what the call returns;
    `main` runs every command of the commands file in order. Discovery of the classes,
    `shlex.split`, the instantiation of a class and the call itself are collaborators. */
module Runner {
  import opened Wrappers
  import opened PyValues
  import opened Text

  /** The class found in a module: the attribute names an instance of it has. */
  datatype ClassInfo = ClassInfo(attributes: set<string>)

  /** `classes_and_objects`: each module name with its class, `None` when the module
      defines no class of its own name. */
  type Registry = map<string, Option<ClassInfo>>

  /** `shlex.split(command)`, which raises `ValueError` on an unclosed quotation. */
  type Tokenize = string -> Result<seq<string>, Exc>

  /** What `method(**method_args)` does: the value it returns, or the text `str(e)` of the
      exception it raises. */
  datatype Call = Returned(value: Value) | CallRaised(message: string)

  datatype Runtime = Runtime(
    /** `class_obj()` of a module's class: the exception it raises, or `None`. */
    instantiate: string -> Option<Exc>,
    /** The call of a method of a fresh instance with keyword arguments. */
    call: (string, string, map<string, Value>) -> Call)

  /** A call the runner made: module, method and keyword arguments. */
  datatype Invocation = Invocation(moduleName: string, methodName: string, args: map<string, Value>)

  /** What `execute_command` does with one command: the call it made, if any, and either
      the line it printed or the exception that escaped it. */
  datatype Outcome = Outcome(invoked: Option<Invocation>, result: Result<string, Exc>)

  /** The keyword of an argument token: the text before the first `=`, or the whole token. */
  function KeyOf(token: string): string
  {
    match SplitOnce(token, '=')
    case Some((key, _)) => key
    case None => token
  }

  /** The value of an argument token: the text after the first `=`, or `True`. */
  function ValueOf(token: string): Value
  {
    match SplitOnce(token, '=')
    case Some((_, value)) => Str(value)
    case None => Bool(true)
  }

  /** The `method_args` dict after the tokens, assigned one by one. */
  function ArgsOf(tokens: seq<string>): map<string, Value>
  {
    if tokens == [] then map[]
    else
      var last := tokens[|tokens| - 1];
      ArgsOf(tokens[..|tokens| - 1])[KeyOf(last) := ValueOf(last)]
  }

  /** The argument loop of `execute_command`. */
  method ParseArgs(tokens: seq<string>) returns (args: map<string, Value>)
    ensures args == ArgsOf(tokens)
  {
    args := map[];
    for i := 0 to |tokens|
      invariant args == ArgsOf(tokens[..i])
    {
      assert tokens[..i + 1][..i] == tokens[..i];
      var arg := tokens[i];
      match SplitOnce(arg, '=') {
        case Some((key, value)) => args := args[key := Str(value)];
        case None => args := args[arg := Bool(true)];
      }
    }
    assert tokens[..|tokens|] == tokens;
  }

  /** Every token gives a keyword, and every keyword comes from a token. */
  lemma {:induction false} ArgsKeys(tokens: seq<string>)
    ensures forall i :: 0 <= i < |tokens| ==> KeyOf(tokens[i]) in ArgsOf(tokens)
    ensures forall k :: k in ArgsOf(tokens) ==> exists i :: 0 <= i < |tokens| && KeyOf(tokens[i]) == k
  {
    if tokens != [] {
      var front := tokens[..|tokens| - 1];
      var last := tokens[|tokens| - 1];
      ArgsKeys(front);
      assert ArgsOf(tokens) == ArgsOf(front)[KeyOf(last) := ValueOf(last)];
      forall i | 0 <= i < |tokens|
        ensures KeyOf(tokens[i]) in ArgsOf(tokens)
      {
        if i < |front| {
          assert tokens[i] == front[i];
        }
      }
      forall k | k in ArgsOf(tokens)
        ensures exists i :: 0 <= i < |tokens| && KeyOf(tokens[i]) == k
      {
        if k == KeyOf(last) {
          assert KeyOf(tokens[|tokens| - 1]) == k;
        } else {
          var i :| 0 <= i < |front| && KeyOf(front[i]) == k;
          assert tokens[i] == front[i];
        }
      }
    }
  }

  /** A later token with the same keyword overrides an earlier one: each keyword holds the
      value of its last token. */
  lemma {:induction false} LastTokenWins(tokens: seq<string>, i: nat)
    requires i < |tokens|
    requires forall j :: i < j < |tokens| ==> KeyOf(tokens[j]) != KeyOf(tokens[i])
    ensures KeyOf(tokens[i]) in ArgsOf(tokens)
    ensures ArgsOf(tokens)[KeyOf(tokens[i])] == ValueOf(tokens[i])
  {
    if i < |tokens| - 1 {
      var front := tokens[..|tokens| - 1];
      assert forall j :: i < j < |front| ==> front[j] == tokens[j];
      LastTokenWins(front, i);
    }
  }

  /** A `key=value` token gives `key` the string `value`, which may itself hold `=`; a
      token without `=` gives itself the value `True`. */
  lemma TokenForms(key: string, value: string, bare: string)
    requires '=' !in key && '=' !in bare
    ensures KeyOf(key + "=" + value) == key && ValueOf(key + "=" + value) == Str(value)
    ensures KeyOf(bare) == bare && ValueOf(bare) == Bool(true)
  {
    SplitOnceAt(key, '=', value);
  }

  /** `execute_command(command, classes_and_objects)` */
  function Execute(command: string, tokenize: Tokenize, registry: Registry, rt: Runtime): Outcome
  {
    match tokenize(command)
    case Err(e) => Outcome(None, Err(e))
    case Ok(parts) =>
      if |parts| < 2 then Outcome(None, Ok("Error: Invalid command format: " + command))
      else
        var moduleName := parts[0];
        var methodName := parts[1];
        if moduleName !in registry then Outcome(None, Ok("Error: Module " + moduleName + " not found."))
        else if registry[moduleName].None? then
          Outcome(None, Ok("Error: Class not found in module " + moduleName + "."))
        else if rt.instantiate(moduleName).Some? then Outcome(None, Err(rt.instantiate(moduleName).value))
        else if methodName !in registry[moduleName].value.attributes then
          Outcome(None, Ok("Error: Method " + methodName + " not found in class " + moduleName + "."))
        else
          var args := ArgsOf(parts[2..]);
          var invoked := Some(Invocation(moduleName, methodName, args));
          match rt.call(moduleName, methodName, args)
          case Returned(v) => Outcome(invoked, Ok("Result of " + moduleName + "." + methodName + ": " + Show(v)))
          case CallRaised(message) =>
            Outcome(invoked, Ok("Error executing " + moduleName + "." + methodName + ": " + message))
  }

  /** The command is carried out exactly when it has two tokens, names a module with a
      class, the class can be instantiated and its instance has the method; the call then
      gets the keyword arguments of the tokens after the second. */
  lemma CallsOnlyAResolvedMethod(command: string, tokenize: Tokenize, registry: Registry, rt: Runtime)
    ensures var out := Execute(command, tokenize, registry, rt);
      && (out.invoked.Some? <==>
            && tokenize(command).Ok?
            && |tokenize(command).value| >= 2
            && tokenize(command).value[0] in registry
            && registry[tokenize(command).value[0]].Some?
            && rt.instantiate(tokenize(command).value[0]).None?
            && tokenize(command).value[1] in registry[tokenize(command).value[0]].value.attributes)
      && (out.invoked.Some? ==>
            var parts := tokenize(command).value;
            out.invoked.value == Invocation(parts[0], parts[1], ArgsOf(parts[2..])))
  {
  }

  /** Each way of not calling prints its own error line and calls nothing. */
  lemma RejectionLines(command: string, tokenize: Tokenize, registry: Registry, rt: Runtime)
    requires tokenize(command).Ok?
    ensures var parts := tokenize(command).value;
      var out := Execute(command, tokenize, registry, rt);
      && (|parts| < 2 ==> out == Outcome(None, Ok("Error: Invalid command format: " + command)))
      && (|parts| >= 2 && parts[0] !in registry ==>
            out == Outcome(None, Ok("Error: Module " + parts[0] + " not found.")))
      && (|parts| >= 2 && parts[0] in registry && registry[parts[0]].None? ==>
            out == Outcome(None, Ok("Error: Class not found in module " + parts[0] + ".")))
      && (|parts| >= 2 && parts[0] in registry && registry[parts[0]].Some? && rt.instantiate(parts[0]).None?
          && parts[1] !in registry[parts[0]].value.attributes ==>
            out == Outcome(None, Ok("Error: Method " + parts[1] + " not found in class " + parts[0] + ".")))
  {
  }

  /** An exception raised by the called method is printed, never propagated: only the
      tokenizer and the class's constructor can raise out of `execute_command`. */
  lemma CallExceptionsAreCaught(command: string, tokenize: Tokenize, registry: Registry, rt: Runtime)
    ensures var out := Execute(command, tokenize, registry, rt);
      && (out.invoked.Some? ==> out.result.Ok?)
      && (out.invoked.Some? && rt.call(out.invoked.value.moduleName, out.invoked.value.methodName,
                                      out.invoked.value.args).CallRaised? ==>
            out.result.value == "Error executing " + out.invoked.value.moduleName + "."
                                + out.invoked.value.methodName + ": "
                                + rt.call(out.invoked.value.moduleName, out.invoked.value.methodName,
                                          out.invoked.value.args).message)
      && (out.result.Err? ==>
            tokenize(command).Err? || rt.instantiate(tokenize(command).value[0]) == Some(out.result.error))
  {
  }

  /** `TestModule test_method arg1=value1` calls the method with `arg1='value1'` and
      prints what it returns. */
  lemma TestModuleExample(tokenize: Tokenize, rt: Runtime)
    requires tokenize("TestModule test_method arg1=value1") == Ok(["TestModule", "test_method", "arg1=value1"])
    requires rt.instantiate("TestModule").None?
    requires rt.call("TestModule", "test_method", map["arg1" := Str("value1")]) == Returned(Str("test_result"))
    ensures var out := Execute("TestModule test_method arg1=value1", tokenize,
                              map["TestModule" := Some(ClassInfo({"test_method"}))], rt);
      && out.invoked == Some(Invocation("TestModule", "test_method", map["arg1" := Str("value1")]))
      && out.result == Ok("Result of TestModule.test_method: test_result")
  {
    var parts: seq<string> := ["TestModule", "test_method", "arg1=value1"];
    assert parts[2..] == ["arg1=value1"];
    ExampleArgs();
    ExampleLine();
  }

  lemma ExampleLine()
    ensures "Result of " + "TestModule" + "." + "test_method" + ": " + "test_result"
         == "Result of TestModule.test_method: test_result"
  {
  }

  lemma ExampleArgs()
    ensures ArgsOf(["arg1=value1"]) == map["arg1" := Str("value1")]
  {
    TokenForms("arg1", "value1", "");
    assert "arg1=value1" == "arg1" + "=" + "value1";
    assert ["arg1=value1"][..0] == [];
  }

  /** The outcomes of the commands from the first onwards: each is carried out in order,
      and the first exception that escapes ends the run. */
  function Outcomes(commands: seq<string>, tokenize: Tokenize, registry: Registry, rt: Runtime): seq<Outcome>
  {
    if commands == [] then []
    else
      var out := Execute(commands[0], tokenize, registry, rt);
      if out.result.Err? then [out] else [out] + Outcomes(commands[1..], tokenize, registry, rt)
  }

  /** One step of the run: with the outcomes before command `i` known, an outcome that
      raised ends the run there and one that returned leaves the rest to come. */
  lemma OutcomesStep(commands: seq<string>, i: nat, before: seq<Outcome>, out: Outcome,
                     tokenize: Tokenize, registry: Registry, rt: Runtime)
    requires i < |commands| && out == Execute(commands[i], tokenize, registry, rt)
    requires Outcomes(commands, tokenize, registry, rt) == before + Outcomes(commands[i..], tokenize, registry, rt)
    ensures out.result.Err? ==> Outcomes(commands, tokenize, registry, rt) == before + [out]
    ensures out.result.Ok? ==>
      Outcomes(commands, tokenize, registry, rt) == (before + [out]) + Outcomes(commands[i + 1..], tokenize, registry, rt)
  {
    assert commands[i..][1..] == commands[i + 1..];
  }

  const Usage := "Usage: python runner.py commands.yaml"

  /** `main()`, given `sys.argv` and the `commands` list of the commands file. The exit
      status is 1 after the usage line and after an exception escapes a command, 0 once
      every command has run. */
  method RunMain(argv: seq<string>, commands: seq<string>, tokenize: Tokenize, registry: Registry, rt: Runtime)
    returns (exitCode: int, usage: Option<string>, outcomes: seq<Outcome>)
    ensures |argv| != 2 ==> exitCode == 1 && usage == Some(Usage) && outcomes == []
    ensures |argv| == 2 ==> usage.None? && outcomes == Outcomes(commands, tokenize, registry, rt)
    ensures |argv| == 2 ==> (exitCode == 0 <==> forall k :: 0 <= k < |outcomes| ==> outcomes[k].result.Ok?)
    ensures exitCode == 0 || exitCode == 1
  {
    if |argv| != 2 {
      return 1, Some(Usage), [];
    }
    usage := None;
    outcomes := [];
    for i := 0 to |commands|
      invariant Outcomes(commands, tokenize, registry, rt) == outcomes + Outcomes(commands[i..], tokenize, registry, rt)
      invariant forall k :: 0 <= k < |outcomes| ==> outcomes[k].result.Ok?
    {
      var out := Execute(commands[i], tokenize, registry, rt);
      OutcomesStep(commands, i, outcomes, out, tokenize, registry, rt);
      outcomes := outcomes + [out];
      if out.result.Err? {
        assert outcomes[|outcomes| - 1] == out;
        return 1, usage, outcomes;
      }
    }
    exitCode := 0;
  }

  /** When no exception escapes, every command is carried out once, in order. */
  lemma {:induction false} EveryCommandRunsInOrder(commands: seq<string>, tokenize: Tokenize, registry: Registry, rt: Runtime)
    requires forall i :: 0 <= i < |commands| ==> Execute(commands[i], tokenize, registry, rt).result.Ok?
    ensures var outs := Outcomes(commands, tokenize, registry, rt);
      |outs| == |commands| && forall i :: 0 <= i < |commands| ==> outs[i] == Execute(commands[i], tokenize, registry, rt)
  {
    if commands != [] {
      EveryCommandRunsInOrder(commands[1..], tokenize, registry, rt);
    }
  }

  /** An exception escaping a command ends the run there: the commands after it are not
      carried out. */
  lemma {:induction false} RunStopsAtEscape(commands: seq<string>, tokenize: Tokenize, registry: Registry, rt: Runtime, k: nat)
    requires k < |commands|
    requires forall i :: 0 <= i < k ==> Execute(commands[i], tokenize, registry, rt).result.Ok?
    requires Execute(commands[k], tokenize, registry, rt).result.Err?
    ensures var outs := Outcomes(commands, tokenize, registry, rt);
      |outs| == k + 1 && outs[k] == Execute(commands[k], tokenize, registry, rt)
  {
    if k > 0 {
      RunStopsAtEscape(commands[1..], tokenize, registry, rt, k - 1);
    }
  }
}
