/**
 * Properties of the tool component: what exposing tools does to the exposed
 * set, and how the tool step filters plan steps, absorbs failures and
 * gathers results.
 */
module AgentToolProperties {
  import opened Wrappers
  import opened Json
  import opened AgentTool

  // ---------------------------------------------------------------------
  // Exposing tools
  // ---------------------------------------------------------------------

  /** Exposing one name given as a string is exposing the one-element list: the name is added exactly when the catalogue knows it. */
  lemma SingleName(d: map<string, ToolInfo>, x: string, info: string -> Option<ToolInfo>)
    ensures d + Resolved(Names(One(x)), info) == if info(x).Some? then d[x := info(x).value] else d
  {
  }

  /** Exposing the same names again, against the same catalogue, changes nothing. */
  lemma RepeatedAddIsIdempotent(d: map<string, ToolInfo>, names: seq<string>, info: string -> Option<ToolInfo>)
    ensures (d + Resolved(names, info)) + Resolved(names, info) == d + Resolved(names, info)
  {
  }

  // ---------------------------------------------------------------------
  // Running the plan
  // ---------------------------------------------------------------------

  /** Running two stretches of a plan one after the other is running them together. */
  lemma {:induction false} RunAppend(start: RunState, a: seq<StepResult>, b: seq<StepResult>)
    ensures Run(start, a + b) == Run(Run(start, a), b)
    decreases |b|
  {
    if b == [] {
      assert a + b == a;
    } else {
      var n := |b|;
      assert (a + b)[..|a + b| - 1] == a + b[..n - 1];
      assert (a + b)[|a + b| - 1] == b[n - 1];
      RunAppend(start, a, b[..n - 1]);
    }
  }

  /** Two states that agree on the results and on having raised stay in agreement over the same steps. */
  lemma {:induction false} RunAgrees(r1: RunState, r2: RunState, os: seq<StepResult>)
    requires r1.results == r2.results && r1.aborted == r2.aborted
    ensures Run(r1, os).results == Run(r2, os).results
    ensures Run(r1, os).aborted == Run(r2, os).aborted
    decreases |os|
  {
    if os != [] {
      RunAgrees(r1, r2, os[..|os| - 1]);
    }
  }

  lemma OutcomesAppend(a: seq<Step>, b: seq<Step>, env: Env)
    ensures Outcomes(a + b, env) == Outcomes(a, env) + Outcomes(b, env)
  {
  }

  /**
   * A step that makes no call (its `using_tool` is malformed or names an
   * unknown tool), or whose call raises or returns a falsy value, can be
   * taken out of the plan without changing the answer; a step that makes no
   * call does not change the calls made either.
   */
  lemma QuietStepIsIgnored(a: seq<Step>, s: Step, b: seq<Step>, env: Env, toolDict: map<string, ToolInfo>)
    requires StepOutcome(s, env).Skip? || StepOutcome(s, env).CallOnly?
    ensures Outcome(toolDict, Plans(a + [s] + b), env).result == Outcome(toolDict, Plans(a + b), env).result
    ensures StepOutcome(s, env).Skip? ==> Outcome(toolDict, Plans(a + [s] + b), env) == Outcome(toolDict, Plans(a + b), env)
  {
    var oa, ob := Outcomes(a, env), Outcomes(b, env);
    var o := StepOutcome(s, env);
    OutcomesAppend(a + [s], b, env);
    OutcomesAppend(a, [s], env);
    OutcomesAppend(a, b, env);
    assert Outcomes([s], env) == [o];
    var mid := Run(Init, oa);
    RunAppend(Init, oa + [o], ob);
    RunAppend(Init, oa, ob);
    assert (oa + [o])[..|oa|] == oa;
    assert Run(Init, oa + [o]) == Apply(mid, o);
    RunAgrees(Apply(mid, o), mid, ob);
  }

  /**
   * A call that raises, or returns a falsy value, is absorbed: the plan
   * answers as if the step were not there, and the later steps still run.
   */
  lemma FailedCallIsAbsorbed(a: seq<Step>, s: Step, b: seq<Step>, env: Env, toolDict: map<string, ToolInfo>)
    requires StepCall(s, env).Some?
    requires var inv := StepCall(s, env).value;
      env.manager.call(inv.toolName, inv.kwargs).Raised? || !Truthy(env.manager.call(inv.toolName, inv.kwargs).value)
    ensures Outcome(toolDict, Plans(a + [s] + b), env).result == Outcome(toolDict, Plans(a + b), env).result
    ensures |toolDict| > 0 && Outcome(toolDict, Plans(a + [s] + b), env).result != Failed(MissingStepGoal) ==>
      Outcome(toolDict, Plans(a + [s] + b), env).calls ==
        Outcome(toolDict, Plans(a), env).calls + [StepCall(s, env).value] + Outcome(toolDict, Plans(b), env).calls
  {
    QuietStepIsIgnored(a, s, b, env, toolDict);
    if |toolDict| > 0 && !Run(Init, Outcomes(a + [s] + b, env)).aborted {
      CallsAround(a, s, b, env);
    }
  }

  /** In a run that did not raise, the calls are those of the steps before, the step's own call, and those of the steps after. */
  lemma CallsAround(a: seq<Step>, s: Step, b: seq<Step>, env: Env)
    requires StepCall(s, env).Some?
    requires !Run(Init, Outcomes(a + [s] + b, env)).aborted
    ensures Run(Init, Outcomes(a + [s] + b, env)).calls ==
      Run(Init, Outcomes(a, env)).calls + [StepCall(s, env).value] + Run(Init, Outcomes(b, env)).calls
  {
    var whole := a + [s] + b;
    CallsOfAppend(a + [s], b, env);
    CallsOfAppend(a, [s], env);
    assert [s][..0] == [];
    assert CallsOf([s], env) == [StepCall(s, env).value];
    assert CallsOf(whole, env) == CallsOf(a, env) + [StepCall(s, env).value] + CallsOf(b, env);
    NotAbortedPart(whole, 0, |a|, env);
    NotAbortedPart(whole, |a| + 1, |whole|, env);
    assert whole[0..|a|] == a;
    assert whole[|a| + 1..|whole|] == b;
    CallsInPlanOrder(whole, env);
    CallsInPlanOrder(a, env);
    CallsInPlanOrder(b, env);
  }

  /** A stretch of a plan that did not raise out of the loop does not raise when run on its own. */
  lemma NotAbortedPart(steps: seq<Step>, lo: nat, hi: nat, env: Env)
    requires lo <= hi <= |steps|
    requires !Run(Init, Outcomes(steps, env)).aborted
    ensures !Run(Init, Outcomes(steps[lo..hi], env)).aborted
  {
    var os, part := Outcomes(steps, env), Outcomes(steps[lo..hi], env);
    AbortedIff(os);
    AbortedIff(part);
    forall j | 0 <= j < |part|
      ensures !part[j].Abort?
    {
      assert part[j] == os[lo + j];
    }
  }

  /**
   * A step whose tool needs a proxy, when neither the settings nor the
   * manager has a usable one, is still called, with the planner's
   * arguments as they are.
   */
  lemma NoProxyStillCalled(step: Step, env: Env, usingTool: map<string, Value>, info: ToolInfo)
    requires "using_tool" in step && step["using_tool"] == Dict(usingTool) && "tool_name" in usingTool
    requires env.manager.fullInfo(usingTool["tool_name"]) == Some(info)
    requires env.settingsProxy == Null && !Truthy(env.manager.proxy)
    ensures StepCall(step, env) == Some(Invocation(info.toolName, CallArgs(usingTool)))
  {
  }

  /**
   * A truthy result that is an object with a `for_agent` field is recorded
   * as that field's value, under the serialised step goal, even when the
   * field's own value is falsy.
   */
  lemma ForAgentFieldRecorded(step: Step, env: Env, inv: Invocation, fields: map<string, Value>)
    requires StepCall(step, env) == Some(inv)
    requires env.manager.call(inv.toolName, inv.kwargs) == Returned(Dict(fields))
    requires "for_agent" in fields && "step_goal" in step
    ensures StepOutcome(step, env) == Store(inv, env.dumps(step["step_goal"]), fields["for_agent"])
  {
  }

  /** The step raises out of its loop exactly when some plan step's call returns a truthy value and the step has no `step_goal`. */
  lemma {:induction false} AbortedIff(os: seq<StepResult>)
    ensures Run(Init, os).aborted <==> exists j :: 0 <= j < |os| && os[j].Abort?
    decreases |os|
  {
    if os != [] {
      var p := os[..|os| - 1];
      AbortedIff(p);
      assert forall j :: 0 <= j < |p| ==> p[j] == os[j];
    }
  }

  /** The step records a result under key `k`. */
  predicate StoresKey(o: StepResult, k: string) {
    o.Store? && o.key == k
  }

  /** In a run that did not raise, a key holds a result exactly when some step stored one under it. */
  lemma {:induction false} ResultKeys(os: seq<StepResult>, k: string)
    requires !Run(Init, os).aborted
    ensures k in Run(Init, os).results <==> exists j :: 0 <= j < |os| && StoresKey(os[j], k)
    decreases |os|
  {
    if os != [] {
      var n := |os|;
      var p := os[..n - 1];
      assert !Run(Init, p).aborted;
      ResultKeys(p, k);
      assert forall j :: 0 <= j < n - 1 ==> p[j] == os[j];
    }
  }

  /** In a run that did not raise, the result under a key is the one the last step storing under that key stored. */
  lemma {:induction false} ResultsLastWriteWins(os: seq<StepResult>, k: string)
    requires !Run(Init, os).aborted
    requires k in Run(Init, os).results
    ensures exists j :: (0 <= j < |os| && StoresKey(os[j], k)
      && Run(Init, os).results[k] == os[j].value
      && forall j' :: j < j' < |os| ==> !StoresKey(os[j'], k))
    decreases |os|
  {
    var n := |os|;
    assert n > 0;
    var p := os[..n - 1];
    var prev := Run(Init, p);
    assert !prev.aborted;
    if StoresKey(os[n - 1], k) {
      assert Run(Init, os).results[k] == os[n - 1].value;
    } else {
      assert k in prev.results && Run(Init, os).results[k] == prev.results[k];
      ResultsLastWriteWins(p, k);
      var j :| 0 <= j < |p| && StoresKey(p[j], k)
        && prev.results[k] == p[j].value
        && forall j' :: j < j' < |p| ==> !StoresKey(p[j'], k);
      assert p[j] == os[j];
      forall j' | j < j' < n
        ensures !StoresKey(os[j'], k)
      {
        if j' < n - 1 {
          assert p[j'] == os[j'];
        }
      }
    }
  }

  /** The calls of the plan's steps in plan order, one per step that names a known tool. */
  function CallsOf(steps: seq<Step>, env: Env): seq<Invocation>
    decreases |steps|
  {
    if steps == [] then []
    else
      var last := StepCall(steps[|steps| - 1], env);
      CallsOf(steps[..|steps| - 1], env) + (if last.Some? then [last.value] else [])
  }

  lemma {:induction false} CallsOfAppend(a: seq<Step>, b: seq<Step>, env: Env)
    ensures CallsOf(a + b, env) == CallsOf(a, env) + CallsOf(b, env)
    decreases |b|
  {
    if b == [] {
      assert a + b == a;
    } else {
      var n := |b|;
      assert (a + b)[..|a + b| - 1] == a + b[..n - 1];
      assert (a + b)[|a + b| - 1] == b[n - 1];
      CallsOfAppend(a, b[..n - 1], env);
    }
  }

  /**
   * Tools are called in plan order, once for every step naming a known tool,
   * whatever earlier calls raised or returned; only a raise out of the loop
   * cuts the list short.
   */
  lemma {:induction false} CallsInPlanOrder(steps: seq<Step>, env: Env)
    ensures Run(Init, Outcomes(steps, env)).calls <= CallsOf(steps, env)
    ensures !Run(Init, Outcomes(steps, env)).aborted ==> Run(Init, Outcomes(steps, env)).calls == CallsOf(steps, env)
    decreases |steps|
  {
    if steps != [] {
      var n := |steps|;
      var p := steps[..n - 1];
      CallsInPlanOrder(p, env);
      var os := Outcomes(steps, env);
      assert os[..n - 1] == Outcomes(p, env);
      assert Run(Init, os) == Apply(Run(Init, Outcomes(p, env)), StepOutcome(steps[n - 1], env));
    }
  }

  /**
   * With tools exposed and a plan in hand, the step answers "information"
   * exactly when no step raised out of the loop and at least one step
   * stored a result; it raises exactly when some step raised; and it
   * answers nothing exactly when neither happened.
   */
  lemma InformationIffSomeStepStores(toolDict: map<string, ToolInfo>, steps: seq<Step>, env: Env)
    requires |toolDict| > 0
    ensures Outcome(toolDict, Plans(steps), env).result.Information? <==>
      (forall j :: 0 <= j < |steps| ==> !StepOutcome(steps[j], env).Abort?)
        && exists j :: 0 <= j < |steps| && StepOutcome(steps[j], env).Store?
    ensures Outcome(toolDict, Plans(steps), env).result == Failed(MissingStepGoal) <==>
      exists j :: 0 <= j < |steps| && StepOutcome(steps[j], env).Abort?
    ensures Outcome(toolDict, Plans(steps), env).result == NoContribution <==>
      (forall j :: 0 <= j < |steps| ==> !StepOutcome(steps[j], env).Abort?)
        && !exists j :: 0 <= j < |steps| && StepOutcome(steps[j], env).Store?
  {
    var os := Outcomes(steps, env);
    var run := Run(Init, os);
    assert forall j :: 0 <= j < |steps| ==> os[j] == StepOutcome(steps[j], env);
    AbortedIff(os);
    if !run.aborted {
      if exists j :: 0 <= j < |steps| && StepOutcome(steps[j], env).Store? {
        var j :| 0 <= j < |steps| && StepOutcome(steps[j], env).Store?;
        ResultKeys(os, os[j].key);
      }
      if |run.results| > 0 {
        var k :| k in run.results;
        ResultKeys(os, k);
        var j :| 0 <= j < |os| && StoresKey(os[j], k);
        assert StepOutcome(steps[j], env).Store?;
      }
    }
  }

  // ---------------------------------------------------------------------
  // A worked example
  // ---------------------------------------------------------------------

  const Search := ToolInfo("web_search", "search the web", Null, true)
  const Calculator := ToolInfo("calculator", "evaluate an expression", Null, false)

  /** The catalogue of the example: both tools. */
  const ExampleTools := map["web_search" := Search, "calculator" := Calculator]

  function ExampleManager(): ToolManager {
    ToolManager(
      name => None,
      v => if v == Str("web_search") then Some(Search) else if v == Str("calculator") then Some(Calculator) else None,
      cats => map[],
      ExampleTools,
      Null,
      (name, kwargs) => if name == "calculator" then Returned(Num(4)) else Raised)
  }

  function ExampleStep(goal: string, tool: string, argName: string, argValue: string): Step {
    map["step_goal" := Str(goal),
        "using_tool" := Dict(map["tool_name" := Str(tool), "args" := Dict(map[argName := Str(argValue)])])]
  }

  /** The search step: known tool, proxy required but none set, so called without one; it raises. */
  lemma ExampleSearchStep(dumps: Value -> string)
    ensures StepOutcome(ExampleStep("find capital", "web_search", "query", "capital of France"), Env(ExampleManager(), Null, dumps))
      == CallOnly(Invocation("web_search", map["query" := Str("capital of France")]))
  {
  }

  /** The calculator step: known tool, no proxy needed; it returns 4, stored under its goal. */
  lemma ExampleCalculatorStep(dumps: Value -> string)
    ensures StepOutcome(ExampleStep("sum", "calculator", "expr", "2+2"), Env(ExampleManager(), Null, dumps))
      == Store(Invocation("calculator", map["expr" := Str("2+2")]), dumps(Str("sum")), Num(4))
  {
  }

  /**
   * A search tool that needs a proxy and a calculator. No proxy is set
   * anywhere, so the search tool is called without one; it raises, which is
   * absorbed; the calculator returns 4, which is recorded under the
   * serialised goal of its step. Every tool of the catalogue is exposed, as
   * after adding all public tools to a new component.
   */
  lemma SearchRaisesCalculatorAnswers(dumps: Value -> string)
    ensures
      var step1 := ExampleStep("find capital", "web_search", "query", "capital of France");
      var step2 := ExampleStep("sum", "calculator", "expr", "2+2");
      Outcome(ExampleManager().allDict, Plans([step1, step2]), Env(ExampleManager(), Null, dumps)) ==
        Response(Information(map[dumps(Str("sum")) := Num(4)]),
          [Invocation("web_search", map["query" := Str("capital of France")]),
           Invocation("calculator", map["expr" := Str("2+2")])])
  {
    var toolDict := ExampleManager().allDict;
    assert |toolDict| > 0 by {
      assert "calculator" in ExampleTools;
    }
    var env := Env(ExampleManager(), Null, dumps);
    var step1 := ExampleStep("find capital", "web_search", "query", "capital of France");
    var step2 := ExampleStep("sum", "calculator", "expr", "2+2");
    ExampleSearchStep(dumps);
    ExampleCalculatorStep(dumps);
    var o1, o2 := StepOutcome(step1, env), StepOutcome(step2, env);
    var os := Outcomes([step1, step2], env);
    assert os == [o1, o2];
    assert os[..1] == [o1];
    assert [o1][..0] == [];
    assert Run(Init, [o1]) == RunState(map[], [o1.inv], false);
    var run := Run(Init, os);
    assert run == RunState(map[o2.key := o2.value], [o1.inv, o2.inv], false);
    assert |run.results| == 1;
    assert Outcome(toolDict, Plans([step1, step2]), env) == Response(Finish(run), run.calls);
  }

  /**
   * The same scenario run on the component itself: a new component exposes
   * every tool of the catalogue, then its tool step runs the two-step plan.
   */
  method ExampleScenario(dumps: Value -> string) returns (r: PrefixResult, calls: seq<Invocation>)
    ensures r == Information(map[dumps(Str("sum")) := Num(4)])
    ensures calls == [Invocation("web_search", map["query" := Str("capital of France")]),
                      Invocation("calculator", map["expr" := Str("2+2")])]
  {
    var tool := new Tool();
    tool.AddAllPublicTools(ExampleManager());
    var step1 := ExampleStep("find capital", "web_search", "query", "capital of France");
    var step2 := ExampleStep("sum", "calculator", "expr", "2+2");
    r, calls := tool.Prefix(Plans([step1, step2]), Env(ExampleManager(), Null, dumps));
    SearchRaisesCalculatorAnswers(dumps);
  }
}
