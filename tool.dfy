/**
 * The agent's tool component: which tools the agent exposes to its planner,
 * and the request-pipeline step that lets the planner choose tools, calls
 * them one plan step after another and gathers what they return.
 */
module AgentTool {
  import opened Wrappers
  import opened Json

  /** A catalogue entry as the tool manager describes one tool. */
  datatype ToolInfo = ToolInfo(toolName: string, desc: string, args: Value, requireProxy: bool)

  /** What a call to a tool did: returned a value, or raised an exception. */
  datatype CallOutcome = Returned(value: Value) | Raised

  /**
   * The agent's tool manager, as seen by this component at the time of a call.
   * A lookup that the source finds falsy is None here.
   */
  datatype ToolManager = ToolManager(
    info: string -> Option<ToolInfo>,                   // get_tool_info(name, with_args=True)
    fullInfo: Value -> Option<ToolInfo>,                // get_tool_info(name, full=True)
    categoryDict: seq<string> -> map<string, ToolInfo>, // get_tool_dict(categories=..., with_args=True)
    allDict: map<string, ToolInfo>,                     // get_tool_dict(with_args=True)
    proxy: Value,                                       // get_tool_proxy()
    call: (string, map<string, Value>) -> CallOutcome)  // call_tool_func(name, **kwargs)

  /** A tool name or category list given either as one string or as a list of strings. */
  datatype NameArg = One(name: string) | Many(names: seq<string>)

  /** A single string stands for the one-element list holding it. */
  function Names(arg: NameArg): seq<string> {
    match arg
    case One(name) => [name]
    case Many(names) => names
  }

  /** The entries that looking up `names` one by one yields: every name the catalogue knows, with its info. */
  ghost function Resolved(names: seq<string>, info: string -> Option<ToolInfo>): map<string, ToolInfo> {
    map n | n in names && info(n).Some? :: info(n).value
  }

  lemma ResolvedSnoc(names: seq<string>, i: nat, info: string -> Option<ToolInfo>)
    requires i < |names|
    ensures Resolved(names[..i + 1], info) ==
      if info(names[i]).Some? then Resolved(names[..i], info)[names[i] := info(names[i]).value]
      else Resolved(names[..i], info)
  {
  }

  /** A step of the planner's plan: a JSON object with `step_goal` and `using_tool`. */
  type Step = map<string, Value>

  /** What the planner answered: its list of plans, or a failure that propagates out of the step. */
  datatype PlanReply = Plans(steps: seq<Step>) | PlannerError

  /** One call of a tool, with the keyword arguments passed to it. */
  datatype Invocation = Invocation(toolName: string, kwargs: map<string, Value>)

  /**
   * What else a run of the tool step consults: the tool manager, the `proxy`
   * setting of the agent, and the serialisation of step goals into result
   * keys (json.dumps).
   */
  datatype Env = Env(manager: ToolManager, settingsProxy: Value, dumps: Value -> string)

  /** The step's answer: nothing to add, the gathered tool results under "information", or an exception. */
  datatype PrefixResult = NoContribution | Information(results: map<string, Value>) | Failed(reason: Failure)

  datatype Failure = PlannerFailed | MissingStepGoal

  /** The arguments the planner proposed for a tool: its `args` when that is an object, else none. */
  function CallArgs(usingTool: map<string, Value>): map<string, Value> {
    if "args" in usingTool && usingTool["args"].Dict? then usingTool["args"].fields else map[]
  }

  /**
   * The arguments with the proxy added when the tool requires one. The
   * settings' proxy is preferred unless it is None; the manager's proxy is
   * the fallback; the chosen proxy is added only when truthy, replacing any
   * `proxy` argument the planner gave. No other argument changes.
   */
  function InjectProxy(args: map<string, Value>, requireProxy: bool, settingsProxy: Value, managerProxy: Value): (r: map<string, Value>)
    ensures forall k :: k != "proxy" ==> (k in r <==> k in args)
    ensures forall k :: k in args && k != "proxy" ==> r[k] == args[k]
    ensures requireProxy && settingsProxy != Null && Truthy(settingsProxy) ==> r == args["proxy" := settingsProxy]
    ensures requireProxy && settingsProxy == Null && Truthy(managerProxy) ==> r == args["proxy" := managerProxy]
    ensures !requireProxy ==> r == args
    ensures settingsProxy != Null && !Truthy(settingsProxy) ==> r == args
    ensures settingsProxy == Null && !Truthy(managerProxy) ==> r == args
  {
    if requireProxy then
      var proxy := if settingsProxy == Null then managerProxy else settingsProxy;
      if Truthy(proxy) then args["proxy" := proxy] else args
    else args
  }

  /**
   * The call a plan step asks for. None when `using_tool` is missing, is not
   * an object or has no `tool_name`, or when the catalogue's full lookup of
   * that name finds nothing.
   */
  function StepCall(step: Step, env: Env): Option<Invocation> {
    if "using_tool" in step && step["using_tool"].Dict? && "tool_name" in step["using_tool"].fields then
      var usingTool := step["using_tool"].fields;
      match env.manager.fullInfo(usingTool["tool_name"])
      case None => None
      case Some(info) =>
        Some(Invocation(info.toolName, InjectProxy(CallArgs(usingTool), info.requireProxy, env.settingsProxy, env.manager.proxy)))
    else None
  }

  /** The value recorded for a result: its `for_agent` field when it is an object holding one, else the result itself. */
  function AgentValue(result: Value): Value {
    if result.Dict? && "for_agent" in result.fields then result.fields["for_agent"] else result
  }

  /** What one plan step does. */
  datatype StepResult =
    | Skip                                            // no call
    | CallOnly(inv: Invocation)                       // called; raised, or returned a falsy value
    | Store(inv: Invocation, key: string, value: Value) // called; records `value` under `key`
    | Abort(inv: Invocation)                          // called; truthy result but no `step_goal` (KeyError)

  function StepOutcome(step: Step, env: Env): StepResult {
    match StepCall(step, env)
    case None => Skip
    case Some(inv) =>
      var outcome := env.manager.call(inv.toolName, inv.kwargs);
      if outcome.Raised? || !Truthy(outcome.value) then CallOnly(inv)
      else if "step_goal" !in step then Abort(inv)
      else Store(inv, env.dumps(step["step_goal"]), AgentValue(outcome.value))
  }

  /** The loop's state: the results gathered, the calls made, and whether an exception ended it. */
  datatype RunState = RunState(results: map<string, Value>, calls: seq<Invocation>, aborted: bool)

  const Init := RunState(map[], [], false)

  function Apply(run: RunState, o: StepResult): RunState {
    if run.aborted then run
    else match o
      case Skip => run
      case CallOnly(inv) => run.(calls := run.calls + [inv])
      case Store(inv, key, value) => RunState(run.results[key := value], run.calls + [inv], false)
      case Abort(inv) => run.(calls := run.calls + [inv], aborted := true)
  }

  /** What each step of the plan does, in plan order. */
  function Outcomes(steps: seq<Step>, env: Env): seq<StepResult> {
    seq(|steps|, j requires 0 <= j < |steps| => StepOutcome(steps[j], env))
  }

  /** The steps' effects applied in order from `start`. */
  function Run(start: RunState, os: seq<StepResult>): RunState
    decreases |os|
  {
    if os == [] then start
    else Apply(Run(start, os[..|os| - 1]), os[|os| - 1])
  }

  function Finish(run: RunState): PrefixResult {
    if run.aborted then Failed(MissingStepGoal)
    else if |run.results| > 0 then Information(run.results)
    else NoContribution
  }

  /** What the tool step answers, and which tools it calls in which order. */
  datatype Response = Response(result: PrefixResult, calls: seq<Invocation>)

  function Outcome(toolDict: map<string, ToolInfo>, reply: PlanReply, env: Env): Response {
    if |toolDict| == 0 then Response(NoContribution, [])
    else match reply
      case PlannerError => Response(Failed(PlannerFailed), [])
      case Plans(steps) =>
        var run := Run(Init, Outcomes(steps, env));
        Response(Finish(run), run.calls)
  }

  lemma RunSnoc(steps: seq<Step>, i: nat, env: Env)
    requires i < |steps|
    ensures Outcomes(steps[..i + 1], env) == Outcomes(steps, env)[..i + 1]
    ensures Run(Init, Outcomes(steps[..i + 1], env)) == Apply(Run(Init, Outcomes(steps[..i], env)), StepOutcome(steps[i], env))
  {
    var os := Outcomes(steps[..i + 1], env);
    assert os[..i] == Outcomes(steps[..i], env);
  }

  /** Once a step has raised out of the loop, the later steps change nothing. */
  lemma {:induction false} AbortedStaysAborted(os: seq<StepResult>, i: nat)
    requires i <= |os|
    requires Run(Init, os[..i]).aborted
    ensures Run(Init, os) == Run(Init, os[..i])
    decreases |os| - i
  {
    if i < |os| {
      assert os[..i + 1][..i] == os[..i];
      AbortedStaysAborted(os, i + 1);
    } else {
      assert os[..i] == os;
    }
  }

  /**
   * The call a plan step asks for, worked out as the loop body does it: the
   * shape checks on `using_tool`, the full catalogue lookup, the arguments,
   * and the proxy written into them. The argument and proxy steps mirror
   * `CallArgs` and `InjectProxy` statement by statement, as the loop body
   * writes them in place; the postcondition ties the two together.
   */
  method ResolveStep(step: Step, env: Env) returns (call: Option<Invocation>)
    ensures call == StepCall(step, env)
  {
    if "using_tool" in step && step["using_tool"].Dict? && "tool_name" in step["using_tool"].fields {
      var usingTool := step["using_tool"].fields;
      var toolInfo := env.manager.fullInfo(usingTool["tool_name"]);
      if toolInfo.Some? {
        var toolKwargs := if "args" in usingTool && usingTool["args"].Dict? then usingTool["args"].fields else map[];
        if toolInfo.value.requireProxy {
          var proxy := env.settingsProxy;
          if proxy == Null {
            proxy := env.manager.proxy;
          }
          if Truthy(proxy) {
            toolKwargs := toolKwargs["proxy" := proxy];
          }
        }
        return Some(Invocation(toolInfo.value.toolName, toolKwargs));
      }
    }
    return None;
  }

  /** The exposed tools of one agent. */
  class Tool {
    var toolDict: map<string, ToolInfo>

    constructor ()
      ensures toolDict == map[]
    {
      toolDict := map[];
    }

    /** Exposes the named tools the catalogue knows; unknown names are skipped, later entries win. */
    method AddPublicTools(arg: NameArg, manager: ToolManager)
      modifies this
      ensures toolDict == old(toolDict) + Resolved(Names(arg), manager.info)
      ensures forall n :: n in Names(arg) && manager.info(n).Some? ==> n in toolDict && toolDict[n] == manager.info(n).value
      ensures forall n :: n in old(toolDict) ==> n in toolDict
      ensures forall n :: n in toolDict && (n !in Names(arg) || manager.info(n).None?) ==>
        n in old(toolDict) && toolDict[n] == old(toolDict)[n]
    {
      var names := Names(arg);
      var i := 0;
      while i < |names|
        invariant 0 <= i <= |names|
        invariant toolDict == old(toolDict) + Resolved(names[..i], manager.info)
      {
        var toolInfo := manager.info(names[i]);
        if toolInfo.Some? {
          toolDict := toolDict[names[i] := toolInfo.value];
        }
        ResolvedSnoc(names, i, manager.info);
        i := i + 1;
      }
      assert names[..i] == names;
    }

    /** Copies every entry of `found` into the exposed tools, one key at a time. */
    method UpdateFrom(found: map<string, ToolInfo>)
      modifies this
      ensures toolDict == old(toolDict) + found
    {
      var pending := found.Keys;
      while pending != {}
        invariant pending <= found.Keys
        invariant toolDict == old(toolDict) + (map k | k in found.Keys - pending :: found[k])
        decreases pending
      {
        var key :| key in pending;
        toolDict := toolDict[key := found[key]];
        pending := pending - {key};
      }
      assert (map k | k in found.Keys - pending :: found[k]) == found;
    }

    /** Exposes every tool of the given categories. */
    method AddPublicCategories(arg: NameArg, manager: ToolManager)
      modifies this
      ensures toolDict == old(toolDict) + manager.categoryDict(Names(arg))
      ensures forall n :: n in old(toolDict) ==> n in toolDict
      ensures forall n :: n in manager.categoryDict(Names(arg)) ==> toolDict[n] == manager.categoryDict(Names(arg))[n]
    {
      var found := manager.categoryDict(Names(arg));
      UpdateFrom(found);
    }

    /** Exposes every tool the catalogue holds. */
    method AddAllPublicTools(manager: ToolManager)
      modifies this
      ensures toolDict == old(toolDict) + manager.allDict
      ensures forall n :: n in old(toolDict) ==> n in toolDict
      ensures forall n :: n in manager.allDict ==> toolDict[n] == manager.allDict[n]
    {
      UpdateFrom(manager.allDict);
    }

    /**
     * The tool step of the request pipeline. With no exposed tools it answers
     * nothing and calls nothing; otherwise it runs the planner's steps in order.
     */
    method Prefix(reply: PlanReply, env: Env) returns (r: PrefixResult, calls: seq<Invocation>)
      ensures Response(r, calls) == Outcome(toolDict, reply, env)
      ensures |toolDict| == 0 ==> r == NoContribution && calls == []
      ensures |toolDict| > 0 && reply.PlannerError? ==> r == Failed(PlannerFailed) && calls == []
      ensures r.Information? ==> |r.results| > 0
    {
      if |toolDict| == 0 {
        return NoContribution, [];
      }
      if reply.PlannerError? {
        return Failed(PlannerFailed), [];
      }
      var steps := reply.steps;
      var toolResults: map<string, Value> := map[];
      calls := [];
      var i := 0;
      while i < |steps|
        invariant 0 <= i <= |steps|
        invariant Run(Init, Outcomes(steps[..i], env)) == RunState(toolResults, calls, false)
      {
        var step := steps[i];
        RunSnoc(steps, i, env);
        var call := ResolveStep(step, env);
        if call.Some? {
          var inv := call.value;
          calls := calls + [inv];
          var callResult := Null;
          var outcome := env.manager.call(inv.toolName, inv.kwargs);
          if outcome.Returned? {
            callResult := outcome.value;
          }
          if Truthy(callResult) {
            if "step_goal" !in step {
              assert StepOutcome(step, env) == Abort(inv);
              ghost var os := Outcomes(steps, env);
              assert Run(Init, os[..i + 1]) == RunState(toolResults, calls, true);
              AbortedStaysAborted(os, i + 1);
              return Failed(MissingStepGoal), calls;
            }
            var infoKey := env.dumps(step["step_goal"]);
            // The choice `AgentValue` specifies, written out as the loop body makes it.
            var infoValue := if callResult.Dict? && "for_agent" in callResult.fields then callResult.fields["for_agent"] else callResult;
            assert StepOutcome(step, env) == Store(inv, infoKey, infoValue);
            toolResults := toolResults[infoKey := infoValue];
          } else {
            assert StepOutcome(step, env) == CallOnly(inv);
          }
        } else {
          assert StepOutcome(step, env) == Skip;
        }
        i := i + 1;
      }
      assert steps[..i] == steps;
      if |toolResults| > 0 {
        r := Information(toolResults);
      } else {
        r := NoContribution;
      }
    }
  }
}
