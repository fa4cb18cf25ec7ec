# Agent tool component (Agently `Tool` plugin), modelled in Dafny

This project models the tool component of an Agently agent. The component keeps
the agent's *exposed tools*, a dictionary from tool name to catalogue info that
the host fills by name, by category or with every tool. It also provides the
*prefix* hook of the agent's request pipeline. That hook asks a planner which
tools to use, calls them plan step by plan step and gathers what they return
under `"information"`.

Files:

- `wrappers.dfy`: `Option`.
- `json.dfy`: `Value`, the JSON-like data of plans, arguments, proxies and tool
  results, and `Truthy`, Python's truthiness on those shapes.
- `tool.dfy`: module `AgentTool`. It holds the tool manager's interface as a
  datatype of lookup and call functions and the class `Tool`. The class has the
  `toolDict` field and the methods `AddPublicTools`, `AddPublicCategories`,
  `AddAllPublicTools` and `Prefix`. The module also holds the specification of
  a plan run:
  - `StepCall`: the call a step asks for.
  - `StepOutcome`: what the step then does.
  - `Run`: the steps applied in order.
  - `Outcome`: the hook's answer and the calls it made.
- `tool_properties.dfy`: module `AgentToolProperties`, the lemmas about
  exposing tools and about plan runs, and a worked example.

`Prefix` is an imperative loop. Its invariant ties the accumulated result map
and call log to `Run` over the steps done so far, so its `ensures` is the link
between the loop and the specification. The lemmas then state what the
specification promises:

- filtering of malformed and unknown steps;
- absorption of tool failures;
- proxy precedence;
- the `for_agent` choice;
- last-write-wins keying;
- when an answer is produced at all.

External collaborators are parameters:

- The tool manager (`ToolManager`): its lookups by name, by categories and of
  all tools, its proxy and its tool call. A lookup the source finds falsy is
  `None`.
- The agent's `proxy` setting (`Env.settingsProxy`, `Null` for None).
- The planner's answer (`PlanReply`: the list of plans, or a failure).
- `json.dumps` of step goals (`Env.dumps`, an arbitrary function).

`Prefix` returns the sequence of tool invocations it made next to its answer.
This makes the order of tool calls, and the calls that were not made,
something the contracts can speak about.

Some behaviours of the code are easy to miss; the model follows the code:

- A step with a truthy call result and no `step_goal` raises `KeyError` out of
  the hook (Tool.py:93 is outside the `try`). The model answers
  `Failed(MissingStepGoal)` in that case.
- A truthy result whose `for_agent` field holds a falsy value is still recorded
  (truthiness is tested on the whole result, Tool.py:92).
- A settings proxy that is not None but is falsy (say `""`) stops the fallback
  to the manager's proxy. Then no proxy is injected (Tool.py:79-82).
- Exposing names keeps entries that were already present, including entries
  for names the catalogue no longer knows. Nothing is ever removed.

## Model

| member | source | states |
|---|---|---|
| `AgentTool.Tool.constructor` | src/plugins/agent_component/Tool.py:12 | A new component exposes no tools. |
| `AgentTool.Tool.AddPublicTools` | src/plugins/agent_component/Tool.py:17-24 | The exposed tools become the old ones overridden by every listed name the catalogue resolves, mapped to its info. Resolved names map to their catalogue info. Names not listed, or unresolved, keep their old entry or stay absent. No key is removed. |
| `AgentToolProperties.SingleName` | src/plugins/agent_component/Tool.py:17-23 | A single string exposes that one name: it is added with its info when the catalogue knows it, and nothing changes otherwise. |
| `AgentToolProperties.RepeatedAddIsIdempotent` | src/plugins/agent_component/Tool.py:20-23 | Exposing the same names a second time against the same catalogue leaves the exposed tools unchanged. |
| `AgentTool.Tool.UpdateFrom` | src/plugins/agent_component/Tool.py:30-31 | Copying a looked-up dictionary entry by entry leaves the old exposed tools overridden by that dictionary. |
| `AgentTool.Tool.AddPublicCategories` | src/plugins/agent_component/Tool.py:26-32 | The exposed tools become the old ones overridden by the catalogue's dictionary for the (normalised) category list. Looked-up keys win, and every old key stays. |
| `AgentTool.Tool.AddAllPublicTools` | src/plugins/agent_component/Tool.py:34-38 | The exposed tools become the old ones overridden by the catalogue's full dictionary. Looked-up keys win, and every old key stays. |
| `AgentTool.Tool.Prefix` | src/plugins/agent_component/Tool.py:40-108 | The answer and the call log equal the specification `Outcome`. With no exposed tools the hook answers None and calls nothing. A planner failure propagates and calls nothing. An "information" answer is never empty. |
| `AgentTool.ResolveStep` | src/plugins/agent_component/Tool.py:71-82 | Working out a step's call imperatively gives `StepCall`. That covers the shape checks on `using_tool`, the full lookup, the arguments defaulting to `{}`, and the proxy written in. |
| `AgentTool.InjectProxy` | src/plugins/agent_component/Tool.py:76-82 | Only the `proxy` key can change. Without `require_proxy` the arguments are untouched. A settings proxy that is not None is used when it is truthy and blocks the fallback when it is falsy. With a None setting, the manager's proxy is used when it is truthy. A chosen proxy overwrites a planner-supplied one. |
| `AgentToolProperties.NoProxyStillCalled` | src/plugins/agent_component/Tool.py:74-88 | A resolvable step is called even when no usable proxy exists anywhere, with the planner's arguments unchanged. |
| `AgentToolProperties.QuietStepIsIgnored` | src/plugins/agent_component/Tool.py:70-100 | A step that makes no call can be removed from the plan without changing the answer or the calls. Such a step has a missing or non-object `using_tool`, no `tool_name`, or an unknown tool. A step whose call raises or returns a falsy value can also be removed without changing the answer. |
| `AgentToolProperties.FailedCallIsAbsorbed` | src/plugins/agent_component/Tool.py:83-92 | A call that raises or returns a falsy value leaves the answer as if the step were absent. In a run that did not raise, the tool is still called: the calls are those the steps before it make alone, then its own call, then those the steps after it make alone. |
| `AgentToolProperties.ForAgentFieldRecorded` | src/plugins/agent_component/Tool.py:92-95 | A truthy object result with a `for_agent` field is recorded as that field's value, under the serialised step goal. |
| `AgentTool.AbortedStaysAborted` | src/plugins/agent_component/Tool.py:93 | Once a step raised out of the loop, the later steps change neither the answer nor the calls. |
| `AgentToolProperties.AbortedIff` | src/plugins/agent_component/Tool.py:92-95 | The hook raises out of its loop exactly when some step gets a truthy result and has no `step_goal`. |
| `AgentToolProperties.ResultKeys` | src/plugins/agent_component/Tool.py:92-95 | In a run that did not raise, a key holds a result exactly when some step stored a result under it. |
| `AgentToolProperties.ResultsLastWriteWins` | src/plugins/agent_component/Tool.py:93-95 | In a run that did not raise, the value under a key is the one stored by the last step storing under that key. |
| `AgentToolProperties.CallsInPlanOrder` | src/plugins/agent_component/Tool.py:70-92 | Tools are called in plan order, once for each step that names a known tool, whatever earlier calls did. A run that did not raise calls all of them, and one that raised calls a prefix of them. |
| `AgentToolProperties.InformationIffSomeStepStores` | src/plugins/agent_component/Tool.py:92-106 | With tools exposed, the answer is "information" exactly when no step raised and at least one step stored a result. The step raises (`Failed(MissingStepGoal)`) exactly when some step got a truthy result without a `step_goal`. The answer is None exactly when no step raised and no step stored a result. |
| `AgentToolProperties.SearchRaisesCalculatorAnswers` | src/plugins/agent_component/Tool.py:69-106 | Worked example, with every catalogue tool exposed. A search tool needs a proxy but none is set. It is called without one and raises. A calculator returns 4. The answer is exactly `{dumps("sum"): 4}`, and both tools were called in order. |
| `AgentToolProperties.ExampleScenario` | src/plugins/agent_component/Tool.py:34-106 | The same example run on the component: a new component exposes all tools, then its tool step answers exactly `{dumps("sum"): 4}` after calling the search tool and then the calculator. |

## Left out

- Building the planner request (Tool.py:44-68): the prompt, the current date, `json.dumps` of the tool list and the language-model call are foreign calls. The planner's reply is an input, and a failing or malformed reply is `PlannerError`, which propagates.
- Debug output and `is_debug` (Tool.py:9, 42-43, 72-73, 90-91, 96-97, 99-100): printing only, with no effect on results.
- The constructor's wiring (Tool.py:8-11, 13-15) to the agent's settings and tool manager, and the pass-through aliases `register_tool`, `call_tool_func` and `set_tool_proxy`. The manager, the settings' proxy and the tool call are parameters.
- The `return self.agent` used for fluent chaining (Tool.py:24, 32, 38): the methods return nothing.
- `export` (Tool.py:110-125): a static registration table.
- The meaning of `json.dumps` on step goals. Result keys come from an arbitrary function `dumps`, so two goals with equal serialisations share a key.
- The tool manager's own lookup semantics (by category, with or without arguments), which the model does not see. Each lookup is an arbitrary function of its argument, read at the time of the call. Tools registered between calls are covered only by passing a different manager.
- Tool calls are pure functions of their name and arguments. Side effects a tool has on later tools are not modelled, only the order of the calls.
- The aliasing of a step's `args` with the keyword arguments that receive the proxy (Tool.py:76, 82). The plan is local to the hook and discarded, so the update in place is not observable. The model builds the arguments as a new map.
- Plan steps are JSON objects. Non-object steps, Python floats, non-string dictionary keys and other Python objects as values are not modelled; numbers are integers.
- Python dictionaries' insertion order: maps are unordered here. The order affects the tool list shown to the planner, which is left out. It also affects the returned `"information"` dictionary, whose keys keep the order in which each was first stored (Tool.py:95). The model returns the same keys and values but not that order.
- Exceptions from the lookups outside the `try` (Tool.py:74-82): the full lookup of the tool, reading `require_proxy` from its info, the agent's `proxy` setting and the manager's `get_tool_proxy()`. If any of these raises, the exception leaves the tool step. The model treats these lookups as total, so that path is not modelled.
- Exceptions a tool raises that are not `Exception` subclasses, such as `SystemExit` or `KeyboardInterrupt` (Tool.py:89 catches only `Exception`). Those leave the tool step; the model's `Raised` stands only for the exceptions that are caught and absorbed.
