# ReAct agent graph, modelled in Dafny

This project models the ReAct agent graph of `src/react_agent/graph.py`.
The graph has two nodes that alternate:

- `call_model` asks a chat model for the next assistant message. The system prompt goes in front of the conversation history. On the last permitted step, an answer that still requests tools is replaced by a fixed apology under the same message id.
- `tools` runs the requested tool calls and appends their results.

The graph is wired as follows:

- `__start__` leads to `call_model`.
- `route_model_output` chooses the edge out of `call_model`: `__end__` when the last message is an assistant message without tool calls, `tools` when it has tool calls. It raises an error for any other message.
- `tools` always leads back to `call_model`.

Modules:

- `Messages` (`messages.dfy`): the chat messages and tool calls, and a `Result` type for the routing error.
- `Graph` (`graph.dfy`): the routing function, the last-step rewrite of `call_model`, the edges of the graph and the step budget behind `is_last_step`.
- `Agent` (`agent.dfy`): the nodes as functions of the history, and `Run`, the loop that executes the compiled graph.
  - `Run` is proved against two trace predicates over the updates the nodes produced. `Replays` says that each update is what its node computes from the history before it. `Wired` says that the updates follow the edges.
  - The chat model, the tool node and the formatted system prompt are parameters of the run (`Env`).
- `RunProperties` (`properties.dfy`): lemmas about every complete run. They cover alternation of the nodes, tools only after a tool request, the step bound, the final answer and determinism.
- `Scenarios` (`scenarios.dfy`): two concrete conversations whose results follow from `Run`'s contract alone:
  - a calculator question answered after one tool call;
  - a budget of one step exhausted by a model that keeps asking for tools.

## Model

| member | source | states |
|---|---|---|
| Graph.RouteModelOutput | src/react_agent/graph.py:103-123 | Routing is `Ok(End)` exactly when the last message is an assistant message without tool calls, and `Ok(Tools)` exactly when it has tool calls. An empty history is exactly the `EmptyHistory` error. Any other last message gives an error that names its class. |
| Graph.RouteOnlyLast | src/react_agent/graph.py:114-123 | Routing depends on the last message only: two histories that end in the same message route alike, and alike to that one message on its own. |
| Graph.FinalizeReply | src/react_agent/graph.py:55-67 | `call_model` returns exactly one assistant message, with the model answer's id. On the last step, an answer with tool calls becomes the fixed apology with no tool calls. Otherwise the answer passes through unchanged. A returned message with tool calls implies it was not the last step. |
| Graph.FinalizeThenRoute | src/react_agent/graph.py:55-67 | After any history, appending the last step's update routes to `__end__`. Before the last step, the update routes as the model's answer would on its own. |
| Graph.Successor | src/react_agent/graph.py:100-136 | `__start__` and `tools` lead to `call_model`. `call_model` leads where `route_model_output` says. No edge enters `__start__`. `__end__` follows only an assistant message without tool calls, and `tools` only an assistant message with tool calls. |
| Graph.Budget | src/react_agent/graph.py:56 | The number of model steps a run may take is at least 1 and at least the configured maximum, and equals that maximum when it is positive; a maximum of 0 gives 1. |
| Graph.IsLastStep | src/react_agent/graph.py:56 | `is_last_step` holds exactly when the coming model step is the last one the budget allows. |
| Agent.ModelInput | src/react_agent/graph.py:43-53 | The model sees one system message carrying the prompt, followed by the unchanged history. |
| Agent.NodeUpdate | src/react_agent/graph.py:22-87 | A `call_model` update is one assistant message, and on the last step it requests no tools. |
| Agent.Run | src/react_agent/graph.py:92-139 | A run starts at `call_model` and follows the edges. Every update is what its node computes. The history grows by exactly the updates, in order. The run takes between 1 and the budgeted number of model steps. It ends on an assistant message that routes to `__end__`, and no system message is ever added to the history. |
| Agent.SuperStep | src/react_agent/graph.py:127-136 | One node execution: exactly the update the scheduled node computes is appended to the updates and to the history, and the next node is the successor that update routes to. The run stays consistent; a model step adds one to the step count, and a tool step always leads back to `call_model`. |
| Agent.ExtendRun | src/react_agent/graph.py:127-136 | Appending the update a node computes keeps a run in progress consistent, and the successor is defined. |
| Agent.ExtendWired | src/react_agent/graph.py:127-136 | Appending a node's update keeps the trace on the edges, with the successor as the next node. |
| Agent.ExtendReplays | src/react_agent/graph.py:22-87 | Appending the update a node computes keeps the trace replayed, and the history grows by exactly that update. |
| Agent.ExtendBudget | src/react_agent/graph.py:55-64 | A model step adds one to the step count. The run can only continue while the budget has room for another model step. |
| Agent.FinishRun | src/react_agent/graph.py:119-121 | A run that reached `__end__` is complete and took at least one model step. Its history routes to `__end__`, and nothing after the input is a system message. |
| Agent.NodeUpdateKinds | src/react_agent/graph.py:48-87 | A `tools` update holds only tool messages, and no update holds a system message. |
| Agent.NoSystemAppended | src/react_agent/graph.py:48-67 | The system prompt never enters the history: no update of a replayed run holds a system message. |
| RunProperties.ReplaysAt | src/react_agent/graph.py:22-87 | Every update of a replayed run is its node's output for the history and step count at that point. |
| RunProperties.WiredAt | src/react_agent/graph.py:100-136 | Update i of a wired trace comes from `call_model` or `tools`, and the first from `call_model`. A `call_model` update is one assistant message. The next node is the successor of update i. |
| RunProperties.Alternation | src/react_agent/graph.py:100-136 | The nodes alternate: even positions run `call_model`, odd positions run `tools`. |
| RunProperties.WiredPrefix | src/react_agent/graph.py:100-136 | Every prefix of a wired trace is wired to the node that follows it. |
| RunProperties.WiredSteps | src/react_agent/graph.py:100-136 | Half the node executions, rounded up, are model steps. |
| RunProperties.TraceShape | src/react_agent/graph.py:100-136 | A complete run is an odd number of alternating updates. Each model step adds one assistant message. A tool step comes only right after an assistant message with tool calls. The run ends right after a model step whose message has no tool calls. |
| RunProperties.WiredAll | src/react_agent/graph.py:100-136 | Alternation, the shape of model updates, and tools only after a tool request, for every update of a wired trace. |
| RunProperties.BudgetBound | src/react_agent/graph.py:55-64 | Every complete replayed run takes at most the budgeted number of model steps. |
| RunProperties.FinalAnswer | src/react_agent/graph.py:55-67 | A run ends on the model's last answer when that answer has no tool calls. Otherwise the run used its whole budget and ends on the apology under the answer's id. |
| RunProperties.RunDetermined | src/react_agent/graph.py:92-139 | Two complete runs on the same input and environment (the system prompt of each step, the model, the tools and the budget) are the same sequence of updates: the loop adds no nondeterminism of its own. |
| RunProperties.EndsOnlyAtLast | src/react_agent/graph.py:119-121 | In a complete run only the last update routes to `__end__`. |
| RunProperties.SamePrefix | src/react_agent/graph.py:92-139 | Two runs on the same input and environment agree on every position both have. |
| RunProperties.SameNextUpdate | src/react_agent/graph.py:92-139 | Two runs that agree before position j agree at position j too. |
| Scenarios.CalculatorWired | src/react_agent/graph.py:100-136 | The calculator conversation follows the edges to `__end__`: a tool request, a tool result, then an answer. |
| Scenarios.CalculatorReplays | src/react_agent/graph.py:22-87 | The calculator conversation is what the nodes compute from the question, with a budget of five steps. |
| Scenarios.CalculatorRun | src/react_agent/graph.py:92-139 | With five steps, the calculator question ends after two model steps. The history is the question, the tool request, the tool result and the answer, in that order. |
| Scenarios.BudgetRun | src/react_agent/graph.py:55-64 | With one step, a model that always asks for a tool gets one model step. The history ends on the apology under the model message's id, and no tool runs. |

## Left out

- The chat model (`load_chat_model`, `bind_tools`, `get_tools`) is an opaque function from the messages it sees to an assistant message. The model never fails or times out. Being a function, the model is deterministic: RunProperties.RunDetermined says only that the graph's loop adds no nondeterminism, not that a sampled chat model, or a prompt stamped with a different time, repeats a run.
- The tool node (`ToolNode`, `dynamic_tools_node`) is an opaque function from the history to a sequence of tool messages. The model does not say that there is one result per tool call, in which order the results come, or how a tool failure is reported.
- The system prompt formatted with the current UTC time is a parameter of the run: a function of the step number. The prompt template and the clock are not modelled.
- `is_last_step` is provided by the graph runtime and not computed in this file. Graph.IsLastStep models it as a count of model steps against a budget; a budget of 0 behaves like 1. The runtime's own recursion limit counts node executions of both nodes, and the error it raises when the limit is exceeded is not modelled.
- Agent.Run: the `messages` reducer of the state merges messages by id. The model appends every update instead, so it does not capture a tool result or answer that replaces an earlier message with the same id.
- Graph.RouteModelOutput: the error is reduced to the class name of the offending message; the wording of the exception text is not kept.
- Assistant messages keep only their id, content and tool calls. Other fields (metadata, usage, invalid tool calls) are not modelled.
- Asynchronous execution, graph compilation into a runnable object, the runtime context and the input schema are not modelled; Agent.Run stands for executing the compiled graph.
