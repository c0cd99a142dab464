/** Running the compiled graph: starting at `call_model`, each node appends
    its update to the history and the wired edges choose the next node,
    until the conditional edge out of `call_model` routes to `__end__`. */
module Agent {
  import opened Messages
  import opened Graph

  /** What a run is given besides the initial history: the system prompt
      of each model step (the prompt template formatted with the time of
      that call, so it may differ from one step to the next), the step
      budget, the chat model (with the tools bound) and the tool node, the
      last two as opaque functions of the messages they see. */
  datatype Env = Env(
    systemPrompt: nat -> string,
    maxSteps: nat,
    model: seq<Message> -> AIMessage,
    tools: seq<Message> -> seq<ToolMessage>)

  /** One node execution: the node that ran and the messages it appended. */
  datatype Update = Update(node: Node, messages: seq<Message>)

  /** The messages the model is called with: the system prompt in front of
      the history. The system message goes to the model only. */
  function ModelInput(prompt: string, history: seq<Message>): (input: seq<Message>)
    ensures |input| == |history| + 1 && input[0] == System(prompt) && input[1..] == history
  {
    [System(prompt)] + history
  }

  /** The update a node appends when it runs on `history` after `steps`
      earlier model steps. */
  function NodeUpdate(node: Node, history: seq<Message>, steps: nat, env: Env): (update: seq<Message>)
    requires node == CallModel || node == Tools
    ensures node == CallModel ==> |update| == 1 && update[0].AI?
    ensures node == CallModel && IsLastStep(steps, env.maxSteps) ==> !HasToolCalls(update[0])
  {
    if node == CallModel then
      FinalizeReply(env.model(ModelInput(env.systemPrompt(steps), history)), IsLastStep(steps, env.maxSteps))
    else
      env.tools(history)
  }

  /** All messages appended by a sequence of updates, in order. */
  function Flatten(us: seq<Update>): seq<Message>
  {
    if us == [] then [] else Flatten(us[..|us| - 1]) + us[|us| - 1].messages
  }

  /** How many of the updates are model steps. */
  function ModelSteps(us: seq<Update>): (n: nat)
    ensures n <= |us|
  {
    if us == [] then 0
    else ModelSteps(us[..|us| - 1]) + (if us[|us| - 1].node == CallModel then 1 else 0)
  }

  /** Every update is what its node computes from the history before it
      and the number of model steps before it. */
  predicate Replays(input: seq<Message>, us: seq<Update>, env: Env)
    decreases |us|
  {
    us == [] ||
    var prefix := us[..|us| - 1];
    var u := us[|us| - 1];
    && Replays(input, prefix, env)
    && (u.node == CallModel || u.node == Tools)
    && u.messages == NodeUpdate(u.node, input + Flatten(prefix), ModelSteps(prefix), env)
  }

  /** The updates follow the wired edges: the first comes from `call_model`
      (the successor of `__start__`), each next node is the successor of the
      one before, and `next` is the successor of the last. A `call_model`
      update is one assistant message and is routed on that message alone,
      which is the last message of the history at that point. */
  predicate Wired(us: seq<Update>, next: Node)
    decreases |us|
  {
    if us == [] then next == CallModel
    else
      var u := us[|us| - 1];
      && Wired(us[..|us| - 1], u.node)
      && (u.node == CallModel || u.node == Tools)
      && (u.node == CallModel ==> |u.messages| == 1 && u.messages[0].AI?)
      && Successor(u.node, u.messages) == Ok(next)
  }

  /** A complete run: at least one update, and the last one routes to `__end__`. */
  predicate IsRunTrace(us: seq<Update>)
  {
    us != [] && Wired(us, End)
  }

  /** A run in progress: the updates so far replay their nodes and follow
      the edges up to `next`, the budget has room for every model step still
      to come. */
  predicate PartialRun(input: seq<Message>, us: seq<Update>, next: Node, env: Env)
  {
    && Wired(us, next)
    && Replays(input, us, env)
    && ModelSteps(us) <= Budget(env.maxSteps)
    && (next != End ==> ModelSteps(us) < Budget(env.maxSteps))
  }

  /** Runs the graph on `input`. Returns the final history, the number of
      model steps and the updates in the order the nodes ran. The history
      only grows, by exactly the updates; the updates follow the edges and
      are what the nodes compute; the run ends on an assistant message
      without tool calls after at most the budgeted number of model steps,
      and no system message is ever added to the history. */
  method Run(input: seq<Message>, env: Env) returns (history: seq<Message>, steps: nat, updates: seq<Update>)
    ensures IsRunTrace(updates) && Replays(input, updates, env)
    ensures history == input + Flatten(updates)
    ensures steps == ModelSteps(updates) && 1 <= steps <= Budget(env.maxSteps)
    ensures RouteModelOutput(history) == Ok(End)
    ensures forall m :: m in history[|input|..] ==> !m.System?
  {
    history, steps, updates := input, 0, [];
    var next := Successor(Start, history);
    var node := next.value;
    while node != End
      invariant PartialRun(input, updates, node, env)
      invariant history == input + Flatten(updates)
      invariant steps == ModelSteps(updates)
      decreases Budget(env.maxSteps) - steps, if node == Tools then 1 else 0
    {
      history, steps, updates, node := SuperStep(input, env, history, steps, updates, node);
    }
    FinishRun(input, updates, env);
  }

  /** One step of the graph: runs the scheduled node on the history,
      appends its update and follows the edge out of the node. A model step
      counts one more step; a tool step always leads back to the model. */
  method SuperStep(input: seq<Message>, env: Env, history: seq<Message>, steps: nat, updates: seq<Update>, node: Node)
    returns (history': seq<Message>, steps': nat, updates': seq<Update>, next: Node)
    requires PartialRun(input, updates, node, env) && node != End
    requires history == input + Flatten(updates) && steps == ModelSteps(updates)
    ensures PartialRun(input, updates', next, env)
    ensures history' == input + Flatten(updates') && steps' == ModelSteps(updates')
    ensures node == CallModel ==> steps' == steps + 1
    ensures updates' == updates + [Update(node, NodeUpdate(node, history, steps, env))]
    ensures history' == history + NodeUpdate(node, history, steps, env)
    ensures Successor(node, history').Ok? && next == Successor(node, history').value
    ensures node == Tools ==> steps' == steps && next == CallModel
  {
    var update := NodeUpdate(node, history, steps, env);
    ExtendRun(input, updates, history, node, update, env);
    var r := Successor(node, history + update);
    history' := history + update;
    updates' := updates + [Update(node, update)];
    steps' := if node == CallModel then steps + 1 else steps;
    next := r.value;
  }

  /** One more node execution keeps a run in progress one: the update the
      node computes is appended, and the successor it routes to is defined. */
  lemma {:induction false} ExtendRun(input: seq<Message>, us: seq<Update>, history: seq<Message>, node: Node, update: seq<Message>, env: Env)
    requires PartialRun(input, us, node, env) && node != End
    requires history == input + Flatten(us)
    requires update == NodeUpdate(node, history, ModelSteps(us), env)
    ensures Successor(node, history + update).Ok?
    ensures PartialRun(input, us + [Update(node, update)], Successor(node, history + update).value, env)
    ensures history + update == input + Flatten(us + [Update(node, update)])
    ensures ModelSteps(us + [Update(node, update)]) == ModelSteps(us) + (if node == CallModel then 1 else 0)
  {
    if node == CallModel {
      RouteOnlyLast(history + update, update);
    }
    ExtendWired(us, node, update);
    ExtendReplays(input, us, node, update, env);
    ExtendBudget(us, node, update, IsLastStep(ModelSteps(us), env.maxSteps), env);
  }

  /** Appending a node's update keeps the updates on the wired edges; the
      next node is the successor the update routes to. */
  lemma {:induction false} ExtendWired(us: seq<Update>, node: Node, update: seq<Message>)
    requires Wired(us, node) && (node == CallModel || node == Tools)
    requires node == CallModel ==> |update| == 1 && update[0].AI?
    ensures Successor(node, update).Ok?
    ensures Wired(us + [Update(node, update)], Successor(node, update).value)
  {
    var us' := us + [Update(node, update)];
    assert us'[..|us'| - 1] == us;
  }

  /** Appending the update a node computes keeps a replayed run replayed,
      and the history grows by exactly that update. */
  lemma {:induction false} ExtendReplays(input: seq<Message>, us: seq<Update>, node: Node, update: seq<Message>, env: Env)
    requires Replays(input, us, env) && (node == CallModel || node == Tools)
    requires update == NodeUpdate(node, input + Flatten(us), ModelSteps(us), env)
    ensures Replays(input, us + [Update(node, update)], env)
    ensures input + Flatten(us) + update == input + Flatten(us + [Update(node, update)])
  {
    var us' := us + [Update(node, update)];
    assert us'[..|us'| - 1] == us;
  }

  /** The step counter after one more node execution: a model step counts
      one, and the run can only go on to the tools while the budget still
      has room for the model step after them. */
  lemma {:induction false} ExtendBudget(us: seq<Update>, node: Node, update: seq<Message>, isLastStep: bool, env: Env)
    requires node == CallModel || node == Tools
    requires ModelSteps(us) < Budget(env.maxSteps)
    requires isLastStep == IsLastStep(ModelSteps(us), env.maxSteps)
    requires node == CallModel ==> |update| == 1 && update[0].AI? && (isLastStep ==> !HasToolCalls(update[0]))
    ensures Successor(node, update).Ok?
    ensures ModelSteps(us + [Update(node, update)]) == ModelSteps(us) + (if node == CallModel then 1 else 0)
    ensures ModelSteps(us + [Update(node, update)]) <= Budget(env.maxSteps)
    ensures Successor(node, update).value != End ==> ModelSteps(us + [Update(node, update)]) < Budget(env.maxSteps)
  {
    var us' := us + [Update(node, update)];
    assert us'[..|us'| - 1] == us;
  }

  /** A run that has reached `__end__` is a complete run whose history ends
      on an assistant message without tool calls, and no system message was
      appended on the way. */
  lemma FinishRun(input: seq<Message>, us: seq<Update>, env: Env)
    requires PartialRun(input, us, End, env)
    ensures IsRunTrace(us) && 1 <= ModelSteps(us)
    ensures RouteModelOutput(input + Flatten(us)) == Ok(End)
    ensures forall m :: m in (input + Flatten(us))[|input|..] ==> !m.System?
  {
    var last := us[|us| - 1];
    assert us[..|us| - 1] + [last] == us;
    RouteOnlyLast(input + Flatten(us), last.messages);
    NoSystemAppended(input, us, env);
    assert (input + Flatten(us))[|input|..] == Flatten(us);
  }

  /** A node's update holds no system message: `call_model` adds one
      assistant message, `tools` only tool messages. */
  lemma NodeUpdateKinds(node: Node, history: seq<Message>, steps: nat, env: Env)
    requires node == CallModel || node == Tools
    ensures node == Tools ==> forall m :: m in NodeUpdate(node, history, steps, env) ==> m.Tool?
    ensures forall m :: m in NodeUpdate(node, history, steps, env) ==> !m.System?
  {
  }

  /** Neither the system prompt nor any other system message ever enters
      the history through a node's update. */
  lemma {:induction false} NoSystemAppended(input: seq<Message>, us: seq<Update>, env: Env)
    requires Replays(input, us, env)
    ensures forall m :: m in Flatten(us) ==> !m.System?
  {
    if us != [] {
      var prefix := us[..|us| - 1];
      var u := us[|us| - 1];
      NoSystemAppended(input, prefix, env);
      NodeUpdateKinds(u.node, input + Flatten(prefix), ModelSteps(prefix), env);
    }
  }
}
