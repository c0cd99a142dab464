/** The ReAct agent graph: the routing decision after a model step, the
    rewrite of the model's answer on the last permitted step, the fixed
    node/edge topology and the step budget behind `is_last_step`. */
module Graph {
  import opened Messages

  /** The nodes of the graph: the entry point `__start__`, the two nodes
      added to the builder (`call_model` and `tools`) and the exit `__end__`. */
  datatype Node = Start | CallModel | Tools | End

  /** Why routing fails. */
  datatype RouteError =
      /** taking the last message of an empty history fails */
    | EmptyHistory
      /** the last message is not an assistant message; carries its class name */
    | UnexpectedMessage(kind: string)

  /** The content that replaces an answer still asking for tools on the last step. */
  const BUDGET_NOTICE: string :=
    "Sorry, I could not find an answer to your question in the specified number of steps."

  /** The conditional edge out of `call_model`: finish when the last message
      is an assistant message without tool calls, run the tools when it has
      some, and fail on an empty history or any other kind of message. */
  function RouteModelOutput(messages: seq<Message>): (r: Result<Node, RouteError>)
    ensures r.Ok? <==> messages != [] && Last(messages).AI?
    ensures r == Ok(End) <==> messages != [] && Last(messages).AI? && Last(messages).toolCalls == []
    ensures r == Ok(Tools) <==> messages != [] && HasToolCalls(Last(messages))
    ensures r == Err(EmptyHistory) <==> messages == []
    ensures messages != [] && !Last(messages).AI? ==> r == Err(UnexpectedMessage(KindName(Last(messages))))
  {
    if |messages| == 0 then Err(EmptyHistory)
    else
      var last := messages[|messages| - 1];
      if !last.AI? then Err(UnexpectedMessage(KindName(last)))
      else if |last.toolCalls| == 0 then Ok(End)
      else Ok(Tools)
  }

  /** Routing looks at the last message only: two histories that end in the
      same message are routed alike, whatever came before. */
  lemma RouteOnlyLast(h1: seq<Message>, h2: seq<Message>)
    requires h1 != [] && h2 != [] && Last(h1) == Last(h2)
    ensures RouteModelOutput(h1) == RouteModelOutput(h2)
    ensures RouteModelOutput(h1) == RouteModelOutput([Last(h2)])
  {
  }

  /** The update `call_model` returns for the model's answer: on the last
      permitted step an answer that still asks for tools is replaced by a
      message with the same id, the budget notice and no tool calls;
      otherwise the answer is passed on as it is. Either way the update is
      exactly one assistant message. */
  function FinalizeReply(response: AIMessage, isLastStep: bool): (update: seq<Message>)
    ensures |update| == 1 && update[0].AI? && update[0].id == response.id
    ensures isLastStep && HasToolCalls(response) ==> update[0] == AI(response.id, BUDGET_NOTICE, [])
    ensures !(isLastStep && HasToolCalls(response)) ==> update[0] == response
    ensures isLastStep ==> !HasToolCalls(update[0])
    ensures HasToolCalls(update[0]) ==> !isLastStep && update[0] == response
  {
    if isLastStep && |response.toolCalls| > 0 then
      [AI(response.id, BUDGET_NOTICE, [])]
    else
      [response]
  }

  /** Whatever came before, appending the update of a last step makes the
      graph finish; before the last step, the answer routes as the model
      gave it. */
  lemma FinalizeThenRoute(history: seq<Message>, response: AIMessage, isLastStep: bool)
    ensures isLastStep ==> RouteModelOutput(history + FinalizeReply(response, isLastStep)) == Ok(End)
    ensures !isLastStep ==> RouteModelOutput(history + FinalizeReply(response, isLastStep)) == RouteModelOutput([response])
  {
    var h := history + FinalizeReply(response, isLastStep);
    assert Last(h) == FinalizeReply(response, isLastStep)[0];
  }

  /** The edges wired into the builder: `__start__` to `call_model`, the
      conditional edge out of `call_model`, and `tools` back to `call_model`.
      `__end__` has no outgoing edge. */
  function Successor(node: Node, messages: seq<Message>): (r: Result<Node, RouteError>)
    requires node != End
    ensures node != CallModel ==> r == Ok(CallModel)
    ensures node == CallModel ==> r == RouteModelOutput(messages)
    ensures r.Ok? ==> r.value != Start
    ensures r == Ok(End) ==> node == CallModel && messages != [] && Last(messages).AI? && !HasToolCalls(Last(messages))
    ensures r == Ok(Tools) ==> node == CallModel && messages != [] && HasToolCalls(Last(messages))
  {
    match node
    case Start => Ok(CallModel)
    case CallModel => RouteModelOutput(messages)
    case Tools => Ok(CallModel)
  }

  /** The number of model steps a run may take; a budget of 0 behaves like 1,
      since the very first step is then already the last. */
  function Budget(maxSteps: nat): (b: nat)
    ensures b >= 1 && b >= maxSteps
    ensures maxSteps > 0 ==> b == maxSteps
    ensures maxSteps == 0 ==> b == 1
  {
    if maxSteps == 0 then 1 else maxSteps
  }

  /** `is_last_step` for the model step that follows `steps` earlier model
      steps of the same run. */
  predicate IsLastStep(steps: nat, maxSteps: nat)
    ensures IsLastStep(steps, maxSteps) <==> steps + 1 >= Budget(maxSteps)
  {
    steps + 1 >= maxSteps
  }
}
