/** Two conversations run through the graph, with a model and tools given
    as plain functions: one that finishes after a tool call, and one that
    runs out of steps while the model still asks for a tool. What `Run`
    returns is fixed by its contract alone. */
module Scenarios {
  import opened Messages
  import opened Graph
  import opened Agent
  import opened RunProperties

  const QUESTION: Message := Human("human-1", "2+2?")
  const CALCULATOR_CALL: ToolCall := ToolCall("call-1", "calculator", "{\"expr\": \"2+2\"}")
  const TOOL_REQUEST: Message := AI("ai-1", "", [CALCULATOR_CALL])
  const TOOL_RESULT: Message := Tool("tool-1", "call-1", "calculator", "4")
  const ANSWER: Message := AI("ai-2", "4", [])

  /** Asks for the calculator while the question is the last message, and
      answers once it has the tool's result. */
  function CalculatorModel(input: seq<Message>): AIMessage {
    if input != [] && Last(input).Human? then TOOL_REQUEST else ANSWER
  }

  function CalculatorTools(history: seq<Message>): seq<ToolMessage> {
    [TOOL_RESULT]
  }

  /** A model that asks for the calculator whatever it is shown. */
  function InsistentModel(input: seq<Message>): AIMessage {
    TOOL_REQUEST
  }

  /** The updates of the calculator conversation: the model asks for the
      calculator, the tool answers, the model answers. */
  function CalculatorUpdates(): seq<Update> {
    [Update(CallModel, [TOOL_REQUEST]), Update(Tools, [TOOL_RESULT]), Update(CallModel, [ANSWER])]
  }

  /** The calculator updates follow the edges of the graph to `__end__`. */
  lemma CalculatorWired()
    ensures IsRunTrace(CalculatorUpdates())
  {
    var us := CalculatorUpdates();
    assert RouteModelOutput([TOOL_REQUEST]) == Ok(Tools);
    assert RouteModelOutput([ANSWER]) == Ok(End);
    assert us[..2][..1] == us[..1] && us[..1][..0] == [];
    assert HasToolCalls(TOOL_REQUEST);
    assert Successor(CallModel, [TOOL_REQUEST]) == Ok(Tools);
    assert Wired(us[..1], Tools);
    assert Wired(us[..2], CallModel);
  }

  /** The calculator updates are what the nodes compute from the question
      with a budget of five steps. */
  lemma CalculatorReplays(env: Env)
    requires env.maxSteps == 5 && env.model == CalculatorModel && env.tools == CalculatorTools
    ensures Replays([QUESTION], CalculatorUpdates(), env)
    ensures Flatten(CalculatorUpdates()) == [TOOL_REQUEST, TOOL_RESULT, ANSWER]
  {
    var us := CalculatorUpdates();
    var u1, u2, u3 := us[0], us[1], us[2];
    assert us[..2] == [u1, u2] && [u1, u2][..1] == [u1] && [u1][..0] == [];
    assert Flatten([u1]) == [TOOL_REQUEST];
    assert Flatten([u1, u2]) == [TOOL_REQUEST, TOOL_RESULT];
    assert ModelSteps([u1, u2]) == 1;
    assert env.model(ModelInput(env.systemPrompt(0), [QUESTION])) == TOOL_REQUEST;
    assert !IsLastStep(0, 5) && !IsLastStep(1, 5);
    assert NodeUpdate(CallModel, [QUESTION], 0, env) == [TOOL_REQUEST];
    assert Replays([QUESTION], [], env);
    assert Replays([QUESTION], [u1], env);
    assert Replays([QUESTION], [u1, u2], env);
    assert env.model(ModelInput(env.systemPrompt(1), [QUESTION, TOOL_REQUEST, TOOL_RESULT])) == ANSWER;
  }

  /** With a budget of five steps the model asks for the calculator once,
      the tool answers, and the model's second answer ends the run: four
      messages, in this order. */
  method CalculatorRun(systemPrompt: nat -> string) returns (history: seq<Message>, steps: nat)
    ensures history == [QUESTION, TOOL_REQUEST, TOOL_RESULT, ANSWER]
    ensures steps == 2
  {
    var env := Env(systemPrompt, 5, CalculatorModel, CalculatorTools);
    var updates;
    history, steps, updates := Run([QUESTION], env);
    CalculatorWired();
    CalculatorReplays(env);
    RunDetermined([QUESTION], updates, CalculatorUpdates(), env);
  }

  /** With a budget of one step, a model that keeps asking for a tool gets
      one model step only: the history ends on the budget notice under the
      model's message id, and no tool is ever run. */
  method BudgetRun(systemPrompt: nat -> string) returns (history: seq<Message>, steps: nat)
    ensures history == [QUESTION, AI(TOOL_REQUEST.id, BUDGET_NOTICE, [])]
    ensures steps == 1
  {
    var env := Env(systemPrompt, 1, InsistentModel, CalculatorTools);
    var updates;
    history, steps, updates := Run([QUESTION], env);
    TraceShape(updates);
    BudgetBound([QUESTION], updates, env);
    FinalAnswer([QUESTION], updates, env);
    assert |updates| == 1;
    assert updates[..0] == [];
    assert Flatten(updates) == updates[0].messages;
  }
}
