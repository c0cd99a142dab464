/** What every complete run of the graph satisfies, stated over the updates
    the nodes produced: the nodes alternate, tools run only after a request
    for them, the budget bounds the model steps, and the run is determined
    by its input and its environment: the system prompt of each step, the
    model, the tools and the budget. */
module RunProperties {
  import opened Messages
  import opened Graph
  import opened Agent

  /** Each update of a replayed run is what its node computed from the
      history and the step count at that point. */
  lemma {:induction false} ReplaysAt(input: seq<Message>, us: seq<Update>, env: Env, j: nat)
    requires Replays(input, us, env) && j < |us|
    ensures us[j].node == CallModel || us[j].node == Tools
    ensures us[j].messages == NodeUpdate(us[j].node, input + Flatten(us[..j]), ModelSteps(us[..j]), env)
  {
    var prefix := us[..|us| - 1];
    if j < |us| - 1 {
      ReplaysAt(input, prefix, env, j);
      assert prefix[..j] == us[..j];
    } else {
      assert us[..j] == prefix;
    }
  }

  /** Update `i` of a run in progress is a `call_model` or a `tools`
      update, the first one comes from `call_model`, a `call_model` update
      is one assistant message, and the node after it (or `next`, after the
      last) is its successor. */
  lemma {:induction false} WiredAt(us: seq<Update>, next: Node, i: nat)
    requires Wired(us, next) && i < |us|
    ensures us[i].node == CallModel || us[i].node == Tools
    ensures i == 0 ==> us[i].node == CallModel
    ensures us[i].node == CallModel ==> |us[i].messages| == 1 && us[i].messages[0].AI?
    ensures Successor(us[i].node, us[i].messages) == Ok(if i < |us| - 1 then us[i + 1].node else next)
  {
    var prefix := us[..|us| - 1];
    if i < |us| - 1 {
      WiredAt(prefix, us[|us| - 1].node, i);
      assert prefix[i] == us[i];
      if i < |prefix| - 1 {
        assert prefix[i + 1] == us[i + 1];
      }
    } else if i == 0 {
      assert prefix == [];
    }
  }

  /** The nodes of a run in progress alternate, starting with `call_model`. */
  lemma {:induction false} Alternation(us: seq<Update>, next: Node, i: nat)
    requires Wired(us, next) && i < |us|
    ensures us[i].node == (if i % 2 == 0 then CallModel else Tools)
  {
    WiredAt(us, next, i);
    if i > 0 {
      Alternation(us, next, i - 1);
      WiredAt(us, next, i - 1);
    }
  }

  /** Cutting a run in progress before update `j` leaves a run in progress
      whose next node is the node of update `j`. */
  lemma {:induction false} WiredPrefix(us: seq<Update>, next: Node, j: nat)
    requires Wired(us, next) && j < |us|
    ensures Wired(us[..j], us[j].node)
  {
    var prefix := us[..|us| - 1];
    if j < |us| - 1 {
      WiredPrefix(prefix, us[|us| - 1].node, j);
      assert prefix[..j] == us[..j] && prefix[j] == us[j];
    } else {
      assert us[..j] == prefix;
    }
  }

  /** Every other update of a run in progress is a model step. */
  lemma {:induction false} WiredSteps(us: seq<Update>, next: Node)
    requires Wired(us, next)
    ensures ModelSteps(us) == (|us| + 1) / 2
  {
    if us != [] {
      var j := |us| - 1;
      WiredSteps(us[..j], us[j].node);
      Alternation(us, next, j);
    }
  }

  /** The shape of every complete run: an odd number of updates alternating
      between `call_model` and `tools`, so one more model step than tool
      steps; a tool step comes only right after an assistant message that
      requested tools; every model step adds one assistant message; and the
      run ends right after a model step whose message requests no tools. */
  lemma {:induction false} TraceShape(us: seq<Update>)
    requires IsRunTrace(us)
    ensures forall i :: 0 <= i < |us| ==> us[i].node == (if i % 2 == 0 then CallModel else Tools)
    ensures |us| % 2 == 1 && ModelSteps(us) == (|us| + 1) / 2
    ensures forall i :: 0 <= i < |us| && us[i].node == CallModel ==> |us[i].messages| == 1 && us[i].messages[0].AI?
    ensures forall i :: 0 < i < |us| && us[i].node == Tools ==> HasToolCalls(us[i - 1].messages[0])
    ensures us[|us| - 1].node == CallModel && !HasToolCalls(us[|us| - 1].messages[0])
  {
    WiredAll(us, End);
    WiredSteps(us, End);
    WiredAt(us, End, |us| - 1);
  }

  /** The facts of `WiredAt` and `Alternation` for every update at once. */
  lemma {:induction false} WiredAll(us: seq<Update>, next: Node)
    requires Wired(us, next)
    ensures forall i :: 0 <= i < |us| ==> us[i].node == (if i % 2 == 0 then CallModel else Tools)
    ensures forall i :: 0 <= i < |us| && us[i].node == CallModel ==> |us[i].messages| == 1 && us[i].messages[0].AI?
    ensures forall i :: 0 < i < |us| && us[i].node == Tools ==> HasToolCalls(us[i - 1].messages[0])
  {
    forall i | 0 <= i < |us|
      ensures us[i].node == (if i % 2 == 0 then CallModel else Tools)
      ensures us[i].node == CallModel ==> |us[i].messages| == 1 && us[i].messages[0].AI?
      ensures i > 0 && us[i].node == Tools ==> us[i - 1].messages != [] && HasToolCalls(us[i - 1].messages[0])
    {
      Alternation(us, next, i);
      WiredAt(us, next, i);
      if i > 0 {
        WiredAt(us, next, i - 1);
      }
    }
  }

  /** Termination by the budget: a complete run takes at most the budgeted
      number of model steps, because the model step on the last permitted
      step cannot request tools any more and so ends the run. */
  lemma {:induction false} BudgetBound(input: seq<Message>, us: seq<Update>, env: Env)
    requires IsRunTrace(us) && Replays(input, us, env)
    ensures ModelSteps(us) <= Budget(env.maxSteps)
  {
    TraceShape(us);
    var b := Budget(env.maxSteps);
    if ModelSteps(us) > b {
      // the model step on the last permitted step, which is not the last update
      var j := 2 * (b - 1);
      assert j < |us| - 1;
      WiredPrefix(us, End, j);
      WiredSteps(us[..j], us[j].node);
      ReplaysAt(input, us, env, j);
      assert us[j].node == CallModel;
      assert ModelSteps(us[..j]) == b - 1;
      assert !HasToolCalls(us[j].messages[0]);
      EndsOnlyAtLast(us, j);
      assert false;
    }
  }

  /** The answer a complete run ends on: the model's last answer itself
      when it requested no tools; otherwise the run was on its last
      permitted step, has used the whole budget, and ends on the budget
      notice under the answer's id. */
  lemma {:induction false} FinalAnswer(input: seq<Message>, us: seq<Update>, env: Env)
    requires IsRunTrace(us) && Replays(input, us, env)
    ensures var k := |us| - 1;
            var response := env.model(ModelInput(env.systemPrompt(ModelSteps(us[..k])), input + Flatten(us[..k])));
            var final := Last(input + Flatten(us));
            && (!HasToolCalls(response) ==> final == response)
            && (HasToolCalls(response) ==>
                  ModelSteps(us) == Budget(env.maxSteps) && final == AI(response.id, BUDGET_NOTICE, []))
  {
    var k := |us| - 1;
    TraceShape(us);
    ReplaysAt(input, us, env, k);
    BudgetBound(input, us, env);
    assert us[..k] + [us[k]] == us;
    assert Last(input + Flatten(us)) == us[k].messages[0];
  }

  /** A run is determined by its input and its environment (the system
      prompt of each step, the model, the tools and the budget): two
      complete runs that replay the same input and environment are the same
      sequence of updates. */
  lemma {:induction false} RunDetermined(input: seq<Message>, us1: seq<Update>, us2: seq<Update>, env: Env)
    requires IsRunTrace(us1) && Replays(input, us1, env)
    requires IsRunTrace(us2) && Replays(input, us2, env)
    ensures us1 == us2
  {
    var n := if |us1| <= |us2| then |us1| else |us2|;
    SamePrefix(input, us1, us2, env, n);
    EndsOnlyAtLast(us1, n - 1);
    EndsOnlyAtLast(us2, n - 1);
  }

  /** In a complete run only the last update routes to `__end__`. */
  lemma {:induction false} EndsOnlyAtLast(us: seq<Update>, k: nat)
    requires Wired(us, End) && k < |us|
    ensures us[k].node == CallModel || us[k].node == Tools
    ensures Successor(us[k].node, us[k].messages) == Ok(End) <==> k == |us| - 1
  {
    WiredAt(us, End, k);
    if k < |us| - 1 {
      WiredAt(us, End, k + 1);
    }
  }

  /** Two runs that replay the same input and environment agree on every
      update both have. */
  lemma {:induction false} SamePrefix(input: seq<Message>, us1: seq<Update>, us2: seq<Update>, env: Env, n: nat)
    requires Wired(us1, End) && Replays(input, us1, env)
    requires Wired(us2, End) && Replays(input, us2, env)
    requires n <= |us1| && n <= |us2|
    ensures forall i :: 0 <= i < n ==> us1[i] == us2[i]
  {
    if n > 0 {
      SamePrefix(input, us1, us2, env, n - 1);
      SameNextUpdate(input, us1, us2, env, n - 1);
    }
  }

  /** Two runs that agree before update `j` agree on update `j` too: the
      node is fixed by alternation and the update by the replay. */
  lemma {:induction false} SameNextUpdate(input: seq<Message>, us1: seq<Update>, us2: seq<Update>, env: Env, j: nat)
    requires Wired(us1, End) && Replays(input, us1, env)
    requires Wired(us2, End) && Replays(input, us2, env)
    requires j < |us1| && j < |us2|
    requires forall i :: 0 <= i < j ==> us1[i] == us2[i]
    ensures us1[j] == us2[j]
  {
    assert us1[..j] == us2[..j];
    Alternation(us1, End, j);
    Alternation(us2, End, j);
    ReplaysAt(input, us1, env, j);
    ReplaysAt(input, us2, env, j);
  }
}
