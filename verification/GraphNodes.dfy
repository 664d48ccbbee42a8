/** What each step of the graph does, said of the environment's answers alone: which reply leads where, what
    is logged, and what the next state holds. */
module GraphNodes {
  import opened Wrappers
  import opened Catalog
  import opened Budget
  import opened Graph
  import opened GraphShape
  import Breaker

  // The calls started on the way from one meter to the other.
  function NewCalls(m: Meter, m': Meter): seq<Call> {
    if m.calls <= m'.calls then m'.calls[|m.calls|..] else []
  }

  // These events were logged on the way, and no others.
  predicate Logs(s: RunState, s': RunState, events: seq<Event>) {
    && |s'.log| == |s.log| + |events| && s.log <= s'.log
    && forall i :: 0 <= i < |events| ==> s'.log[|s.log| + i].event == events[i]
  }

  lemma LogsJoin(s: RunState, s': RunState, s'': RunState, a: seq<Event>, b: seq<Event>)
    requires Logs(s, s', a) && Logs(s', s'', b)
    ensures Logs(s, s'', a + b)
  {
  }

  lemma MovesOn(s: RunState, n: Node, e: Event)
    ensures var s' := Transition(s, n, e);
            && s' == s.(node := n, saved := s'.saved, eventSequence := s'.eventSequence, log := s'.log)
            && Logs(s, s', [e])
  {
  }

  lemma EndsEarly(s: RunState, v: Verdict)
    ensures var s' := EndEarly(s, v);
            && s'.node == Complete && s'.verdict == Some(v) && s'.status == StatusCompleted && s'.meter == s.meter
            && s'.fallback == s.fallback && s'.specialist == s.specialist
            && Logs(s, s', [MessageDelta, RunCompleted(v)])
  {
  }

  // --------------------------------------------------------------------------------------------
  // Asking the model
  // --------------------------------------------------------------------------------------------

  lemma AskOutcomes(env: Env, s: RunState)
    ensures var (s', signal, reply) := AskModel(env, s);
            var calls := NewCalls(s.meter, s'.meter);
            && s' == s.(meter := s'.meter) && |calls| <= 1
            && (calls == [] ==> signal.Raise? && signal.why.OverBudget?)
            && (calls != [] ==>
                  && s'.meter.calls == s.meter.calls + calls && calls[0].kind == ModelCall
                  && reply == env.model(calls[0].tick)
                  && signal == if env.model(calls[0].tick).ModelRaised? then Raise(Crashed) else Next)
  {
  }

  /** Classification: a budget stops it before the call; else the model's reply decides. A crash stays, a wish
      for clarification ends the run, and anything else goes on to the plan. */
  lemma ClassifyOutcomes(env: Env, s: RunState)
    requires s.node == Classify
    ensures var r := Dispatch(env, s);
            var calls := NewCalls(s.meter, r.state.meter);
            && |calls| <= 1 && r.state.fallback == s.fallback && r.state.specialist == s.specialist
            && (calls == [] ==> r.signal.Raise? && r.signal.why.OverBudget? && Logs(s, r.state, []))
            && (calls != [] ==>
                  && calls[0].kind == ModelCall
                  && match env.model(calls[0].tick)
                     case ModelRaised => r.signal == Raise(Crashed) && Logs(s, r.state, [])
                     case Replied(false) =>
                       && r.signal == Next && r.state.node == Plan && r.state.verdict == s.verdict
                       && r.state.status == s.status && Logs(s, r.state, [MessageDelta])
                     case Replied(true) =>
                       && r.signal == Return && r.state.node == Complete && r.state.verdict == Some(Clarify)
                       && r.state.status == StatusCompleted
                       && Logs(s, r.state, [MessageDelta, MessageDelta, RunCompleted(Clarify)]))
  {
    AskOutcomes(env, s);
    hide AskModel, Transition, EndEarly;
    var asked := AskModel(env, s).0;
    MovesOn(asked, Plan, MessageDelta);
    var planned := Transition(asked, Plan, MessageDelta);
    EndsEarly(planned, Clarify);
    LogsJoin(asked, planned, EndEarly(planned, Clarify), [MessageDelta], [MessageDelta, RunCompleted(Clarify)]);
    assert [MessageDelta] + [MessageDelta, RunCompleted(Clarify)]
           == [MessageDelta, MessageDelta, RunCompleted(Clarify)];
  }

  lemma PlanOutcomes(env: Env, s: RunState)
    requires s.node == Plan
    ensures var r := Dispatch(env, s);
            var calls := NewCalls(s.meter, r.state.meter);
            && |calls| <= 1
            && (calls == [] ==> r.signal.Raise? && r.signal.why.OverBudget? && Logs(s, r.state, []))
            && (calls != [] ==>
                  && calls[0].kind == ModelCall
                  && if env.model(calls[0].tick).ModelRaised? then r.signal == Raise(Crashed) && Logs(s, r.state, [])
                     else r.signal == Next && r.state.node == Resources && Logs(s, r.state, [MessageDelta]))
  {
    AskOutcomes(env, s);
    hide AskModel;
  }

  lemma ResourcesOutcomes(env: Env, s: RunState)
    requires s.node == Resources
    ensures var r := Dispatch(env, s);
            && r.signal == Next && r.state.node == McpReads && r.state.meter == s.meter
            && Logs(s, r.state, [ToolStarted(ResourceRead)])
  {
  }

  // --------------------------------------------------------------------------------------------
  // Judging by policy
  // --------------------------------------------------------------------------------------------

  // What the policy answers to `n` actions asked about in turn, from a tick on.
  function PolicyAnswers(env: Env, tick: nat, n: nat): (r: seq<PolicyOutcome>)
    ensures |r| == n && forall k :: 0 <= k < n ==> r[k] == env.policy(tick + k)
  {
    seq(n, k requires 0 <= k => env.policy(tick + k))
  }

  // Each action with whether it was allowed.
  predicate JudgedAs(judged: seq<(Tool, bool)>, actions: seq<Action>, answers: seq<PolicyOutcome>)
    requires |answers| == |actions|
  {
    |judged| == |actions|
    && forall k :: 0 <= k < |actions| ==> judged[k] == (actions[k].tool, answers[k] == Judged(true))
  }

  lemma {:induction false} JudgeSays(env: Env, m: Meter, actions: seq<Action>)
    ensures var (judged, answers) := (Judge(env, m, actions).1, PolicyAnswers(env, m.tick, |actions|));
            && (judged.None? <==> PolicyRaised in answers)
            && (judged.Some? ==> JudgedAs(judged.value, actions, answers))
    decreases |actions|
  {
    if actions != [] {
      var m', rest := m.(tick := m.tick + 1), actions[1..];
      JudgeSays(env, m', rest);
      var answers := PolicyAnswers(env, m.tick, |actions|);
      assert answers == [env.policy(m.tick)] + PolicyAnswers(env, m'.tick, |rest|);
      assert actions == [actions[0]] + rest;
      hide PolicyAnswers;
    }
  }

  /** The policy node, for every environment: it goes on to the gate if and only if the policy allows every
      action; it denies the run if and only if the policy raises for none and refuses one; it crashes if
      and only if the policy raises for one. Its judgements are the policy's answers, under the actions' tools. */
  lemma PolicyOutcomes(env: Env, s: RunState)
    requires s.node == Policy
    ensures var r, answers := Dispatch(env, s), PolicyAnswers(env, s.meter.tick, |s.actions|);
            && (r.signal == Next <==> forall a :: a in answers ==> a == Judged(true))
            && (r.signal == Return <==> PolicyRaised !in answers && Judged(false) in answers)
            && (r.signal == Raise(Crashed) <==> PolicyRaised in answers)
            && (r.signal == Next ==>
                  r.state.node == ApprovalPause && r.state.verdict == s.verdict && r.state.log == s.log)
            && (r.signal == Return ==>
                  && r.state.node == Complete && r.state.verdict == Some(DeniedByPolicy)
                  && r.state.status == StatusCompleted
                  && Logs(s, r.state, [MessageDelta, RunCompleted(DeniedByPolicy)]))
            && (r.signal != Raise(Crashed) ==> JudgedAs(r.state.judged, s.actions, answers))
            && r.state.actions == s.actions
  {
    JudgeSays(env, s.meter, s.actions);
    hide Judge, JudgedAs, PolicyAnswers, AnyDenied;
    var judged := Judge(env, s.meter, s.actions).1;
    var answers := PolicyAnswers(env, s.meter.tick, |s.actions|);
    if judged.Some? { DeniedIff(judged.value, s.actions, answers); }
  }

  lemma DeniedIff(judged: seq<(Tool, bool)>, actions: seq<Action>, answers: seq<PolicyOutcome>)
    requires |answers| == |actions| && PolicyRaised !in answers && JudgedAs(judged, actions, answers)
    ensures AnyDenied(judged) <==> Judged(false) in answers
    ensures (forall a :: a in answers ==> a == Judged(true)) <==> Judged(false) !in answers
  {
    if AnyDenied(judged) {
      var j :| j in judged && !j.1;
      var k :| 0 <= k < |judged| && judged[k] == j;
      assert answers[k] in answers;
    }
    if Judged(false) in answers {
      var k :| 0 <= k < |answers| && answers[k] == Judged(false);
      assert judged[k] in judged;
    }
    forall a | a in answers
      ensures a == Judged(true) || a == Judged(false)
    {
    }
  }

  // --------------------------------------------------------------------------------------------
  // The delegation
  // --------------------------------------------------------------------------------------------

  // A finding of the schema's shape.
  predicate Acceptable(fs: seq<RawFinding>) {
    forall i :: 0 <= i < |fs| ==>
      fs[i].title != "" && fs[i].summary != "" && fs[i].refs != [] && 0.0 <= fs[i].confidence <= 1.0
  }

  lemma AcceptableIsValid(fs: seq<RawFinding>)
    ensures ValidOutput(fs) <==> Acceptable(fs)
  {
    assert forall i :: 0 <= i < |fs| ==> fs[i] in fs;
  }

  // How a delegation ends: its signal, whether it brings findings, and whether the flag is up.
  datatype Ending = Ending(signal: Signal, found: Option<seq<RawFinding>>, fallback: bool)

  function Degrading(): Ending { Ending(Next, None, true) }

  // What each reply of the specialist leads to, for a run whose flag is as given.
  function EndingOf(reply: AgentOutcome, fallback: bool): Ending {
    match reply
    case Completed(fs) => if Acceptable(fs) then Ending(Next, Some(fs), fallback) else Degrading()
    case AgentTimedOut => Degrading()
    case AgentRaised => Degrading()
    case CompletedBadly => Degrading()
    case NotCompleted(true) => Degrading()
    case NotCompleted(false) => Ending(Raise(Crashed), None, true)
    case NotADict => Ending(Raise(Crashed), None, fallback)
    case AgentCancelled => Ending(Raise(Cancelled), None, fallback)
  }

  lemma CallOutcomes(env: Env, s: RunState)
    ensures var (s', signal, found) := CallSpecialist(env, s);
            var calls := NewCalls(s.meter, s'.meter);
            && |calls| <= 1
            && (Breaker.A2a in s.breaker.open ==>
                  calls == [] && Ending(signal, found, s'.fallback) == Degrading() && s'.log == s.log)
            && (Breaker.A2a !in s.breaker.open && calls == [] ==>
                  signal.Raise? && signal.why != Crashed && s'.fallback == s.fallback && s'.log == s.log)
            && (calls != [] ==>
                  && calls[0].kind == Delegation && Logs(s, s', [AgentDelegated])
                  && Ending(signal, found, s'.fallback) == EndingOf(env.agent(calls[0].tick), s.fallback))
  {
    hide ClearAndPay, ValidOutput, Acceptable, Breaker.Success, Breaker.Failure;
    var paid := ClearAndPay(env.world, s.limits, s.meter, Delegation, None);
    OneCall(env.world, s.limits, s.meter, Delegation, None);
    if paid.stop.None? && env.agent(Answer(paid.meter)).Completed? {
      AcceptableIsValid(env.agent(Answer(paid.meter)).findings);
    }
  }

  /** The delegation, reply by reply. With an open breaker nobody is called and the run is degraded. A call that
      is made is logged; a completed and acceptable reply gives the findings and leaves the flag; a timeout, a
      failure, a malformed output or a refusal with an error degrades the run and lets it go on; what the
      code does not expect stops it. */
  lemma DelegationOutcomes(env: Env, s: RunState)
    requires s.node == Delegate
    ensures var r := Dispatch(env, s);
            var calls := NewCalls(s.meter, r.state.meter);
            var found := if r.signal == Next then r.state.specialist else None;
            && |calls| <= 1 && (r.signal == Next ==> r.state.node == Correlate)
            && (Breaker.A2a in s.breaker.open ==>
                  && calls == [] && Ending(r.signal, found, r.state.fallback) == Degrading()
                  && Logs(s, r.state, [MessageDelta]))
            && (Breaker.A2a !in s.breaker.open && calls == [] ==>
                  r.signal.Raise? && r.signal.why != Crashed && r.state.fallback == s.fallback && r.state.log == s.log)
            && (calls != [] ==>
                  && calls[0].kind == Delegation
                  && Ending(r.signal, found, r.state.fallback) == EndingOf(env.agent(calls[0].tick), s.fallback)
                  && Logs(s, r.state, if r.signal == Next then [AgentDelegated, MessageDelta] else [AgentDelegated]))
  {
    CallOutcomes(env, s);
    CallSpecialistFrame(env, s);
    hide CallSpecialist, EndingOf;
  }

  lemma CallIsRecorded(env: Env, s: RunState)
    ensures var (s', _, found) := CallSpecialist(env, s);
            var calls := NewCalls(s.meter, s'.meter);
            s'.breaker == if calls == [] || env.agent(calls[0].tick) in {NotADict, AgentCancelled} then s.breaker
                          else if found.Some? then Breaker.Success(s.breaker, Breaker.A2a)
                          else Breaker.Failure(s.breaker, Breaker.A2a)
  {
    hide ClearAndPay, ValidOutput, Breaker.Success, Breaker.Failure;
    OneCall(env.world, s.limits, s.meter, Delegation, None);
  }

  // The breaker's record of a delegation: its success, or its failure, or nothing for what stops the run.
  lemma DelegationIsRecorded(env: Env, s: RunState)
    requires s.node == Delegate
    ensures var r := Dispatch(env, s);
            var calls := NewCalls(s.meter, r.state.meter);
            r.state.breaker == if calls == [] || env.agent(calls[0].tick) in {NotADict, AgentCancelled} then s.breaker
                               else if r.signal == Next && r.state.specialist.Some?
                                    then Breaker.Success(s.breaker, Breaker.A2a)
                               else Breaker.Failure(s.breaker, Breaker.A2a)
  {
    CallIsRecorded(env, s);
    CallSpecialistFrame(env, s);
    hide CallSpecialist, NewCalls, Breaker.Success, Breaker.Failure;
  }

  lemma OneCall(w: World, lim: Limits, m: Meter, k: Kind, action: Option<Tool>)
    ensures var paid := ClearAndPay(w, lim, m, k, action);
            && (paid.stop.Some? ==> paid.meter.calls == m.calls && paid.stop.value != Crashed)
            && (paid.stop.None? ==>
                  && |paid.meter.calls| == |m.calls| + 1 && m.calls <= paid.meter.calls
                  && paid.meter.calls[|m.calls|].kind == k && paid.meter.calls[|m.calls|].action == action
                  && paid.meter.calls[|m.calls|].tick == Answer(paid.meter))
  {
  }

  // --------------------------------------------------------------------------------------------
  // Reads
  // --------------------------------------------------------------------------------------------

  // A series of attempts: at most `most` calls, each but the last answered by a timeout.
  predicate Attempted(env: Env, calls: seq<Call>, most: nat) {
    && |calls| <= most
    && (forall i :: 0 <= i < |calls| ==> calls[i].kind == ToolCall && calls[i].action.None?)
    && (forall i :: 0 <= i < |calls| - 1 ==> env.tool(calls[i].tick).TimedOut?)
  }

  // How a series of attempts ends, by its last call.
  predicate EndsAs(env: Env, calls: seq<Call>, most: nat, stop: Option<Why>, answer: Option<ToolOutcome>) {
    if stop.Some? then
      && stop.value != Crashed && answer.None? && |calls| < most
      && (calls != [] ==> env.tool(calls[|calls| - 1].tick).TimedOut?)
    else
      && calls != []
      && var last := env.tool(calls[|calls| - 1].tick);
         answer == (if last.Answered? then Some(last) else None) && (last.TimedOut? ==> |calls| == most)
  }

  lemma {:induction false} AttemptsTell(env: Env, lim: Limits, m: Meter, attempt: nat)
    requires attempt <= MAX_READ_RETRIES
    ensures var r := ReadAttempts(env, lim, m, attempt);
            && m.calls <= r.meter.calls && (r.stop.Some? ==> r.answer.None?)
            && var calls, most := r.meter.calls[|m.calls|..], MAX_READ_RETRIES + 1 - attempt;
               && Attempted(env, calls, most) && EndsAs(env, calls, most, r.stop, r.answer)
    decreases MAX_READ_RETRIES - attempt
  {
    hide ClearAndPay;
    var paid := ClearAndPay(env.world, lim, m, ToolCall, None);
    OneCall(env.world, lim, m, ToolCall, None);
    if paid.stop.None? {
      var c := paid.meter.calls[|m.calls|];
      assert paid.meter.calls == m.calls + [c];
      if env.tool(c.tick).TimedOut? && attempt < MAX_READ_RETRIES {
        AttemptsTell(env, lim, paid.meter, attempt + 1);
        var r := ReadAttempts(env, lim, paid.meter, attempt + 1);
        assert r.meter.calls[|m.calls|..] == [c] + r.meter.calls[|paid.meter.calls|..];
      }
    }
  }

  /** A read, for every tool: refused without a call if its arguments do not pass or the breaker is open; else at
      most three calls, of which only timeouts are tried again. What the last one answers is the result, the
      breaker and the completed event tell whether there is one, and a budget or a cancellation that stops it
      leaves the started event alone. */
  lemma ReadOutcomes(env: Env, s: RunState, t: Tool)
    ensures var r := McpRead(env, s, t);
            if !env.argsOk(t) || Breaker.Mcp in s.breaker.open then r == ReadStep(s, Raise(Crashed), None)
            else
              && s.meter.calls <= r.state.meter.calls && r.signal != Return
              && var calls := r.state.meter.calls[|s.meter.calls|..];
                 var stop := if r.signal.Raise? then Some(r.signal.why) else None;
                 && Attempted(env, calls, 3) && EndsAs(env, calls, 3, stop, r.answer)
                 && (r.signal.Raise? ==> Logs(s, r.state, [ToolStarted(ReadOf(t))]) && r.state.breaker == s.breaker)
                 && (r.signal == Next ==>
                       && Logs(s, r.state, [ToolStarted(ReadOf(t)), ToolCompleted(ReadOf(t), r.answer.Some?)])
                       && r.state.breaker == if r.answer.Some? then Breaker.Success(s.breaker, Breaker.Mcp)
                                             else Breaker.Failure(s.breaker, Breaker.Mcp))
  {
    hide ReadAttempts, Attempted, EndsAs, Breaker.Success, Breaker.Failure;
    AttemptsTell(env, s.limits, s.meter, 0);
  }

  // The answer is recorded as evidence, under the tool it names itself or else the tool asked.
  lemma ReadIsRecorded(env: Env, s: RunState, t: Tool)
    ensures var r := McpRead(env, s, t);
            AfterRead(env, s, t)
            == if r.answer.None? then r.state
               else match r.answer.value
                    case Answered(None, health, ref) =>
                      r.state.(evidence := r.state.evidence + [Evidence(t, health, ref)])
                    case Answered(Some(named), health, ref) =>
                      r.state.(evidence := r.state.evidence + [Evidence(named, health, ref)])
                    case _ => r.state
  {
    hide McpRead;
  }

  /** The reads node: metrics, logs, health and release are read in this order, each from the state that the one
      before leaves; the first that stops stops the node, and after the last the run goes on to delegate. */
  lemma FourReads(env: Env, s: RunState)
    requires s.node == McpReads
    ensures var s1 := AfterRead(env, s, QueryMetrics);
            var s2 := AfterRead(env, s1, QueryLogs);
            var s3 := AfterRead(env, s2, GetHealth);
            var s4 := AfterRead(env, s3, GetCurrentRelease);
            var r1, r2 := McpRead(env, s, QueryMetrics), McpRead(env, s1, QueryLogs);
            var r3, r4 := McpRead(env, s2, GetHealth), McpRead(env, s3, GetCurrentRelease);
            var r := Dispatch(env, s);
            if r1.signal.Raise? then r == Step(r1.state, r1.signal)
            else if r2.signal.Raise? then r == Step(r2.state, r2.signal)
            else if r3.signal.Raise? then r == Step(r3.state, r3.signal)
            else if r4.signal.Raise? then r == Step(r4.state, r4.signal)
            else
              && r.signal == Next && r.state.node == Delegate && r.state.evidence == s4.evidence
              && Logs(s4, r.state, [ToolCompleted(ResourceRead, true)]) && r.state.meter == s4.meter
              && r.state.breaker == s4.breaker
  {
    hide McpRead, AfterRead, ReadAll;
    var a, b, c, d := QueryMetrics, QueryLogs, GetHealth, GetCurrentRelease;
    var s1 := AfterRead(env, s, a);
    var s2 := AfterRead(env, s1, b);
    var s3 := AfterRead(env, s2, c);
    var s4 := AfterRead(env, s3, d);
    assert READS == [a, b, c, d];
    assert [a, b, c, d][1..] == [b, c, d] && [b, c, d][1..] == [c, d] && [c, d][1..] == [d] && [d][1..] == [];
    ReadAllOneStep(env, s, [a, b, c, d]);
    ReadAllOneStep(env, s1, [b, c, d]);
    ReadAllOneStep(env, s2, [c, d]);
    ReadAllOneStep(env, s3, [d]);
    NoReads(env, s4);
  }

  lemma ReadAllOneStep(env: Env, s: RunState, tools: seq<Tool>)
    requires tools != []
    ensures var r := McpRead(env, s, tools[0]);
            ReadAll(env, s, tools) == if r.signal.Raise? then Step(r.state, r.signal)
                                      else ReadAll(env, AfterRead(env, s, tools[0]), tools[1..])
  {
    hide McpRead;
  }
}
