/** The grammar of a run's events. */
module GraphTrace {
  import opened Wrappers
  import opened Catalog
  import opened Budget
  import opened Graph
  import opened GraphLedger
  import opened GraphShape
  import opened GraphActions
  import Breaker

  // --------------------------------------------------------------------------------------------
  // Words over events
  // --------------------------------------------------------------------------------------------

  predicate IsTerminal(e: Event) { e.RunCompleted? || e.RunFailed? || e.RunCancelled? }

  function Delta(e: Event): int { if e.ToolStarted? then 1 else if e.ToolCompleted? then -1 else 0 }

  // Tool calls started and not completed.
  function Depth(log: seq<Stamped>): int {
    if log == [] then 0 else Depth(log[..|log| - 1]) + Delta(log[|log| - 1].event)
  }

  // No completion without a start: the log is a prefix of a balanced word.
  predicate NeverNegative(log: seq<Stamped>) {
    log == [] || (NeverNegative(log[..|log| - 1]) && Depth(log) >= 0)
  }

  function Terminals(log: seq<Stamped>): nat {
    if log == [] then 0 else Terminals(log[..|log| - 1]) + if IsTerminal(log[|log| - 1].event) then 1 else 0
  }

  predicate EndsTerminal(log: seq<Stamped>) { log != [] && IsTerminal(log[|log| - 1].event) }

  // Events are numbered 1..n.
  ghost predicate NumberedFromOne(s: RunState) {
    s.eventSequence == |s.log| && forall i :: 0 <= i < |s.log| ==> s.log[i].number == i + 1
  }

  ghost predicate LogOk(s: RunState) { NumberedFromOne(s) && NeverNegative(s.log) && Depth(s.log) >= 0 }

  // `s'` extends the log of `s` without a terminal event, changing the depth by `d`.
  ghost predicate Quiet(s: RunState, s': RunState, d: int) {
    && LogOk(s') && s.log <= s'.log
    && Terminals(s'.log) == Terminals(s.log)
    && Depth(s'.log) == Depth(s.log) + d
  }

  // `s'` extends the log of `s` with exactly one terminal event, the last.
  ghost predicate Ended(s: RunState, s': RunState) {
    && LogOk(s') && s.log <= s'.log
    && Terminals(s'.log) == Terminals(s.log) + 1 && EndsTerminal(s'.log)
    && Depth(s'.log) == Depth(s.log)
  }

  lemma Emits(s: RunState, s': RunState, e: Event)
    requires LogOk(s) && (Delta(e) >= 0 || Depth(s.log) >= 1)
    requires s'.log == Emit(s, e).log && s'.eventSequence == Emit(s, e).eventSequence
    ensures !IsTerminal(e) ==> Quiet(s, s', Delta(e))
    ensures IsTerminal(e) ==> Ended(s, s')
  {
    assert s'.log[..|s'.log| - 1] == s.log;
  }

  lemma Unchanged(s: RunState, s': RunState)
    requires LogOk(s) && s'.log == s.log && s'.eventSequence == s.eventSequence
    ensures Quiet(s, s', 0)
  {
  }

  lemma QuietCompose(s: RunState, s': RunState, s'': RunState, d: int, e: int)
    requires Quiet(s, s', d) && Quiet(s', s'', e)
    ensures Quiet(s, s'', d + e)
  {
  }

  lemma QuietThenEnded(s: RunState, s': RunState, s'': RunState)
    requires Quiet(s, s', 0) && Ended(s', s'')
    ensures Ended(s, s'')
  {
  }

  // --------------------------------------------------------------------------------------------
  // Steps
  // --------------------------------------------------------------------------------------------

  // The depth at which a node starts: the resource read stays open during the reads.
  function Base(n: Node): nat { if n == McpReads then 1 else 0 }

  ghost predicate PausedAt(s: RunState) {
    AwaitsApproval(s) || (s.node == Verify && s.actions == [])
  }

  ghost predicate StepLog(s: RunState, s': RunState, signal: Signal) {
    match signal
    case Next => Quiet(s, s', Base(s'.node) - Base(s.node))
    case Return =>
      (s'.status == StatusCompleted && s'.node == Complete && Base(s.node) == 0 && Ended(s, s'))
      || (PausedAt(s') && Quiet(s, s', Base(s'.node) - Base(s.node)))
    case Raise(why) =>
      s'.node == s.node && (Quiet(s, s', 0) || (why != Crashed && s.node != Delegate && Quiet(s, s', 1)))
  }

  lemma McpReadLog(env: Env, s: RunState, t: Tool)
    requires LogOk(s)
    ensures var r := McpRead(env, s, t);
            && r.state.node == s.node && r.signal != Return
            && (!r.signal.Raise? ==> Quiet(s, r.state, 0))
            && (r.signal.Raise? ==> Quiet(s, r.state, 0) || (r.signal.why != Crashed && Quiet(s, r.state, 1)))
  {
    hide ReadAttempts, LogOk, Quiet, Ended;
    var r := McpRead(env, s, t);
    Unchanged(s, s);
    if env.argsOk(t) && Breaker.Mcp !in s.breaker.open {
      ReadNeverCrashes(env, s.limits, s.meter, 0);
      var attempts := ReadAttempts(env, s.limits, s.meter, 0);
      var started := Emit(s, ToolStarted(ReadOf(t))).(meter := attempts.meter);
      StartThenComplete(s, started, r.state, t, attempts.answer.Some?);
    }
  }

  lemma {:induction false} ReadNeverCrashes(env: Env, lim: Limits, m: Meter, attempt: nat)
    requires attempt <= MAX_READ_RETRIES
    ensures ReadAttempts(env, lim, m, attempt).stop != Some(Crashed)
    decreases MAX_READ_RETRIES - attempt
  {
    var paid := ClearAndPay(env.world, lim, m, ToolCall, None);
    assert paid.stop != Some(Crashed);
    hide ClearAndPay;
    if paid.stop.None? && env.tool(Answer(paid.meter)).TimedOut? && attempt < MAX_READ_RETRIES {
      ReadNeverCrashes(env, lim, paid.meter, attempt + 1);
    }
  }

  lemma StartThenComplete(s: RunState, started: RunState, done: RunState, t: Tool, ok: bool)
    requires LogOk(s)
    requires started.log == Emit(s, ToolStarted(ReadOf(t))).log
          && started.eventSequence == Emit(s, ToolStarted(ReadOf(t))).eventSequence
    ensures Quiet(s, started, 1)
    ensures (done.log == Emit(started, ToolCompleted(ReadOf(t), ok)).log
             && done.eventSequence == Emit(started, ToolCompleted(ReadOf(t), ok)).eventSequence)
            ==> Quiet(s, done, 0)
    ensures (done.log == started.log && done.eventSequence == started.eventSequence) ==> Quiet(s, done, 1)
  {
    Emits(s, started, ToolStarted(ReadOf(t)));
    var completed := Emit(started, ToolCompleted(ReadOf(t), ok));
    Emits(started, completed, ToolCompleted(ReadOf(t), ok));
  }

  lemma {:induction false} ReadAllLog(env: Env, s: RunState, tools: seq<Tool>)
    requires LogOk(s)
    ensures var r := ReadAll(env, s, tools);
            && r.state.node == s.node && r.signal != Return
            && (!r.signal.Raise? ==> Quiet(s, r.state, 0))
            && (r.signal.Raise? ==> Quiet(s, r.state, 0) || (r.signal.why != Crashed && Quiet(s, r.state, 1)))
    decreases |tools|
  {
    hide McpRead, LogOk;
    Unchanged(s, s);
    if tools != [] {
      McpReadLog(env, s, tools[0]);
      var r := McpRead(env, s, tools[0]);
      if !r.signal.Raise? {
        var next := if r.answer.Some? && r.answer.value.Answered?
                    then r.state.(evidence := r.state.evidence + [ToEvidence(tools[0], r.answer.value)])
                    else r.state;
        Unchanged(r.state, next);
        ReadAllLog(env, next, tools[1..]);
      }
    }
  }

  lemma EndEarlyLog(s: RunState, v: Verdict)
    requires LogOk(s)
    ensures Ended(s, EndEarly(s, v)) && EndEarly(s, v).status == StatusCompleted && EndEarly(s, v).node == Complete
  {
    var told := Emit(s.(verdict := Some(v), status := StatusCompleted), MessageDelta);
    Emits(s, told, MessageDelta);
    Emits(told, EndEarly(s, v), RunCompleted(v));
    QuietThenEnded(s, told, EndEarly(s, v));
  }

  lemma AskModelLog(env: Env, s: RunState)
    requires LogOk(s)
    ensures var (s', signal, _) := AskModel(env, s);
            s'.node == s.node && s'.log == s.log && s'.eventSequence == s.eventSequence && signal != Return
  {
    hide Pay;
  }

  lemma ClassifyLog(env: Env, s: RunState)
    requires LogOk(s) && s.node == Classify
    ensures StepLog(s, DoClassify(env, s).state, DoClassify(env, s).signal)
  {
    hide AskModel, LogOk;
    AskModelLog(env, s);
    var (s', signal, reply) := AskModel(env, s);
    Unchanged(s, s');
    if !signal.Raise? {
      var planned := Transition(s', Plan, MessageDelta);
      Emits(s', planned, MessageDelta);
      QuietCompose(s, s', planned, 0, 0);
      EndEarlyLog(planned, Clarify);
      QuietThenEnded(s, planned, EndEarly(planned, Clarify));
    }
  }

  lemma PlanLog(env: Env, s: RunState)
    requires LogOk(s) && s.node == Plan
    ensures StepLog(s, DoPlan(env, s).state, DoPlan(env, s).signal)
  {
    hide AskModel, LogOk;
    AskModelLog(env, s);
    var (s', signal, _) := AskModel(env, s);
    Unchanged(s, s');
    if !signal.Raise? {
      Emits(s', DoPlan(env, s).state, MessageDelta);
      QuietCompose(s, s', DoPlan(env, s).state, 0, 0);
    }
  }

  lemma McpReadsLog(env: Env, s: RunState)
    requires LogOk(s) && s.node == McpReads && Depth(s.log) >= 1
    ensures StepLog(s, DoMcpReads(env, s).state, DoMcpReads(env, s).signal)
  {
    hide ReadAll, LogOk;
    ReadAllLog(env, s, READS);
    var r := ReadAll(env, s, READS);
    if !r.signal.Raise? {
      var done := Transition(r.state, Delegate, ToolCompleted(ResourceRead, true));
      Emits(r.state, done, ToolCompleted(ResourceRead, true));
      QuietCompose(s, r.state, done, 0, -1);
    }
  }

  lemma CallSpecialistEmits(env: Env, s: RunState)
    ensures var s' := CallSpecialist(env, s).0;
            (s'.log == s.log && s'.eventSequence == s.eventSequence)
            || (s'.log == Emit(s, AgentDelegated).log && s'.eventSequence == Emit(s, AgentDelegated).eventSequence)
  {
    hide ClearAndPay, ValidOutput, Breaker.Success, Breaker.Failure;
  }

  lemma CallSpecialistLog(env: Env, s: RunState)
    requires LogOk(s)
    ensures var (s', signal, _) := CallSpecialist(env, s);
            s'.node == s.node && signal != Return && Quiet(s, s', 0)
  {
    hide CallSpecialist, Emit, LogOk, Quiet;
    CallSpecialistFrame(env, s);
    CallSpecialistEmits(env, s);
    var s' := CallSpecialist(env, s).0;
    if s'.log == s.log && s'.eventSequence == s.eventSequence {
      Unchanged(s, s');
    } else {
      Emits(s, s', AgentDelegated);
    }
  }

  lemma DelegateLog(env: Env, s: RunState)
    requires LogOk(s) && s.node == Delegate
    ensures StepLog(s, DoDelegate(env, s).state, DoDelegate(env, s).signal)
  {
    hide CallSpecialist, LogOk;
    CallSpecialistLog(env, s);
    var (s', signal, found) := CallSpecialist(env, s);
    if !signal.Raise? {
      Emits(s', DoDelegate(env, s).state, MessageDelta);
      QuietCompose(s, s', DoDelegate(env, s).state, 0, 0);
    }
  }

  lemma {:induction false} EmitFindingsLog(s: RunState, fs: seq<Finding>)
    requires LogOk(s)
    ensures Quiet(s, EmitFindings(s, fs), 0) && EmitFindings(s, fs).node == s.node
  {
    if fs == [] {
      Unchanged(s, s);
    } else {
      var front := EmitFindings(s, fs[..|fs| - 1]);
      EmitFindingsLog(s, fs[..|fs| - 1]);
      Emits(front, EmitFindings(s, fs), FindingCreated(fs[|fs| - 1]));
      QuietCompose(s, front, EmitFindings(s, fs), 0, 0);
    }
  }

  lemma FindingsLog(env: Env, s: RunState)
    requires LogOk(s) && s.node == Findings
    ensures StepLog(s, DoFindings(env, s).state, DoFindings(env, s).signal)
  {
    hide NormaliseFrom, EmitFindings, MaxConfidence, RawFindings, LogOk;
    var findings := NormaliseFrom(RawFindings(env, s), 0);
    var s0 := s.(findings := findings);
    Unchanged(s, s0);
    EmitFindingsLog(s0, findings);
    var s' := Save(EmitFindings(s0, findings));
    Unchanged(EmitFindings(s0, findings), s');
    QuietCompose(s, s0, s', 0, 0);
    EndEarlyLog(s', MoreInfo);
    QuietThenEnded(s, s', EndEarly(s', MoreInfo));
    Unchanged(s', Save(s'.(node := Propose)));
    QuietCompose(s, s', Save(s'.(node := Propose)), 0, 0);
  }

  lemma CorrelateLog(s: RunState)
    requires LogOk(s) && s.node == Correlate
    ensures StepLog(s, DoCorrelate(s).state, DoCorrelate(s).signal)
  {
    hide Conflicting, CapAll, DiscountAll, LogOk, Quiet;
    Emits(s, DoCorrelate(s).state, MessageDelta);
  }

  lemma ProposeLog(env: Env, s: RunState)
    requires LogOk(s) && s.node == Propose
    ensures StepLog(s, DoPropose(env, s).state, DoPropose(env, s).signal)
  {
    hide MentionsDeployment, Top, LogOk, Quiet;
    var r := DoPropose(env, s);
    if r.signal.Raise? {
      Unchanged(s, r.state);
    } else {
      Emits(s, r.state, MessageDelta);
    }
  }

  lemma PolicyLog(env: Env, s: RunState)
    requires LogOk(s) && s.node == Policy
    ensures StepLog(s, DoPolicy(env, s).state, DoPolicy(env, s).signal)
  {
    hide Judge, AnyDenied, LogOk, Quiet, Ended;
    var r := DoPolicy(env, s);
    if r.signal != Return {
      Unchanged(s, r.state);
    } else {
      var (m, judged) := Judge(env, s.meter, s.actions);
      var s' := Save(s.(meter := m, judged := judged.value));
      Unchanged(s, s');
      assert LogOk(s') by { UnchangedOk(s, s'); }
      EndEarlyLog(s', DeniedByPolicy);
      QuietThenEnded(s, s', EndEarly(s', DeniedByPolicy));
    }
  }

  lemma UnchangedOk(s: RunState, s': RunState)
    requires LogOk(s) && s'.log == s.log && s'.eventSequence == s.eventSequence
    ensures LogOk(s')
  {
  }

  lemma PauseLog(s: RunState)
    requires LogOk(s) && s.node == ApprovalPause
    ensures StepLog(s, DoApprovalPause(s).state, DoApprovalPause(s).signal)
  {
    hide LogOk, Quiet;
    var r := DoApprovalPause(s);
    if s.actions == [] {
      Unchanged(s, r.state);
    } else {
      Emits(s, r.state, ApprovalRequired(s.actions));
    }
  }

  lemma ExecutedLog(s: RunState, t: Tool, m: Meter, ok: bool)
    requires LogOk(s)
    ensures Quiet(s, Executed(s, t, m, ok), 0)
  {
    var started := Emit(s.(meter := m), ToolStarted(ActionOf(t)));
    Emits(s, started, ToolStarted(ActionOf(t)));
    Emits(started, Executed(s, t, m, ok), ToolCompleted(ActionOf(t), ok));
    QuietCompose(s, started, Executed(s, t, m, ok), 1, -1);
  }

  lemma {:induction false} ExecuteLog(env: Env, s: RunState, actions: seq<Action>, approved: set<Tool>)
    requires LogOk(s)
    ensures var r := ExecuteActions(env, s, actions, approved);
            r.state.node == s.node && r.signal != Return && Quiet(s, r.state, 0)
    decreases |actions|
  {
    hide ClearAndPay, LogOk;
    Unchanged(s, s);
    if actions != [] {
      var t := actions[0].tool;
      var paid := ClearAndPay(env.world, s.limits, s.meter, ToolCall, Some(t));
      if t !in approved {
        ExecuteLog(env, s, actions[1..], approved);
      } else if env.argsOk(t) && CategoryOf(t) != Destructive {
        Unchanged(s, s.(meter := paid.meter));
        if paid.stop.None? {
          var next := Executed(s, t, paid.meter, env.tool(Answer(paid.meter)).Answered?);
          ExecutedLog(s, t, paid.meter, env.tool(Answer(paid.meter)).Answered?);
          ExecuteLog(env, next, actions[1..], approved);
        }
      }
    }
  }

  lemma ExecuteNodeLog(env: Env, s: RunState)
    requires LogOk(s) && s.node == ExecuteApproved
    ensures StepLog(s, DoExecute(env, s).state, DoExecute(env, s).signal)
  {
    hide ExecuteActions, ApprovedTools, LogOk;
    ExecuteLog(env, s, s.actions, ApprovedTools(s.approvals));
    Unchanged(s, s);
    var r := DoExecute(env, s);
    if r.signal == Next {
      Unchanged(ExecuteActions(env, s, s.actions, ApprovedTools(s.approvals)).state, r.state);
    }
  }

  lemma VerifyLog(env: Env, s: RunState)
    requires LogOk(s) && s.node == Verify
    ensures StepLog(s, DoVerify(env, s).state, DoVerify(env, s).signal)
  {
    hide McpRead, LogOk;
    McpReadLog(env, s, GetHealth);
    var r := McpRead(env, s, GetHealth);
    if !r.signal.Raise? {
      Emits(r.state, DoVerify(env, s).state, MessageDelta);
      QuietCompose(s, r.state, DoVerify(env, s).state, 0, 0);
    }
  }

  lemma DispatchLog(env: Env, s: RunState)
    requires LogOk(s) && Depth(s.log) >= Base(s.node)
    ensures StepLog(s, Dispatch(env, s).state, Dispatch(env, s).signal)
  {
    hide LogOk, StepLog, DoClassify, DoPlan, DoMcpReads, DoDelegate, DoCorrelate, DoFindings, DoPropose, DoPolicy,
         DoApprovalPause, DoExecute, DoVerify;
    match s.node
    case Classify => ClassifyLog(env, s);
    case Plan => PlanLog(env, s);
    case Resources => ResourcesLog(s);
    case McpReads => McpReadsLog(env, s);
    case Delegate => DelegateLog(env, s);
    case Correlate => CorrelateLog(s);
    case Findings => FindingsLog(env, s);
    case Propose => ProposeLog(env, s);
    case Policy => PolicyLog(env, s);
    case ApprovalPause => PauseLog(s);
    case ExecuteApproved => ExecuteNodeLog(env, s);
    case Verify => VerifyLog(env, s);
    case Complete => CompleteLog(s);
  }

  lemma ResourcesLog(s: RunState)
    requires LogOk(s) && s.node == Resources
    ensures StepLog(s, DoResources(s).state, DoResources(s).signal)
  {
    Emits(s, DoResources(s).state, ToolStarted(ResourceRead));
  }

  lemma CompleteLog(s: RunState)
    requires LogOk(s) && s.node == Complete
    ensures StepLog(s, DoComplete(s).state, DoComplete(s).signal)
  {
    Emits(s, DoComplete(s).state, RunCompleted(s.verdict.GetOr(Done)));
  }

  // --------------------------------------------------------------------------------------------
  // Driver passes
  // --------------------------------------------------------------------------------------------

  // Tools left open beyond the resource read that belongs to the node.
  function Excess(s: RunState): int { Depth(s.log) - Base(s.node) }

  // A call ends waiting for an approval without a terminal event, or with exactly one, the last; when it
  // waits or completes, it has closed every tool that it opened.
  ghost predicate PassEnds(s: RunState, s': RunState) {
    && LogOk(s') && s.log <= s'.log
    && (if AwaitsApproval(s') then Terminals(s'.log) == Terminals(s.log) && Depth(s'.log) == Excess(s)
        else
          && s'.status in {StatusCompleted, Failed, StatusCancelled}
          && Terminals(s'.log) == Terminals(s.log) + 1 && EndsTerminal(s'.log)
          && (s'.status == StatusCompleted ==> Depth(s'.log) == Excess(s)))
  }

  lemma TurnLog(env: Env, s: RunState)
    requires Shape(env, s) && LogOk(s) && Excess(s) >= 0
    ensures var r := Turn(env, s);
            && LogOk(r.state) && s.log <= r.state.log
            && (r.signal == Next ==> Excess(r.state) == Excess(s) && Terminals(r.state.log) == Terminals(s.log))
            && (r.signal == Return ==> PassEnds(s, r.state) && Excess(r.state) == Excess(s))
            && (r.signal.Raise? ==> Excess(r.state) >= Excess(s) && Terminals(r.state.log) == Terminals(s.log))
            && (r.signal.Raise? && Excess(r.state) > Excess(s) ==> r.signal.why != Crashed && s.node != Delegate)
  {
    hide Shape, NumberedFromOne, NeverNegative, Depth, Terminals, EndsTerminal, Guard, Dispatch;
    var g := Guard(env, s);
    GuardFrame(env, s);
    UnchangedOk(s, g.state);
    if g.signal == Next {
      DispatchLog(env, g.state);
      MeterAside(env, s, g.state.meter);
      if s.node == ApprovalPause { PauseAwaits(env, g.state); }
      DispatchFollows(env, g.state);
    } else {
      GuardRaises(env, s);
    }
  }

  lemma GuardRaises(env: Env, s: RunState)
    ensures Guard(env, s).signal == Next || Guard(env, s).signal.Raise?
  {
  }

  lemma CloseLog(s: RunState, why: Why)
    requires LogOk(s)
    ensures Ended(s, Close(s, why)) && Excess(Close(s, why)) == Excess(s)
    ensures Close(s, why).status in {Failed, StatusCancelled} && !AwaitsApproval(Close(s, why))
  {
    hide LogOk, Depth, Terminals, EndsTerminal;
    var s' := Close(s, why);
    Emits(s, s', if why == Cancelled then RunCancelled
                 else RunFailed(if why == Crashed then InternalError else BudgetExceeded(why.budget)));
  }

  lemma PassCompose(s: RunState, s': RunState, s'': RunState)
    requires s.log <= s'.log && Terminals(s'.log) == Terminals(s.log) && Excess(s') == Excess(s) && PassEnds(s', s'')
    ensures PassEnds(s, s'')
  {
    hide Excess;
  }

  lemma {:induction false} DriveLog(env: Env, s: RunState)
    requires Shape(env, s) && LogOk(s) && Excess(s) >= 0 && s.status != Created
    ensures PassEnds(s, Drive(env, s)) && Excess(Drive(env, s)) >= Excess(s)
    decreases 12 - Rank(s.node)
  {
    hide Shape, LogOk, Excess, Depth, Terminals, EndsTerminal, Turn, Close, AwaitsApproval;
    TurnLog(env, s);
    TurnKeepsShape(env, s);
    TurnClimbs(env, s);
    var r := Turn(env, s);
    match r.signal
    case Next =>
      DriveLog(env, r.state);
      PassCompose(s, r.state, Drive(env, r.state));
    case Return =>
    case Raise(why) => CloseLog(r.state, why);
  }

  // What is kept between calls.
  ghost predicate Traced(s: RunState) { LogOk(s) && Excess(s) >= 0 }

  lemma BegunLog(env: Env, s: RunState)
    requires Shape(env, s) && Traced(s) && s.status == Created
    ensures var begun := Transition(s.(status := Running), Classify, RunStarted);
            Quiet(s, begun, 0) && Excess(begun) == Excess(s) && Shape(env, begun)
  {
    hide LogOk, Terminals, Depth, Grounded, Breaker.Consistent, ProposedFrom;
    BegunKeepsShape(env, s);
    Emits(s, Transition(s.(status := Running), Classify, RunStarted), RunStarted);
  }

  lemma RunLog(env: Env, s: RunState)
    requires Shape(env, s) && Traced(s)
    ensures PassEnds(s, Run(env, s)) && Traced(Run(env, s))
  {
    hide LogOk, Excess, Shape, Drive, PassEnds, Terminals, Depth;
    if s.status == Created {
      var begun := Transition(s.(status := Running), Classify, RunStarted);
      BegunLog(env, s);
      DriveLog(env, begun);
      PassCompose(s, begun, Drive(env, begun));
      PassEndsOk(begun, Drive(env, begun));
    } else {
      DriveLog(env, s);
      PassEndsOk(s, Drive(env, s));
    }
  }

  lemma PassEndsOk(s: RunState, s': RunState)
    requires PassEnds(s, s')
    ensures LogOk(s')
  {
  }

  lemma ReleasedLog(s: RunState)
    requires Traced(s) && AwaitsApproval(s)
    ensures Traced(Released(s)) && Quiet(s, Released(s), 0) && Excess(Released(s)) == Excess(s)
  {
    hide Depth, LogOk, Terminals, Decide;
    Emits(s, Released(s), ApprovalReceived(Approved));
  }

  lemma ReleasedPassedTheGate(env: Env, s: RunState)
    requires AwaitsApproval(s)
    ensures !AwaitsApproval(Run(env, Released(s)))
  {
    hide Drive, Decide;
    DriveOnlyClimbs(env, Released(s));
  }

  lemma ReleasedShape(env: Env, s: RunState)
    requires Shape(env, s) && AwaitsApproval(s)
    ensures Shape(env, Released(s))
  {
    hide Decide, Breaker.Consistent, ProposedFrom, MaxConfidence, AllWellFormed;
  }

  lemma RejectedLog(env: Env, s: RunState, d: Decision)
    requires Traced(s) && AwaitsApproval(s) && (d == RejectedByHuman || d == Expired)
    ensures var s' := Resume(env, s, d).value; Traced(s') && PassEnds(s, s') && s'.status == StatusCompleted
  {
    hide Depth, LogOk, Terminals, Decide, EndsTerminal;
    var told := Emit(s.(approvals := Decide(s.approvals, d)), ApprovalReceived(d));
    var s' := Resume(env, s, d).value;
    Emits(s, told, ApprovalReceived(d));
    Emits(told, s', RunCompleted(Rejected));
    QuietThenEnded(s, told, s');
  }

  lemma ResumeLog(env: Env, s: RunState, d: Decision)
    requires Shape(env, s) && Traced(s) && Resume(env, s, d).Some?
    ensures var s' := Resume(env, s, d).value; Traced(s') && PassEnds(s, s') && !AwaitsApproval(s')
  {
    hide Shape, Traced, LogOk, Excess, Depth, Terminals, EndsTerminal, Run, Decide;
    if d == Approved {
      ReleasedLog(s);
      ReleasedShape(env, s);
      RunLog(env, Released(s));
      PassCompose(s, Released(s), Run(env, Released(s)));
      ReleasedPassedTheGate(env, s);
    } else {
      RejectedLog(env, s, d);
    }
  }

  lemma ApplyLog(env: Env, s: RunState, op: Op)
    requires Shape(env, s) && Traced(s)
    ensures Traced(ApplyOp(env, s, op))
  {
    hide Shape, LogOk, Depth, Run, Resume;
    match op
    case DoRun => RunLog(env, s);
    case DoResume(d) => if Resume(env, s, d).Some? { ResumeLog(env, s, d); }
    case NewGraph => UnchangedOk(s, s.(breaker := Breaker.CLOSED));
  }

  lemma {:induction false} ReachableLog(env: Env, limits: Limits, ops: seq<Op>)
    ensures Traced(After(env, limits, ops))
  {
    if ops == [] {
      assert After(env, limits, ops) == NewRun(limits);
    } else {
      hide Shape, Traced, ApplyOp;
      var front := ops[..|ops| - 1];
      ReachableShape(env, limits, front);
      ReachableLog(env, limits, front);
      ApplyLog(env, After(env, limits, front), ops[|ops| - 1]);
    }
  }

  // --------------------------------------------------------------------------------------------
  // Tools left open
  // --------------------------------------------------------------------------------------------

  // No tool is left open, unless the run stopped inside a tool call for good.
  ghost predicate Straight(env: Env, s: RunState) {
    Excess(s) == 0 || (Stuck(env, s) && (s.status == Failed || s.status == StatusCancelled))
  }

  lemma CloseStraight(env: Env, s: RunState, why: Why)
    requires LogOk(s) && (Excess(s) == 0 || Stuck(env, s))
    ensures Straight(env, Close(s, why))
  {
    hide Stuck, Excess, LogOk, Ended;
    CloseLog(s, why);
    StuckIsOfTheMeter(env, s, Close(s, why));
  }

  lemma {:induction false} DriveStraight(env: Env, s: RunState)
    requires StopsLast(env.world, s.limits) && LedgerInv(env, s) && Shape(env, s)
    requires LogOk(s) && Excess(s) >= 0 && s.status != Created && (Excess(s) == 0 || Stuck(env, s))
    ensures Straight(env, Drive(env, s))
    decreases 12 - Rank(s.node)
  {
    hide StopsLast, MeterInv, Moves, Shape, Stuck, LogOk, Excess, Turn, Close, PassEnds;
    TurnLog(env, s);
    TurnKeepsShape(env, s);
    LedgerAfterTurn(env, s);
    TurnMoves(env, s);
    TurnClimbs(env, s);
    var r := Turn(env, s);
    if Stuck(env, s) {
      StuckStops(env, s);
    } else if r.signal.Raise? && r.signal.why != Crashed && s.node != Delegate {
      StoppedIsStuck(env, s, r.state, r.signal);
    }
    match r.signal
    case Next => DriveStraight(env, r.state);
    case Return =>
    case Raise(why) => CloseStraight(env, r.state, why);
  }

  lemma RunStraight(env: Env, s: RunState)
    requires StopsLast(env.world, s.limits) && LedgerInv(env, s) && Shape(env, s)
    requires Traced(s) && (Excess(s) == 0 || Stuck(env, s))
    ensures Straight(env, Run(env, s))
  {
    hide StopsLast, MeterInv, Shape, Stuck, LogOk, Excess, Drive, Terminals, Depth;
    if s.status == Created {
      BegunLog(env, s);
      var begun := Transition(s.(status := Running), Classify, RunStarted);
      StuckIsOfTheMeter(env, s, begun);
      DriveStraight(env, begun);
    } else {
      DriveStraight(env, s);
    }
  }

  lemma ApplyStraight(env: Env, s: RunState, op: Op)
    requires StopsLast(env.world, s.limits) && LedgerInv(env, s) && Shape(env, s)
    requires Traced(s) && Straight(env, s)
    ensures Straight(env, ApplyOp(env, s, op))
  {
    hide StopsLast, MeterInv, Shape, Stuck, LogOk, Depth, Terminals, Run, Decide;
    match op
    case DoRun => RunStraight(env, s);
    case NewGraph => StuckIsOfTheMeter(env, s, s.(breaker := Breaker.CLOSED));
    case DoResume(d) =>
      if AwaitsApproval(s) && d == Approved {
        ReleasedLog(s);
        ReleasedShape(env, s);
        RunStraight(env, Released(s));
      } else if AwaitsApproval(s) && d != Pending {
        RejectedStraight(env, s, d);
      }
  }

  lemma RejectedStraight(env: Env, s: RunState, d: Decision)
    requires Traced(s) && Straight(env, s) && AwaitsApproval(s) && (d == RejectedByHuman || d == Expired)
    ensures Straight(env, Resume(env, s, d).value)
  {
    hide Stuck, LogOk, Depth, Terminals, Decide, Traced;
    RejectedLog(env, s, d);
  }

  lemma {:induction false} ReachableStraight(env: Env, limits: Limits, ops: seq<Op>)
    requires StopsLast(env.world, limits)
    ensures Straight(env, After(env, limits, ops))
  {
    if ops == [] {
      assert After(env, limits, ops) == NewRun(limits);
    } else {
      hide StopsLast, LedgerInv, Shape, Traced, Straight, ApplyOp;
      var front := ops[..|ops| - 1];
      ReachableLedger(env, limits, front);
      ReachableShape(env, limits, front);
      ReachableLog(env, limits, front);
      ReachableStraight(env, limits, front);
      ApplyStraight(env, After(env, limits, front), ops[|ops| - 1]);
    }
  }

  // --------------------------------------------------------------------------------------------
  // What it says
  // --------------------------------------------------------------------------------------------

  /** Over every history, whatever clock and canceller do: events are numbered 1..n, and no tool completes
      that did not start. */
  lemma EventsAreNumberedAndNested(env: Env, limits: Limits, ops: seq<Op>)
    ensures var s := After(env, limits, ops);
            && s.eventSequence == |s.log|
            && (forall i :: 0 <= i < |s.log| ==> s.log[i].number == i + 1)
            && NeverNegative(s.log)
  {
    ReachableLog(env, limits, ops);
  }

  /** With a flag that stays up and a time-out that lasts, a run that neither failed nor was cancelled has no tool
      open, but for the resource read around the reads. */
  lemma OpenToolsMeanStopped(env: Env, limits: Limits, ops: seq<Op>)
    requires StopsLast(env.world, limits)
    ensures var s := After(env, limits, ops);
            s.status == Failed || s.status == StatusCancelled || Depth(s.log) == if s.node == McpReads then 1 else 0
  {
    ReachableStraight(env, limits, ops);
  }

  /** Whatever happened before, a call of `run` or a resume ends waiting for an approval without a
      terminal event, or adds exactly one terminal event, its last. */
  lemma EveryCallEndsOnce(env: Env, limits: Limits, ops: seq<Op>, op: Op)
    requires op.DoRun? || (op.DoResume? && Resume(env, After(env, limits, ops), op.decision).Some?)
    ensures PassEnds(After(env, limits, ops), ApplyOp(env, After(env, limits, ops), op))
  {
    hide Shape, Traced, Run, Resume, PassEnds, After;
    var s := After(env, limits, ops);
    ReachableShape(env, limits, ops);
    ReachableLog(env, limits, ops);
    if op.DoRun? { RunLog(env, s); } else { ResumeLog(env, s, op.decision); }
  }

  // One run of a fresh state, and one resume if it waits for an approval and a decision comes.
  function OneRun(env: Env, limits: Limits, d: Option<Decision>): RunState {
    var s := Run(env, NewRun(limits));
    if d.Some? then Resume(env, s, d.value).GetOr(s) else s
  }

  /** The grammar of a run's events, for every clock and canceller: numbered 1..n; at most one terminal
      event, and it is the last; exactly one unless the run is waiting; tool events balanced when it
      completes or waits, and a prefix of a balanced word always. */
  lemma TraceGrammar(env: Env, limits: Limits, d: Option<Decision>)
    ensures var s := OneRun(env, limits, d);
            && (forall i :: 0 <= i < |s.log| ==> s.log[i].number == i + 1)
            && Terminals(s.log) == (if AwaitsApproval(s) then 0 else 1)
            && (!AwaitsApproval(s) ==> EndsTerminal(s.log))
            && NeverNegative(s.log)
            && (AwaitsApproval(s) || s.status == StatusCompleted ==> Depth(s.log) == 0)
  {
    hide Shape, Run, Resume, AwaitsApproval, Depth, NeverNegative;
    var s0, s := NewRun(limits), Run(env, NewRun(limits));
    NothingYet(env, limits);
    RunLog(env, s0);
    if d.Some? && Resume(env, s, d.value).Some? {
      RunKeepsShape(env, s0);
      ResumeLog(env, s, d.value);
      ResumeNeedsTheGate(env, s, d.value);
    }
  }

  lemma NothingYet(env: Env, limits: Limits)
    ensures Shape(env, NewRun(limits)) && Traced(NewRun(limits)) && Held(NewRun(limits))
    ensures Depth(NewRun(limits).log) == 0 && Terminals(NewRun(limits).log) == 0
  {
    ReachableShape(env, limits, []);
  }

  lemma ResumeNeedsTheGate(env: Env, s: RunState, d: Decision)
    ensures Resume(env, s, d).Some? ==> AwaitsApproval(s)
  {
  }
}
