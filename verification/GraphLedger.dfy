/** Budgets and cancellation over whole histories of a run. */
module GraphLedger {
  import opened Wrappers
  import opened Catalog
  import opened Budget
  import opened Graph

  ghost predicate LedgerInv(env: Env, s: RunState) {
    MeterInv(env.world, s.limits, s.meter)
  }

  // The exception a signal stands for. A cancellation raised by the specialist's client says nothing
  // about the flag, so at the delegate node it counts as any other exception.
  function StopOf(signal: Signal, at: Node): Option<Why> {
    if !signal.Raise? then None
    else if at == Delegate && signal.why == Cancelled then Some(Crashed)
    else Some(signal.why)
  }

  ghost predicate StepMoves(env: Env, s: RunState, s': RunState, signal: Signal) {
    s'.limits == s.limits && Moves(env.world, s.limits, s.meter, s'.meter, StopOf(signal, s.node))
  }

  lemma TickMoves(w: World, lim: Limits, m: Meter, tick: nat)
    requires MeterInv(w, lim, m) && m.tick <= tick
    ensures Moves(w, lim, m, m.(tick := tick), None) && Moves(w, lim, m, m.(tick := tick), Some(Crashed))
  {
    var m' := m.(tick := tick);
    assert forall i :: 0 <= i < |m.calls| ==> CallOk(w, lim, m'.calls, i) == CallOk(w, lim, m.calls, i);
  }

  lemma {:induction false} ReadAttemptsMove(env: Env, lim: Limits, m: Meter, attempt: nat)
    requires MeterInv(env.world, lim, m) && attempt <= MAX_READ_RETRIES
    ensures var r := ReadAttempts(env, lim, m, attempt); Moves(env.world, lim, m, r.meter, r.stop)
    decreases MAX_READ_RETRIES - attempt
  {
    hide MeterInv, Settled, Blocked, CancelSeen, Cleared, ClearAndPay;
    ClearAndPayMoves(env.world, lim, m, ToolCall, None);
    var paid := ClearAndPay(env.world, lim, m, ToolCall, None);
    if paid.stop.None? && env.tool(Answer(paid.meter)).TimedOut? && attempt < MAX_READ_RETRIES {
      ReadAttemptsMove(env, lim, paid.meter, attempt + 1);
      MovesCompose(env.world, lim, m, paid.meter, ReadAttempts(env, lim, m, attempt).meter,
                   ReadAttempts(env, lim, m, attempt).stop);
    }
  }

  lemma McpReadMoves(env: Env, s: RunState, t: Tool)
    requires LedgerInv(env, s)
    ensures var r := McpRead(env, s, t);
            && r.state.limits == s.limits && r.signal != Return
            && Moves(env.world, s.limits, s.meter, r.state.meter, StopOf(r.signal, McpReads))
  {
    hide MeterInv, Settled, Blocked, CancelSeen, Cleared, ReadAttempts;
    ReadAttemptsMove(env, s.limits, s.meter, 0);
    StandingStill(env.world, s.limits, s.meter);
  }

  lemma {:induction false} ReadAllMoves(env: Env, s: RunState, tools: seq<Tool>)
    requires LedgerInv(env, s)
    ensures var r := ReadAll(env, s, tools);
            && r.state.limits == s.limits && r.signal != Return
            && Moves(env.world, s.limits, s.meter, r.state.meter, StopOf(r.signal, McpReads))
    decreases |tools|
  {
    hide MeterInv, Settled, Blocked, CancelSeen, Cleared, McpRead;
    StandingStill(env.world, s.limits, s.meter);
    if tools != [] {
      McpReadMoves(env, s, tools[0]);
      var r := McpRead(env, s, tools[0]);
      if !r.signal.Raise? {
        var next := if r.answer.Some? && r.answer.value.Answered?
                    then r.state.(evidence := r.state.evidence + [ToEvidence(tools[0], r.answer.value)])
                    else r.state;
        ReadAllMoves(env, next, tools[1..]);
        var all := ReadAll(env, next, tools[1..]);
        MovesCompose(env.world, s.limits, s.meter, next.meter, all.state.meter, StopOf(all.signal, McpReads));
      }
    }
  }

  lemma AskModelMoves(env: Env, s: RunState)
    requires LedgerInv(env, s) && Cleared(s.meter)
    ensures var (s', signal, _) := AskModel(env, s);
            && s'.limits == s.limits && signal != Return
            && Moves(env.world, s.limits, s.meter, s'.meter, StopOf(signal, Plan))
  {
    hide MeterInv, Settled, Blocked, CancelSeen, Cleared, Pay;
    PayMoves(env.world, s.limits, s.meter, ModelCall, None);
  }

  lemma CallSpecialistMoves(env: Env, s: RunState)
    requires LedgerInv(env, s)
    ensures var (s', signal, _) := CallSpecialist(env, s);
            && s'.limits == s.limits && signal != Return
            && Moves(env.world, s.limits, s.meter, s'.meter, StopOf(signal, Delegate))
  {
    hide MeterInv, Settled, Blocked, CancelSeen, Cleared, ClearAndPay, ValidOutput;
    StandingStill(env.world, s.limits, s.meter);
    ClearAndPayMoves(env.world, s.limits, s.meter, Delegation, None);
  }

  lemma {:induction false} EmitFindingsOnlyLogs(s: RunState, fs: seq<Finding>)
    ensures EmitFindings(s, fs)
            == s.(eventSequence := EmitFindings(s, fs).eventSequence, log := EmitFindings(s, fs).log)
  {
    if fs != [] { EmitFindingsOnlyLogs(s, fs[..|fs| - 1]); }
  }

  lemma {:induction false} JudgeTicks(env: Env, m: Meter, actions: seq<Action>)
    ensures Judge(env, m, actions).0 == m.(tick := Judge(env, m, actions).0.tick)
    ensures m.tick <= Judge(env, m, actions).0.tick
    decreases |actions|
  {
    if actions != [] { JudgeTicks(env, m.(tick := m.tick + 1), actions[1..]); }
  }

  lemma {:induction false} ExecuteMoves(env: Env, s: RunState, actions: seq<Action>, approved: set<Tool>)
    requires LedgerInv(env, s)
    ensures var r := ExecuteActions(env, s, actions, approved);
            && r.state.limits == s.limits && r.signal != Return
            && Moves(env.world, s.limits, s.meter, r.state.meter, StopOf(r.signal, ExecuteApproved))
    decreases |actions|
  {
    hide MeterInv, Settled, Blocked, CancelSeen, Cleared, ClearAndPay;
    StandingStill(env.world, s.limits, s.meter);
    if actions != [] {
      var t := actions[0].tool;
      if t !in approved {
        ExecuteMoves(env, s, actions[1..], approved);
      } else {
        ClearAndPayMoves(env.world, s.limits, s.meter, ToolCall, Some(t));
        var paid := ClearAndPay(env.world, s.limits, s.meter, ToolCall, Some(t));
        if paid.stop.None? && env.argsOk(t) && CategoryOf(t) != Destructive {
          var next := Executed(s, t, paid.meter, env.tool(Answer(paid.meter)).Answered?);
          ExecuteMoves(env, next, actions[1..], approved);
          var all := ExecuteActions(env, next, actions[1..], approved);
          MovesCompose(env.world, s.limits, s.meter, next.meter, all.state.meter, StopOf(all.signal, ExecuteApproved));
        }
      }
    }
  }

  lemma PolicyMoves(env: Env, s: RunState)
    requires LedgerInv(env, s) && s.node == Policy
    ensures StepMoves(env, s, DoPolicy(env, s).state, DoPolicy(env, s).signal)
  {
    hide MeterInv, Settled, Blocked, CancelSeen, Cleared, Judge;
    JudgeTicks(env, s.meter, s.actions);
    TickMoves(env.world, s.limits, s.meter, Judge(env, s.meter, s.actions).0.tick);
  }

  lemma FindingsMove(env: Env, s: RunState)
    requires LedgerInv(env, s) && s.node == Findings
    ensures StepMoves(env, s, DoFindings(env, s).state, DoFindings(env, s).signal)
  {
    hide MeterInv, Settled, Blocked, CancelSeen, Cleared, NormaliseFrom, EmitFindings, MaxConfidence, RawFindings;
    var findings := NormaliseFrom(RawFindings(env, s), 0);
    EmitFindingsOnlyLogs(s.(findings := findings), findings);
    StandingStill(env.world, s.limits, s.meter);
  }

  lemma DispatchMoves(env: Env, s: RunState)
    requires LedgerInv(env, s) && Cleared(s.meter)
    ensures StepMoves(env, s, Dispatch(env, s).state, Dispatch(env, s).signal)
  {
    hide MeterInv, Settled, Blocked, CancelSeen, Cleared, AskModel, ReadAll, CallSpecialist, Conflicting,
         ExecuteActions, McpRead, DoFindings, DoPolicy, Top, MentionsDeployment, ApprovedTools, CapAll, DiscountAll;
    StandingStill(env.world, s.limits, s.meter);
    match s.node
    case Classify => AskModelMoves(env, s);
    case Plan => AskModelMoves(env, s);
    case Resources =>
    case McpReads => ReadAllMoves(env, s, READS);
    case Delegate => CallSpecialistMoves(env, s);
    case Correlate =>
    case Findings => FindingsMove(env, s);
    case Propose =>
    case Policy => PolicyMoves(env, s);
    case ApprovalPause =>
    case ExecuteApproved => ExecuteMoves(env, s, s.actions, ApprovedTools(s.approvals));
    case Verify => McpReadMoves(env, s, GetHealth);
    case Complete =>
  }

  lemma GuardMoves(env: Env, s: RunState)
    requires LedgerInv(env, s)
    ensures var g := Guard(env, s);
            && g.state == s.(meter := g.state.meter) && g.state.meter.calls == s.meter.calls
            && g.signal != Return && (g.signal.Raise? ==> g.signal.why != Crashed)
            && Moves(env.world, s.limits, s.meter, g.state.meter, if g.signal.Raise? then Some(g.signal.why) else None)
            && (Even(env.world, s.limits, s.meter) ==> Even(env.world, s.limits, g.state.meter))
            && (g.signal == Next ==> Cleared(g.state.meter))
            && (g.signal == Next && TimeoutLasts(env.world, s.limits) ==> !Blocked(env.world, s.limits, s.meter))
  {
    hide MeterInv, CallOk, Performed, Over, Even;
    CheckCancelKeeps(env.world, s.limits, s.meter);
    var (m, cancelled) := CheckCancel(env.world, s.meter);
    if !cancelled {
      CheckBudgetsKeeps(env.world, s.limits, m);
    }
    SettledStays(env.world, s.limits, s.meter, Guard(env, s).state.meter);
  }

  lemma SettledStays(w: World, lim: Limits, m: Meter, m': Meter)
    requires m'.usage == m.usage && m'.calls == m.calls
    ensures Settled(m) ==> Settled(m') && Even(w, lim, m')
  {
  }

  lemma TurnMoves(env: Env, s: RunState)
    requires LedgerInv(env, s)
    ensures StepMoves(env, s, Turn(env, s).state, Turn(env, s).signal)
    ensures TimeoutLasts(env.world, s.limits) && Even(env.world, s.limits, s.meter)
            ==> Even(env.world, s.limits, Turn(env, s).state.meter)
  {
    hide MeterInv, Settled, Blocked, CancelSeen, Cleared, Guard, Dispatch;
    GuardMoves(env, s);
    var g := Guard(env, s);
    if g.signal == Next {
      DispatchMoves(env, g.state);
      var r := Dispatch(env, g.state);
      MovesCompose(env.world, s.limits, s.meter, g.state.meter, r.state.meter, StopOf(r.signal, s.node));
    }
  }

  lemma {:induction false} DriveLedger(env: Env, s: RunState)
    requires LedgerInv(env, s)
    ensures LedgerInv(env, Drive(env, s)) && Drive(env, s).limits == s.limits
    ensures s.meter.tick <= Drive(env, s).meter.tick
    ensures TimeoutLasts(env.world, s.limits) && Even(env.world, s.limits, s.meter)
            ==> Even(env.world, s.limits, Drive(env, s).meter)
    decreases 12 - Rank(s.node)
  {
    hide MeterInv, Settled, Blocked, CancelSeen, Cleared, Even, TimeoutLasts, Turn;
    TurnMoves(env, s);
    var r := Turn(env, s);
    if r.signal == Next && Rank(r.state.node) > Rank(s.node) {
      DriveLedger(env, r.state);
    }
  }

  ghost predicate EvenState(env: Env, s: RunState) { Even(env.world, s.limits, s.meter) }

  lemma ApplyLedger(env: Env, s: RunState, op: Op)
    requires LedgerInv(env, s)
    ensures LedgerInv(env, ApplyOp(env, s, op)) && ApplyOp(env, s, op).limits == s.limits
    ensures s.meter.tick <= ApplyOp(env, s, op).meter.tick
    ensures TimeoutLasts(env.world, s.limits) && EvenState(env, s) ==> EvenState(env, ApplyOp(env, s, op))
  {
    hide MeterInv, Settled, Blocked, CancelSeen, Cleared, Even, TimeoutLasts, Drive;
    match op
    case NewGraph =>
    case DoRun =>
      DriveLedger(env, s);
      DriveLedger(env, Transition(s.(status := Running), Classify, RunStarted));
    case DoResume(d) =>
      var told := Emit(s.(approvals := Decide(s.approvals, d)), ApprovalReceived(d));
      var go := Save(told).(node := ExecuteApproved);
      DriveLedger(env, go);
      DriveLedger(env, Transition(go.(status := Running), Classify, RunStarted));
  }

  lemma {:induction false} ReachableLedger(env: Env, limits: Limits, ops: seq<Op>)
    ensures LedgerInv(env, After(env, limits, ops)) && After(env, limits, ops).limits == limits
    ensures TimeoutLasts(env.world, limits) ==> EvenState(env, After(env, limits, ops))
  {
    if ops == [] {
      assert After(env, limits, ops) == NewRun(limits);
    } else {
      hide MeterInv, EvenState, TimeoutLasts, ApplyOp;
      ReachableLedger(env, limits, ops[..|ops| - 1]);
      ApplyLedger(env, After(env, limits, ops[..|ops| - 1]), ops[|ops| - 1]);
    }
  }

  /** Budget conservation over any number of `run` and resume calls from a fresh state, whatever the clock
      does: the price of the ledger, the limits at every call, and the cap on the work really done. */
  lemma BudgetIsConserved(env: Env, limits: Limits, ops: seq<Op>)
    ensures var m := After(env, limits, ops).meter;
            var done := Performed(m.calls);
            && m.usage.cost == 5 * m.usage.modelCalls + m.usage.toolCalls + 10 * m.usage.delegations
            && (forall i :: 0 <= i < |m.calls| ==> Over(limits, m.calls[i].usage).None?)
            && Covers(m.usage, done) && (m.calls != [] ==> Over(limits, done).None? && done.cost <= limits.maxCost)
  {
    ReachableLedger(env, limits, ops);
    LedgerMeaning(env.world, limits, After(env, limits, ops).meter);
  }

  /** With a time-out that lasts the ledger overshoots the work by one unit at most, ever. */
  lemma OvershootIsOneUnit(env: Env, limits: Limits, ops: seq<Op>)
    requires TimeoutLasts(env.world, limits)
    ensures var m := After(env, limits, ops).meter;
            m.usage == Performed(m.calls) || exists k :: m.usage == Charge(Performed(m.calls), k)
  {
    ReachableLedger(env, limits, ops);
  }

  /** Cancellation: over any history, from the tick `t` at which the flag is up, at most one further
      external call (model, tool or delegation) starts. */
  lemma CancelStopsCalls(env: Env, limits: Limits, ops: seq<Op>, t: nat, i: nat, j: nat)
    requires StickyCancel(env.world) && env.world.cancelled(t)
    requires var calls := After(env, limits, ops).meter.calls;
             i < |calls| && j < |calls| && t <= calls[i].tick && t <= calls[j].tick
    ensures i == j
  {
    ReachableLedger(env, limits, ops);
    AtMostOneCallAfterCancel(env.world, limits, After(env, limits, ops).meter, t, i, j);
  }

  // Every later look at the flag finds it up.
  ghost predicate FlagUp(env: Env, s: RunState) {
    forall t: nat :: s.meter.tick <= t ==> env.world.cancelled(t)
  }

  lemma FlaggedRunStops(env: Env, s: RunState)
    requires FlagUp(env, s)
    ensures var s' := Run(env, s);
            && s'.meter.calls == s.meter.calls && FlagUp(env, s') && s'.limits == s.limits
            && s'.status == StatusCancelled && s.meter.tick <= s'.meter.tick
  {
  }

  lemma FlaggedOpStops(env: Env, s: RunState, op: Op)
    requires FlagUp(env, s)
    ensures var s' := ApplyOp(env, s, op);
            s'.meter.calls == s.meter.calls && FlagUp(env, s') && (op.DoRun? ==> s'.status == StatusCancelled)
  {
    hide Run, Decide;
    FlaggedRunStops(env, s);
    if op.DoResume? {
      var told := Emit(s.(approvals := Decide(s.approvals, op.decision)), ApprovalReceived(op.decision));
      FlaggedRunStops(env, Save(told).(node := ExecuteApproved));
    }
  }

  /** A run whose flag is up between two calls, paused for its approval or not, starts no call ever again,
      however often it is run or resumed; and every further call of `run` ends cancelled. */
  lemma {:induction false} CancelledBetweenCallsDoesNothing(env: Env, limits: Limits, ops: seq<Op>, more: seq<Op>)
    requires StickyCancel(env.world) && env.world.cancelled(After(env, limits, ops).meter.tick)
    ensures After(env, limits, ops + more).meter.calls == After(env, limits, ops).meter.calls
    ensures more != [] && more[|more| - 1].DoRun? ==> After(env, limits, ops + more).status == StatusCancelled
    ensures FlagUp(env, After(env, limits, ops + more))
  {
    hide ApplyOp;
    var all := ops + more;
    if more == [] {
      assert all == ops;
    } else {
      var front := more[..|more| - 1];
      assert all[..|all| - 1] == ops + front;
      CancelledBetweenCallsDoesNothing(env, limits, ops, front);
      FlaggedOpStops(env, After(env, limits, ops + front), all[|all| - 1]);
    }
  }
}
