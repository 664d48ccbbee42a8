/** The gate, the execution, the ends of a run and the driver: what each does, exactly; and what the policy has
    allowed, over histories. */
module GraphEnds {
  import opened Wrappers
  import opened Catalog
  import opened Budget
  import opened Graph
  import opened GraphLedger
  import opened GraphShape
  import opened GraphActions
  import opened GraphNodes
  import Breaker

  // --------------------------------------------------------------------------------------------
  // The gate, the execution and the ends
  // --------------------------------------------------------------------------------------------

  lemma PauseOutcomes(env: Env, s: RunState)
    requires s.node == ApprovalPause
    ensures var r := Dispatch(env, s);
            && r.signal == Return && r.state.meter == s.meter && r.state.verdict == s.verdict
            && (s.actions == [] ==> r.state.node == Verify && r.state.log == s.log)
            && (s.actions != [] ==>
                  && r.state.node == ApprovalPause && r.state.status == WaitingForApproval
                  && Logs(s, r.state, [ApprovalRequired(s.actions)])
                  && |r.state.approvals| == |s.approvals| + |s.actions| && s.approvals <= r.state.approvals
                  && forall i :: 0 <= i < |s.actions| ==>
                       r.state.approvals[|s.approvals| + i] == Approval(s.actions[i].tool, Pending))
  {
    hide Requests;
  }

  // What executing calls tells of each of them.
  function Tellings(env: Env, calls: seq<Call>): seq<Event> {
    if calls == [] then []
    else
      var last := calls[|calls| - 1];
      var subject := ActionOf(last.action.GetOr(UnknownTool("")));
      Tellings(env, calls[..|calls| - 1])
      + [ToolStarted(subject), ToolCompleted(subject, env.tool(last.tick).Answered?)]
  }

  lemma {:induction false} ExecutionTells(env: Env, s: RunState, actions: seq<Action>, approved: set<Tool>)
    ensures var r := ExecuteActions(env, s, actions, approved);
            && s.meter.calls <= r.state.meter.calls
            && var calls := r.state.meter.calls[|s.meter.calls|..];
               && (forall c :: c in calls ==> c.kind == ToolCall && c.action.Some?)
               && Logs(s, r.state, Tellings(env, calls))
    decreases |actions|
  {
    hide ClearAndPay;
    if actions != [] {
      var t := actions[0].tool;
      if t !in approved {
        ExecutionTells(env, s, actions[1..], approved);
      } else if env.argsOk(t) && CategoryOf(t) != Destructive {
        var paid := ClearAndPay(env.world, s.limits, s.meter, ToolCall, Some(t));
        OneCall(env.world, s.limits, s.meter, ToolCall, Some(t));
        if paid.stop.None? {
          var c := paid.meter.calls[|s.meter.calls|];
          assert paid.meter.calls == s.meter.calls + [c];
          var s1 := Executed(s, t, paid.meter, env.tool(Answer(paid.meter)).Answered?);
          ExecutedTells(s, t, paid.meter, env.tool(Answer(paid.meter)).Answered?);
          hide Executed;
          ExecutionTells(env, s1, actions[1..], approved);
          OneMoreTold(env, s, s1, ExecuteActions(env, s1, actions[1..], approved).state, c);
        }
      }
    }
  }

  lemma ExecutedTells(s: RunState, t: Tool, m: Meter, ok: bool)
    ensures var s' := Executed(s, t, m, ok);
            && s'.meter == m && s'.limits == s.limits
            && Logs(s, s', [ToolStarted(ActionOf(t)), ToolCompleted(ActionOf(t), ok)])
  {
  }

  // A first call told before the rest.
  lemma OneMoreTold(env: Env, s: RunState, s1: RunState, s': RunState, c: Call)
    requires s1.meter.calls == s.meter.calls + [c] && c.action.Some? && s1.meter.calls <= s'.meter.calls
    requires Logs(s, s1, [ToolStarted(ActionOf(c.action.value)),
                          ToolCompleted(ActionOf(c.action.value), env.tool(c.tick).Answered?)])
    requires Logs(s1, s', Tellings(env, s'.meter.calls[|s1.meter.calls|..]))
    ensures Logs(s, s', Tellings(env, s'.meter.calls[|s.meter.calls|..]))
  {
    var rest := s'.meter.calls[|s1.meter.calls|..];
    assert s'.meter.calls[|s.meter.calls|..] == [c] + rest;
    TellingsOfFirst(env, c, rest);
  }

  lemma {:induction false} TellingsOfFirst(env: Env, c: Call, rest: seq<Call>)
    ensures Tellings(env, [c] + rest) == Tellings(env, [c]) + Tellings(env, rest)
    ensures Tellings(env, [c]) == [ToolStarted(ActionOf(c.action.GetOr(UnknownTool("")))),
                                   ToolCompleted(ActionOf(c.action.GetOr(UnknownTool(""))), env.tool(c.tick).Answered?)]
  {
    assert [c][..0] == [];
    if rest == [] {
      assert [c] + rest == [c];
    } else {
      TellingsOfFirst(env, c, rest[..|rest| - 1]);
      assert ([c] + rest)[..|rest|] == [c] + rest[..|rest| - 1];
    }
  }

  /** The execution: each invocation is logged as started and as completed, with whether the tool answered, in the
      order of the calls; a run that gets through goes on to verify. It crashes without an approved action. */
  lemma ExecutionOutcomes(env: Env, s: RunState)
    requires s.node == ExecuteApproved
    ensures var r := Dispatch(env, s);
            && s.meter.calls <= r.state.meter.calls && r.signal != Return
            && Logs(s, r.state, Tellings(env, r.state.meter.calls[|s.meter.calls|..]))
            && (r.signal == Next ==> r.state.node == Verify && r.state.status == Running)
            && (s.actions != [] && (forall a :: a in s.approvals ==> a.decision != Approved) ==>
                  r.signal == Raise(Crashed))
  {
    hide ExecuteActions, Tellings;
    ExecutionTells(env, s, s.actions, ApprovedTools(s.approvals));
    ExecuteFrame(env, s, s.actions, ApprovedTools(s.approvals));
    assert Logs(s, s, []) && s.meter.calls[|s.meter.calls|..] == [];
    NothingTold(env);
  }

  lemma NothingTold(env: Env)
    ensures Tellings(env, []) == []
  {
  }

  /** The end of a run: the verdict that it has is kept, and without one it is done. */
  lemma CompletionOutcomes(env: Env, s: RunState)
    requires s.node == Complete
    ensures var r := Dispatch(env, s);
            && r.signal == Return && r.state.status == StatusCompleted && r.state.node == Complete
            && r.state.verdict == (if s.verdict.Some? then s.verdict else Some(Done))
            && Logs(s, r.state, [RunCompleted(r.state.verdict.value)])
  {
  }

  // The verifying read: its failure is tolerated, and its answer is not recorded.
  lemma VerificationOutcomes(env: Env, s: RunState)
    requires s.node == Verify
    ensures var r, read := Dispatch(env, s), McpRead(env, s, GetHealth);
            && r.state.evidence == s.evidence && r.state.meter == read.state.meter
            && (read.signal.Raise? ==> r == Step(read.state, read.signal))
            && (!read.signal.Raise? ==>
                  r.signal == Next && r.state.node == Complete && Logs(read.state, r.state, [MessageDelta]))
  {
    McpReadFrame(env, s, GetHealth);
    hide McpRead;
  }

  /** How the driver's exceptions end a run: a cancellation as cancelled, a budget as failed under that budget, and
      anything else as failed with an internal error; each with its own terminal event. */
  lemma ExceptionsClose(s: RunState, why: Why)
    ensures var s' := Close(s, why);
            && s'.node == s.node && s'.meter == s.meter && s'.actions == s.actions && s'.findings == s.findings
            && match why
               case Cancelled =>
                 && s'.status == StatusCancelled && s'.verdict == Some(RunCancelledOutcome) && s'.error == s.error
                 && Logs(s, s', [RunCancelled])
               case OverBudget(b) =>
                 && s'.status == Failed && s'.verdict == Some(RunFailedOutcome) && s'.error == Some(BudgetExceeded(b))
                 && Logs(s, s', [RunFailed(BudgetExceeded(b))])
               case Crashed =>
                 && s'.status == Failed && s'.verdict == Some(RunFailedOutcome) && s'.error == Some(InternalError)
                 && Logs(s, s', [RunFailed(InternalError)])
  {
  }

  // Every request is decided alike, and the decision is logged.
  predicate Told(s: RunState, s': RunState, d: Decision, events: seq<Event>) {
    && s'.meter == s.meter && s'.actions == s.actions && Logs(s, s', events)
    && |s'.approvals| == |s.approvals|
    && forall i :: 0 <= i < |s.approvals| ==> s'.approvals[i] == Approval(s.approvals[i].action, d)
  }

  lemma ReleasedIsTold(s: RunState)
    ensures Told(s, Released(s), Approved, [ApprovalReceived(Approved)]) && Released(s).node == ExecuteApproved
  {
  }

  /** A resume, for every state and decision: refused unless the run waits and the decision is one. An approval
      marks every request approved and sends the run to the execution. */
  lemma ApprovalSendsOff(env: Env, s: RunState, d: Decision)
    ensures Resume(env, s, d).Some? <==> s.node == ApprovalPause && s.status == WaitingForApproval && d != Pending
    ensures s.node == ApprovalPause && s.status == WaitingForApproval ==>
              exists off: RunState ::
                && Resume(env, s, Approved) == Some(Run(env, off)) && off.node == ExecuteApproved
                && Told(s, off, Approved, [ApprovalReceived(Approved)])
  {
    hide Run, Told;
    ReleasedIsTold(s);
    if AwaitsApproval(s) { assert Resume(env, s, Approved) == Some(Run(env, Released(s))); }
  }

  /** Any other decision marks every request with it and ends the run as rejected. */
  lemma RefusalEndsTheRun(env: Env, s: RunState, d: Decision)
    requires s.node == ApprovalPause && s.status == WaitingForApproval && (d == RejectedByHuman || d == Expired)
    ensures Resume(env, s, d).Some?
    ensures var s' := Resume(env, s, d).value;
            && s'.status == StatusCompleted && s'.verdict == Some(Rejected) && s'.node == Complete
            && Told(s, s', d, [ApprovalReceived(d), RunCompleted(Rejected)])
  {
    var told := Emit(s.(approvals := Decide(s.approvals, d)), ApprovalReceived(d));
    var ended := told.(verdict := Some(Rejected), status := StatusCompleted);
    assert Logs(s, ended, [ApprovalReceived(d)]);
    MovesOn(ended, Complete, RunCompleted(Rejected));
    hide Transition, Emit, Decide, Logs;
    LogsJoin(s, ended, Transition(ended, Complete, RunCompleted(Rejected)), [ApprovalReceived(d)],
             [RunCompleted(Rejected)]);
  }

  // --------------------------------------------------------------------------------------------
  // What the policy allowed, over histories
  // --------------------------------------------------------------------------------------------

  // One allowing judgement for each action, under its tool.
  predicate AllAllowed(s: RunState) {
    |s.judged| == |s.actions| && forall k :: 0 <= k < |s.actions| ==> s.judged[k] == (s.actions[k].tool, true)
  }

  // From the gate on, and wherever something was invoked, the policy has allowed every action.
  predicate Permitted(s: RunState) {
    9 <= Rank(s.node) <= 11 || Acted(s.meter.calls) != [] ==> AllAllowed(s)
  }

  lemma JudgedStays(env: Env, s: RunState)
    requires s.node != Policy
    ensures Dispatch(env, s).state.judged == s.judged
  {
    hide AskModel, ReadAll, McpRead, CallSpecialist, ExecuteActions, EmitFindings, NormaliseFrom, RawFindings,
         MaxConfidence, MentionsDeployment, Top, Conflicting, CapAll, DiscountAll, Requests, ApprovedTools;
    match s.node
    case Classify => AskModelFrame(env, s);
    case Plan => AskModelFrame(env, s);
    case McpReads => ReadAllFrame(env, s, READS);
    case Delegate => CallSpecialistFrame(env, s);
    case Findings =>
      var findings := NormaliseFrom(RawFindings(env, s), 0);
      EmitFindingsOnlyLogs(s.(findings := findings), findings);
    case ExecuteApproved => ExecuteFrame(env, s, s.actions, ApprovedTools(s.approvals));
    case Verify => McpReadFrame(env, s, GetHealth);
    case _ =>
  }

  lemma AllowedAtTheGate(env: Env, s: RunState)
    requires s.node == Policy && Dispatch(env, s).signal == Next
    ensures AllAllowed(Dispatch(env, s).state)
  {
    PolicyOutcomes(env, s);
    var answers := PolicyAnswers(env, s.meter.tick, |s.actions|);
    assert forall k :: 0 <= k < |answers| ==> answers[k] in answers;
    hide Dispatch;
  }

  lemma TurnKeepsPermitted(env: Env, s: RunState)
    requires Permitted(s) && Held(s)
    ensures Permitted(Turn(env, s).state)
  {
    hide Guard, Dispatch, Acted, ApprovedTools, AllAllowed;
    GuardFrame(env, s);
    GuardCalls(env, s);
    var g := Guard(env, s);
    SameActionsSamePermit(s, g.state);
    TurnClimbs(env, s);
    if !g.signal.Raise? {
      DispatchApart(env, g.state);
      if s.node != ExecuteApproved { OtherNodesActNot(env, g.state); }
      if s.node == Policy {
        if Dispatch(env, g.state).signal == Next { AllowedAtTheGate(env, g.state); }
      } else {
        JudgedStays(env, g.state);
        SameActionsSamePermit(g.state, Dispatch(env, g.state).state);
      }
    }
  }

  lemma SameActionsSamePermit(s: RunState, s': RunState)
    requires s'.judged == s.judged
    ensures s'.actions == s.actions ==> AllAllowed(s') == AllAllowed(s)
  {
  }

  lemma {:induction false} DriveKeepsPermitted(env: Env, s: RunState)
    requires Permitted(s) && Held(s)
    ensures Permitted(Drive(env, s))
    decreases 12 - Rank(s.node)
  {
    hide Held, Permitted, Turn, Close;
    TurnKeepsPermitted(env, s);
    TurnKeepsHeld(env, s);
    TurnClimbs(env, s);
    var r := Turn(env, s);
    match r.signal
    case Next => DriveKeepsPermitted(env, r.state);
    case Return =>
    case Raise(why) => CloseKeepsPermitted(r.state, why);
  }

  lemma CloseKeepsPermitted(s: RunState, why: Why)
    requires Permitted(s)
    ensures Permitted(Close(s, why))
  {
    hide Acted;
  }

  lemma ApplyKeepsPermitted(env: Env, s: RunState, op: Op)
    requires Permitted(s) && Held(s) && Shape(env, s)
    ensures Permitted(ApplyOp(env, s, op))
  {
    hide Drive, Acted, ApprovedTools, Decide, Grounded, Breaker.Consistent, ProposedFrom;
    match op
    case NewGraph =>
    case DoRun =>
      DriveKeepsPermitted(env, if s.status == Created then Transition(s.(status := Running), Classify, RunStarted)
                               else s);
    case DoResume(d) =>
      if AwaitsApproval(s) && d == Approved {
        ReleasedIsHeld(s);
        DriveKeepsPermitted(env, Released(s));
      }
  }

  lemma {:induction false} ReachablePermitted(env: Env, limits: Limits, ops: seq<Op>)
    ensures Permitted(After(env, limits, ops))
  {
    if ops == [] {
      assert After(env, limits, ops) == NewRun(limits);
    } else {
      hide Held, Shape, Permitted, ApplyOp;
      var front := ops[..|ops| - 1];
      ReachableShape(env, limits, front);
      ReachableHeld(env, limits, front);
      ReachablePermitted(env, limits, front);
      ApplyKeepsPermitted(env, After(env, limits, front), ops[|ops| - 1]);
    }
  }

  /** Over every history, for every clock and canceller: a run that came to the gate carries one judgement for each of
      its actions, under the action's tool, and each of them allows it; and so does every run that invoked one. */
  lemma OnlyTheAllowedIsAskedFor(env: Env, limits: Limits, ops: seq<Op>)
    ensures var s := After(env, limits, ops);
            9 <= Rank(s.node) <= 11 || Acted(s.meter.calls) != [] ==>
              |s.judged| == |s.actions| && forall k :: 0 <= k < |s.actions| ==> s.judged[k] == (s.actions[k].tool, true)
  {
    ReachablePermitted(env, limits, ops);
  }

  // --------------------------------------------------------------------------------------------
  // The driver's checks
  // --------------------------------------------------------------------------------------------

  // A counter is over its limit.
  predicate Exceeds(lim: Limits, u: Usage) {
    || u.modelCalls > lim.maxModelCalls || u.toolCalls > lim.maxToolCalls || u.delegations > lim.maxDelegations
    || u.inputTokens > lim.maxInputTokens || u.outputTokens > lim.maxOutputTokens
    || u.delegations > lim.maxDepth || u.depth > lim.maxDepth || u.cost > lim.maxCost
  }

  /** The checks before every turn: a flag that is up stops the run as cancelled, a counter over its limit or the
      time used up as over budget, and nothing else stops it. Nothing but the meter moves, and no call starts. */
  lemma GuardOutcomes(env: Env, s: RunState)
    ensures var g, tick := Guard(env, s), s.meter.tick;
            && g.state == s.(meter := g.state.meter) && g.state.meter.calls == s.meter.calls
            && g.state.meter.usage == s.meter.usage && g.signal != Return
            && (g.signal == Raise(Cancelled) <==> env.world.cancelled(tick))
            && (g.signal == Next <==> !env.world.cancelled(tick) && !Exceeds(s.limits, s.meter.usage)
                                      && env.world.elapsed(tick + 1) <= s.limits.maxDuration)
            && (g.signal.Raise? ==> g.signal.why == Cancelled || g.signal.why.OverBudget?)
            && (g.signal == Raise(OverBudget(OverDuration)) <==>
                  !env.world.cancelled(tick) && !Exceeds(s.limits, s.meter.usage)
                  && env.world.elapsed(tick + 1) > s.limits.maxDuration)
  {
  }

  /** The same before a call: the flag is looked at, the call is charged at its price, and it starts if and only if
      all counters are then within their limits and the time is not used up. */
  lemma PaymentOutcomes(w: World, lim: Limits, m: Meter, k: Kind, action: Option<Tool>)
    ensures var paid := ClearAndPay(w, lim, m, k, action);
            var u := match k
                     case ModelCall => m.usage.(modelCalls := m.usage.modelCalls + 1, cost := m.usage.cost + 5)
                     case ToolCall => m.usage.(toolCalls := m.usage.toolCalls + 1, cost := m.usage.cost + 1)
                     case Delegation => m.usage.(delegations := m.usage.delegations + 1, depth := m.usage.depth + 1,
                                                 cost := m.usage.cost + 10);
            && (paid.stop == Some(Cancelled) <==> w.cancelled(m.tick))
            && paid.meter.usage == (if w.cancelled(m.tick) then m.usage else u)
            && (paid.stop.None? <==>
                  !w.cancelled(m.tick) && !Exceeds(lim, u) && w.elapsed(m.tick + 1) <= lim.maxDuration)
            && paid.meter.calls == if paid.stop.Some? then m.calls
                                   else m.calls + [Call(k, action, m.tick + 2, m.tick, u)]
  {
  }

  /** A turn: the checks, and if they pass the node's step from the state they leave. */
  lemma TurnOutcomes(env: Env, s: RunState)
    ensures var g := Guard(env, s); Turn(env, s) == if g.signal == Next then Dispatch(env, g.state) else g
  {
    hide Dispatch;
  }

  /** A pass of the driver goes on as long as turns let it, gives back the state a turn returns with, and closes the
      run on an exception. A run that was only created is started first. */
  lemma PassOutcomes(env: Env, s: RunState)
    ensures var r := Turn(env, s);
            match r.signal
            case Next => Drive(env, s) == Drive(env, r.state)
            case Return => Drive(env, s) == r.state
            case Raise(why) => Drive(env, s) == Close(r.state, why)
    ensures s.status != Created ==> Run(env, s) == Drive(env, s)
    ensures s.status == Created ==>
              exists begun: RunState ::
                && Run(env, s) == Drive(env, begun) && begun.status == Running && begun.node == Classify
                && begun.meter == s.meter && Logs(s, begun, [RunStarted])
  {
    hide Turn, Close;
    TurnClimbs(env, s);
    if s.status == Created {
      var begun := Transition(s.(status := Running), Classify, RunStarted);
      assert Run(env, s) == Drive(env, begun) && Logs(s, begun, [RunStarted]);
    }
  }
}
