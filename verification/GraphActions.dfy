/** Write actions over every history of a run: each is invoked at most once, in the proposed order, only
    when approved; a run that ends normally has invoked all that were approved; a rejected or degraded
    run invokes none. */
module GraphActions {
  import opened Wrappers
  import opened Catalog
  import opened Budget
  import opened Graph
  import opened GraphLedger
  import opened GraphShape
  import Breaker

  // The proposed actions that were invoked, in the order of their calls.
  function Acted(calls: seq<Call>): seq<Tool> {
    if calls == [] then []
    else
      var front, last := calls[..|calls| - 1], calls[|calls| - 1];
      if last.action.Some? then Acted(front) + [last.action.value] else Acted(front)
  }

  // The approved ones among the actions, in order.
  function Wanted(actions: seq<Action>, approved: set<Tool>): seq<Tool> {
    if actions == [] then []
    else if actions[0].tool in approved then [actions[0].tool] + Wanted(actions[1..], approved)
    else Wanted(actions[1..], approved)
  }

  function WantedOf(s: RunState): seq<Tool> { Wanted(s.actions, ApprovedTools(s.approvals)) }

  // --------------------------------------------------------------------------------------------
  // A stuck run: every further turn ends at the driver's checks
  // --------------------------------------------------------------------------------------------

  ghost predicate Stuck(env: Env, s: RunState) {
    CancelSeen(env.world, s.meter) || Blocked(env.world, s.limits, s.meter)
  }

  lemma StuckStops(env: Env, s: RunState)
    requires StopsLast(env.world, s.limits) && Stuck(env, s)
    ensures var g := Guard(env, s);
            && g.signal.Raise? && g.signal.why != Crashed && Turn(env, s) == g
            && g.state == s.(meter := g.state.meter) && g.state.meter.calls == s.meter.calls
            && Stuck(env, g.state)
  {
    var (m, cancelled) := CheckCancel(env.world, s.meter);
    if cancelled {
      assert s.meter.tick < m.tick;
    } else if t: nat :| t < s.meter.tick && env.world.elapsed(t) > s.limits.maxDuration {
      assert env.world.elapsed(m.tick) > s.limits.maxDuration;
      assert t < m.tick + 1;
    }
  }

  // A step that stops on the flag or on a budget leaves the run stuck.
  lemma StoppedIsStuck(env: Env, s: RunState, s': RunState, signal: Signal)
    requires StepMoves(env, s, s', signal) && signal.Raise? && signal.why != Crashed && s.node != Delegate
    ensures Stuck(env, s')
  {
  }

  // --------------------------------------------------------------------------------------------
  // Which steps invoke actions
  // --------------------------------------------------------------------------------------------

  lemma PayActs(w: World, lim: Limits, m: Meter, k: Kind, action: Option<Tool>)
    ensures var r := Pay(w, lim, m, k, action);
            Acted(r.meter.calls)
            == if r.stop.None? && action.Some? then Acted(m.calls) + [action.value] else Acted(m.calls)
  {
    var r := Pay(w, lim, m, k, action);
    if r.stop.None? {
      assert r.meter.calls[..|r.meter.calls| - 1] == m.calls;
    }
  }

  lemma ClearAndPayActs(w: World, lim: Limits, m: Meter, k: Kind, action: Option<Tool>)
    ensures var r := ClearAndPay(w, lim, m, k, action);
            Acted(r.meter.calls)
            == if r.stop.None? && action.Some? then Acted(m.calls) + [action.value] else Acted(m.calls)
  {
    hide Pay, Acted;
    PayActs(w, lim, CheckCancel(w, m).0, k, action);
  }

  lemma {:induction false} ReadAttemptsAct(env: Env, lim: Limits, m: Meter, attempt: nat)
    requires attempt <= MAX_READ_RETRIES
    ensures Acted(ReadAttempts(env, lim, m, attempt).meter.calls) == Acted(m.calls)
    decreases MAX_READ_RETRIES - attempt
  {
    hide ClearAndPay, Acted;
    ClearAndPayActs(env.world, lim, m, ToolCall, None);
    var paid := ClearAndPay(env.world, lim, m, ToolCall, None);
    if paid.stop.None? && env.tool(Answer(paid.meter)).TimedOut? && attempt < MAX_READ_RETRIES {
      ReadAttemptsAct(env, lim, paid.meter, attempt + 1);
    }
  }

  lemma McpReadActs(env: Env, s: RunState, t: Tool)
    ensures Acted(McpRead(env, s, t).state.meter.calls) == Acted(s.meter.calls)
  {
    hide ReadAttempts, Acted;
    ReadAttemptsAct(env, s.limits, s.meter, 0);
  }

  lemma {:induction false} ReadAllActs(env: Env, s: RunState, tools: seq<Tool>)
    ensures Acted(ReadAll(env, s, tools).state.meter.calls) == Acted(s.meter.calls)
    decreases |tools|
  {
    hide McpRead, Acted;
    if tools != [] {
      McpReadActs(env, s, tools[0]);
      McpReadFrame(env, s, tools[0]);
      ReadAllActs(env, AfterRead(env, s, tools[0]), tools[1..]);
    }
  }

  lemma CallSpecialistActs(env: Env, s: RunState)
    ensures Acted(CallSpecialist(env, s).0.meter.calls) == Acted(s.meter.calls)
  {
    hide ClearAndPay, Acted, ValidOutput, Breaker.Success, Breaker.Failure;
    ClearAndPayActs(env.world, s.limits, s.meter, Delegation, None);
  }

  // Execution invokes the approved actions in order, as many as it gets to, and all of them if it is
  // not stopped. The allowlist gate, passed when the actions were proposed, does not stop it.
  lemma {:induction false} ExecuteActs(env: Env, s: RunState, actions: seq<Action>, approved: set<Tool>)
    returns (k: nat)
    requires forall a :: a in actions ==> env.argsOk(a.tool) && IsWriteTool(a.tool)
    ensures k <= |Wanted(actions, approved)|
    ensures var r := ExecuteActions(env, s, actions, approved);
            && Acted(r.state.meter.calls) == Acted(s.meter.calls) + Wanted(actions, approved)[..k]
            && (r.signal == Next ==> k == |Wanted(actions, approved)|)
            && r.signal != Raise(Crashed)
    decreases |actions|
  {
    hide ClearAndPay, Acted, Executed;
    k := 0;
    var base := Acted(s.meter.calls);
    if actions != [] {
      var t := actions[0].tool;
      assert actions[0] in actions;
      ClearAndPayActs(env.world, s.limits, s.meter, ToolCall, Some(t));
      var paid := ClearAndPay(env.world, s.limits, s.meter, ToolCall, Some(t));
      PayNeverCrashes(env.world, s.limits, s.meter, ToolCall, Some(t));
      if t !in approved {
        k := ExecuteActs(env, s, actions[1..], approved);
      } else if paid.stop.None? {
        ExecutedFrame(s, t, paid.meter, env.tool(Answer(paid.meter)).Answered?);
        var k' :=
          ExecuteActs(env, Executed(s, t, paid.meter, env.tool(Answer(paid.meter)).Answered?), actions[1..], approved);
        k := k' + 1;
        TakeOneMore(base, t, Wanted(actions[1..], approved), k');
      }
    }
  }

  lemma TakeOneMore(base: seq<Tool>, t: Tool, rest: seq<Tool>, k: nat)
    requires k <= |rest|
    ensures base + [t] + rest[..k] == base + ([t] + rest)[..k + 1]
  {
  }

  lemma ExecutedFrame(s: RunState, t: Tool, m: Meter, succeeded: bool)
    ensures var s' := Executed(s, t, m, succeeded);
            s' == s.(meter := m, eventSequence := s'.eventSequence, log := s'.log)
  {
  }

  lemma PayNeverCrashes(w: World, lim: Limits, m: Meter, k: Kind, action: Option<Tool>)
    ensures ClearAndPay(w, lim, m, k, action).stop != Some(Crashed)
  {
  }

  lemma OtherNodesActNot(env: Env, s: RunState)
    requires s.node != ExecuteApproved
    ensures Acted(Dispatch(env, s).state.meter.calls) == Acted(s.meter.calls)
  {
    hide Acted, AskModel, ReadAll, McpRead, CallSpecialist, Judge, AnyDenied, EmitFindings, NormaliseFrom, RawFindings,
         MaxConfidence, MentionsDeployment, Top, Conflicting, CapAll, DiscountAll, Requests, Pay;
    match s.node
    case Classify => AskActs(env, s);
    case Plan => AskActs(env, s);
    case McpReads => ReadAllActs(env, s, READS);
    case Delegate => CallSpecialistActs(env, s);
    case Findings =>
      var findings := NormaliseFrom(RawFindings(env, s), 0);
      EmitFindingsOnlyLogs(s.(findings := findings), findings);
    case Policy => JudgeTicks(env, s.meter, s.actions);
    case Verify => McpReadActs(env, s, GetHealth);
    case _ =>
  }

  lemma AskActs(env: Env, s: RunState)
    ensures Acted(AskModel(env, s).0.meter.calls) == Acted(s.meter.calls)
  {
    hide Pay, Acted;
    PayActs(env.world, s.limits, s.meter, ModelCall, None);
  }

  // --------------------------------------------------------------------------------------------
  // Only approved actions are invoked
  // --------------------------------------------------------------------------------------------

  lemma {:induction false} ExecuteWithinApproved(env: Env, s: RunState, actions: seq<Action>, approved: set<Tool>)
    ensures var after := Acted(ExecuteActions(env, s, actions, approved).state.meter.calls);
            && Acted(s.meter.calls) <= after && (actions == [] ==> after == Acted(s.meter.calls))
            && forall t :: t in after[|Acted(s.meter.calls)|..] ==> t in approved
    decreases |actions|
  {
    hide ClearAndPay, Acted;
    if actions != [] {
      var t := actions[0].tool;
      ClearAndPayActs(env.world, s.limits, s.meter, ToolCall, Some(t));
      var paid := ClearAndPay(env.world, s.limits, s.meter, ToolCall, Some(t));
      if t !in approved {
        ExecuteWithinApproved(env, s, actions[1..], approved);
      } else if paid.stop.None? {
        ExecuteWithinApproved(env, Executed(s, t, paid.meter, env.tool(Answer(paid.meter)).Answered?), actions[1..],
                              approved);
      }
    }
  }

  lemma TurnWithinApproved(env: Env, s: RunState)
    ensures var after := Acted(Turn(env, s).state.meter.calls);
            && Acted(s.meter.calls) <= after
            && (forall t :: t in after[|Acted(s.meter.calls)|..] ==> t in ApprovedTools(s.approvals))
            && ApprovedTools(Turn(env, s).state.approvals) == ApprovedTools(s.approvals)
  {
    hide ApprovedTools, Acted, Dispatch, ExecuteActions;
    GuardFrame(env, s);
    GuardCalls(env, s);
    var g := Guard(env, s).state;
    DispatchApart(env, g);
    if s.node == ExecuteApproved {
      ExecuteIsDispatched(env, g);
      ExecuteWithinApproved(env, g, g.actions, ApprovedTools(g.approvals));
    } else {
      OtherNodesActNot(env, g);
    }
  }

  lemma GuardCalls(env: Env, s: RunState)
    ensures Guard(env, s).state.meter.calls == s.meter.calls
  {
  }

  lemma {:induction false} DriveWithinApproved(env: Env, s: RunState)
    ensures var after := Acted(Drive(env, s).meter.calls);
            && Acted(s.meter.calls) <= after
            && forall t :: t in after[|Acted(s.meter.calls)|..] ==> t in ApprovedTools(s.approvals)
    decreases 12 - Rank(s.node)
  {
    hide ApprovedTools, Acted, Turn;
    TurnWithinApproved(env, s);
    TurnClimbs(env, s);
    var r := Turn(env, s);
    if r.signal == Next {
      DriveWithinApproved(env, r.state);
    } else if r.signal.Raise? {
      CloseFrame(r.state, r.signal.why);
    }
  }

  // --------------------------------------------------------------------------------------------
  // What holds whatever the clock and the canceller do
  // --------------------------------------------------------------------------------------------

  // The outcomes of the exits before the execution.
  predicate EndedEarly(v: Option<Verdict>) {
    v in {Some(Clarify), Some(MoreInfo), Some(DeniedByPolicy), Some(Rejected)}
  }

  lemma RequestsApproveNothing(approvals: seq<Approval>, actions: seq<Action>)
    ensures ApprovedTools(approvals + Requests(actions)) == ApprovedTools(approvals)
  {
    var more := approvals + Requests(actions);
    forall t | t in ApprovedTools(more)
      ensures t in ApprovedTools(approvals)
    {
      var a :| a in more && a.decision == Approved && a.action == t;
      assert a !in Requests(actions);
    }
    forall t | t in ApprovedTools(approvals)
      ensures t in ApprovedTools(more)
    {
      var a :| a in approvals && a.decision == Approved && a.action == t;
      assert a in more;
    }
  }

  // What a step away from the execution changes of actions, approvals and verdict.
  predicate Apart(s: RunState, s': RunState, signal: Signal) {
    && (s.node != Propose ==> s'.actions == s.actions)
    && ApprovedTools(s'.approvals) == ApprovedTools(s.approvals)
    && (signal != Return || s.node == ApprovalPause ==> s'.verdict == s.verdict)
    && (signal == Return && s.node != ApprovalPause ==>
          && s'.verdict.Some?
          && (s'.verdict == Some(Done) ==> s.node == Complete && (s.verdict.None? || s.verdict == Some(Done)))
          && (EndedEarly(s'.verdict) ==> s'.node == Complete && (Rank(s.node) < 10 || s'.verdict == s.verdict)))
  }

  lemma DispatchApart(env: Env, s: RunState)
    ensures Apart(s, Dispatch(env, s).state, Dispatch(env, s).signal)
  {
    hide ApprovedTools, AskModel, ReadAll, McpRead, CallSpecialist, DoFindings, DoPolicy, ExecuteActions,
         MentionsDeployment, Top, Conflicting, CapAll, DiscountAll, Requests, Pay;
    match s.node
    case Classify => AskModelFrame(env, s);
    case Plan => AskModelFrame(env, s);
    case McpReads => ReadAllFrame(env, s, READS);
    case Delegate => CallSpecialistFrame(env, s);
    case Findings => JudgedApart(env, s);
    case Policy => JudgedApart(env, s);
    case ApprovalPause => RequestsApproveNothing(s.approvals, s.actions);
    case ExecuteApproved => ExecuteFrame(env, s, s.actions, ApprovedTools(s.approvals));
    case Verify => McpReadFrame(env, s, GetHealth);
    case _ =>
  }

  lemma JudgedApart(env: Env, s: RunState)
    ensures s.node == Findings ==> Apart(s, DoFindings(env, s).state, DoFindings(env, s).signal)
    ensures s.node == Policy ==> Apart(s, DoPolicy(env, s).state, DoPolicy(env, s).signal)
  {
    hide Judge, AnyDenied, EmitFindings, NormaliseFrom, RawFindings, MaxConfidence, ApprovedTools;
    var findings := NormaliseFrom(RawFindings(env, s), 0);
    EmitFindingsOnlyLogs(s.(findings := findings), findings);
  }

  lemma ExecuteIsDispatched(env: Env, s: RunState)
    requires s.node == ExecuteApproved
    ensures Dispatch(env, s) == DoExecute(env, s)
  {
  }

  lemma GuardFrame(env: Env, s: RunState)
    ensures Guard(env, s).state == s.(meter := Guard(env, s).state.meter)
  {
  }

  // Nothing is invoked before the gate or by a run that ended early, and only what is approved.
  predicate Held(s: RunState) {
    var acted := Acted(s.meter.calls);
    && (Rank(s.node) < 10 ==> acted == [])
    && (EndedEarly(s.verdict) ==> s.node == Complete && acted == [])
    && (acted != [] ==> s.actions != [])
    && (forall t :: t in acted ==> t in ApprovedTools(s.approvals))
  }

  lemma TurnKeepsHeld(env: Env, s: RunState)
    requires Held(s)
    ensures Held(Turn(env, s).state)
  {
    hide Acted, ApprovedTools, Guard, Dispatch;
    GuardFrame(env, s);
    GuardCalls(env, s);
    TurnClimbs(env, s);
    DispatchApart(env, Guard(env, s).state);
    TurnWithinApproved(env, s);
    var g, before, after := Guard(env, s).state, Acted(s.meter.calls), Acted(Turn(env, s).state.meter.calls);
    assert after == before + after[|before|..];
    if s.node == ExecuteApproved {
      ExecuteIsDispatched(env, g);
      if g.actions == [] { NoActionsNoCalls(env, g); }
    } else {
      OtherNodesActNot(env, g);
    }
  }

  lemma NoActionsNoCalls(env: Env, s: RunState)
    requires s.actions == []
    ensures Acted(DoExecute(env, s).state.meter.calls) == Acted(s.meter.calls)
  {
    hide Acted, ApprovedTools;
  }

  lemma CloseKeepsHeld(s: RunState, why: Why)
    requires Held(s)
    ensures Held(Close(s, why))
  {
    hide Acted, ApprovedTools;
  }

  lemma {:induction false} DriveKeepsHeld(env: Env, s: RunState)
    requires Held(s)
    ensures Held(Drive(env, s))
    decreases 12 - Rank(s.node)
  {
    hide Held, Turn, Close;
    TurnKeepsHeld(env, s);
    TurnClimbs(env, s);
    var r := Turn(env, s);
    match r.signal
    case Next => DriveKeepsHeld(env, r.state);
    case Return =>
    case Raise(why) => CloseKeepsHeld(r.state, why);
  }

  lemma RunKeepsHeld(env: Env, s: RunState)
    requires Held(s) && (s.status == Created ==> s.node == Classify)
    ensures Held(Run(env, s))
  {
    hide Acted, ApprovedTools, Drive;
    DriveKeepsHeld(env, if s.status == Created then Transition(s.(status := Running), Classify, RunStarted) else s);
  }

  // The state in which an approved run sets out again.
  function Released(s: RunState): RunState {
    Save(Emit(s.(approvals := Decide(s.approvals, Approved)), ApprovalReceived(Approved))).(node := ExecuteApproved)
  }

  lemma ReleasedIsHeld(s: RunState)
    requires Held(s) && AwaitsApproval(s)
    ensures Held(Released(s)) && Acted(Released(s).meter.calls) == []
  {
    hide Acted, ApprovedTools, Decide;
  }

  lemma ApplyKeepsHeld(env: Env, s: RunState, op: Op)
    requires Held(s) && Shape(env, s)
    ensures Held(ApplyOp(env, s, op))
  {
    hide Acted, ApprovedTools, Decide, Run, Grounded, Breaker.Consistent, ProposedFrom;
    match op
    case DoRun => RunKeepsHeld(env, s);
    case NewGraph =>
    case DoResume(d) =>
      if AwaitsApproval(s) && d == Approved {
        ReleasedIsHeld(s);
        RunKeepsHeld(env, Released(s));
      }
  }

  lemma {:induction false} ReachableHeld(env: Env, limits: Limits, ops: seq<Op>)
    ensures Held(After(env, limits, ops))
  {
    if ops == [] {
      assert After(env, limits, ops) == NewRun(limits);
    } else {
      hide Held, Shape, ApplyOp;
      ReachableShape(env, limits, ops[..|ops| - 1]);
      ReachableHeld(env, limits, ops[..|ops| - 1]);
      ApplyKeepsHeld(env, After(env, limits, ops[..|ops| - 1]), ops[|ops| - 1]);
    }
  }

  // --------------------------------------------------------------------------------------------
  // The invariant
  // --------------------------------------------------------------------------------------------

  ghost predicate Acts(env: Env, s: RunState) {
    var acted := Acted(s.meter.calls);
    && Held(s)
    && acted <= WantedOf(s)
    && (s.node == ExecuteApproved && acted != [] ==> Stuck(env, s))
    && (s.node == Verify ==> acted == WantedOf(s))
    && (s.verdict == Some(Done) ==> s.node == Complete)
    && (s.node == Complete && (s.verdict.None? || s.verdict == Some(Done)) ==> acted == WantedOf(s))
  }

  lemma ExecuteStep(env: Env, s: RunState)
    requires Shape(env, s) && s.node == ExecuteApproved && Acted(s.meter.calls) == []
    ensures var r := DoExecute(env, s);
            && WantedOf(r.state) == WantedOf(s) && Acted(r.state.meter.calls) <= WantedOf(s)
            && (r.signal == Next ==> Acted(r.state.meter.calls) == WantedOf(s))
            && (r.signal == Raise(Crashed) ==> Acted(r.state.meter.calls) == [])
  {
    hide Acted, ApprovedTools, Wanted, ExecuteActions, Grounded, Breaker.Consistent, MentionsDeployment, SeverityOf,
         MaxConfidence;
    ExecuteFrame(env, s, s.actions, ApprovedTools(s.approvals));
    assert forall a :: a in s.actions ==> env.argsOk(a.tool) && IsWriteTool(a.tool);
    var k := ExecuteActs(env, s, s.actions, ApprovedTools(s.approvals));
  }

  lemma ExecuteTurnKeepsActs(env: Env, s: RunState)
    requires StopsLast(env.world, s.limits) && LedgerInv(env, s) && Shape(env, s) && Acts(env, s)
    requires s.node == ExecuteApproved && Acted(s.meter.calls) == [] && Guard(env, s).signal == Next
    ensures Acts(env, Turn(env, s).state)
  {
    hide StopsLast, LedgerInv, Shape, Held, Stuck, Moves, Acted, Wanted, ApprovedTools, Guard, Dispatch, DoExecute;
    TurnKeepsHeld(env, s);
    var g, r := Guard(env, s), Turn(env, s);
    GuardMoves(env, s);
    TurnMoves(env, s);
    TurnClimbs(env, s);
    MeterAside(env, s, g.state.meter);
    DispatchApart(env, g.state);
    ExecuteIsDispatched(env, g.state);
    ExecuteStep(env, g.state);
    if r.signal.Raise? && r.signal.why != Crashed { StoppedIsStuck(env, s, r.state, r.signal); }
  }

  lemma TurnKeepsActs(env: Env, s: RunState)
    requires StopsLast(env.world, s.limits) && LedgerInv(env, s) && Shape(env, s) && Acts(env, s)
    ensures Acts(env, Turn(env, s).state)
  {
    hide StopsLast, LedgerInv, Shape, Stuck, Moves, Acted, Wanted, ApprovedTools, Guard, Dispatch;
    TurnKeepsHeld(env, s);
    var g := Guard(env, s);
    GuardMoves(env, s);
    if Stuck(env, s) {
      StuckStops(env, s);
    } else if g.signal == Next && s.node == ExecuteApproved {
      ExecuteTurnKeepsActs(env, s);
    } else if g.signal == Next {
      TurnClimbs(env, s);
      MeterAside(env, s, g.state.meter);
      DispatchApart(env, g.state);
      OtherNodesActNot(env, g.state);
      if s.node == ApprovalPause { PauseAwaits(env, g.state); }
    }
  }

  // A run that comes to the gate has something to approve, and stays there.
  lemma PauseAwaits(env: Env, s: RunState)
    requires Shape(env, s) && s.node == ApprovalPause
    ensures var r := Dispatch(env, s); r.signal == Return && AwaitsApproval(r.state) && r.state.actions == s.actions
  {
  }

  lemma CloseKeepsActs(env: Env, s: RunState, why: Why)
    requires Acts(env, s)
    ensures Acts(env, Close(s, why))
  {
    hide CancelSeen, Blocked, Acted, Wanted, ApprovedTools;
    CloseKeepsHeld(s, why);
  }

  lemma LedgerAfterTurn(env: Env, s: RunState)
    requires LedgerInv(env, s)
    ensures LedgerInv(env, Turn(env, s).state) && Turn(env, s).state.limits == s.limits
  {
    hide Turn, MeterInv;
    TurnMoves(env, s);
  }

  lemma {:induction false} DriveKeepsActs(env: Env, s: RunState)
    requires StopsLast(env.world, s.limits) && LedgerInv(env, s) && Shape(env, s) && Acts(env, s)
    requires s.status != Created
    ensures Acts(env, Drive(env, s))
    decreases 12 - Rank(s.node)
  {
    hide StopsLast, LedgerInv, Shape, Acts, Turn, Close;
    TurnKeepsActs(env, s);
    TurnKeepsShape(env, s);
    LedgerAfterTurn(env, s);
    TurnClimbs(env, s);
    var r := Turn(env, s);
    match r.signal
    case Next => DriveKeepsActs(env, r.state);
    case Return =>
    case Raise(why) => CloseKeepsActs(env, r.state, why);
  }

  lemma RunKeepsActs(env: Env, s: RunState)
    requires StopsLast(env.world, s.limits) && LedgerInv(env, s) && Shape(env, s) && Acts(env, s)
    ensures Acts(env, Run(env, s))
  {
    hide StopsLast, MeterInv, Stuck, Acted, Wanted, ApprovedTools, Drive, Grounded, Breaker.Consistent,
         ProposedFrom;
    if s.status == Created {
      var begun := Transition(s.(status := Running), Classify, RunStarted);
      BegunKeepsShape(env, s);
      DriveKeepsActs(env, begun);
    } else {
      DriveKeepsActs(env, s);
    }
  }

  lemma BegunKeepsShape(env: Env, s: RunState)
    requires Shape(env, s) && s.status == Created
    ensures Shape(env, Transition(s.(status := Running), Classify, RunStarted))
  {
  }

  lemma {:induction false} DecidedTools(approvals: seq<Approval>, d: Decision)
    ensures d != Approved ==> ApprovedTools(Decide(approvals, d)) == {}
  {
  }

  lemma ReleasedKeeps(env: Env, s: RunState)
    requires LedgerInv(env, s) && Shape(env, s) && Acts(env, s) && AwaitsApproval(s)
    ensures LedgerInv(env, Released(s)) && Shape(env, Released(s)) && Acts(env, Released(s))
  {
    hide MeterInv, CancelSeen, Blocked, Acted, Wanted, ApprovedTools, Decide, Breaker.Consistent, ProposedFrom,
         MaxConfidence, AllWellFormed;
  }

  lemma ApplyKeepsActs(env: Env, s: RunState, op: Op)
    requires StopsLast(env.world, s.limits) && LedgerInv(env, s) && Shape(env, s) && Acts(env, s)
    ensures Acts(env, ApplyOp(env, s, op))
  {
    hide StopsLast, MeterInv, Shape, Stuck, Acted, Wanted, ApprovedTools, Decide, Run;
    match op
    case DoRun => RunKeepsActs(env, s);
    case NewGraph =>
      assert Stuck(env, s.(breaker := Breaker.CLOSED)) == Stuck(env, s) by {
        StuckIsOfTheMeter(env, s, s.(breaker := Breaker.CLOSED));
      }
    case DoResume(d) =>
      if AwaitsApproval(s) && d == Approved {
        ReleasedKeeps(env, s);
        RunKeepsActs(env, Released(s));
      }
  }

  lemma StuckIsOfTheMeter(env: Env, s: RunState, s': RunState)
    requires s'.meter == s.meter && s'.limits == s.limits
    ensures Stuck(env, s') == Stuck(env, s)
  {
  }

  lemma {:induction false} ReachableActs(env: Env, limits: Limits, ops: seq<Op>)
    requires StopsLast(env.world, limits)
    ensures Acts(env, After(env, limits, ops))
  {
    if ops == [] {
      assert After(env, limits, ops) == NewRun(limits);
    } else {
      hide StopsLast, MeterInv, Shape, Acts, ApplyOp;
      var front := ops[..|ops| - 1];
      ReachableLedger(env, limits, front);
      ReachableShape(env, limits, front);
      ReachableActs(env, limits, front);
      ApplyKeepsActs(env, After(env, limits, front), ops[|ops| - 1]);
    }
  }

  // --------------------------------------------------------------------------------------------
  // What it says
  // --------------------------------------------------------------------------------------------

  function ToolsOf(actions: seq<Action>): set<Tool> {
    set a | a in actions :: a.tool
  }

  lemma {:induction false} WantedAreApproved(actions: seq<Action>, approved: set<Tool>)
    ensures forall t :: t in Wanted(actions, approved) ==> t in approved && t in ToolsOf(actions)
  {
    if actions != [] {
      WantedAreApproved(actions[1..], approved);
      assert forall a :: a in actions[1..] ==> a in actions;
    }
  }

  predicate Distinct(tools: seq<Tool>) {
    forall i, j :: 0 <= i < j < |tools| ==> tools[i] != tools[j]
  }

  // The proposals are a ticket and at most a rollback with it.
  lemma ProposalsAreDistinct(env: Env, s: RunState)
    requires Shape(env, s)
    ensures Distinct(WantedOf(s))
  {
    hide Grounded, Breaker.Consistent, MaxConfidence, ApprovedTools, MentionsDeployment;
    var approved := ApprovedTools(s.approvals);
    assert Wanted([], approved) == [];
    if |s.actions| == 2 {
      assert s.actions[1..] == [s.actions[1]] && [s.actions[1]][1..] == [];
      assert Wanted([s.actions[1]], approved) == if s.actions[1].tool in approved then [s.actions[1].tool] else [];
    } else if s.actions != [] {
      assert s.actions[1..] == [];
    }
    assert |WantedOf(s)| <= 1 || WantedOf(s) == [TicketCreate, Rollback];
  }

  /** At most once: if what stops a run stops it for good, then over any sequence of runs, resumes and restarts,
      with cancellation at any moment, no proposed action is invoked twice; every invoked action was proposed
      and its approval is approved. */
  lemma ActionsRunAtMostOnce(env: Env, limits: Limits, ops: seq<Op>)
    requires StopsLast(env.world, limits)
    ensures var s := After(env, limits, ops);
            var acted := Acted(s.meter.calls);
            && Distinct(acted)
            && (forall t :: t in acted ==> t in ApprovedTools(s.approvals) && t in ToolsOf(s.actions))
  {
    hide StopsLast, Acted, Wanted, Stuck, After, Grounded, Breaker.Consistent, MaxConfidence,
         ApprovedTools, ToolsOf;
    var s := After(env, limits, ops);
    ReachableShape(env, limits, ops);
    ReachableActs(env, limits, ops);
    WantedAreApproved(s.actions, ApprovedTools(s.approvals));
    ProposalsAreDistinct(env, s);
    var acted, w := Acted(s.meter.calls), WantedOf(s);
    assert acted == w[..|acted|];
    assert forall t :: t in acted ==> t in w;
  }

  /** A run whose outcome is a normal completion has invoked every approved action, in proposed order. */
  lemma DoneMeansAllApprovedWereInvoked(env: Env, limits: Limits, ops: seq<Op>)
    requires StopsLast(env.world, limits)
    requires After(env, limits, ops).verdict == Some(Done)
    ensures var s := After(env, limits, ops); Acted(s.meter.calls) == Wanted(s.actions, ApprovedTools(s.approvals))
  {
    ReachableActs(env, limits, ops);
  }

  /** Nothing is executed on any early exit: a run that ended to be clarified, for more information, denied by
      the policy, or rejected has invoked no action. */
  lemma EarlyExitsInvokeNothing(env: Env, limits: Limits, ops: seq<Op>)
    requires EndedEarly(After(env, limits, ops).verdict)
    ensures Acted(After(env, limits, ops).meter.calls) == []
  {
    ReachableHeld(env, limits, ops);
  }

  /** Degraded runs never act: without a result from the specialist there is no proposal and no call. */
  lemma NoSpecialistNoAction(env: Env, limits: Limits, ops: seq<Op>)
    requires After(env, limits, ops).specialist.None?
    ensures var s := After(env, limits, ops);
            s.actions == [] && Acted(s.meter.calls) == [] && !(7 <= Rank(s.node) <= 11) && !AwaitsApproval(s)
  {
    hide After, Acted, ApprovedTools, Breaker.Consistent, AllWellFormed, MaxConfidence, ProposedFrom;
    ReachableHeld(env, limits, ops);
    ReachableShape(env, limits, ops);
  }

  // Approvals become approved by a resume with that decision only.
  lemma {:induction false} DriveApprovesNothing(env: Env, s: RunState)
    ensures ApprovedTools(Drive(env, s).approvals) == ApprovedTools(s.approvals)
    decreases 12 - Rank(s.node)
  {
    hide ApprovedTools, Guard, Dispatch;
    var g := Guard(env, s);
    GuardFrame(env, s);
    DispatchApart(env, g.state);
    TurnClimbs(env, s);
    if Turn(env, s).signal == Next { DriveApprovesNothing(env, Turn(env, s).state); }
  }

  lemma {:induction false} DriveKeepsActions(env: Env, s: RunState)
    requires Rank(s.node) > Rank(Propose)
    ensures Drive(env, s).actions == s.actions
    decreases 12 - Rank(s.node)
  {
    hide Guard, Dispatch, ApprovedTools, Close;
    GuardFrame(env, s);
    DispatchApart(env, Guard(env, s).state);
    TurnClimbs(env, s);
    var r := Turn(env, s);
    match r.signal
    case Next => DriveKeepsActions(env, r.state);
    case Return =>
    case Raise(why) => CloseFrame(r.state, why);
  }

  /** No write without a decision: until a resume says "approved" no action is invoked. */
  lemma {:induction false} NothingBeforeApproval(env: Env, limits: Limits, ops: seq<Op>)
    requires DoResume(Approved) !in ops
    ensures Acted(After(env, limits, ops).meter.calls) == []
  {
    NothingApproved(env, limits, ops);
    ReachableHeld(env, limits, ops);
    NoneAllowed(Acted(After(env, limits, ops).meter.calls), {});
  }

  lemma NoneAllowed(tools: seq<Tool>, allowed: set<Tool>)
    requires forall t :: t in tools ==> t in allowed
    ensures allowed == {} ==> tools == []
  {
    if tools != [] {
      assert tools[0] in allowed;
    }
  }

  lemma {:induction false} NothingApproved(env: Env, limits: Limits, ops: seq<Op>)
    requires DoResume(Approved) !in ops
    ensures ApprovedTools(After(env, limits, ops).approvals) == {}
  {
    if ops != [] {
      hide Drive, Decide, ApprovedTools;
      var front, op := ops[..|ops| - 1], ops[|ops| - 1];
      var s := After(env, limits, front);
      NothingApproved(env, limits, front);
      assert op in ops;
      match op
      case NewGraph =>
      case DoRun =>
        DriveApprovesNothing(env, s);
        DriveApprovesNothing(env, Transition(s.(status := Running), Classify, RunStarted));
      case DoResume(d) => DecidedTools(s.approvals, d);
    }
  }

  /** A run resumed as rejected or expired invokes nothing, whatever is done with it afterwards. */
  lemma {:induction false} RejectedNeverActs(env: Env, limits: Limits, ops: seq<Op>, d: Decision, more: seq<Op>)
    requires AwaitsApproval(After(env, limits, ops)) && (d == RejectedByHuman || d == Expired)
    ensures Acted(After(env, limits, ops + [DoResume(d)] + more).meter.calls) == []
  {
    hide After, Held, ShutDown;
    RejectedStaysShut(env, limits, ops, d, more);
    ReachableHeld(env, limits, ops + [DoResume(d)] + more);
    ShutNeverActs(After(env, limits, ops + [DoResume(d)] + more));
  }

  // Complete, with nothing approved.
  predicate ShutDown(s: RunState) { s.node == Complete && s.status != Created && ApprovedTools(s.approvals) == {} }

  lemma ShutNeverActs(s: RunState)
    requires Held(s) && ShutDown(s)
    ensures Acted(s.meter.calls) == []
  {
    NoneAllowed(Acted(s.meter.calls), ApprovedTools(s.approvals));
  }

  lemma {:induction false} RejectedStaysShut(env: Env, limits: Limits, ops: seq<Op>, d: Decision, more: seq<Op>)
    requires AwaitsApproval(After(env, limits, ops)) && (d == RejectedByHuman || d == Expired)
    ensures ShutDown(After(env, limits, ops + [DoResume(d)] + more))
  {
    hide ShutDown, ApplyOp, AwaitsApproval;
    var all := ops + [DoResume(d)] + more;
    if more == [] {
      assert all[..|all| - 1] == ops;
      RejectShuts(env, After(env, limits, ops), d);
    } else {
      var front := more[..|more| - 1];
      assert all[..|all| - 1] == ops + [DoResume(d)] + front;
      RejectedStaysShut(env, limits, ops, d, front);
      StaysShut(env, After(env, limits, ops + [DoResume(d)] + front), all[|all| - 1]);
    }
  }

  lemma RejectShuts(env: Env, s: RunState, d: Decision)
    requires AwaitsApproval(s) && (d == RejectedByHuman || d == Expired)
    ensures ShutDown(ApplyOp(env, s, DoResume(d)))
  {
    hide Decide, ApprovedTools;
    DecidedTools(s.approvals, d);
  }

  // A complete run stays complete, with the same approvals.
  lemma StaysShut(env: Env, s: RunState, op: Op)
    requires ShutDown(s)
    ensures ShutDown(ApplyOp(env, s, op))
  {
    hide ApprovedTools, Guard, Close;
    GuardFrame(env, s);
    CloseFrame(Guard(env, s).state, if Guard(env, s).signal.Raise? then Guard(env, s).signal.why else Crashed);
  }
}
