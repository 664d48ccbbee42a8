/** The degraded flag: what `a2a_fallback` says about a run, and when it does not. */
module GraphDegraded {
  import opened Wrappers
  import opened Catalog
  import opened Budget
  import opened Graph
  import opened GraphLedger
  import opened GraphShape
  import opened GraphActions
  import opened GraphTrace
  import opened CalmRun
  import Breaker

  // How a step may move the flag and the specialist's result. Before the delegation both stay; the
  // delegation gives a result and leaves the flag, or gives none and raises it; after it both stay.
  predicate FlagStep(s: RunState, s': RunState, signal: Signal) {
    && (s.fallback ==> s'.fallback)
    && (s.node != Delegate ==> s'.fallback == s.fallback && s'.specialist.Some? == s.specialist.Some?)
    && (s.node == Delegate && signal == Next ==> s'.fallback == (s.fallback || s'.specialist.None?))
    && (s.node == Delegate && signal != Next ==> s'.specialist == s.specialist)
  }

  lemma DispatchMovesFlag(env: Env, s: RunState)
    ensures FlagStep(s, Dispatch(env, s).state, Dispatch(env, s).signal)
  {
    hide AskModel, ReadAll, McpRead, CallSpecialist, ExecuteActions, DoFindings, DoPolicy, MentionsDeployment, Top,
         Conflicting, CapAll, DiscountAll, Requests, ApprovedTools;
    match s.node
    case Classify => AskModelFrame(env, s);
    case Plan => AskModelFrame(env, s);
    case McpReads => ReadAllFrame(env, s, READS);
    case Delegate => CallSpecialistFrame(env, s);
    case Findings => JudgingKeepsFlag(env, s); FindingFollows(env, s);
    case Policy => JudgingKeepsFlag(env, s); JudgingFollows(env, s);
    case ExecuteApproved => ExecuteFrame(env, s, s.actions, ApprovedTools(s.approvals));
    case Verify => McpReadFrame(env, s, GetHealth);
    case _ =>
  }

  lemma JudgingKeepsFlag(env: Env, s: RunState)
    ensures DoFindings(env, s).state.fallback == s.fallback && DoFindings(env, s).state.specialist == s.specialist
    ensures DoPolicy(env, s).state.fallback == s.fallback && DoPolicy(env, s).state.specialist == s.specialist
  {
    hide Judge, AnyDenied, EmitFindings, NormaliseFrom, RawFindings, MaxConfidence;
    var findings := NormaliseFrom(RawFindings(env, s), 0);
    EmitFindingsOnlyLogs(s.(findings := findings), findings);
  }

  // What a driver pass does to flag and result, by where it starts.
  predicate FlagPass(s: RunState, s': RunState) {
    && (s.fallback ==> s'.fallback)
    && (Rank(s.node) > 4 ==> s'.fallback == s.fallback && s'.specialist.Some? == s.specialist.Some?)
    && (Rank(s.node) <= 4 && s.specialist.None? && s'.specialist.Some? ==> (s'.fallback <==> s.fallback))
    && (Rank(s.node) <= 4 && !s.fallback && s'.fallback && Rank(s'.node) <= 4 ==> s'.node == Delegate)
  }

  lemma TurnMovesFlag(env: Env, s: RunState)
    ensures FlagStep(s, Turn(env, s).state, Turn(env, s).signal)
  {
    hide Guard, Dispatch;
    GuardFrame(env, s);
    DispatchMovesFlag(env, Guard(env, s).state);
  }

  /** The flag over one driver pass, for every environment and every state: a pass that brings a result
      leaves the flag telling whether there is one if and only if the flag was down when it was called, and
      a pass that starts behind the delegation changes neither. */
  lemma {:induction false} PassKeepsFlag(env: Env, s: RunState)
    ensures FlagPass(s, Drive(env, s))
    decreases 12 - Rank(s.node)
  {
    hide Turn, Close;
    TurnMovesFlag(env, s);
    TurnClimbs(env, s);
    var r := Turn(env, s);
    match r.signal
    case Next =>
      PassKeepsFlag(env, r.state);
      DriveOnlyClimbs(env, r.state);
    case Return =>
    case Raise(why) => CloseFlag(r.state, why);
  }

  lemma CloseFlag(s: RunState, why: Why)
    ensures var s' := Close(s, why); s'.node == s.node && s'.fallback == s.fallback && s'.specialist == s.specialist
  {
  }

  lemma RunKeepsFlag(env: Env, s: RunState)
    requires Shape(env, s)
    ensures FlagPass(s, Run(env, s))
  {
    hide Drive, Grounded, Breaker.Consistent, ProposedFrom;
    PassKeepsFlag(env, if s.status == Created then Transition(s.(status := Running), Classify, RunStarted) else s);
  }

  lemma ResumeKeepsFlag(env: Env, s: RunState, d: Decision)
    requires Resume(env, s, d).Some?
    ensures var s' := Resume(env, s, d).value;
            s'.fallback == s.fallback && s'.specialist.Some? == s.specialist.Some? && Rank(s'.node) > 4
  {
    hide Drive, Decide;
    if d == Approved {
      PassKeepsFlag(env, Released(s));
      DriveOnlyClimbs(env, Released(s));
    }
  }

  /** The same over histories: after any calls, one more call of `run` that brings a result leaves the flag
      up if and only if it was up before the call. */
  lemma OneMoreRunKeepsFlag(env: Env, limits: Limits, ops: seq<Op>)
    requires Rank(After(env, limits, ops).node) <= 4 && After(env, limits, ops + [DoRun]).specialist.Some?
    ensures After(env, limits, ops + [DoRun]).fallback <==> After(env, limits, ops).fallback
  {
    hide Run, Shape;
    ReachableShape(env, limits, ops);
    assert (ops + [DoRun])[..|ops|] == ops;
    BeforeDelegation(env, After(env, limits, ops));
    RunKeepsFlag(env, After(env, limits, ops));
  }

  lemma BeforeDelegation(env: Env, s: RunState)
    requires Shape(env, s) && Rank(s.node) <= 4
    ensures s.specialist.None?
  {
  }

  // --------------------------------------------------------------------------------------------
  // Exactly when the flag misleads
  // --------------------------------------------------------------------------------------------

  // The call was a delegation, answered as not completed with an error that is no mapping.
  predicate BadlyRefused(env: Env, c: Call) { c.kind == Delegation && env.agent(c.tick) == NotCompleted(false) }

  ghost predicate EverBadlyRefused(env: Env, m: Meter) {
    exists c :: c in m.calls && BadlyRefused(env, c)
  }

  // The calls went on, with no delegation among the new ones.
  ghost predicate NoDelegation(m: Meter, m': Meter) {
    m.calls <= m'.calls && forall i :: |m.calls| <= i < |m'.calls| ==> m'.calls[i].kind != Delegation
  }

  lemma NoDelegationNoRefusal(env: Env, m: Meter, m': Meter)
    requires NoDelegation(m, m')
    ensures EverBadlyRefused(env, m') == EverBadlyRefused(env, m)
  {
    if EverBadlyRefused(env, m') {
      var c :| c in m'.calls && BadlyRefused(env, c);
      var i :| 0 <= i < |m'.calls| && m'.calls[i] == c;
      assert m.calls[i] == c;
    }
    assert forall c :: c in m.calls ==> c in m'.calls;
  }

  lemma ClearAndPayDelegatesNot(w: World, lim: Limits, m: Meter, k: Kind, action: Option<Tool>)
    requires k != Delegation
    ensures NoDelegation(m, ClearAndPay(w, lim, m, k, action).meter)
  {
  }

  lemma AskDelegatesNot(env: Env, s: RunState)
    ensures NoDelegation(s.meter, AskModel(env, s).0.meter)
  {
  }

  lemma {:induction false} AttemptsDelegateNot(env: Env, lim: Limits, m: Meter, attempt: nat)
    requires attempt <= MAX_READ_RETRIES
    ensures NoDelegation(m, ReadAttempts(env, lim, m, attempt).meter)
    decreases MAX_READ_RETRIES - attempt
  {
    hide ClearAndPay;
    ClearAndPayDelegatesNot(env.world, lim, m, ToolCall, None);
    var paid := ClearAndPay(env.world, lim, m, ToolCall, None);
    if paid.stop.None? && env.tool(Answer(paid.meter)).TimedOut? && attempt < MAX_READ_RETRIES {
      AttemptsDelegateNot(env, lim, paid.meter, attempt + 1);
    }
  }

  lemma McpReadDelegatesNot(env: Env, s: RunState, t: Tool)
    ensures NoDelegation(s.meter, McpRead(env, s, t).state.meter)
  {
    hide ReadAttempts;
    AttemptsDelegateNot(env, s.limits, s.meter, 0);
  }

  lemma {:induction false} ReadAllDelegatesNot(env: Env, s: RunState, tools: seq<Tool>)
    ensures NoDelegation(s.meter, ReadAll(env, s, tools).state.meter)
    decreases |tools|
  {
    hide McpRead;
    if tools != [] {
      McpReadDelegatesNot(env, s, tools[0]);
      McpReadFrame(env, s, tools[0]);
      ReadAllDelegatesNot(env, AfterRead(env, s, tools[0]), tools[1..]);
    }
  }

  lemma {:induction false} ExecuteDelegatesNot(env: Env, s: RunState, actions: seq<Action>, approved: set<Tool>)
    ensures NoDelegation(s.meter, ExecuteActions(env, s, actions, approved).state.meter)
    decreases |actions|
  {
    hide ClearAndPay;
    if actions != [] {
      var t := actions[0].tool;
      ClearAndPayDelegatesNot(env.world, s.limits, s.meter, ToolCall, Some(t));
      var paid := ClearAndPay(env.world, s.limits, s.meter, ToolCall, Some(t));
      if t !in approved {
        ExecuteDelegatesNot(env, s, actions[1..], approved);
      } else if paid.stop.None? {
        ExecuteDelegatesNot(env, Executed(s, t, paid.meter, env.tool(Answer(paid.meter)).Answered?), actions[1..],
                            approved);
      }
    }
  }

  lemma OtherNodesDelegateNot(env: Env, s: RunState)
    requires s.node != Delegate
    ensures NoDelegation(s.meter, Dispatch(env, s).state.meter)
  {
    hide AskModel, ReadAll, McpRead, CallSpecialist, ExecuteActions, Judge, AnyDenied, EmitFindings, NormaliseFrom,
         RawFindings, MaxConfidence, MentionsDeployment, Top, Conflicting, CapAll, DiscountAll, Requests,
         ApprovedTools;
    match s.node
    case Classify => AskDelegatesNot(env, s);
    case Plan => AskDelegatesNot(env, s);
    case McpReads => ReadAllDelegatesNot(env, s, READS);
    case Findings =>
      var findings := NormaliseFrom(RawFindings(env, s), 0);
      EmitFindingsOnlyLogs(s.(findings := findings), findings);
    case Policy => JudgeTicks(env, s.meter, s.actions);
    case ExecuteApproved => ExecuteDelegatesNot(env, s, s.actions, ApprovedTools(s.approvals));
    case Verify => McpReadDelegatesNot(env, s, GetHealth);
    case _ =>
  }

  // How a step may move flag and refusals: a bad refusal stops the run at the delegation with the flag up;
  // any other step that stops there leaves both; and a step that goes on refuses nothing badly.
  ghost predicate RefusalStep(env: Env, s: RunState, s': RunState, signal: Signal) {
    var before, after := EverBadlyRefused(env, s.meter), EverBadlyRefused(env, s'.meter);
    && (s.node != Delegate || signal == Next ==> after == before)
    && (s.node == Delegate && signal != Next ==>
          (s'.fallback && after) || (s'.fallback == s.fallback && after == before))
  }

  lemma DelegationIsCalled(w: World, lim: Limits, m: Meter)
    ensures var paid := ClearAndPay(w, lim, m, Delegation, None);
            && (paid.stop.Some? ==> paid.meter.calls == m.calls)
            && (paid.stop.None? ==>
                  && |paid.meter.calls| == |m.calls| + 1 && paid.meter.calls[..|m.calls|] == m.calls
                  && paid.meter.calls[|m.calls|].kind == Delegation
                  && paid.meter.calls[|m.calls|].tick == Answer(paid.meter))
  {
  }

  lemma DelegationRefuses(env: Env, s: RunState)
    requires s.node == Delegate
    ensures RefusalStep(env, s, Dispatch(env, s).state, Dispatch(env, s).signal)
  {
    hide ClearAndPay, EverBadlyRefused, ValidOutput, Breaker.Success, Breaker.Failure;
    var paid := ClearAndPay(env.world, s.limits, s.meter, Delegation, None);
    DelegationIsCalled(env.world, s.limits, s.meter);
    SameCallsSameRefusals(env, s.meter, Dispatch(env, s).state.meter);
    if paid.stop.None? {
      var c := paid.meter.calls[|s.meter.calls|];
      OneMoreCall(env, s.meter, paid.meter, c);
    }
  }

  lemma OneMoreCall(env: Env, m: Meter, m': Meter, c: Call)
    requires m'.calls == m.calls + [c]
    ensures EverBadlyRefused(env, m') <==> EverBadlyRefused(env, m) || BadlyRefused(env, c)
  {
    assert c in m'.calls && forall d :: d in m.calls ==> d in m'.calls;
  }

  lemma TurnRefuses(env: Env, s: RunState)
    ensures RefusalStep(env, s, Turn(env, s).state, Turn(env, s).signal)
  {
    hide Guard, Dispatch, EverBadlyRefused;
    GuardFrame(env, s);
    GuardCalls(env, s);
    var g := Guard(env, s);
    SameCallsSameRefusals(env, s.meter, g.state.meter);
    if !g.signal.Raise? {
      if s.node == Delegate {
        DelegationRefuses(env, g.state);
      } else {
        OtherNodesDelegateNot(env, g.state);
        NoDelegationNoRefusal(env, g.state.meter, Dispatch(env, g.state).state.meter);
      }
    }
  }

  lemma SameCallsSameRefusals(env: Env, m: Meter, m': Meter)
    ensures m'.calls == m.calls ==> EverBadlyRefused(env, m') == EverBadlyRefused(env, m)
  {
  }

  // A bad refusal always shows in the flag; and only a bad refusal does, up to the delegation and wherever there
  // is a result.
  ghost predicate FlagExplained(env: Env, s: RunState) {
    var refused := EverBadlyRefused(env, s.meter);
    && (refused ==> s.fallback)
    && (Rank(s.node) <= 4 || s.specialist.Some? ==> (s.fallback <==> refused))
  }

  lemma {:induction false} DriveExplainsFlag(env: Env, s: RunState)
    requires FlagExplained(env, s)
    ensures FlagExplained(env, Drive(env, s))
    decreases 12 - Rank(s.node)
  {
    hide Turn, Close, EverBadlyRefused;
    TurnMovesFlag(env, s);
    TurnRefuses(env, s);
    TurnClimbs(env, s);
    var r := Turn(env, s);
    match r.signal
    case Next => DriveExplainsFlag(env, r.state);
    case Return =>
    case Raise(why) => CloseFlag(r.state, why); CloseFrame(r.state, why);
  }

  lemma ApplyExplainsFlag(env: Env, s: RunState, op: Op)
    requires Shape(env, s) && FlagExplained(env, s)
    ensures FlagExplained(env, ApplyOp(env, s, op))
  {
    hide Drive, Decide, EverBadlyRefused, Grounded, Breaker.Consistent, ProposedFrom;
    match op
    case NewGraph =>
    case DoRun =>
      DriveExplainsFlag(env, if s.status == Created then Transition(s.(status := Running), Classify, RunStarted)
                             else s);
    case DoResume(d) => if d == Approved && Resume(env, s, d).Some? { DriveExplainsFlag(env, Released(s)); }
  }

  lemma {:induction false} FlagIsExplained(env: Env, limits: Limits, ops: seq<Op>)
    ensures FlagExplained(env, After(env, limits, ops))
  {
    if ops == [] {
      assert After(env, limits, ops) == NewRun(limits);
    } else {
      hide Shape, FlagExplained, ApplyOp;
      var front := ops[..|ops| - 1];
      ReachableShape(env, limits, front);
      FlagIsExplained(env, limits, front);
      ApplyExplainsFlag(env, After(env, limits, front), ops[|ops| - 1]);
    }
  }

  /** Exactly when the flag misleads, over every history: a run with a result from the specialist carries
      the flag if and only if one of its delegations was answered as not completed with an error that is no
      mapping, on which that call of the graph crashed. */
  lemma FlagMisleadsIffBadlyRefused(env: Env, limits: Limits, ops: seq<Op>)
    requires After(env, limits, ops).specialist.Some?
    ensures var s := After(env, limits, ops);
            s.fallback <==> exists c :: c in s.meter.calls && BadlyRefused(env, c)
  {
    FlagIsExplained(env, limits, ops);
  }

  /** Degraded runs never act: in one run and its resume, whatever clock and canceller do, the flag means
      there was no result from the specialist, the best confidence is at most 0.45, nothing was proposed
      and no action was invoked. */
  lemma DegradedRunsNeverAct(env: Env, limits: Limits, d: Option<Decision>)
    requires OneRun(env, limits, d).fallback
    ensures var s := OneRun(env, limits, d);
            && s.specialist.None? && MaxConfidence(s.findings) <= 0.45
            && s.actions == [] && Acted(s.meter.calls) == [] && !(7 <= Rank(s.node) <= 11)
  {
    hide Run, Resume, Held, Shape;
    var s0 := NewRun(limits);
    var s1 := Run(env, s0);
    NothingYet(env, limits);
    RunKeepsFlag(env, s0);
    RunKeepsShape(env, s0);
    RunKeepsHeld(env, s0);
    var s := OneRun(env, limits, d);
    if d.Some? && Resume(env, s1, d.value).Some? {
      ResumeKeepsFlag(env, s1, d.value);
      ResumeKeepsShape(env, s1, d.value);
      ApplyKeepsHeld(env, s1, DoResume(d.value));
      assert s == ApplyOp(env, s1, DoResume(d.value));
    }
    NoResultNoAction(env, s);
  }

  lemma NoResultNoAction(env: Env, s: RunState)
    requires Shape(env, s) && Held(s)
    ensures s.specialist.None? ==>
              && MaxConfidence(s.findings) <= 0.45 && s.actions == [] && Acted(s.meter.calls) == []
              && !(7 <= Rank(s.node) <= 11)
  {
    hide Acted, ApprovedTools, Breaker.Consistent, ProposedFrom, AllWellFormed, MaxConfidence;
  }

  // --------------------------------------------------------------------------------------------
  // The case the flag misses
  // --------------------------------------------------------------------------------------------

  const FINDING := RawFinding("High error rate", "Errors rose with the release.", [REF], 0.9)

  // Everything answers; the specialist first replies that it failed, with an error that is no mapping,
  // and on the second run it completes.
  const TWO_TRIES := Env(World(t => false, t => 0.0), t => Replied(false), t => Answered(None, Degraded, REF),
                         t => if t < 30 then NotCompleted(false) else Completed([FINDING]), t => Judged(true),
                         "checkout-api", t => true)

  // The first run fails at the delegation, with the flag up.
  lemma FirstDelegationFails(s: RunState)
    requires At(s, Delegate, 26, 2, 4, 0) && s.specialist.None?
    ensures var r := Dispatch(TWO_TRIES, s);
            r.signal == Raise(Crashed) && r.state.fallback
            && At(r.state.(breaker := Breaker.CLOSED), Delegate, 29, 2, 4, 1)
  {
  }

  lemma FirstRunFails()
    ensures var s := Run(TWO_TRIES, NewRun(DEFAULT_LIMITS));
            s.fallback && At(s.(breaker := Breaker.CLOSED), Delegate, 29, 2, 4, 1)
  {
    hide Dispatch, Guard, AllDegraded, Run;
    var s := ComesToDelegation(TWO_TRIES);
    GuardPasses(TWO_TRIES, s, Delegate, 24, 2, 4, 0);
    FirstDelegationFails(Guard(TWO_TRIES, s).state);
  }

  // The second run is delegated with success, and comes to the gate with the flag still up.
  lemma SecondDelegationPasses(s: RunState)
    requires At(s, Delegate, 31, 2, 4, 1) && s.fallback
    ensures var r := Dispatch(TWO_TRIES, s);
            r.signal == Next && At(r.state, Correlate, 34, 2, 4, 2) && r.state.fallback
            && r.state.specialist == Some([FINDING])
  {
    hide AllDegraded;
  }

  lemma CorrelationPasses(s: RunState)
    requires At(s, Correlate, 36, 2, 4, 2) && s.fallback && s.specialist == Some([FINDING])
    ensures var r := Dispatch(TWO_TRIES, s);
            r.signal == Next && At(r.state, Findings, 36, 2, 4, 2) && r.state.fallback
            && r.state.specialist == Some([FINDING.(confidence := 0.75)])
  {
    NotHealthy(s.evidence);
    assert Round2(0.9 - 0.15) == 0.75;
    assert [FINDING][1..] == [];
    assert DiscountAll([FINDING]) == [FINDING.(confidence := 0.75)];
  }

  lemma SecondRunPauses(s: RunState)
    requires At(s, Delegate, 29, 2, 4, 1) && s.fallback
    ensures var s' := Drive(TWO_TRIES, s); AwaitsApproval(s') && s'.fallback && s'.actions != []
  {
    hide Dispatch, Guard, AllDegraded, Drive, AwaitsApproval;
    GuardPasses(TWO_TRIES, s, Delegate, 29, 2, 4, 1);
    SecondDelegationPasses(Guard(TWO_TRIES, s).state);
    TurnClimbs(TWO_TRIES, s);
    var s1 := Turn(TWO_TRIES, s).state;
    GuardPasses(TWO_TRIES, s1, Correlate, 34, 2, 4, 2);
    CorrelationPasses(Guard(TWO_TRIES, s1).state);
    TurnClimbs(TWO_TRIES, s1);
    DiscountedIsTrusted();
    hide Trusted, Kept;
    ComesToTheGate(TWO_TRIES, Turn(TWO_TRIES, s1).state, 36, 2, [FINDING.(confidence := 0.75)]);
  }

  lemma DiscountedIsTrusted()
    ensures Trusted([FINDING.(confidence := 0.75)])
  {
    var f := FINDING.(confidence := 0.75);
    assert Normalised(0, f).Some? && Normalised(0, f).value.confidence == 0.75;
    OneFinding(f);
  }

  /** Run again by a new graph after the delegation crashed on a malformed error, a run can come to the
      approval gate with actions proposed and the flag up: the flag alone does not say that a run never
      acts. */
  lemma RerunAfterCrashActsDegraded()
    ensures StickyCancel(TWO_TRIES.world) && ForwardClock(TWO_TRIES.world)
    ensures var s := After(TWO_TRIES, DEFAULT_LIMITS, [DoRun, NewGraph, DoRun]);
            s.fallback && s.actions != [] && AwaitsApproval(s)
  {
    hide Drive, AllDegraded;
    FirstRunFails();
    var ops := [DoRun, NewGraph, DoRun];
    assert ops[..2] == [DoRun, NewGraph] && [DoRun, NewGraph][..1] == [DoRun] && [DoRun][..0] == [];
    assert After(TWO_TRIES, DEFAULT_LIMITS, []) == NewRun(DEFAULT_LIMITS);
    var s1 := After(TWO_TRIES, DEFAULT_LIMITS, [DoRun]);
    var s2 := After(TWO_TRIES, DEFAULT_LIMITS, [DoRun, NewGraph]);
    assert s2 == s1.(breaker := Breaker.CLOSED);
    SecondRunPauses(s2);
    assert After(TWO_TRIES, DEFAULT_LIMITS, ops) == Run(TWO_TRIES, s2);
  }
}
