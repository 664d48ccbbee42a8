/** Concrete histories in which the obvious reading of the code fails: proposals shown twice or not at all
    by the rebuilt view, an action invoked twice under a clock that steps back, and a finished run that ends
    again. */
module GraphExamples {
  import opened Wrappers
  import opened Catalog
  import Text
  import opened Budget
  import opened Graph
  import opened GraphShape
  import opened GraphActions
  import opened GraphRepeats
  import opened GraphTrace
  import opened CachedView
  import opened CalmRun

  const DEPLOYED := RawFinding("deployment", "Errors rose with the release.", [REF], 0.9)

  // A specialist's reply of `n` equal findings.
  function Copies(n: nat): (fs: seq<RawFinding>)
    ensures |fs| == n
  {
    seq(n, i => DEPLOYED)
  }

  // Everything answers, the specialist with `n` findings, and the policy allows or denies every action.
  function RulingEnv(n: nat, allowed: bool): Env {
    Env(World(t => false, t => 0.0), t => Replied(false), t => Answered(None, Degraded, REF),
        t => Completed(Copies(n)), t => Judged(allowed), "checkout-api", t => true)
  }

  const CALM := RulingEnv(1, true)
  const DENYING := RulingEnv(1, false)

  // The specialist has as much to say as fills the page of events that a view is rebuilt from.
  const TALKATIVE := RulingEnv(PAGE, true)

  // The specialist always replies with `n` findings.
  ghost predicate Says(env: Env, n: nat) {
    forall t :: env.agent(t) == Completed(Copies(n))
  }

  lemma DelegationPasses(env: Env, s: RunState, n: nat)
    requires Calm(env) && Says(env, n) && At(s, Delegate, 26, 2, 4, 0) && !s.fallback
    ensures var r := Dispatch(env, s);
            r.signal == Next && At(r.state, Correlate, 29, 2, 4, 1) && !r.state.fallback
            && r.state.specialist == Some(Copies(n))
  {
    hide AllDegraded, Copies;
    CopiesAreValid(n);
  }

  lemma CopiesAreValid(n: nat)
    ensures ValidOutput(Copies(n))
  {
  }

  lemma CorrelationPasses(env: Env, s: RunState, n: nat)
    requires At(s, Correlate, 31, 2, 4, 1) && !s.fallback && s.specialist == Some(Copies(n))
    ensures var r := Dispatch(env, s);
            r.signal == Next && At(r.state, Findings, 31, 2, 4, 1) && r.state.specialist == Some(Copies(n))
  {
    hide Copies;
    NotHealthy(s.evidence);
  }

  // Every copy is kept.
  lemma {:induction false} CopiesAreKept(n: nat, i: nat)
    requires i <= n
    ensures var kept := NormaliseFrom(Copies(n), i);
            && |kept| == n - i
            && (i < n ==> MaxConfidence(kept) >= 0.9 && kept[0].title == "deployment")
    decreases n - i
  {
    if i < n {
      CopyIsKept(i);
      CopiesAreKept(n, i + 1);
    }
  }

  lemma CopyIsKept(i: nat)
    ensures Normalised(i, DEPLOYED).Some?
    ensures var f := Normalised(i, DEPLOYED).value; f.confidence == 0.9 && f.title == "deployment"
  {
  }

  lemma CopiesAreTrusted(n: nat)
    requires n > 0
    ensures |Kept(Copies(n))| == n && Trusted(Copies(n)) && MentionsDeployment(Kept(Copies(n)))
  {
    hide NormaliseFrom, MaxConfidence, Copies;
    CopiesAreKept(n, 0);
    var f := Kept(Copies(n))[0];
    assert f.title[0..0 + |"deployment"|] == f.title;
    assert Text.IsWord(f.title, "deployment");
    assert Text.MatchesAt(f.title, 0, "deployment");
    assert f in Kept(Copies(n));
  }

  // The run comes to trusted findings.
  lemma ComesToFindings(env: Env, n: nat) returns (s: RunState)
    requires Calm(env) && Says(env, n)
    ensures At(s, Findings, 31, 2, 4, 1) && s.specialist == Some(Copies(n))
    ensures Run(env, NewRun(DEFAULT_LIMITS)) == Drive(env, s)
  {
    hide Dispatch, Guard, AllDegraded, Drive, Run, Copies, Calm, Says;
    var s0 := ComesToDelegation(env);
    GuardPasses(env, s0, Delegate, 24, 2, 4, 0);
    DelegationPasses(env, Guard(env, s0).state, n);
    TurnClimbs(env, s0);
    var s1 := Turn(env, s0).state;
    GuardPasses(env, s1, Correlate, 29, 2, 4, 1);
    CorrelationPasses(env, Guard(env, s1).state, n);
    TurnClimbs(env, s1);
    s := Turn(env, s1).state;
  }

  // With an agreeing policy it comes to the gate with a ticket and a rollback to decide.
  lemma QuietRunPauses(env: Env)
    requires Calm(env) && Says(env, 1) && Rules(env, true)
    ensures var s := Run(env, NewRun(DEFAULT_LIMITS));
            && AwaitsApproval(s) && |s.actions| == 2 && s.actions[0].tool == TicketCreate
            && s.actions[1].tool == Rollback
            && s.approvals == [Approval(TicketCreate, Pending), Approval(Rollback, Pending)]
            && s.limits == DEFAULT_LIMITS && s.meter.usage == Usage(2, 4, 1, 24, 0, 0, 1) && s.meter.tick == 41
  {
    hide AllDegraded, Drive, Run, Kept, Trusted, MentionsDeployment, Copies, Calm, Says, Rules;
    var s := ComesToFindings(env, 1);
    CopiesAreTrusted(1);
    ComesToTheGate(env, s, 31, 1, Copies(1));
    var s' := Drive(env, s);
    assert Requests(s'.actions) == [Approval(TicketCreate, Pending), Approval(Rollback, Pending)];
  }

  lemma CalmRunPauses()
    ensures var s := Run(CALM, NewRun(DEFAULT_LIMITS));
            && AwaitsApproval(s) && |s.actions| == 2 && s.actions[0].tool == TicketCreate
            && s.actions[1].tool == Rollback
            && s.approvals == [Approval(TicketCreate, Pending), Approval(Rollback, Pending)]
            && s.limits == DEFAULT_LIMITS && s.meter.usage == Usage(2, 4, 1, 24, 0, 0, 1)
  {
    hide Run, Copies;
    QuietRunPauses(CALM);
  }

  lemma TwoRuns(env: Env, limits: Limits)
    ensures After(env, limits, [DoRun]) == Run(env, NewRun(limits))
    ensures After(env, limits, [DoRun, DoRun]) == Run(env, After(env, limits, [DoRun]))
  {
    hide Run;
    assert [DoRun, DoRun][..1] == [DoRun] && [DoRun][..0] == [];
    assert After(env, limits, []) == NewRun(limits);
  }

  // Driven again where it waits, a calm run asks again.
  lemma AsksAgain(s: RunState)
    requires AwaitsApproval(s) && s.actions != [] && s.limits == DEFAULT_LIMITS
    requires s.meter.usage == Usage(2, 4, 1, 24, 0, 0, 1)
    ensures AwaitsApproval(Run(CALM, s)) && Run(CALM, s).actions == s.actions
  {
    hide Requests;
  }

  /** Run twice, a run that waits comes to the gate twice, and the view rebuilt from its events shows every
      proposal twice. */
  lemma SecondVisitDoublesProposals()
    ensures var s := After(CALM, DEFAULT_LIMITS, [DoRun, DoRun]);
            && AwaitsApproval(s) && |s.actions| == 2 && Gates(EventsOf(s.log)) == 2
            && ProposedOf(EventsOf(s.log)) == s.actions + s.actions
  {
    hide Run, Gates, EventsOf, ProposedOf, FindingsOf, AwaitsApproval, Shape;
    CalmRunPauses();
    TwoRuns(CALM, DEFAULT_LIMITS);
    var s1 := Run(CALM, NewRun(DEFAULT_LIMITS));
    FreshMirrors(CALM, DEFAULT_LIMITS);
    RunMirrors(CALM, NewRun(DEFAULT_LIMITS));
    ShapeAfterRun(CALM, DEFAULT_LIMITS);
    AsksAgain(s1);
    RunMirrors(CALM, s1);
    var s2 := Run(CALM, s1);
    ProposedRepeat(EventsOf(s2.log), s2.actions);
    assert Repeat(s1.actions, 2) == s1.actions + s1.actions by {
      assert Repeat(s1.actions, 1) == [] + s1.actions == s1.actions;
    }
  }

  lemma DeniedAtThePolicy(s: RunState)
    requires At(s, Policy, 35, 2, 4, 1) && s.actions != []
    ensures var s' := Drive(DENYING, s); s'.node == Complete && s'.actions == s.actions && !AwaitsApproval(s')
  {
    hide Dispatch, Guard, AllDegraded, Drive;
    GuardPasses(DENYING, s, Policy, 35, 2, 4, 1);
    PolicyDenies(DENYING, Guard(DENYING, s).state);
    assert Drive(DENYING, s) == Turn(DENYING, s).state by { ReturnsAtOnce(DENYING, s); }
  }

  lemma ReturnsAtOnce(env: Env, s: RunState)
    requires Turn(env, s).signal == Return
    ensures Drive(env, s) == Turn(env, s).state
  {
  }

  /** A run denied by the policy has proposals that the view rebuilt from its events does not show. */
  lemma DeniedRunHidesProposals()
    ensures var s := After(DENYING, DEFAULT_LIMITS, [DoRun]);
            s.actions != [] && Gates(EventsOf(s.log)) == 0 && ProposedOf(EventsOf(s.log)) == []
  {
    hide Run, Drive, Gates, EventsOf, ProposedOf, FindingsOf, AwaitsApproval, Shape, Kept, Trusted,
         MentionsDeployment, Copies;
    TwoRuns(DENYING, DEFAULT_LIMITS);
    var s := ComesToFindings(DENYING, 1);
    CopiesAreTrusted(1);
    var s' := ComesToThePolicy(DENYING, s, 31, 1, Copies(1));
    DeniedAtThePolicy(s');
    FreshMirrors(DENYING, DEFAULT_LIMITS);
    RunMirrors(DENYING, NewRun(DEFAULT_LIMITS));
    var s'' := Run(DENYING, NewRun(DEFAULT_LIMITS));
    ProposedRepeat(EventsOf(s''.log), s''.actions);
  }

  // A run's rows as the API writes them: the gateway's own start of the run, then the graph's events as
  // they are.
  const PLAIN := Redaction(f => f, a => a)

  function GraphRows(events: seq<Event>): seq<Row> { MapAll(e => FromGraph(e), events) }

  function ApiRows(events: seq<Event>): seq<Row> { [FromGateway(RunStarted)] + GraphRows(events) }

  lemma {:induction false} ApiRowsPersist(events: seq<Event>)
    ensures Persists(PLAIN, ApiRows(events), events)
  {
    var rows := ApiRows(events);
    if events == [] {
      assert rows == [FromGateway(RunStarted)] && rows[..0] == [];
    } else {
      var front, last := events[..|events| - 1], events[|events| - 1];
      ApiRowsPersist(front);
      assert rows[..|rows| - 1] == ApiRows(front);
      assert RedactEvent(PLAIN, last) == last by {
        if last.ApprovalRequired? { assert MapAll(PLAIN.action, last.actions) == last.actions; }
      }
    }
  }

  lemma LastRow(events: seq<Event>)
    requires events != []
    ensures var rows := RowEvents(ApiRows(events));
            rows != [] && rows[|rows| - 1] == events[|events| - 1]
  {
  }

  lemma {:induction false} FindingsAreEvents(events: seq<Event>)
    ensures |FindingsOf(events)| <= |events|
  {
    if events != [] { FindingsAreEvents(events[..|events| - 1]); }
  }

  // Events that end at the first gate, behind a page full of findings.
  lemma GateBehindThePage(events: seq<Event>)
    requires events != [] && events[|events| - 1].ApprovalRequired?
    requires Gates(events) == 1 && |FindingsOf(events)| >= PAGE
    ensures |events| > PAGE && ProposedOf(events[..PAGE]) == []
  {
    var front := events[..|events| - 1];
    FindingsAreEvents(front);
    assert AskedOf(front) == [];
    ViewOfPrefix(front, PAGE);
    assert front[..PAGE] == events[..PAGE];
    ProposedRepeat(events[..PAGE], []);
  }

  /** A run that waits for two approvals, behind a specialist's reply of 1000 findings: it came to the gate once,
      and the view rebuilt from its first 1000 events shows no proposal. */
  lemma LateGateHidesProposals()
    ensures var s := After(TALKATIVE, DEFAULT_LIMITS, [DoRun]);
            var rows := ApiRows(EventsOf(s.log));
            && AwaitsApproval(s) && |s.actions| == 2 && Gates(EventsOf(s.log)) == 1
            && Persists(PLAIN, rows, EventsOf(s.log)) && ProposedOf(FirstPage(rows)) == []
  {
    hide Run, Drive, Gates, EventsOf, ProposedOf, FindingsOf, AwaitsApproval, Shape, Kept, Trusted,
         MentionsDeployment, Copies, Requests, Persists, ApiRows;
    TwoRuns(TALKATIVE, DEFAULT_LIMITS);
    var s0 := ComesToFindings(TALKATIVE, PAGE);
    CopiesAreTrusted(PAGE);
    ComesToTheGate(TALKATIVE, s0, 31, 1, Copies(PAGE));
    var s := Run(TALKATIVE, NewRun(DEFAULT_LIMITS));
    FreshMirrors(TALKATIVE, DEFAULT_LIMITS);
    RunMirrors(TALKATIVE, NewRun(DEFAULT_LIMITS));
    LastEvent(s.log);
    var rows := ApiRows(EventsOf(s.log));
    ApiRowsPersist(EventsOf(s.log));
    LastRow(EventsOf(s.log));
    RebuiltFromRows(PLAIN, rows, EventsOf(s.log));
    PageRepeats(s, PLAIN, rows);
    GateBehindThePage(RowEvents(rows));
  }

  lemma LastEvent(log: seq<Stamped>)
    requires log != []
    ensures EventsOf(log)[|log| - 1] == log[|log| - 1].event
  {
  }

  // --------------------------------------------------------------------------------------------
  // A clock that steps back
  // --------------------------------------------------------------------------------------------

  // One look at the clock, at the budget check before the second action, finds the ten minutes used up; the
  // next ones do not.
  const JUMPY := CALM.(world := World(t => false, t => if t == QUIET then 601.0 else 0.0))

  predicate Roomy(u: Usage) { u.toolCalls <= 10 && u == Usage(2, u.toolCalls, 1, 20 + u.toolCalls, 0, 0, 1) }

  lemma JumpyPays(m: Meter, t: Tool)
    requires Roomy(m.usage)
    ensures var paid := ClearAndPay(JUMPY.world, DEFAULT_LIMITS, m, ToolCall, Some(t));
            && paid.meter.usage == Usage(2, m.usage.toolCalls + 1, 1, m.usage.cost + 1, 0, 0, 1)
            && if m.tick + 1 == QUIET then paid.stop == Some(OverBudget(OverDuration)) && paid.meter.tick == m.tick + 2
               else paid.stop.None? && paid.meter.tick == m.tick + 3
  {
  }

  lemma JumpyGuards(s: RunState)
    requires Roomy(s.meter.usage) && s.limits == DEFAULT_LIMITS && s.meter.tick + 1 != QUIET
    ensures var g := Guard(JUMPY, s);
            g.signal == Next && g.state.meter.usage == s.meter.usage && g.state.meter.tick == s.meter.tick + 2
  {
  }

  // A run with a ticket and a rollback approved, at the execution.
  predicate SetsOut(s: RunState, tick: nat) {
    && s.node == ExecuteApproved && s.status != Created && s.limits == DEFAULT_LIMITS && s.meter.tick == tick
    && |s.actions| == 2 && s.actions[0].tool == TicketCreate && s.actions[1].tool == Rollback
    && s.approvals == [Approval(TicketCreate, Approved), Approval(Rollback, Approved)]
  }

  lemma BothWanted(s: RunState)
    requires SetsOut(s, s.meter.tick)
    ensures ApprovedTools(s.approvals) == {TicketCreate, Rollback}
    ensures WantedOf(s) == [TicketCreate, Rollback]
  {
    assert s.approvals[0] in s.approvals && s.approvals[1] in s.approvals;
    var approved := ApprovedTools(s.approvals);
    assert approved == {TicketCreate, Rollback};
    var rest := s.actions[1..];
    assert rest == [s.actions[1]] && rest[1..] == [];
    assert Wanted(rest[1..], approved) == [];
    assert Wanted(rest, approved) == [Rollback];
  }

  // Of both actions, what is let through at tick 41 and at tick 48.
  lemma JumpyLetsThrough(s: RunState)
    requires SetsOut(s, s.meter.tick) && Roomy(s.meter.usage) && s.meter.usage.toolCalls <= 6
    requires s.meter.tick == 41 || s.meter.tick >= QUIET
    ensures LetThrough(JUMPY, s) == if s.meter.tick == 41 then [TicketCreate] else [TicketCreate, Rollback]
  {
    hide Guard, ClearAndPay, Wanted, ApprovedTools;
    BothWanted(s);
    JumpyGuards(s);
    var m := Guard(JUMPY, s).state.meter;
    JumpyPays(m, TicketCreate);
    var paid := ClearAndPay(JUMPY.world, DEFAULT_LIMITS, m, ToolCall, Some(TicketCreate));
    JumpyPays(paid.meter, Rollback);
    var last := ClearAndPay(JUMPY.world, DEFAULT_LIMITS, paid.meter, ToolCall, Some(Rollback)).meter;
    assert [TicketCreate, Rollback] == [TicketCreate] + [Rollback] && [Rollback] == [Rollback] + [];
    PassingStep(JUMPY.world, DEFAULT_LIMITS, m, TicketCreate, [Rollback]);
    PassingStep(JUMPY.world, DEFAULT_LIMITS, paid.meter, Rollback, []);
    NothingPasses(JUMPY.world, DEFAULT_LIMITS, last);
  }

  // Sent off at tick 41, the run stops for the time before its second action, and stays at the execution.
  lemma JumpyStops(s: RunState)
    requires SetsOut(s, 41) && Roomy(s.meter.usage) && s.meter.usage.toolCalls == 4
    ensures var s' := Drive(JUMPY, s); SetsOut(s', 48) && Roomy(s'.meter.usage) && s'.meter.usage.toolCalls == 6
  {
    hide Guard, ClearAndPay, Wanted, ApprovedTools, Executed;
    BothWanted(s);
    JumpyGuards(s);
    GuardFrame(JUMPY, s);
    var g := Guard(JUMPY, s).state;
    JumpyPays(g.meter, TicketCreate);
    var paid := ClearAndPay(JUMPY.world, DEFAULT_LIMITS, g.meter, ToolCall, Some(TicketCreate));
    var s1 := Executed(g, TicketCreate, paid.meter, true);
    ExecutedFrame(g, TicketCreate, paid.meter, true);
    JumpyPays(paid.meter, Rollback);
    var rest := g.actions[1..];
    assert rest == [g.actions[1]];
    var r := ExecuteActions(JUMPY, s1, rest, {TicketCreate, Rollback});
    assert r.signal == Raise(OverBudget(OverDuration)) && r.state == s1.(meter := r.state.meter);
    assert ExecuteActions(JUMPY, g, g.actions, {TicketCreate, Rollback}) == r;
    assert Turn(JUMPY, s) == r;
  }

  lemma JumpyIsReleased(s: RunState)
    requires AwaitsApproval(s) && |s.actions| == 2 && s.actions[0].tool == TicketCreate && s.actions[1].tool == Rollback
    requires s.approvals == [Approval(TicketCreate, Pending), Approval(Rollback, Pending)]
    requires s.limits == DEFAULT_LIMITS && s.meter.tick == 41
    ensures SetsOut(Released(s), 41) && Released(s).meter == s.meter
    ensures Resume(JUMPY, s, Approved) == Some(Drive(JUMPY, Released(s)))
  {
    hide Drive;
    assert s.approvals[1..] == [s.approvals[1]] && s.approvals[1..][1..] == [];
  }

  // Released, stopped, and run again.
  lemma JumpyStartsOver(s: RunState)
    requires Shape(JUMPY, s) && SetsOut(s, 41) && Roomy(s.meter.usage) && s.meter.usage.toolCalls == 4
    requires Acted(s.meter.calls) == []
    ensures Acted(Run(JUMPY, Drive(JUMPY, s)).meter.calls) == [TicketCreate, TicketCreate, Rollback]
  {
    hide Shape, Drive, Acted, LetThrough, Copies;
    JumpyStops(s);
    JumpyLetsThrough(s);
    ExecutionInvokes(JUMPY, s);
    RunKeepsShape(JUMPY, s);
    assert Run(JUMPY, s) == Drive(JUMPY, s);
    var s' := Drive(JUMPY, s);
    JumpyLetsThrough(s');
    ExecutionInvokes(JUMPY, s');
  }

  lemma RunResumeRun(env: Env, limits: Limits)
    requires Resume(env, Run(env, NewRun(limits)), Approved).Some?
    ensures After(env, limits, [DoRun, DoResume(Approved), DoRun])
            == Run(env, Resume(env, Run(env, NewRun(limits)), Approved).value)
  {
    hide Run, Resume;
    var two, three := [DoRun, DoResume(Approved)], [DoRun, DoResume(Approved), DoRun];
    assert three[..2] == two && two[..1] == [DoRun];
    TwoRuns(env, limits);
  }

  /** A clock that steps back makes an approved action run twice: stopped for the time after its first action, the
      run is called again, and starts over with the first. */
  lemma ClockStepsBackActsTwice()
    ensures Acted(After(JUMPY, DEFAULT_LIMITS, [DoRun, DoResume(Approved), DoRun]).meter.calls)
            == [TicketCreate, TicketCreate, Rollback]
    ensures StickyCancel(JUMPY.world) && !TimeoutLasts(JUMPY.world, DEFAULT_LIMITS)
  {
    assert JUMPY.world.elapsed(QUIET) > 600.0 >= JUMPY.world.elapsed(QUIET + 1);
    var s := Run(JUMPY, NewRun(DEFAULT_LIMITS));
    QuietRunPauses(JUMPY);
    hide Run, Resume, Drive, Shape, Acted, TimeoutLasts, StickyCancel, Decide, Calm, Rules, Says, Copies;
    NothingYetAtTheGate(s);
    JumpyIsReleased(s);
    RunResumeRun(JUMPY, DEFAULT_LIMITS);
    JumpyStartsOver(Released(s));
  }

  lemma NothingYetAtTheGate(s: RunState)
    requires s == Run(JUMPY, NewRun(DEFAULT_LIMITS)) && AwaitsApproval(s)
    ensures Shape(JUMPY, Released(s)) && Acted(s.meter.calls) == []
  {
    hide Run, Shape;
    TwoRuns(JUMPY, DEFAULT_LIMITS);
    ReachableShape(JUMPY, DEFAULT_LIMITS, [DoRun]);
    ReachableHeld(JUMPY, DEFAULT_LIMITS, [DoRun]);
    ReleasedShape(JUMPY, s);
  }

  /** A finished run that is run again ends again: it has two terminal events. */
  lemma FinishedRunEndsTwice()
    ensures var s := After(CALM, DEFAULT_LIMITS, [DoRun, DoResume(RejectedByHuman), DoRun]);
            Terminals(s.log) == 2
    ensures After(CALM, DEFAULT_LIMITS, [DoRun, DoResume(RejectedByHuman)]).status == StatusCompleted
  {
    hide Run, Decide, Terminals, LogOk, Excess, EndsTerminal;
    var two, three := [DoRun, DoResume(RejectedByHuman)], [DoRun, DoResume(RejectedByHuman), DoRun];
    assert three[..2] == two && two[..1] == [DoRun];
    TwoRuns(CALM, DEFAULT_LIMITS);
    CalmRunPauses();
    var s1, s2 := After(CALM, DEFAULT_LIMITS, [DoRun]), After(CALM, DEFAULT_LIMITS, two);
    TraceGrammar(CALM, DEFAULT_LIMITS, None);
    EveryCallEndsOnce(CALM, DEFAULT_LIMITS, [DoRun], DoResume(RejectedByHuman));
    assert s2 == Resume(CALM, s1, RejectedByHuman).value;
    EveryCallEndsOnce(CALM, DEFAULT_LIMITS, two, DoRun);
    StaysComplete(CALM, s2);
    assert After(CALM, DEFAULT_LIMITS, three) == Run(CALM, s2);
  }

  lemma StaysComplete(env: Env, s: RunState)
    requires s.node == Complete && s.status != Created
    ensures !AwaitsApproval(Run(env, s))
  {
    hide Drive;
    DriveOnlyClimbs(env, s);
  }
}
