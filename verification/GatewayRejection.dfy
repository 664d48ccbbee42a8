/** Rejecting through the gateway. The graph's own resume ends a rejected run for good; the gateway leaves
    it at the approval gate, so another of its approvals can still set it going. */
module GatewayRejection {
  import opened Wrappers
  import opened Catalog
  import Text
  import opened Budget
  import opened Graph
  import opened GraphLedger
  import opened GraphShape
  import opened GraphActions
  import opened GraphRepeats
  import opened GraphExamples
  import opened Gateway
  import opened GatewaySafety
  import opened GatewayOnce
  import Breaker

  // --------------------------------------------------------------------------------------------
  // Exactly when an approval at the gate acts
  // --------------------------------------------------------------------------------------------

  lemma SentOffActs(env: Env, s: RunState)
    requires Shape(env, s) && s.node == ExecuteApproved && Acted(s.meter.calls) == []
    ensures Acted(Drive(env, s).meter.calls) == LetThrough(env, s)
  {
    hide Shape, Drive, Acted, LetThrough;
    ExecutionInvokes(env, s);
  }

  // The cached state as the gateway sends it off once the row is decided, with a new graph object.
  function SentOff(sys: System, run: RunId): RunState
    requires run in sys.states
  {
    sys.states[run].(approvals := Synced(sys.rows, run, sys.states[run].approvals), node := ExecuteApproved,
                     status := Running, breaker := Breaker.CLOSED)
  }

  /** Exactly what an approval does: whatever status and outcome a run at the gate shows, earlier rejections
      and approvals included, approving an action in time invokes of the actions approved by then, in
      proposed order, those and only those that the driver's checks and the ledger let through. */
  lemma ApprovalAtTheGateInvokes(env: RunId -> Env, sys: System, req: Request)
    requires InOrder(env, sys)
    requires req.Decide? && req.decision == Approved && req.id.run == req.path && req.path in sys.states
    requires DecideRow(sys, req.id, req.tenant, Approved, req.approver, req.now).1 == Accepted
             && (req.id, req.key) !in sys.replies
    requires Text.Strip(req.approver) != "" && req.key != ""
    requires sys.states[req.path].node == ApprovalPause
    ensures var decided := DecideRow(sys, req.id, req.tenant, Approved, req.approver, req.now).0;
            Handle(env, sys, req).0.trace
            == decided.trace + Invocations(req.path, LetThrough(EnvFor(env, sys, req.path), SentOff(decided, req.path)))
  {
    var run := req.path;
    var decided := DecideRow(sys, req.id, req.tenant, Approved, req.approver, req.now).0;
    var told := decided.(replies := decided.replies[(req.id, req.key) := Outcome(req.id, run, Approved, req.approver)]);
    AcceptedResumes(env, sys, req);
    hide Handle;
    OrderOf(env, sys, run);
    hide InOrder, Text.Strip, Synced, Acted, Wanted, ApprovedTools, LetThrough, Drive, Persist, Shape, LedgerInv,
         Invocations, Raised, MaybeResume, DecideRow, EnvFor, FlagOf;
    var e := EnvFor(env, sys, run);
    SentOffInOrder(e, sys.states[run], Synced(decided.rows, run, sys.states[run].approvals), FlagOf(sys, run));
    SentOffActs(e, SentOff(decided, run));
    TraceOfResume(e, told, run, req.now, req.lost);
  }

  // A decision that is accepted on its own path goes on to the resume, in the environment of before.
  lemma AcceptedResumes(env: RunId -> Env, sys: System, req: Request)
    requires req.Decide? && req.decision == Approved && req.id.run == req.path && req.path in sys.states
    requires DecideRow(sys, req.id, req.tenant, Approved, req.approver, req.now).1 == Accepted
             && (req.id, req.key) !in sys.replies
    requires Text.Strip(req.approver) != "" && req.key != ""
    ensures var decided := DecideRow(sys, req.id, req.tenant, Approved, req.approver, req.now).0;
            var outcome := Outcome(req.id, req.path, Approved, req.approver);
            var told := decided.(replies := decided.replies[(req.id, req.key) := outcome]);
            && decided.states == sys.states
            && Handle(env, sys, req).0
               == MaybeResume(EnvFor(env, sys, req.path), told, req.path, Approved, req.now, req.lost)
  {
    hide Text.Strip, MaybeResume, Raised;
  }

  // Being sent off keeps a state in order.
  lemma SentOffInOrder(env: Env, s: RunState, approvals: seq<Approval>, flag: Option<nat>)
    requires RunInOrder(env, s, flag) && s.node == ApprovalPause
    ensures var off :=
              s.(approvals := approvals, node := ExecuteApproved, status := Running, breaker := Breaker.CLOSED);
            Shape(env, off) && Acted(off.meter.calls) == []
  {
    var synced := s.(approvals := approvals);
    GatewayKeepsOrder(env, s, approvals, flag);
    GatewayKeepsOrder(env, synced, approvals, flag);
    GatewayKeepsOrder(env, synced.(node := ExecuteApproved, status := Running), approvals, flag);
    hide LedgerInv, Shape, Acted;
  }

  lemma TraceOfResume(env: Env, sys: System, run: RunId, now: real, lost: set<ApprovalId>)
    requires run in sys.states && sys.states[run].node == ApprovalPause && Acted(sys.states[run].meter.calls) == []
    ensures MaybeResume(env, sys, run, Approved, now, lost).trace
            == sys.trace + Invocations(run, Acted(Drive(env, SentOff(sys, run)).meter.calls))
  {
    hide Acted, Drive, Synced, Persist, Invocations;
    var off := SentOff(sys, run);
    assert Run(env, off) == Drive(env, off);
    var acted := Acted(Drive(env, off).meter.calls);
    assert acted[0..] == acted;
  }

  // --------------------------------------------------------------------------------------------
  // A run that is rejected and acts
  // --------------------------------------------------------------------------------------------

  const TICKET := ApprovalId(0, TicketCreate)
  const ROLLBACK := ApprovalId(0, Rollback)

  const REJECT_TICKET := Decide(0, TICKET, 0, RejectedByHuman, "lead", "k1", 60.0, {})
  const APPROVE_ROLLBACK := Decide(0, ROLLBACK, 0, Approved, "lead", "k2", 120.0, {})

  const EVERY_RUN_CALM: RunId -> Env := run => CALM

  const SETUP: seq<Request> :=
    [CreateRun(0, 0, DEFAULT_LIMITS), CreateRun(1, 0, DEFAULT_LIMITS), ExecuteRun(0, 0.0, {})]

  const ASKED := ApprovalRow(Pending, 0.0, 1800.0, None, "")

  // Two pending approvals of a run at the gate that has invoked nothing.
  predicate Waits(sys: System) {
    && sys.runs == map[0 := 0, 1 := 0] && 0 in sys.states && sys.flagged == map[] && sys.replies == map[]
    && sys.rows == map[TICKET := ASKED, ROLLBACK := ASKED] && sys.trace == []
    && sys.states[0] == Run(CALM, NewRun(DEFAULT_LIMITS))
  }

  // Saving the run's two requests inserts two pending rows.
  lemma SavingAsks(sys: System, s: RunState)
    requires sys.rows == map[] && sys.asked == map[]
    requires s.approvals == [Approval(TicketCreate, Pending), Approval(Rollback, Pending)]
    ensures Persist(sys, s, 0, 0.0, {}).rows == map[TICKET := ASKED, ROLLBACK := ASKED]
  {
    hide IdsOf, FirstDecision;
    TwoAsked(s.approvals);
  }

  lemma TwoAsked(approvals: seq<Approval>)
    requires approvals == [Approval(TicketCreate, Pending), Approval(Rollback, Pending)]
    ensures IdsOf(0, approvals) == {TICKET, ROLLBACK}
    ensures FirstDecision(approvals, TicketCreate) == FirstDecision(approvals, Rollback) == Pending
  {
    assert approvals[0] in approvals && approvals[1] in approvals;
    assert approvals[1..] == [Approval(Rollback, Pending)];
  }

  lemma CreatedOnly()
    ensures AfterRequests(EVERY_RUN_CALM, SETUP[..2])
            == EMPTY.(runs := map[0 := 0, 1 := 0],
                      states := map[0 := NewRun(DEFAULT_LIMITS), 1 := NewRun(DEFAULT_LIMITS)])
  {
    var first, two := SETUP[..1], SETUP[..2];
    assert first == [CreateRun(0, 0, DEFAULT_LIMITS)] && first[..0] == [];
    assert two == [CreateRun(0, 0, DEFAULT_LIMITS), CreateRun(1, 0, DEFAULT_LIMITS)] && two[..1] == first;
    assert AfterRequests(EVERY_RUN_CALM, []) == EMPTY;
    UnfoldRequests(EVERY_RUN_CALM, first);
    UnfoldRequests(EVERY_RUN_CALM, two);
  }

  lemma SetupWaits()
    ensures Waits(AfterRequests(EVERY_RUN_CALM, SETUP))
  {
    hide Run, Acted, Persist, AfterRequests;
    CalmRunPauses();
    CreatedOnly();
    var sys0 := AfterRequests(EVERY_RUN_CALM, SETUP[..2]);
    var s0, s1 := NewRun(DEFAULT_LIMITS), Run(CALM, NewRun(DEFAULT_LIMITS));
    assert s0.(breaker := Breaker.CLOSED) == s0;
    NothingActedYet(s1);
    assert Invocations(0, []) == [];
    SavingAsks(sys0, s1);
    SaveFrame(sys0, s1, 0, 0.0, {});
    ExecuteIsThird(sys0);
  }

  lemma ExecuteIsThird(sys: System)
    requires sys == AfterRequests(EVERY_RUN_CALM, SETUP[..2]) && 0 in sys.states && sys.flagged == map[]
    ensures AfterRequests(EVERY_RUN_CALM, SETUP) == RunGraph(CALM, sys, 0, sys.states[0], 0.0, {})
  {
    hide RunGraph;
    assert SETUP[..|SETUP| - 1] == SETUP[..2];
  }

  lemma NothingActedYet(s: RunState)
    requires s == Run(CALM, NewRun(DEFAULT_LIMITS)) && s.node == ApprovalPause
    ensures NewlyActed(NewRun(DEFAULT_LIMITS), s) == [] && Acted(s.meter.calls) == []
  {
    hide Run, Shape;
    FreshIsInOrder(CALM, DEFAULT_LIMITS);
    RunActsPastTheGate(CALM, NewRun(DEFAULT_LIMITS));
  }

  lemma LeadIsAName()
    ensures Text.Strip("lead") == "lead"
  {
  }

  lemma SavingAgainInsertsNothing(sys: System, s: RunState, now: real)
    requires TICKET in sys.rows && ROLLBACK in sys.rows
    requires |s.approvals| == 2 && s.approvals[0].action == TicketCreate && s.approvals[1].action == Rollback
    ensures Persist(sys, s, 0, now, {}).rows == sys.rows
  {
    assert IdsOf(0, s.approvals) == {TICKET, ROLLBACK};
  }

  const TICKET_REJECTED := ApprovalRow(RejectedByHuman, 0.0, 1800.0, Some(60.0), "lead")

  lemma TicketIsRejected(sys: System)
    requires Waits(sys)
    ensures var (decided, response) := DecideRow(sys, TICKET, 0, RejectedByHuman, "lead", 60.0);
            && response == Accepted
            && decided == sys.(rows := map[TICKET := TICKET_REJECTED, ROLLBACK := ASKED],
                               trace := [Committed(TICKET, RejectedByHuman, 60.0, 1800.0)])
  {
  }

  // The rejection is committed, and the run stays at the gate.
  lemma RejectionLeavesItAtTheGate(sys: System)
    requires Waits(sys)
    ensures var sys' := Handle(EVERY_RUN_CALM, sys, REJECT_TICKET).0;
            && sys'.trace == [Committed(TICKET, RejectedByHuman, 60.0, 1800.0)]
            && sys'.rows == map[TICKET := TICKET_REJECTED, ROLLBACK := ASKED]
            && sys'.runs == sys.runs && sys'.flagged == sys.flagged && sys'.replies.Keys == {(TICKET, "k1")}
            && 0 in sys'.states
            && sys'.states[0]
               == sys.states[0].(approvals := [Approval(TicketCreate, RejectedByHuman), Approval(Rollback, Pending)],
                                                status := StatusCompleted, verdict := Some(Rejected))
  {
    hide Run, Text.Strip, DecideRow, Persist, Synced, RunGraph;
    LeadIsAName();
    CalmRunPauses();
    TicketIsRejected(sys);
    var decided := DecideRow(sys, TICKET, 0, RejectedByHuman, "lead", 60.0).0;
    SyncedPair(decided.rows, Pending, Pending);
    var told := decided.(replies := decided.replies[(TICKET, "k1") := Outcome(TICKET, 0, RejectedByHuman, "lead")]);
    var s := sys.states[0].(approvals := [Approval(TicketCreate, RejectedByHuman), Approval(Rollback, Pending)]);
    var synced := told.(states := told.states[0 := s]);
    var ended := s.(status := StatusCompleted, verdict := Some(Rejected));
    SavingAgainInsertsNothing(synced, ended, 60.0);
    SaveFrame(synced, ended, 0, 60.0, {});
  }

  lemma SyncedPair(rows: map<ApprovalId, ApprovalRow>, d: Decision, e: Decision)
    requires TICKET in rows && ROLLBACK in rows
    ensures Synced(rows, 0, [Approval(TicketCreate, d), Approval(Rollback, e)])
            == [Approval(TicketCreate, rows[TICKET].decision), Approval(Rollback, rows[ROLLBACK].decision)]
  {
    var pair := [Approval(TicketCreate, d), Approval(Rollback, e)];
    assert pair[..1] == [pair[0]] && [pair[0]][..0] == [];
    assert Synced(rows, 0, []) == [];
    assert Synced(rows, 0, [pair[0]]) == [Approval(TicketCreate, rows[TICKET].decision)];
  }

  // With the ticket rejected and the rollback approved, the rollback alone is wanted.
  lemma RollbackIsWanted(s: RunState)
    requires |s.actions| == 2 && s.actions[0].tool == TicketCreate && s.actions[1].tool == Rollback
    requires s.approvals == [Approval(TicketCreate, RejectedByHuman), Approval(Rollback, Approved)]
    ensures WantedOf(s) == [Rollback]
  {
    var approved := ApprovedTools(s.approvals);
    assert s.approvals[1] in s.approvals;
    assert approved == {Rollback};
    var a, b := s.actions[0], s.actions[1];
    assert s.actions[1..] == [b] && [b][1..] == [];
    assert Wanted([], approved) == [];
    assert Wanted([b], approved) == [Rollback];
  }

  lemma CalmLetsThrough(s: RunState)
    requires s.limits == DEFAULT_LIMITS && s.meter.usage == Usage(2, 4, 1, 24, 0, 0, 1) && WantedOf(s) == [Rollback]
    ensures LetThrough(CALM, s) == [Rollback]
  {
    hide Wanted, ApprovedTools;
    assert [Rollback][1..] == [];
  }

  // The state before the second decision, and what it brings.
  lemma RollbackIsApproved(sys: System)
    requires InOrder(EVERY_RUN_CALM, sys)
    requires sys.trace == [Committed(TICKET, RejectedByHuman, 60.0, 1800.0)]
    requires sys.rows == map[TICKET := TICKET_REJECTED, ROLLBACK := ASKED]
    requires sys.runs == map[0 := 0, 1 := 0] && sys.flagged == map[] && sys.replies.Keys == {(TICKET, "k1")}
             && 0 in sys.states
    requires var s := sys.states[0];
             && s.approvals == [Approval(TicketCreate, RejectedByHuman), Approval(Rollback, Pending)]
             && s.node == ApprovalPause
             && |s.actions| == 2 && s.actions[0].tool == TicketCreate && s.actions[1].tool == Rollback
             && s.limits == DEFAULT_LIMITS && s.meter.usage == Usage(2, 4, 1, 24, 0, 0, 1)
    ensures Handle(EVERY_RUN_CALM, sys, APPROVE_ROLLBACK).0.trace
            == sys.trace + [Committed(ROLLBACK, Approved, 120.0, 1800.0), Invoked(0, Rollback)]
  {
    hide Run, Text.Strip, InOrder, LetThrough, WantedOf, Handle, Synced;
    LeadIsAName();
    var (decided, response) := DecideRow(sys, ROLLBACK, 0, Approved, "lead", 120.0);
    assert decided.rows[ROLLBACK].decision == Approved && decided.rows[TICKET].decision == RejectedByHuman;
    SyncedPair(decided.rows, RejectedByHuman, Pending);
    var off := SentOff(decided, 0);
    RollbackIsWanted(off);
    ApprovalAtTheGateInvokes(EVERY_RUN_CALM, sys, APPROVE_ROLLBACK);
    CalmLetsThrough(off);
    assert Invocations(0, [Rollback]) == [Invoked(0, Rollback)] by { assert [Rollback][..0] == []; }
  }

  /** A run rejected through the gateway can act: its ticket is rejected, then its rollback approved, and
      the rollback is invoked. */
  lemma RejectedThroughTheGatewayStillActs()
    ensures AfterRequests(EVERY_RUN_CALM, SETUP + [REJECT_TICKET, APPROVE_ROLLBACK]).trace
            == [Committed(TICKET, RejectedByHuman, 60.0, 1800.0), Committed(ROLLBACK, Approved, 120.0, 1800.0),
                Invoked(0, Rollback)]
  {
    hide Run, InOrder, Handle;
    var two := [REJECT_TICKET, APPROVE_ROLLBACK];
    assert two[..1] == [REJECT_TICKET] && [REJECT_TICKET][..0] == [] && SETUP + [] == SETUP;
    LastRequest(EVERY_RUN_CALM, SETUP, two);
    LastRequest(EVERY_RUN_CALM, SETUP, [REJECT_TICKET]);
    SetupWaits();
    CalmRunPauses();
    RejectionLeavesItAtTheGate(AfterRequests(EVERY_RUN_CALM, SETUP));
    ReachableInOrder(EVERY_RUN_CALM, SETUP + [REJECT_TICKET]);
    RollbackIsApproved(AfterRequests(EVERY_RUN_CALM, SETUP + [REJECT_TICKET]));
  }

  // --------------------------------------------------------------------------------------------
  // A decision that is refused and stands
  // --------------------------------------------------------------------------------------------

  const ON_THE_WRONG_PATH := Decide(1, TICKET, 0, Approved, "lead", "k1", 60.0, {})
  const ON_THE_RIGHT_PATH := Decide(0, TICKET, 0, Approved, "lead", "k2", 120.0, {})

  lemma WrongPathIsRefused(sys: System)
    requires Waits(sys)
    ensures var (sys', response) := Handle(EVERY_RUN_CALM, sys, ON_THE_WRONG_PATH);
            && response == NotFound && sys'.trace == [Committed(TICKET, Approved, 60.0, 1800.0)]
            && sys'.states == sys.states && sys'.rows[TICKET].decision == Approved
            && Handle(EVERY_RUN_CALM, sys', ON_THE_RIGHT_PATH) == (sys', AlreadyDecided)
  {
    hide Run, Text.Strip, MaybeResume;
    LeadIsAName();
  }

  /** An approval sent on the path of another run of the tenant is answered "not found" but stands: the row is
      approved, the run waits on, and the same approval sent again on the right path is answered as already
      decided. */
  lemma RefusedApprovalStands()
    ensures var sys := AfterRequests(EVERY_RUN_CALM, SETUP);
            var sys' := AfterRequests(EVERY_RUN_CALM, SETUP + [ON_THE_WRONG_PATH]);
            && Handle(EVERY_RUN_CALM, sys, ON_THE_WRONG_PATH).1 == NotFound
            && sys'.trace == [Committed(TICKET, Approved, 60.0, 1800.0)]
            && 0 in sys'.states && AwaitsApproval(sys'.states[0])
            && Handle(EVERY_RUN_CALM, sys', ON_THE_RIGHT_PATH) == (sys', AlreadyDecided)
  {
    hide Run, Handle;
    SetupWaits();
    CalmRunPauses();
    LastRequest(EVERY_RUN_CALM, SETUP, [ON_THE_WRONG_PATH]);
    assert SETUP + [] == SETUP && [ON_THE_WRONG_PATH][..0] == [];
    WrongPathIsRefused(AfterRequests(EVERY_RUN_CALM, SETUP));
  }
}
