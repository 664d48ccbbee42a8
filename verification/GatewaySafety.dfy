/** What the approval gate guarantees over every sequence of requests. */
module GatewaySafety {
  import opened Wrappers
  import opened Catalog
  import Text
  import opened Graph
  import opened GraphLedger
  import opened GraphShape
  import opened GraphActions
  import opened Gateway
  import Breaker

  // --------------------------------------------------------------------------------------------
  // The invariant
  // --------------------------------------------------------------------------------------------

  // A commit that approves `id`, made no later than its expiry.
  predicate Approves(trace: seq<Entry>, id: ApprovalId) {
    exists e :: e in trace && e.Committed? && e.id == id && e.decision == Approved && e.at <= e.expiresAt
  }

  // Every invocation comes after the approval of that very action.
  predicate Justified(trace: seq<Entry>) {
    trace == []
    || (var front, last := trace[..|trace| - 1], trace[|trace| - 1];
        Justified(front) && (last.Invoked? ==> Approves(front, ApprovalId(last.run, last.tool))))
  }

  predicate RowOk(trace: seq<Entry>, id: ApprovalId, row: ApprovalRow) {
    && row.expiresAt == row.requestedAt + APPROVAL_SECONDS
    && match row.decision
       case Pending => row.decidedAt.None?
       case Expired => false
       case _ =>
         row.decidedAt.Some? && row.decidedAt.value <= row.expiresAt
         && Committed(id, row.decision, row.decidedAt.value, row.expiresAt) in trace
  }

  // A cached approval that is decided says what its row says.
  predicate Faithful(rows: map<ApprovalId, ApprovalRow>, run: RunId, approvals: seq<Approval>) {
    forall a :: a in approvals && a.decision != Pending ==>
      ApprovalId(run, a.action) in rows && rows[ApprovalId(run, a.action)].decision == a.decision
  }

  ghost predicate Gated(sys: System) {
    && (forall id :: id in sys.rows ==> RowOk(sys.trace, id, sys.rows[id]))
    && Justified(sys.trace)
    && (forall run :: run in sys.states ==> Faithful(sys.rows, run, sys.states[run].approvals))
  }

  // Rows are added, and pending ones are decided; nothing else happens to them.
  ghost predicate RowsAdvance(rows: map<ApprovalId, ApprovalRow>, rows': map<ApprovalId, ApprovalRow>) {
    forall id :: id in rows ==>
      id in rows' && (rows[id].decision != Pending ==> rows'[id] == rows[id])
      && rows'[id].requestedAt == rows[id].requestedAt && rows'[id].expiresAt == rows[id].expiresAt
  }

  // Rows are added only, as pending.
  ghost predicate RowsInserted(rows: map<ApprovalId, ApprovalRow>, rows': map<ApprovalId, ApprovalRow>) {
    && (forall id :: id in rows ==> id in rows' && rows'[id] == rows[id])
    && (forall id :: id in rows' && id !in rows ==>
          rows'[id].decision == Pending && rows'[id].decidedAt.None?
          && rows'[id].expiresAt == rows'[id].requestedAt + APPROVAL_SECONDS)
  }

  // --------------------------------------------------------------------------------------------
  // Saving inserts
  // --------------------------------------------------------------------------------------------

  lemma {:induction false} FirstDecisionIsOne(approvals: seq<Approval>, action: Tool)
    ensures FirstDecision(approvals, action) == Pending
            || Approval(action, FirstDecision(approvals, action)) in approvals
  {
    if approvals != [] && approvals[0].action != action {
      FirstDecisionIsOne(approvals[1..], action);
    }
  }

  /** Saving a run's state only inserts rows, and only pending ones, that expire 30 minutes after their
      request. */
  lemma SaveOnlyInserts(sys: System, s: RunState, run: RunId, now: real, lost: set<ApprovalId>)
    requires Faithful(sys.rows, run, s.approvals)
    ensures RowsInserted(sys.rows, Persist(sys, s, run, now, lost).rows)
  {
    var rows' := Persist(sys, s, run, now, lost).rows;
    forall id | id in rows' && id !in sys.rows
      ensures rows'[id].decision == Pending
    {
      FirstDecisionIsOne(s.approvals, id.action);
    }
  }

  lemma FaithfulToMore(rows: map<ApprovalId, ApprovalRow>, rows': map<ApprovalId, ApprovalRow>, run: RunId,
                       approvals: seq<Approval>)
    requires Faithful(rows, run, approvals)
    requires forall id :: id in rows && rows[id].decision != Pending ==> id in rows' && rows'[id] == rows[id]
    ensures Faithful(rows', run, approvals)
  {
  }

  lemma SaveKeepsGated(sys: System, s: RunState, run: RunId, now: real, lost: set<ApprovalId>)
    requires Gated(sys) && Faithful(sys.rows, run, s.approvals)
    ensures Gated(Persist(sys, s, run, now, lost))
  {
    hide Persist, Faithful;
    SaveOnlyInserts(sys, s, run, now, lost);
    SaveFrame(sys, s, run, now, lost);
    var sys' := Persist(sys, s, run, now, lost);
    forall r | r in sys'.states
      ensures Faithful(sys'.rows, r, sys'.states[r].approvals)
    {
      FaithfulToMore(sys.rows, sys'.rows, r, sys'.states[r].approvals);
    }
  }

  lemma SaveFrame(sys: System, s: RunState, run: RunId, now: real, lost: set<ApprovalId>)
    ensures var sys' := Persist(sys, s, run, now, lost);
            && sys'.states == sys.states[run := s] && sys'.runs == sys.runs && sys'.flagged == sys.flagged
            && sys'.trace == sys.trace && sys'.replies == sys.replies
  {
  }

  // --------------------------------------------------------------------------------------------
  // A run of the graph decides nothing
  // --------------------------------------------------------------------------------------------

  lemma ApprovalsStay(env: Env, s: RunState)
    requires s.node != ApprovalPause
    ensures Dispatch(env, s).state.approvals == s.approvals
  {
    hide AskModel, ReadAll, McpRead, CallSpecialist, ExecuteActions, DoFindings, DoPolicy, MentionsDeployment, Top,
         Conflicting, CapAll, DiscountAll, ApprovedTools;
    match s.node
    case Classify => AskModelFrame(env, s);
    case Plan => AskModelFrame(env, s);
    case McpReads => ReadAllFrame(env, s, READS);
    case Delegate => CallSpecialistFrame(env, s);
    case Findings => JudgingKeepsApprovals(env, s);
    case Policy => JudgingKeepsApprovals(env, s);
    case ExecuteApproved => ExecuteFrame(env, s, s.actions, ApprovedTools(s.approvals));
    case Verify => McpReadFrame(env, s, GetHealth);
    case _ =>
  }

  lemma JudgingKeepsApprovals(env: Env, s: RunState)
    ensures DoFindings(env, s).state.approvals == s.approvals && DoPolicy(env, s).state.approvals == s.approvals
  {
    hide Judge, AnyDenied, EmitFindings, NormaliseFrom, RawFindings, MaxConfidence;
    var findings := NormaliseFrom(RawFindings(env, s), 0);
    EmitFindingsOnlyLogs(s.(findings := findings), findings);
  }

  lemma {:induction false} DriveDecidesNothing(env: Env, s: RunState)
    ensures forall a :: a in Drive(env, s).approvals && a.decision != Pending ==> a in s.approvals
    decreases 12 - Rank(s.node)
  {
    hide Guard, Dispatch, Close;
    GuardFrame(env, s);
    var g := Guard(env, s);
    if s.node == ApprovalPause { PauseAsks(env, g.state); } else { ApprovalsStay(env, g.state); }
    TurnClimbs(env, s);
    var r := Turn(env, s);
    if r.signal == Next {
      DriveDecidesNothing(env, r.state);
    } else if r.signal.Raise? {
      CloseFrame(r.state, r.signal.why);
    }
  }

  lemma PauseAsks(env: Env, s: RunState)
    requires s.node == ApprovalPause
    ensures forall a :: a in Dispatch(env, s).state.approvals && a.decision != Pending ==> a in s.approvals
  {
  }

  lemma RunDecidesNothing(env: Env, s: RunState)
    ensures forall a :: a in Run(env, s).approvals && a.decision != Pending ==> a in s.approvals
  {
    hide Drive;
    DriveDecidesNothing(env, if s.status == Created then Transition(s.(status := Running), Classify, RunStarted)
                             else s);
  }

  // --------------------------------------------------------------------------------------------
  // Requests keep the gate
  // --------------------------------------------------------------------------------------------

  lemma {:induction false} InvocationsJustified(trace: seq<Entry>, run: RunId, tools: seq<Tool>)
    requires Justified(trace) && forall t :: t in tools ==> Approves(trace, ApprovalId(run, t))
    ensures Justified(trace + Invocations(run, tools))
  {
    var all := trace + Invocations(run, tools);
    if tools == [] {
      assert all == trace;
    } else {
      var front, t := tools[..|tools| - 1], tools[|tools| - 1];
      InvocationsJustified(trace, run, front);
      assert all[..|all| - 1] == trace + Invocations(run, front);
      assert t in tools;
      assert Approves(trace, ApprovalId(run, t));
      var e :| e in trace && e.Committed? && e.id == ApprovalId(run, t) && e.decision == Approved
               && e.at <= e.expiresAt;
      assert e in trace + Invocations(run, front);
    }
  }

  lemma LongerTraceKeepsGated(sys: System, more: seq<Entry>)
    requires Gated(sys) && Justified(sys.trace + more)
    ensures Gated(sys.(trace := sys.trace + more))
  {
    hide Faithful, Justified;
  }

  lemma ApprovedRowsAreCommitted(sys: System, run: RunId, approvals: seq<Approval>, t: Tool)
    requires Gated(sys) && Faithful(sys.rows, run, approvals) && t in ApprovedTools(approvals)
    ensures Approves(sys.trace, ApprovalId(run, t))
  {
    hide Justified;
    var id := ApprovalId(run, t);
    assert RowOk(sys.trace, id, sys.rows[id]);
    assert Committed(id, Approved, sys.rows[id].decidedAt.value, sys.rows[id].expiresAt) in sys.trace;
  }

  lemma RunGraphKeepsGated(env: Env, sys: System, run: RunId, s: RunState, now: real, lost: set<ApprovalId>)
    requires Gated(sys) && Faithful(sys.rows, run, s.approvals)
    ensures var sys' := RunGraph(env, sys, run, s, now, lost);
            && Gated(sys') && RowsInserted(sys.rows, sys'.rows) && sys'.runs == sys.runs
  {
    hide Run, Persist, Justified, NewlyActed, Acted, ApprovedTools, Approves, Gated;
    var s0 := s.(breaker := Breaker.CLOSED);
    var s' := Run(env, s0);
    RunDecidesNothing(env, s0);
    RunWithinApproved(env, s);
    SaveOnlyInserts(sys, s', run, now, lost);
    SaveKeepsGated(sys, s', run, now, lost);
    SaveFrame(sys, s', run, now, lost);
    forall t | t in NewlyActed(s, s')
      ensures Approves(sys.trace, ApprovalId(run, t))
    {
      ApprovedRowsAreCommitted(sys, run, s.approvals, t);
    }
    GatedIsJustified(sys);
    InvocationsJustified(sys.trace, run, NewlyActed(s, s'));
    LongerTraceKeepsGated(Persist(sys, s', run, now, lost), Invocations(run, NewlyActed(s, s')));
  }

  lemma GatedIsJustified(sys: System)
    requires Gated(sys)
    ensures Justified(sys.trace)
  {
  }

  lemma {:induction false} SyncedIsFaithful(rows: map<ApprovalId, ApprovalRow>, run: RunId, approvals: seq<Approval>)
    requires Faithful(rows, run, approvals)
    ensures Faithful(rows, run, Synced(rows, run, approvals))
  {
    if approvals != [] {
      assert forall a :: a in approvals[..|approvals| - 1] ==> a in approvals;
      SyncedIsFaithful(rows, run, approvals[..|approvals| - 1]);
    }
  }

  lemma CachedStateKeepsGated(sys: System, run: RunId, s: RunState)
    requires Gated(sys) && Faithful(sys.rows, run, s.approvals)
    ensures Gated(sys.(states := sys.states[run := s]))
  {
  }

  lemma MaybeResumeKeepsGated(env: Env, sys: System, run: RunId, d: Decision, now: real, lost: set<ApprovalId>)
    requires Gated(sys)
    ensures var sys' := MaybeResume(env, sys, run, d, now, lost);
            && Gated(sys') && RowsInserted(sys.rows, sys'.rows) && sys'.runs == sys.runs
  {
    hide Persist, RunGraph, Synced;
    if run in sys.states {
      hide Faithful, Justified, RowOk;
      SyncedIsFaithful(sys.rows, run, sys.states[run].approvals);
      var s := sys.states[run].(approvals := Synced(sys.rows, run, sys.states[run].approvals));
      var synced := sys.(states := sys.states[run := s]);
      CachedStateKeepsGated(sys, run, s);
      if s.node == ApprovalPause {
        if d == RejectedByHuman {
          var ended := s.(status := StatusCompleted, verdict := Some(Rejected));
          SaveKeepsGated(synced, ended, run, now, lost);
          SaveOnlyInserts(synced, ended, run, now, lost);
          SaveFrame(synced, ended, run, now, lost);
        } else {
          RunGraphKeepsGated(env, synced, run, s.(node := ExecuteApproved, status := Running), now, lost);
        }
      }
    }
  }

  // Committing a decision to a pending row keeps every row right.
  lemma CommitKeepsRows(sys: System, id: ApprovalId, row: ApprovalRow, d: Decision, approver: string, now: real)
    requires Gated(sys) && id in sys.rows && row == sys.rows[id] && row.decision == Pending && now <= row.expiresAt
    requires d == Approved || d == RejectedByHuman
    ensures var rows := sys.rows[id := row.(decision := d, approver := approver, decidedAt := Some(now))];
            var trace := sys.trace + [Committed(id, d, now, row.expiresAt)];
            && (forall r :: r in rows ==> RowOk(trace, r, rows[r]))
            && Justified(trace) && RowsAdvance(sys.rows, rows)
            && (forall run :: run in sys.states ==> Faithful(rows, run, sys.states[run].approvals))
  {
    hide Faithful;
    var rows := sys.rows[id := row.(decision := d, approver := approver, decidedAt := Some(now))];
    var trace := sys.trace + [Committed(id, d, now, row.expiresAt)];
    assert trace[..|trace| - 1] == sys.trace;
    forall run | run in sys.states
      ensures Faithful(rows, run, sys.states[run].approvals)
    {
      FaithfulToMore(sys.rows, rows, run, sys.states[run].approvals);
    }
  }

  lemma DecideRowKeepsGated(sys: System, id: ApprovalId, tenant: Tenant, d: Decision, approver: string, now: real)
    requires Gated(sys) && (d == Approved || d == RejectedByHuman)
    ensures var (sys', response) := DecideRow(sys, id, tenant, d, approver, now);
            && Gated(sys') && RowsAdvance(sys.rows, sys'.rows) && sys'.states == sys.states
            && (response != Accepted ==> sys' == sys)
  {
    hide Faithful, RowOk, Justified;
    if DecideRow(sys, id, tenant, d, approver, now).1 == Accepted {
      CommitKeepsRows(sys, id, sys.rows[id], d, approver, now);
    }
  }

  lemma RepliesAside(sys: System, replies: map<(ApprovalId, string), Outcome>)
    requires Gated(sys)
    ensures Gated(sys.(replies := replies))
  {
  }

  lemma InsertedAdvances(rows: map<ApprovalId, ApprovalRow>, rows': map<ApprovalId, ApprovalRow>,
                         rows'': map<ApprovalId, ApprovalRow>)
    requires RowsAdvance(rows, rows') && RowsInserted(rows', rows'')
    ensures RowsAdvance(rows, rows'')
  {
  }

  lemma DecideKeepsGated(env: RunId -> Env, sys: System, req: Request)
    requires Gated(sys) && req.Decide?
    ensures var sys' := DecideRequest(env, sys, req).0; Gated(sys') && RowsAdvance(sys.rows, sys'.rows)
  {
    hide Gated, MaybeResume, DecideRow, Text.Strip;
    if req.decision == Approved || req.decision == RejectedByHuman {
      DecideRowKeepsGated(sys, req.id, req.tenant, req.decision, req.approver, req.now);
      var (decided, response) := DecideRow(sys, req.id, req.tenant, req.decision, req.approver, req.now);
      var replies := decided.replies[(req.id, req.key) := Outcome(req.id, req.path, req.decision, req.approver)];
      RepliesAside(decided, replies);
      var told := decided.(replies := replies);
      MaybeResumeKeepsGated(EnvFor(env, told, req.path), told, req.path, req.decision, req.now, req.lost);
      InsertedAdvances(sys.rows, told.rows,
                       MaybeResume(EnvFor(env, told, req.path), told, req.path, req.decision, req.now, req.lost).rows);
    }
  }

  lemma HandleKeepsGated(env: RunId -> Env, sys: System, req: Request)
    requires Gated(sys)
    ensures Gated(Handle(env, sys, req).0) && RowsAdvance(sys.rows, Handle(env, sys, req).0.rows)
  {
    hide RunGraph, DecideRequest, Justified, RowOk;
    match req
    case CreateRun(run, tenant, limits) =>
    case ExecuteRun(run, now, lost) =>
      if run in sys.states { RunGraphKeepsGated(EnvFor(env, sys, run), sys, run, sys.states[run], now, lost); }
    case Decide(_, _, _, _, _, _, _, _) => DecideKeepsGated(env, sys, req);
    case CancelRun(run, tenant) =>
    case Restart =>
  }

  lemma {:induction false} ReachableGated(env: RunId -> Env, reqs: seq<Request>)
    ensures Gated(AfterRequests(env, reqs))
  {
    if reqs == [] {
      assert AfterRequests(env, reqs) == EMPTY;
    } else {
      hide Gated, Handle;
      ReachableGated(env, reqs[..|reqs| - 1]);
      HandleKeepsGated(env, AfterRequests(env, reqs[..|reqs| - 1]), reqs[|reqs| - 1]);
    }
  }

  // --------------------------------------------------------------------------------------------
  // What it says
  // --------------------------------------------------------------------------------------------

  lemma {:induction false} JustifiedAt(trace: seq<Entry>, i: nat)
    requires Justified(trace) && i < |trace| && trace[i].Invoked?
    ensures Approves(trace[..i], ApprovalId(trace[i].run, trace[i].tool))
    decreases |trace|
  {
    var front := trace[..|trace| - 1];
    if i < |trace| - 1 {
      JustifiedAt(front, i);
      assert front[..i] == trace[..i];
    }
  }

  /** The whole-system gate: over every sequence of requests, with lost inserts, cancellations and process
      restarts, every write invocation comes after a commit that approved that very action of that very
      run, no later than its expiry. */
  lemma EveryWriteWasApproved(env: RunId -> Env, reqs: seq<Request>, i: nat)
    requires i < |AfterRequests(env, reqs).trace| && AfterRequests(env, reqs).trace[i].Invoked?
    ensures var trace := AfterRequests(env, reqs).trace;
            exists j, at, expiresAt :: 0 <= j < i && at <= expiresAt
              && trace[j] == Committed(ApprovalId(trace[i].run, trace[i].tool), Approved, at, expiresAt)
  {
    hide AfterRequests;
    var trace := AfterRequests(env, reqs).trace;
    ReachableGated(env, reqs);
    JustifiedAt(trace, i);
    var id := ApprovalId(trace[i].run, trace[i].tool);
    var e :| e in trace[..i] && e.Committed? && e.id == id && e.decision == Approved && e.at <= e.expiresAt;
    var j :| 0 <= j < i && trace[..i][j] == e;
    assert trace[j] == Committed(id, Approved, e.at, e.expiresAt);
  }

  lemma UnfoldRequests(env: RunId -> Env, reqs: seq<Request>)
    requires reqs != []
    ensures AfterRequests(env, reqs) == Handle(env, AfterRequests(env, reqs[..|reqs| - 1]), reqs[|reqs| - 1]).0
  {
    hide Handle;
  }

  lemma LastRequest(env: RunId -> Env, reqs: seq<Request>, more: seq<Request>)
    requires more != []
    ensures AfterRequests(env, reqs + more)
            == Handle(env, AfterRequests(env, reqs + more[..|more| - 1]), more[|more| - 1]).0
  {
    hide Handle, AfterRequests;
    var all := reqs + more;
    assert all[..|all| - 1] == reqs + more[..|more| - 1];
    UnfoldRequests(env, all);
  }

  lemma {:induction false} RowsOnlyAdvance(env: RunId -> Env, reqs: seq<Request>, more: seq<Request>)
    ensures RowsAdvance(AfterRequests(env, reqs).rows, AfterRequests(env, reqs + more).rows)
  {
    hide AfterRequests;
    if more == [] {
      assert reqs + more == reqs;
    } else {
      hide Gated, Handle, RowsAdvance;
      var front := more[..|more| - 1];
      LastRequest(env, reqs, more);
      RowsOnlyAdvance(env, reqs, front);
      ReachableGated(env, reqs + front);
      HandleKeepsGated(env, AfterRequests(env, reqs + front), more[|more| - 1]);
      AdvanceComposes(AfterRequests(env, reqs).rows, AfterRequests(env, reqs + front).rows,
                      AfterRequests(env, reqs + more).rows);
    }
  }

  lemma AdvanceComposes(a: map<ApprovalId, ApprovalRow>, b: map<ApprovalId, ApprovalRow>,
                        c: map<ApprovalId, ApprovalRow>)
    requires RowsAdvance(a, b) && RowsAdvance(b, c)
    ensures RowsAdvance(a, c)
  {
  }

  /** A decided row is never changed again, and was decided in time. */
  lemma DecidedRowsNeverChange(env: RunId -> Env, reqs: seq<Request>, more: seq<Request>, id: ApprovalId)
    requires id in AfterRequests(env, reqs).rows && AfterRequests(env, reqs).rows[id].decision != Pending
    ensures id in AfterRequests(env, reqs + more).rows
    ensures AfterRequests(env, reqs + more).rows[id] == AfterRequests(env, reqs).rows[id]
    ensures var row := AfterRequests(env, reqs).rows[id];
            row.decidedAt.Some? && row.decidedAt.value <= row.expiresAt
            && row.expiresAt == row.requestedAt + APPROVAL_SECONDS
  {
    hide AfterRequests;
    RowsOnlyAdvance(env, reqs, more);
    ReachableGated(env, reqs);
    var sys := AfterRequests(env, reqs);
    assert RowOk(sys.trace, id, sys.rows[id]);
  }

  // The time a request is made, if it takes one.
  function TimeOf(req: Request): Option<real> {
    match req
    case ExecuteRun(_, now, _) => Some(now)
    case Decide(_, _, _, _, _, _, now, _) => Some(now)
    case _ => None
  }

  /** The "expired" mark is rolled back: a pending row whose time has passed stays pending for good. */
  lemma {:induction false} ExpiredRowsStayPending(env: RunId -> Env, reqs: seq<Request>, more: seq<Request>,
                                                  id: ApprovalId)
    requires id in AfterRequests(env, reqs).rows && AfterRequests(env, reqs).rows[id].decision == Pending
    requires forall req :: req in more && TimeOf(req).Some? ==>
               TimeOf(req).value > AfterRequests(env, reqs).rows[id].expiresAt
    ensures id in AfterRequests(env, reqs + more).rows
    ensures AfterRequests(env, reqs + more).rows[id] == AfterRequests(env, reqs).rows[id]
  {
    hide AfterRequests;
    if more == [] {
      assert reqs + more == reqs;
    } else {
      hide Gated, Handle;
      var front, last := more[..|more| - 1], more[|more| - 1];
      assert last in more;
      LastRequest(env, reqs, more);
      ExpiredRowsStayPending(env, reqs, front, id);
      ReachableGated(env, reqs + front);
      LateRequestKeepsRow(env, AfterRequests(env, reqs + front), last, id);
    }
  }

  lemma LateRequestKeepsRow(env: RunId -> Env, sys: System, req: Request, id: ApprovalId)
    requires Gated(sys) && id in sys.rows && sys.rows[id].decision == Pending
    requires TimeOf(req).Some? ==> TimeOf(req).value > sys.rows[id].expiresAt
    ensures id in Handle(env, sys, req).0.rows && Handle(env, sys, req).0.rows[id] == sys.rows[id]
  {
    hide Gated, RunGraph, DecideRequest;
    match req
    case CreateRun(run, tenant, limits) =>
    case ExecuteRun(run, now, lost) =>
      if run in sys.states {
        CachedAreFaithful(sys, run);
        RunGraphKeepsGated(EnvFor(env, sys, run), sys, run, sys.states[run], now, lost);
      }
    case Decide(_, _, _, _, _, _, _, _) => LateDecisionKeepsRow(env, sys, req, id);
    case CancelRun(run, tenant) =>
    case Restart =>
  }

  lemma LateDecisionKeepsRow(env: RunId -> Env, sys: System, req: Request, id: ApprovalId)
    requires Gated(sys) && id in sys.rows && sys.rows[id].decision == Pending
    requires req.Decide? && req.now > sys.rows[id].expiresAt
    ensures var sys' := DecideRequest(env, sys, req).0; id in sys'.rows && sys'.rows[id] == sys.rows[id]
  {
    hide Gated, MaybeResume, DecideRow, Text.Strip;
    if req.decision == Approved || req.decision == RejectedByHuman {
      DecideRowKeepsGated(sys, req.id, req.tenant, req.decision, req.approver, req.now);
      LateRowStays(sys, req.id, req.tenant, req.decision, req.approver, req.now, id);
      var decided := DecideRow(sys, req.id, req.tenant, req.decision, req.approver, req.now).0;
      var replies := decided.replies[(req.id, req.key) := Outcome(req.id, req.path, req.decision, req.approver)];
      RepliesAside(decided, replies);
      var told := decided.(replies := replies);
      MaybeResumeKeepsGated(EnvFor(env, told, req.path), told, req.path, req.decision, req.now, req.lost);
    }
  }

  lemma LateRowStays(sys: System, decided: ApprovalId, tenant: Tenant, d: Decision, approver: string, now: real,
                     id: ApprovalId)
    requires id in sys.rows && sys.rows[id].decision == Pending && now > sys.rows[id].expiresAt
    ensures var sys' := DecideRow(sys, decided, tenant, d, approver, now).0;
            id in sys'.rows && sys'.rows[id] == sys.rows[id]
  {
  }

  lemma CachedAreFaithful(sys: System, run: RunId)
    requires Gated(sys) && run in sys.states
    ensures Faithful(sys.rows, run, sys.states[run].approvals)
  {
  }

  /** A late decision is refused and changes nothing, neither the rows nor anything else. */
  lemma LateDecisionChangesNothing(env: RunId -> Env, sys: System, req: Request)
    requires req.Decide? && req.id in sys.rows && sys.rows[req.id].decision == Pending
             && req.now > sys.rows[req.id].expiresAt
    requires (req.id, req.key) !in sys.replies
    ensures DecideRequest(env, sys, req).0 == sys
    ensures DecideRequest(env, sys, req).1 in {Invalid, NotFound, HasExpired}
  {
    hide Text.Strip, MaybeResume;
  }

  /** A decision sent again with its key, its approval and its run gets the first reply and changes
      nothing, as long as the process lives. */
  lemma SameKeyReplays(env: RunId -> Env, sys: System, req: Request, again: Request)
    requires req.Decide? && again.Decide? && DecideRequest(env, sys, req).1.Reply?
    requires again.id == req.id && again.key == req.key && again.path == req.path
    requires Text.Strip(again.approver) != "" && (again.decision == Approved || again.decision == RejectedByHuman)
    ensures var (first, reply) := DecideRequest(env, sys, req); DecideRequest(env, first, again) == (first, reply)
  {
    hide Text.Strip, MaybeResume;
    if !((req.id, req.key) in sys.replies && sys.replies[(req.id, req.key)].run == req.path) {
      var decided := DecideRow(sys, req.id, req.tenant, req.decision, req.approver, req.now).0;
      var outcome := Outcome(req.id, req.path, req.decision, req.approver);
      var told := decided.(replies := decided.replies[(req.id, req.key) := outcome]);
      RepliesStay(EnvFor(env, told, req.path), told, req.path, req.decision, req.now, req.lost);
    }
  }

  lemma RepliesStay(env: Env, sys: System, run: RunId, d: Decision, now: real, lost: set<ApprovalId>)
    ensures MaybeResume(env, sys, run, d, now, lost).replies == sys.replies
  {
    hide Persist, Synced, Run, NewlyActed, Invocations;
    if run in sys.states {
      var s := sys.states[run].(approvals := Synced(sys.rows, run, sys.states[run].approvals));
      var synced := sys.(states := sys.states[run := s]);
      SaveFrame(synced, s.(status := StatusCompleted, verdict := Some(Rejected)), run, now, lost);
      var off := s.(node := ExecuteApproved, status := Running, breaker := Breaker.CLOSED);
      SaveFrame(synced, Run(env, off), run, now, lost);
    }
  }

  /** A refusal as not found that is none: a decision answered "not found" has changed the system if and only if
      it named a pending approval in time, of a run of the tenant, on the path of another run of the tenant.
      It is then committed, and neither run is resumed. */
  lemma NotFoundCommitsIff(env: RunId -> Env, sys: System, req: Request)
    requires req.Decide? && DecideRequest(env, sys, req).1 == NotFound
    ensures var sys' := DecideRequest(env, sys, req).0;
            && (sys' != sys <==>
                  && req.path in sys.runs && sys.runs[req.path] == req.tenant
                  && req.id in sys.rows && req.id.run in sys.runs && sys.runs[req.id.run] == req.tenant
                  && sys.rows[req.id].decision == Pending && req.now <= sys.rows[req.id].expiresAt
                  && req.path != req.id.run)
            && sys'.states == sys.states && sys'.replies == sys.replies
            && (sys' != sys ==> sys'.rows[req.id].decision == req.decision
                                && sys'.trace == sys.trace
                                   + [Committed(req.id, req.decision, req.now, sys.rows[req.id].expiresAt)])
  {
    hide Text.Strip, MaybeResume;
    var sys' := DecideRequest(env, sys, req).0;
    assert sys' == sys || |sys'.trace| == |sys.trace| + 1;
  }
}
