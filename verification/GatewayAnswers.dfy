/** What every request to the gateway is answered, and what it leaves: guard by guard, for every system. */
module GatewayAnswers {
  import opened Wrappers
  import Text
  import opened Budget
  import opened Graph
  import opened Gateway
  import opened GatewaySafety
  import Breaker

  // The guards of a decision that come before the transaction.
  predicate WellPut(req: Request)
    requires req.Decide?
  {
    Text.Strip(req.approver) != "" && req.key != "" && req.decision in {Approved, RejectedByHuman}
  }

  predicate Remembered(sys: System, req: Request)
    requires req.Decide?
  {
    (req.id, req.key) in sys.replies && sys.replies[(req.id, req.key)].run == req.path
  }

  // The tenant's own path, and an approval of one of the tenant's runs.
  predicate Theirs(sys: System, req: Request)
    requires req.Decide?
  {
    && req.path in sys.runs && sys.runs[req.path] == req.tenant
    && req.id in sys.rows && req.id.run in sys.runs && sys.runs[req.id.run] == req.tenant
  }

  /** When a decision is refused, and with what; a refusal changes nothing. */
  lemma RefusedDecisions(env: RunId -> Env, sys: System, req: Request)
    requires req.Decide?
    ensures var (sys', response) := Handle(env, sys, req);
            && (!WellPut(req) ==> response == Invalid && sys' == sys)
            && (WellPut(req) && Remembered(sys, req) ==>
                  response == Reply(sys.replies[(req.id, req.key)]) && sys' == sys)
            && (WellPut(req) && !Remembered(sys, req) && !Theirs(sys, req) ==> response == NotFound && sys' == sys)
            && (WellPut(req) && !Remembered(sys, req) && Theirs(sys, req) ==>
                  var row := sys.rows[req.id];
                  && (row.decision != Pending ==> response == AlreadyDecided && sys' == sys)
                  && (row.decision == Pending && req.now > row.expiresAt ==> response == HasExpired && sys' == sys))
  {
    hide Text.Strip, MaybeResume, EnvFor;
  }

  /** Every other decision is committed: its row, and no other that there was, gets decision, approver and time.
      On its own path it is answered with its outcome, which is remembered under the key; on another one as
      not found. */
  lemma CommittedDecisions(env: RunId -> Env, sys: System, req: Request)
    requires req.Decide? && WellPut(req) && !Remembered(sys, req) && Theirs(sys, req)
    requires sys.rows[req.id].decision == Pending && req.now <= sys.rows[req.id].expiresAt
    ensures var (sys', response) := Handle(env, sys, req);
            var row := sys.rows[req.id];
            var outcome := Outcome(req.id, req.path, req.decision, req.approver);
            && (forall id :: id in sys.rows ==> id in sys'.rows)
            && sys'.rows[req.id]
               == ApprovalRow(req.decision, row.requestedAt, row.expiresAt, Some(req.now), req.approver)
            && (forall id :: id in sys.rows && id != req.id ==> sys'.rows[id] == sys.rows[id])
            && sys.trace + [Committed(req.id, req.decision, req.now, row.expiresAt)] <= sys'.trace
            && (req.path != req.id.run ==>
                  response == NotFound && sys'.replies == sys.replies && sys'.states == sys.states)
            && (req.path == req.id.run ==>
                  response == Reply(outcome) && sys'.replies == sys.replies[(req.id, req.key) := outcome])
  {
    var decided := DecideRow(sys, req.id, req.tenant, req.decision, req.approver, req.now).0;
    var outcome := Outcome(req.id, req.path, req.decision, req.approver);
    var told := decided.(replies := decided.replies[(req.id, req.key) := outcome]);
    ResumeLeavesRows(EnvFor(env, told, req.path), told, req.path, req.decision, req.now, req.lost);
    hide Text.Strip, MaybeResume, EnvFor;
  }

  predicate RowsStay(rows: map<ApprovalId, ApprovalRow>, rows': map<ApprovalId, ApprovalRow>) {
    forall id :: id in rows ==> id in rows' && rows'[id] == rows[id]
  }

  lemma SaveLeavesRows(sys: System, s: RunState, run: RunId, now: real, lost: set<ApprovalId>)
    ensures RowsStay(sys.rows, Persist(sys, s, run, now, lost).rows)
  {
    hide IdsOf, FirstDecision;
  }

  lemma RunGraphFrame(env: Env, sys: System, run: RunId, s: RunState, now: real, lost: set<ApprovalId>)
    ensures var sys' := RunGraph(env, sys, run, s, now, lost);
            && sys'.states == sys.states[run := Run(env, s.(breaker := Breaker.CLOSED))]
            && sys'.replies == sys.replies && sys'.runs == sys.runs && sys.trace <= sys'.trace
            && RowsStay(sys.rows, sys'.rows)
  {
    hide Run, Persist, Invocations, NewlyActed, RowsStay;
    SaveFrame(sys, Run(env, s.(breaker := Breaker.CLOSED)), run, now, lost);
    SaveLeavesRows(sys, Run(env, s.(breaker := Breaker.CLOSED)), run, now, lost);
  }

  lemma ResumeLeavesRows(env: Env, sys: System, run: RunId, d: Decision, now: real, lost: set<ApprovalId>)
    ensures var sys' := MaybeResume(env, sys, run, d, now, lost);
            && sys'.replies == sys.replies && sys.trace <= sys'.trace && sys'.runs == sys.runs
            && RowsStay(sys.rows, sys'.rows)
  {
    hide Run, RunGraph, Persist, Synced, RowsStay;
    NoRowsMoved(sys.rows);
    if run in sys.states {
      var s := sys.states[run].(approvals := Synced(sys.rows, run, sys.states[run].approvals));
      var synced := sys.(states := sys.states[run := s]);
      var ended := s.(status := StatusCompleted, verdict := Some(Rejected));
      SaveFrame(synced, ended, run, now, lost);
      SaveLeavesRows(synced, ended, run, now, lost);
      RunGraphFrame(env, synced, run, s.(node := ExecuteApproved, status := Running), now, lost);
    }
  }

  lemma NoRowsMoved(rows: map<ApprovalId, ApprovalRow>)
    ensures RowsStay(rows, rows)
  {
  }

  /** Saving a run: its state is cached; an approval gets a row if and only if it has one or one of the run's requests
      is for it and the insert is not lost; what there was stays. */
  lemma SavedRows(sys: System, s: RunState, run: RunId, now: real, lost: set<ApprovalId>, id: ApprovalId)
    ensures var sys' := Persist(sys, s, run, now, lost);
            var requested := id.run == run && exists i :: 0 <= i < |s.approvals| && s.approvals[i].action == id.action;
            && sys'.states == sys.states[run := s] && sys'.trace == sys.trace && sys'.replies == sys.replies
            && (id in sys'.rows <==> id in sys.rows || (requested && id !in lost))
            && (id in sys.rows ==> sys'.rows[id] == sys.rows[id])
            && (requested ==> id in sys'.asked && sys'.asked[id] == if id in sys.asked then sys.asked[id] else now)
            && (id in sys.asked ==> id in sys'.asked && sys'.asked[id] == sys.asked[id])
            && (id !in sys.rows && id in sys'.rows ==>
                  var asked := if id in sys.asked then sys.asked[id] else now;
                  var row := sys'.rows[id];
                  && row.requestedAt == asked && row.expiresAt == asked + 1800.0
                  && row.decidedAt.None? && row.approver == "")
  {
    hide FirstDecision;
    var ids := IdsOf(run, s.approvals);
    if i :| 0 <= i < |s.approvals| && s.approvals[i].action == id.action { assert s.approvals[i] in s.approvals; }
    if id in ids {
      var a :| a in s.approvals && id == ApprovalId(run, a.action);
      var i :| 0 <= i < |s.approvals| && s.approvals[i] == a;
    }
  }

  lemma {:induction false} SyncedSays(rows: map<ApprovalId, ApprovalRow>, run: RunId, approvals: seq<Approval>)
    ensures forall i :: 0 <= i < |approvals| ==>
              var id := ApprovalId(run, approvals[i].action);
              Synced(rows, run, approvals)[i]
              == Approval(approvals[i].action, if id in rows then rows[id].decision else approvals[i].decision)
  {
    if approvals != [] { SyncedSays(rows, run, approvals[..|approvals| - 1]); }
  }

  /** What a decision on its own path does to the run: nothing if it is not cached; else its approvals take their
      rows' decisions, and only at the gate more follows: a rejection ends it there, with no call, and an
      approval sends it to the execution. */
  lemma ResumedRuns(env: Env, sys: System, run: RunId, d: Decision, now: real, lost: set<ApprovalId>)
    ensures var sys' := MaybeResume(env, sys, run, d, now, lost);
            if run !in sys.states then sys' == sys
            else
              && run in sys'.states && sys'.states == sys.states[run := sys'.states[run]]
              && var s, s' := sys.states[run], sys'.states[run];
                 var synced := s.(approvals := Synced(sys.rows, run, s.approvals));
                 if s.node != ApprovalPause then s' == synced && sys'.rows == sys.rows && sys'.trace == sys.trace
                 else if d == RejectedByHuman then
                   s' == synced.(status := StatusCompleted, verdict := Some(Rejected)) && sys'.trace == sys.trace
                 else
                   s' == Run(env, synced.(node := ExecuteApproved, status := Running, breaker := Breaker.CLOSED))
  {
    hide Run, RunGraph, Persist, Synced;
    if run in sys.states {
      var s := sys.states[run].(approvals := Synced(sys.rows, run, sys.states[run].approvals));
      var synced := sys.(states := sys.states[run := s]);
      SaveFrame(synced, s.(status := StatusCompleted, verdict := Some(Rejected)), run, now, lost);
      RunGraphFrame(env, synced, run, s.(node := ExecuteApproved, status := Running), now, lost);
    }
  }

  /** Creating, executing, cancelling and restarting. A run is created once; only a cached one is driven; a cancel needs
      the tenant's own run, marks it cancelled and raises its flag for good; a restart forgets what lives in the
      process and keeps what is durable. */
  lemma OtherRequests(env: RunId -> Env, sys: System, run: RunId, tenant: Tenant, limits: Limits, now: real,
                      lost: set<ApprovalId>)
    ensures var (sys', response) := Handle(env, sys, CreateRun(run, tenant, limits));
            if run in sys.runs then response == Invalid && sys' == sys
            else response == Accepted && sys'.runs == sys.runs[run := tenant] && sys'.rows == sys.rows
                 && sys'.states == sys.states[run := NewRun(limits)] && sys'.trace == sys.trace
    ensures var (sys', response) := Handle(env, sys, ExecuteRun(run, now, lost));
            if run !in sys.states then sys' == sys
            else
              sys'.states == sys.states[run := Run(EnvFor(env, sys, run), sys.states[run].(breaker := Breaker.CLOSED))]
    ensures var (sys', response) := Handle(env, sys, CancelRun(run, tenant));
            if run !in sys.runs || sys.runs[run] != tenant then response == NotFound && sys' == sys
            else
              && response == Accepted && sys'.rows == sys.rows && sys'.trace == sys.trace && sys'.runs == sys.runs
              && (run in sys.states ==>
                    && sys'.states == sys.states[run := sys.states[run].(status := StatusCancelled)]
                    && run in sys'.flagged
                    && forall t: nat :: t >= sys.states[run].meter.tick ==>
                         run in sys.flagged || EnvFor(env, sys', run).world.cancelled(t))
    ensures var (sys', response) := Handle(env, sys, Restart);
            && sys'.runs == sys.runs && sys'.rows == sys.rows && sys'.trace == sys.trace
            && sys'.states == map[] && sys'.replies == map[] && sys'.asked == map[] && sys'.flagged == map[]
  {
    hide Run, NewRun, IdsOf, FirstDecision, Invocations, NewlyActed;
  }
}
