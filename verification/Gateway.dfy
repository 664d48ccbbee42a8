/** The durable approval gate (apps/api/routes/approvals.py, apps/api/store.py and `decide_approval` of
    packages/persistence/repositories.py) around the graph: requests against approval rows, cached run
    states and remembered replies. Every request is atomic. */
module Gateway {
  import opened Wrappers
  import opened Catalog
  import Text
  import opened Budget
  import opened Graph
  import opened GraphActions
  import Breaker

  type RunId = nat
  type Tenant = nat

  const APPROVAL_SECONDS: real := 1800.0

  /** An approval is named by its run and its action. */
  datatype ApprovalId = ApprovalId(run: RunId, action: Tool)

  datatype ApprovalRow = ApprovalRow(decision: Decision, requestedAt: real, expiresAt: real,
                                     decidedAt: Option<real>, approver: string)

  datatype Outcome = Outcome(id: ApprovalId, run: RunId, decision: Decision, approver: string)

  datatype Response = Accepted | Invalid | NotFound | AlreadyDecided | HasExpired | Reply(outcome: Outcome)

  /** What happened, in order: decisions committed to rows, and write actions invoked. */
  datatype Entry = Committed(id: ApprovalId, decision: Decision, at: real, expiresAt: real)
                 | Invoked(run: RunId, tool: Tool)

  /** `runs`, `rows` are durable; `states`, `flagged`, `asked` (when an approval was first requested) and
      `replies` live in the process. A cancel flag is kept with the tick of the run's clock at which it was
      raised: from there on every look of the run finds it up. */
  datatype System = System(runs: map<RunId, Tenant>, rows: map<ApprovalId, ApprovalRow>,
                           states: map<RunId, RunState>, flagged: map<RunId, nat>,
                           asked: map<ApprovalId, real>, replies: map<(ApprovalId, string), Outcome>,
                           trace: seq<Entry>)

  const EMPTY := System(map[], map[], map[], map[], map[], map[], [])

  /** `lost` are the approvals whose insert fails in this request; such failures are swallowed. */
  datatype Request =
    | CreateRun(run: RunId, tenant: Tenant, limits: Limits)
    | ExecuteRun(run: RunId, now: real, lost: set<ApprovalId>)
    | Decide(path: RunId, id: ApprovalId, tenant: Tenant, decision: Decision, approver: string, key: string,
             now: real, lost: set<ApprovalId>)
    | CancelRun(run: RunId, tenant: Tenant)
    | Restart

  // --------------------------------------------------------------------------------------------
  // Saving a run
  // --------------------------------------------------------------------------------------------

  function IdsOf(run: RunId, approvals: seq<Approval>): set<ApprovalId> {
    set a | a in approvals :: ApprovalId(run, a.action)
  }

  // The decision of the first approval for an action.
  function FirstDecision(approvals: seq<Approval>, action: Tool): Decision {
    if approvals == [] then Pending
    else if approvals[0].action == action then approvals[0].decision
    else FirstDecision(approvals[1..], action)
  }

  // Caches the state and inserts the rows that are not there yet.
  function Persist(sys: System, s: RunState, run: RunId, now: real, lost: set<ApprovalId>): System {
    var ids := IdsOf(run, s.approvals);
    var asked := sys.asked + map id | id in ids && id !in sys.asked :: now;
    var added := map id | id in ids && id !in sys.rows && id !in lost ::
                   ApprovalRow(FirstDecision(s.approvals, id.action), asked[id], asked[id] + APPROVAL_SECONDS, None,
                               "");
    sys.(states := sys.states[run := s], asked := asked, rows := sys.rows + added)
  }

  // --------------------------------------------------------------------------------------------
  // Running the graph
  // --------------------------------------------------------------------------------------------

  function Invocations(run: RunId, tools: seq<Tool>): seq<Entry> {
    if tools == [] then [] else Invocations(run, tools[..|tools| - 1]) + [Invoked(run, tools[|tools| - 1])]
  }

  function NewlyActed(s: RunState, s': RunState): seq<Tool> {
    var before, after := Acted(s.meter.calls), Acted(s'.meter.calls);
    if |before| <= |after| then after[|before|..] else []
  }

  // The world with the flag up from a tick on.
  function Raised(w: World, from: nat): World { w.(cancelled := (t: nat) => w.cancelled(t) || t >= from) }

  // The environment of a run's graph, with the flag as the gateway has set it.
  function EnvFor(env: RunId -> Env, sys: System, run: RunId): Env {
    if run in sys.flagged then env(run).(world := Raised(env(run).world, sys.flagged[run])) else env(run)
  }

  // A new graph object drives the run, saving as it goes.
  function RunGraph(env: Env, sys: System, run: RunId, s: RunState, now: real, lost: set<ApprovalId>): System {
    var s' := Run(env, s.(breaker := Breaker.CLOSED));
    var saved := Persist(sys, s', run, now, lost);
    saved.(trace := sys.trace + Invocations(run, NewlyActed(s, s')))
  }

  // --------------------------------------------------------------------------------------------
  // Deciding
  // --------------------------------------------------------------------------------------------

  // Copies the rows' decisions to the cached approvals.
  function Synced(rows: map<ApprovalId, ApprovalRow>, run: RunId, approvals: seq<Approval>): (r: seq<Approval>)
    ensures |r| == |approvals|
  {
    if approvals == [] then []
    else
      var a := approvals[|approvals| - 1];
      var id := ApprovalId(run, a.action);
      Synced(rows, run, approvals[..|approvals| - 1]) + [if id in rows then a.(decision := rows[id].decision) else a]
  }

  function MaybeResume(env: Env, sys: System, run: RunId, d: Decision, now: real, lost: set<ApprovalId>): System {
    if run !in sys.states then sys
    else
      var s := sys.states[run].(approvals := Synced(sys.rows, run, sys.states[run].approvals));
      var synced := sys.(states := sys.states[run := s]);
      if s.node != ApprovalPause then synced
      else if d == RejectedByHuman then
        Persist(synced, s.(status := StatusCompleted, verdict := Some(Rejected)), run, now, lost)
      else RunGraph(env, synced, run, s.(node := ExecuteApproved, status := Running), now, lost)
  }

  // The transaction: a pending row that has not expired is decided. Marking an expired row is rolled back
  // with the error it raises.
  function DecideRow(sys: System, id: ApprovalId, tenant: Tenant, d: Decision, approver: string, now: real)
    : (System, Response)
  {
    if id !in sys.rows || id.run !in sys.runs || sys.runs[id.run] != tenant then (sys, NotFound)
    else
      var row := sys.rows[id];
      if row.decision != Pending then (sys, AlreadyDecided)
      else if now > row.expiresAt then (sys, HasExpired)
      else
        (sys.(rows := sys.rows[id := row.(decision := d, approver := approver, decidedAt := Some(now))],
              trace := sys.trace + [Committed(id, d, now, row.expiresAt)]), Accepted)
  }

  function DecideRequest(env: RunId -> Env, sys: System, req: Request): (System, Response)
    requires req.Decide?
  {
    var memo := (req.id, req.key);
    if Text.Strip(req.approver) == "" || req.key == "" || (req.decision != Approved && req.decision != RejectedByHuman)
    then (sys, Invalid)
    else if memo in sys.replies && sys.replies[memo].run == req.path then (sys, Reply(sys.replies[memo]))
    else if req.path !in sys.runs || sys.runs[req.path] != req.tenant then (sys, NotFound)
    else
      var (decided, response) := DecideRow(sys, req.id, req.tenant, req.decision, req.approver, req.now);
      if response != Accepted then (sys, response)
      else if req.id.run != req.path then (decided, NotFound)
      else
        var outcome := Outcome(req.id, req.path, req.decision, req.approver);
        var told := decided.(replies := decided.replies[memo := outcome]);
        (MaybeResume(EnvFor(env, told, req.path), told, req.path, req.decision, req.now, req.lost), Reply(outcome))
  }

  // The state of a run that is being cancelled, with its flag raised unless it was before.
  function Flagged(sys: System, run: RunId): System
    requires run in sys.states
  {
    var flagged := if run in sys.flagged then sys.flagged else sys.flagged[run := sys.states[run].meter.tick];
    sys.(states := sys.states[run := sys.states[run].(status := StatusCancelled)], flagged := flagged)
  }

  function Cancel(sys: System, run: RunId, tenant: Tenant): (System, Response) {
    if run !in sys.runs || sys.runs[run] != tenant then (sys, NotFound)
    else (if run in sys.states then Flagged(sys, run) else sys, Accepted)
  }

  // --------------------------------------------------------------------------------------------
  // Requests
  // --------------------------------------------------------------------------------------------

  function Handle(env: RunId -> Env, sys: System, req: Request): (System, Response) {
    match req
    case CreateRun(run, tenant, limits) =>
      if run in sys.runs then (sys, Invalid)
      else (sys.(runs := sys.runs[run := tenant], states := sys.states[run := NewRun(limits)]), Accepted)
    case ExecuteRun(run, now, lost) =>
      if run !in sys.states then (sys, Accepted)
      else (RunGraph(EnvFor(env, sys, run), sys, run, sys.states[run], now, lost), Accepted)
    case Decide(_, _, _, _, _, _, _, _) => DecideRequest(env, sys, req)
    case CancelRun(run, tenant) => Cancel(sys, run, tenant)
    case Restart => (sys.(states := map[], flagged := map[], asked := map[], replies := map[]), Accepted)
  }

  function AfterRequests(env: RunId -> Env, reqs: seq<Request>): System {
    if reqs == [] then EMPTY else Handle(env, AfterRequests(env, reqs[..|reqs| - 1]), reqs[|reqs| - 1]).0
  }

  lemma RunWithinApproved(env: Env, s: RunState)
    ensures var s' := Run(env, s.(breaker := Breaker.CLOSED));
            && Acted(s'.meter.calls) == Acted(s.meter.calls) + NewlyActed(s, s')
            && (forall t :: t in NewlyActed(s, s') ==> t in ApprovedTools(s.approvals))
  {
    hide ApprovedTools, Acted, Drive;
    var s0 := s.(breaker := Breaker.CLOSED);
    DriveWithinApproved(env, if s0.status == Created then Transition(s0.(status := Running), Classify, RunStarted)
                             else s0);
  }
}
