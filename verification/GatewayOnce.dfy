/** How often and when the gateway invokes actions: each at most once; and what a rejection does not stop. */
module GatewayOnce {
  import opened Wrappers
  import opened Catalog
  import Text
  import opened Budget
  import opened Graph
  import opened GraphLedger
  import opened GraphShape
  import opened GraphActions
  import opened Gateway
  import opened GatewaySafety
  import Breaker

  // --------------------------------------------------------------------------------------------
  // One state
  // --------------------------------------------------------------------------------------------

  // Nothing is invoked before the gate, and a run that stopped among its actions is stuck there. Unlike
  // the graph's own invariant, this says nothing of the approvals, which the gateway may still change.
  ghost predicate Once(env: Env, s: RunState) {
    var acted := Acted(s.meter.calls);
    && Distinct(acted)
    && (Rank(s.node) < 10 ==> acted == [])
    && (s.node == ExecuteApproved && acted != [] ==> Stuck(env, s))
  }

  lemma PrefixIsDistinct(tools: seq<Tool>, all: seq<Tool>)
    requires tools <= all && Distinct(all)
    ensures Distinct(tools)
  {
  }

  lemma TurnKeepsOnce(env: Env, s: RunState)
    requires StopsLast(env.world, s.limits) && LedgerInv(env, s) && Shape(env, s) && Once(env, s)
    ensures Once(env, Turn(env, s).state)
  {
    hide StopsLast, LedgerInv, Shape, Stuck, Moves, Acted, Wanted, ApprovedTools, Dispatch, DoExecute,
         Distinct;
    if Stuck(env, s) {
      StuckStops(env, s);
    } else {
      TurnMoves(env, s);
      TurnClimbs(env, s);
      var g, r := Guard(env, s), Turn(env, s);
      GuardMoves(env, s);
      MeterAside(env, s, g.state.meter);
      if g.signal == Next {
        if s.node == ExecuteApproved {
          ExecuteIsDispatched(env, g.state);
          ExecuteStep(env, g.state);
          ProposalsAreDistinct(env, g.state);
          PrefixIsDistinct(Acted(r.state.meter.calls), WantedOf(g.state));
          if r.signal.Raise? && r.signal.why != Crashed { StoppedIsStuck(env, s, r.state, r.signal); }
        } else {
          OtherNodesActNot(env, g.state);
        }
      }
    }
  }

  ghost predicate StateOk(env: Env, s: RunState) {
    StopsLast(env.world, s.limits) && LedgerInv(env, s) && Shape(env, s) && Once(env, s)
  }

  lemma CloseKeepsOnce(env: Env, s: RunState, why: Why)
    requires StateOk(env, s)
    ensures StateOk(env, Close(s, why))
  {
    hide Shape, MeterInv, CancelSeen, Blocked, Acted, Distinct;
    CloseKeepsShape(env, s, why);
  }

  lemma {:induction false} DriveKeepsOnce(env: Env, s: RunState)
    requires StateOk(env, s) && s.status != Created
    ensures StateOk(env, Drive(env, s))
    decreases 12 - Rank(s.node)
  {
    hide StopsLast, LedgerInv, Shape, Once, Turn, Close;
    TurnKeepsOnce(env, s);
    TurnKeepsShape(env, s);
    LedgerAfterTurn(env, s);
    TurnClimbs(env, s);
    var r := Turn(env, s);
    match r.signal
    case Next => DriveKeepsOnce(env, r.state);
    case Return =>
    case Raise(why) => CloseKeepsOnce(env, r.state, why);
  }

  lemma RunKeepsOnce(env: Env, s: RunState)
    requires StateOk(env, s)
    ensures StateOk(env, Run(env, s.(breaker := Breaker.CLOSED)))
  {
    hide StopsLast, MeterInv, Shape, Stuck, Acted, Distinct, Drive;
    var s0 := s.(breaker := Breaker.CLOSED);
    FreshBreaker(env, s);
    if s0.status == Created {
      BegunIsOk(env, s0);
      DriveKeepsOnce(env, Transition(s0.(status := Running), Classify, RunStarted));
    } else {
      DriveKeepsOnce(env, s0);
    }
  }

  lemma BegunIsOk(env: Env, s: RunState)
    requires StateOk(env, s) && s.status == Created
    ensures StateOk(env, Transition(s.(status := Running), Classify, RunStarted))
  {
    hide MeterInv, CancelSeen, Blocked, Acted, Distinct, Grounded, ProposedFrom, Breaker.Consistent;
    BegunKeepsShape(env, s);
  }

  lemma FreshBreaker(env: Env, s: RunState)
    requires StateOk(env, s)
    ensures StateOk(env, s.(breaker := Breaker.CLOSED))
  {
    hide MeterInv, CancelSeen, Blocked, Acted, Distinct, ProposedFrom, Grounded;
    assert Grounded(s.(breaker := Breaker.CLOSED)) == Grounded(s) by { BreakerAside(s); }
  }

  lemma BreakerAside(s: RunState)
    ensures Grounded(s.(breaker := Breaker.CLOSED)) == Grounded(s)
  {
  }

  // What the gateway itself does to a cached state.
  lemma GatewayKeepsStateOk(env: Env, s: RunState, approvals: seq<Approval>)
    requires StateOk(env, s)
    ensures StateOk(env, s.(approvals := approvals))
    ensures StateOk(env, s.(status := StatusCancelled))
    ensures s.node == ApprovalPause
            ==> StateOk(env, s.(approvals := approvals, status := StatusCompleted, verdict := Some(Rejected)))
    ensures s.node == ApprovalPause
            ==> StateOk(env, s.(approvals := approvals, node := ExecuteApproved, status := Running))
  {
    hide MeterInv, CancelSeen, Blocked, Acted, Distinct, ProposedFrom, AllWellFormed, MaxConfidence, Breaker.Consistent;
  }

  // --------------------------------------------------------------------------------------------
  // All states
  // --------------------------------------------------------------------------------------------

  // The actions of a run among the entries.
  function InvokedOf(trace: seq<Entry>, run: RunId): seq<Tool> {
    if trace == [] then []
    else
      var front, last := trace[..|trace| - 1], trace[|trace| - 1];
      if last.Invoked? && last.run == run then InvokedOf(front, run) + [last.tool] else InvokedOf(front, run)
  }

  lemma {:induction false} InvokedAppend(trace: seq<Entry>, source: RunId, tools: seq<Tool>, run: RunId)
    ensures InvokedOf(trace + Invocations(source, tools), run)
            == if source == run then InvokedOf(trace, run) + tools else InvokedOf(trace, run)
  {
    var all := trace + Invocations(source, tools);
    if tools == [] {
      assert all == trace;
    } else {
      InvokedAppend(trace, source, tools[..|tools| - 1], run);
      assert all[..|all| - 1] == trace + Invocations(source, tools[..|tools| - 1]);
      assert tools == tools[..|tools| - 1] + [tools[|tools| - 1]];
    }
  }

  ghost predicate StatesOk(env: RunId -> Env, sys: System) {
    forall run :: run in sys.states ==> StateOk(EnvFor(env, sys, run), sys.states[run])
  }

  // The trace agrees with the cached runs' own records, and names no action of a run twice.
  ghost predicate Tallied(sys: System) {
    && (forall run :: run in sys.states ==>
          run in sys.runs && InvokedOf(sys.trace, run) == Acted(sys.states[run].meter.calls))
    && (forall run :: Distinct(InvokedOf(sys.trace, run)))
    && (forall run :: run !in sys.runs ==> InvokedOf(sys.trace, run) == [])
  }

  ghost predicate Counted(env: RunId -> Env, sys: System) { StatesOk(env, sys) && Tallied(sys) }

  // If the request creates a run, what stops that run under its limits stops it for good.
  ghost predicate Calms(env: RunId -> Env, sys: System, req: Request) {
    req.CreateRun? && req.run !in sys.runs ==> StopsLast(env(req.run).world, req.limits)
  }

  // What stops a run stops it for good, for every run that is created.
  ghost predicate AllCalm(env: RunId -> Env, reqs: seq<Request>) {
    reqs == [] || (AllCalm(env, reqs[..|reqs| - 1])
                   && Calms(env, AfterRequests(env, reqs[..|reqs| - 1]), reqs[|reqs| - 1]))
  }

  lemma RaisedStopsLast(w: World, from: nat, lim: Limits)
    requires StopsLast(w, lim)
    ensures StopsLast(Raised(w, from), lim)
  {
  }

  lemma StopsLastFor(env: RunId -> Env, sys: System, run: RunId, lim: Limits)
    requires StopsLast(env(run).world, lim)
    ensures StopsLast(EnvFor(env, sys, run).world, lim)
  {
    hide StopsLast;
    if run in sys.flagged { RaisedStopsLast(env(run).world, sys.flagged[run], lim); }
  }

  lemma MoreInvocationsKeepCounted(env: RunId -> Env, sys: System, run: RunId, s: RunState, tools: seq<Tool>,
                                   sys': System)
    requires Counted(env, sys) && run in sys.states && StateOk(EnvFor(env, sys, run), s)
    requires Acted(s.meter.calls) == Acted(sys.states[run].meter.calls) + tools
    requires sys'.runs == sys.runs && sys'.states == sys.states[run := s] && sys'.flagged == sys.flagged
    requires sys'.trace == sys.trace + Invocations(run, tools)
    ensures Counted(env, sys')
  {
    hide StateOk, Acted, InvokedOf, Distinct, Invocations;
    ActedIsDistinct(EnvFor(env, sys, run), s);
    forall r
      ensures InvokedOf(sys'.trace, r) == if run == r then InvokedOf(sys.trace, r) + tools else InvokedOf(sys.trace, r)
    {
      InvokedAppend(sys.trace, run, tools, r);
    }
  }

  lemma RunGraphKeepsCounted(env: RunId -> Env, sys: System, run: RunId, s: RunState, now: real, lost: set<ApprovalId>)
    requires Counted(env, sys) && run in sys.states
    requires StateOk(EnvFor(env, sys, run), s) && s.meter == sys.states[run].meter
    ensures Counted(env, RunGraph(EnvFor(env, sys, run), sys, run, s, now, lost))
  {
    hide StateOk, Counted, EnvFor, Run, Persist, NewlyActed, Acted, Invocations,
         ApprovedTools;
    var e := EnvFor(env, sys, run);
    var s' := Run(e, s.(breaker := Breaker.CLOSED));
    RunKeepsOnce(e, s);
    RunWithinApproved(e, s);
    SaveFrame(sys, s', run, now, lost);
    MoreInvocationsKeepCounted(env, sys, run, s', NewlyActed(s, s'), RunGraph(e, sys, run, s, now, lost));
  }

  lemma ActedIsDistinct(env: Env, s: RunState)
    requires StateOk(env, s)
    ensures Distinct(Acted(s.meter.calls))
  {
  }

  lemma CachedKeepsCounted(env: RunId -> Env, sys: System, run: RunId, s: RunState)
    requires Counted(env, sys) && run in sys.states && StateOk(EnvFor(env, sys, run), s)
             && s.meter == sys.states[run].meter
    ensures Counted(env, sys.(states := sys.states[run := s]))
  {
    hide StateOk, Acted, InvokedOf, Distinct;
  }

  lemma PersistKeepsCounted(env: RunId -> Env, sys: System, run: RunId, s: RunState, now: real, lost: set<ApprovalId>)
    requires Counted(env, sys) && run in sys.states && StateOk(EnvFor(env, sys, run), s)
             && s.meter == sys.states[run].meter
    ensures Counted(env, Persist(sys, s, run, now, lost))
  {
    hide StateOk, Acted, InvokedOf, Distinct, Persist;
    SaveFrame(sys, s, run, now, lost);
  }

  lemma MaybeResumeKeepsCounted(env: RunId -> Env, sys: System, run: RunId, d: Decision, now: real,
                                lost: set<ApprovalId>)
    requires Counted(env, sys)
    ensures Counted(env, MaybeResume(EnvFor(env, sys, run), sys, run, d, now, lost))
  {
    hide StateOk, Acted, InvokedOf, Distinct, Persist, RunGraph, Synced;
    if run in sys.states {
      var approvals := Synced(sys.rows, run, sys.states[run].approvals);
      GatewayKeepsStateOk(EnvFor(env, sys, run), sys.states[run], approvals);
      var s := sys.states[run].(approvals := approvals);
      CachedKeepsCounted(env, sys, run, s);
      var synced := sys.(states := sys.states[run := s]);
      if s.node == ApprovalPause {
        if d == RejectedByHuman {
          PersistKeepsCounted(env, synced, run, s.(status := StatusCompleted, verdict := Some(Rejected)), now, lost);
        } else {
          RunGraphKeepsCounted(env, synced, run, s.(node := ExecuteApproved, status := Running), now, lost);
        }
      }
    }
  }

  // Raising a flag now changes nothing of the past.
  lemma RaisingKeepsLedger(env: Env, s: RunState)
    requires LedgerInv(env, s)
    ensures LedgerInv(env.(world := Raised(env.world, s.meter.tick)), s)
  {
    hide Over, Performed, Covers, Balanced;
    var raised := Raised(env.world, s.meter.tick);
    forall i | 0 <= i < |s.meter.calls|
      ensures CallOk(raised, s.limits, s.meter.calls, i)
    {
      assert CallOk(env.world, s.limits, s.meter.calls, i);
    }
  }

  lemma ShapeIsOfTheArguments(env: Env, w: World, s: RunState)
    requires Shape(env, s)
    ensures Shape(env.(world := w), s.(status := StatusCancelled))
  {
    hide AllWellFormed, MaxConfidence, MentionsDeployment, Breaker.Consistent;
  }

  lemma RaisingKeepsOnce(env: Env, s: RunState)
    requires Once(env, s)
    ensures Once(env.(world := Raised(env.world, s.meter.tick)), s.(status := StatusCancelled))
  {
    hide Acted, Distinct, Over;
    var raised := Raised(env.world, s.meter.tick);
    assert forall t: nat :: env.world.cancelled(t) ==> raised.cancelled(t);
    assert CancelSeen(env.world, s.meter) ==> CancelSeen(raised, s.meter);
    assert Blocked(env.world, s.limits, s.meter) ==> Blocked(raised, s.limits, s.meter);
  }

  lemma RaisingKeepsStateOk(env: Env, s: RunState)
    requires StateOk(env, s)
    ensures StateOk(env.(world := Raised(env.world, s.meter.tick)), s.(status := StatusCancelled))
  {
    hide StopsLast, MeterInv, Shape, Once, Raised;
    RaisedStopsLast(env.world, s.meter.tick, s.limits);
    RaisingKeepsLedger(env, s);
    RaisingKeepsOnce(env, s);
    ShapeIsOfTheArguments(env, Raised(env.world, s.meter.tick), s);
  }

  // Raising one run's flag leaves the other runs' environments.
  lemma OthersKeepTheirEnv(env: RunId -> Env, sys: System, run: RunId, r: RunId)
    requires run in sys.states
    ensures r != run || run in sys.flagged ==> EnvFor(env, Flagged(sys, run), r) == EnvFor(env, sys, r)
    ensures run !in sys.flagged ==>
              EnvFor(env, Flagged(sys, run), run)
              == env(run).(world := Raised(env(run).world, sys.states[run].meter.tick))
  {
    hide Raised;
  }

  lemma FlaggedStateOk(env: RunId -> Env, sys: System, run: RunId)
    requires Counted(env, sys) && run in sys.states
    ensures StateOk(EnvFor(env, Flagged(sys, run), run), sys.states[run].(status := StatusCancelled))
  {
    StateIsOk(env, sys, run);
    OthersKeepTheirEnv(env, sys, run, run);
    hide StateOk, Counted, Raised, Flagged;
    if run in sys.flagged {
      GatewayKeepsStateOk(EnvFor(env, sys, run), sys.states[run], []);
    } else {
      RaisingKeepsStateOk(env(run), sys.states[run]);
    }
  }

  lemma FlaggedFrame(sys: System, run: RunId)
    requires run in sys.states
    ensures var sys' := Flagged(sys, run);
            && sys'.runs == sys.runs && sys'.trace == sys.trace
            && sys'.states == sys.states[run := sys.states[run].(status := StatusCancelled)]
            && sys'.flagged.Keys == sys.flagged.Keys + {run}
  {
  }

  lemma OthersUntouched(env: RunId -> Env, sys: System, run: RunId, r: RunId)
    requires run in sys.states && r in sys.states && r != run
    ensures var sys' := Flagged(sys, run);
            && r in sys'.states && sys'.states[r] == sys.states[r]
            && EnvFor(env, sys', r) == EnvFor(env, sys, r) && FlagOf(sys', r) == FlagOf(sys, r)
  {
    OthersKeepTheirEnv(env, sys, run, r);
    hide EnvFor;
  }

  lemma FlaggedKeepsStatesOk(env: RunId -> Env, sys: System, run: RunId)
    requires Counted(env, sys) && run in sys.states
    ensures StatesOk(env, Flagged(sys, run))
  {
    FlaggedFrame(sys, run);
    FlaggedStateOk(env, sys, run);
    hide StateOk, Tallied, EnvFor, Flagged, FlagOf;
    var sys' := Flagged(sys, run);
    forall r | r in sys'.states
      ensures StateOk(EnvFor(env, sys', r), sys'.states[r])
    {
      if r != run {
        OthersUntouched(env, sys, run, r);
        StateIsOk(env, sys, r);
      }
    }
  }

  lemma FlaggedKeepsTallied(sys: System, run: RunId)
    requires Tallied(sys) && run in sys.states
    ensures Tallied(Flagged(sys, run))
  {
    FlaggedFrame(sys, run);
    hide Acted, Distinct, InvokedOf, Flagged, FlagOf;
  }

  lemma FlaggedKeepsCounted(env: RunId -> Env, sys: System, run: RunId)
    requires Counted(env, sys) && run in sys.states
    ensures Counted(env, Flagged(sys, run))
  {
    hide StatesOk, Tallied, Flagged;
    FlaggedKeepsStatesOk(env, sys, run);
    FlaggedKeepsTallied(sys, run);
  }

  lemma CancelKeepsCounted(env: RunId -> Env, sys: System, run: RunId, tenant: Tenant)
    requires Counted(env, sys)
    ensures Counted(env, Cancel(sys, run, tenant).0)
  {
    hide Counted, Flagged;
    if run in sys.states { FlaggedKeepsCounted(env, sys, run); }
  }

  function FlagOf(sys: System, run: RunId): Option<nat> {
    if run in sys.flagged then Some(sys.flagged[run]) else None
  }

  lemma StateIsOk(env: RunId -> Env, sys: System, run: RunId)
    requires Counted(env, sys) && run in sys.states
    ensures StateOk(EnvFor(env, sys, run), sys.states[run])
  {
  }

  lemma DecideRowKeepsCounted(env: RunId -> Env, sys: System, id: ApprovalId, tenant: Tenant, d: Decision,
                              approver: string, now: real)
    requires Counted(env, sys)
    ensures Counted(env, DecideRow(sys, id, tenant, d, approver, now).0)
  {
    hide StateOk, Acted, Distinct;
    var sys' := DecideRow(sys, id, tenant, d, approver, now).0;
    if sys' != sys {
      assert sys'.trace[..|sys'.trace| - 1] == sys.trace;
      assert forall run :: InvokedOf(sys'.trace, run) == InvokedOf(sys.trace, run);
    }
  }

  lemma RepliesKeepCounted(env: RunId -> Env, sys: System, replies: map<(ApprovalId, string), Outcome>)
    requires Counted(env, sys)
    ensures Counted(env, sys.(replies := replies))
  {
    hide StateOk, Acted, Distinct, InvokedOf;
  }

  lemma CreateKeepsCounted(env: RunId -> Env, sys: System, run: RunId, tenant: Tenant, limits: Limits)
    requires Counted(env, sys) && run !in sys.runs && StopsLast(env(run).world, limits)
    ensures Counted(env, sys.(runs := sys.runs[run := tenant], states := sys.states[run := NewRun(limits)]))
  {
    hide StopsLast, StateOk, InvokedOf, EnvFor, NewRun, Tallied;
    CreateKeepsTallied(sys, run, tenant, limits);
    var sys' := sys.(runs := sys.runs[run := tenant], states := sys.states[run := NewRun(limits)]);
    StopsLastFor(env, sys', run, limits);
    NewRunOk(EnvFor(env, sys', run), limits);
    forall r | r in sys.states
      ensures EnvFor(env, sys', r) == EnvFor(env, sys, r)
    {
      SameFlagsSameEnv(env, sys, sys', r);
    }
  }

  lemma CreateKeepsTallied(sys: System, run: RunId, tenant: Tenant, limits: Limits)
    requires Tallied(sys) && run !in sys.runs
    ensures Tallied(sys.(runs := sys.runs[run := tenant], states := sys.states[run := NewRun(limits)]))
  {
    hide Distinct, InvokedOf;
  }

  lemma SameFlagsSameEnv(env: RunId -> Env, sys: System, sys': System, run: RunId)
    requires sys'.flagged == sys.flagged
    ensures EnvFor(env, sys', run) == EnvFor(env, sys, run)
  {
  }

  lemma HandleKeepsCounted(env: RunId -> Env, sys: System, req: Request)
    requires Counted(env, sys) && Calms(env, sys, req)
    ensures Counted(env, Handle(env, sys, req).0)
  {
    hide StateOk, Acted, Distinct, InvokedOf, RunGraph, DecideRow, MaybeResume, Text.Strip;
    match req
    case CreateRun(run, tenant, limits) =>
      if run !in sys.runs { CreateKeepsCounted(env, sys, run, tenant, limits); }
    case ExecuteRun(run, now, lost) =>
      if run in sys.states { RunGraphKeepsCounted(env, sys, run, sys.states[run], now, lost); }
    case Decide(path, id, tenant, d, approver, key, now, lost) =>
      DecideRowKeepsCounted(env, sys, id, tenant, d, approver, now);
      var decided := DecideRow(sys, id, tenant, d, approver, now).0;
      var replies := decided.replies[(id, key) := Outcome(id, path, d, approver)];
      RepliesKeepCounted(env, decided, replies);
      MaybeResumeKeepsCounted(env, decided.(replies := replies), path, d, now, lost);
    case CancelRun(run, tenant) => CancelKeepsCounted(env, sys, run, tenant);
    case Restart =>
  }

  lemma NewRunOk(env: Env, limits: Limits)
    ensures var s := NewRun(limits); LedgerInv(env, s) && Shape(env, s) && Once(env, s) && Acted(s.meter.calls) == []
    ensures StopsLast(env.world, limits) ==> StateOk(env, NewRun(limits))
  {
    ReachableShape(env, limits, []);
  }

  lemma {:induction false} ReachableCounted(env: RunId -> Env, reqs: seq<Request>)
    requires AllCalm(env, reqs)
    ensures Counted(env, AfterRequests(env, reqs))
  {
    if reqs == [] {
      assert AfterRequests(env, reqs) == EMPTY;
    } else {
      hide Counted, Handle, Calms;
      ReachableCounted(env, reqs[..|reqs| - 1]);
      HandleKeepsCounted(env, AfterRequests(env, reqs[..|reqs| - 1]), reqs[|reqs| - 1]);
    }
  }

  lemma {:induction false} InvokedTwice(trace: seq<Entry>, i: nat, j: nat)
    requires i < j < |trace| && trace[i].Invoked? && trace[i] == trace[j]
    ensures !Distinct(InvokedOf(trace, trace[i].run))
  {
    var run := trace[i].run;
    var front, last := trace[..|trace| - 1], trace[|trace| - 1];
    var before := InvokedOf(front, run);
    if j < |trace| - 1 {
      InvokedTwice(front, i, j);
      assert !Distinct(before);
      var a, b :| 0 <= a < b < |before| && before[a] == before[b];
      var all := InvokedOf(trace, run);
      assert all[a] == before[a] && all[b] == before[b];
    } else {
      InvokedIsListed(front, i);
      var all := InvokedOf(trace, run);
      var a :| 0 <= a < |before| && before[a] == trace[i].tool;
      assert all[a] == before[a] && all[|all| - 1] == last.tool;
    }
  }

  lemma {:induction false} InvokedIsListed(trace: seq<Entry>, i: nat)
    requires i < |trace| && trace[i].Invoked?
    ensures trace[i].tool in InvokedOf(trace, trace[i].run)
  {
    if i < |trace| - 1 { InvokedIsListed(trace[..|trace| - 1], i); }
  }

  /** At most once: over every sequence of requests, if what stops a run stops it for good, no action of a run is
      invoked twice. */
  lemma GatewayInvokesAtMostOnce(env: RunId -> Env, reqs: seq<Request>, i: nat, j: nat)
    requires AllCalm(env, reqs)
    requires var trace := AfterRequests(env, reqs).trace;
             i < |trace| && j < |trace| && trace[i].Invoked? && trace[i] == trace[j]
    ensures i == j
  {
    var trace := AfterRequests(env, reqs).trace;
    ReachableCounted(env, reqs);
    if i < j {
      InvokedTwice(trace, i, j);
    } else if j < i {
      InvokedTwice(trace, j, i);
    }
  }

  // --------------------------------------------------------------------------------------------
  // Cancelling through the gateway
  // --------------------------------------------------------------------------------------------

  // The run's flag is up, if the process still knows the run, and it has invoked `tools`.
  ghost predicate Halted(sys: System, run: RunId, tools: seq<Tool>) {
    && run in sys.runs && InvokedOf(sys.trace, run) == tools
    && (run in sys.states ==> run in sys.flagged && sys.flagged[run] <= sys.states[run].meter.tick)
  }

  // A run of the graph keeps every run halted: its own, because the flag is up, and any other.
  lemma RunGraphKeepsHalted(env: RunId -> Env, sys: System, r: RunId, s: RunState, now: real, lost: set<ApprovalId>,
                            run: RunId, tools: seq<Tool>)
    requires Halted(sys, run, tools) && r in sys.states && s.meter == sys.states[r].meter
    ensures Halted(RunGraph(EnvFor(env, sys, r), sys, r, s, now, lost), run, tools)
  {
    hide Run, Persist, Acted, InvokedOf, Invocations, Raised;
    var e := EnvFor(env, sys, r);
    var s0 := s.(breaker := Breaker.CLOSED);
    SaveFrame(sys, Run(e, s0), r, now, lost);
    InvokedAppend(sys.trace, r, NewlyActed(s, Run(e, s0)), run);
    if r == run {
      assert FlagUp(e, s0) by { RaisedIsUp(env(run), s0, sys.flagged[run]); }
      FlaggedRunStops(e, s0);
    }
  }

  lemma RaisedIsUp(env: Env, s: RunState, from: nat)
    requires from <= s.meter.tick
    ensures FlagUp(env.(world := Raised(env.world, from)), s)
  {
  }

  lemma MaybeResumeKeepsHalted(env: RunId -> Env, sys: System, r: RunId, d: Decision, now: real, lost: set<ApprovalId>,
                               run: RunId, tools: seq<Tool>)
    requires Halted(sys, run, tools)
    ensures Halted(MaybeResume(EnvFor(env, sys, r), sys, r, d, now, lost), run, tools)
  {
    hide Persist, RunGraph, Synced, InvokedOf;
    if r in sys.states {
      var s := sys.states[r].(approvals := Synced(sys.rows, r, sys.states[r].approvals));
      var synced := sys.(states := sys.states[r := s]);
      if s.node == ApprovalPause {
        SaveFrame(synced, s.(status := StatusCompleted, verdict := Some(Rejected)), r, now, lost);
        RunGraphKeepsHalted(env, synced, r, s.(node := ExecuteApproved, status := Running), now, lost, run, tools);
      }
    }
  }

  lemma DecideRowKeepsHalted(sys: System, id: ApprovalId, tenant: Tenant, d: Decision, approver: string, now: real,
                             run: RunId, tools: seq<Tool>)
    requires Halted(sys, run, tools)
    ensures Halted(DecideRow(sys, id, tenant, d, approver, now).0, run, tools)
  {
    var sys' := DecideRow(sys, id, tenant, d, approver, now).0;
    assert sys' == sys || sys'.trace[..|sys'.trace| - 1] == sys.trace;
  }

  lemma HandleKeepsHalted(env: RunId -> Env, sys: System, req: Request, run: RunId, tools: seq<Tool>)
    requires Halted(sys, run, tools)
    ensures Halted(Handle(env, sys, req).0, run, tools)
  {
    hide RunGraph, DecideRow, MaybeResume, Text.Strip, InvokedOf;
    match req
    case ExecuteRun(r, now, lost) =>
      if r in sys.states { RunGraphKeepsHalted(env, sys, r, sys.states[r], now, lost, run, tools); }
    case Decide(path, id, tenant, d, approver, key, now, lost) =>
      DecideRowKeepsHalted(sys, id, tenant, d, approver, now, run, tools);
      var decided := DecideRow(sys, id, tenant, d, approver, now).0;
      var told := decided.(replies := decided.replies[(id, key) := Outcome(id, path, d, approver)]);
      MaybeResumeKeepsHalted(env, told, path, d, now, lost, run, tools);
    case _ =>
  }

  lemma {:induction false} StaysHalted(env: RunId -> Env, reqs: seq<Request>, more: seq<Request>, run: RunId,
                                       tools: seq<Tool>)
    requires Halted(AfterRequests(env, reqs), run, tools)
    ensures Halted(AfterRequests(env, reqs + more), run, tools)
  {
    hide AfterRequests, Halted, Handle;
    if more == [] {
      assert reqs + more == reqs;
    } else {
      LastRequest(env, reqs, more);
      StaysHalted(env, reqs, more[..|more| - 1], run, tools);
      HandleKeepsHalted(env, AfterRequests(env, reqs + more[..|more| - 1]), more[|more| - 1], run, tools);
    }
  }

  // A ledger in order, a flag, if there is one, raised at or before the run's present tick, contents in
  // shape, and nothing invoked before the gate.
  ghost predicate RunInOrder(env: Env, s: RunState, flag: Option<nat>) {
    && LedgerInv(env, s) && (flag.Some? ==> flag.value <= s.meter.tick)
    && Shape(env, s) && (Rank(s.node) < 10 ==> Acted(s.meter.calls) == [])
  }

  ghost predicate InOrder(env: RunId -> Env, sys: System) {
    && (forall run :: run in sys.flagged ==> run in sys.states)
    && (forall run :: run in sys.states ==>
          run in sys.runs && RunInOrder(EnvFor(env, sys, run), sys.states[run], FlagOf(sys, run)))
  }

  lemma CachedKeepsInOrder(env: RunId -> Env, sys: System, r: RunId, s: RunState, sys': System)
    requires InOrder(env, sys) && r in sys.states && RunInOrder(EnvFor(env, sys, r), s, FlagOf(sys, r))
    requires sys'.states == sys.states[r := s] && sys'.flagged == sys.flagged && sys'.runs == sys.runs
    ensures InOrder(env, sys')
  {
    hide RunInOrder;
  }

  lemma OrderOf(env: RunId -> Env, sys: System, r: RunId)
    requires InOrder(env, sys) && r in sys.states
    ensures RunInOrder(EnvFor(env, sys, r), sys.states[r], FlagOf(sys, r))
  {
  }

  lemma {:induction false} DriveActsPastTheGate(env: Env, s: RunState)
    requires Rank(s.node) < 10 ==> Acted(s.meter.calls) == []
    ensures Rank(Drive(env, s).node) < 10 ==> Acted(Drive(env, s).meter.calls) == []
    decreases 12 - Rank(s.node)
  {
    hide Guard, Dispatch, Acted, Close;
    GuardFrame(env, s);
    GuardCalls(env, s);
    TurnClimbs(env, s);
    if s.node != ExecuteApproved { OtherNodesActNot(env, Guard(env, s).state); }
    var r := Turn(env, s);
    if r.signal == Next {
      DriveActsPastTheGate(env, r.state);
    } else if r.signal.Raise? {
      CloseFrame(r.state, r.signal.why);
    }
  }

  lemma RunKeepsOrder(env: Env, s: RunState, flag: Option<nat>)
    requires RunInOrder(env, s, flag)
    ensures RunInOrder(env, Run(env, s), flag)
  {
    ApplyLedger(env, s, DoRun);
    RunKeepsShape(env, s);
    RunActsPastTheGate(env, s);
    hide LedgerInv, Shape, Acted, Run;
  }

  lemma RunActsPastTheGate(env: Env, s: RunState)
    requires Shape(env, s) && (Rank(s.node) < 10 ==> Acted(s.meter.calls) == [])
    ensures Rank(Run(env, s).node) < 10 ==> Acted(Run(env, s).meter.calls) == []
  {
    hide Drive, Acted, Grounded, Breaker.Consistent, ProposedFrom;
    DriveActsPastTheGate(env, if s.status == Created then Transition(s.(status := Running), Classify, RunStarted)
                              else s);
  }

  // What the gateway itself does to a cached state, and a new graph object to the breaker.
  lemma GatewayKeepsOrder(env: Env, s: RunState, approvals: seq<Approval>, flag: Option<nat>)
    requires RunInOrder(env, s, flag)
    ensures RunInOrder(env, s.(approvals := approvals), flag)
    ensures RunInOrder(env, s.(breaker := Breaker.CLOSED), flag)
    ensures RunInOrder(env, s.(status := StatusCancelled), flag)
    ensures s.node == ApprovalPause ==> RunInOrder(env, s.(status := StatusCompleted, verdict := Some(Rejected)), flag)
    ensures s.node == ApprovalPause ==> RunInOrder(env, s.(node := ExecuteApproved, status := Running), flag)
  {
    hide MeterInv, Acted, ProposedFrom, AllWellFormed, MaxConfidence;
  }

  lemma RunGraphKeepsInOrder(env: RunId -> Env, sys: System, r: RunId, s: RunState, now: real, lost: set<ApprovalId>)
    requires InOrder(env, sys) && r in sys.states && RunInOrder(EnvFor(env, sys, r), s, FlagOf(sys, r))
    ensures InOrder(env, RunGraph(EnvFor(env, sys, r), sys, r, s, now, lost))
  {
    hide InOrder, RunInOrder, EnvFor, Persist, Run, NewlyActed, Invocations;
    var e, s0 := EnvFor(env, sys, r), s.(breaker := Breaker.CLOSED);
    GatewayKeepsOrder(e, s, [], FlagOf(sys, r));
    RunKeepsOrder(e, s0, FlagOf(sys, r));
    SaveFrame(sys, Run(e, s0), r, now, lost);
    CachedKeepsInOrder(env, sys, r, Run(e, s0), RunGraph(e, sys, r, s, now, lost));
  }

  // The approvals synced, as the first step of a resume.
  function AfterSync(sys: System, r: RunId): System
    requires r in sys.states
  {
    sys.(states := sys.states[r := sys.states[r].(approvals := Synced(sys.rows, r, sys.states[r].approvals))])
  }

  lemma SyncKeepsInOrder(env: RunId -> Env, sys: System, r: RunId)
    requires InOrder(env, sys) && r in sys.states
    ensures InOrder(env, AfterSync(sys, r)) && EnvFor(env, AfterSync(sys, r), r) == EnvFor(env, sys, r)
  {
    OrderOf(env, sys, r);
    hide InOrder, RunInOrder, Synced;
    var synced := AfterSync(sys, r);
    GatewayKeepsOrder(EnvFor(env, sys, r), sys.states[r], synced.states[r].approvals, FlagOf(sys, r));
    CachedKeepsInOrder(env, sys, r, synced.states[r], synced);
  }

  lemma MaybeResumeKeepsInOrder(env: RunId -> Env, sys: System, r: RunId, d: Decision, now: real, lost: set<ApprovalId>)
    requires InOrder(env, sys)
    ensures InOrder(env, MaybeResume(EnvFor(env, sys, r), sys, r, d, now, lost))
  {
    hide InOrder, RunInOrder, EnvFor, Persist, RunGraph, Synced;
    if r in sys.states {
      SyncKeepsInOrder(env, sys, r);
      var synced := AfterSync(sys, r);
      var s := synced.states[r];
      if s.node == ApprovalPause {
        var ended := s.(status := StatusCompleted, verdict := Some(Rejected));
        OrderOf(env, synced, r);
        SaveFrame(synced, ended, r, now, lost);
        GatewayKeepsOrder(EnvFor(env, synced, r), s, [], FlagOf(synced, r));
        CachedKeepsInOrder(env, synced, r, ended, Persist(synced, ended, r, now, lost));
        RunGraphKeepsInOrder(env, synced, r, s.(node := ExecuteApproved, status := Running), now, lost);
      }
    }
  }

  lemma CreateKeepsInOrder(env: RunId -> Env, sys: System, run: RunId, tenant: Tenant, limits: Limits)
    requires InOrder(env, sys) && run !in sys.runs
    ensures InOrder(env, sys.(runs := sys.runs[run := tenant], states := sys.states[run := NewRun(limits)]))
  {
    var sys' := sys.(runs := sys.runs[run := tenant], states := sys.states[run := NewRun(limits)]);
    FreshIsInOrder(EnvFor(env, sys', run), limits);
    hide RunInOrder;
    assert run !in sys.flagged;
  }

  lemma FreshIsInOrder(env: Env, limits: Limits)
    ensures RunInOrder(env, NewRun(limits), None)
  {
    NewRunOk(env, limits);
  }

  lemma FlaggedRunInOrder(env: RunId -> Env, sys: System, run: RunId)
    requires InOrder(env, sys) && run in sys.states
    ensures var sys' := Flagged(sys, run); RunInOrder(EnvFor(env, sys', run), sys'.states[run], FlagOf(sys', run))
    ensures FlagOf(Flagged(sys, run), run).Some? && FlagOf(Flagged(sys, run), run).value <= sys.states[run].meter.tick
  {
    OrderOf(env, sys, run);
    OthersKeepTheirEnv(env, sys, run, run);
    hide InOrder, EnvFor, LedgerInv, Shape, Acted, Raised;
    var s := sys.states[run];
    if run in sys.flagged {
      GatewayKeepsOrder(EnvFor(env, sys, run), s, [], FlagOf(sys, run));
    } else {
      RaisingKeepsLedger(env(run), s);
      LedgerOfTheMeter(env(run).(world := Raised(env(run).world, s.meter.tick)), s, s.(status := StatusCancelled));
      ShapeIsOfTheArguments(env(run), Raised(env(run).world, s.meter.tick), s);
    }
  }

  lemma LedgerOfTheMeter(env: Env, s: RunState, s': RunState)
    requires LedgerInv(env, s) && s'.meter == s.meter && s'.limits == s.limits
    ensures LedgerInv(env, s')
  {
  }

  lemma FlaggedKeepsInOrder(env: RunId -> Env, sys: System, run: RunId)
    requires InOrder(env, sys) && run in sys.states
    ensures InOrder(env, Flagged(sys, run))
  {
    FlaggedFrame(sys, run);
    FlaggedRunInOrder(env, sys, run);
    hide RunInOrder, EnvFor, Flagged, FlagOf;
    var sys' := Flagged(sys, run);
    forall r | r in sys'.states
      ensures RunInOrder(EnvFor(env, sys', r), sys'.states[r], FlagOf(sys', r))
    {
      if r != run {
        OthersUntouched(env, sys, run, r);
        OrderOf(env, sys, r);
      }
    }
  }

  lemma CancelKeepsInOrder(env: RunId -> Env, sys: System, run: RunId, tenant: Tenant)
    requires InOrder(env, sys)
    ensures InOrder(env, Cancel(sys, run, tenant).0)
  {
    hide InOrder, Flagged;
    if run in sys.states { FlaggedKeepsInOrder(env, sys, run); }
  }

  lemma HandleKeepsInOrder(env: RunId -> Env, sys: System, req: Request)
    requires InOrder(env, sys)
    ensures InOrder(env, Handle(env, sys, req).0)
  {
    hide RunInOrder, EnvFor, FlagOf, RunGraph, DecideRequest, Cancel, NewRun;
    match req
    case CreateRun(run, tenant, limits) => if run !in sys.runs { CreateKeepsInOrder(env, sys, run, tenant, limits); }
    case ExecuteRun(r, now, lost) =>
      if r in sys.states {
        OrderOf(env, sys, r);
        RunGraphKeepsInOrder(env, sys, r, sys.states[r], now, lost);
      }
    case Decide(_, _, _, _, _, _, _, _) => DecideKeepsInOrder(env, sys, req);
    case CancelRun(run, tenant) => CancelKeepsInOrder(env, sys, run, tenant);
    case Restart =>
  }

  lemma DecideKeepsInOrder(env: RunId -> Env, sys: System, req: Request)
    requires InOrder(env, sys) && req.Decide?
    ensures InOrder(env, DecideRequest(env, sys, req).0)
  {
    hide InOrder, EnvFor, MaybeResume, Text.Strip;
    var decided := DecideRow(sys, req.id, req.tenant, req.decision, req.approver, req.now).0;
    var outcome := Outcome(req.id, req.path, req.decision, req.approver);
    var told := decided.(replies := decided.replies[(req.id, req.key) := outcome]);
    RowsAside(env, sys, decided);
    RowsAside(env, sys, told);
    MaybeResumeKeepsInOrder(env, told, req.path, req.decision, req.now, req.lost);
  }

  lemma RowsAside(env: RunId -> Env, sys: System, sys': System)
    requires InOrder(env, sys) && sys'.states == sys.states && sys'.flagged == sys.flagged && sys'.runs == sys.runs
    ensures InOrder(env, sys')
  {
    hide RunInOrder;
  }

  lemma {:induction false} ReachableInOrder(env: RunId -> Env, reqs: seq<Request>)
    ensures InOrder(env, AfterRequests(env, reqs))
  {
    if reqs == [] {
      assert AfterRequests(env, reqs) == EMPTY;
    } else {
      hide InOrder, Handle;
      ReachableInOrder(env, reqs[..|reqs| - 1]);
      HandleKeepsInOrder(env, AfterRequests(env, reqs[..|reqs| - 1]), reqs[|reqs| - 1]);
    }
  }

  /** A run cancelled through the gateway invokes nothing from then on, whatever is decided or requested
      later, in every environment. */
  lemma CancelledRunInvokesNothing(env: RunId -> Env, reqs: seq<Request>, run: RunId, tenant: Tenant,
                                   more: seq<Request>)
    requires run in AfterRequests(env, reqs).runs && AfterRequests(env, reqs).runs[run] == tenant
    ensures InvokedOf(AfterRequests(env, reqs + [CancelRun(run, tenant)] + more).trace, run)
            == InvokedOf(AfterRequests(env, reqs).trace, run)
  {
    hide AfterRequests, InvokedOf, RunInOrder;
    var sys := AfterRequests(env, reqs);
    var cancel := [CancelRun(run, tenant)];
    LastRequest(env, reqs, cancel);
    assert reqs + cancel[..0] == reqs;
    ReachableInOrder(env, reqs);
    CancelHalts(env, sys, run, tenant);
    StaysHalted(env, reqs + cancel, more, run, InvokedOf(sys.trace, run));
  }

  lemma CancelHalts(env: RunId -> Env, sys: System, run: RunId, tenant: Tenant)
    requires InOrder(env, sys) && run in sys.runs && sys.runs[run] == tenant
    ensures Halted(Cancel(sys, run, tenant).0, run, InvokedOf(sys.trace, run))
  {
    hide InvokedOf, LedgerInv, EnvFor;
    if run in sys.states { FlaggedRunInOrder(env, sys, run); }
  }
}
