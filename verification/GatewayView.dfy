/** The two views of a run under the gateway: whatever is requested, the view rebuilt from the persisted events
    stands to the cached state as it does under the graph alone. */
module GatewayView {
  import opened Wrappers
  import opened Budget
  import opened Graph
  import opened GraphShape
  import opened CachedView
  import opened Gateway
  import opened GatewaySafety
  import opened GatewayOnce
  import Breaker
  import Text

  ghost predicate AllMirror(sys: System) {
    forall run :: run in sys.states ==> Mirrors(sys.states[run])
  }

  // What the gateway itself does to a cached state leaves log, findings and proposals alone.
  lemma GatewayKeepsMirrors(s: RunState, s': RunState)
    requires Mirrors(s) && s'.log == s.log && s'.findings == s.findings && s'.actions == s.actions
    requires s'.node == s.node || Rank(s'.node) > 8
    ensures Mirrors(s')
  {
    hide FindingsOf, AskedOf, EventsOf;
  }

  lemma CachedKeepsAllMirror(sys: System, run: RunId, s: RunState, sys': System)
    requires AllMirror(sys) && Mirrors(s) && sys'.states == sys.states[run := s]
    ensures AllMirror(sys')
  {
    hide Mirrors;
  }

  lemma RunGraphKeepsAllMirror(env: Env, sys: System, run: RunId, s: RunState, now: real, lost: set<ApprovalId>)
    requires AllMirror(sys) && Mirrors(s) && Shape(env, s.(breaker := Breaker.CLOSED))
    ensures AllMirror(RunGraph(env, sys, run, s, now, lost))
  {
    hide AllMirror, Mirrors, Shape, Run, Persist, NewlyActed, Invocations, Gates;
    var s0 := s.(breaker := Breaker.CLOSED);
    GatewayKeepsMirrors(s, s0);
    RunMirrors(env, s0);
    SaveFrame(sys, Run(env, s0), run, now, lost);
    CachedKeepsAllMirror(sys, run, Run(env, s0), RunGraph(env, sys, run, s, now, lost));
  }

  lemma ShapeOf(env: RunId -> Env, sys: System, run: RunId)
    requires InOrder(env, sys) && run in sys.states
    ensures var s := sys.states[run];
            && Shape(EnvFor(env, sys, run), s.(breaker := Breaker.CLOSED))
            && (s.node == ApprovalPause ==>
                  Shape(EnvFor(env, sys, run),
                        s.(node := ExecuteApproved, status := Running, breaker := Breaker.CLOSED)))
  {
    OrderOf(env, sys, run);
    hide InOrder, EnvFor, FlagOf;
    var s, e := sys.states[run], EnvFor(env, sys, run);
    GatewayKeepsOrder(e, s, [], FlagOf(sys, run));
    if s.node == ApprovalPause {
      GatewayKeepsOrder(e, s.(node := ExecuteApproved, status := Running), [], FlagOf(sys, run));
    }
  }

  lemma MaybeResumeKeepsAllMirror(env: RunId -> Env, sys: System, run: RunId, d: Decision, now: real,
                                  lost: set<ApprovalId>)
    requires AllMirror(sys) && InOrder(env, sys)
    ensures AllMirror(MaybeResume(EnvFor(env, sys, run), sys, run, d, now, lost))
  {
    hide AllMirror, Mirrors, InOrder, Shape, EnvFor, Persist, RunGraph, Synced;
    if run in sys.states {
      var synced := AfterSync(sys, run);
      var s := synced.states[run];
      MirrorsOf(sys, run);
      GatewayKeepsMirrors(sys.states[run], s);
      CachedKeepsAllMirror(sys, run, s, synced);
      SyncKeepsInOrder(env, sys, run);
      ShapeOf(env, synced, run);
      if s.node == ApprovalPause {
        var ended := s.(status := StatusCompleted, verdict := Some(Rejected));
        GatewayKeepsMirrors(s, ended);
        SaveFrame(synced, ended, run, now, lost);
        CachedKeepsAllMirror(synced, run, ended, Persist(synced, ended, run, now, lost));
        var off := s.(node := ExecuteApproved, status := Running);
        GatewayKeepsMirrors(s, off);
        SameFlagsSameEnv(env, sys, synced, run);
        RunGraphKeepsAllMirror(EnvFor(env, sys, run), synced, run, off, now, lost);
      }
    }
  }

  lemma MirrorsOf(sys: System, run: RunId)
    requires AllMirror(sys) && run in sys.states
    ensures Mirrors(sys.states[run])
  {
  }

  lemma SameStatesMirror(sys: System, sys': System)
    requires AllMirror(sys) && sys'.states == sys.states
    ensures AllMirror(sys')
  {
  }

  lemma HandleKeepsAllMirror(env: RunId -> Env, sys: System, req: Request)
    requires AllMirror(sys) && InOrder(env, sys)
    ensures AllMirror(Handle(env, sys, req).0)
  {
    hide AllMirror, Mirrors, InOrder, EnvFor, RunGraph, MaybeResume, NewRun, Text.Strip;
    match req
    case CreateRun(run, tenant, limits) =>
      if run !in sys.runs {
        NewRunMirrors(limits);
        CachedKeepsAllMirror(sys, run, NewRun(limits), Handle(env, sys, req).0);
      }
    case ExecuteRun(run, now, lost) =>
      if run in sys.states {
        MirrorsOf(sys, run);
        ShapeOf(env, sys, run);
        RunGraphKeepsAllMirror(EnvFor(env, sys, run), sys, run, sys.states[run], now, lost);
      }
    case Decide(path, id, tenant, d, approver, key, now, lost) =>
      var decided := DecideRow(sys, id, tenant, d, approver, now).0;
      var told := decided.(replies := decided.replies[(id, key) := Outcome(id, path, d, approver)]);
      RowsAside(env, sys, told);
      SameStatesMirror(sys, decided);
      SameStatesMirror(sys, told);
      MaybeResumeKeepsAllMirror(env, told, path, d, now, lost);
    case CancelRun(run, tenant) =>
      if run in sys.states {
        MirrorsOf(sys, run);
        GatewayKeepsMirrors(sys.states[run], sys.states[run].(status := StatusCancelled));
        CachedKeepsAllMirror(sys, run, sys.states[run].(status := StatusCancelled), Flagged(sys, run));
      }
    case Restart => NothingToMirror(Handle(env, sys, req).0);
  }

  lemma NewRunMirrors(limits: Limits)
    ensures Mirrors(NewRun(limits))
  {
  }

  lemma NothingToMirror(sys: System)
    requires sys.states == map[]
    ensures AllMirror(sys)
  {
  }

  lemma {:induction false} ReachableAllMirror(env: RunId -> Env, reqs: seq<Request>)
    ensures AllMirror(AfterRequests(env, reqs))
  {
    if reqs == [] {
      assert AfterRequests(env, reqs) == EMPTY;
    } else {
      hide AllMirror, InOrder, Handle;
      var front := reqs[..|reqs| - 1];
      ReachableInOrder(env, front);
      ReachableAllMirror(env, front);
      HandleKeepsAllMirror(env, AfterRequests(env, front), reqs[|reqs| - 1]);
    }
  }

  /** Over every sequence of requests and for every environment: what the API rebuilds from a run's first 1000
      persisted events matches the run's cached state, findings and proposals, exactly as it does for a run
      of the graph alone. */
  lemma ViewsMatch(env: RunId -> Env, reqs: seq<Request>, run: RunId, r: Redaction, rows: seq<Row>)
    requires run in AfterRequests(env, reqs).states
    requires Persists(r, rows, EventsOf(AfterRequests(env, reqs).states[run].log))
    ensures FindingsMatch(AfterRequests(env, reqs).states[run], r, rows)
    ensures ActionsMatch(AfterRequests(env, reqs).states[run], r, rows)
  {
    hide AfterRequests, FindingsMatch, ActionsMatch, Mirrors, Persists;
    ReachableAllMirror(env, reqs);
    PageMatches(AfterRequests(env, reqs).states[run], r, rows);
    PageProposes(AfterRequests(env, reqs).states[run], r, rows);
  }
}
