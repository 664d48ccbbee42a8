/** The gateway's process state, updated in place by its request handlers, proved against module Gateway. */
module GatewayMachine {
  import opened Wrappers
  import Text
  import opened Budget
  import G = Graph
  import Breaker
  import W = Gateway

  class ApprovalGateway {
    const env: W.RunId -> G.Env
    var runs: map<W.RunId, W.Tenant>
    var rows: map<W.ApprovalId, W.ApprovalRow>
    var states: map<W.RunId, G.RunState>
    var flagged: map<W.RunId, nat>
    var asked: map<W.ApprovalId, real>
    var replies: map<(W.ApprovalId, string), W.Outcome>
    ghost var trace: seq<W.Entry>

    ghost function Snapshot(): W.System
      reads this
    {
      W.System(runs, rows, states, flagged, asked, replies, trace)
    }

    constructor (env: W.RunId -> G.Env)
      ensures this.env == env && Snapshot() == W.EMPTY
    {
      this.env := env;
      runs, rows, states, flagged, asked, replies, trace := map[], map[], map[], map[], map[], map[], [];
    }

    /** Caches the state and inserts a row for every approval that has none; an insert may be lost. */
    method Save(s: G.RunState, run: W.RunId, now: real, lost: set<W.ApprovalId>)
      modifies this
      ensures Snapshot() == W.Persist(old(Snapshot()), s, run, now, lost)
    {
      hide Asked, Inserted, W.Persist, W.IdsOf, W.FirstDecision;
      states := states[run := s];
      ghost var before := old(Snapshot());
      ghost var dates := Asked(before.asked, W.IdsOf(run, s.approvals), now);
      NoneSaved(before, run, s.approvals, dates, now, lost);
      for i := 0 to |s.approvals|
        invariant runs == before.runs && states == before.states[run := s] && flagged == before.flagged
        invariant replies == before.replies && trace == before.trace
        invariant asked == Asked(before.asked, W.IdsOf(run, s.approvals[..i]), now)
        invariant W.IdsOf(run, s.approvals[..i]) <= dates.Keys
        invariant rows == Inserted(before.rows, W.IdsOf(run, s.approvals[..i]), s.approvals, dates, lost)
      {
        var a := s.approvals[i];
        var id := W.ApprovalId(run, a.action);
        OneMoreSaved(before, run, s.approvals, i, dates, now, lost);
        if id !in asked {
          asked := asked[id := now];
        }
        if id !in rows && id !in lost {
          rows := rows[id := W.ApprovalRow(a.decision, asked[id], asked[id] + W.APPROVAL_SECONDS, None, "")];
        }
      }
      assert s.approvals[..|s.approvals|] == s.approvals;
      AllSaved(before, s, run, now, lost);
    }

    /** The environment a run is driven in: its own, with the flag as it was raised here. */
    function EnvOf(run: W.RunId): (e: G.Env)
      reads this
      ensures e == W.EnvFor(env, Snapshot(), run)
    {
      if run in flagged then env(run).(world := W.Raised(env(run).world, flagged[run])) else env(run)
    }

    method RunGraph(s: G.RunState, run: W.RunId, now: real, lost: set<W.ApprovalId>)
      modifies this
      ensures Snapshot() == W.RunGraph(W.EnvFor(env, old(Snapshot()), run), old(Snapshot()), run, s, now, lost)
    {
      hide W.Persist, G.Run, W.EnvFor;
      var s' := G.Run(EnvOf(run), s.(breaker := Breaker.CLOSED));
      Save(s', run, now, lost);
      SaveKeepsTrace(old(Snapshot()), s', run, now, lost);
      trace := trace + W.Invocations(run, W.NewlyActed(s, s'));
    }

    method SyncApprovals(run: W.RunId)
      requires run in states
      modifies this
      ensures var s := old(states)[run];
              var s' := s.(approvals := W.Synced(old(rows), run, s.approvals));
              Snapshot() == old(Snapshot()).(states := old(states)[run := s'])
    {
      var approvals := states[run].approvals;
      ghost var before := approvals;
      for i := 0 to |approvals|
        invariant |approvals| == |before| && approvals[i..] == before[i..]
        invariant approvals[..i] == W.Synced(rows, run, before[..i])
      {
        var id := W.ApprovalId(run, approvals[i].action);
        ghost var front := approvals[..i];
        var a := if id in rows then approvals[i].(decision := rows[id].decision) else approvals[i];
        assert approvals[i] == approvals[i..][0] == before[i];
        approvals := approvals[i := a];
        assert before[..i + 1][..i] == before[..i];
        assert approvals[..i + 1] == front + [a];
      }
      assert before[..|before|] == before && approvals[..|approvals|] == approvals;
      states := states[run := states[run].(approvals := approvals)];
    }

    method MaybeResume(run: W.RunId, d: G.Decision, now: real, lost: set<W.ApprovalId>)
      modifies this
      ensures Snapshot() == W.MaybeResume(W.EnvFor(env, old(Snapshot()), run), old(Snapshot()), run, d, now, lost)
    {
      hide W.Persist, W.RunGraph, W.Synced;
      if run !in states {
        return;
      }
      SyncApprovals(run);
      var s := states[run];
      if s.node != G.ApprovalPause {
        return;
      }
      if d == G.RejectedByHuman {
        Save(s.(status := G.StatusCompleted, verdict := Some(G.Rejected)), run, now, lost);
        return;
      }
      RunGraph(s.(node := G.ExecuteApproved, status := G.Running), run, now, lost);
    }

    method CreateRun(run: W.RunId, tenant: W.Tenant, limits: Limits) returns (response: W.Response)
      modifies this
      ensures (Snapshot(), response) == W.Handle(env, old(Snapshot()), W.CreateRun(run, tenant, limits))
    {
      if run in runs {
        return W.Invalid;
      }
      runs := runs[run := tenant];
      states := states[run := G.NewRun(limits)];
      response := W.Accepted;
    }

    /** The background worker that drives a created run. */
    method ExecuteRun(run: W.RunId, now: real, lost: set<W.ApprovalId>)
      modifies this
      ensures Snapshot() == W.Handle(env, old(Snapshot()), W.ExecuteRun(run, now, lost)).0
    {
      hide W.RunGraph;
      if run in states {
        RunGraph(states[run], run, now, lost);
      }
    }

    /** POST /v1/runs/{run}/cancel */
    method CancelRun(run: W.RunId, tenant: W.Tenant) returns (response: W.Response)
      modifies this
      ensures (Snapshot(), response) == W.Handle(env, old(Snapshot()), W.CancelRun(run, tenant))
    {
      if run !in runs || runs[run] != tenant {
        return W.NotFound;
      }
      if run in states {
        if run !in flagged {
          flagged := flagged[run := states[run].meter.tick];
        }
        states := states[run := states[run].(status := G.StatusCancelled)];
      }
      response := W.Accepted;
    }

    /** The transaction of `decide_approval`. */
    method DecideRow(id: W.ApprovalId, tenant: W.Tenant, d: G.Decision, approver: string, now: real)
      returns (response: W.Response)
      modifies this
      ensures (Snapshot(), response) == W.DecideRow(old(Snapshot()), id, tenant, d, approver, now)
    {
      if id !in rows || id.run !in runs || runs[id.run] != tenant {
        return W.NotFound;
      }
      var row := rows[id];
      if row.decision != G.Pending {
        return W.AlreadyDecided;
      }
      var before := rows;
      if now > row.expiresAt {
        rows := rows[id := row.(decision := G.Expired, decidedAt := Some(now))];
        rows := before;  // the error leaves the transaction, which rolls back
        return W.HasExpired;
      }
      rows := rows[id := row.(decision := d, approver := approver, decidedAt := Some(now))];
      trace := trace + [W.Committed(id, d, now, row.expiresAt)];
      response := W.Accepted;
    }

    /** POST /v1/runs/{path}/approvals/{id}/decide */
    method Decide(req: W.Request) returns (response: W.Response)
      requires req.Decide?
      modifies this
      ensures (Snapshot(), response) == W.DecideRequest(env, old(Snapshot()), req)
    {
      hide W.DecideRow, W.MaybeResume, Text.Strip;
      if Text.Strip(req.approver) == "" || req.key == ""
         || (req.decision != G.Approved && req.decision != G.RejectedByHuman) {
        return W.Invalid;
      }
      var memo := (req.id, req.key);
      if memo in replies && replies[memo].run == req.path {
        return W.Reply(replies[memo]);
      }
      if req.path !in runs || runs[req.path] != req.tenant {
        return W.NotFound;
      }
      response := DecideRow(req.id, req.tenant, req.decision, req.approver, req.now);
      if response != W.Accepted {
        RefusalKeeps(old(Snapshot()), req.id, req.tenant, req.decision, req.approver, req.now);
        return;
      }
      if req.id.run != req.path {
        return W.NotFound;
      }
      var outcome := W.Outcome(req.id, req.path, req.decision, req.approver);
      replies := replies[memo := outcome];
      MaybeResume(req.path, req.decision, req.now, req.lost);
      response := W.Reply(outcome);
    }
  }

  lemma RefusalKeeps(sys: W.System, id: W.ApprovalId, tenant: W.Tenant, d: G.Decision, approver: string, now: real)
    ensures var (sys', response) := W.DecideRow(sys, id, tenant, d, approver, now);
            response != W.Accepted ==> sys' == sys
  {
  }

  lemma SaveKeepsTrace(sys: W.System, s: G.RunState, run: W.RunId, now: real, lost: set<W.ApprovalId>)
    ensures W.Persist(sys, s, run, now, lost).trace == sys.trace
  {
  }

  // What saving has done once it has seen the approvals `ids`: when they were asked for, and their rows.
  ghost function Asked(asked: map<W.ApprovalId, real>, ids: set<W.ApprovalId>, now: real): map<W.ApprovalId, real> {
    asked + map id | id in ids && id !in asked :: now
  }

  ghost function Inserted(rows: map<W.ApprovalId, W.ApprovalRow>, ids: set<W.ApprovalId>, all: seq<G.Approval>,
                          dates: map<W.ApprovalId, real>, lost: set<W.ApprovalId>): map<W.ApprovalId, W.ApprovalRow>
    requires ids <= dates.Keys
  {
    rows + map id | id in ids && id !in rows && id !in lost ::
             W.ApprovalRow(W.FirstDecision(all, id.action), dates[id], dates[id] + W.APPROVAL_SECONDS, None, "")
  }

  lemma {:induction false} FirstOfPrefix(all: seq<G.Approval>, i: nat)
    requires i < |all| && forall k :: 0 <= k < i ==> all[k].action != all[i].action
    ensures W.FirstDecision(all, all[i].action) == all[i].decision
  {
    if i > 0 {
      assert forall k :: 0 <= k < i - 1 ==> all[1..][k].action != all[1..][i - 1].action;
      FirstOfPrefix(all[1..], i - 1);
    }
  }

  lemma OneMoreAsked(asked: map<W.ApprovalId, real>, ids: set<W.ApprovalId>, id: W.ApprovalId, now: real)
    ensures var before := Asked(asked, ids, now);
            Asked(asked, ids + {id}, now) == if id in before then before else before[id := now]
  {
  }

  lemma OneMoreInserted(rows: map<W.ApprovalId, W.ApprovalRow>, ids: set<W.ApprovalId>, id: W.ApprovalId,
                        all: seq<G.Approval>, dates: map<W.ApprovalId, real>, lost: set<W.ApprovalId>)
    requires ids + {id} <= dates.Keys
    ensures var before := Inserted(rows, ids, all, dates, lost);
            Inserted(rows, ids + {id}, all, dates, lost)
            == if id in before || id in lost then before
               else
                 var d := W.FirstDecision(all, id.action);
                 before[id := W.ApprovalRow(d, dates[id], dates[id] + W.APPROVAL_SECONDS, None, "")]
  {
    hide W.FirstDecision;
  }

  lemma DatesAgree(asked: map<W.ApprovalId, real>, some: set<W.ApprovalId>, all: set<W.ApprovalId>, now: real)
    requires some <= all
    ensures all <= Asked(asked, all, now).Keys
    ensures forall id :: id in some ==>
              id in Asked(asked, some, now) && Asked(asked, some, now)[id] == Asked(asked, all, now)[id]
  {
  }

  lemma OneMoreSaved(sys: W.System, run: W.RunId, all: seq<G.Approval>, i: nat, dates: map<W.ApprovalId, real>,
                     now: real, lost: set<W.ApprovalId>)
    requires i < |all| && dates == Asked(sys.asked, W.IdsOf(run, all), now)
    ensures W.IdsOf(run, all[..i]) <= W.IdsOf(run, all[..i + 1]) <= W.IdsOf(run, all) <= dates.Keys
    ensures var id := W.ApprovalId(run, all[i].action);
            var ids := W.IdsOf(run, all[..i]);
            var asked, rows := Asked(sys.asked, ids, now), Inserted(sys.rows, ids, all, dates, lost);
            var asked' := if id in asked then asked else asked[id := now];
            && Asked(sys.asked, W.IdsOf(run, all[..i + 1]), now) == asked'
            && Inserted(sys.rows, W.IdsOf(run, all[..i + 1]), all, dates, lost)
               == if id !in rows && id !in lost
                  then
                    rows[id := W.ApprovalRow(all[i].decision, asked'[id], asked'[id] + W.APPROVAL_SECONDS, None, "")]
                  else rows
  {
    hide Asked, Inserted, W.IdsOf, W.FirstDecision;
    var id, ids := W.ApprovalId(run, all[i].action), W.IdsOf(run, all[..i]);
    IdsGrow(run, all, i);
    DatesAgree(sys.asked, ids + {id}, W.IdsOf(run, all), now);
    NewIdIsFirst(sys.rows, run, all, i, dates, lost);
    OneMoreAsked(sys.asked, ids, id, now);
    OneMoreInserted(sys.rows, ids, id, all, dates, lost);
  }

  // An approval that has no row yet is the first for its action, or its insert was lost before.
  lemma NewIdIsFirst(rows: map<W.ApprovalId, W.ApprovalRow>, run: W.RunId, all: seq<G.Approval>, i: nat,
                     dates: map<W.ApprovalId, real>, lost: set<W.ApprovalId>)
    requires i < |all| && W.IdsOf(run, all[..i]) <= dates.Keys
    ensures var id := W.ApprovalId(run, all[i].action);
            id !in Inserted(rows, W.IdsOf(run, all[..i]), all, dates, lost) && id !in lost
            ==> W.FirstDecision(all, all[i].action) == all[i].decision
  {
    var id := W.ApprovalId(run, all[i].action);
    if id !in W.IdsOf(run, all[..i]) {
      forall k | 0 <= k < i
        ensures all[k].action != all[i].action
      {
        assert all[k] in all[..i];
      }
      FirstOfPrefix(all, i);
    }
  }

  lemma IdsGrow(run: W.RunId, all: seq<G.Approval>, i: nat)
    requires i < |all|
    ensures W.IdsOf(run, all[..i + 1]) == W.IdsOf(run, all[..i]) + {W.ApprovalId(run, all[i].action)}
            <= W.IdsOf(run, all)
  {
    assert all[..i + 1] == all[..i] + [all[i]];
    MoreIds(run, all[..i], all[i]);
    assert forall a :: a in all[..i + 1] ==> a in all;
  }

  lemma NoneSaved(sys: W.System, run: W.RunId, all: seq<G.Approval>, dates: map<W.ApprovalId, real>, now: real,
                  lost: set<W.ApprovalId>)
    requires dates == Asked(sys.asked, W.IdsOf(run, all), now)
    ensures W.IdsOf(run, all[..0]) == {} && W.IdsOf(run, all) <= dates.Keys
    ensures Asked(sys.asked, {}, now) == sys.asked && Inserted(sys.rows, {}, all, dates, lost) == sys.rows
  {
  }

  lemma AllSaved(sys: W.System, s: G.RunState, run: W.RunId, now: real, lost: set<W.ApprovalId>)
    ensures var ids := W.IdsOf(run, s.approvals);
            var dates := Asked(sys.asked, ids, now);
            && ids <= dates.Keys
            && W.Persist(sys, s, run, now, lost)
               == sys.(states := sys.states[run := s], asked := dates,
                       rows := Inserted(sys.rows, ids, s.approvals, dates, lost))
  {
    hide W.IdsOf, W.FirstDecision;
  }

  lemma MoreIds(run: W.RunId, approvals: seq<G.Approval>, a: G.Approval)
    ensures W.IdsOf(run, approvals + [a]) == W.IdsOf(run, approvals) + {W.ApprovalId(run, a.action)}
  {
    var more := approvals + [a];
    assert a in more && forall b :: b in approvals ==> b in more;
    assert forall b :: b in more ==> b in approvals || b == a;
  }
}
