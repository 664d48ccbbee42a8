/** The run's ledger (apps/orchestrator/graph.py, state.py): usage counters, the checks before every
    billable step, cooperative cancellation, and the record of external calls really made. Money is
    integer cents, time is seconds since the run started.

    The outside world is a set of oracles indexed by a tick that advances with every look at it, so
    "for every environment" is "for every behaviour of clients, clock and canceller". */
module Budget {
  import opened Wrappers
  import opened Catalog

  const MODEL_COST: nat := 5
  const TOOL_COST: nat := 1
  const DELEGATION_COST: nat := 10

  datatype Limits = Limits(maxModelCalls: int, maxToolCalls: int, maxDelegations: int, maxDuration: real,
                           maxCost: int, maxInputTokens: int, maxOutputTokens: int, maxDepth: int)

  const DEFAULT_LIMITS := Limits(10, 20, 3, 600.0, 200, 60000, 20000, 3)

  datatype Usage = Usage(modelCalls: nat, toolCalls: nat, delegations: nat, cost: nat,
                         inputTokens: nat, outputTokens: nat, depth: nat)

  const NO_USAGE := Usage(0, 0, 0, 0, 0, 0, 0)

  datatype Kind = ModelCall | ToolCall | Delegation

  datatype BudgetKind = OverModelCalls | OverToolCalls | OverDelegations | OverInputTokens | OverOutputTokens
                      | OverDepth | OverCost | OverDuration

  /** The canceller and the clock. */
  datatype World = World(cancelled: nat -> bool, elapsed: nat -> real)

  // The cancel flag is never taken back.
  ghost predicate StickyCancel(w: World) {
    forall t: nat, u: nat :: t <= u && w.cancelled(t) ==> w.cancelled(u)
  }

  // The clock does not run backwards.
  ghost predicate ForwardClock(w: World) {
    forall t: nat, u: nat :: t <= u ==> w.elapsed(t) <= w.elapsed(u)
  }

  // A look at the clock that finds the time used up is never taken back. A clock that does not run backwards
  // does this, as does one that steps back by less than it is over.
  ghost predicate TimeoutLasts(w: World, lim: Limits) {
    forall t: nat, u: nat :: t <= u && w.elapsed(t) > lim.maxDuration ==> w.elapsed(u) > lim.maxDuration
  }

  // What stops a run stops it for good.
  ghost predicate StopsLast(w: World, lim: Limits) { StickyCancel(w) && TimeoutLasts(w, lim) }

  lemma ForwardClockLasts(w: World, lim: Limits)
    requires ForwardClock(w)
    ensures TimeoutLasts(w, lim)
  {
  }

  /** One external call that was started. `action` is set for the execution of a proposed action.
      `clearedAt` is the tick of the last cancel check before it, `usage` the ledger at that moment. */
  datatype Call = Call(kind: Kind, action: Option<Tool>, tick: nat, clearedAt: int, usage: Usage)

  datatype Meter = Meter(usage: Usage, calls: seq<Call>, tick: nat, clearedAt: int)

  const NEW_METER := Meter(NO_USAGE, [], 0, -1)

  function Max(a: int, b: int): int { if a > b then a else b }

  // The first counter over its limit, in the order they are checked.
  function Over(lim: Limits, u: Usage): Option<BudgetKind> {
    if u.modelCalls > lim.maxModelCalls then Some(OverModelCalls)
    else if u.toolCalls > lim.maxToolCalls then Some(OverToolCalls)
    else if u.delegations > lim.maxDelegations then Some(OverDelegations)
    else if u.inputTokens > lim.maxInputTokens then Some(OverInputTokens)
    else if u.outputTokens > lim.maxOutputTokens then Some(OverOutputTokens)
    else if Max(u.delegations, u.depth) > lim.maxDepth then Some(OverDepth)
    else if u.cost > lim.maxCost then Some(OverCost)
    else None
  }

  /** A budget error names the first counter over its limit, in this order; without one there is none. */
  lemma OverNames(lim: Limits, u: Usage)
    ensures var models, tools, agents := u.modelCalls > lim.maxModelCalls, u.toolCalls > lim.maxToolCalls,
                                         u.delegations > lim.maxDelegations;
            var input, output, deep := u.inputTokens > lim.maxInputTokens, u.outputTokens > lim.maxOutputTokens,
                                       u.delegations > lim.maxDepth || u.depth > lim.maxDepth;
            && (Over(lim, u).None? <==>
                  !models && !tools && !agents && !input && !output && !deep && u.cost <= lim.maxCost)
            && (Over(lim, u) == Some(OverModelCalls) <==> models)
            && (Over(lim, u) == Some(OverToolCalls) <==> tools && !models)
            && (Over(lim, u) == Some(OverDelegations) <==> agents && !tools && !models)
            && (Over(lim, u) == Some(OverInputTokens) <==> input && !agents && !tools && !models)
            && (Over(lim, u) == Some(OverOutputTokens) <==> output && !input && !agents && !tools && !models)
            && (Over(lim, u) == Some(OverDepth) <==> deep && !output && !input && !agents && !tools && !models)
  {
  }

  function CheckCancel(w: World, m: Meter): (Meter, bool) {
    if w.cancelled(m.tick) then (m.(tick := m.tick + 1), true)
    else (m.(tick := m.tick + 1, clearedAt := m.tick), false)
  }

  function CheckBudgets(w: World, lim: Limits, m: Meter): (Meter, Option<BudgetKind>) {
    var over := Over(lim, m.usage);
    (m.(tick := m.tick + 1),
     if over.Some? then over else if w.elapsed(m.tick) > lim.maxDuration then Some(OverDuration) else None)
  }

  function Charge(u: Usage, k: Kind): Usage {
    match k
    case ModelCall => u.(modelCalls := u.modelCalls + 1, cost := u.cost + MODEL_COST)
    case ToolCall => u.(toolCalls := u.toolCalls + 1, cost := u.cost + TOOL_COST)
    case Delegation =>
      u.(delegations := u.delegations + 1, depth := u.depth + 1, cost := u.cost + DELEGATION_COST)
  }

  // The ledger is charged first and checked afterwards.
  function Spend(w: World, lim: Limits, m: Meter, k: Kind): (Meter, Option<BudgetKind>) {
    CheckBudgets(w, lim, m.(usage := Charge(m.usage, k)))
  }

  function Start(m: Meter, k: Kind, action: Option<Tool>): Meter {
    m.(calls := m.calls + [Call(k, action, m.tick, m.clearedAt, m.usage)], tick := m.tick + 1)
  }

  // Charge, check, and if the check passes start the call.
  function Bill(w: World, lim: Limits, m: Meter, k: Kind, action: Option<Tool>): (Meter, Option<BudgetKind>) {
    var (m', over) := Spend(w, lim, m, k);
    if over.Some? then (m', over) else (Start(m', k, action), None)
  }

  /** Why a step is left by an exception. */
  datatype Why = Cancelled | OverBudget(budget: BudgetKind) | Crashed

  datatype Billed = Billed(meter: Meter, stop: Option<Why>)

  // Bill, with its exception.
  function Pay(w: World, lim: Limits, m: Meter, k: Kind, action: Option<Tool>): Billed {
    var (m', over) := Bill(w, lim, m, k, action);
    Billed(m', if over.Some? then Some(OverBudget(over.value)) else None)
  }

  // A cancel check, then Pay.
  function ClearAndPay(w: World, lim: Limits, m: Meter, k: Kind, action: Option<Tool>): Billed {
    var (m', cancelled) := CheckCancel(w, m);
    if cancelled then Billed(m', Some(Cancelled)) else Pay(w, lim, m', k, action)
  }

  // --------------------------------------------------------------------------------------------
  // The ledger against the work done
  // --------------------------------------------------------------------------------------------

  // The ledger that the started calls alone would give.
  function Performed(calls: seq<Call>): Usage {
    if calls == [] then NO_USAGE else Charge(Performed(calls[..|calls| - 1]), calls[|calls| - 1].kind)
  }

  predicate Balanced(u: Usage) {
    u.cost == MODEL_COST * u.modelCalls + TOOL_COST * u.toolCalls + DELEGATION_COST * u.delegations
    && u.depth == u.delegations && u.inputTokens == 0 && u.outputTokens == 0
  }

  // Every check from here on fails.
  ghost predicate Blocked(w: World, lim: Limits, m: Meter) {
    Over(lim, m.usage).Some? || exists t: nat :: t < m.tick && w.elapsed(t) > lim.maxDuration
  }

  ghost predicate CancelSeen(w: World, m: Meter) {
    exists t: nat :: t < m.tick && w.cancelled(t)
  }

  predicate Settled(m: Meter) { m.usage == Performed(m.calls) }

  // A cancel check has passed since the last call.
  predicate Cleared(m: Meter) {
    0 <= m.clearedAt && (m.calls != [] ==> m.calls[|m.calls| - 1].tick < m.clearedAt)
  }

  // `v` is at least `u` in every counter.
  predicate Covers(v: Usage, u: Usage) {
    && u.modelCalls <= v.modelCalls && u.toolCalls <= v.toolCalls && u.delegations <= v.delegations
    && u.cost <= v.cost && u.depth <= v.depth
  }

  ghost predicate CallOk(w: World, lim: Limits, calls: seq<Call>, i: nat)
    requires i < |calls|
  {
    var c := calls[i];
    && Covers(c.usage, Performed(calls[..i + 1]))
    && Over(lim, c.usage).None?
    && 0 <= c.clearedAt < c.tick && !w.cancelled(c.clearedAt)
    && (i > 0 ==> calls[i - 1].tick < c.clearedAt)
  }

  ghost predicate MeterInv(w: World, lim: Limits, m: Meter) {
    && Balanced(m.usage) && Covers(m.usage, Performed(m.calls))
    && m.clearedAt < m.tick && (0 <= m.clearedAt ==> !w.cancelled(m.clearedAt))
    && (forall i :: 0 <= i < |m.calls| ==> CallOk(w, lim, m.calls, i) && m.calls[i].tick < m.tick)
  }

  // The ledger is the work done, or ahead of it by one unit that every later check refuses again.
  ghost predicate Even(w: World, lim: Limits, m: Meter) {
    Settled(m) || (Blocked(w, lim, m) && exists k :: m.usage == Charge(Performed(m.calls), k))
  }

  lemma CheckCancelKeeps(w: World, lim: Limits, m: Meter)
    requires MeterInv(w, lim, m)
    ensures var (m', cancelled) := CheckCancel(w, m);
            && MeterInv(w, lim, m') && m'.usage == m.usage && m'.calls == m.calls && m.tick < m'.tick
            && (!cancelled ==> Cleared(m'))
            && (cancelled ==> CancelSeen(w, m'))
            && (Blocked(w, lim, m) ==> Blocked(w, lim, m'))
            && (Even(w, lim, m) ==> Even(w, lim, m'))
  {
    var (m', cancelled) := CheckCancel(w, m);
    assert cancelled ==> m.tick < m'.tick && w.cancelled(m.tick);
    hide CallOk, Performed, Over;
  }

  lemma CheckBudgetsKeeps(w: World, lim: Limits, m: Meter)
    requires MeterInv(w, lim, m)
    ensures var (m', over) := CheckBudgets(w, lim, m);
            && MeterInv(w, lim, m') && m'.usage == m.usage && m'.calls == m.calls && m.tick < m'.tick
            && m'.clearedAt == m.clearedAt
            && (over.Some? ==> Blocked(w, lim, m'))
            && (over.None? && TimeoutLasts(w, lim) ==> !Blocked(w, lim, m))
            && (Blocked(w, lim, m) ==> Blocked(w, lim, m'))
            && (Even(w, lim, m) ==> Even(w, lim, m'))
  {
    var (m', over) := CheckBudgets(w, lim, m);
    assert w.elapsed(m.tick) > lim.maxDuration ==> m.tick < m'.tick;
    hide CallOk, Performed;
  }

  lemma ChargeGrows(u: Usage, v: Usage, k: Kind)
    ensures Balanced(u) ==> Balanced(Charge(u, k))
    ensures Covers(v, u) ==> Covers(Charge(v, k), u) && Covers(Charge(v, k), Charge(u, k))
  {
  }

  // Starting a call for which the ledger was just charged.
  lemma StartKeeps(w: World, lim: Limits, m: Meter, k: Kind, action: Option<Tool>)
    requires Balanced(m.usage) && Over(lim, m.usage).None? && Covers(m.usage, Charge(Performed(m.calls), k))
    requires Cleared(m) && m.clearedAt < m.tick && !w.cancelled(m.clearedAt)
    requires forall i :: 0 <= i < |m.calls| ==> CallOk(w, lim, m.calls, i) && m.calls[i].tick < m.tick
    ensures MeterInv(w, lim, Start(m, k, action))
    ensures m.usage == Charge(Performed(m.calls), k) ==> Settled(Start(m, k, action))
  {
    hide Performed, Over, CallOk, Balanced, Blocked, Charge, Covers;
    var call := Call(k, action, m.tick, m.clearedAt, m.usage);
    var calls := Start(m, k, action).calls;
    PerformedAppend(m.calls, call);
    LastCallOk(w, lim, m, call);
    forall i | 0 <= i < |calls|
      ensures CallOk(w, lim, calls, i) && calls[i].tick < m.tick + 1
    {
      if i < |m.calls| {
        CallOkAppend(w, lim, m.calls, call, i);
      }
    }
  }

  lemma LastCallOk(w: World, lim: Limits, m: Meter, call: Call)
    requires call.usage == m.usage && Covers(m.usage, Charge(Performed(m.calls), call.kind)) && Over(lim, m.usage).None?
    requires call.clearedAt == m.clearedAt < m.tick == call.tick && Cleared(m) && !w.cancelled(m.clearedAt)
    ensures CallOk(w, lim, m.calls + [call], |m.calls|)
  {
    hide Performed, Over, Charge, Covers;
    var calls := m.calls + [call];
    PerformedAppend(m.calls, call);
    assert calls[..|m.calls| + 1] == calls;
  }

  lemma PerformedAppend(calls: seq<Call>, call: Call)
    ensures Performed(calls + [call]) == Charge(Performed(calls), call.kind)
  {
    assert (calls + [call])[..|calls|] == calls;
  }

  lemma CallOkAppend(w: World, lim: Limits, calls: seq<Call>, call: Call, i: nat)
    requires i < |calls| && CallOk(w, lim, calls, i)
    ensures CallOk(w, lim, calls + [call], i)
  {
    hide Performed, Over, Covers;
    assert (calls + [call])[..i + 1] == calls[..i + 1];
  }

  // A charge that passes its check leaves the meter ready for the call.
  lemma SpentIsReady(w: World, lim: Limits, m: Meter, k: Kind)
    requires MeterInv(w, lim, m) && Cleared(m) && Spend(w, lim, m, k).1.None?
    ensures var m' := Spend(w, lim, m, k).0;
            && Balanced(m'.usage) && Over(lim, m'.usage).None? && Covers(m'.usage, Charge(Performed(m'.calls), k))
            && Cleared(m') && m'.clearedAt < m'.tick && !w.cancelled(m'.clearedAt)
            && (Settled(m) ==> m'.usage == Charge(Performed(m'.calls), k))
            && forall i :: 0 <= i < |m'.calls| ==> CallOk(w, lim, m'.calls, i) && m'.calls[i].tick < m'.tick
  {
    hide CallOk, Covers, Charge, Performed, Balanced;
    ChargeGrows(Performed(m.calls), m.usage, k);
    ChargeGrows(m.usage, m.usage, k);
  }

  lemma BillKeeps(w: World, lim: Limits, m: Meter, k: Kind, action: Option<Tool>)
    requires MeterInv(w, lim, m) && Cleared(m)
    ensures var (m', over) := Bill(w, lim, m, k, action);
            && MeterInv(w, lim, m') && m.tick < m'.tick
            && (over.None? ==> m'.calls == m.calls + [Call(k, action, m'.tick - 1, m.clearedAt, m'.usage)])
            && (over.Some? ==> Blocked(w, lim, m') && m'.calls == m.calls)
            && m'.usage == Charge(m.usage, k)
            && (Settled(m) ==> if over.None? then Settled(m') else Even(w, lim, m'))
  {
    hide MeterInv, Settled, Cleared, Blocked, Even, CallOk, Performed, Over, Balanced, Covers;
    var (spent, over) := Spend(w, lim, m, k);
    if over.None? {
      SpentIsReady(w, lim, m, k);
      StartKeeps(w, lim, spent, k, action);
    } else {
      RefusalBlocks(w, lim, m, k);
    }
  }

  // A charge that fails its check is ahead of the work by one unit, and nothing is started.
  lemma RefusalBlocks(w: World, lim: Limits, m: Meter, k: Kind)
    requires MeterInv(w, lim, m) && Spend(w, lim, m, k).1.Some?
    ensures var m' := Spend(w, lim, m, k).0;
            && MeterInv(w, lim, m') && Blocked(w, lim, m') && m'.calls == m.calls
            && (Settled(m) ==> Even(w, lim, m'))
  {
    hide CallOk, Charge, Performed, Covers, Balanced;
    var m' := Spend(w, lim, m, k).0;
    ChargeGrows(Performed(m.calls), m.usage, k);
    ChargeGrows(m.usage, m.usage, k);
    if Over(lim, m'.usage).None? {
      assert m.tick < m'.tick && w.elapsed(m.tick) > lim.maxDuration;
    }
    assert Settled(m) ==> m'.usage == Charge(Performed(m'.calls), k);
  }

  // What a step keeps of the ledger, and what its exceptions say about the future.
  ghost predicate Moves(w: World, lim: Limits, m: Meter, m': Meter, stop: Option<Why>) {
    && MeterInv(w, lim, m')
    && m.tick <= m'.tick && m.calls <= m'.calls
    && (Settled(m) ==> Even(w, lim, m') && (stop.None? ==> Settled(m')))
    && (stop.Some? && stop.value.OverBudget? ==> Blocked(w, lim, m'))
    && (stop == Some(Cancelled) ==> CancelSeen(w, m'))
  }

  lemma StandingStill(w: World, lim: Limits, m: Meter)
    requires MeterInv(w, lim, m)
    ensures Moves(w, lim, m, m, None) && Moves(w, lim, m, m, Some(Crashed))
  {
  }

  lemma MovesCompose(w: World, lim: Limits, m: Meter, m': Meter, m'': Meter, stop: Option<Why>)
    requires Moves(w, lim, m, m', None) && Moves(w, lim, m', m'', stop)
    ensures Moves(w, lim, m, m'', stop)
  {
  }

  lemma PayMoves(w: World, lim: Limits, m: Meter, k: Kind, action: Option<Tool>)
    requires MeterInv(w, lim, m) && Cleared(m)
    ensures var r := Pay(w, lim, m, k, action);
            && Moves(w, lim, m, r.meter, r.stop) && r.stop != Some(Cancelled)
            && r.meter.usage == Charge(m.usage, k)
            && r.meter.calls == (if r.stop.Some? then m.calls else m.calls + [LastCall(r.meter)])
            && (r.stop.None? ==> LastCall(r.meter).kind == k && LastCall(r.meter).action == action)
  {
    hide MeterInv, Cleared, Blocked, CallOk, Performed, Over, Balanced;
    BillKeeps(w, lim, m, k, action);
  }

  function LastCall(m: Meter): Call {
    if m.calls == [] then Call(ModelCall, None, 0, -1, NO_USAGE) else m.calls[|m.calls| - 1]
  }

  lemma ClearAndPayMoves(w: World, lim: Limits, m: Meter, k: Kind, action: Option<Tool>)
    requires MeterInv(w, lim, m)
    ensures var r := ClearAndPay(w, lim, m, k, action);
            && Moves(w, lim, m, r.meter, r.stop)
            && r.meter.usage == (if r.stop == Some(Cancelled) then m.usage else Charge(m.usage, k))
            && r.meter.calls == (if r.stop.Some? then m.calls else m.calls + [LastCall(r.meter)])
            && (r.stop.None? ==> LastCall(r.meter).kind == k && LastCall(r.meter).action == action)
  {
    hide MeterInv, CallOk, Performed, Over, Balanced, Blocked;
    CheckCancelKeeps(w, lim, m);
    var (m', cancelled) := CheckCancel(w, m);
    if !cancelled {
      PayMoves(w, lim, m', k, action);
    }
  }

  // --------------------------------------------------------------------------------------------
  // What the invariant says about a ledger
  // --------------------------------------------------------------------------------------------

  function CountKind(calls: seq<Call>, k: Kind): nat {
    if calls == [] then 0
    else CountKind(calls[..|calls| - 1], k) + if calls[|calls| - 1].kind == k then 1 else 0
  }

  lemma {:induction false} PerformedCounts(calls: seq<Call>)
    ensures Performed(calls).modelCalls == CountKind(calls, ModelCall)
    ensures Performed(calls).toolCalls == CountKind(calls, ToolCall)
    ensures Performed(calls).delegations == CountKind(calls, Delegation)
    ensures Balanced(Performed(calls))
  {
    if calls != [] { PerformedCounts(calls[..|calls| - 1]); }
  }

  /** Conservation: the ledger prices exactly the calls it counts; every call was started with all
      counters within their limits; and what was really done is within the ledger and within the limits,
      the cap on the cost included. */
  lemma LedgerMeaning(w: World, lim: Limits, m: Meter)
    requires MeterInv(w, lim, m)
    ensures m.usage.cost == 5 * m.usage.modelCalls + m.usage.toolCalls + 10 * m.usage.delegations
    ensures forall i :: 0 <= i < |m.calls| ==> Over(lim, m.calls[i].usage).None?
    ensures var done := Performed(m.calls);
            && done.modelCalls == CountKind(m.calls, ModelCall) && done.toolCalls == CountKind(m.calls, ToolCall)
            && done.delegations == CountKind(m.calls, Delegation)
            && Covers(m.usage, done) && (m.calls != [] ==> Over(lim, done).None?)
  {
    PerformedCounts(m.calls);
    if m.calls != [] {
      var n := |m.calls| - 1;
      assert CallOk(w, lim, m.calls, n);
      assert m.calls[..n + 1] == m.calls;
    }
  }

  lemma {:induction false} TicksAscend(w: World, lim: Limits, m: Meter, i: nat, j: nat)
    requires MeterInv(w, lim, m) && i < j < |m.calls|
    ensures m.calls[i].tick < m.calls[j].clearedAt < m.calls[j].tick && !w.cancelled(m.calls[j].clearedAt)
    decreases j
  {
    hide Covers, Performed, Over, Balanced;
    assert CallOk(w, lim, m.calls, j);
    if i < j - 1 {
      TicksAscend(w, lim, m, i, j - 1);
    }
  }

  /** Cancellation at any micro-step: of two calls, the earlier one started before the flag was set. So
      from the moment `t` the flag is up, at most one further external call starts. */
  lemma AtMostOneCallAfterCancel(w: World, lim: Limits, m: Meter, t: nat, i: nat, j: nat)
    requires MeterInv(w, lim, m) && StickyCancel(w) && w.cancelled(t)
    requires i < |m.calls| && j < |m.calls| && t <= m.calls[i].tick && t <= m.calls[j].tick
    ensures i == j
  {
    var lo, hi := if i < j then i else j, if i < j then j else i;
    if lo < hi {
      TicksAscend(w, lim, m, lo, hi);
    }
  }
}
