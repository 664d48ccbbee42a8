/** A closed form for what one run and one resume can use, and what follows for the default limits. */
module GraphBounds {
  import opened Wrappers
  import opened Catalog
  import opened Budget
  import opened Graph
  import opened GraphLedger
  import opened GraphShape
  import opened GraphActions
  import opened GraphTrace
  import Breaker

  // Units spent on the way from `u` to `v` are within `models`, `tools` and `delegations`, at their price.
  predicate SpentAtMost(u: Usage, v: Usage, models: nat, tools: nat, delegations: nat) {
    && v.modelCalls <= u.modelCalls + models
    && v.toolCalls <= u.toolCalls + tools
    && v.delegations <= u.delegations + delegations
    && (Balanced(u) ==> Balanced(v))
  }

  // A budget error names a counter over its limit, or the duration.
  predicate Honest(lim: Limits, u: Usage, stop: Option<Why>) {
    stop.Some? && stop.value.OverBudget?
    ==> stop.value.budget == OverDuration || Over(lim, u) == Some(stop.value.budget)
  }

  // Units a node can still be preceded by, from a fresh state.
  function ModelsBefore(n: Node): nat { if Rank(n) < 2 then Rank(n) else 2 }

  function ToolsBefore(n: Node): nat {
    if Rank(n) <= 3 then 0 else if Rank(n) <= 10 then 12 else if n == Verify then 14 else 17
  }

  function DelegationsBefore(n: Node): nat { if Rank(n) <= 4 then 0 else 1 }

  predicate Within(s: RunState) {
    && s.meter.usage.modelCalls <= ModelsBefore(s.node)
    && s.meter.usage.toolCalls <= ToolsBefore(s.node)
    && s.meter.usage.delegations <= DelegationsBefore(s.node)
    && Balanced(s.meter.usage)
  }

  predicate Capped(u: Usage) { u.modelCalls <= 2 && u.toolCalls <= 17 && u.delegations <= 1 && Balanced(u) }

  // --------------------------------------------------------------------------------------------
  // What the steps spend
  // --------------------------------------------------------------------------------------------

  lemma ClearAndPaySpends(w: World, lim: Limits, m: Meter, k: Kind, action: Option<Tool>)
    ensures var r := ClearAndPay(w, lim, m, k, action);
            && SpentAtMost(m.usage, r.meter.usage, if k == ModelCall then 1 else 0, if k == ToolCall then 1 else 0,
                           if k == Delegation then 1 else 0)
            && Honest(lim, r.meter.usage, r.stop)
  {
  }

  lemma AskModelSpends(env: Env, s: RunState)
    ensures var (s', signal, _) := AskModel(env, s);
            && SpentAtMost(s.meter.usage, s'.meter.usage, 1, 0, 0)
            && Honest(s.limits, s'.meter.usage, if signal.Raise? then Some(signal.why) else None)
  {
  }

  lemma {:induction false} ReadAttemptsSpend(env: Env, lim: Limits, m: Meter, attempt: nat)
    requires attempt <= MAX_READ_RETRIES
    ensures var r := ReadAttempts(env, lim, m, attempt);
            && SpentAtMost(m.usage, r.meter.usage, 0, MAX_READ_RETRIES + 1 - attempt, 0)
            && Honest(lim, r.meter.usage, r.stop)
    decreases MAX_READ_RETRIES - attempt
  {
    hide ClearAndPay, Over, Balanced;
    ClearAndPaySpends(env.world, lim, m, ToolCall, None);
    var paid := ClearAndPay(env.world, lim, m, ToolCall, None);
    if paid.stop.None? && env.tool(Answer(paid.meter)).TimedOut? && attempt < MAX_READ_RETRIES {
      ReadAttemptsSpend(env, lim, paid.meter, attempt + 1);
    }
  }

  lemma McpReadSpends(env: Env, s: RunState, t: Tool)
    ensures var r := McpRead(env, s, t);
            && SpentAtMost(s.meter.usage, r.state.meter.usage, 0, 3, 0)
            && Honest(s.limits, r.state.meter.usage, if r.signal.Raise? then Some(r.signal.why) else None)
  {
    hide ReadAttempts, Over, Balanced;
    ReadAttemptsSpend(env, s.limits, s.meter, 0);
  }

  lemma {:induction false} ReadAllSpends(env: Env, s: RunState, tools: seq<Tool>)
    ensures var r := ReadAll(env, s, tools);
            && SpentAtMost(s.meter.usage, r.state.meter.usage, 0, 3 * |tools|, 0)
            && Honest(s.limits, r.state.meter.usage, if r.signal.Raise? then Some(r.signal.why) else None)
    decreases |tools|
  {
    hide McpRead, Over, Balanced;
    if tools != [] {
      McpReadSpends(env, s, tools[0]);
      McpReadFrame(env, s, tools[0]);
      if !McpRead(env, s, tools[0]).signal.Raise? {
        ReadAllSpends(env, AfterRead(env, s, tools[0]), tools[1..]);
      }
    }
  }

  lemma CallSpecialistSpends(env: Env, s: RunState)
    ensures var (s', signal, _) := CallSpecialist(env, s);
            && SpentAtMost(s.meter.usage, s'.meter.usage, 0, 0, 1)
            && Honest(s.limits, s'.meter.usage, if signal.Raise? then Some(signal.why) else None)
  {
    hide ClearAndPay, Over, Balanced, ValidOutput, Breaker.Success, Breaker.Failure;
    ClearAndPaySpends(env.world, s.limits, s.meter, Delegation, None);
  }

  lemma {:induction false} ExecuteSpends(env: Env, s: RunState, actions: seq<Action>, approved: set<Tool>)
    ensures var r := ExecuteActions(env, s, actions, approved);
            && SpentAtMost(s.meter.usage, r.state.meter.usage, 0, |actions|, 0)
            && Honest(s.limits, r.state.meter.usage, if r.signal.Raise? then Some(r.signal.why) else None)
    decreases |actions|
  {
    hide ClearAndPay, Over, Balanced;
    if actions != [] {
      var t := actions[0].tool;
      ClearAndPaySpends(env.world, s.limits, s.meter, ToolCall, Some(t));
      var paid := ClearAndPay(env.world, s.limits, s.meter, ToolCall, Some(t));
      if t !in approved {
        ExecuteSpends(env, s, actions[1..], approved);
      } else if paid.stop.None? {
        ExecuteSpends(env, Executed(s, t, paid.meter, env.tool(Answer(paid.meter)).Answered?), actions[1..], approved);
      }
    }
  }

  predicate StaysWithin(s: RunState, r: Step) {
    && Capped(r.state.meter.usage)
    && (r.signal == Next || r.state.node == ApprovalPause ==> Within(r.state))
    && Honest(s.limits, r.state.meter.usage, if r.signal.Raise? then Some(r.signal.why) else None)
    && r.state.error == s.error && r.state.limits == s.limits
  }

  lemma AskingNodesSpend(env: Env, s: RunState)
    requires Within(s) && Rank(s.node) <= 1
    ensures StaysWithin(s, Dispatch(env, s))
  {
    hide Over, Balanced, AskModel;
    AskModelSpends(env, s);
    AskModelFrame(env, s);
  }

  lemma ReadingNodesSpend(env: Env, s: RunState)
    requires Within(s) && 2 <= Rank(s.node) <= 4
    ensures StaysWithin(s, Dispatch(env, s))
  {
    hide Over, Balanced, ReadAll, CallSpecialist;
    match s.node
    case McpReads => ReadAllSpends(env, s, READS); ReadAllFrame(env, s, READS);
    case Delegate => CallSpecialistSpends(env, s); CallSpecialistFrame(env, s);
    case _ =>
  }

  lemma WeighingNodesSpend(env: Env, s: RunState)
    requires Within(s) && 5 <= Rank(s.node) <= 8
    ensures StaysWithin(s, Dispatch(env, s))
  {
    hide Over, Balanced, DoFindings, DoPolicy, MentionsDeployment, Top, Conflicting, CapAll, DiscountAll;
    JudgingSpendsNothing(env, s);
  }

  lemma ActingNodesSpend(env: Env, s: RunState)
    requires Within(s) && |s.actions| <= 2 && Rank(s.node) >= 9
    ensures StaysWithin(s, Dispatch(env, s))
  {
    hide Over, Balanced, McpRead, ExecuteActions, Requests, ApprovedTools;
    match s.node
    case ExecuteApproved =>
      ExecuteSpends(env, s, s.actions, ApprovedTools(s.approvals));
      ExecuteFrame(env, s, s.actions, ApprovedTools(s.approvals));
    case Verify => McpReadSpends(env, s, GetHealth); McpReadFrame(env, s, GetHealth);
    case _ =>
  }

  lemma JudgingSpendsNothing(env: Env, s: RunState)
    ensures s.node == Findings ==>
              var r := DoFindings(env, s);
              && r.state.meter.usage == s.meter.usage && !r.signal.Raise? && r.state.error == s.error
              && r.state.limits == s.limits && (r.state.node == Propose || r.state.node == Complete)
    ensures s.node == Policy ==>
              var r := DoPolicy(env, s);
              && r.state.meter.usage == s.meter.usage && (r.signal.Raise? ==> r.signal.why == Crashed)
              && r.state.error == s.error && r.state.limits == s.limits && Rank(r.state.node) >= 8
  {
    hide Judge, AnyDenied, EmitFindings, NormaliseFrom, RawFindings, MaxConfidence;
    var findings := NormaliseFrom(RawFindings(env, s), 0);
    EmitFindingsOnlyLogs(s.(findings := findings), findings);
    JudgeTicks(env, s.meter, s.actions);
  }

  lemma TurnSpends(env: Env, s: RunState)
    requires Within(s) && |s.actions| <= 2
    ensures StaysWithin(s, Turn(env, s))
  {
    hide Over, Balanced, Dispatch;
    var g := Guard(env, s);
    if g.signal == Next {
      if Rank(s.node) <= 1 { AskingNodesSpend(env, g.state); }
      else if Rank(s.node) <= 4 { ReadingNodesSpend(env, g.state); }
      else if Rank(s.node) <= 8 { WeighingNodesSpend(env, g.state); }
      else { ActingNodesSpend(env, g.state); }
    }
  }

  // --------------------------------------------------------------------------------------------
  // Driver passes
  // --------------------------------------------------------------------------------------------

  // The error of a run that used no more than the caps allow under limits that allow them.
  predicate NoBudgetButTime(s: RunState) {
    s.error in {None, Some(InternalError), Some(BudgetExceeded(OverDuration))}
  }

  // Limits under which capped usage is never over a counter.
  ghost predicate Roomy(lim: Limits) {
    forall u :: Capped(u) ==> Over(lim, u).None?
  }

  lemma CloseIsHonest(s: RunState, why: Why)
    requires Roomy(s.limits) ==> NoBudgetButTime(s)
    requires Honest(s.limits, s.meter.usage, Some(why)) && Capped(s.meter.usage)
    ensures Roomy(s.limits) ==> NoBudgetButTime(Close(s, why))
    ensures Close(s, why).meter == s.meter && Close(s, why).limits == s.limits && !AwaitsApproval(Close(s, why))
  {
    hide Over, Capped;
  }

  lemma {:induction false} DriveSpends(env: Env, s: RunState)
    requires Shape(env, s) && s.status != Created
    requires Within(s) && (Roomy(s.limits) ==> NoBudgetButTime(s))
    ensures var s' := Drive(env, s);
            && Capped(s'.meter.usage) && s'.limits == s.limits
            && (AwaitsApproval(s') ==> Within(s'))
            && (Roomy(s.limits) ==> NoBudgetButTime(s'))
    decreases 12 - Rank(s.node)
  {
    hide Shape, Turn, Roomy, NoBudgetButTime, Within, Capped, Honest, Over, Close;
    ShapeActions(env, s);
    TurnSpends(env, s);
    TurnKeepsShape(env, s);
    TurnClimbs(env, s);
    var r := Turn(env, s);
    ErrorAside(s, r.state);
    match r.signal
    case Next => DriveSpends(env, r.state);
    case Return =>
    case Raise(why) => CloseIsHonest(r.state, why);
  }

  lemma ErrorAside(s: RunState, s': RunState)
    requires s'.error == s.error
    ensures NoBudgetButTime(s) == NoBudgetButTime(s')
  {
  }

  lemma ShapeActions(env: Env, s: RunState)
    requires Shape(env, s)
    ensures |s.actions| <= 2
  {
  }

  lemma CappedMeans(u: Usage)
    requires Capped(u)
    ensures u.modelCalls <= 2 && u.toolCalls <= 17 && u.delegations <= 1 && u.cost <= 37
  {
  }

  lemma FirstRunSpends(env: Env, limits: Limits)
    ensures var s := Run(env, NewRun(limits));
            && Shape(env, s) && Capped(s.meter.usage) && s.limits == limits
            && (AwaitsApproval(s) ==> Within(s)) && (Roomy(limits) ==> NoBudgetButTime(s))
  {
    hide Shape, Drive, Roomy;
    var s0 := NewRun(limits);
    NothingYet(env, limits);
    BegunKeepsShape(env, s0);
    RunKeepsShape(env, s0);
    DriveSpends(env, Transition(s0.(status := Running), Classify, RunStarted));
  }

  lemma ResumedSpends(env: Env, s: RunState)
    requires Shape(env, s) && AwaitsApproval(s) && Within(s) && (Roomy(s.limits) ==> NoBudgetButTime(s))
    ensures var s' := Run(env, Released(s));
            Capped(s'.meter.usage) && s'.limits == s.limits && (Roomy(s.limits) ==> NoBudgetButTime(s'))
  {
    hide Shape, Drive, Roomy, Decide, Balanced;
    ReleasedShape(env, s);
    DriveSpends(env, Released(s));
  }

  /** One run and at most one resume use at most 2 model calls, 17 tool calls and 1 delegation, 37 cents
      in all, whatever the limits, the clients, the clock and the canceller do. */
  lemma OneRunIsBounded(env: Env, limits: Limits, d: Option<Decision>)
    ensures var u := OneRun(env, limits, d).meter.usage;
            u.modelCalls <= 2 && u.toolCalls <= 17 && u.delegations <= 1 && u.cost <= 37
    ensures Roomy(limits) ==> NoBudgetButTime(OneRun(env, limits, d))
  {
    hide Shape, Run, Roomy, Decide, Capped, Within;
    FirstRunSpends(env, limits);
    var s := Run(env, NewRun(limits));
    CappedMeans(s.meter.usage);
    if d == Some(Approved) && AwaitsApproval(s) {
      ResumedSpends(env, s);
      CappedMeans(Run(env, Released(s)).meter.usage);
    }
  }

  /** So the default limits can fail on the duration only. */
  lemma DefaultLimitsFailOnTimeOnly(env: Env, d: Option<Decision>)
    ensures OneRun(env, DEFAULT_LIMITS, d).error in {None, Some(InternalError), Some(BudgetExceeded(OverDuration))}
  {
    hide OneRun;
    assert Roomy(DEFAULT_LIMITS);
    OneRunIsBounded(env, DEFAULT_LIMITS, d);
  }
}
