/** A run in calm weather, followed step by step: nobody cancels, no time passes, every client answers.
    Used for concrete runs. */
module CalmRun {
  import opened Wrappers
  import opened Catalog
  import opened Budget
  import opened Graph
  import opened GraphLedger
  import opened GraphShape

  const REF := "telemetry://m/1"

  // Looks at the outside up to the approval gate.
  const QUIET: nat := 47

  // Nobody cancels, no time passes up to the gate, every read answers, and the model goes on.
  ghost predicate Calm(env: Env) {
    && (forall t :: !env.world.cancelled(t))
    && (forall t: nat :: t < QUIET ==> env.world.elapsed(t) == 0.0)
    && (forall t :: env.model(t) == Replied(false))
    && (forall t :: env.tool(t) == Answered(None, Degraded, REF))
    && (forall tool :: env.argsOk(tool))
  }

  ghost predicate Rules(env: Env, allowed: bool) {
    forall t :: env.policy(t) == Judged(allowed)
  }

  // A run on its way: where it is, what it used, nothing open.
  predicate At(s: RunState, n: Node, tick: nat, models: nat, tools: nat, delegations: nat) {
    && s.node == n && s.meter.tick == tick && s.limits == DEFAULT_LIMITS
    && s.meter.usage == Usage(models, tools, delegations, 5 * models + tools + 10 * delegations, 0, 0, delegations)
    && s.breaker.open == {} && s.status != Created && AllDegraded(s.evidence) && s.approvals == []
  }

  predicate AllDegraded(evidence: seq<Evidence>) {
    forall e :: e in evidence ==> e.health == Degraded
  }

  lemma GuardPasses(env: Env, s: RunState, n: Node, tick: nat, models: nat, tools: nat, delegations: nat)
    requires Calm(env)
    requires At(s, n, tick, models, tools, delegations) && models <= 2 && tools <= 17 && delegations <= 3
    requires tick + 2 <= QUIET
    ensures var g := Guard(env, s);
            g.signal == Next && g.state == s.(meter := g.state.meter)
            && At(g.state, n, tick + 2, models, tools, delegations)
  {
  }

  lemma ReadAnswers(env: Env, s: RunState, n: Node, tick: nat, tools: nat, t: Tool)
    requires Calm(env)
    requires At(s, n, tick, 2, tools, 0) && tools <= 16 && tick + 3 <= QUIET
    ensures var s' := AfterRead(env, s, t);
            && McpRead(env, s, t).signal == Next
            && At(s', n, tick + 3, 2, tools + 1, 0) && |s'.evidence| == |s.evidence| + 1
            && s'.fallback == s.fallback && s'.specialist == s.specialist
  {
  }

  lemma AsksPass(env: Env, s: RunState)
    requires Calm(env)
    requires At(s, Classify, 2, 0, 0, 0) || At(s, Plan, 6, 1, 0, 0) || At(s, Resources, 10, 2, 0, 0)
    ensures var r := Dispatch(env, s);
            && r.signal == Next && r.state.fallback == s.fallback && r.state.specialist == s.specialist
            && (s.node == Classify ==> At(r.state, Plan, 4, 1, 0, 0))
            && (s.node == Plan ==> At(r.state, Resources, 8, 2, 0, 0))
            && (s.node == Resources ==> At(r.state, McpReads, 10, 2, 0, 0))
  {
  }

  lemma ReadsPass(env: Env, s: RunState)
    requires Calm(env)
    requires At(s, McpReads, 12, 2, 0, 0)
    ensures var r := Dispatch(env, s);
            && r.signal == Next && At(r.state, Delegate, 24, 2, 4, 0)
            && r.state.fallback == s.fallback && r.state.specialist == s.specialist
  {
    hide AfterRead, McpRead, ReadAll;
    var s1 := AfterRead(env, s, READS[0]);
    var s2 := AfterRead(env, s1, READS[1]);
    var s3 := AfterRead(env, s2, READS[2]);
    var s4 := AfterRead(env, s3, READS[3]);
    ReadAnswers(env, s, McpReads, 12, 0, READS[0]);
    ReadAnswers(env, s1, McpReads, 15, 1, READS[1]);
    ReadAnswers(env, s2, McpReads, 18, 2, READS[2]);
    ReadAnswers(env, s3, McpReads, 21, 3, READS[3]);
    var a, b, c, d := READS[0], READS[1], READS[2], READS[3];
    assert READS == [a, b, c, d];
    assert [a, b, c, d][1..] == [b, c, d] && [b, c, d][1..] == [c, d] && [c, d][1..] == [d] && [d][1..] == [];
    ReadAllStep(env, s, [a, b, c, d]);
    ReadAllStep(env, s1, [b, c, d]);
    ReadAllStep(env, s2, [c, d]);
    ReadAllStep(env, s3, [d]);
    NoReads(env, s4);
  }

  lemma NoEvidence()
    ensures AllDegraded([])
  {
  }

  lemma TurnPasses(env: Env, s: RunState, n: Node, tick: nat, models: nat, tools: nat) returns (s': RunState)
    requires Calm(env)
    requires At(s, n, tick, models, tools, 0) && !s.fallback && s.specialist.None?
    requires (n, tick, models, tools) in {(Classify, 0, 0, 0), (Plan, 4, 1, 0), (Resources, 8, 2, 0),
                                          (McpReads, 10, 2, 0)}
    ensures !s'.fallback && s'.specialist.None? && Drive(env, s) == Drive(env, s')
    ensures n == Classify ==> At(s', Plan, 4, 1, 0, 0)
    ensures n == Plan ==> At(s', Resources, 8, 2, 0, 0)
    ensures n == Resources ==> At(s', McpReads, 10, 2, 0, 0)
    ensures n == McpReads ==> At(s', Delegate, 24, 2, 4, 0)
  {
    hide Dispatch, Guard, At;
    s' := Turn(env, s).state;
    GuardPasses(env, s, n, tick, models, tools, 0);
    var g := Guard(env, s).state;
    NodeOf(s, n, tick, models, tools);
    NodeOf(g, n, tick + 2, models, tools);
    if n == McpReads { ReadsPass(env, g); } else { AsksPass(env, g); }
    TurnClimbs(env, s);
  }

  lemma NodeOf(s: RunState, n: Node, tick: nat, models: nat, tools: nat)
    requires At(s, n, tick, models, tools, 0)
    ensures s.node == n
  {
  }

  lemma NotHealthy(evidence: seq<Evidence>)
    requires AllDegraded(evidence)
    ensures FirstHealth(evidence) != Some(Healthy)
  {
  }

  // From a fresh state to the delegation.
  lemma ComesToDelegation(env: Env) returns (s: RunState)
    requires Calm(env)
    ensures At(s, Delegate, 24, 2, 4, 0) && !s.fallback && s.specialist.None?
    ensures Run(env, NewRun(DEFAULT_LIMITS)) == Drive(env, s)
  {
    hide Calm, AllDegraded;
    var s0 := Transition(NewRun(DEFAULT_LIMITS).(status := Running), Classify, RunStarted);
    NoEvidence();
    var s1 := TurnPasses(env, s0, Classify, 0, 0, 0);
    var s2 := TurnPasses(env, s1, Plan, 4, 1, 0);
    var s3 := TurnPasses(env, s2, Resources, 8, 2, 0);
    s := TurnPasses(env, s3, McpReads, 10, 2, 0);
  }

  // The findings that a specialist's reply becomes.
  function Kept(fs: seq<RawFinding>): seq<Finding> { NormaliseFrom(fs, 0) }

  predicate Trusted(fs: seq<RawFinding>) { fs != [] && MaxConfidence(Kept(fs)) >= LOW_CONFIDENCE }

  lemma OneFinding(f: RawFinding)
    requires Normalised(0, f).Some?
    ensures Kept([f]) == [Normalised(0, f).value]
    ensures Normalised(0, f).value.confidence >= LOW_CONFIDENCE ==> Trusted([f])
  {
    hide Normalised;
    assert NormaliseFrom([f], 1) == [];
    assert Kept([f])[1..] == [];
  }

  lemma FindingsPass(env: Env, s: RunState, tick: nat, d: nat, fs: seq<RawFinding>)
    requires Calm(env) && At(s, Findings, tick, 2, 4, d) && s.specialist == Some(fs) && Trusted(fs)
    ensures var r := Dispatch(env, s);
            && r.signal == Next && At(r.state, Propose, tick, 2, 4, d) && r.state.fallback == s.fallback
            && r.state.findings == Kept(fs)
  {
    hide EmitFindings, NormaliseFrom, AllDegraded, Calm, MaxConfidence;
    assert RawFindings(env, s) == fs;
    NoFindingsNoConfidence();
    EmitFindingsOnlyLogs(s.(findings := Kept(fs)), Kept(fs));
  }

  lemma NoFindingsNoConfidence()
    ensures MaxConfidence([]) == 0.0
  {
  }

  lemma ProposalPasses(env: Env, s: RunState, tick: nat, d: nat)
    requires Calm(env) && At(s, Propose, tick, 2, 4, d) && s.findings != []
    ensures var r := Dispatch(env, s);
            && r.signal == Next && At(r.state, Policy, tick, 2, 4, d) && r.state.fallback == s.fallback
            && 1 <= |r.state.actions| <= 2 && r.state.findings == s.findings
            && (MentionsDeployment(s.findings)
                ==> |r.state.actions| == 2 && r.state.actions[0].tool == TicketCreate
                    && r.state.actions[1].tool == Rollback)
  {
    hide MentionsDeployment, Top, AllDegraded;
  }

  lemma {:induction false} AllJudged(env: Env, m: Meter, actions: seq<Action>, allowed: bool)
    requires Rules(env, allowed)
    ensures var judged := Judge(env, m, actions).1;
            judged.Some? && (actions != [] ==> (AnyDenied(judged.value) <==> !allowed))
    ensures actions == [] ==> !AnyDenied(Judge(env, m, actions).1.value)
    ensures Judge(env, m, actions).0.tick == m.tick + |actions|
    decreases |actions|
  {
    if actions != [] {
      AllJudged(env, m.(tick := m.tick + 1), actions[1..], allowed);
      var rest := Judge(env, m.(tick := m.tick + 1), actions[1..]).1.value;
      var all := Judge(env, m, actions).1.value;
      assert all == [(actions[0].tool, allowed)] + rest;
      assert all[0] in all && forall j :: j in all ==> j == all[0] || j in rest;
    }
  }

  lemma PolicyPasses(env: Env, s: RunState, tick: nat, d: nat)
    requires Rules(env, true) && At(s, Policy, tick, 2, 4, d)
    ensures var r := Dispatch(env, s);
            && r.signal == Next && At(r.state, ApprovalPause, tick + |s.actions|, 2, 4, d)
            && r.state.actions == s.actions && r.state.fallback == s.fallback && r.state.findings == s.findings
  {
    hide Judge, AnyDenied, AllDegraded, Rules;
    AllJudged(env, s.meter, s.actions, true);
    JudgeTicks(env, s.meter, s.actions);
  }

  lemma PolicyDenies(env: Env, s: RunState)
    requires Rules(env, false) && s.node == Policy && s.actions != []
    ensures var r := Dispatch(env, s);
            r.signal == Return && r.state.node == Complete && r.state.status == StatusCompleted
            && r.state.actions == s.actions
  {
    hide Judge, AnyDenied, Rules;
    AllJudged(env, s.meter, s.actions, false);
  }

  lemma GatePasses(env: Env, s: RunState, tick: nat, d: nat)
    requires Calm(env) && At(s, ApprovalPause, tick, 2, 4, d) && d <= 3 && s.actions != [] && tick + 2 <= QUIET
    ensures var s' := Drive(env, s);
            && AwaitsApproval(s') && s'.actions == s.actions && s'.fallback == s.fallback
            && s'.approvals == Requests(s.actions)
            && s'.limits == DEFAULT_LIMITS && s'.meter.usage == s.meter.usage && s'.findings == s.findings
            && s'.meter.tick == tick + 2
            && s'.log != [] && s'.log[|s'.log| - 1].event == ApprovalRequired(s.actions)
  {
    hide Requests, AllDegraded, Calm;
    GuardPasses(env, s, ApprovalPause, tick, 2, 4, d);
    assert [] + Requests(s.actions) == Requests(s.actions);
  }

  // From findings that are trusted to the policy.
  lemma ComesToThePolicy(env: Env, s: RunState, tick: nat, d: nat, fs: seq<RawFinding>) returns (s': RunState)
    requires Calm(env) && At(s, Findings, tick, 2, 4, d) && d <= 3 && s.specialist == Some(fs) && Trusted(fs)
    requires tick + 4 <= QUIET
    ensures At(s', Policy, tick + 4, 2, 4, d) && 1 <= |s'.actions| <= 2 && s'.fallback == s.fallback
    ensures s'.findings == Kept(fs) && Drive(env, s) == Drive(env, s')
    ensures MentionsDeployment(Kept(fs))
            ==> |s'.actions| == 2 && s'.actions[0].tool == TicketCreate && s'.actions[1].tool == Rollback
  {
    hide Dispatch, Guard, AllDegraded, Drive, Calm, NormaliseFrom, MaxConfidence, MentionsDeployment;
    GuardPasses(env, s, Findings, tick, 2, 4, d);
    FindingsPass(env, Guard(env, s).state, tick + 2, d, fs);
    NoFindingsNoConfidence();
    TurnClimbs(env, s);
    var s3 := Turn(env, s).state;
    GuardPasses(env, s3, Propose, tick + 2, 2, 4, d);
    ProposalPasses(env, Guard(env, s3).state, tick + 4, d);
    TurnClimbs(env, s3);
    s' := Turn(env, s3).state;
  }

  // From findings that are trusted to the gate, which is the last event.
  lemma ComesToTheGate(env: Env, s: RunState, tick: nat, d: nat, fs: seq<RawFinding>)
    requires Calm(env) && Rules(env, true) && At(s, Findings, tick, 2, 4, d) && d <= 3
    requires s.specialist == Some(fs) && Trusted(fs) && tick + 10 <= QUIET
    ensures var s' := Drive(env, s);
            && AwaitsApproval(s') && s'.actions != [] && s'.fallback == s.fallback
            && s'.approvals == Requests(s'.actions) && s'.findings == Kept(fs)
            && s'.log != [] && s'.log[|s'.log| - 1].event == ApprovalRequired(s'.actions)
            && s'.limits == DEFAULT_LIMITS && s'.meter.usage == Usage(2, 4, d, 14 + 10 * d, 0, 0, d)
            && s'.meter.tick == tick + 8 + |s'.actions|
            && (MentionsDeployment(Kept(fs))
                ==> |s'.actions| == 2 && s'.actions[0].tool == TicketCreate && s'.actions[1].tool == Rollback)
  {
    hide Dispatch, Guard, AllDegraded, Drive, AwaitsApproval, Calm, Rules, NormaliseFrom, MaxConfidence,
         MentionsDeployment, Requests;
    var s4 := ComesToThePolicy(env, s, tick, d, fs);
    GuardPasses(env, s4, Policy, tick + 4, 2, 4, d);
    PolicyPasses(env, Guard(env, s4).state, tick + 6, d);
    TurnClimbs(env, s4);
    var s5 := Turn(env, s4).state;
    GatePasses(env, s5, tick + 6 + |s5.actions|, d);
  }
}
