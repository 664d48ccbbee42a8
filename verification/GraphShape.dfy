/** What every history keeps of a run's contents: which parts each node touches, how nodes follow each
    other, and what is true of evidence, findings and proposed actions at each node. */
module GraphShape {
  import opened Wrappers
  import opened Catalog
  import opened Budget
  import opened Graph
  import Text
  import opened GraphLedger
  import Breaker

  // --------------------------------------------------------------------------------------------
  // What the multi-part steps touch
  // --------------------------------------------------------------------------------------------

  lemma McpReadFrame(env: Env, s: RunState, t: Tool)
    ensures var r := McpRead(env, s, t);
            && r.state == s.(meter := r.state.meter, breaker := r.state.breaker,
                             eventSequence := r.state.eventSequence, log := r.state.log)
            && r.signal != Return
            && (r.signal == Next ==> env.argsOk(t) && Breaker.Mcp !in s.breaker.open)
            && (r.answer.Some? ==> r.signal == Next && r.answer.value.Answered?)
            && (Breaker.Consistent(s.breaker) ==> Breaker.Consistent(r.state.breaker))
            && (r.signal == Next ==> r.state.breaker == if r.answer.Some? then Breaker.Success(s.breaker, Breaker.Mcp)
                                                       else Breaker.Failure(s.breaker, Breaker.Mcp))
  {
    hide ReadAttempts;
    AnswersAreAnswers(env, s.limits, s.meter, 0);
  }

  lemma {:induction false} AnswersAreAnswers(env: Env, lim: Limits, m: Meter, attempt: nat)
    requires attempt <= MAX_READ_RETRIES
    ensures var r := ReadAttempts(env, lim, m, attempt); r.answer.Some? ==> r.stop.None? && r.answer.value.Answered?
    decreases MAX_READ_RETRIES - attempt
  {
    hide ClearAndPay;
    var paid := ClearAndPay(env.world, lim, m, ToolCall, None);
    if paid.stop.None? && env.tool(Answer(paid.meter)).TimedOut? && attempt < MAX_READ_RETRIES {
      AnswersAreAnswers(env, lim, paid.meter, attempt + 1);
    }
  }

  // One read, with its evidence recorded.
  function AfterRead(env: Env, s: RunState, t: Tool): RunState {
    var r := McpRead(env, s, t);
    if r.answer.Some? && r.answer.value.Answered?
    then r.state.(evidence := r.state.evidence + [ToEvidence(t, r.answer.value)])
    else r.state
  }

  lemma {:induction false} ReadAllFrame(env: Env, s: RunState, tools: seq<Tool>)
    ensures var r := ReadAll(env, s, tools);
            && r.state == s.(meter := r.state.meter, breaker := r.state.breaker, evidence := r.state.evidence,
                             eventSequence := r.state.eventSequence, log := r.state.log)
            && s.evidence <= r.state.evidence && r.signal != Return
            && (Breaker.Consistent(s.breaker) ==> Breaker.Consistent(r.state.breaker))
    decreases |tools|
  {
    hide McpRead, Breaker.Consistent;
    if tools != [] {
      McpReadFrame(env, s, tools[0]);
      if !McpRead(env, s, tools[0]).signal.Raise? {
        ReadAllFrame(env, AfterRead(env, s, tools[0]), tools[1..]);
      }
    }
  }

  lemma CallSpecialistFrame(env: Env, s: RunState)
    ensures var (s', signal, found) := CallSpecialist(env, s);
            && s' == s.(meter := s'.meter, breaker := s'.breaker, fallback := s'.fallback,
                        eventSequence := s'.eventSequence, log := s'.log)
            && signal != Return
            && (found.Some? ==> signal == Next)
            && (s.fallback ==> s'.fallback)
            && (signal == Next ==> s'.fallback == (s.fallback || found.None?))
            && (found.Some? ==> ValidOutput(found.value))
  {
    hide ClearAndPay, ValidOutput, Breaker.Success, Breaker.Failure;
  }

  lemma CallSpecialistBreaker(env: Env, s: RunState)
    requires Breaker.Consistent(s.breaker)
    ensures Breaker.Consistent(CallSpecialist(env, s).0.breaker)
  {
    hide ClearAndPay, ValidOutput, Breaker.Consistent, Breaker.Success, Breaker.Failure;
    Breaker.OutcomesKeepConsistent(s.breaker, Breaker.A2a);
  }

  lemma {:induction false} ExecuteFrame(env: Env, s: RunState, actions: seq<Action>, approved: set<Tool>)
    ensures var r := ExecuteActions(env, s, actions, approved);
            && r.state == s.(meter := r.state.meter, eventSequence := r.state.eventSequence, log := r.state.log)
            && r.signal != Return
    decreases |actions|
  {
    hide ClearAndPay;
    if actions != [] {
      var t := actions[0].tool;
      var paid := ClearAndPay(env.world, s.limits, s.meter, ToolCall, Some(t));
      if t !in approved {
        ExecuteFrame(env, s, actions[1..], approved);
      } else if paid.stop.None? {
        ExecuteFrame(env, Executed(s, t, paid.meter, env.tool(Answer(paid.meter)).Answered?), actions[1..], approved);
      }
    }
  }

  // --------------------------------------------------------------------------------------------
  // How nodes follow each other
  // --------------------------------------------------------------------------------------------

  // A turn goes on to the next node, returns from where it may, or raises where it is.
  predicate Follows(s: RunState, s': RunState, signal: Signal) {
    match signal
    case Next => Rank(s'.node) == Rank(s.node) + 1
    case Return => s'.node == Complete || (s.node == ApprovalPause && s'.node in {ApprovalPause, Verify})
    case Raise(_) => s'.node == s.node
  }

  lemma AskingFollows(env: Env, s: RunState)
    ensures s.node == Classify ==> Follows(s, DoClassify(env, s).state, DoClassify(env, s).signal)
    ensures s.node == Plan ==> Follows(s, DoPlan(env, s).state, DoPlan(env, s).signal)
  {
    hide Pay;
  }

  lemma JudgingFollows(env: Env, s: RunState)
    ensures s.node == Policy ==> Follows(s, DoPolicy(env, s).state, DoPolicy(env, s).signal)
    ensures s.node == Propose ==> Follows(s, DoPropose(env, s).state, DoPropose(env, s).signal)
  {
    hide Judge, AnyDenied, MentionsDeployment, Top;
  }

  lemma FindingFollows(env: Env, s: RunState)
    requires s.node == Findings
    ensures Follows(s, DoFindings(env, s).state, DoFindings(env, s).signal)
  {
    hide EmitFindings, NormaliseFrom, RawFindings, MaxConfidence;
    var findings := NormaliseFrom(RawFindings(env, s), 0);
    EmitFindingsOnlyLogs(s.(findings := findings), findings);
  }

  lemma DispatchFollows(env: Env, s: RunState)
    ensures Follows(s, Dispatch(env, s).state, Dispatch(env, s).signal)
  {
    hide ReadAll, McpRead, CallSpecialist, ExecuteActions, Conflicting, ApprovedTools, CapAll, DiscountAll, Requests,
         DoClassify, DoPlan, DoPropose, DoPolicy, DoFindings;
    match s.node
    case Classify => AskingFollows(env, s);
    case Plan => AskingFollows(env, s);
    case McpReads => ReadAllFrame(env, s, READS);
    case Delegate => CallSpecialistFrame(env, s);
    case Findings => FindingFollows(env, s);
    case Propose => JudgingFollows(env, s);
    case Policy => JudgingFollows(env, s);
    case ExecuteApproved => ExecuteFrame(env, s, s.actions, ApprovedTools(s.approvals));
    case Verify => McpReadFrame(env, s, GetHealth);
    case _ =>
  }

  /** The driver halts by climbing: whenever a turn lets it go on, it is at the next node. */
  lemma TurnClimbs(env: Env, s: RunState)
    ensures Follows(s, Turn(env, s).state, Turn(env, s).signal)
    ensures Turn(env, s).signal == Next ==> Drive(env, s) == Drive(env, Turn(env, s).state)
  {
    hide Dispatch;
    DispatchFollows(env, Guard(env, s).state);
  }

  lemma CloseFrame(s: RunState, why: Why)
    ensures var s' := Close(s, why);
            && s'.node == s.node && s'.status != Created && s'.status != WaitingForApproval
            && s'.actions == s.actions && s'.approvals == s.approvals && s'.meter == s.meter
  {
  }

  lemma {:induction false} DriveOnlyClimbs(env: Env, s: RunState)
    ensures Rank(Drive(env, s).node) >= Rank(s.node)
    decreases 12 - Rank(s.node)
  {
    hide Turn, Close;
    TurnClimbs(env, s);
    var r := Turn(env, s);
    match r.signal
    case Next => DriveOnlyClimbs(env, r.state);
    case Return =>
    case Raise(why) => CloseFrame(r.state, why);
  }

  // --------------------------------------------------------------------------------------------
  // Findings
  // --------------------------------------------------------------------------------------------

  predicate WellFormed(f: Finding) {
    && 0.0 <= f.confidence <= 1.0 && f.severity == SeverityOf(f.confidence)
    && 1 <= |f.title| <= 256 && 1 <= |f.summary| <= 4000 && 1 <= |f.refs| <= 16
  }

  predicate AllWellFormed(fs: seq<Finding>) {
    forall f :: f in fs ==> WellFormed(f)
  }

  lemma {:induction false} NormalisedAreWellFormed(raw: seq<RawFinding>, i: nat)
    requires i <= |raw|
    ensures AllWellFormed(NormaliseFrom(raw, i))
    decreases |raw| - i
  {
    hide Text.Strip, NonEmpty;
    if i < |raw| { NormalisedAreWellFormed(raw, i + 1); }
  }

  // What normalising keeps of the confidences: none of them grows above a bound on the raw ones.
  lemma {:induction false} NormalisedBound(raw: seq<RawFinding>, i: nat, bound: real)
    requires i <= |raw| && 0.0 <= bound && forall f :: f in raw ==> f.confidence <= bound
    ensures MaxConfidence(NormaliseFrom(raw, i)) <= bound
    decreases |raw| - i
  {
    hide Text.Strip, NonEmpty;
    if i < |raw| {
      assert raw[i] in raw;
      NormalisedBound(raw, i + 1, bound);
    }
  }

  // A finding as it may leave the weighing: the same but for a confidence that did not grow.
  predicate Lowered(f: RawFinding, g: RawFinding) {
    g == f.(confidence := g.confidence) && g.confidence <= f.confidence
  }

  lemma {:induction false} CappedAre(fs: seq<RawFinding>, k: nat)
    requires k < |fs|
    ensures Lowered(fs[k], CapAll(fs)[k]) && CapAll(fs)[k].confidence <= 0.6
    ensures fs[k].confidence <= 0.6 ==> CapAll(fs)[k] == fs[k]
  {
    if k > 0 { CappedAre(fs[1..], k - 1); }
  }

  lemma Round2IsClose(x: real)
    ensures x - 0.005 < Round2(x) <= x + 0.005
  {
    var n := (x * 100.0 + 0.5).Floor as real;
    assert n <= x * 100.0 + 0.5 < n + 1.0;
    assert Round2(x) * 100.0 == n;
  }

  lemma {:induction false} DiscountedAre(fs: seq<RawFinding>, k: nat)
    requires k < |fs|
    ensures Lowered(fs[k], DiscountAll(fs)[k])
    ensures fs[k].confidence - 0.155 < DiscountAll(fs)[k].confidence <= fs[k].confidence - 0.145
  {
    hide Round2;
    Round2IsClose(fs[0].confidence - 0.15);
    if k > 0 { DiscountedAre(fs[1..], k - 1); }
  }

  /** Weighing drops and adds no finding and changes nothing but confidences, which never grow: under a
      conflict with the primary evidence none stays above 0.6, a degraded run lowers each by 0.15 up to
      rounding, and otherwise all stay as they are. */
  lemma WeighingOnlyLowers(s: RunState, k: nat)
    requires k < |s.specialist.GetOr([])|
    ensures Weighed(s).specialist.Some? && |Weighed(s).specialist.value| == |s.specialist.GetOr([])|
    ensures var f, g := s.specialist.GetOr([])[k], Weighed(s).specialist.value[k];
            && Lowered(f, g)
            && (Conflicting(s, s.specialist.GetOr([])) ==> Weighed(s).conflict && g.confidence <= 0.6)
            && (s.fallback && !Conflicting(s, s.specialist.GetOr([])) ==>
                  f.confidence - 0.155 < g.confidence <= f.confidence - 0.145)
            && (!s.fallback && !Conflicting(s, s.specialist.GetOr([])) ==> g == f)
  {
    hide Conflicting, CapAll, DiscountAll;
    var fs := s.specialist.GetOr([]);
    CappedAre(fs, k);
    DiscountedAre(fs, k);
    DiscountedAre(CapAll(fs), k);
  }

  /** Without a result from the specialist the graph's own finding is all there is, and it is not
      trusted above 0.45. */
  lemma OwnFindingsAreWeak(env: Env, s: RunState)
    requires s.specialist.GetOr([]) == []
    ensures MaxConfidence(NormaliseFrom(RawFindings(env, s), 0)) <= 0.45
  {
    hide NormaliseFrom, MaxConfidence;
    NormalisedBound(RawFindings(env, s), 0, 0.45);
  }

  lemma {:induction false} TopIsMax(fs: seq<Finding>)
    requires fs != [] && AllWellFormed(fs)
    ensures Top(fs) in fs && Top(fs).confidence == MaxConfidence(fs)
  {
    assert WellFormed(fs[0]);
    if |fs| == 1 {
      assert fs[1..] == [];
    } else {
      assert forall f :: f in fs[1..] ==> f in fs;
      TopIsMax(fs[1..]);
      assert WellFormed(Top(fs[1..]));
    }
  }

  // --------------------------------------------------------------------------------------------
  // The invariant
  // --------------------------------------------------------------------------------------------

  // What the proposing step can propose: a ticket whose severity is that of the best finding, and with
  // it a rollback exactly when a finding mentions a deployment.
  predicate ProposedFrom(env: Env, findings: seq<Finding>, actions: seq<Action>) {
    && env.argsOk(TicketCreate) && actions != []
    && actions[0] == Action(TicketCreate, SeverityOf(MaxConfidence(findings)), false)
    && (MentionsDeployment(findings)
        ==> env.argsOk(Rollback) && actions == [actions[0], Action(Rollback, Medium, true)])
    && (!MentionsDeployment(findings) ==> actions == [actions[0]])
  }

  predicate Grounded(s: RunState) {
    && AllWellFormed(s.findings)
    && (Rank(s.node) <= 6 ==> s.findings == [])
    && (Rank(s.node) <= 4 ==> s.specialist.None?)
    && (5 <= Rank(s.node) <= 11 && s.specialist.None? ==> s.fallback)
    && (4 <= Rank(s.node) <= 11 ==> s.evidence != [])
    && (s.specialist.None? ==> MaxConfidence(s.findings) <= 0.45)
    && (7 <= Rank(s.node) <= 11 || s.actions != []
        ==> s.specialist.Some? && MaxConfidence(s.findings) >= LOW_CONFIDENCE)
  }

  ghost predicate Shape(env: Env, s: RunState) {
    && Grounded(s)
    && Breaker.Consistent(s.breaker)
    && (Rank(s.node) <= 7 ==> s.actions == [])
    && (8 <= Rank(s.node) <= 11 ==> s.actions != [])
    && (s.actions != [] ==> ProposedFrom(env, s.findings, s.actions))
    && (s.status == Created ==> s.node == Classify && s.log == [])
  }

  // Three failures in a row open the breaker, so a fourth read is only reached after a success.
  lemma ReadsNeedASuccess(env: Env, s: RunState)
    requires Breaker.Consistent(s.breaker) && ReadAll(env, s, READS).signal == Next
    ensures ReadAll(env, s, READS[..3]).signal == Next
    ensures |ReadAll(env, s, READS[..3]).state.evidence| > |s.evidence|
    ensures ReadAll(env, s, READS).state.evidence != []
  {
    hide McpRead, Breaker.Consistent;
    ReadAllFrame(env, s, READS);
    var s1 := AfterRead(env, s, READS[0]);
    var s2 := AfterRead(env, s1, READS[1]);
    var s3 := AfterRead(env, s2, READS[2]);
    UnrollReads(env, s);
    ReadStepFacts(env, s, READS[0]);
    ReadStepFacts(env, s1, READS[1]);
    ReadStepFacts(env, s2, READS[2]);
    McpReadFrame(env, s3, READS[3]);
    ReadAllFrame(env, s3, [READS[3]]);
    Breaker.OpenAtThreshold(s3.breaker, Breaker.Mcp);
  }

  lemma ReadAllStep(env: Env, s: RunState, tools: seq<Tool>)
    requires tools != []
    ensures ReadAll(env, s, tools).signal == Next ==> McpRead(env, s, tools[0]).signal == Next
    ensures McpRead(env, s, tools[0]).signal == Next
            ==> ReadAll(env, s, tools) == ReadAll(env, AfterRead(env, s, tools[0]), tools[1..])
  {
    hide McpRead;
    McpReadFrame(env, s, tools[0]);
  }

  lemma NoReads(env: Env, s: RunState)
    ensures ReadAll(env, s, []) == Step(s, Next)
  {
  }

  lemma UnrollReads(env: Env, s: RunState)
    requires ReadAll(env, s, READS).signal == Next
    ensures var s1 := AfterRead(env, s, READS[0]);
            var s2 := AfterRead(env, s1, READS[1]);
            var s3 := AfterRead(env, s2, READS[2]);
            && McpRead(env, s, READS[0]).signal == McpRead(env, s1, READS[1]).signal
               == McpRead(env, s2, READS[2]).signal == Next
            && McpRead(env, s3, READS[3]).signal == Next
            && ReadAll(env, s, READS[..3]) == Step(s3, Next)
            && ReadAll(env, s, READS) == ReadAll(env, s3, [READS[3]])
  {
    hide McpRead, AfterRead, ReadAll;
    var s1 := AfterRead(env, s, READS[0]);
    var s2 := AfterRead(env, s1, READS[1]);
    var s3 := AfterRead(env, s2, READS[2]);
    var a, b, c, d := READS[0], READS[1], READS[2], READS[3];
    assert READS == [a, b, c, d] && READS[..3] == [a, b, c];
    assert [a, b, c, d][1..] == [b, c, d] && [b, c, d][1..] == [c, d] && [c, d][1..] == [d];
    assert [a, b, c][1..] == [b, c] && [b, c][1..] == [c] && [c][1..] == [];
    ReadAllStep(env, s, [a, b, c, d]);
    ReadAllStep(env, s1, [b, c, d]);
    ReadAllStep(env, s2, [c, d]);
    ReadAllStep(env, s3, [d]);
    ReadAllStep(env, s, [a, b, c]);
    ReadAllStep(env, s1, [b, c]);
    ReadAllStep(env, s2, [c]);
    assert ReadAll(env, s3, []) == Step(s3, Next) by { NoReads(env, s3); }
  }

  lemma ReadStepFacts(env: Env, s: RunState, t: Tool)
    requires Breaker.Consistent(s.breaker) && McpRead(env, s, t).signal == Next
    ensures var s' := AfterRead(env, s, t);
            && Breaker.Consistent(s'.breaker)
            && (|s'.evidence| > |s.evidence|
                || (s'.evidence == s.evidence
                    && Breaker.Failures(s'.breaker, Breaker.Mcp) == Breaker.Failures(s.breaker, Breaker.Mcp) + 1))
            && |s'.evidence| >= |s.evidence|
  {
    hide McpRead, Breaker.Consistent;
    McpReadFrame(env, s, t);
  }

  lemma AskModelFrame(env: Env, s: RunState)
    ensures var (s', signal, _) := AskModel(env, s); s' == s.(meter := s'.meter) && signal != Return
  {
    hide Pay;
  }

  lemma ClassifyKeepsShape(env: Env, s: RunState)
    requires Shape(env, s) && s.status != Created && s.node == Classify
    ensures var r := DoClassify(env, s); Shape(env, r.state) && r.state.status != Created
  {
    hide AskModel, Breaker.Consistent, ProposedFrom, AllWellFormed, MaxConfidence;
    AskModelFrame(env, s);
  }

  lemma PlanKeepsShape(env: Env, s: RunState)
    requires Shape(env, s) && s.status != Created && s.node == Plan
    ensures var r := DoPlan(env, s); Shape(env, r.state) && r.state.status != Created
  {
    hide AskModel, Breaker.Consistent, ProposedFrom, AllWellFormed, MaxConfidence;
    AskModelFrame(env, s);
  }

  lemma McpReadsKeepShape(env: Env, s: RunState)
    requires Shape(env, s) && s.status != Created && s.node == McpReads
    ensures var r := DoMcpReads(env, s); Shape(env, r.state) && r.state.status != Created
  {
    hide ReadAll, Breaker.Consistent, ProposedFrom, AllWellFormed, MaxConfidence;
    ReadAllFrame(env, s, READS);
    if ReadAll(env, s, READS).signal == Next { ReadsNeedASuccess(env, s); }
  }

  lemma DelegateKeepsShape(env: Env, s: RunState)
    requires Shape(env, s) && s.status != Created && s.node == Delegate
    ensures var r := DoDelegate(env, s); Shape(env, r.state) && r.state.status != Created
  {
    hide CallSpecialist, Breaker.Consistent, ProposedFrom, AllWellFormed, MaxConfidence, ValidOutput;
    CallSpecialistFrame(env, s);
    CallSpecialistBreaker(env, s);
  }

  lemma CorrelateKeepsShape(env: Env, s: RunState)
    requires Shape(env, s) && s.status != Created && s.node == Correlate
    ensures var r := DoCorrelate(s); Shape(env, r.state) && r.state.status != Created
  {
    hide Conflicting, CapAll, DiscountAll, Breaker.Consistent, ProposedFrom, AllWellFormed, MaxConfidence;
  }

  lemma FindingsKeepShape(env: Env, s: RunState)
    requires Shape(env, s) && s.status != Created && s.node == Findings
    ensures var r := DoFindings(env, s); Shape(env, r.state) && r.state.status != Created
  {
    hide NormaliseFrom, RawFindings, EmitFindings, Breaker.Consistent, ProposedFrom, AllWellFormed, MaxConfidence;
    var findings := NormaliseFrom(RawFindings(env, s), 0);
    EmitFindingsOnlyLogs(s.(findings := findings), findings);
    NormalisedAreWellFormed(RawFindings(env, s), 0);
    if s.specialist.None? { OwnFindingsAreWeak(env, s); }
  }

  lemma ProposeKeepsShape(env: Env, s: RunState)
    requires Shape(env, s) && s.status != Created && s.node == Propose
    ensures var r := DoPropose(env, s); Shape(env, r.state) && r.state.status != Created
  {
    hide Breaker.Consistent, MaxConfidence, MentionsDeployment, Top;
    if s.findings != [] { TopIsMax(s.findings); }
  }

  lemma PolicyKeepsShape(env: Env, s: RunState)
    requires Shape(env, s) && s.status != Created && s.node == Policy
    ensures var r := DoPolicy(env, s); Shape(env, r.state) && r.state.status != Created
  {
    hide Judge, AnyDenied, Breaker.Consistent, ProposedFrom, AllWellFormed, MaxConfidence;
  }

  lemma GateKeepsShape(env: Env, s: RunState)
    requires Shape(env, s) && s.status != Created && s.node in {Resources, ApprovalPause, ExecuteApproved, Complete}
    ensures var r := Dispatch(env, s); Shape(env, r.state) && r.state.status != Created
  {
    hide ExecuteActions, ApprovedTools, Requests, Breaker.Consistent, ProposedFrom, AllWellFormed, MaxConfidence;
    ExecuteFrame(env, s, s.actions, ApprovedTools(s.approvals));
  }

  lemma VerifyKeepsShape(env: Env, s: RunState)
    requires Shape(env, s) && s.status != Created && s.node == Verify
    ensures var r := DoVerify(env, s); Shape(env, r.state) && r.state.status != Created
  {
    hide McpRead, Breaker.Consistent, ProposedFrom, AllWellFormed, MaxConfidence;
    McpReadFrame(env, s, GetHealth);
  }

  lemma TurnKeepsShape(env: Env, s: RunState)
    requires Shape(env, s) && s.status != Created
    ensures var r := Turn(env, s); Shape(env, r.state) && r.state.status != Created
  {
    hide Shape, DoClassify, DoPlan, DoMcpReads, DoDelegate, DoCorrelate, DoFindings, DoPropose, DoPolicy, DoVerify;
    var g := Guard(env, s);
    assert Shape(env, g.state) by { MeterAside(env, s, g.state.meter); }
    if g.signal == Next {
      match s.node
      case Classify => ClassifyKeepsShape(env, g.state);
      case Plan => PlanKeepsShape(env, g.state);
      case McpReads => McpReadsKeepShape(env, g.state);
      case Delegate => DelegateKeepsShape(env, g.state);
      case Correlate => CorrelateKeepsShape(env, g.state);
      case Findings => FindingsKeepShape(env, g.state);
      case Propose => ProposeKeepsShape(env, g.state);
      case Policy => PolicyKeepsShape(env, g.state);
      case Verify => VerifyKeepsShape(env, g.state);
      case _ => GateKeepsShape(env, g.state);
    }
  }

  lemma MeterAside(env: Env, s: RunState, m: Meter)
    requires Shape(env, s)
    ensures Shape(env, s.(meter := m))
  {
  }

  lemma CloseKeepsShape(env: Env, s: RunState, why: Why)
    requires Shape(env, s)
    ensures Shape(env, Close(s, why)) && Close(s, why).status != Created
  {
    hide Breaker.Consistent, ProposedFrom, AllWellFormed, MaxConfidence;
  }

  lemma {:induction false} DriveKeepsShape(env: Env, s: RunState)
    requires Shape(env, s) && s.status != Created
    ensures Shape(env, Drive(env, s)) && Drive(env, s).status != Created
    decreases 12 - Rank(s.node)
  {
    hide Shape, Turn, Close;
    TurnKeepsShape(env, s);
    TurnClimbs(env, s);
    var r := Turn(env, s);
    match r.signal
    case Next => DriveKeepsShape(env, r.state);
    case Return =>
    case Raise(why) => CloseKeepsShape(env, r.state, why);
  }

  lemma RunKeepsShape(env: Env, s: RunState)
    requires Shape(env, s)
    ensures Shape(env, Run(env, s)) && Run(env, s).status != Created
  {
    hide Drive, Breaker.Consistent, ProposedFrom, AllWellFormed, MaxConfidence;
    DriveKeepsShape(env, if s.status == Created then Transition(s.(status := Running), Classify, RunStarted) else s);
  }

  lemma ResumeKeepsShape(env: Env, s: RunState, d: Decision)
    requires Shape(env, s) && Resume(env, s, d).Some?
    ensures Shape(env, Resume(env, s, d).value)
  {
    hide Run, Decide, Breaker.Consistent, ProposedFrom, AllWellFormed, MaxConfidence;
    if d == Approved {
      var told := Emit(s.(approvals := Decide(s.approvals, d)), ApprovalReceived(d));
      RunKeepsShape(env, Save(told).(node := ExecuteApproved));
    }
  }

  lemma ApplyKeepsShape(env: Env, s: RunState, op: Op)
    requires Shape(env, s)
    ensures Shape(env, ApplyOp(env, s, op))
  {
    hide Run, Resume, ProposedFrom, AllWellFormed, MaxConfidence;
    match op
    case DoRun => RunKeepsShape(env, s);
    case DoResume(d) => if Resume(env, s, d).Some? { ResumeKeepsShape(env, s, d); }
    case NewGraph =>
  }

  lemma {:induction false} ReachableShape(env: Env, limits: Limits, ops: seq<Op>)
    ensures Shape(env, After(env, limits, ops))
  {
    if ops == [] {
      assert After(env, limits, ops) == NewRun(limits);
    } else {
      hide Shape, ApplyOp;
      ReachableShape(env, limits, ops[..|ops| - 1]);
      ApplyKeepsShape(env, After(env, limits, ops[..|ops| - 1]), ops[|ops| - 1]);
    }
  }

  /** What acting rests on, over every history: every stored confidence is in [0, 1]; a run at the
      proposal or past it, or with anything proposed, has a result from the specialist and a finding of
      confidence at least 0.5; its ticket is never of low severity; and past the reads there is evidence. */
  lemma ActingIsGrounded(env: Env, limits: Limits, ops: seq<Op>)
    ensures var s := After(env, limits, ops);
            && (forall f :: f in s.findings ==> 0.0 <= f.confidence <= 1.0)
            && (7 <= Rank(s.node) <= 11 || s.actions != [] ==>
                  s.specialist.Some? && exists f :: f in s.findings && f.confidence >= LOW_CONFIDENCE)
            && (s.actions != [] ==> s.actions[0].tool == TicketCreate && s.actions[0].severity != Low)
            && (4 <= Rank(s.node) <= 11 ==> s.evidence != [])
  {
    hide After, Top, MentionsDeployment, Breaker.Consistent;
    var s := After(env, limits, ops);
    ReachableShape(env, limits, ops);
    assert forall f :: f in s.findings ==> WellFormed(f);
    if s.findings == [] {
      assert MaxConfidence(s.findings) == 0.0;
    } else {
      TopIsMax(s.findings);
      assert Top(s.findings) in s.findings;
    }
  }
}
