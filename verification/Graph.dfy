/** The bounded investigation graph (apps/orchestrator/graph.py) as functions on run states: what each
    node does, one driver pass, and the resume after an approval. Free text that only ends up in notes
    (unresolved questions, plan steps, resource records, reasons) is left out. */
module Graph {
  import opened Wrappers
  import opened Catalog
  import opened Text
  import opened Budget
  import Breaker

  const MAX_READ_RETRIES: nat := 2
  const LOW_CONFIDENCE: real := 0.5

  // --------------------------------------------------------------------------------------------
  // The outside world
  // --------------------------------------------------------------------------------------------

  datatype ModelOutcome = Replied(needsClarification: bool) | ModelRaised

  datatype Health = Healthy | Degraded | OtherHealth

  /** A tool's answer; `named` is a "tool" entry of its own, which replaces the tool's name in the
      evidence. */
  datatype ToolOutcome =
    | Answered(named: Option<Tool>, health: Health, ref: string)
    | TimedOut        // TimeoutError or ConnectionError
    | ToolRaised      // any other exception, or a malformed or oversize result

  datatype RawFinding = RawFinding(title: string, summary: string, refs: seq<string>, confidence: real)

  datatype AgentOutcome =
    | AgentTimedOut
    | AgentCancelled                      // the client raised RunCancelledError
    | AgentRaised
    | NotADict                            // the reply has no `get`
    | NotCompleted(errorIsDict: bool)     // status other than completed
    | CompletedBadly                      // completed, with an output that is not of the schema's types
    | Completed(findings: seq<RawFinding>)

  datatype PolicyOutcome = Judged(allowed: bool) | PolicyRaised

  /** Everything the graph does not decide: the clients' replies by tick, the canceller and the clock,
      the service name, and which tool arguments pass the allowlist gate. */
  datatype Env = Env(world: World, model: nat -> ModelOutcome, tool: nat -> ToolOutcome,
                     agent: nat -> AgentOutcome, policy: nat -> PolicyOutcome,
                     service: string, argsOk: Tool -> bool)

  // --------------------------------------------------------------------------------------------
  // Run state
  // --------------------------------------------------------------------------------------------

  datatype Node = Classify | Plan | Resources | McpReads | Delegate | Correlate | Findings | Propose | Policy
                | ApprovalPause | ExecuteApproved | Verify | Complete

  function Rank(n: Node): nat {
    match n
    case Classify => 0 case Plan => 1 case Resources => 2 case McpReads => 3 case Delegate => 4
    case Correlate => 5 case Findings => 6 case Propose => 7 case Policy => 8 case ApprovalPause => 9
    case ExecuteApproved => 10 case Verify => 11 case Complete => 12
  }

  datatype Status = Created | Running | WaitingForApproval | StatusCompleted | Failed | StatusCancelled

  datatype Verdict = Clarify | MoreInfo | DeniedByPolicy | Rejected | Done | RunFailedOutcome | RunCancelledOutcome

  datatype ErrorCode = BudgetExceeded(budget: BudgetKind) | InternalError

  datatype Evidence = Evidence(tool: Tool, health: Health, ref: string)

  datatype Severity = Low | Medium | High

  datatype Finding = Finding(index: nat, title: string, summary: string, refs: seq<string>, confidence: real,
                             severity: Severity)

  /** A proposed action. One run proposes each tool at most once, so the tool stands for the action id. */
  datatype Action = Action(tool: Tool, severity: Severity, dryRun: bool)

  datatype Decision = Pending | Approved | RejectedByHuman | Expired

  datatype Approval = Approval(action: Tool, decision: Decision)

  datatype Subject = ResourceRead | ReadOf(tool: Tool) | ActionOf(tool: Tool)

  datatype Event =
    | RunStarted
    | MessageDelta
    | ToolStarted(subject: Subject)
    | ToolCompleted(subject: Subject, succeeded: bool)
    | AgentDelegated
    | FindingCreated(finding: Finding)
    | ApprovalRequired(actions: seq<Action>)
    | ApprovalReceived(decision: Decision)
    | RunCompleted(verdict: Verdict)
    | RunFailed(error: ErrorCode)
    | RunCancelled

  datatype Stamped = Stamped(number: nat, event: Event)

  datatype RunState = RunState(
    status: Status, node: Node, limits: Limits, meter: Meter, breaker: Breaker.State,
    eventSequence: nat, log: seq<Stamped>, saved: (Status, Node),
    evidence: seq<Evidence>, specialist: Option<seq<RawFinding>>, fallback: bool, conflict: bool,
    findings: seq<Finding>, actions: seq<Action>, judged: seq<(Tool, bool)>, approvals: seq<Approval>,
    verdict: Option<Verdict>, error: Option<ErrorCode>)

  function NewRun(limits: Limits): RunState {
    RunState(Created, Classify, limits, NEW_METER, Breaker.CLOSED, 0, [], (Created, Classify),
             [], None, false, false, [], [], [], [], None, None)
  }

  /** How a step ends: the driver goes on, returns to the caller, or an exception leaves the step. */
  datatype Signal = Next | Return | Raise(why: Why)

  datatype Step = Step(state: RunState, signal: Signal)

  // --------------------------------------------------------------------------------------------
  // Events, saves, checks
  // --------------------------------------------------------------------------------------------

  function Emit(s: RunState, e: Event): RunState {
    s.(eventSequence := s.eventSequence + 1, log := s.log + [Stamped(s.eventSequence + 1, e)])
  }

  function Save(s: RunState): RunState { s.(saved := (s.status, s.node)) }

  function Transition(s: RunState, next: Node, e: Event): RunState { Save(Emit(s.(node := next), e)) }

  // The tick at which the last call was answered.
  function Answer(m: Meter): nat { if m.tick > 0 then m.tick - 1 else 0 }

  // --------------------------------------------------------------------------------------------
  // Reads
  // --------------------------------------------------------------------------------------------

  /** The end of a series of attempts: an exception, an answer, or neither when the read failed. */
  datatype Attempts = Attempts(meter: Meter, stop: Option<Why>, answer: Option<ToolOutcome>)

  // Attempts from number `attempt` on: cancel check, charge, call; only a timeout is tried again.
  function ReadAttempts(env: Env, lim: Limits, m: Meter, attempt: nat): Attempts
    requires attempt <= MAX_READ_RETRIES
    decreases MAX_READ_RETRIES - attempt
  {
    var paid := ClearAndPay(env.world, lim, m, ToolCall, None);
    if paid.stop.Some? then Attempts(paid.meter, paid.stop, None)
    else match env.tool(Answer(paid.meter))
         case Answered(_, _, _) => Attempts(paid.meter, None, Some(env.tool(Answer(paid.meter))))
         case TimedOut =>
           if attempt >= MAX_READ_RETRIES then Attempts(paid.meter, None, None)
           else ReadAttempts(env, lim, paid.meter, attempt + 1)
         case ToolRaised => Attempts(paid.meter, None, None)
  }

  datatype ReadStep = ReadStep(state: RunState, signal: Signal, answer: Option<ToolOutcome>)

  function McpRead(env: Env, s: RunState, t: Tool): ReadStep {
    if !env.argsOk(t) || Breaker.Mcp in s.breaker.open then ReadStep(s, Raise(Crashed), None)
    else
      var r := ReadAttempts(env, s.limits, s.meter, 0);
      var started := Emit(s, ToolStarted(ReadOf(t))).(meter := r.meter);
      if r.stop.Some? then ReadStep(started, Raise(r.stop.value), None)
      else
        var breaker := if r.answer.Some? then Breaker.Success(s.breaker, Breaker.Mcp)
                       else Breaker.Failure(s.breaker, Breaker.Mcp);
        ReadStep(Emit(started.(breaker := breaker), ToolCompleted(ReadOf(t), r.answer.Some?)), Next, r.answer)
  }

  const READS: seq<Tool> := [QueryMetrics, QueryLogs, GetHealth, GetCurrentRelease]

  function ToEvidence(t: Tool, o: ToolOutcome): Evidence
    requires o.Answered?
  {
    Evidence(o.named.GetOr(t), o.health, o.ref)
  }

  function ReadAll(env: Env, s: RunState, tools: seq<Tool>): Step
    decreases |tools|
  {
    if tools == [] then Step(s, Next)
    else
      var r := McpRead(env, s, tools[0]);
      if r.signal.Raise? then Step(r.state, r.signal)
      else if r.answer.Some? && r.answer.value.Answered? then
        ReadAll(env, r.state.(evidence := r.state.evidence + [ToEvidence(tools[0], r.answer.value)]), tools[1..])
      else ReadAll(env, r.state, tools[1..])
  }

  // --------------------------------------------------------------------------------------------
  // The nodes
  // --------------------------------------------------------------------------------------------

  // Ends the run at the complete node with a verdict, as the early exits do.
  function EndEarly(s: RunState, v: Verdict): RunState {
    Transition(Emit(s.(verdict := Some(v), status := StatusCompleted), MessageDelta), Complete, RunCompleted(v))
  }

  function AskModel(env: Env, s: RunState): (RunState, Signal, ModelOutcome) {
    var paid := Pay(env.world, s.limits, s.meter, ModelCall, None);
    var s' := s.(meter := paid.meter);
    if paid.stop.Some? then (s', Raise(paid.stop.value), ModelRaised)
    else match env.model(Answer(paid.meter))
         case ModelRaised => (s', Raise(Crashed), ModelRaised)
         case Replied(_) => (s', Next, env.model(Answer(paid.meter)))
  }

  function DoClassify(env: Env, s: RunState): Step {
    var (s', signal, reply) := AskModel(env, s);
    if signal.Raise? then Step(s', signal)
    else
      var planned := Transition(s', Plan, MessageDelta);
      if reply.Replied? && reply.needsClarification then Step(EndEarly(planned, Clarify), Return)
      else Step(planned, Next)
  }

  function DoPlan(env: Env, s: RunState): Step {
    var (s', signal, _) := AskModel(env, s);
    if signal.Raise? then Step(s', signal) else Step(Transition(s', Resources, MessageDelta), Next)
  }

  function DoResources(s: RunState): Step {
    Step(Transition(s, McpReads, ToolStarted(ResourceRead)), Next)
  }

  function DoMcpReads(env: Env, s: RunState): Step {
    var r := ReadAll(env, s, READS);
    if r.signal.Raise? then r else Step(Transition(r.state, Delegate, ToolCompleted(ResourceRead, true)), Next)
  }

  predicate ValidFinding(f: RawFinding) {
    f.title != "" && f.summary != "" && f.refs != [] && 0.0 <= f.confidence <= 1.0
  }

  predicate ValidOutput(findings: seq<RawFinding>) {
    forall f :: f in findings ==> ValidFinding(f)
  }

  function FallBack(s: RunState): RunState {
    s.(breaker := Breaker.Failure(s.breaker, Breaker.A2a), fallback := true)
  }

  // The delegation's result, before the transition: the specialist's findings, or None when degraded.
  function CallSpecialist(env: Env, s: RunState): (RunState, Signal, Option<seq<RawFinding>>) {
    if Breaker.A2a in s.breaker.open then (s.(fallback := true), Next, None)
    else
      var paid := ClearAndPay(env.world, s.limits, s.meter, Delegation, None);
      if paid.stop.Some? then (s.(meter := paid.meter), Raise(paid.stop.value), None)
      else
        var s' := Emit(s.(meter := paid.meter), AgentDelegated);
        match env.agent(Answer(paid.meter))
        case AgentTimedOut => (FallBack(s'), Next, None)
        case AgentCancelled => (s', Raise(Cancelled), None)
        case AgentRaised => (FallBack(s'), Next, None)
        case NotADict => (s', Raise(Crashed), None)
        case NotCompleted(errorIsDict) => (FallBack(s'), if errorIsDict then Next else Raise(Crashed), None)
        case CompletedBadly => (FallBack(s'), Next, None)
        case Completed(findings) =>
          if ValidOutput(findings) then
            (s'.(breaker := Breaker.Success(s'.breaker, Breaker.A2a)), Next, Some(findings))
          else (FallBack(s'), Next, None)
  }

  function DoDelegate(env: Env, s: RunState): Step {
    var (s', signal, found) := CallSpecialist(env, s);
    if signal.Raise? then Step(s', signal)
    else Step(Transition(s'.(specialist := found), Correlate, MessageDelta), Next)
  }

  function SumConfidence(fs: seq<RawFinding>): real {
    if fs == [] then 0.0 else fs[0].confidence + SumConfidence(fs[1..])
  }

  function AverageConfidence(fs: seq<RawFinding>): real {
    if fs == [] then 0.0 else SumConfidence(fs) / |fs| as real
  }

  function MinReal(a: real, b: real): real { if a < b then a else b }

  function MaxReal(a: real, b: real): real { if a > b then a else b }

  // round(x, 2)
  function Round2(x: real): real { (x * 100.0 + 0.5).Floor as real / 100.0 }

  function CapAll(fs: seq<RawFinding>): (r: seq<RawFinding>)
    ensures |r| == |fs|
  {
    if fs == [] then [] else [fs[0].(confidence := MinReal(fs[0].confidence, 0.6))] + CapAll(fs[1..])
  }

  function DiscountAll(fs: seq<RawFinding>): (r: seq<RawFinding>)
    ensures |r| == |fs|
  {
    if fs == [] then [] else [fs[0].(confidence := Round2(fs[0].confidence - 0.15))] + DiscountAll(fs[1..])
  }

  function FirstHealth(evidence: seq<Evidence>): Option<Health> {
    if evidence == [] then None
    else if evidence[0].tool == GetHealth then Some(evidence[0].health)
    else FirstHealth(evidence[1..])
  }

  predicate Conflicting(s: RunState, fs: seq<RawFinding>) {
    FirstHealth(s.evidence) == Some(Healthy) && fs != [] && AverageConfidence(fs) > 0.6
  }

  // The specialist's findings capped on a conflict, discounted when degraded.
  function Weighed(s: RunState): RunState {
    var fs := s.specialist.GetOr([]);
    var capped := if Conflicting(s, fs) then CapAll(fs) else fs;
    var weighed := if s.fallback then DiscountAll(capped) else capped;
    s.(conflict := s.conflict || Conflicting(s, fs), specialist := if s.specialist.Some? then Some(weighed) else None)
  }

  function DoCorrelate(s: RunState): Step {
    Step(Save(Emit(Save(Weighed(s)).(node := Findings), MessageDelta)), Next)
  }

  // The one finding the graph derives itself when the specialist gave none.
  function OwnFinding(env: Env, evidence: seq<Evidence>): RawFinding {
    RawFinding("Elevated errors in " + env.service,
               "Primary telemetry shows elevated errors; specialist unavailable.", RefsOf(Clip(evidence, 2)), 0.45)
  }

  function RefsOf(evidence: seq<Evidence>): seq<string> {
    if evidence == [] then [] else [evidence[0].ref] + RefsOf(evidence[1..])
  }

  function RawFindings(env: Env, s: RunState): seq<RawFinding> {
    var given := s.specialist.GetOr([]);
    if given == [] && s.evidence != [] then [OwnFinding(env, s.evidence)] else given
  }

  function NonEmpty(refs: seq<string>): seq<string> {
    if refs == [] then [] else (if refs[0] != "" then [refs[0]] else []) + NonEmpty(refs[1..])
  }

  function SeverityOf(conf: real): Severity {
    if conf >= 0.75 then High else if conf >= 0.5 then Medium else Low
  }

  function Normalised(i: nat, f: RawFinding): Option<Finding> {
    var title, summary, refs := Strip(f.title), Strip(f.summary), NonEmpty(f.refs);
    if title == "" || summary == "" || refs == [] then None
    else
      var conf := MaxReal(0.0, MinReal(1.0, f.confidence));
      Some(Finding(i, Clip(title, 256), Clip(summary, 4000), Clip(refs, 16), conf, SeverityOf(conf)))
  }

  // The findings kept from `raw[i..]`.
  function NormaliseFrom(raw: seq<RawFinding>, i: nat): seq<Finding>
    requires i <= |raw|
    decreases |raw| - i
  {
    if i == |raw| then []
    else match Normalised(i, raw[i])
         case Some(f) => [f] + NormaliseFrom(raw, i + 1)
         case None => NormaliseFrom(raw, i + 1)
  }

  function EmitFindings(s: RunState, fs: seq<Finding>): RunState {
    if fs == [] then s else Emit(EmitFindings(s, fs[..|fs| - 1]), FindingCreated(fs[|fs| - 1]))
  }

  function MaxConfidence(fs: seq<Finding>): real {
    if fs == [] then 0.0 else MaxReal(fs[0].confidence, MaxConfidence(fs[1..]))
  }

  function DoFindings(env: Env, s: RunState): Step {
    var findings := NormaliseFrom(RawFindings(env, s), 0);
    var s' := Save(EmitFindings(s.(findings := findings), findings));
    if findings == [] || MaxConfidence(findings) < LOW_CONFIDENCE then Step(EndEarly(s', MoreInfo), Return)
    else Step(Save(s'.(node := Propose)), Next)
  }

  // max(findings, key=confidence): the first one with the greatest confidence.
  function Top(fs: seq<Finding>): Finding
    requires fs != []
  {
    if |fs| == 1 then fs[0]
    else
      var rest := Top(fs[1..]);
      if fs[0].confidence >= rest.confidence then fs[0] else rest
  }

  predicate MentionsDeployment(fs: seq<Finding>) {
    exists f :: f in fs && Contains(f.title, "deployment")
  }

  function DoPropose(env: Env, s: RunState): Step {
    if s.findings == [] || !env.argsOk(TicketCreate) then Step(s, Raise(Crashed))
    else if MentionsDeployment(s.findings) && !env.argsOk(Rollback) then Step(s, Raise(Crashed))
    else
      var ticket := Action(TicketCreate, Top(s.findings).severity, false);
      var actions := if MentionsDeployment(s.findings) then [ticket, Action(Rollback, Medium, true)] else [ticket];
      Step(Transition(s.(actions := actions), Policy, MessageDelta), Next)
  }

  // Asks the policy about every action in turn; None if it raises.
  function Judge(env: Env, m: Meter, actions: seq<Action>): (Meter, Option<seq<(Tool, bool)>>)
    decreases |actions|
  {
    if actions == [] then (m, Some([]))
    else
      var m' := m.(tick := m.tick + 1);
      match env.policy(m.tick)
      case PolicyRaised => (m', None)
      case Judged(allowed) =>
        match Judge(env, m', actions[1..])
        case (m'', None) => (m'', None)
        case (m'', Some(rest)) => (m'', Some([(actions[0].tool, allowed)] + rest))
  }

  predicate AnyDenied(judged: seq<(Tool, bool)>) {
    exists j :: j in judged && !j.1
  }

  function DoPolicy(env: Env, s: RunState): Step {
    var (m, judged) := Judge(env, s.meter, s.actions);
    if judged.None? then Step(s.(meter := m), Raise(Crashed))
    else
      var s' := Save(s.(meter := m, judged := judged.value));
      if AnyDenied(judged.value) then Step(EndEarly(s', DeniedByPolicy), Return)
      else Step(Save(s'.(node := ApprovalPause)), Next)
  }

  function Requests(actions: seq<Action>): (r: seq<Approval>)
    ensures |r| == |actions|
    ensures forall i :: 0 <= i < |r| ==> r[i] == Approval(actions[i].tool, Pending)
  {
    if actions == [] then [] else [Approval(actions[0].tool, Pending)] + Requests(actions[1..])
  }

  function DoApprovalPause(s: RunState): Step {
    if s.actions == [] then Step(Save(s.(node := Verify)), Return)
    else
      var s' := s.(status := WaitingForApproval, approvals := s.approvals + Requests(s.actions));
      Step(Save(Emit(s', ApprovalRequired(s.actions))), Return)
  }

  function ApprovedTools(approvals: seq<Approval>): set<Tool> {
    set a | a in approvals && a.decision == Approved :: a.action
  }

  // The two events around one executed action.
  function Executed(s: RunState, t: Tool, m: Meter, succeeded: bool): RunState {
    Emit(Emit(s.(meter := m), ToolStarted(ActionOf(t))), ToolCompleted(ActionOf(t), succeeded))
  }

  function ExecuteActions(env: Env, s: RunState, actions: seq<Action>, approved: set<Tool>): Step
    decreases |actions|
  {
    if actions == [] then Step(s, Next)
    else if actions[0].tool !in approved then ExecuteActions(env, s, actions[1..], approved)
    else
      var t := actions[0].tool;
      if !env.argsOk(t) || CategoryOf(t) == Destructive then Step(s, Raise(Crashed))
      else
        var paid := ClearAndPay(env.world, s.limits, s.meter, ToolCall, Some(t));
        if paid.stop.Some? then Step(s.(meter := paid.meter), Raise(paid.stop.value))
        else ExecuteActions(env, Executed(s, t, paid.meter, env.tool(Answer(paid.meter)).Answered?), actions[1..],
                            approved)
  }

  function DoExecute(env: Env, s: RunState): Step {
    var approved := ApprovedTools(s.approvals);
    if s.actions != [] && approved == {} then Step(s, Raise(Crashed))
    else
      var r := ExecuteActions(env, s, s.actions, approved);
      if r.signal.Raise? then r else Step(Save(r.state.(node := Verify, status := Running)), Next)
  }

  function DoVerify(env: Env, s: RunState): Step {
    var r := McpRead(env, s, GetHealth);
    if r.signal.Raise? then Step(r.state, r.signal) else Step(Transition(r.state, Complete, MessageDelta), Next)
  }

  function DoComplete(s: RunState): Step {
    var v := s.verdict.GetOr(Done);
    Step(Save(Emit(s.(verdict := Some(v), status := StatusCompleted), RunCompleted(v))), Return)
  }

  function Dispatch(env: Env, s: RunState): Step {
    match s.node
    case Classify => DoClassify(env, s)
    case Plan => DoPlan(env, s)
    case Resources => DoResources(s)
    case McpReads => DoMcpReads(env, s)
    case Delegate => DoDelegate(env, s)
    case Correlate => DoCorrelate(s)
    case Findings => DoFindings(env, s)
    case Propose => DoPropose(env, s)
    case Policy => DoPolicy(env, s)
    case ApprovalPause => DoApprovalPause(s)
    case ExecuteApproved => DoExecute(env, s)
    case Verify => DoVerify(env, s)
    case Complete => DoComplete(s)
  }

  // --------------------------------------------------------------------------------------------
  // Driver passes
  // --------------------------------------------------------------------------------------------

  // The checks at the top of the driver loop.
  function Guard(env: Env, s: RunState): Step {
    var (m, cancelled) := CheckCancel(env.world, s.meter);
    if cancelled then Step(s.(meter := m), Raise(Cancelled))
    else
      var (m', over) := CheckBudgets(env.world, s.limits, m);
      if over.Some? then Step(s.(meter := m'), Raise(OverBudget(over.value))) else Step(s.(meter := m'), Next)
  }

  // The except clauses of `run`.
  function Close(s: RunState, why: Why): RunState {
    match why
    case Cancelled =>
      Save(Emit(s.(status := StatusCancelled, verdict := Some(RunCancelledOutcome)), RunCancelled))
    case OverBudget(b) => CloseFailed(s, BudgetExceeded(b))
    case Crashed => CloseFailed(s, InternalError)
  }

  function CloseFailed(s: RunState, e: ErrorCode): RunState {
    Save(Emit(s.(status := Failed, verdict := Some(RunFailedOutcome), error := Some(e)), RunFailed(e)))
  }

  // One turn of the driver loop.
  function Turn(env: Env, s: RunState): Step {
    var g := Guard(env, s);
    if g.signal.Raise? then g else Dispatch(env, g.state)
  }

  function Drive(env: Env, s: RunState): RunState
    decreases 12 - Rank(s.node)
  {
    var r := Turn(env, s);
    match r.signal
    case Raise(why) => Close(r.state, why)
    case Return => r.state
    case Next => if Rank(r.state.node) > Rank(s.node) then Drive(env, r.state) else r.state
  }

  function Run(env: Env, s: RunState): RunState {
    Drive(env, if s.status == Created then Transition(s.(status := Running), Classify, RunStarted) else s)
  }

  function Decide(approvals: seq<Approval>, d: Decision): (r: seq<Approval>)
    ensures |r| == |approvals|
    ensures forall i :: 0 <= i < |r| ==> r[i] == approvals[i].(decision := d)
  {
    if approvals == [] then [] else [approvals[0].(decision := d)] + Decide(approvals[1..], d)
  }

  predicate AwaitsApproval(s: RunState) { s.node == ApprovalPause && s.status == WaitingForApproval }

  // None is the ValueError of a run that is not paused or of a decision that is none.
  function Resume(env: Env, s: RunState, d: Decision): Option<RunState> {
    if !AwaitsApproval(s) || d == Pending then None
    else
      var told := Emit(s.(approvals := Decide(s.approvals, d)), ApprovalReceived(d));
      if d == Approved then Some(Run(env, Save(told).(node := ExecuteApproved)))
      else Some(Transition(told.(verdict := Some(Rejected), status := StatusCompleted), Complete,
                           RunCompleted(Rejected)))
  }

  // --------------------------------------------------------------------------------------------
  // Histories of one run
  // --------------------------------------------------------------------------------------------

  /** What a caller can do with a run: drive it, resume it, or hand it to a new graph object, whose
      breaker is fresh. Cancellation comes from the environment, at any tick. */
  datatype Op = DoRun | DoResume(decision: Decision) | NewGraph

  function ApplyOp(env: Env, s: RunState, op: Op): RunState {
    match op
    case DoRun => Run(env, s)
    case DoResume(d) => Resume(env, s, d).GetOr(s)
    case NewGraph => s.(breaker := Breaker.CLOSED)
  }

  function After(env: Env, limits: Limits, ops: seq<Op>): RunState {
    if ops == [] then NewRun(limits) else ApplyOp(env, After(env, limits, ops[..|ops| - 1]), ops[|ops| - 1])
  }
}
