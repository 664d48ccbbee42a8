/** The graph as the program it is: a run record updated in place by the graph object's methods, with its
    loops, proved against the functions of module Graph. */
module GraphMachine {
  import opened Wrappers
  import opened Catalog
  import opened Budget
  import G = Graph
  import opened GraphShape
  import Breaker

  /** The run's record. `log` and `saved` are what the store was given; `meter` is the usage with the
      record of calls. */
  class RunRecord {
    const limits: Limits
    var status: G.Status
    var node: G.Node
    var meter: Meter
    var eventSequence: nat
    var log: seq<G.Stamped>
    var saved: (G.Status, G.Node)
    var evidence: seq<G.Evidence>
    var specialist: Option<seq<G.RawFinding>>
    var fallback: bool
    var conflict: bool
    var findings: seq<G.Finding>
    var actions: seq<G.Action>
    var judged: seq<(Tool, bool)>
    var approvals: seq<G.Approval>
    var verdict: Option<G.Verdict>
    var error: Option<G.ErrorCode>

    function View(breaker: Breaker.State): G.RunState
      reads this
    {
      G.RunState(status, node, limits, meter, breaker, eventSequence, log, saved, evidence, specialist, fallback,
                 conflict,
                 findings, actions, judged, approvals, verdict, error)
    }

    constructor (limits: Limits)
      ensures View(Breaker.CLOSED) == G.NewRun(limits)
    {
      this.limits := limits;
      status, node, meter, eventSequence, log := G.Created, G.Classify, NEW_METER, 0, [];
      saved, evidence, specialist, fallback, conflict := (G.Created, G.Classify), [], None, false, false;
      findings, actions, judged, approvals, verdict, error := [], [], [], [], None, None;
    }
  }

  class OrchestratorGraph {
    const env: G.Env
    const breaker: Breaker.CircuitBreaker

    constructor (env: G.Env)
      ensures this.env == env && fresh(breaker) && breaker.Snapshot() == Breaker.CLOSED
    {
      this.env := env;
      breaker := new Breaker.CircuitBreaker();
    }

    // The run state this graph sees.
    function Look(run: RunRecord): G.RunState
      reads run, breaker
    {
      run.View(breaker.Snapshot())
    }

    method Emit(run: RunRecord, e: G.Event)
      modifies run
      ensures Look(run) == G.Emit(old(Look(run)), e)
    {
      run.eventSequence := run.eventSequence + 1;
      run.log := run.log + [G.Stamped(run.eventSequence, e)];
    }

    method Save(run: RunRecord)
      modifies run
      ensures Look(run) == G.Save(old(Look(run)))
    {
      run.saved := (run.status, run.node);
    }

    method Transition(run: RunRecord, next: G.Node, e: G.Event)
      modifies run
      ensures Look(run) == G.Transition(old(Look(run)), next, e)
    {
      run.node := next;
      Emit(run, e);
      Save(run);
    }

    method CheckCancel(run: RunRecord) returns (cancelled: bool)
      modifies run`meter
      ensures (run.meter, cancelled) == Budget.CheckCancel(env.world, old(run.meter))
    {
      cancelled := env.world.cancelled(run.meter.tick);
      run.meter := if cancelled then run.meter.(tick := run.meter.tick + 1)
                   else run.meter.(tick := run.meter.tick + 1, clearedAt := run.meter.tick);
    }

    method CheckBudgets(run: RunRecord) returns (over: Option<BudgetKind>)
      modifies run`meter
      ensures (run.meter, over) == Budget.CheckBudgets(env.world, run.limits, old(run.meter))
    {
      over := Over(run.limits, run.meter.usage);
      if over.None? && env.world.elapsed(run.meter.tick) > run.limits.maxDuration {
        over := Some(OverDuration);
      }
      run.meter := run.meter.(tick := run.meter.tick + 1);
    }

    // Charges the ledger, checks it, and if the check passes starts the call.
    method Pay(run: RunRecord, k: Kind, action: Option<Tool>) returns (stop: Option<Why>)
      modifies run`meter
      ensures Billed(run.meter, stop) == Budget.Pay(env.world, run.limits, old(run.meter), k, action)
    {
      run.meter := run.meter.(usage := Charge(run.meter.usage, k));
      var over := CheckBudgets(run);
      if over.Some? {
        return Some(OverBudget(over.value));
      }
      run.meter := Start(run.meter, k, action);
      stop := None;
    }

    method ClearAndPay(run: RunRecord, k: Kind, action: Option<Tool>) returns (stop: Option<Why>)
      modifies run`meter
      ensures Billed(run.meter, stop) == Budget.ClearAndPay(env.world, run.limits, old(run.meter), k, action)
    {
      var cancelled := CheckCancel(run);
      if cancelled {
        return Some(Cancelled);
      }
      stop := Pay(run, k, action);
    }

    // --------------------------------------------------------------------------------------------
    // Reads
    // --------------------------------------------------------------------------------------------

    // The bounded retries of a read: only a timeout is tried again.
    method TryRead(run: RunRecord) returns (stop: Option<Why>, answer: Option<G.ToolOutcome>)
      modifies run`meter
      ensures G.Attempts(run.meter, stop, answer) == G.ReadAttempts(env, run.limits, old(run.meter), 0)
    {
      hide Budget.ClearAndPay;
      for attempt := 0 to G.MAX_READ_RETRIES + 1
        invariant attempt <= G.MAX_READ_RETRIES ==>
                    G.ReadAttempts(env, run.limits, old(run.meter), 0)
                    == G.ReadAttempts(env, run.limits, run.meter, attempt)
        invariant attempt > G.MAX_READ_RETRIES
                  ==> G.ReadAttempts(env, run.limits, old(run.meter), 0) == G.Attempts(run.meter, None, None)
      {
        stop := ClearAndPay(run, ToolCall, None);
        if stop.Some? {
          return stop, None;
        }
        var reply := env.tool(G.Answer(run.meter));
        if reply.Answered? {
          return None, Some(reply);
        }
        if reply.ToolRaised? {
          return None, None;
        }
      }
      return None, None;
    }

    method McpRead(run: RunRecord, t: Tool) returns (signal: G.Signal, answer: Option<G.ToolOutcome>)
      modifies run, breaker
      ensures G.ReadStep(Look(run), signal, answer) == G.McpRead(env, old(Look(run)), t)
    {
      hide G.ReadAttempts, Breaker.Success, Breaker.Failure;
      var isOpen := breaker.Guard(Breaker.Mcp);
      if !env.argsOk(t) || isOpen {
        return G.Raise(Crashed), None;
      }
      Emit(run, G.ToolStarted(G.ReadOf(t)));
      var stop;
      stop, answer := TryRead(run);
      if stop.Some? {
        return G.Raise(stop.value), None;
      }
      if answer.Some? {
        breaker.RecordSuccess(Breaker.Mcp);
      } else {
        breaker.RecordFailure(Breaker.Mcp);
      }
      Emit(run, G.ToolCompleted(G.ReadOf(t), answer.Some?));
      signal := G.Next;
    }

    method DoMcpReads(run: RunRecord) returns (signal: G.Signal)
      modifies run, breaker
      ensures G.Step(Look(run), signal) == G.DoMcpReads(env, old(Look(run)))
    {
      hide G.McpRead;
      var tools := G.READS;
      for i := 0 to |tools|
        invariant G.ReadAll(env, old(Look(run)), tools) == G.ReadAll(env, Look(run), tools[i..])
      {
        assert tools[i..][0] == tools[i] && tools[i..][1..] == tools[i + 1..];
        var answer;
        signal, answer := McpRead(run, tools[i]);
        McpReadFrame(env, old(Look(run)), tools[i]);
        if signal.Raise? {
          return;
        }
        if answer.Some? && answer.value.Answered? {
          run.evidence := run.evidence + [G.ToEvidence(tools[i], answer.value)];
        }
      }
      Transition(run, G.Delegate, G.ToolCompleted(G.ResourceRead, true));
      signal := G.Next;
    }

    // --------------------------------------------------------------------------------------------
    // The nodes
    // --------------------------------------------------------------------------------------------

    method EndEarly(run: RunRecord, v: G.Verdict)
      modifies run
      ensures Look(run) == G.EndEarly(old(Look(run)), v)
    {
      run.verdict, run.status := Some(v), G.StatusCompleted;
      Emit(run, G.MessageDelta);
      Transition(run, G.Complete, G.RunCompleted(v));
    }

    method DoClassify(run: RunRecord) returns (signal: G.Signal)
      modifies run
      ensures G.Step(Look(run), signal) == G.DoClassify(env, old(Look(run)))
    {
      hide Budget.Pay;
      var stop := Pay(run, ModelCall, None);
      if stop.Some? {
        return G.Raise(stop.value);
      }
      match env.model(G.Answer(run.meter)) {
        case ModelRaised =>
          signal := G.Raise(Crashed);
        case Replied(needsClarification) =>
          Transition(run, G.Plan, G.MessageDelta);
          signal := G.Next;
          if needsClarification {
            EndEarly(run, G.Clarify);
            signal := G.Return;
          }
      }
    }

    method DoPlan(run: RunRecord) returns (signal: G.Signal)
      modifies run
      ensures G.Step(Look(run), signal) == G.DoPlan(env, old(Look(run)))
    {
      hide Budget.Pay;
      var stop := Pay(run, ModelCall, None);
      if stop.Some? {
        return G.Raise(stop.value);
      }
      if env.model(G.Answer(run.meter)).ModelRaised? {
        return G.Raise(Crashed);
      }
      Transition(run, G.Resources, G.MessageDelta);
      signal := G.Next;
    }

    // The delegation fell through: the failure is recorded and the run degraded.
    method FallBack(run: RunRecord)
      modifies run`fallback, breaker
      ensures Look(run) == G.FallBack(old(Look(run)))
    {
      breaker.RecordFailure(Breaker.A2a);
      run.fallback := true;
    }

    method Delegate(run: RunRecord) returns (signal: G.Signal, found: Option<seq<G.RawFinding>>)
      modifies run, breaker
      ensures (Look(run), signal, found) == G.CallSpecialist(env, old(Look(run)))
    {
      hide Budget.ClearAndPay, Breaker.Success, Breaker.Failure, G.ValidOutput;
      signal, found := G.Next, None;
      var isOpen := breaker.Guard(Breaker.A2a);
      if isOpen {
        run.fallback := true;
        return;
      }
      var stop := ClearAndPay(run, Budget.Delegation, None);
      if stop.Some? {
        return G.Raise(stop.value), None;
      }
      Emit(run, G.AgentDelegated);
      match env.agent(G.Answer(run.meter)) {
        case AgentCancelled =>
          signal := G.Raise(Cancelled);
        case NotADict =>
          signal := G.Raise(Crashed);
        case NotCompleted(errorIsDict) =>
          FallBack(run);
          if !errorIsDict {
            signal := G.Raise(Crashed);
          }
        case Completed(findings) =>
          if G.ValidOutput(findings) {
            breaker.RecordSuccess(Breaker.A2a);
            found := Some(findings);
          } else {
            FallBack(run);
          }
        case _ =>
          FallBack(run);
      }
    }

    method DoDelegate(run: RunRecord) returns (signal: G.Signal)
      modifies run, breaker
      ensures G.Step(Look(run), signal) == G.DoDelegate(env, old(Look(run)))
    {
      hide G.CallSpecialist;
      var found;
      signal, found := Delegate(run);
      if signal.Raise? {
        return;
      }
      run.specialist := found;
      CallSpecialistFrame(env, old(Look(run)));
      Transition(run, G.Correlate, G.MessageDelta);
    }

    // Checks the specialist's findings against the primary evidence, and weighs them.
    method Weigh(run: RunRecord)
      modifies run`conflict, run`specialist
      ensures Look(run) == G.Weighed(old(Look(run)))
    {
      hide G.CapAll, G.DiscountAll, G.Conflicting;
      var fs := run.specialist.GetOr([]);
      if G.Conflicting(Look(run), fs) {
        run.conflict := true;
        fs := Capped(fs);
      }
      if run.fallback {
        fs := Discounted(fs);
      }
      run.specialist := if run.specialist.Some? then Some(fs) else None;
    }

    method DoCorrelate(run: RunRecord) returns (signal: G.Signal)
      modifies run
      ensures G.Step(Look(run), signal) == G.DoCorrelate(old(Look(run)))
    {
      hide G.Weighed;
      Weigh(run);
      Save(run);
      run.node := G.Findings;
      Emit(run, G.MessageDelta);
      Save(run);
      signal := G.Next;
    }

    // Caps every finding where it stands in the list.
    static method Capped(fs: seq<G.RawFinding>) returns (capped: seq<G.RawFinding>)
      ensures capped == G.CapAll(fs)
    {
      capped := fs;
      for i := 0 to |fs|
        invariant |capped| == |fs|
        invariant forall k :: 0 <= k < i ==> capped[k] == fs[k].(confidence := G.MinReal(fs[k].confidence, 0.6))
        invariant forall k :: i <= k < |fs| ==> capped[k] == fs[k]
      {
        capped := capped[i := capped[i].(confidence := G.MinReal(capped[i].confidence, 0.6))];
      }
      forall k | 0 <= k < |fs|
        ensures capped[k] == G.CapAll(fs)[k]
      {
        CapAllAt(fs, k);
      }
    }

    static method Discounted(fs: seq<G.RawFinding>) returns (discounted: seq<G.RawFinding>)
      ensures discounted == G.DiscountAll(fs)
    {
      hide G.Round2;
      discounted := fs;
      for i := 0 to |fs|
        invariant |discounted| == |fs|
        invariant forall k :: 0 <= k < i ==> discounted[k] == fs[k].(confidence := G.Round2(fs[k].confidence - 0.15))
        invariant forall k :: i <= k < |fs| ==> discounted[k] == fs[k]
      {
        discounted := discounted[i := discounted[i].(confidence := G.Round2(discounted[i].confidence - 0.15))];
      }
      forall k | 0 <= k < |fs|
        ensures discounted[k] == G.DiscountAll(fs)[k]
      {
        DiscountAllAt(fs, k);
      }
    }

    method DoFindings(run: RunRecord) returns (signal: G.Signal)
      modifies run
      ensures G.Step(Look(run), signal) == G.DoFindings(env, old(Look(run)))
    {
      hide G.RawFindings, G.Normalised, G.NormaliseFrom, G.MaxConfidence, G.EmitFindings, G.EndEarly;
      var raw := G.RawFindings(env, Look(run));
      var findings := Kept(raw);
      run.findings := findings;
      EmitAll(run, findings);
      Save(run);
      if findings == [] || G.MaxConfidence(findings) < G.LOW_CONFIDENCE {
        EndEarly(run, G.MoreInfo);
        return G.Return;
      }
      run.node := G.Propose;
      Save(run);
      signal := G.Next;
    }

    // The findings that survive normalising, in order.
    static method Kept(raw: seq<G.RawFinding>) returns (findings: seq<G.Finding>)
      ensures findings == G.NormaliseFrom(raw, 0)
    {
      hide G.Normalised;
      findings := [];
      for i := 0 to |raw|
        invariant findings + G.NormaliseFrom(raw, i) == G.NormaliseFrom(raw, 0)
      {
        match G.Normalised(i, raw[i]) {
          case Some(f) => findings := findings + [f];
          case None =>
        }
      }
    }

    method EmitAll(run: RunRecord, findings: seq<G.Finding>)
      modifies run
      ensures Look(run) == G.EmitFindings(old(Look(run)), findings)
    {
      hide G.Emit;
      for i := 0 to |findings|
        invariant Look(run) == G.EmitFindings(old(Look(run)), findings[..i])
      {
        assert findings[..i + 1][..i] == findings[..i];
        Emit(run, G.FindingCreated(findings[i]));
      }
      assert findings[..|findings|] == findings;
    }

    method DoPropose(run: RunRecord) returns (signal: G.Signal)
      modifies run
      ensures G.Step(Look(run), signal) == G.DoPropose(env, old(Look(run)))
    {
      hide G.Top;
      if run.findings == [] || !env.argsOk(TicketCreate) {
        return G.Raise(Crashed);
      }
      var actions := [G.Action(TicketCreate, G.Top(run.findings).severity, false)];
      if G.MentionsDeployment(run.findings) {
        if !env.argsOk(Rollback) {
          return G.Raise(Crashed);
        }
        actions := actions + [G.Action(Rollback, G.Medium, true)];
      }
      run.actions := actions;
      Transition(run, G.Policy, G.MessageDelta);
      signal := G.Next;
    }

    // Asks the policy about every action; None if it raises.
    method Judge(run: RunRecord, actions: seq<G.Action>) returns (judged: Option<seq<(Tool, bool)>>)
      modifies run`meter
      ensures (run.meter, judged) == G.Judge(env, old(run.meter), actions)
    {
      var answers: seq<(Tool, bool)> := [];
      ghost var m0 := run.meter;
      PrecededByNothing(G.Judge(env, m0, actions));
      hide G.Judge, Preceded;
      assert actions[0..] == actions;
      for i := 0 to |actions|
        invariant G.Judge(env, m0, actions) == Preceded(answers, G.Judge(env, run.meter, actions[i..]))
      {
        JudgeOneMore(env, run.meter, answers, actions[i..]);
        assert actions[i..][1..] == actions[i + 1..];
        var verdict := env.policy(run.meter.tick);
        run.meter := run.meter.(tick := run.meter.tick + 1);
        if verdict.PolicyRaised? {
          return None;
        }
        answers := answers + [(actions[i].tool, verdict.allowed)];
      }
      NoneLeftToJudge(env, run.meter, answers);
      judged := Some(answers);
    }

    method DoPolicy(run: RunRecord) returns (signal: G.Signal)
      modifies run
      ensures G.Step(Look(run), signal) == G.DoPolicy(env, old(Look(run)))
    {
      hide G.Judge, G.EndEarly;
      var judged := Judge(run, run.actions);
      if judged.None? {
        return G.Raise(Crashed);
      }
      run.judged := judged.value;
      Save(run);
      if G.AnyDenied(judged.value) {
        EndEarly(run, G.DeniedByPolicy);
        return G.Return;
      }
      run.node := G.ApprovalPause;
      Save(run);
      signal := G.Next;
    }

    // One pending approval for every action.
    method RequestAll(run: RunRecord, actions: seq<G.Action>)
      modifies run`approvals
      ensures run.approvals == old(run.approvals) + G.Requests(actions)
    {
      for i := 0 to |actions|
        invariant run.approvals == old(run.approvals) + G.Requests(actions)[..i]
      {
        run.approvals := run.approvals + [G.Approval(actions[i].tool, G.Pending)];
      }
    }

    method DoApprovalPause(run: RunRecord) returns (signal: G.Signal)
      modifies run
      ensures G.Step(Look(run), signal) == G.DoApprovalPause(old(Look(run)))
    {
      signal := G.Return;
      if run.actions == [] {
        run.node := G.Verify;
        Save(run);
        return;
      }
      run.status := G.WaitingForApproval;
      RequestAll(run, run.actions);
      Emit(run, G.ApprovalRequired(run.actions));
      Save(run);
    }

    // Bills and invokes one approved action; whatever the invocation does, it is not tried again.
    method Invoke(run: RunRecord, t: Tool) returns (stop: Option<Why>)
      modifies run
      ensures var paid := Budget.ClearAndPay(env.world, run.limits, old(run.meter), ToolCall, Some(t));
              && stop == paid.stop
              && Look(run) == if stop.Some? then old(Look(run)).(meter := paid.meter)
                              else G.Executed(old(Look(run)), t, paid.meter, env.tool(G.Answer(paid.meter)).Answered?)
    {
      hide Budget.ClearAndPay;
      stop := ClearAndPay(run, ToolCall, Some(t));
      if stop.Some? {
        return;
      }
      Emit(run, G.ToolStarted(G.ActionOf(t)));
      Emit(run, G.ToolCompleted(G.ActionOf(t), env.tool(G.Answer(run.meter)).Answered?));
    }

    method DoExecute(run: RunRecord) returns (signal: G.Signal)
      modifies run
      ensures G.Step(Look(run), signal) == G.DoExecute(env, old(Look(run)))
    {
      hide Budget.ClearAndPay, G.ApprovedTools, G.Executed, CategoryOf;
      var approved := G.ApprovedTools(run.approvals);
      if run.actions != [] && approved == {} {
        return G.Raise(Crashed);
      }
      var actions := run.actions;
      for i := 0 to |actions|
        invariant G.ExecuteActions(env, old(Look(run)), actions, approved)
                  == G.ExecuteActions(env, Look(run), actions[i..], approved)
      {
        assert actions[i..][0] == actions[i] && actions[i..][1..] == actions[i + 1..];
        var t := actions[i].tool;
        if t in approved {
          if !env.argsOk(t) || CategoryOf(t) == Destructive {
            return G.Raise(Crashed);
          }
          var stop := Invoke(run, t);
          if stop.Some? {
            return G.Raise(stop.value);
          }
        }
      }
      run.node, run.status := G.Verify, G.Running;
      Save(run);
      signal := G.Next;
    }

    method DoVerify(run: RunRecord) returns (signal: G.Signal)
      modifies run, breaker
      ensures G.Step(Look(run), signal) == G.DoVerify(env, old(Look(run)))
    {
      hide G.McpRead;
      var answer;
      signal, answer := McpRead(run, GetHealth);
      McpReadFrame(env, old(Look(run)), GetHealth);
      if signal.Raise? {
        return;
      }
      Transition(run, G.Complete, G.MessageDelta);
    }

    method DoComplete(run: RunRecord) returns (signal: G.Signal)
      modifies run
      ensures G.Step(Look(run), signal) == G.DoComplete(old(Look(run)))
    {
      run.verdict, run.status := Some(run.verdict.GetOr(G.Done)), G.StatusCompleted;
      Emit(run, G.RunCompleted(run.verdict.value));
      Save(run);
      signal := G.Return;
    }

    // --------------------------------------------------------------------------------------------
    // The driver
    // --------------------------------------------------------------------------------------------

    method Guard(run: RunRecord) returns (signal: G.Signal)
      modifies run`meter
      ensures G.Step(Look(run), signal) == G.Guard(env, old(Look(run)))
    {
      hide Budget.CheckCancel, Budget.CheckBudgets;
      var cancelled := CheckCancel(run);
      if cancelled {
        return G.Raise(Cancelled);
      }
      var over := CheckBudgets(run);
      if over.Some? {
        return G.Raise(OverBudget(over.value));
      }
      signal := G.Next;
    }

    method Dispatch(run: RunRecord) returns (signal: G.Signal)
      modifies run, breaker
      ensures G.Step(Look(run), signal) == G.Dispatch(env, old(Look(run)))
    {
      hide G.DoClassify, G.DoPlan, G.DoResources, G.DoMcpReads, G.DoDelegate, G.DoCorrelate, G.DoFindings, G.DoPropose,
           G.DoPolicy, G.DoApprovalPause, G.DoExecute, G.DoVerify, G.DoComplete;
      match run.node {
        case Classify => signal := DoClassify(run);
        case Plan => signal := DoPlan(run);
        case Resources => signal := DoResources(run);
        case McpReads => signal := DoMcpReads(run);
        case Delegate => signal := DoDelegate(run);
        case Correlate => signal := DoCorrelate(run);
        case Findings => signal := DoFindings(run);
        case Propose => signal := DoPropose(run);
        case Policy => signal := DoPolicy(run);
        case ApprovalPause => signal := DoApprovalPause(run);
        case ExecuteApproved => signal := DoExecute(run);
        case Verify => signal := DoVerify(run);
        case Complete => signal := DoComplete(run);
      }
    }

    method DoResources(run: RunRecord) returns (signal: G.Signal)
      modifies run
      ensures G.Step(Look(run), signal) == G.DoResources(old(Look(run)))
    {
      Transition(run, G.McpReads, G.ToolStarted(G.ResourceRead));
      signal := G.Next;
    }

    // The except clauses.
    method Close(run: RunRecord, why: Why)
      modifies run
      ensures Look(run) == G.Close(old(Look(run)), why)
    {
      match why {
        case Cancelled =>
          run.status, run.verdict := G.StatusCancelled, Some(G.RunCancelledOutcome);
          Emit(run, G.RunCancelled);
          Save(run);
        case OverBudget(b) =>
          CloseFailed(run, G.BudgetExceeded(b));
        case Crashed =>
          CloseFailed(run, G.InternalError);
      }
    }

    method CloseFailed(run: RunRecord, e: G.ErrorCode)
      modifies run
      ensures Look(run) == G.CloseFailed(old(Look(run)), e)
    {
      run.status, run.verdict, run.error := G.Failed, Some(G.RunFailedOutcome), Some(e);
      Emit(run, G.RunFailed(e));
      Save(run);
    }

    /** Executes until terminal or paused. */
    method Run(run: RunRecord)
      modifies run, breaker
      ensures Look(run) == G.Run(env, old(Look(run)))
    {
      hide G.Guard, G.Dispatch, G.Close;
      if run.status == G.Created {
        run.status := G.Running;
        Transition(run, G.Classify, G.RunStarted);
      }
      var signal := G.Next;
      while signal == G.Next
        invariant G.Run(env, old(Look(run)))
                  == match signal
                     case Next => G.Drive(env, Look(run))
                     case Return => Look(run)
                     case Raise(why) => G.Close(Look(run), why)
        decreases if signal == G.Next then 1 else 0, 12 - G.Rank(run.node)
      {
        ghost var s := Look(run);
        TurnClimbs(env, s);
        signal := Guard(run);
        GuardOnlyChecks(env, s);
        if signal == G.Next {
          signal := Dispatch(run);
        }
      }
      if signal.Raise? {
        Close(run, signal.why);
      }
    }

    /** Resumes a paused run after a decision; false when the run is not paused or the decision is none. */
    method ResumeAfterApproval(run: RunRecord, d: G.Decision) returns (resumed: bool)
      modifies run, breaker
      ensures resumed == G.Resume(env, old(Look(run)), d).Some?
      ensures Look(run) == G.Resume(env, old(Look(run)), d).GetOr(old(Look(run)))
    {
      hide G.Run, G.Decide, G.Emit, G.Transition;
      if run.node != G.ApprovalPause || run.status != G.WaitingForApproval || d == G.Pending {
        return false;
      }
      DecideAll(run, d);
      if d == G.Approved {
        Emit(run, G.ApprovalReceived(d));
        Save(run);
        run.node := G.ExecuteApproved;
        Run(run);
      } else {
        EndRejected(run, d);
      }
      resumed := true;
    }

    // Complete with rejection, never execute.
    method EndRejected(run: RunRecord, d: G.Decision)
      modifies run
      ensures var told := G.Emit(old(Look(run)), G.ApprovalReceived(d));
              Look(run) == G.Transition(told.(verdict := Some(G.Rejected), status := G.StatusCompleted), G.Complete,
                                        G.RunCompleted(G.Rejected))
    {
      run.verdict, run.status := Some(G.Rejected), G.StatusCompleted;
      Emit(run, G.ApprovalReceived(d));
      Transition(run, G.Complete, G.RunCompleted(G.Rejected));
    }

    method DecideAll(run: RunRecord, d: G.Decision)
      modifies run`approvals
      ensures Look(run) == old(Look(run)).(approvals := G.Decide(old(run.approvals), d))
    {
      ghost var before := run.approvals;
      var n := |run.approvals|;
      for i := 0 to n
        invariant Look(run) == old(Look(run)).(approvals := run.approvals) && |run.approvals| == n
        invariant forall k :: 0 <= k < i ==> run.approvals[k] == before[k].(decision := d)
        invariant forall k :: i <= k < n ==> run.approvals[k] == before[k]
      {
        run.approvals := run.approvals[i := run.approvals[i].(decision := d)];
      }
      assert run.approvals == G.Decide(before, d);
    }
  }

  lemma GuardOnlyChecks(env: G.Env, s: G.RunState)
    ensures G.Guard(env, s).signal != G.Return && G.Guard(env, s).state.node == s.node
  {
  }

  lemma {:induction false} CapAllAt(fs: seq<G.RawFinding>, k: nat)
    requires k < |fs|
    ensures G.CapAll(fs)[k] == fs[k].(confidence := G.MinReal(fs[k].confidence, 0.6))
  {
    if k > 0 { CapAllAt(fs[1..], k - 1); }
  }

  lemma {:induction false} DiscountAllAt(fs: seq<G.RawFinding>, k: nat)
    requires k < |fs|
    ensures G.DiscountAll(fs)[k] == fs[k].(confidence := G.Round2(fs[k].confidence - 0.15))
  {
    hide G.Round2;
    if k > 0 { DiscountAllAt(fs[1..], k - 1); }
  }

  lemma PrecededByNothing(rest: (Meter, Option<seq<(Tool, bool)>>))
    ensures Preceded([], rest) == rest
  {
    assert rest.1.Some? ==> [] + rest.1.value == rest.1.value;
  }

  // One more answer of the policy, or none.
  lemma JudgeOneMore(env: G.Env, m: Meter, answers: seq<(Tool, bool)>, actions: seq<G.Action>)
    requires actions != []
    ensures var verdict, m' := env.policy(m.tick), m.(tick := m.tick + 1);
            Preceded(answers, G.Judge(env, m, actions))
            == if verdict.PolicyRaised? then (m', None)
               else Preceded(answers + [(actions[0].tool, verdict.allowed)], G.Judge(env, m', actions[1..]))
  {
    var verdict, rest := env.policy(m.tick), G.Judge(env, m.(tick := m.tick + 1), actions[1..]);
    if verdict.Judged? && rest.1.Some? {
      assert answers + ([(actions[0].tool, verdict.allowed)] + rest.1.value)
             == answers + [(actions[0].tool, verdict.allowed)] + rest.1.value;
    }
  }

  lemma NoneLeftToJudge(env: G.Env, m: Meter, answers: seq<(Tool, bool)>)
    ensures Preceded(answers, G.Judge(env, m, [])) == (m, Some(answers))
  {
    assert answers + [] == answers;
  }

  // What judging the rest gives once the first answers are put before it.
  function Preceded(answers: seq<(Tool, bool)>, rest: (Meter, Option<seq<(Tool, bool)>>))
    : (Meter, Option<seq<(Tool, bool)>>)
  {
    (rest.0, if rest.1.Some? then Some(answers + rest.1.value) else None)
  }
}
