/** Exactly what each call invokes, and exactly when a run invokes an action twice, for every clock and
    canceller. */
module GraphRepeats {
  import opened Wrappers
  import opened Catalog
  import opened Budget
  import opened Graph
  import opened GraphShape
  import opened GraphActions
  import Breaker

  // --------------------------------------------------------------------------------------------
  // What a run invokes
  // --------------------------------------------------------------------------------------------

  lemma {:induction false} NoActsPastExecution(env: Env, s: RunState)
    requires Rank(s.node) >= 11
    ensures Acted(Drive(env, s).meter.calls) == Acted(s.meter.calls)
    decreases 12 - Rank(s.node)
  {
    hide Guard, Dispatch, Acted, Close;
    GuardFrame(env, s);
    GuardCalls(env, s);
    OtherNodesActNot(env, Guard(env, s).state);
    TurnClimbs(env, s);
    var r := Turn(env, s);
    if r.signal == Next {
      NoActsPastExecution(env, r.state);
    } else if r.signal.Raise? {
      CloseFrame(r.state, r.signal.why);
    }
  }

  // The wanted actions that the ledger and the cancel checks let through, one after the other.
  function Passing(w: World, lim: Limits, m: Meter, wanted: seq<Tool>): (r: seq<Tool>)
    ensures r <= wanted
    decreases |wanted|
  {
    if wanted == [] then []
    else
      var paid := ClearAndPay(w, lim, m, ToolCall, Some(wanted[0]));
      if paid.stop.Some? then [] else [wanted[0]] + Passing(w, lim, paid.meter, wanted[1..])
  }

  // What a run sent off at the execution gets to: nothing if the driver's checks stop it.
  function LetThrough(env: Env, s: RunState): (r: seq<Tool>)
    ensures r <= WantedOf(s)
  {
    var g := Guard(env, s);
    if g.signal == Next then Passing(env.world, s.limits, g.state.meter, WantedOf(s)) else []
  }

  lemma PassingStep(w: World, lim: Limits, m: Meter, t: Tool, rest: seq<Tool>)
    ensures var paid := ClearAndPay(w, lim, m, ToolCall, Some(t));
            Passing(w, lim, m, [t] + rest) == if paid.stop.Some? then [] else [t] + Passing(w, lim, paid.meter, rest)
  {
    hide ClearAndPay;
    assert ([t] + rest)[1..] == rest;
  }

  lemma WantedStep(actions: seq<Action>, approved: set<Tool>)
    requires actions != []
    ensures var t, rest := actions[0].tool, Wanted(actions[1..], approved);
            Wanted(actions, approved) == if t in approved then [t] + rest else rest
  {
  }

  lemma ExecuteStepActs(env: Env, s: RunState, actions: seq<Action>, approved: set<Tool>)
    requires actions != [] && actions[0].tool in approved && env.argsOk(actions[0].tool) && IsWriteTool(actions[0].tool)
    ensures var t := actions[0].tool;
            var paid := ClearAndPay(env.world, s.limits, s.meter, ToolCall, Some(t));
            var s' := Executed(s, t, paid.meter, env.tool(Answer(paid.meter)).Answered?);
            var r := ExecuteActions(env, s, actions, approved);
            && (paid.stop.Some? ==> Acted(r.state.meter.calls) == Acted(s.meter.calls))
            && (paid.stop.None? ==> r == ExecuteActions(env, s', actions[1..], approved)
                                    && s'.meter == paid.meter && s'.limits == s.limits
                                    && Acted(s'.meter.calls) == Acted(s.meter.calls) + [t])
  {
    hide ClearAndPay, Acted, Executed;
    var t := actions[0].tool;
    ClearAndPayActs(env.world, s.limits, s.meter, ToolCall, Some(t));
    var paid := ClearAndPay(env.world, s.limits, s.meter, ToolCall, Some(t));
    ExecutedFrame(s, t, paid.meter, env.tool(Answer(paid.meter)).Answered?);
  }

  lemma {:induction false} ExecutePassing(env: Env, s: RunState, actions: seq<Action>, approved: set<Tool>)
    requires forall t :: t in Wanted(actions, approved) ==> env.argsOk(t) && IsWriteTool(t)
    ensures Acted(ExecuteActions(env, s, actions, approved).state.meter.calls)
            == Acted(s.meter.calls) + Passing(env.world, s.limits, s.meter, Wanted(actions, approved))
    decreases |actions|
  {
    hide ClearAndPay, Acted, Executed, Passing, Wanted, IsWriteTool;
    if actions == [] {
      NoneWanted(approved);
      NothingPasses(env.world, s.limits, s.meter);
    } else {
      var t, rest := actions[0].tool, Wanted(actions[1..], approved);
      WantedStep(actions, approved);
      if t !in approved {
        ExecutePassing(env, s, actions[1..], approved);
      } else {
        PassingStep(env.world, s.limits, s.meter, t, rest);
        hide ExecuteActions;
        ExecuteStepActs(env, s, actions, approved);
        var paid := ClearAndPay(env.world, s.limits, s.meter, ToolCall, Some(t));
        if paid.stop.None? {
          ExecutePassing(env, Executed(s, t, paid.meter, env.tool(Answer(paid.meter)).Answered?), actions[1..],
                         approved);
          Regroup(Acted(s.meter.calls), t, Passing(env.world, s.limits, paid.meter, rest));
        }
      }
    }
  }

  lemma Regroup(front: seq<Tool>, t: Tool, rest: seq<Tool>)
    ensures front + [t] + rest == front + ([t] + rest)
  {
  }

  lemma NoneWanted(approved: set<Tool>)
    ensures Wanted([], approved) == []
  {
  }

  lemma WantedArePermitted(env: Env, s: RunState)
    requires Shape(env, s)
    ensures forall t :: t in WantedOf(s) ==> env.argsOk(t) && IsWriteTool(t)
  {
    hide Wanted, ApprovedTools, Grounded, MaxConfidence, MentionsDeployment;
    WantedAreApproved(s.actions, ApprovedTools(s.approvals));
  }

  lemma ExecuteNodePassing(env: Env, s: RunState)
    requires Shape(env, s)
    ensures Acted(DoExecute(env, s).state.meter.calls)
            == Acted(s.meter.calls) + Passing(env.world, s.limits, s.meter, WantedOf(s))
    ensures DoExecute(env, s).signal != Return
  {
    hide Acted, ApprovedTools, Wanted, Passing, Shape, ExecuteActions;
    var approved := ApprovedTools(s.approvals);
    WantedArePermitted(env, s);
    ExecutePassing(env, s, s.actions, approved);
    ExecuteFrame(env, s, s.actions, approved);
    WantedAreApproved(s.actions, approved);
    NoneAllowed(Wanted(s.actions, approved), approved);
    NothingPasses(env.world, s.limits, s.meter);
  }

  lemma NothingPasses(w: World, lim: Limits, m: Meter)
    ensures Passing(w, lim, m, []) == []
  {
  }

  lemma ExecutionInvokes(env: Env, s: RunState)
    requires Shape(env, s) && s.node == ExecuteApproved
    ensures Acted(Drive(env, s).meter.calls) == Acted(s.meter.calls) + LetThrough(env, s)
  {
    hide Guard, Acted, Wanted, ApprovedTools, Passing, Shape, Close, DoExecute, Dispatch;
    var g := Guard(env, s);
    GuardFrame(env, s);
    GuardCalls(env, s);
    GuardSays(env, s);
    TurnClimbs(env, s);
    MeterAside(env, s, g.state.meter);
    var r := Turn(env, s);
    if g.signal == Next {
      ExecuteIsDispatched(env, g.state);
      ExecuteNodePassing(env, g.state);
    }
    if r.signal == Next {
      NoActsPastExecution(env, r.state);
    } else if r.signal.Raise? {
      CloseFrame(r.state, r.signal.why);
    }
  }

  lemma GuardSays(env: Env, s: RunState)
    ensures Guard(env, s).signal != Return
  {
  }

  // On its way to the gate a run invokes nothing, and it does not pass it.
  lemma {:induction false} NoActsBeforeTheGate(env: Env, s: RunState)
    requires Shape(env, s) && s.status != Created && Rank(s.node) <= 9
    ensures Acted(Drive(env, s).meter.calls) == Acted(s.meter.calls)
    decreases 12 - Rank(s.node)
  {
    hide Guard, Dispatch, Acted, Close, Shape;
    var g := Guard(env, s);
    GuardFrame(env, s);
    GuardCalls(env, s);
    MeterAside(env, s, g.state.meter);
    OtherNodesActNot(env, g.state);
    TurnKeepsShape(env, s);
    TurnClimbs(env, s);
    var r := Turn(env, s);
    if r.signal == Next {
      if s.node == ApprovalPause { PauseAwaits(env, g.state); }
      NoActsBeforeTheGate(env, r.state);
    } else if r.signal.Raise? {
      CloseFrame(r.state, r.signal.why);
    }
  }

  // What a call of `run` invokes: what it is let through if it sets out at the execution, else nothing.
  function Invokes(env: Env, s: RunState): seq<Tool> {
    if s.node == ExecuteApproved then LetThrough(env, s) else []
  }

  /** Exactly what a call of `run` invokes, from every state. */
  lemma RunInvokes(env: Env, s: RunState)
    requires Shape(env, s)
    ensures Acted(Run(env, s).meter.calls) == Acted(s.meter.calls) + Invokes(env, s)
  {
    hide Drive, Acted, LetThrough, Grounded, Breaker.Consistent, ProposedFrom;
    var s0 := if s.status == Created then Transition(s.(status := Running), Classify, RunStarted) else s;
    if s.status == Created { BegunKeepsShape(env, s); }
    if s0.node == ExecuteApproved {
      ExecutionInvokes(env, s0);
    } else if Rank(s0.node) <= 9 {
      NoActsBeforeTheGate(env, s0);
    } else {
      NoActsPastExecution(env, s0);
    }
  }

  // --------------------------------------------------------------------------------------------
  // Invoking twice
  // --------------------------------------------------------------------------------------------

  // The run is called again where it stopped among its actions, and something is let through.
  predicate Repeats(env: Env, s: RunState, op: Op) {
    op.DoRun? && s.node == ExecuteApproved && Acted(s.meter.calls) != [] && LetThrough(env, s) != []
  }

  ghost predicate EverRepeats(env: Env, limits: Limits, ops: seq<Op>) {
    exists n: nat :: n < |ops| && Repeats(env, After(env, limits, ops[..n]), ops[n])
  }

  lemma LastRepeats(env: Env, limits: Limits, ops: seq<Op>)
    requires ops != []
    ensures var front := ops[..|ops| - 1];
            EverRepeats(env, limits, ops)
            <==> EverRepeats(env, limits, front) || Repeats(env, After(env, limits, front), ops[|ops| - 1])
  {
    hide Repeats, After;
    var front, last := ops[..|ops| - 1], |ops| - 1;
    forall n: nat | n < |front|
      ensures front[..n] == ops[..n] && front[n] == ops[n]
    {
    }
    if EverRepeats(env, limits, ops) {
      var n: nat :| n < |ops| && Repeats(env, After(env, limits, ops[..n]), ops[n]);
      assert n < last ==> Repeats(env, After(env, limits, front[..n]), front[n]);
    }
    if EverRepeats(env, limits, front) {
      var n: nat :| n < |front| && Repeats(env, After(env, limits, front[..n]), front[n]);
      assert Repeats(env, After(env, limits, ops[..n]), ops[n]);
    }
    if Repeats(env, After(env, limits, front), ops[last]) {
      assert Repeats(env, After(env, limits, ops[..last]), ops[last]);
    }
  }

  lemma DriveKeepsWanted(env: Env, s: RunState)
    requires Rank(s.node) > Rank(Propose)
    ensures WantedOf(Drive(env, s)) == WantedOf(s)
  {
    hide Drive, Wanted, ApprovedTools;
    DriveKeepsActions(env, s);
    DriveApprovesNothing(env, s);
  }

  // The actions invoked are the first of those wanted, each once; or some action was invoked twice.
  predicate Once(s: RunState) { Acted(s.meter.calls) <= WantedOf(s) }

  predicate Twice(s: RunState) { !Distinct(Acted(s.meter.calls)) }

  lemma OnceIsNotTwice(env: Env, s: RunState)
    requires Shape(env, s) && Once(s)
    ensures !Twice(s)
  {
    hide Wanted, ApprovedTools, Acted, Shape;
    ProposalsAreDistinct(env, s);
  }

  lemma MoreStaysTwice(before: seq<Tool>, more: seq<Tool>)
    requires !Distinct(before)
    ensures !Distinct(before + more)
  {
    var i, j :| 0 <= i < j < |before| && before[i] == before[j];
    assert (before + more)[i] == (before + more)[j];
  }

  // A second set of first actions repeats the very first.
  lemma FirstIsRepeated(before: seq<Tool>, more: seq<Tool>, wanted: seq<Tool>)
    requires before <= wanted && more <= wanted && before != [] && more != []
    ensures !Distinct(before + more)
  {
    assert (before + more)[0] == (before + more)[|before|];
  }

  lemma RunTells(env: Env, s: RunState)
    requires Shape(env, s) && Held(s)
    ensures Twice(s) ==> Twice(Run(env, s))
    ensures Once(s) ==> if Repeats(env, s, DoRun) then Twice(Run(env, s)) else Once(Run(env, s))
  {
    hide Drive, Acted, Wanted, ApprovedTools, LetThrough, Grounded, Breaker.Consistent, ProposedFrom, Distinct;
    RunInvokes(env, s);
    var before, more := Acted(s.meter.calls), Invokes(env, s);
    assert more == [] ==> before + more == before;
    if Twice(s) { MoreStaysTwice(before, more); }
    if Rank(s.node) > 9 { DriveKeepsWanted(env, s); }
    if Once(s) && Repeats(env, s, DoRun) { FirstIsRepeated(before, more, WantedOf(s)); }
    if before == [] { assert before + more == more; }
  }

  lemma ReleasedTells(env: Env, s: RunState)
    requires Shape(env, s) && Held(s) && AwaitsApproval(s)
    ensures Once(Run(env, Released(s)))
  {
    ReleasedIsHeld(s);
    hide Run, Acted, Wanted, ApprovedTools, Decide, Breaker.Consistent, ProposedFrom, MaxConfidence, AllWellFormed;
    RunTells(env, Released(s));
  }

  lemma OpTells(env: Env, s: RunState, op: Op)
    requires Shape(env, s) && Held(s)
    ensures Twice(s) ==> Twice(ApplyOp(env, s, op))
    ensures Once(s) ==> if Repeats(env, s, op) then Twice(ApplyOp(env, s, op)) else Once(ApplyOp(env, s, op))
  {
    hide Run, Acted, Wanted, ApprovedTools, Decide, LetThrough, Shape, Distinct;
    match op
    case DoRun => RunTells(env, s);
    case NewGraph =>
    case DoResume(d) =>
      if AwaitsApproval(s) && d == Approved {
        ReleasedTells(env, s);
        assert Acted(s.meter.calls) == [];
        NoneTwice();
      }
  }

  lemma NoneTwice()
    ensures Distinct([])
  {
  }

  lemma {:induction false} HistoryTells(env: Env, limits: Limits, ops: seq<Op>)
    ensures var s := After(env, limits, ops); if EverRepeats(env, limits, ops) then Twice(s) else Once(s)
  {
    if ops == [] {
      assert After(env, limits, ops) == NewRun(limits);
    } else {
      hide Shape, Held, ApplyOp, EverRepeats, Repeats, Once, Twice;
      var front := ops[..|ops| - 1];
      ReachableShape(env, limits, front);
      ReachableHeld(env, limits, front);
      HistoryTells(env, limits, front);
      LastRepeats(env, limits, ops);
      OpTells(env, After(env, limits, front), ops[|ops| - 1]);
    }
  }

  /** Exactly when a run invokes an action twice, over every history and for every clock and canceller: if and
      only if it was once called again where it had stopped among its actions, and the driver's checks
      and the ledger, which had stopped it there, then let something through. */
  lemma TwiceIffRepeated(env: Env, limits: Limits, ops: seq<Op>)
    ensures !Distinct(Acted(After(env, limits, ops).meter.calls)) <==> EverRepeats(env, limits, ops)
  {
    hide Shape, EverRepeats;
    HistoryTells(env, limits, ops);
    ReachableShape(env, limits, ops);
    if !EverRepeats(env, limits, ops) { OnceIsNotTwice(env, After(env, limits, ops)); }
  }
}
