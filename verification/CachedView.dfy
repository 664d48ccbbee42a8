/** The two views of a run that the API can serve (apps/api/routes/runs.py): the cached state, and the one
    rebuilt from the persisted events when there is no cached state. */
module CachedView {
  import opened Wrappers
  import opened Catalog
  import opened Text
  import opened Budget
  import opened Graph
  import opened GraphLedger
  import opened GraphShape
  import opened GraphActions
  import opened GraphTrace
  import Breaker

  // --------------------------------------------------------------------------------------------
  // Rebuilding from events
  // --------------------------------------------------------------------------------------------

  function FindingsOf(events: seq<Event>): seq<Finding> {
    if events == [] then []
    else
      var front, last := events[..|events| - 1], events[|events| - 1];
      if last.FindingCreated? then FindingsOf(front) + [last.finding] else FindingsOf(front)
  }

  function ProposedOf(events: seq<Event>): seq<Action> {
    if events == [] then []
    else
      var front, last := events[..|events| - 1], events[|events| - 1];
      if last.ApprovalRequired? then ProposedOf(front) + last.actions else ProposedOf(front)
  }

  method FindingsFromEvents(events: seq<Event>) returns (findings: seq<Finding>, proposed: seq<Action>)
    ensures findings == FindingsOf(events) && proposed == ProposedOf(events)
  {
    findings, proposed := [], [];
    for i := 0 to |events|
      invariant findings == FindingsOf(events[..i]) && proposed == ProposedOf(events[..i])
    {
      assert events[..i + 1][..i] == events[..i];
      match events[i]
      case FindingCreated(f) => findings := findings + [f];
      case ApprovalRequired(actions) => proposed := proposed + actions;
      case _ =>
    }
    assert events[..|events|] == events;
  }

  function EventsOf(log: seq<Stamped>): (r: seq<Event>)
    ensures |r| == |log|
  {
    if log == [] then [] else EventsOf(log[..|log| - 1]) + [log[|log| - 1].event]
  }

  // What was asked for at each visit of the approval gate.
  function AskedOf(events: seq<Event>): seq<seq<Action>> {
    if events == [] then []
    else
      var front, last := events[..|events| - 1], events[|events| - 1];
      if last.ApprovalRequired? then AskedOf(front) + [last.actions] else AskedOf(front)
  }

  // Times the run came to the approval gate.
  function Gates(events: seq<Event>): nat { |AskedOf(events)| }

  function Repeat(actions: seq<Action>, n: nat): seq<Action> {
    if n == 0 then [] else Repeat(actions, n - 1) + actions
  }

  // --------------------------------------------------------------------------------------------
  // What the steps add to the view
  // --------------------------------------------------------------------------------------------

  ghost predicate AddsNothing(s: RunState, s': RunState) {
    && FindingsOf(EventsOf(s'.log)) == FindingsOf(EventsOf(s.log))
    && AskedOf(EventsOf(s'.log)) == AskedOf(EventsOf(s.log))
  }

  lemma Adds(s: RunState, s': RunState, e: Event)
    requires s'.log == Emit(s, e).log
    ensures var before, after := EventsOf(s.log), EventsOf(s'.log);
            && FindingsOf(after) == (if e.FindingCreated? then FindingsOf(before) + [e.finding] else FindingsOf(before))
            && AskedOf(after) == (if e.ApprovalRequired? then AskedOf(before) + [e.actions] else AskedOf(before))
    ensures !e.FindingCreated? && !e.ApprovalRequired? ==> AddsNothing(s, s')
  {
    assert s'.log[..|s'.log| - 1] == s.log;
    var after := EventsOf(s'.log);
    assert after == EventsOf(s.log) + [e];
    assert after[..|after| - 1] == EventsOf(s.log);
  }

  lemma McpReadAdds(env: Env, s: RunState, t: Tool)
    ensures AddsNothing(s, McpRead(env, s, t).state)
  {
    hide ReadAttempts, FindingsOf, AskedOf, EventsOf;
    var r := McpRead(env, s, t);
    var started := Emit(s, ToolStarted(ReadOf(t)));
    Adds(s, started, ToolStarted(ReadOf(t)));
    var ok := ReadAttempts(env, s.limits, s.meter, 0).answer.Some?;
    Adds(started, Emit(started, ToolCompleted(ReadOf(t), ok)), ToolCompleted(ReadOf(t), ok));
  }

  lemma {:induction false} ReadAllAdds(env: Env, s: RunState, tools: seq<Tool>)
    ensures AddsNothing(s, ReadAll(env, s, tools).state)
    decreases |tools|
  {
    hide McpRead, FindingsOf, AskedOf, EventsOf;
    if tools != [] {
      McpReadAdds(env, s, tools[0]);
      McpReadFrame(env, s, tools[0]);
      if !McpRead(env, s, tools[0]).signal.Raise? {
        ReadAllAdds(env, AfterRead(env, s, tools[0]), tools[1..]);
      }
    }
  }

  lemma CallSpecialistAdds(env: Env, s: RunState)
    ensures AddsNothing(s, CallSpecialist(env, s).0)
  {
    hide CallSpecialist, FindingsOf, AskedOf, EventsOf;
    CallSpecialistEmits(env, s);
    Adds(s, Emit(s, AgentDelegated), AgentDelegated);
  }

  lemma {:induction false} ExecuteAdds(env: Env, s: RunState, actions: seq<Action>, approved: set<Tool>)
    ensures AddsNothing(s, ExecuteActions(env, s, actions, approved).state)
    decreases |actions|
  {
    hide ClearAndPay, FindingsOf, AskedOf, EventsOf;
    if actions != [] {
      var t := actions[0].tool;
      var paid := ClearAndPay(env.world, s.limits, s.meter, ToolCall, Some(t));
      if t !in approved {
        ExecuteAdds(env, s, actions[1..], approved);
      } else if paid.stop.None? {
        var ok := env.tool(Answer(paid.meter)).Answered?;
        var started := Emit(s, ToolStarted(ActionOf(t)));
        Adds(s, started, ToolStarted(ActionOf(t)));
        Adds(started, Executed(s, t, paid.meter, ok), ToolCompleted(ActionOf(t), ok));
        ExecuteAdds(env, Executed(s, t, paid.meter, ok), actions[1..], approved);
      }
    }
  }

  lemma EndEarlyAdds(s: RunState, v: Verdict)
    ensures AddsNothing(s, EndEarly(s, v))
  {
    hide FindingsOf, AskedOf, EventsOf;
    var told := Emit(s.(verdict := Some(v), status := StatusCompleted), MessageDelta);
    Adds(s, told, MessageDelta);
    Adds(told, EndEarly(s, v), RunCompleted(v));
  }

  lemma {:induction false} EmitFindingsAdds(s: RunState, fs: seq<Finding>)
    ensures var s' := EmitFindings(s, fs);
            && FindingsOf(EventsOf(s'.log)) == FindingsOf(EventsOf(s.log)) + fs
            && AskedOf(EventsOf(s'.log)) == AskedOf(EventsOf(s.log))
  {
    hide FindingsOf, AskedOf, EventsOf;
    if fs != [] {
      var front := EmitFindings(s, fs[..|fs| - 1]);
      EmitFindingsAdds(s, fs[..|fs| - 1]);
      Adds(front, EmitFindings(s, fs), FindingCreated(fs[|fs| - 1]));
      assert fs == fs[..|fs| - 1] + [fs[|fs| - 1]];
    }
  }

  // The invariant: the log carries the findings once, and at every visit of the gate the proposals.
  ghost predicate Mirrors(s: RunState) {
    && FindingsOf(EventsOf(s.log)) == s.findings
    && (forall asked :: asked in AskedOf(EventsOf(s.log)) ==> asked == s.actions)
    && (Rank(s.node) <= 8 ==> Gates(EventsOf(s.log)) == 0)
  }

  lemma FindingsMirror(env: Env, s: RunState)
    requires Mirrors(s) && Shape(env, s) && s.node == Findings
    ensures Mirrors(DoFindings(env, s).state) && Gates(EventsOf(DoFindings(env, s).state.log)) == Gates(EventsOf(s.log))
  {
    hide NormaliseFrom, RawFindings, EmitFindings, MaxConfidence, FindingsOf, AskedOf, EventsOf,
         Breaker.Consistent, ProposedFrom, AllWellFormed;
    var findings := NormaliseFrom(RawFindings(env, s), 0);
    EmitFindingsOnlyLogs(s.(findings := findings), findings);
    EmitFindingsAdds(s.(findings := findings), findings);
    assert [] + findings == findings;
    EndEarlyAdds(Save(EmitFindings(s.(findings := findings), findings)), MoreInfo);
  }

  lemma AskingAddsNothing(env: Env, s: RunState)
    ensures s.node == Classify ==> AddsNothing(s, DoClassify(env, s).state)
    ensures s.node == Plan ==> AddsNothing(s, DoPlan(env, s).state)
  {
    hide AskModel, FindingsOf, AskedOf, EventsOf, EndEarly;
    AskModelFrame(env, s);
    var planned := Transition(AskModel(env, s).0, Plan, MessageDelta);
    Adds(s, planned, MessageDelta);
    Adds(s, Transition(AskModel(env, s).0, Resources, MessageDelta), MessageDelta);
    EndEarlyAdds(planned, Clarify);
  }

  lemma WeighingAddsNothing(env: Env, s: RunState)
    ensures s.node == Correlate ==> AddsNothing(s, DoCorrelate(s).state)
    ensures s.node == Propose ==> AddsNothing(s, DoPropose(env, s).state)
    ensures s.node == Policy ==> AddsNothing(s, DoPolicy(env, s).state)
  {
    hide FindingsOf, AskedOf, EventsOf, EndEarly, Judge, AnyDenied, Conflicting, CapAll, DiscountAll, Top,
         MentionsDeployment;
    Adds(s, Emit(s, MessageDelta), MessageDelta);
    var (m, judged) := Judge(env, s.meter, s.actions);
    if judged.Some? { EndEarlyAdds(Save(s.(meter := m, judged := judged.value)), DeniedByPolicy); }
  }

  lemma OtherNodesAddNothing(env: Env, s: RunState)
    requires s.node != Findings && s.node != ApprovalPause
    ensures AddsNothing(s, Dispatch(env, s).state)
  {
    hide FindingsOf, AskedOf, EventsOf, DoClassify, DoPlan, DoCorrelate, DoPropose, DoPolicy, ReadAll,
         McpRead, CallSpecialist, ExecuteActions, ApprovedTools;
    match s.node
    case Classify => AskingAddsNothing(env, s);
    case Plan => AskingAddsNothing(env, s);
    case Resources => Adds(s, DoResources(s).state, ToolStarted(ResourceRead));
    case McpReads =>
      ReadAllAdds(env, s, READS);
      var r := ReadAll(env, s, READS);
      Adds(r.state, Emit(r.state, ToolCompleted(ResourceRead, true)), ToolCompleted(ResourceRead, true));
    case Delegate =>
      CallSpecialistAdds(env, s);
      var s' := CallSpecialist(env, s).0;
      Adds(s', Emit(s', MessageDelta), MessageDelta);
    case ExecuteApproved => ExecuteAdds(env, s, s.actions, ApprovedTools(s.approvals));
    case Verify =>
      McpReadAdds(env, s, GetHealth);
      var s' := McpRead(env, s, GetHealth).state;
      Adds(s', Emit(s', MessageDelta), MessageDelta);
    case Complete => Adds(s, DoComplete(s).state, RunCompleted(s.verdict.GetOr(Done)));
    case _ => WeighingAddsNothing(env, s);
  }

  lemma FindingsStay(env: Env, s: RunState)
    requires s.node != Findings
    ensures Dispatch(env, s).state.findings == s.findings
  {
    hide AskModel, ReadAll, McpRead, CallSpecialist, ExecuteActions, Judge, AnyDenied, MentionsDeployment, Top,
         Conflicting, CapAll, DiscountAll, Requests, ApprovedTools;
    match s.node
    case Classify => AskModelFrame(env, s);
    case Plan => AskModelFrame(env, s);
    case McpReads => ReadAllFrame(env, s, READS);
    case Delegate => CallSpecialistFrame(env, s);
    case ExecuteApproved => ExecuteFrame(env, s, s.actions, ApprovedTools(s.approvals));
    case Verify => McpReadFrame(env, s, GetHealth);
    case _ =>
  }

  // --------------------------------------------------------------------------------------------
  // Histories
  // --------------------------------------------------------------------------------------------

  lemma PauseMirrors(env: Env, s: RunState)
    requires Mirrors(s) && Shape(env, s) && s.node == ApprovalPause
    ensures var s' := Dispatch(env, s).state;
            Mirrors(s') && Gates(EventsOf(s'.log)) == Gates(EventsOf(s.log)) + 1 && AwaitsApproval(s')
  {
    hide FindingsOf, AskedOf, EventsOf, Requests, Grounded, Breaker.Consistent, ProposedFrom;
    Adds(s, DoApprovalPause(s).state, ApprovalRequired(s.actions));
  }

  lemma TurnMirrors(env: Env, s: RunState)
    requires Mirrors(s) && Shape(env, s)
    ensures var r := Turn(env, s);
            && Mirrors(r.state)
            && (r.signal == Return && AwaitsApproval(r.state)
                ==> Gates(EventsOf(r.state.log)) == Gates(EventsOf(s.log)) + 1)
            && (r.signal != Return || !AwaitsApproval(r.state)
                ==> Gates(EventsOf(r.state.log)) == Gates(EventsOf(s.log)))
  {
    hide FindingsOf, AskedOf, EventsOf, Guard, Dispatch, Shape, ApprovedTools, AwaitsApproval;
    var g := Guard(env, s);
    GuardFrame(env, s);
    MeterAside(env, s, g.state.meter);
    GuardSignal(env, s);
    if g.signal == Next {
      DispatchFollows(env, g.state);
      DispatchApart(env, g.state);
      if s.node == Findings {
        FindingsMirrorTurn(env, g.state);
      } else if s.node == ApprovalPause {
        PauseMirrors(env, g.state);
        PauseAwaits(env, g.state);
      } else {
        OtherNodesAddNothing(env, g.state);
        FindingsStay(env, g.state);
        ReturnsAway(env, g.state);
      }
    }
  }

  lemma GuardSignal(env: Env, s: RunState)
    ensures Guard(env, s).signal != Return
  {
  }

  lemma FindingsMirrorTurn(env: Env, s: RunState)
    requires Mirrors(s) && Shape(env, s) && s.node == Findings
    ensures var r := Dispatch(env, s);
            Mirrors(r.state) && Gates(EventsOf(r.state.log)) == Gates(EventsOf(s.log))
            && !(r.signal == Return && AwaitsApproval(r.state))
  {
    hide DoFindings, Mirrors, Shape, Gates, EventsOf;
    FindingsMirror(env, s);
    FindingFollows(env, s);
  }

  lemma ReturnsAway(env: Env, s: RunState)
    requires s.node != ApprovalPause
    ensures Dispatch(env, s).signal == Return ==> !AwaitsApproval(Dispatch(env, s).state)
  {
    hide Dispatch;
    DispatchFollows(env, s);
  }

  lemma CloseMirrors(s: RunState, why: Why)
    requires Mirrors(s)
    ensures Mirrors(Close(s, why)) && Gates(EventsOf(Close(s, why).log)) == Gates(EventsOf(s.log))
            && !AwaitsApproval(Close(s, why))
  {
    hide FindingsOf, AskedOf, EventsOf;
    Adds(s, Close(s, why), if why == Cancelled then RunCancelled
                              else RunFailed(if why == Crashed then InternalError else BudgetExceeded(why.budget)));
  }

  lemma {:induction false} DriveMirrors(env: Env, s: RunState)
    requires Mirrors(s) && Shape(env, s) && s.status != Created
    ensures var s' := Drive(env, s);
            && Mirrors(s')
            && Gates(EventsOf(s'.log)) == Gates(EventsOf(s.log)) + if AwaitsApproval(s') then 1 else 0
    decreases 12 - Rank(s.node)
  {
    hide Mirrors, Gates, EventsOf, Turn, Close, Shape, AwaitsApproval;
    TurnMirrors(env, s);
    TurnKeepsShape(env, s);
    TurnClimbs(env, s);
    var r := Turn(env, s);
    match r.signal
    case Next => DriveMirrors(env, r.state);
    case Return =>
    case Raise(why) => CloseMirrors(r.state, why);
  }

  lemma RunMirrors(env: Env, s: RunState)
    requires Mirrors(s) && Shape(env, s)
    ensures var s' := Run(env, s);
            && Mirrors(s')
            && Gates(EventsOf(s'.log)) == Gates(EventsOf(s.log)) + if AwaitsApproval(s') then 1 else 0
  {
    hide FindingsOf, AskedOf, EventsOf, Drive, Grounded, Breaker.Consistent, ProposedFrom;
    if s.status == Created {
      var begun := Transition(s.(status := Running), Classify, RunStarted);
      BegunKeepsShape(env, s);
      Adds(s, begun, RunStarted);
      DriveMirrors(env, begun);
    } else {
      DriveMirrors(env, s);
    }
  }

  lemma ReleasedMirrors(s: RunState)
    requires Mirrors(s) && AwaitsApproval(s)
    ensures Mirrors(Released(s)) && Gates(EventsOf(Released(s).log)) == Gates(EventsOf(s.log))
  {
    hide FindingsOf, AskedOf, EventsOf, Decide;
    Adds(s, Released(s), ApprovalReceived(Approved));
  }

  lemma ResumeMirrors(env: Env, s: RunState, d: Decision)
    requires Mirrors(s) && Shape(env, s) && Resume(env, s, d).Some?
    ensures var s' := Resume(env, s, d).value;
            Mirrors(s') && Gates(EventsOf(s'.log)) == Gates(EventsOf(s.log))
  {
    hide FindingsOf, AskedOf, EventsOf, Decide, Run, Shape;
    if d == Approved {
      ReleasedMirrors(s);
      ReleasedShape(env, s);
      RunMirrors(env, Released(s));
      ReleasedPassedTheGate(env, s);
    } else {
      var told := Emit(s.(approvals := Decide(s.approvals, d)), ApprovalReceived(d));
      Adds(s, told, ApprovalReceived(d));
      Adds(told, Resume(env, s, d).value, RunCompleted(Rejected));
    }
  }

  lemma {:induction false} ReachableMirrors(env: Env, limits: Limits, ops: seq<Op>)
    ensures Mirrors(After(env, limits, ops))
  {
    if ops == [] {
      assert After(env, limits, ops) == NewRun(limits);
    } else {
      hide Shape, Run, Resume, FindingsOf, AskedOf, EventsOf;
      var front := ops[..|ops| - 1];
      var s := After(env, limits, front);
      ReachableShape(env, limits, front);
      ReachableMirrors(env, limits, front);
      match ops[|ops| - 1]
      case DoRun => RunMirrors(env, s);
      case DoResume(d) => if Resume(env, s, d).Some? { ResumeMirrors(env, s, d); }
      case NewGraph =>
    }
  }

  // --------------------------------------------------------------------------------------------
  // The persisted log
  // --------------------------------------------------------------------------------------------

  const PAGE: nat := 1000

  /** A row of the run's persisted events: one the graph emitted, or one the gateway appended. */
  datatype Row = FromGraph(event: Event) | FromGateway(event: Event)

  // What redaction before the insert does to findings and actions; it leaves an event's type alone.
  datatype Redaction = Redaction(finding: Finding -> Finding, action: Action -> Action)

  function MapAll<A, B>(f: A -> B, xs: seq<A>): (r: seq<B>)
    ensures |r| == |xs| && forall i :: 0 <= i < |xs| ==> r[i] == f(xs[i])
  {
    if xs == [] then [] else MapAll(f, xs[..|xs| - 1]) + [f(xs[|xs| - 1])]
  }

  function RedactEvent(r: Redaction, e: Event): Event {
    match e
    case FindingCreated(f) => FindingCreated(r.finding(f))
    case ApprovalRequired(actions) => ApprovalRequired(MapAll(r.action, actions))
    case _ => e
  }

  // The graph's events, redacted, in order, with gateway events at any place between them: the start of the
  // run, which comes before all others, a cancel request, a decision, a rejection. None of them is a finding
  // or a visit of the gate.
  ghost predicate Persists(r: Redaction, rows: seq<Row>, events: seq<Event>) {
    if rows == [] then events == []
    else
      var front, last := rows[..|rows| - 1], rows[|rows| - 1];
      match last
      case FromGateway(e) => !e.FindingCreated? && !e.ApprovalRequired? && Persists(r, front, events)
      case FromGraph(e) =>
        events != [] && e == RedactEvent(r, events[|events| - 1]) && Persists(r, front, events[..|events| - 1])
  }

  function EventOfRow(row: Row): Event { row.event }

  function RowEvents(rows: seq<Row>): seq<Event> { MapAll(EventOfRow, rows) }

  // The events a view is rebuilt from.
  function FirstPage(rows: seq<Row>): seq<Event> { Clip(RowEvents(rows), PAGE) }

  lemma MapAppends<A, B>(f: A -> B, xs: seq<A>, ys: seq<A>)
    ensures MapAll(f, xs + ys) == MapAll(f, xs) + MapAll(f, ys)
  {
  }

  // Persisting commutes with rebuilding.
  lemma {:induction false} RebuiltFromRows(r: Redaction, rows: seq<Row>, events: seq<Event>)
    requires Persists(r, rows, events)
    ensures FindingsOf(RowEvents(rows)) == MapAll(r.finding, FindingsOf(events))
    ensures ProposedOf(RowEvents(rows)) == MapAll(r.action, ProposedOf(events))
  {
    if rows != [] {
      var front, last := rows[..|rows| - 1], rows[|rows| - 1];
      var re := RowEvents(rows);
      assert re[..|re| - 1] == RowEvents(front);
      match last
      case FromGateway(e) => RebuiltFromRows(r, front, events);
      case FromGraph(e) =>
        var before, final := events[..|events| - 1], events[|events| - 1];
        RebuiltFromRows(r, front, before);
        match final
        case FindingCreated(f) => MapAppends(r.finding, FindingsOf(before), [f]);
        case ApprovalRequired(actions) => MapAppends(r.action, ProposedOf(before), actions);
        case _ =>
    }
  }

  lemma {:induction false} AskedInRows(r: Redaction, rows: seq<Row>, events: seq<Event>)
    requires Persists(r, rows, events)
    ensures AskedOf(RowEvents(rows)) == MapAll(asked => MapAll(r.action, asked), AskedOf(events))
  {
    if rows != [] {
      var front, last := rows[..|rows| - 1], rows[|rows| - 1];
      var re := RowEvents(rows);
      assert re[..|re| - 1] == RowEvents(front);
      match last
      case FromGateway(e) => AskedInRows(r, front, events);
      case FromGraph(e) =>
        var before, final := events[..|events| - 1], events[|events| - 1];
        AskedInRows(r, front, before);
        if final.ApprovalRequired? {
          MapAppends(asked => MapAll(r.action, asked), AskedOf(before), [final.actions]);
        }
    }
  }

  lemma {:induction false} ViewOfPrefix(events: seq<Event>, n: nat)
    requires n <= |events|
    ensures FindingsOf(events) == FindingsOf(events[..n]) + FindingsOf(events[n..])
    ensures AskedOf(events) == AskedOf(events[..n]) + AskedOf(events[n..])
    decreases |events| - n
  {
    if n == |events| {
      assert events[..n] == events && events[n..] == [];
    } else {
      var front := events[..|events| - 1];
      ViewOfPrefix(front, n);
      assert front[..n] == events[..n];
      var tail := events[n..];
      assert tail[..|tail| - 1] == front[n..];
    }
  }

  // The findings of the first page: a prefix of the cached ones, and all of them exactly when no later event
  // is a finding.
  predicate FindingsMatch(s: RunState, r: Redaction, rows: seq<Row>) {
    var cached, rebuilt := MapAll(r.finding, s.findings), FindingsOf(FirstPage(rows));
    && rebuilt <= cached
    && (rebuilt == cached <==> |rows| <= 1000 || FindingsOf(RowEvents(rows)[1000..]) == [])
  }

  lemma PageMatches(s: RunState, r: Redaction, rows: seq<Row>)
    requires Mirrors(s) && Persists(r, rows, EventsOf(s.log))
    ensures FindingsMatch(s, r, rows)
  {
    RebuiltFromRows(r, rows, EventsOf(s.log));
    if |rows| > PAGE { ViewOfPrefix(RowEvents(rows), PAGE); }
  }

  /** The view rebuilt from the first 1000 persisted events shows, in order and up to redaction, a prefix
      of the cached findings, and all of them exactly when no later event is a finding. */
  lemma FindingsAgree(env: Env, limits: Limits, ops: seq<Op>, r: Redaction, rows: seq<Row>)
    requires Persists(r, rows, EventsOf(After(env, limits, ops).log))
    ensures FindingsMatch(After(env, limits, ops), r, rows)
  {
    hide After, FindingsMatch;
    ReachableMirrors(env, limits, ops);
    PageMatches(After(env, limits, ops), r, rows);
  }

  // Events whose gate visits all asked for the same show it once for each visit.
  lemma {:induction false} ProposedRepeat(events: seq<Event>, actions: seq<Action>)
    requires forall asked :: asked in AskedOf(events) ==> asked == actions
    ensures ProposedOf(events) == Repeat(actions, Gates(events))
  {
    if events == [] {
      assert AskedOf(events) == [];
    } else {
      var front, last := events[..|events| - 1], events[|events| - 1];
      var before, now := AskedOf(front), AskedOf(events);
      assert now == if last.ApprovalRequired? then before + [last.actions] else before;
      forall asked | asked in before
        ensures asked == actions
      {
        assert asked in now;
      }
      ProposedRepeat(front, actions);
      if last.ApprovalRequired? {
        assert last.actions in now;
        assert |now| == |before| + 1;
      }
    }
  }

  lemma {:induction false} RepeatLength(actions: seq<Action>, n: nat)
    ensures |Repeat(actions, n)| == n * |actions|
  {
    if n > 0 { RepeatLength(actions, n - 1); }
  }

  lemma OnceOrNothing(actions: seq<Action>, n: nat)
    ensures Repeat(actions, n) == actions <==> actions == [] || n == 1
  {
    RepeatLength(actions, n);
    if n == 1 {
      assert Repeat(actions, 1) == actions;
    } else if actions == [] {
      assert Repeat(actions, n) == [];
    } else {
      TimesIsNotOnce(n, |actions|);
    }
  }

  lemma TimesIsNotOnce(n: nat, k: nat)
    requires n != 1 && k > 0
    ensures n * k != k
  {
    if n > 1 { assert n * k == k + (n - 1) * k; }
  }

  // Whatever is rebuilt of the proposals is the cached ones, once for each visit of the gate in the page.
  lemma PageRepeats(s: RunState, r: Redaction, rows: seq<Row>)
    requires Mirrors(s) && Persists(r, rows, EventsOf(s.log))
    ensures ProposedOf(FirstPage(rows)) == Repeat(MapAll(r.action, s.actions), Gates(FirstPage(rows)))
    ensures Gates(RowEvents(rows)) == Gates(EventsOf(s.log))
    ensures Gates(RowEvents(rows))
            == Gates(FirstPage(rows)) + if |rows| > PAGE then Gates(RowEvents(rows)[PAGE..]) else 0
  {
    var all, page := RowEvents(rows), FirstPage(rows);
    AskedInRows(r, rows, EventsOf(s.log));
    hide Persists, EventsOf, FindingsOf, ProposedOf;
    if |rows| > PAGE { ViewOfPrefix(all, PAGE); }
    forall asked | asked in AskedOf(page)
      ensures asked == MapAll(r.action, s.actions)
    {
      assert asked in AskedOf(all);
      var i :| 0 <= i < |AskedOf(all)| && AskedOf(all)[i] == asked;
      assert AskedOf(EventsOf(s.log))[i] in AskedOf(EventsOf(s.log));
    }
    ProposedRepeat(page, MapAll(r.action, s.actions));
  }

  // The proposals of the first page: the cached ones exactly when the run came to the gate once in it, or
  // proposed nothing.
  predicate ActionsMatch(s: RunState, r: Redaction, rows: seq<Row>) {
    ProposedOf(FirstPage(rows)) == MapAll(r.action, s.actions)
    <==> s.actions == [] || Gates(FirstPage(rows)) == 1
  }

  lemma PageProposes(s: RunState, r: Redaction, rows: seq<Row>)
    requires Mirrors(s) && Persists(r, rows, EventsOf(s.log))
    ensures ActionsMatch(s, r, rows)
  {
    hide Gates, Persists, EventsOf;
    PageRepeats(s, r, rows);
    OnceOrNothing(MapAll(r.action, s.actions), Gates(FirstPage(rows)));
  }

  /** The proposals rebuilt from the first 1000 persisted events are the cached ones, up to redaction, exactly
      when among those events the run came to the gate once, or it proposed nothing. A run denied by the policy
      shows none, as does one whose gate lies behind the page; one that was run again at the gate shows each
      twice. */
  lemma ActionsAgreeIff(env: Env, limits: Limits, ops: seq<Op>, r: Redaction, rows: seq<Row>)
    requires Persists(r, rows, EventsOf(After(env, limits, ops).log))
    ensures ActionsMatch(After(env, limits, ops), r, rows)
  {
    hide After, ActionsMatch;
    ReachableMirrors(env, limits, ops);
    PageProposes(After(env, limits, ops), r, rows);
  }

  /** In one run and its resume the gate is passed at most once, so for every run that came to it the rebuilt
      proposals agree, up to redaction, exactly when no gate event lies behind the first 1000. */
  lemma ActionsAgreePastTheGate(env: Env, limits: Limits, d: Option<Decision>, r: Redaction, rows: seq<Row>)
    requires AwaitsApproval(Run(env, NewRun(limits)))
    requires Persists(r, rows, EventsOf(OneRun(env, limits, d).log))
    ensures ProposedOf(FirstPage(rows)) == MapAll(r.action, OneRun(env, limits, d).actions)
            <==> |rows| <= 1000 || Gates(RowEvents(rows)[1000..]) == 0
  {
    hide Run, Resume, Gates, EventsOf, Shape, AwaitsApproval, Persists;
    var s0, s1 := NewRun(limits), Run(env, NewRun(limits));
    FreshMirrors(env, limits);
    RunMirrors(env, s0);
    ShapeAfterRun(env, limits);
    ActionsAtTheGate(env, s1);
    if d.Some? && Resume(env, s1, d.value).Some? {
      ResumeMirrors(env, s1, d.value);
      ResumeKeepsActions(env, s1, d.value);
    }
    var s := OneRun(env, limits, d);
    PageRepeats(s, r, rows);
    OnceOrNothing(MapAll(r.action, s.actions), Gates(FirstPage(rows)));
  }

  lemma ActionsAtTheGate(env: Env, s: RunState)
    requires Shape(env, s) && AwaitsApproval(s)
    ensures s.actions != []
  {
    hide Grounded, Breaker.Consistent, ProposedFrom;
  }

  lemma ResumeKeepsActions(env: Env, s: RunState, d: Decision)
    requires Resume(env, s, d).Some?
    ensures Resume(env, s, d).value.actions == s.actions
  {
    hide Drive, Decide;
    if d == Approved { DriveKeepsActions(env, Released(s)); }
  }

  lemma FreshMirrors(env: Env, limits: Limits)
    ensures Mirrors(NewRun(limits)) && Shape(env, NewRun(limits)) && Gates(EventsOf(NewRun(limits).log)) == 0
  {
    ReachableShape(env, limits, []);
    ReachableMirrors(env, limits, []);
  }

  lemma ShapeAfterRun(env: Env, limits: Limits)
    ensures Shape(env, Run(env, NewRun(limits)))
  {
    hide Run, Shape;
    FreshMirrors(env, limits);
    RunKeepsShape(env, NewRun(limits));
  }
}
