/** The MCP tool executor (apps/mcp_server/executor.py): gating, the idempotency store and the audit
    trail. A call runs in two atomic parts, before and after it awaits its handler; other calls may run
    in between. Hashes, results and inputs are opaque tokens. */
module Executor {
  import opened Wrappers
  import opened Catalog

  datatype Code =
    | NotFound | Forbidden | AuthError | ValidationError | ApprovalRequired | Conflict | Timeout | ToolFailure
    | OtherCode(name: string)

  /** The raw dry-run argument. It is read twice: its truth value by the gate, and by the input schema, which
      takes "false", "no", "off" and "0" for false although they are true as values. */
  datatype RawFlag = Missing | Given(truthy: bool, parsed: bool)

  /** One call. `authorized` is the tenant and scope check, `valid` the input schema; the key comes from the
      parameter or else from the arguments. */
  datatype Request = Request(tool: Tool, authorized: bool, valid: bool, dryRun: RawFlag,
                             keyParam: string, keyArg: string, inputHash: string, approved: bool)
  {
    function Key(): string { if keyParam != "" then keyParam else keyArg }

    predicate IsWrite() { IsWriteTool(tool) }

    // What the gate takes for the dry-run flag.
    predicate GateDryRun() { dryRun.Missing? || dryRun.truthy }

    // What the handler is given: the ticket tool's schema defaults the flag to false.
    predicate HandlerDryRun() { if dryRun.Missing? then !tool.TicketCreate? else dryRun.parsed }

    function Slot(): (Tool, string) { (tool, Key()) }

    predicate Keyed() { IsWrite() && Key() != "" }

    // The checks that come before the idempotency store.
    predicate PassesEarlierGates() {
      authorized && valid && (IsWrite() && !GateDryRun() ==> approved && Key() != "")
    }
  }

  datatype HandlerOutcome = Value(result: string, oversize: bool) | TimedOut | ToolError(code: Code) | Crashed

  datatype Outcome = Result(result: string, deduplicated: bool) | Error(code: Code) | Escaped

  datatype Status = StatusSucceeded | StatusFailed | StatusTimeout

  datatype Decision = Allowed | Denied | RequiresApproval

  datatype Audit = Audit(tool: Tool, inputHash: string, status: Status, decision: Decision,
                         key: Option<string>, dryRun: bool, error: Option<Code>)

  datatype Entry = Entry(inputHash: string, result: string)

  datatype Server = Server(store: map<(Tool, string), Entry>, audit: seq<Audit>)

  datatype Verdict = Reject(code: Code, decision: Decision) | Replay(entry: Entry) | Proceed

  function Gate(store: map<(Tool, string), Entry>, req: Request): Verdict {
    if !req.authorized then Reject(Forbidden, Denied)
    else if !req.valid then Reject(ValidationError, Allowed)
    else if req.IsWrite() && !req.GateDryRun() && !req.approved then Reject(ApprovalRequired, RequiresApproval)
    else if req.IsWrite() && !req.GateDryRun() && req.Key() == "" then Reject(ValidationError, Allowed)
    else if req.Keyed() && req.Slot() in store then
      (if store[req.Slot()].inputHash != req.inputHash then Reject(Conflict, Allowed)
       else Replay(store[req.Slot()]))
    else Proceed
  }

  function Record(req: Request, status: Status, decision: Decision, error: Option<Code>): Audit {
    Audit(req.tool, req.inputHash, status, decision,
          if req.IsWrite() then Some(req.Key()) else None, req.IsWrite() && req.GateDryRun(), error)
  }

  predicate IsDenial(code: Code) { code.Forbidden? || code.AuthError? }

  // The handler for MCPToolError, whichever part raised it.
  function Fail(s: Server, req: Request, code: Code, status: Status, decision: Decision): (Server, Outcome) {
    var final := if IsDenial(code) then Denied else decision;
    (s.(audit := s.audit + [Record(req, status, final, Some(code))]), Error(code))
  }

  // The part before the await; None means that the call now awaits its handler.
  function Begin(s: Server, req: Request): (Server, Option<Outcome>) {
    if req.tool.UnknownTool? then (s, Some(Error(NotFound)))
    else match Gate(s.store, req)
         case Reject(code, decision) =>
           var (s', out) := Fail(s, req, code, StatusFailed, decision);
           (s', Some(out))
         case Replay(entry) =>
           (s.(audit := s.audit + [Record(req, StatusSucceeded, Allowed, None)]), Some(Result(entry.result, true)))
         case Proceed => (s, None)
  }

  // The part after the await.
  function Complete(s: Server, req: Request, h: HandlerOutcome): (Server, Outcome) {
    match h
    case TimedOut => Fail(s, req, Timeout, StatusTimeout, Allowed)
    case ToolError(code) => Fail(s, req, code, StatusFailed, Allowed)
    case Crashed => (s, Escaped)
    case Value(result, oversize) =>
      if oversize then Fail(s, req, ToolFailure, StatusFailed, Allowed)
      else
        var store := if req.Keyed() && req.Slot() !in s.store
                     then s.store[req.Slot() := Entry(req.inputHash, result)] else s.store;
        (Server(store, s.audit + [Record(req, StatusSucceeded, Allowed, None)]), Result(result, false))
  }

  // --------------------------------------------------------------------------------------------
  // What a call is answered
  // --------------------------------------------------------------------------------------------

  /** Exactly when a call goes on to its handler, and what it is answered otherwise, guard by guard. A read needs
      only a known tool, authorization and valid input. */
  lemma CallsRunIff(s: Server, req: Request)
    ensures var write := req.tool in {Rollback, TicketCreate};
            var key := if req.keyParam != "" then req.keyParam else req.keyArg;
            var wet := write && req.dryRun.Given? && !req.dryRun.truthy;
            var known := !req.tool.UnknownTool?;
            var admitted := known && req.authorized && req.valid && (wet ==> req.approved && key != "");
            var taken := write && key != "" && (req.tool, key) in s.store;
            var (s', out) := Begin(s, req);
            && (out.None? <==> admitted && !taken)
            && (out.None? ==> s' == s) && s'.store == s.store
            && |s'.audit| == |s.audit| + (if out.Some? && known then 1 else 0)
            && (!known ==> out == Some(Error(NotFound)) && s' == s)
            && (known && !req.authorized ==> out == Some(Error(Forbidden)))
            && (known && req.authorized && !req.valid ==> out == Some(Error(ValidationError)))
            && (known && req.authorized && req.valid && wet && !req.approved ==>
                  out == Some(Error(ApprovalRequired)))
            && (known && req.authorized && req.valid && wet && req.approved && key == "" ==>
                  out == Some(Error(ValidationError)))
            && (admitted && taken ==>
                  var entry := s.store[(req.tool, key)];
                  out == Some(if entry.inputHash == req.inputHash then Result(entry.result, true) else Error(Conflict)))
  {
  }

  /** What a call is answered once its handler has ended, by what the handler did; and what it leaves in the
      store: a success under a key that is free, and nothing else. */
  lemma HandlersAreAnswered(s: Server, req: Request, h: HandlerOutcome)
    ensures var key := if req.keyParam != "" then req.keyParam else req.keyArg;
            var free := req.tool in {Rollback, TicketCreate} && key != "" && (req.tool, key) !in s.store;
            var (s', out) := Complete(s, req, h);
            && (h.TimedOut? ==> out == Error(Timeout)) && (h.ToolError? ==> out == Error(h.code))
            && (h.Crashed? ==> out == Escaped && s' == s)
            && |s'.audit| == |s.audit| + (if h.Crashed? then 0 else 1)
            && (h.Value? ==> out == if h.oversize then Error(ToolFailure) else Result(h.result, false))
            && s'.store == if h.Value? && !h.oversize && free
                           then s.store[(req.tool, key) := Entry(req.inputHash, h.result)] else s.store
  {
  }

  // --------------------------------------------------------------------------------------------
  // Overlapping calls
  // --------------------------------------------------------------------------------------------

  type CallId = nat

  /** A finished call; `handler` is what its handler did, if it ran. */
  datatype Finished = Finished(req: Request, handler: Option<HandlerOutcome>, outcome: Outcome)

  /** A server process: its stores, its calls that await their handlers and, in order, its finished calls. */
  datatype State = State(server: Server, awaiting: map<CallId, Request>, finished: seq<Finished>)

  const INITIAL := State(Server(map[], []), map[], [])

  datatype Step = Start(c: CallId, req: Request) | Return(c: CallId, handler: HandlerOutcome) | Restart

  predicate Enabled(s: State, step: Step) {
    match step
    case Start(c, _) => c !in s.awaiting
    case Return(c, _) => c in s.awaiting
    case Restart => true
  }

  function Apply(s: State, step: Step): State
    requires Enabled(s, step)
  {
    match step
    case Start(c, req) =>
      (match Begin(s.server, req)
       case (server, None) => s.(server := server, awaiting := s.awaiting[c := req])
       case (server, Some(out)) => s.(server := server, finished := s.finished + [Finished(req, None, out)]))
    case Return(c, h) =>
      var req := s.awaiting[c];
      var (server, out) := Complete(s.server, req, h);
      State(server, s.awaiting - {c}, s.finished + [Finished(req, Some(h), out)])
    case Restart => INITIAL  // both stores live in the process
  }

  ghost predicate IsBehaviour(states: seq<State>, steps: seq<Step>) {
    && |states| == |steps| + 1
    && states[0] == INITIAL
    && forall i {:trigger steps[i]} :: 0 <= i < |steps| ==>
         Enabled(states[i], steps[i]) && states[i + 1] == Apply(states[i], steps[i])
  }

  // The states from `i` to `j` are those of one process.
  ghost predicate OneProcess(steps: seq<Step>, i: nat, j: nat) {
    i <= j <= |steps| && forall t :: i <= t < j ==> !steps[t].Restart?
  }

  /** As long as the process lives, store entries are write-once, even when calls overlap at the await. */
  lemma {:induction false} StoreIsWriteOnce(states: seq<State>, steps: seq<Step>, i: nat, j: nat)
    requires IsBehaviour(states, steps) && OneProcess(steps, i, j)
    ensures forall k :: k in states[i].server.store ==>
              k in states[j].server.store && states[j].server.store[k] == states[i].server.store[k]
    decreases j
  {
    if i < j {
      StoreIsWriteOnce(states, steps, i, j - 1);
      var step := steps[j - 1];
    }
  }

  // The calls that must be audited: known tool, and returned or raised MCPToolError.
  predicate MustAudit(f: Finished) {
    !f.req.tool.UnknownTool? && !f.outcome.Escaped?
  }

  function Audited(finished: seq<Finished>): seq<Finished> {
    if finished == [] then []
    else
      var front, last := finished[..|finished| - 1], finished[|finished| - 1];
      if MustAudit(last) then Audited(front) + [last] else Audited(front)
  }

  // What a record must say about the call it is for.
  predicate Describes(a: Audit, f: Finished) {
    && a.tool == f.req.tool && a.inputHash == f.req.inputHash
    && (a.dryRun <==> f.req.tool in {Rollback, TicketCreate} && (f.req.dryRun.Missing? || f.req.dryRun.truthy))
    && a.key == (if f.req.IsWrite() then Some(f.req.Key()) else None)
    && (a.status.StatusSucceeded? <==> f.outcome.Result?)
    && (a.status.StatusTimeout? <==> f.handler == Some(TimedOut))
    && (a.decision.Denied? <==> f.outcome.Error? && f.outcome.code in {Forbidden, AuthError})
    && (a.decision.RequiresApproval? <==> f.handler.None? && f.outcome == Error(ApprovalRequired))
    && a.error == (if f.outcome.Error? then Some(f.outcome.code) else None)
  }

  ghost predicate AuditMatches(s: State) {
    var due := Audited(s.finished);
    |s.server.audit| == |due| && forall i :: 0 <= i < |due| ==> Describes(s.server.audit[i], due[i])
  }

  // A step that finishes a call appends the record it is due, or nothing when none is due.
  lemma FinishingIsRecorded(s: State, step: Step)
    requires Enabled(s, step) && !step.Restart? && (step.Return? ==> !s.awaiting[step.c].tool.UnknownTool?)
    ensures var s' := Apply(s, step);
            || (s'.finished == s.finished && s'.server.audit == s.server.audit)
            || exists f :: s'.finished == s.finished + [f] &&
                 if MustAudit(f) then
                   |s'.server.audit| == |s.server.audit| + 1 && s.server.audit <= s'.server.audit
                   && Describes(s'.server.audit[|s.server.audit|], f)
                 else s'.server.audit == s.server.audit
  {
    var s' := Apply(s, step);
    if s'.finished != s.finished {
      var f := s'.finished[|s.finished|];
      assert s'.finished == s.finished + [f];
    }
  }

  lemma AuditStep(s: State, step: Step)
    requires Enabled(s, step) && AuditMatches(s)
    requires forall c :: c in s.awaiting ==> !s.awaiting[c].tool.UnknownTool?
    ensures AuditMatches(Apply(s, step))
  {
    if !step.Restart? {
      var s' := Apply(s, step);
      FinishingIsRecorded(s, step);
      if s'.finished != s.finished {
        assert s'.finished[..|s'.finished| - 1] == s.finished;
      }
    }
  }

  lemma {:induction false} AwaitingAreKnown(states: seq<State>, steps: seq<Step>, i: nat)
    requires IsBehaviour(states, steps) && i < |states|
    ensures forall c :: c in states[i].awaiting ==>
              !states[i].awaiting[c].tool.UnknownTool? && states[i].awaiting[c].PassesEarlierGates()
  {
    if i > 0 {
      AwaitingAreKnown(states, steps, i - 1);
      var step := steps[i - 1];
    }
  }

  /** Audit completeness: at every moment of every interleaving the audit log holds exactly one record
      for each call that its process finished on a known tool that returned or raised MCPToolError, in order of
      completion, and each record says what happened, the deduplicated path included. */
  lemma {:induction false} AuditIsComplete(states: seq<State>, steps: seq<Step>, i: nat)
    requires IsBehaviour(states, steps) && i < |states|
    ensures AuditMatches(states[i])
  {
    if i > 0 {
      AuditIsComplete(states, steps, i - 1);
      AwaitingAreKnown(states, steps, i - 1);
      var step := steps[i - 1];
      AuditStep(states[i - 1], step);
    }
  }

  predicate HandlerSucceeded(f: Finished) {
    f.handler.Some? && f.handler.value.Value? && !f.handler.value.oversize
  }

  predicate SucceededFor(f: Finished, k: (Tool, string)) {
    f.req.Keyed() && f.req.Slot() == k && HandlerSucceeded(f)
  }

  ghost predicate IsFirstSuccess(finished: seq<Finished>, k: (Tool, string), i: nat) {
    i < |finished| && SucceededFor(finished[i], k) && forall j :: 0 <= j < i ==> !SucceededFor(finished[j], k)
  }

  // The store holds the first success of each slot, and a failed or crashed handler leaves none.
  ghost predicate StoreHoldsFirst(s: State) {
    && (forall k :: k in s.server.store ==> exists i :: 0 <= i < |s.finished| && Stores(s, k, i))
    && (forall i :: 0 <= i < |s.finished| && HandlerSucceeded(s.finished[i]) && s.finished[i].req.Keyed() ==>
          s.finished[i].req.Slot() in s.server.store)
  }

  ghost predicate Stores(s: State, k: (Tool, string), i: nat)
    requires k in s.server.store && i < |s.finished|
  {
    && IsFirstSuccess(s.finished, k, i)
    && s.server.store[k] == Entry(s.finished[i].req.inputHash, s.finished[i].handler.value.result)
  }

  lemma StoresGrows(s: State, s': State, k: (Tool, string), i: nat)
    requires k in s.server.store && i < |s.finished| && Stores(s, k, i)
    requires s.finished <= s'.finished
    requires k in s'.server.store && s'.server.store[k] == s.server.store[k]
    ensures Stores(s', k, i)
  {
    assert forall j :: 0 <= j <= i ==> s'.finished[j] == s.finished[j];
  }

  lemma StoreStays(s: State, s': State)
    requires StoreHoldsFirst(s) && s.finished <= s'.finished && s'.server.store == s.server.store
    requires forall i :: |s.finished| <= i < |s'.finished| ==>
               !HandlerSucceeded(s'.finished[i]) || !s'.finished[i].req.Keyed()
               || s'.finished[i].req.Slot() in s.server.store
    ensures StoreHoldsFirst(s')
  {
    forall k | k in s'.server.store
      ensures exists i :: 0 <= i < |s'.finished| && Stores(s', k, i)
    {
      var i :| 0 <= i < |s.finished| && Stores(s, k, i);
      StoresGrows(s, s', k, i);
    }
    assert forall i :: 0 <= i < |s.finished| ==> s'.finished[i] == s.finished[i];
  }

  lemma NewEntry(s: State, s': State, f: Finished)
    requires StoreHoldsFirst(s) && s'.finished == s.finished + [f]
    requires f.req.Keyed() && HandlerSucceeded(f) && f.req.Slot() !in s.server.store
    requires s'.server.store == s.server.store[f.req.Slot() := Entry(f.req.inputHash, f.handler.value.result)]
    ensures StoreHoldsFirst(s')
  {
    hide HandlerSucceeded;
    var n := |s.finished|;
    forall k | k in s'.server.store
      ensures exists i :: 0 <= i < |s'.finished| && Stores(s', k, i)
    {
      if k in s.server.store {
        var i :| 0 <= i < n && Stores(s, k, i);
        StoresGrows(s, s', k, i);
      } else {
        assert forall j :: 0 <= j < n ==> s'.finished[j] == s.finished[j];
        assert Stores(s', k, n);
      }
    }
    assert forall i :: 0 <= i < n ==> s'.finished[i] == s.finished[i];
  }

  lemma NothingStored()
    ensures StoreHoldsFirst(INITIAL)
  {
  }

  lemma StoreStep(s: State, step: Step)
    requires Enabled(s, step) && StoreHoldsFirst(s)
    ensures StoreHoldsFirst(Apply(s, step))
  {
    hide StoreHoldsFirst, Gate, Record, IsDenial;
    var s' := Apply(s, step);
    match step
    case Restart => NothingStored();
    case Start(c, req) => StoreStays(s, s');
    case Return(c, h) =>
      var f := s'.finished[|s.finished|];
      if HandlerSucceeded(f) && f.req.Keyed() && f.req.Slot() !in s.server.store {
        NewEntry(s, s', f);
      } else {
        StoreStays(s, s');
      }
  }

  /** Whatever overlaps, a store entry is the input hash and result of the process's first handler success for
      its tool and key. */
  lemma {:induction false} StoreKeepsFirstResult(states: seq<State>, steps: seq<Step>, i: nat)
    requires IsBehaviour(states, steps) && i < |states|
    ensures StoreHoldsFirst(states[i])
  {
    if i > 0 {
      StoreKeepsFirstResult(states, steps, i - 1);
      var step := steps[i - 1];
      StoreStep(states[i - 1], step);
    }
  }

  // A write that takes effect although nobody approved it or it has no key.
  predicate Ungated(req: Request) {
    req.IsWrite() && !req.HandlerDryRun() && !(req.approved && req.Key() != "")
  }

  // The gate reads a dry run where the handler reads none: a ticket request leaves the flag out, or a flag
  // that is true as a value is parsed as false.
  predicate Misread(req: Request) {
    if req.dryRun.Missing? then req.tool.TicketCreate? else req.dryRun.truthy && !req.dryRun.parsed
  }

  /** Exactly when the gate lets an ungated write through to its handler: for an authorized and valid
      request whose flag is misread, and whose key, if it has one, is new. */
  lemma UngatedWriteRunsIff(s: Server, req: Request)
    requires Ungated(req)
    ensures Begin(s, req).1.None? <==>
              req.authorized && req.valid && Misread(req) && (req.Keyed() ==> req.Slot() !in s.store)
  {
  }

  const FORGETFUL := Request(TicketCreate, true, true, Missing, "", "", "hash", false)

  // The flag is the text "false".
  const FALSE_AS_TEXT := Request(Rollback, true, true, Given(true, false), "", "", "hash", false)

  /** The inputs: a ticket request without the flag, and a rollback with the text "false" for it, both without
      approval and key, reach their handlers as real writes. */
  lemma MisreadFlagsAreUngated()
    ensures var s := Apply(Apply(INITIAL, Start(0, FORGETFUL)), Start(1, FALSE_AS_TEXT));
            s.awaiting == map[0 := FORGETFUL, 1 := FALSE_AS_TEXT]
    ensures forall req :: req in {FORGETFUL, FALSE_AS_TEXT} ==> Ungated(req) && !req.approved && req.Key() == ""
  {
  }

  /** In every behaviour, a call that awaits its handler is gated, approved and keyed if it is a real write,
      unless and only unless its flag is misread and it lacks them. */
  lemma WritesAreGatedUnlessMisread(states: seq<State>, steps: seq<Step>, i: nat, c: CallId)
    requires IsBehaviour(states, steps) && i < |states| && c in states[i].awaiting
    ensures var req := states[i].awaiting[c];
            Ungated(req) <==> req.IsWrite() && Misread(req) && !(req.approved && req.Key() != "")
  {
    AwaitingAreKnown(states, steps, i);
  }

  // --------------------------------------------------------------------------------------------
  // How often a handler succeeds
  // --------------------------------------------------------------------------------------------

  // Step `m` finishes a keyed call of slot `k` whose handler succeeded.
  ghost predicate Succeeds(states: seq<State>, steps: seq<Step>, m: nat, k: (Tool, string))
    requires IsBehaviour(states, steps) && m < |steps|
  {
    && steps[m].Return? && steps[m].c in states[m].awaiting
    && SucceededFor(Finished(states[m].awaiting[steps[m].c], Some(steps[m].handler), Escaped), k)
  }

  // Call `c` awaits its handler from state `a` through state `b`.
  ghost predicate AwaitsThrough(states: seq<State>, c: CallId, a: nat, b: nat) {
    && a <= b < |states| && c in states[b].awaiting
    && forall t :: a <= t <= b ==> c in states[t].awaiting && states[t].awaiting[c] == states[b].awaiting[c]
  }

  lemma SuccessFillsSlot(states: seq<State>, steps: seq<Step>, m: nat, k: (Tool, string))
    requires IsBehaviour(states, steps) && m < |steps| && Succeeds(states, steps, m, k)
    ensures k in states[m + 1].server.store
  {
    var step := steps[m];
  }

  // A call of a slot that is taken never awaits.
  lemma TakenSlotsStartNothing(s: State, step: Step, k: (Tool, string))
    requires Enabled(s, step) && k in s.server.store && step.Start? && step.req.Keyed() && step.req.Slot() == k
    ensures Apply(s, step).awaiting == s.awaiting
  {
  }

  // What awaits in a slot taken at `a` has awaited since then.
  lemma {:induction false} AwaitingSinceTaken(states: seq<State>, steps: seq<Step>, a: nat, b: nat, c: CallId,
                                              k: (Tool, string))
    requires IsBehaviour(states, steps) && OneProcess(steps, a, b) && k in states[a].server.store
    requires c in states[b].awaiting && states[b].awaiting[c].Keyed() && states[b].awaiting[c].Slot() == k
    ensures AwaitsThrough(states, c, a, b)
    decreases b
  {
    if a < b {
      StoreIsWriteOnce(states, steps, a, b - 1);
      var step := steps[b - 1];
      if step.Start? && step.req.Keyed() && step.req.Slot() == k {
        TakenSlotsStartNothing(states[b - 1], step, k);
      }
      assert c in states[b - 1].awaiting && states[b - 1].awaiting[c] == states[b].awaiting[c];
      AwaitingSinceTaken(states, steps, a, b - 1, c, k);
    }
  }

  /** Two handler successes in one slot, of all there ever are, come from overlap or from a restart: either
      the second call was already awaiting when the first returned, and did so until its own return, or
      the process was restarted between their returns. */
  lemma SuccessesOverlap(states: seq<State>, steps: seq<Step>, a: nat, b: nat, k: (Tool, string))
    requires IsBehaviour(states, steps) && a < b < |steps|
    requires Succeeds(states, steps, a, k) && Succeeds(states, steps, b, k)
    ensures AwaitsThrough(states, steps[b].c, a, b) && steps[a].c != steps[b].c <==> OneProcess(steps, a, b)
  {
    if OneProcess(steps, a, b) {
      SuccessFillsSlot(states, steps, a, k);
      AwaitingSinceTaken(states, steps, a + 1, b, steps[b].c, k);
      var step := steps[a];
      assert steps[b].c in states[a + 1].awaiting;
      assert states[a + 1].awaiting == states[a].awaiting - {step.c};
    } else {
      var t :| a <= t < b && steps[t].Restart?;
      assert states[t + 1].awaiting == map[];
    }
  }

  ghost predicate OneSuccessPerSlot(finished: seq<Finished>) {
    forall i, j :: 0 <= i < j < |finished| && finished[i].req.Keyed() && finished[j].req.Keyed()
                   && finished[i].req.Slot() == finished[j].req.Slot() && HandlerSucceeded(finished[i]) ==>
                   !HandlerSucceeded(finished[j])
  }

  // Two calls of slot `k`, both to succeed before state `n` and in its process, await at the same time: the
  // second, which returns at step `b`, from the first's return at step `a` or earlier.
  ghost predicate Overlap(states: seq<State>, steps: seq<Step>, n: nat, a: nat, b: nat, k: (Tool, string))
    requires IsBehaviour(states, steps) && n < |states|
  {
    && a < b < n && OneProcess(steps, a, n) && Succeeds(states, steps, a, k) && Succeeds(states, steps, b, k)
    && steps[a].c != steps[b].c && AwaitsThrough(states, steps[b].c, a, b)
  }

  // The step that finished the call of an entry.
  lemma {:induction false} FinishedByStep(states: seq<State>, steps: seq<Step>, n: nat, i: nat) returns (m: nat)
    requires IsBehaviour(states, steps) && n < |states| && i < |states[n].finished|
    ensures m < n && |states[m].finished| == i && |states[m + 1].finished| == i + 1
    ensures states[m + 1].finished <= states[n].finished && OneProcess(steps, m, n)
    decreases n
  {
    var step := steps[n - 1];
    FinishedGrows(states[n - 1], step);
    if i < |states[n - 1].finished| {
      m := FinishedByStep(states, steps, n - 1, i);
    } else {
      m := n - 1;
    }
  }

  lemma FinishedGrows(s: State, step: Step)
    requires Enabled(s, step) && !step.Restart?
    ensures s.finished <= Apply(s, step).finished && |Apply(s, step).finished| <= |s.finished| + 1
    ensures |Apply(s, step).finished| > |s.finished| ==>
              var f := Apply(s, step).finished[|s.finished|];
              HandlerSucceeded(f) ==> step.Return? && f.req == s.awaiting[step.c] && f.handler == Some(step.handler)
  {
  }

  lemma {:induction false} ReturnsAreFinished(states: seq<State>, steps: seq<Step>, m: nat, n: nat, k: (Tool, string))
    requires IsBehaviour(states, steps) && m < n && OneProcess(steps, m, n) && Succeeds(states, steps, m, k)
    ensures |states[m].finished| < |states[n].finished| && SucceededFor(states[n].finished[|states[m].finished|], k)
    decreases n
  {
    var step := steps[n - 1];
    FinishedGrows(states[n - 1], step);
    if m < n - 1 {
      ReturnsAreFinished(states, steps, m, n - 1, k);
    }
  }

  /** Exactly when a slot sees two successes in one process: in every behaviour, some tool and key has two if and
      only if two of its calls that succeeded awaited their handlers at the same time. */
  lemma TwoSuccessesIffOverlap(states: seq<State>, steps: seq<Step>, n: nat)
    requires IsBehaviour(states, steps) && n < |states|
    ensures !OneSuccessPerSlot(states[n].finished) <==> exists a: nat, b: nat, k :: Overlap(states, steps, n, a, b, k)
  {
    if !OneSuccessPerSlot(states[n].finished) {
      var finished := states[n].finished;
      var i, j :| 0 <= i < j < |finished| && finished[i].req.Keyed() && finished[j].req.Keyed()
                  && finished[i].req.Slot() == finished[j].req.Slot()
                  && HandlerSucceeded(finished[i]) && HandlerSucceeded(finished[j]);
      var k := finished[i].req.Slot();
      var a := SuccessStep(states, steps, n, i, k);
      var b := SuccessStep(states, steps, n, j, k);
      FinishedInOrder(states, steps, a, b, n);
      SuccessesOverlap(states, steps, a, b, k);
      assert Overlap(states, steps, n, a, b, k);
    }
    if exists a: nat, b: nat, k :: Overlap(states, steps, n, a, b, k) {
      var a: nat, b: nat, k :| Overlap(states, steps, n, a, b, k);
      ReturnsAreFinished(states, steps, a, b, k);
      ReturnsAreFinished(states, steps, a, n, k);
      ReturnsAreFinished(states, steps, b, n, k);
    }
  }

  lemma SuccessStep(states: seq<State>, steps: seq<Step>, n: nat, i: nat, k: (Tool, string)) returns (m: nat)
    requires IsBehaviour(states, steps) && n < |states| && i < |states[n].finished|
             && SucceededFor(states[n].finished[i], k)
    ensures m < n && |states[m].finished| == i && OneProcess(steps, m, n) && Succeeds(states, steps, m, k)
  {
    m := FinishedByStep(states, steps, n, i);
    var step := steps[m];
    FinishedGrows(states[m], step);
    assert states[m + 1].finished[i] == states[n].finished[i];
  }

  lemma FinishedInOrder(states: seq<State>, steps: seq<Step>, a: nat, b: nat, n: nat)
    requires IsBehaviour(states, steps) && OneProcess(steps, a, n) && OneProcess(steps, b, n)
    requires |states[a].finished| < |states[b].finished|
    ensures a < b
  {
    if b < a { FinishedOnlyGrows(states, steps, b, a); }
  }

  lemma {:induction false} FinishedOnlyGrows(states: seq<State>, steps: seq<Step>, a: nat, b: nat)
    requires IsBehaviour(states, steps) && OneProcess(steps, a, b)
    ensures |states[a].finished| <= |states[b].finished|
    decreases b
  {
    if a < b {
      FinishedOnlyGrows(states, steps, a, b - 1);
      var step := steps[b - 1];
      FinishedGrows(states[b - 1], step);
    }
  }

  // No keyed call starts while one of its own slot awaits; calls of other slots, and reads, may overlap.
  ghost predicate SlotsApart(states: seq<State>, steps: seq<Step>) {
    forall i, c {:trigger steps[i], c in states[i].awaiting} ::
      0 <= i < |steps| && i < |states| && steps[i].Start? && steps[i].req.Keyed()
      && c in states[i].awaiting && states[i].awaiting[c].Keyed() ==>
      states[i].awaiting[c].Slot() != steps[i].req.Slot()
  }

  // Of each slot at most one call awaits.
  ghost predicate OneAwaits(s: State) {
    forall c, d ::
      (c in s.awaiting && d in s.awaiting && s.awaiting[c].Keyed() && s.awaiting[d].Keyed()
       && s.awaiting[c].Slot() == s.awaiting[d].Slot()) ==> c == d
  }

  lemma {:induction false} SlotsApartOneAwaits(states: seq<State>, steps: seq<Step>, n: nat)
    requires IsBehaviour(states, steps) && SlotsApart(states, steps) && n < |states|
    ensures OneAwaits(states[n])
  {
    if n > 0 {
      SlotsApartOneAwaits(states, steps, n - 1);
      var step := steps[n - 1];
    }
  }

  /** So without overlap in a slot, a write tool's handler succeeds at most once for each key as long as the
      process lives, whatever other calls overlap. */
  lemma AtMostOneSuccess(states: seq<State>, steps: seq<Step>, n: nat)
    requires IsBehaviour(states, steps) && SlotsApart(states, steps) && n < |states|
    ensures OneSuccessPerSlot(states[n].finished)
  {
    TwoSuccessesIffOverlap(states, steps, n);
    forall a: nat, b: nat, k
      ensures !Overlap(states, steps, n, a, b, k)
    {
      if a < |states| { SlotsApartOneAwaits(states, steps, a); }
    }
  }

  // Two calls that are both past the gate, seen from any state in which their slot is free.
  lemma BothReturn(s: State, req: Request, a: string, b: string)
    requires s.awaiting == map[0 := req, 1 := req] && s.finished == []
    requires req.Keyed() && req.Slot() !in s.server.store
    ensures var t := Apply(s, Return(0, Value(a, false)));
            1 in t.awaiting &&
            var u := Apply(t, Return(1, Value(b, false)));
            && u.finished == [Finished(req, Some(Value(a, false)), Result(a, false)),
                              Finished(req, Some(Value(b, false)), Result(b, false))]
            && u.server.store == s.server.store[req.Slot() := Entry(req.inputHash, a)]
  {
  }

  /** With overlap it need not: two calls that both pass the gate before either returns both run. The
      store still keeps the first result only. */
  lemma OverlapCanRunTwice(req: Request, a: string, b: string)
    requires !req.tool.UnknownTool? && req.Keyed() && req.PassesEarlierGates()
    ensures var s := Apply(Apply(INITIAL, Start(0, req)), Start(1, req));
            s.awaiting == map[0 := req, 1 := req] &&
            var t := Apply(s, Return(0, Value(a, false)));
            1 in t.awaiting &&
            var u := Apply(t, Return(1, Value(b, false)));
            !OneSuccessPerSlot(u.finished) && u.server.store == map[req.Slot() := Entry(req.inputHash, a)]
  {
    var s := Apply(Apply(INITIAL, Start(0, req)), Start(1, req));
    BothReturn(s, req, a, b);
    var u := Apply(Apply(s, Return(0, Value(a, false))), Return(1, Value(b, false)));
    assert HandlerSucceeded(u.finished[0]) && HandlerSucceeded(u.finished[1]);
  }

  /** And with a restart it need not: the restarted process runs a call again that succeeded before. */
  lemma RestartRunsAgain(req: Request, a: string, b: string)
    requires !req.tool.UnknownTool? && req.Keyed() && req.PassesEarlierGates()
    ensures var s := Apply(INITIAL, Start(0, req));
            0 in s.awaiting &&
            var t := Apply(s, Return(0, Value(a, false)));
            && t.finished == [Finished(req, Some(Value(a, false)), Result(a, false))]
            && var u := Apply(Apply(t, Restart), Start(0, req));
               0 in u.awaiting
               && Apply(u, Return(0, Value(b, false))).finished
                  == [Finished(req, Some(Value(b, false)), Result(b, false))]
  {
  }

  /** Replay, in every interleaving: once a keyed write has succeeded in a process, a later call with the same tool and
      key that passes the earlier gates runs no handler. It returns the first result, marked as
      deduplicated, exactly when its input hash is that of the first success, and a conflict otherwise. */
  lemma LaterCallsReplay(states: seq<State>, steps: seq<Step>, i: nat, c: CallId, req: Request, first: nat)
    requires IsBehaviour(states, steps) && i < |steps| && steps[i] == Start(c, req)
    requires !req.tool.UnknownTool? && req.Keyed() && req.PassesEarlierGates()
    requires IsFirstSuccess(states[i].finished, req.Slot(), first)
    ensures var f := states[i].finished[first];
            && |states[i + 1].finished| == |states[i].finished| + 1
            && states[i + 1].awaiting == states[i].awaiting
            && states[i + 1].server.store == states[i].server.store
            && states[i + 1].finished[|states[i].finished|] == Finished(req, None,
                 if req.inputHash == f.req.inputHash then Result(f.handler.value.result, true) else Error(Conflict))
  {
    StoreKeepsFirstResult(states, steps, i);
    var s := states[i];
    var step := steps[i];
    assert req.Slot() in s.server.store;
    var k :| 0 <= k < |s.finished| && Stores(s, req.Slot(), k);
    assert SucceededFor(s.finished[k], req.Slot()) && SucceededFor(s.finished[first], req.Slot());
    assert k == first;
  }

  // --------------------------------------------------------------------------------------------
  // The executor with its process-wide stores
  // --------------------------------------------------------------------------------------------

  class ToolServer {
    var idempotencyStore: map<(Tool, string), Entry>
    var auditLog: seq<Audit>

    function Snapshot(): Server
      reads this
    {
      Server(idempotencyStore, auditLog)
    }

    constructor ()
      ensures Snapshot() == Server(map[], [])
    {
      idempotencyStore, auditLog := map[], [];
    }

    // From the except clause: one record, and the error goes on to the caller.
    method RaiseToolError(req: Request, code: Code, status: Status, decision: Decision) returns (out: Outcome)
      modifies this`auditLog
      ensures (Snapshot(), out) == Fail(old(Snapshot()), req, code, status, decision)
    {
      var final := decision;
      if IsDenial(code) {
        final := Denied;
      }
      auditLog := auditLog + [Record(req, status, final, Some(code))];
      out := Error(code);
    }

    method BeforeAwait(req: Request) returns (out: Option<Outcome>)
      modifies this`auditLog
      ensures (Snapshot(), out) == Begin(old(Snapshot()), req)
    {
      if req.tool.UnknownTool? {
        return Some(Error(NotFound));
      }
      if !req.authorized {
        var e := RaiseToolError(req, Forbidden, StatusFailed, Denied);
        return Some(e);
      }
      if !req.valid {
        var e := RaiseToolError(req, ValidationError, StatusFailed, Allowed);
        return Some(e);
      }
      if req.IsWrite() {
        if !req.GateDryRun() && !req.approved {
          var e := RaiseToolError(req, ApprovalRequired, StatusFailed, RequiresApproval);
          return Some(e);
        }
        if !req.GateDryRun() && req.Key() == "" {
          var e := RaiseToolError(req, ValidationError, StatusFailed, Allowed);
          return Some(e);
        }
        if req.Key() != "" && req.Slot() in idempotencyStore {
          var seen := idempotencyStore[req.Slot()];
          if seen.inputHash != req.inputHash {
            var e := RaiseToolError(req, Conflict, StatusFailed, Allowed);
            return Some(e);
          }
          auditLog := auditLog + [Record(req, StatusSucceeded, Allowed, None)];
          return Some(Result(seen.result, true));
        }
      }
      return None;
    }

    method AfterAwait(req: Request, h: HandlerOutcome) returns (out: Outcome)
      modifies this
      ensures (Snapshot(), out) == Complete(old(Snapshot()), req, h)
    {
      match h
      case TimedOut => out := RaiseToolError(req, Timeout, StatusTimeout, Allowed);
      case ToolError(code) => out := RaiseToolError(req, code, StatusFailed, Allowed);
      case Crashed => out := Escaped;
      case Value(result, oversize) =>
        if oversize {
          out := RaiseToolError(req, ToolFailure, StatusFailed, Allowed);
        } else {
          if req.Key() != "" && req.IsWrite() && req.Slot() !in idempotencyStore {
            idempotencyStore := idempotencyStore[req.Slot() := Entry(req.inputHash, result)];
          }
          auditLog := auditLog + [Record(req, StatusSucceeded, Allowed, None)];
          out := Result(result, false);
        }
    }
  }
}
