/** The run event log (packages/persistence/repositories.py) as a protocol between concurrent
    `append_next_event` calls.

    The committed table is a sequence of rows in commit order. Every call works in up to four
    attempts, and an attempt in three separate steps: look for a duplicate event id, read
    MAX(sequence), insert. Each read sees some committed state that is at least as recent as the start
    of its attempt and may be out of date by the time of the insert. The UNIQUE constraints on
    (event_id) and (run_id, sequence) arbitrate at the insert; a failed insert drops that attempt's
    row and the call loops. */
module EventLog {
  import opened Wrappers

  type RunId = string
  type Tenant = string
  type EventId = string
  type CallId = nat

  const MAX_ATTEMPTS: nat := 4

  /** One committed row. `author` names the call that committed it; it is bookkeeping for the proofs,
      not a column. */
  datatype Row = Row(eventId: EventId, run: RunId, sequence: int, kind: string, data: string,
                     sensitive: bool, safeForUi: bool, author: CallId)

  /** The arguments of one `append_next_event` call; an empty `eventId` asks for a generated one. */
  datatype Request = Request(run: RunId, tenant: Tenant, eventId: EventId, kind: string, data: string,
                             sensitive: bool, safeForUi: bool)

  datatype Error = ContradictoryFlags | RunNotFound

  // --------------------------------------------------------------------------------------------
  // The table
  // --------------------------------------------------------------------------------------------

  function RowsOf(log: seq<Row>, run: RunId): (r: seq<Row>)
    ensures |r| <= |log|
  {
    if log == [] then []
    else
      var last := log[|log| - 1];
      RowsOf(log[..|log| - 1], run) + if last.run == run then [last] else []
  }

  lemma {:induction false} RowsOfMembers(log: seq<Row>, run: RunId)
    ensures forall x :: x in RowsOf(log, run) <==> x in log && x.run == run
  {
    if log != [] {
      RowsOfMembers(log[..|log| - 1], run);
      assert log == log[..|log| - 1] + [log[|log| - 1]];
    }
  }

  // COALESCE(MAX(sequence), -1) over one run.
  function MaxSequence(log: seq<Row>, run: RunId): int {
    if log == [] then -1
    else
      var last := log[|log| - 1];
      var m := MaxSequence(log[..|log| - 1], run);
      if last.run == run && last.sequence > m then last.sequence else m
  }

  function NextSequence(log: seq<Row>, run: RunId): int {
    MaxSequence(log, run) + 1
  }

  function FindEvent(log: seq<Row>, eid: EventId): (r: Option<Row>)
    ensures r.Some? ==> r.value in log && r.value.eventId == eid
    ensures r.None? ==> forall x :: x in log ==> x.eventId != eid
  {
    if log == [] then None
    else if log[0].eventId == eid then Some(log[0])
    else
      assert log == [log[0]] + log[1..];
      FindEvent(log[1..], eid)
  }

  // The two UNIQUE constraints, for a row about to be inserted.
  predicate Insertable(log: seq<Row>, row: Row) {
    forall x :: x in log ==> x.eventId != row.eventId && !(x.run == row.run && x.sequence == row.sequence)
  }

  // Every run's rows are numbered 0, 1, 2, ... in commit order.
  ghost predicate Dense(log: seq<Row>) {
    forall run, i {:trigger RowsOf(log, run)[i]} ::
      0 <= i < |RowsOf(log, run)| ==> RowsOf(log, run)[i].sequence == i
  }

  ghost predicate OneRowPerEvent(log: seq<Row>) {
    forall i, j :: 0 <= i < j < |log| ==> log[i].eventId != log[j].eventId
  }

  ghost predicate Consistent(log: seq<Row>) {
    Dense(log) && OneRowPerEvent(log)
  }

  lemma {:induction false} MaxOfDense(log: seq<Row>, run: RunId)
    requires Dense(log)
    ensures MaxSequence(log, run) == |RowsOf(log, run)| - 1
  {
    if log != [] {
      DensePrefix(log, |log| - 1);
      MaxOfDense(log[..|log| - 1], run);
      var before := RowsOf(log[..|log| - 1], run);
      if log[|log| - 1].run == run {
        assert RowsOf(log, run)[|before|] == log[|log| - 1];
      }
    }
  }

  lemma {:induction false} RowsOfPrefix(log: seq<Row>, n: nat, run: RunId)
    requires n <= |log|
    ensures RowsOf(log[..n], run) <= RowsOf(log, run)
    ensures |RowsOf(log, run)| <= |RowsOf(log[..n], run)| + (|log| - n)
    decreases |log| - n
  {
    if n < |log| {
      RowsOfPrefix(log, n + 1, run);
      assert log[..n + 1][..n] == log[..n];
    } else {
      assert log[..n] == log;
    }
  }

  lemma DensePrefix(log: seq<Row>, n: nat)
    requires Dense(log) && n <= |log|
    ensures Dense(log[..n])
  {
    forall run, i | 0 <= i < |RowsOf(log[..n], run)|
      ensures RowsOf(log[..n], run)[i].sequence == i
    {
      RowsOfPrefix(log, n, run);
      assert RowsOf(log[..n], run)[i] == RowsOf(log, run)[i];
    }
  }

  /** The heart of the protocol: with the sequence read from any committed prefix, however stale, the
      constraints let an insert through only if it extends the run by exactly the next number. */
  lemma StaleNumberIsArbitrated(log: seq<Row>, seen: nat, row: Row)
    requires Consistent(log) && seen <= |log|
    requires row.sequence == NextSequence(log[..seen], row.run)
    ensures 0 <= row.sequence <= |RowsOf(log, row.run)|
    ensures Insertable(log, row) ==> row.sequence == |RowsOf(log, row.run)| && Consistent(log + [row])
  {
    DensePrefix(log, seen);
    MaxOfDense(log[..seen], row.run);
    RowsOfPrefix(log, seen, row.run);
    RowsOfMembers(log, row.run);
    if row.sequence < |RowsOf(log, row.run)| {
      var taken := RowsOf(log, row.run)[row.sequence];
      assert taken in log;
    } else if Insertable(log, row) {
      InsertKeepsConsistent(log, row);
    }
  }

  lemma InsertKeepsConsistent(log: seq<Row>, row: Row)
    requires Consistent(log) && Insertable(log, row) && row.sequence == |RowsOf(log, row.run)|
    ensures Consistent(log + [row])
  {
    var log' := log + [row];
    assert log'[..|log'| - 1] == log;
    forall run, i | 0 <= i < |RowsOf(log', run)|
      ensures RowsOf(log', run)[i].sequence == i
    {
      if i < |RowsOf(log, run)| {
        assert RowsOf(log', run)[i] == RowsOf(log, run)[i];
      }
    }
  }

  lemma FreshNumberIsInsertable(log: seq<Row>, row: Row)
    requires Consistent(log)
    requires row.sequence == NextSequence(log, row.run)
    requires forall x :: x in log ==> x.eventId != row.eventId
    ensures Insertable(log, row)
  {
    MaxOfDense(log, row.run);
    RowsOfMembers(log, row.run);
    forall x | x in log
      ensures !(x.run == row.run && x.sequence == row.sequence)
    {
      if x.run == row.run {
        var i :| 0 <= i < |RowsOf(log, row.run)| && RowsOf(log, row.run)[i] == x;
      }
    }
  }

  // A row that can come between a call's reads and its insert: one of its run, or one with an id it tried.
  predicate Overtakes(row: Row, run: RunId, ids: set<EventId>) { row.run == run || row.eventId in ids }

  function Overtakers(rows: seq<Row>, run: RunId, ids: set<EventId>): (n: nat)
    ensures n <= |rows|
  {
    if rows == [] then 0
    else Overtakers(rows[..|rows| - 1], run, ids) + if Overtakes(rows[|rows| - 1], run, ids) then 1 else 0
  }

  lemma {:induction false} OvertakersJoin(a: seq<Row>, b: seq<Row>, run: RunId, ids: set<EventId>)
    ensures Overtakers(a + b, run, ids) == Overtakers(a, run, ids) + Overtakers(b, run, ids)
  {
    if b == [] {
      assert a + b == a;
    } else {
      OvertakersJoin(a, b[..|b| - 1], run, ids);
      assert (a + b)[..|a + b| - 1] == a + b[..|b| - 1];
    }
  }

  lemma {:induction false} OneOvertaker(rows: seq<Row>, run: RunId, ids: set<EventId>, row: Row)
    requires row in rows && Overtakes(row, run, ids)
    ensures Overtakers(rows, run, ids) >= 1
  {
    if row != rows[|rows| - 1] { OneOvertaker(rows[..|rows| - 1], run, ids, row); }
  }

  lemma {:induction false} MoreIdsMoreOvertakers(rows: seq<Row>, run: RunId, ids: set<EventId>, more: set<EventId>)
    requires ids <= more
    ensures Overtakers(rows, run, ids) <= Overtakers(rows, run, more)
  {
    if rows != [] { MoreIdsMoreOvertakers(rows[..|rows| - 1], run, ids, more); }
  }

  lemma {:induction false} MaxIsAbove(log: seq<Row>, row: Row)
    requires row in log
    ensures row.sequence <= MaxSequence(log, row.run)
  {
    if row in log[..|log| - 1] { MaxIsAbove(log[..|log| - 1], row); }
  }

  // A refused insert is evidence of a row of its run or of its id, committed since the id was looked up.
  lemma RefusalMeansNewCommit(log: seq<Row>, base: nat, seen: nat, row: Row)
    requires base <= seen <= |log|
    requires row.sequence == NextSequence(log[..seen], row.run)
    requires forall x :: x in log[..base] ==> x.eventId != row.eventId
    requires !Insertable(log, row)
    ensures base < |log| && Overtakers(log[base..], row.run, {row.eventId}) >= 1
  {
    var x :| x in log && (x.eventId == row.eventId || (x.run == row.run && x.sequence == row.sequence));
    var i :| 0 <= i < |log| && log[i] == x;
    if i < base {
      assert log[..base][i] == x && log[..seen][i] == x;
      MaxIsAbove(log[..seen], x);
    } else {
      assert log[base..][i - base] == x;
      OneOvertaker(log[base..], row.run, {row.eventId}, x);
    }
  }

  // --------------------------------------------------------------------------------------------
  // The protocol
  // --------------------------------------------------------------------------------------------

  /** Where a call stands. `callBase` and `base` are the table's length when the call and its current
      attempt began; `ids` are the event ids it has tried; `seen` is the length of the committed prefix
      that its MAX was read from. */
  datatype Phase =
    | Trying(req: Request, callBase: nat, ids: set<EventId>, attempt: nat, base: nat)
    | Checked(req: Request, callBase: nat, ids: set<EventId>, attempt: nat, base: nat, eid: EventId)
    | Numbered(req: Request, callBase: nat, ids: set<EventId>, attempt: nat, base: nat, eid: EventId,
               seen: nat, sequence: int)
    | Returned(req: Request, row: Row)
    | GaveUp(req: Request, callBase: nat, ids: set<EventId>)
    | Refused(req: Request, error: Error)

  datatype State = State(runs: map<RunId, Tenant>, log: seq<Row>, calls: map<CallId, Phase>)

  datatype Step =
    | CreateRun(run: RunId, tenant: Tenant)
    | Begin(c: CallId, req: Request)
    | Check(c: CallId, generated: EventId, seen: nat)
    | Number(c: CallId, seen: nat)
    | Insert(c: CallId)

  function MakeRow(req: Request, eid: EventId, sequence: int, c: CallId): Row {
    Row(eid, req.run, sequence, req.kind, req.data, req.sensitive, req.safeForUi, c)
  }

  function EventIdFor(req: Request, generated: EventId): EventId {
    if req.eventId != "" then req.eventId else generated
  }

  predicate Enabled(s: State, step: Step) {
    match step
    case CreateRun(run, _) => run !in s.runs
    case Begin(c, _) => c !in s.calls
    case Check(c, _, seen) => c in s.calls && s.calls[c].Trying? && s.calls[c].base <= seen <= |s.log|
    case Number(c, seen) => c in s.calls && s.calls[c].Checked? && s.calls[c].base <= seen <= |s.log|
    case Insert(c) => c in s.calls && s.calls[c].Numbered?
  }

  function Apply(s: State, step: Step): State
    requires Enabled(s, step)
  {
    match step
    case CreateRun(run, tenant) => s.(runs := s.runs[run := tenant])
    case Begin(c, req) =>
      if req.sensitive && req.safeForUi then s.(calls := s.calls[c := Refused(req, ContradictoryFlags)])
      else s.(calls := s.calls[c := Trying(req, |s.log|, {}, 1, |s.log|)])
    case Check(c, generated, seen) =>
      var p := s.calls[c];
      var eid := EventIdFor(p.req, generated);
      if p.req.run !in s.runs || s.runs[p.req.run] != p.req.tenant then
        s.(calls := s.calls[c := Refused(p.req, RunNotFound)])
      else (match FindEvent(s.log[..seen], eid)
            case Some(dup) => s.(calls := s.calls[c := Returned(p.req, dup)])
            case None => s.(calls := s.calls[c := Checked(p.req, p.callBase, p.ids + {eid}, p.attempt, p.base, eid)]))
    case Number(c, seen) =>
      var p := s.calls[c];
      s.(calls := s.calls[c := Numbered(p.req, p.callBase, p.ids, p.attempt, p.base, p.eid, seen,
                                        NextSequence(s.log[..seen], p.req.run))])
    case Insert(c) =>
      var p := s.calls[c];
      var row := MakeRow(p.req, p.eid, p.sequence, c);
      if Insertable(s.log, row) then
        s.(log := s.log + [row], calls := s.calls[c := Returned(p.req, row)])
      else if p.attempt < MAX_ATTEMPTS then
        s.(calls := s.calls[c := Trying(p.req, p.callBase, p.ids, p.attempt + 1, |s.log|)])
      else
        s.(calls := s.calls[c := GaveUp(p.req, p.callBase, p.ids)])
  }

  // Nothing that can happen is left out: a new call can begin at any time, and a call that is under way can read
  // the table as it was at any moment since its attempt began.
  lemma EveryStepIsPossible(s: State, c: CallId, req: Request, generated: EventId, seen: nat)
    ensures c !in s.calls ==> Enabled(s, Begin(c, req))
    ensures c in s.calls && s.calls[c].Trying? && s.calls[c].base <= seen && seen <= |s.log| ==>
              Enabled(s, Check(c, generated, seen))
    ensures c in s.calls && s.calls[c].Checked? && s.calls[c].base <= seen && seen <= |s.log| ==>
              Enabled(s, Number(c, seen))
    ensures c in s.calls && s.calls[c].Numbered? ==> Enabled(s, Insert(c))
  {
  }

  ghost predicate Initial(s: State) {
    s.log == [] && s.calls == map[]
  }

  // In the rows from `from` up to `to`, every attempt made so far was overtaken.
  ghost predicate Overtaken(log: seq<Row>, req: Request, ids: set<EventId>, from: nat, to: nat, attempts: nat) {
    && from <= to <= |log|
    && (req.eventId != "" ==> ids <= {req.eventId})
    && Overtakers(log[from..to], req.run, ids) >= attempts
  }

  // What a call in phase `p` knows about the table.
  ghost predicate PhaseOk(log: seq<Row>, p: Phase) {
    match p
    case Trying(req, callBase, ids, attempt, base) =>
      1 <= attempt <= MAX_ATTEMPTS && Overtaken(log, req, ids, callBase, base, attempt - 1)
    case Checked(req, callBase, ids, attempt, base, eid) =>
      && 1 <= attempt <= MAX_ATTEMPTS && Overtaken(log, req, ids, callBase, base, attempt - 1)
      && (req.eventId != "" ==> eid == req.eventId) && eid in ids
      && (forall x :: x in log[..base] ==> x.eventId != eid)
    case Numbered(req, callBase, ids, attempt, base, eid, seen, sequence) =>
      && 1 <= attempt <= MAX_ATTEMPTS && Overtaken(log, req, ids, callBase, base, attempt - 1) && base <= seen <= |log|
      && (req.eventId != "" ==> eid == req.eventId) && eid in ids
      && (forall x :: x in log[..base] ==> x.eventId != eid)
      && sequence == NextSequence(log[..seen], req.run)
    case Returned(req, row) => row in log && (req.eventId != "" ==> row.eventId == req.eventId)
    case GaveUp(req, callBase, ids) => Overtaken(log, req, ids, callBase, |log|, MAX_ATTEMPTS)
    case Refused(_, _) => true
  }

  ghost predicate Inv(s: State) {
    && Consistent(s.log)
    && (forall c :: c in s.calls ==> PhaseOk(s.log, s.calls[c]))
    && (forall x :: x in s.log ==> x.author in s.calls && s.calls[x.author].Returned? && s.calls[x.author].row == x)
  }

  lemma OvertakenGrows(log: seq<Row>, log': seq<Row>, req: Request, ids: set<EventId>, from: nat, to: nat,
                       attempts: nat)
    requires Overtaken(log, req, ids, from, to, attempts) && log <= log'
    ensures Overtaken(log', req, ids, from, to, attempts)
    ensures to == |log| ==> Overtaken(log', req, ids, from, |log'|, attempts)
  {
    hide Overtakers;
    assert log'[from..to] == log[from..to];
    OvertakersJoin(log'[from..to], log'[to..], req.run, ids);
    assert log'[from..to] + log'[to..] == log'[from..] == log'[from..|log'|];
  }

  // One more refused attempt.
  lemma OvertakenAgain(log: seq<Row>, req: Request, ids: set<EventId>, from: nat, base: nat, attempts: nat,
                       eid: EventId)
    requires Overtaken(log, req, ids, from, base, attempts) && eid in ids
    requires Overtakers(log[base..], req.run, {eid}) >= 1
    ensures Overtaken(log, req, ids, from, |log|, attempts + 1)
  {
    OvertakersJoin(log[from..base], log[base..], req.run, ids);
    assert log[from..base] + log[base..] == log[from..] == log[from..|log|];
    MoreIdsMoreOvertakers(log[base..], req.run, {eid}, ids);
  }

  lemma PhaseOkGrows(log: seq<Row>, log': seq<Row>, p: Phase)
    requires PhaseOk(log, p) && log <= log'
    ensures PhaseOk(log', p)
  {
    hide Overtaken;
    forall n | 0 <= n <= |log|
      ensures log'[..n] == log[..n]
    {
    }
    match p
    case Returned(_, row) =>
      var i :| 0 <= i < |log| && log[i] == row;
      assert log'[i] == row;
    case GaveUp(req, callBase, ids) => OvertakenGrows(log, log', req, ids, callBase, |log|, MAX_ATTEMPTS);
    case Refused(_, _) =>
    case _ => OvertakenIsInside(log, p); OvertakenGrows(log, log', p.req, p.ids, p.callBase, p.base, p.attempt - 1);
  }

  lemma OvertakenIsInside(log: seq<Row>, p: Phase)
    requires PhaseOk(log, p) && (p.Trying? || p.Checked? || p.Numbered?)
    ensures p.callBase <= p.base <= |log|
  {
  }

  lemma CallsKeepTheirPhase(s: State, s': State, c: CallId)
    requires Inv(s) && s.log <= s'.log
    requires c in s'.calls && PhaseOk(s'.log, s'.calls[c])
    requires s'.calls == s.calls[c := s'.calls[c]]
    ensures forall d :: d in s'.calls ==> PhaseOk(s'.log, s'.calls[d])
  {
    forall d | d in s'.calls
      ensures PhaseOk(s'.log, s'.calls[d])
    {
      if d != c { PhaseOkGrows(s.log, s'.log, s.calls[d]); }
    }
  }

  lemma CommitKeepsInv(s: State, c: CallId)
    requires Inv(s) && c in s.calls && s.calls[c].Numbered?
    requires Insertable(s.log, MakeRow(s.calls[c].req, s.calls[c].eid, s.calls[c].sequence, c))
    ensures Inv(Apply(s, Insert(c)))
  {
    var p := s.calls[c];
    var row := MakeRow(p.req, p.eid, p.sequence, c);
    var s' := Apply(s, Insert(c));
    StaleNumberIsArbitrated(s.log, p.seen, row);
    assert row in s'.log;
    CallsKeepTheirPhase(s, s', c);
    forall x | x in s'.log
      ensures x.author in s'.calls && s'.calls[x.author].Returned? && s'.calls[x.author].row == x
    {
      if x in s.log {
        assert x.author != c;
      } else {
        assert x == row;
      }
    }
  }

  lemma RetryKeepsInv(s: State, c: CallId)
    requires Inv(s) && c in s.calls && s.calls[c].Numbered?
    requires !Insertable(s.log, MakeRow(s.calls[c].req, s.calls[c].eid, s.calls[c].sequence, c))
    ensures Inv(Apply(s, Insert(c)))
  {
    hide Overtaken, NextSequence, Insertable;
    var p := s.calls[c];
    RefusalMeansNewCommit(s.log, p.base, p.seen, MakeRow(p.req, p.eid, p.sequence, c));
    OvertakenAgain(s.log, p.req, p.ids, p.callBase, p.base, p.attempt - 1, p.eid);
    CallsKeepTheirPhase(s, Apply(s, Insert(c)), c);
  }

  lemma CheckKeepsInv(s: State, c: CallId, generated: EventId, seen: nat)
    requires Inv(s) && Enabled(s, Check(c, generated, seen))
    ensures Inv(Apply(s, Check(c, generated, seen)))
  {
    var s' := Apply(s, Check(c, generated, seen));
    var p := s.calls[c];
    var found := FindEvent(s.log[..seen], EventIdFor(p.req, generated));
    assert PhaseOk(s'.log, s'.calls[c]) by {
      if found.None? {
        assert s.log[..p.base] <= s.log[..seen];
        MoreIdsMoreOvertakers(s.log[p.callBase..p.base], p.req.run, p.ids, p.ids + {EventIdFor(p.req, generated)});
      }
    }
    CallsKeepTheirPhase(s, s', c);
  }

  lemma StepKeepsInv(s: State, step: Step)
    requires Inv(s) && Enabled(s, step)
    ensures Inv(Apply(s, step))
  {
    match step
    case CreateRun(run, tenant) =>
    case Begin(c, req) => CallsKeepTheirPhase(s, Apply(s, step), c);
    case Check(c, generated, seen) => CheckKeepsInv(s, c, generated, seen);
    case Number(c, seen) => CallsKeepTheirPhase(s, Apply(s, step), c);
    case Insert(c) =>
      var p := s.calls[c];
      if Insertable(s.log, MakeRow(p.req, p.eid, p.sequence, c)) {
        CommitKeepsInv(s, c);
      } else {
        RetryKeepsInv(s, c);
      }
  }

  // --------------------------------------------------------------------------------------------
  // Whole behaviours
  // --------------------------------------------------------------------------------------------

  /** A behaviour: any interleaving of any number of calls. */
  datatype Behaviour = Behaviour(states: seq<State>, steps: seq<Step>)

  ghost predicate IsBehaviour(b: Behaviour) {
    && |b.states| == |b.steps| + 1
    && Initial(b.states[0])
    && forall i {:trigger b.steps[i]} :: 0 <= i < |b.steps| ==>
         Enabled(b.states[i], b.steps[i]) && b.states[i + 1] == Apply(b.states[i], b.steps[i])
  }

  lemma {:induction false} ReachableInv(b: Behaviour, i: nat)
    requires IsBehaviour(b) && i < |b.states|
    ensures Inv(b.states[i])
  {
    if i > 0 {
      ReachableInv(b, i - 1);
      var step := b.steps[i - 1];
      StepKeepsInv(b.states[i - 1], step);
    }
  }

  /** Whatever the interleaving and however stale the reads, each run's committed sequences are
      exactly 0..n-1, commit order is sequence order, and no event id has two rows. */
  lemma LogIsDense(b: Behaviour, i: nat, run: RunId)
    requires IsBehaviour(b) && i < |b.states|
    ensures var rows := RowsOf(b.states[i].log, run);
            forall k :: 0 <= k < |rows| ==> rows[k].sequence == k
    ensures OneRowPerEvent(b.states[i].log)
  {
    ReachableInv(b, i);
  }

  /** Rows are never changed, reordered or removed. */
  lemma {:induction false} LogOnlyGrows(b: Behaviour, i: nat, j: nat)
    requires IsBehaviour(b) && i <= j < |b.states|
    ensures b.states[i].log <= b.states[j].log
    decreases j
  {
    if i < j {
      LogOnlyGrows(b, i, j - 1);
      var step := b.steps[j - 1];
    }
  }

  // The table's length when the call began, as long as the call still has use for it.
  ghost predicate BeganAt(p: Phase, n: nat) {
    match p
    case Returned(_, _) => true
    case Refused(_, _) => true
    case _ => p.callBase == n
  }

  lemma {:induction false} CallBaseIsFixed(b: Behaviour, i: nat, j: nat, c: CallId)
    requires IsBehaviour(b) && i < j < |b.states|
    requires b.steps[i].Begin? && b.steps[i].c == c
    ensures c in b.states[j].calls && BeganAt(b.states[j].calls[c], |b.states[i].log|)
    decreases j
  {
    if j > i + 1 {
      CallBaseIsFixed(b, i, j - 1, c);
      var step := b.steps[j - 1];
    }
  }

  /** A call that raises ConflictError was overtaken four times: between its start (step `i`) and its end, at
      least four rows were committed by others that are of its own run or carry an event id that it
      tried, which is only its own id if it was given one. */
  lemma GivingUpTakesFourOvertakers(b: Behaviour, i: nat, j: nat, c: CallId)
    requires IsBehaviour(b) && i < j < |b.states|
    requires b.steps[i].Begin? && b.steps[i].c == c
    requires c in b.states[j].calls && b.states[j].calls[c].GaveUp?
    ensures b.states[i].log <= b.states[j].log
    ensures var p := b.states[j].calls[c];
            && Overtakers(b.states[j].log[|b.states[i].log|..], p.req.run, p.ids) >= 4
            && (p.req.eventId != "" ==> p.ids <= {p.req.eventId})
    ensures forall x :: x in b.states[j].log ==> x.author != c
  {
    hide Overtakers, IsBehaviour;
    LogOnlyGrows(b, i, j);
    CallBaseIsFixed(b, i, j, c);
    ReachableInv(b, j);
    var log := b.states[j].log;
    TailIsSlice(log, |b.states[i].log|);
  }

  lemma TailIsSlice(log: seq<Row>, from: nat)
    requires from <= |log|
    ensures log[from..|log|] == log[from..]
  {
  }

  /** Appending is idempotent on the event id: all calls that return for one supplied id, at whatever
      time, return the same row. */
  lemma SameEventIdSameRow(b: Behaviour, i: nat, j: nat, c: CallId, d: CallId)
    requires IsBehaviour(b) && i <= j < |b.states|
    requires c in b.states[i].calls && b.states[i].calls[c].Returned?
    requires d in b.states[j].calls && b.states[j].calls[d].Returned?
    requires b.states[i].calls[c].req.eventId == b.states[j].calls[d].req.eventId != ""
    ensures b.states[i].calls[c].row == b.states[j].calls[d].row
  {
    ReachableInv(b, i);
    ReachableInv(b, j);
    LogOnlyGrows(b, i, j);
    var log := b.states[j].log;
    PhaseOkGrows(b.states[i].log, log, b.states[i].calls[c]);
    var m :| 0 <= m < |log| && log[m] == b.states[i].calls[c].row;
    var n :| 0 <= n < |log| && log[n] == b.states[j].calls[d].row;
  }

  /** A call commits at most one row, and a call that fails commits none. */
  lemma AtMostOneRowPerCall(b: Behaviour, i: nat, m: nat, n: nat)
    requires IsBehaviour(b) && i < |b.states|
    requires m < n < |b.states[i].log|
    ensures b.states[i].log[m].author != b.states[i].log[n].author
    ensures var c := b.states[i].log[m].author;
            c in b.states[i].calls && b.states[i].calls[c].Returned?
  {
    ReachableInv(b, i);
    var log := b.states[i].log;
    assert log[m] in log && log[n] in log;
  }

  // --------------------------------------------------------------------------------------------
  // What is stored, and what is refused
  // --------------------------------------------------------------------------------------------

  // The row carries what the request asked to store.
  predicate Carries(x: Row, req: Request) {
    && x.run == req.run && x.kind == req.kind && x.data == req.data
    && x.sensitive == req.sensitive && x.safeForUi == req.safeForUi
    && (req.eventId != "" ==> x.eventId == req.eventId)
  }

  // Contradictory flags are refused, and nothing else is refused for them.
  predicate FlagsJudged(p: Phase) {
    p.req.sensitive && p.req.safeForUi <==> p.Refused? && p.error == ContradictoryFlags
  }

  ghost predicate Contents(s: State) {
    && (forall c :: c in s.calls ==> FlagsJudged(s.calls[c]))
    && (forall x :: x in s.log ==>
          x.author in s.calls && s.calls[x.author].Returned? && Carries(x, s.calls[x.author].req))
  }

  lemma StepKeepsContents(s: State, step: Step)
    requires Inv(s) && Contents(s) && Enabled(s, step)
    ensures Contents(Apply(s, step))
  {
    hide NextSequence, Insertable, Overtaken, FindEvent, Consistent;
    var s' := Apply(s, step);
    forall x | x in s'.log
      ensures x.author in s'.calls && s'.calls[x.author].Returned? && Carries(x, s'.calls[x.author].req)
    {
      if x in s.log { assert s.calls[x.author].Returned?; }
    }
  }

  lemma {:induction false} ReachableContents(b: Behaviour, i: nat)
    requires IsBehaviour(b) && i < |b.states|
    ensures Contents(b.states[i])
  {
    if i > 0 {
      hide Contents, Inv;
      ReachableContents(b, i - 1);
      ReachableInv(b, i - 1);
      var step := b.steps[i - 1];
      StepKeepsContents(b.states[i - 1], step);
    }
  }

  /** Over every behaviour: a committed row carries exactly what its author's request asked to store, under the
      id that it supplied; no row is both sensitive and safe for the UI. */
  lemma RowsCarryTheirRequests(b: Behaviour, i: nat, x: Row)
    requires IsBehaviour(b) && i < |b.states| && x in b.states[i].log
    ensures x.author in b.states[i].calls
    ensures var req := b.states[i].calls[x.author].req;
            && x.run == req.run && x.kind == req.kind && x.data == req.data
            && x.sensitive == req.sensitive && x.safeForUi == req.safeForUi
            && (req.eventId != "" ==> x.eventId == req.eventId)
    ensures !(x.sensitive && x.safeForUi)
  {
    ReachableContents(b, i);
  }

  // A call keeps its request, and if it is refused for its run, the run was not its tenant's when it began.
  predicate BegunWith(p: Phase, req: Request, runs: map<RunId, Tenant>) {
    && p.req == req
    && (p.Refused? && p.error == RunNotFound ==> req.run !in runs || runs[req.run] != req.tenant)
  }

  lemma {:induction false} StaysBegunWith(b: Behaviour, i: nat, j: nat, c: CallId)
    requires IsBehaviour(b) && i < j < |b.states|
    requires b.steps[i].Begin? && b.steps[i].c == c
    ensures c in b.states[j].calls && BegunWith(b.states[j].calls[c], b.steps[i].req, b.states[i].runs)
    ensures forall run :: run in b.states[i].runs ==>
              run in b.states[j].runs && b.states[j].runs[run] == b.states[i].runs[run]
    decreases j
  {
    hide FindEvent, NextSequence, Insertable;
    if j > i + 1 {
      StaysBegunWith(b, i, j - 1, c);
      var step := b.steps[j - 1];
    }
  }

  /** When a call is refused, over every behaviour: for its flags if and only if they contradict each other, and
      for its run only if that was not registered to its tenant when the call began. */
  lemma RefusalsAreDue(b: Behaviour, i: nat, j: nat, c: CallId)
    requires IsBehaviour(b) && i < j < |b.states|
    requires b.steps[i].Begin? && b.steps[i].c == c
    ensures c in b.states[j].calls
    ensures var p, req, runs := b.states[j].calls[c], b.steps[i].req, b.states[i].runs;
            && (p == Refused(req, ContradictoryFlags) <==> req.sensitive && req.safeForUi)
            && (p == Refused(req, RunNotFound) ==> req.run !in runs || runs[req.run] != req.tenant)
            && (p.Refused? ==> p.req == req)
  {
    StaysBegunWith(b, i, j, c);
    ReachableContents(b, j);
  }

  // --------------------------------------------------------------------------------------------
  // The method itself
  // --------------------------------------------------------------------------------------------

  datatype Outcome = Stored(row: Row) | Found(row: Row) | Conflict | Failed(error: Error)

  ghost predicate NoRowBy(log: seq<Row>, c: CallId) {
    forall x :: x in log ==> x.author != c
  }

  class EventTable {
    var runs: map<RunId, Tenant>
    var rows: seq<Row>

    constructor ()
      ensures rows == [] && runs == map[]
    {
      rows := [];
      runs := map[];
    }

    /** Whatever other transactions commit while this call is between two of its own statements: any
        number of consistent rows, none of them this call's. */
    method OtherTransactions(c: CallId)
      requires Consistent(rows) && NoRowBy(rows, c)
      modifies this
      ensures Consistent(rows) && NoRowBy(rows, c)
      ensures old(rows) <= rows
      ensures runs.Keys >= old(runs).Keys && forall r :: r in old(runs) ==> runs[r] == old(runs)[r]
    {
    }

    /** One attempt: look up the id, read the maximum, insert, with interference at every point. */
    method Attempt(c: CallId, req: Request, eid: EventId) returns (out: Outcome)
      requires Consistent(rows) && NoRowBy(rows, c) && (req.eventId != "" ==> eid == req.eventId)
      modifies this
      ensures Consistent(rows) && old(rows) <= rows
      ensures !out.Stored? ==> NoRowBy(rows, c)
      ensures runs.Keys >= old(runs).Keys && forall r :: r in old(runs) ==> runs[r] == old(runs)[r]
      ensures out.Stored? ==>
        && Carries(out.row, req) && out.row.eventId == eid && out.row.author == c
        && out.row.sequence == |RowsOf(rows, req.run)| - 1
        && rows != [] && rows[|rows| - 1] == out.row && NoRowBy(rows[..|rows| - 1], c)
      ensures out.Found? ==> out.row in rows && out.row.eventId == eid
      ensures out.Conflict? ==> OvertakenSince(old(rows), rows, req, {eid}, 1)
      ensures out.Failed? ==> out == Failed(RunNotFound)
      ensures out.Failed? <==> req.run !in old(runs) || old(runs)[req.run] != req.tenant
    {
      hide OvertakenSince, Overtakers;
      if req.run !in runs || runs[req.run] != req.tenant {
        return Failed(RunNotFound);
      }
      OtherTransactions(c);
      ghost var base := rows;
      var dup := FindEvent(rows, eid);
      if dup.Some? {
        return Found(dup.value);
      }
      OtherTransactions(c);
      ghost var snapshot := rows;
      var sequence := NextSequence(rows, req.run);
      OtherTransactions(c);
      var row := MakeRow(req, eid, sequence, c);
      InsertIsArbitrated(base, snapshot, rows, row);
      if Insertable(rows, row) {
        rows := rows + [row];
        return Stored(row);
      }
      NewRowsCount(old(rows), base, rows, req, eid);
      return Conflict;
    }

    /** The retry loop. `generated` supplies the generated event ids. */
    method AppendNextEvent(c: CallId, req: Request, generated: nat -> EventId) returns (out: Outcome)
      requires Consistent(rows) && NoRowBy(rows, c)
      modifies this
      ensures Consistent(rows) && old(rows) <= rows
      ensures out == Failed(ContradictoryFlags) <==> req.sensitive && req.safeForUi
      ensures req.sensitive && req.safeForUi ==> rows == old(rows)
      ensures out == Failed(RunNotFound) ==> req.run !in old(runs) || old(runs)[req.run] != req.tenant
      ensures !out.Stored? ==> NoRowBy(rows, c)
      ensures out.Stored? ==>
        && Carries(out.row, req) && out.row.author == c && out.row.sequence == |RowsOf(rows, req.run)| - 1
        && !(out.row.sensitive && out.row.safeForUi)
        && (req.eventId == "" ==> exists n: nat :: n < 4 && out.row.eventId == generated(n))
        && rows != [] && rows[|rows| - 1] == out.row && NoRowBy(rows[..|rows| - 1], c)
      ensures out.Found? ==> out.row in rows && (req.eventId != "" ==> out.row.eventId == req.eventId)
      ensures out.Conflict? ==>
        OvertakenSince(old(rows), rows, req, IdsTried(req, generated, 4), 4)
    {
      if req.sensitive && req.safeForUi {
        return Failed(ContradictoryFlags);
      }
      hide OvertakenSince, IdsTried, Consistent, NoRowBy, RowsOf;
      NoneOvertaken(rows, req, generated);
      for attempt := 0 to MAX_ATTEMPTS
        invariant Consistent(rows) && NoRowBy(rows, c)
        invariant runs.Keys >= old(runs).Keys && forall r :: r in old(runs) ==> runs[r] == old(runs)[r]
        invariant old(rows) <= rows && OvertakenSince(old(rows), rows, req, IdsTried(req, generated, attempt), attempt)
      {
        ghost var before := rows;
        var eid := EventIdFor(req, generated(attempt));
        out := Attempt(c, req, eid);
        if !out.Conflict? {
          return;
        }
        OneMoreTried(old(rows), before, rows, req, generated, attempt);
      }
      return Conflict;
    }
  }

  // The event ids of a call's first `n` attempts.
  function IdsTried(req: Request, generated: nat -> EventId, n: nat): set<EventId> {
    if n == 0 then {} else IdsTried(req, generated, n - 1) + {EventIdFor(req, generated(n - 1))}
  }

  // At least `n` of the rows since `start` could stop a call of this run with these ids.
  predicate OvertakenSince(start: seq<Row>, log: seq<Row>, req: Request, ids: set<EventId>, n: nat) {
    start <= log && Overtakers(log[|start|..], req.run, ids) >= n
  }

  lemma NoneOvertaken(log: seq<Row>, req: Request, generated: nat -> EventId)
    ensures OvertakenSince(log, log, req, IdsTried(req, generated, 0), 0)
  {
  }

  lemma OneMoreTried(start: seq<Row>, before: seq<Row>, log: seq<Row>, req: Request, generated: nat -> EventId, n: nat)
    requires OvertakenSince(start, before, req, IdsTried(req, generated, n), n)
    requires OvertakenSince(before, log, req, {EventIdFor(req, generated(n))}, 1)
    ensures OvertakenSince(start, log, req, IdsTried(req, generated, n + 1), n + 1)
  {
    hide Overtakers;
    OneMoreOvertaken(start, before, log, req, IdsTried(req, generated, n), EventIdFor(req, generated(n)), n);
  }

  lemma NewRowsCount(start: seq<Row>, base: seq<Row>, log: seq<Row>, req: Request, eid: EventId)
    requires start <= base <= log && Overtakers(log[|base|..], req.run, {eid}) >= 1
    ensures OvertakenSince(start, log, req, {eid}, 1)
  {
    OvertakersJoin(log[|start|..|base|], log[|base|..], req.run, {eid});
    assert log[|start|..|base|] + log[|base|..] == log[|start|..];
  }

  lemma OneMoreOvertaken(start: seq<Row>, before: seq<Row>, log: seq<Row>, req: Request, ids: set<EventId>,
                         eid: EventId, attempts: nat)
    requires start <= before <= log && Overtakers(before[|start|..], req.run, ids) >= attempts
    requires Overtakers(log[|before|..], req.run, {eid}) >= 1
    ensures Overtakers(log[|start|..], req.run, ids + {eid}) >= attempts + 1
  {
    assert log[|start|..|before|] == before[|start|..];
    assert log[|start|..|before|] + log[|before|..] == log[|start|..];
    OvertakersJoin(log[|start|..|before|], log[|before|..], req.run, ids + {eid});
    MoreIdsMoreOvertakers(before[|start|..], req.run, ids, ids + {eid});
    MoreIdsMoreOvertakers(log[|before|..], req.run, {eid}, ids + {eid});
  }

  // The insert step of one attempt, given the snapshots its two reads were answered from.
  lemma InsertIsArbitrated(base: seq<Row>, snapshot: seq<Row>, log: seq<Row>, row: Row)
    requires Consistent(log) && base <= snapshot <= log
    requires row.sequence == NextSequence(snapshot, row.run)
    requires forall x :: x in base ==> x.eventId != row.eventId
    ensures Insertable(log, row) ==>
      && Consistent(log + [row]) && row.sequence == |RowsOf(log + [row], row.run)| - 1
      && (log + [row])[..|log|] == log
    ensures !Insertable(log, row) ==> Overtakers(log[|base|..], row.run, {row.eventId}) >= 1
  {
    assert log[..|snapshot|] == snapshot && log[..|base|] == base;
    StaleNumberIsArbitrated(log, |snapshot|, row);
    if !Insertable(log, row) {
      RefusalMeansNewCommit(log, |base|, |snapshot|, row);
    } else {
      assert (log + [row])[..|log|] == log;
    }
  }
}
