/** Readers of the run event log: the repository's cursor pages (packages/persistence/repositories.py),
    the gateway's events endpoint (apps/api/routes/runs.py) and the browser client that catches up,
    streams and reconnects (ui/web/src/hooks/useRunEvents.ts, lib/api.ts, lib/agui.ts). */
module EventReader {
  import opened Wrappers
  import opened EventLog
  import opened StableSort
  import opened Text

  // --------------------------------------------------------------------------------------------
  // Pages
  // --------------------------------------------------------------------------------------------

  function SequenceOf(r: Row): int { r.sequence }

  // WHERE sequence > after
  function RowsAfter(rows: seq<Row>, after: int): seq<Row> {
    if rows == [] then []
    else (if rows[0].sequence > after then [rows[0]] else []) + RowsAfter(rows[1..], after)
  }

  // ORDER BY sequence ASC LIMIT limit
  function Page(log: seq<Row>, run: RunId, after: int, limit: nat): seq<Row> {
    var all := Sort(SequenceOf, RowsAfter(RowsOf(log, run), after));
    if |all| <= limit then all else all[..limit]
  }

  datatype PageResult = Events(events: seq<Row>) | BadLimit | NoSuchRun

  lemma {:induction false} RowsAfterMembers(rows: seq<Row>, after: int)
    ensures forall x :: x in RowsAfter(rows, after) <==> x in rows && x.sequence > after
  {
    if rows != [] {
      assert rows == [rows[0]] + rows[1..];
      RowsAfterMembers(rows[1..], after);
    }
  }

  lemma PageMembers(log: seq<Row>, run: RunId, after: int, limit: nat)
    ensures |Page(log, run, after, limit)| <= limit
    ensures forall x :: x in Page(log, run, after, limit) ==> x in log && x.run == run && x.sequence > after
  {
    hide RowsOf, RowsAfter, Sort;
    RowsOfMembers(log, run);
    RowsAfterMembers(RowsOf(log, run), after);
    MembersOfSort(SequenceOf, RowsAfter(RowsOf(log, run), after));
  }

  function ListEvents(runs: map<RunId, Tenant>, log: seq<Row>, run: RunId, tenant: Tenant,
                      after: int, limit: int): (r: PageResult)
    ensures r.Events? <==> 1 <= limit <= 5000 && run in runs && runs[run] == tenant
    ensures r.BadLimit? <==> limit < 1 || limit > 5000
    ensures r.Events? ==> |r.events| <= limit
    ensures r.Events? ==> forall x :: x in r.events ==> x in log && x.run == run && x.sequence > after
    ensures r.Events? && Consistent(log) && after >= -1 ==>
              var rows := RowsOf(log, run);
              var lo := if after + 1 <= |rows| then after + 1 else |rows|;
              var hi := if lo + limit <= |rows| then lo + limit else |rows|;
              r.events == rows[lo..hi]
  {
    if limit < 1 || limit > 5000 then BadLimit
    else if run !in runs || runs[run] != tenant then NoSuchRun
    else
      PageMembers(log, run, after, limit);
      ListedIsSlice(log, run, after, limit);
      Events(Page(log, run, after, limit))
  }

  lemma ListedIsSlice(log: seq<Row>, run: RunId, after: int, limit: nat)
    ensures Consistent(log) && after >= -1 ==>
              var rows := RowsOf(log, run);
              var lo := if after + 1 <= |rows| then after + 1 else |rows|;
              var hi := if lo + limit <= |rows| then lo + limit else |rows|;
              Page(log, run, after, limit) == rows[lo..hi]
  {
    if Consistent(log) && after >= -1 { PageIsSlice(log, run, after, limit); }
  }

  lemma {:induction false} RowsAfterOfDense(rows: seq<Row>, start: int, after: int)
    requires forall i :: 0 <= i < |rows| ==> rows[i].sequence == start + i
    ensures RowsAfter(rows, after) ==
            if after < start then rows else if after - start + 1 <= |rows| then rows[after - start + 1..] else []
  {
    if rows != [] {
      assert forall i :: 0 <= i < |rows[1..]| ==> rows[1..][i] == rows[i + 1];
      RowsAfterOfDense(rows[1..], start + 1, after);
      assert rows == [rows[0]] + rows[1..];
    }
  }

  /** A page is the contiguous slice of the run's rows just behind the cursor. */
  lemma PageIsSlice(log: seq<Row>, run: RunId, after: int, limit: nat)
    requires Consistent(log) && after >= -1
    ensures var rows := RowsOf(log, run);
            var lo := if after + 1 <= |rows| then after + 1 else |rows|;
            var hi := if lo + limit <= |rows| then lo + limit else |rows|;
            Page(log, run, after, limit) == rows[lo..hi]
  {
    hide RowsOf, RowsAfter, Sort;
    var rows := RowsOf(log, run);
    RowsAfterOfDense(rows, 0, after);
    SortedIsFixed(SequenceOf, RowsAfter(rows, after));
  }

  /** The reader is told it has caught up exactly when it has. */
  lemma EmptyPageMeansCaughtUp(log: seq<Row>, run: RunId, after: int, limit: nat)
    requires Consistent(log) && after >= -1 && limit > 0
    ensures Page(log, run, after, limit) == [] <==> |RowsOf(log, run)| <= after + 1
  {
    PageIsSlice(log, run, after, limit);
  }

  // `page` is a contiguous piece: the slice of the run's rows just behind `cursor`.
  ghost predicate SliceAfter(rows: seq<Row>, cursor: int, page: seq<Row>)
    requires cursor >= -1
  {
    page == [] || (cursor + 1 + |page| <= |rows| && page == rows[cursor + 1..cursor + 1 + |page|])
  }

  /** One poll: the table as it was then, and the page limit asked for. */
  datatype Poll = Poll(log: seq<Row>, limit: nat)

  // The cursor after reading a page.
  function Advance(cursor: int, page: seq<Row>): int {
    if page == [] then cursor else page[|page| - 1].sequence
  }

  // Everything a cursor reader receives over a series of polls.
  function ReadAll(polls: seq<Poll>, run: RunId, cursor: int): seq<Row> {
    if polls == [] then []
    else
      var page := Page(polls[0].log, run, cursor, polls[0].limit);
      page + ReadAll(polls[1..], run, Advance(cursor, page))
  }

  /** Reading by cursor loses nothing and repeats nothing: while the table grows between the polls, the
      pages concatenate to one contiguous slice of the final table, right behind the first cursor, -1 for all. */
  lemma {:induction false} PagesConcatenate(polls: seq<Poll>, log: seq<Row>, run: RunId, cursor: int)
    requires Consistent(log) && cursor >= -1
    requires forall i :: 0 <= i < |polls| ==> Consistent(polls[i].log) && polls[i].log <= log
    ensures SliceAfter(RowsOf(log, run), cursor, ReadAll(polls, run, cursor))
  {
    hide Page, RowsOf, Consistent, Advance;
    if polls != [] {
      var page := Page(polls[0].log, run, cursor, polls[0].limit);
      OnePoll(polls[0], log, run, cursor);
      PagesConcatenate(polls[1..], log, run, cursor + |page|);
      SlicesJoin(RowsOf(log, run), cursor, page, ReadAll(polls[1..], run, cursor + |page|));
    }
  }

  lemma SlicesJoin(rows: seq<Row>, cursor: int, a: seq<Row>, b: seq<Row>)
    requires cursor >= -1 && SliceAfter(rows, cursor, a) && SliceAfter(rows, cursor + |a|, b)
    ensures SliceAfter(rows, cursor, a + b)
  {
    if a == [] {
      assert a + b == b;
    } else if b == [] {
      assert a + b == a;
    } else {
      assert rows[cursor + 1..cursor + 1 + |a + b|] == a + b;
    }
  }

  lemma OnePoll(p: Poll, log: seq<Row>, run: RunId, cursor: int)
    requires cursor >= -1 && Consistent(log) && Consistent(p.log) && p.log <= log
    ensures var page := Page(p.log, run, cursor, p.limit);
            var rows := RowsOf(log, run);
            && Advance(cursor, page) == cursor + |page|
            && SliceAfter(rows, cursor, page)
  {
    hide RowsOf, Page, Sort;
    PageIsSlice(p.log, run, cursor, p.limit);
    assert log[..|p.log|] == p.log;
    RowsOfPrefix(log, |p.log|, run);
    assert forall i {:trigger RowsOf(log, run)[i]} :: 0 <= i < |RowsOf(log, run)| ==> RowsOf(log, run)[i].sequence == i;
  }

  // --------------------------------------------------------------------------------------------
  // The events endpoint's cursor
  // --------------------------------------------------------------------------------------------

  const DEFAULT_LIMIT: nat := 1000

  /** The Last-Event-ID header: absent, a number, or an event id. */
  datatype LastEventId = Absent | Number(n: int) | Name(eid: EventId)

  function EffectiveAfter(log: seq<Row>, run: RunId, after: nat, header: LastEventId): int {
    if after != 0 then after
    else match header
         case Absent => 0
         case Number(n) => n
         case Name(eid) =>
           match FindEvent(Page(log, run, -1, DEFAULT_LIMIT), eid)
           case Some(row) => row.sequence
           case None => 0
  }

  /** The cursor of a request: its own number unless that is 0, then a number in the header, as it is; with neither,
      or with an id that no event of the run has, 0. */
  lemma CursorOfRequest(log: seq<Row>, run: RunId, after: nat, n: int, eid: EventId)
    requires Consistent(log)
    ensures after > 0 ==> forall header :: EffectiveAfter(log, run, after, header) == after
    ensures EffectiveAfter(log, run, 0, LastEventId.Number(n)) == n && EffectiveAfter(log, run, 0, Absent) == 0
    ensures (forall x :: x in log && x.run == run ==> x.eventId != eid) ==>
              EffectiveAfter(log, run, 0, Name(eid)) == 0
  {
    PageMembers(log, run, -1, DEFAULT_LIMIT);
  }

  lemma FirstThousand(log: seq<Row>, run: RunId)
    requires Consistent(log)
    ensures Page(log, run, -1, DEFAULT_LIMIT) <= RowsOf(log, run)
    ensures |Page(log, run, -1, DEFAULT_LIMIT)|
            == if |RowsOf(log, run)| < DEFAULT_LIMIT then |RowsOf(log, run)| else DEFAULT_LIMIT
    ensures forall i {:trigger RowsOf(log, run)[i]} :: 0 <= i < |RowsOf(log, run)| ==> RowsOf(log, run)[i].sequence == i
  {
    hide RowsOf, RowsAfter, Sort;
    RowsAfterOfDense(RowsOf(log, run), 0, -1);
    SortedIsFixed(SequenceOf, RowsOf(log, run));
  }

  /** Resuming by an event's id continues with the event behind it exactly when the event is among the first
      1000; for a later one the endpoint falls back to cursor 0. Either way the page ends with the log if that comes
      first. */
  lemma ResumeByEventId(log: seq<Row>, run: RunId, k: nat, limit: nat)
    requires Consistent(log) && k < |RowsOf(log, run)|
    ensures var rows := RowsOf(log, run);
            var after := EffectiveAfter(log, run, 0, Name(rows[k].eventId));
            && after == (if k < 1000 then k else 0)
            && Page(log, run, after, limit) == Clip(rows[Min(after + 1, |rows|)..], limit)
  {
    hide RowsOf, Page, FindEvent, Consistent, Clip;
    var rows := RowsOf(log, run);
    FirstThousand(log, run);
    var first := Page(log, run, -1, DEFAULT_LIMIT);
    if k < DEFAULT_LIMIT {
      assert first[k] == rows[k];
      FindInFirst(log, run, first, rows[k]);
    } else {
      NotInFirst(log, run, k);
    }
    PageClips(log, run, if k < DEFAULT_LIMIT then k else 0, limit);
  }

  lemma PageClips(log: seq<Row>, run: RunId, after: nat, limit: nat)
    requires Consistent(log)
    ensures var rows := RowsOf(log, run); Page(log, run, after, limit) == Clip(rows[Min(after + 1, |rows|)..], limit)
  {
    hide RowsOf, Page, Consistent;
    PageIsSlice(log, run, after, limit);
  }

  function Min(a: int, b: int): int { if a < b then a else b }

  lemma IdsDiffer(log: seq<Row>, run: RunId, n: nat, k: nat)
    requires Consistent(log) && n < k < |RowsOf(log, run)|
    ensures RowsOf(log, run)[n].eventId != RowsOf(log, run)[k].eventId
  {
    hide RowsOf;
    var rows := RowsOf(log, run);
    RowsOfMembers(log, run);
    assert rows[n] in log && rows[k] in log;
    var i :| 0 <= i < |log| && log[i] == rows[n];
    var j :| 0 <= j < |log| && log[j] == rows[k];
    assert rows[n].sequence == n && rows[k].sequence == k;
    assert i != j;
  }

  lemma NotInFirst(log: seq<Row>, run: RunId, k: nat)
    requires Consistent(log) && DEFAULT_LIMIT <= k < |RowsOf(log, run)|
    ensures FindEvent(Page(log, run, -1, DEFAULT_LIMIT), RowsOf(log, run)[k].eventId).None?
  {
    FirstThousand(log, run);
    hide RowsOf, Page, Consistent, FindEvent;
    var rows := RowsOf(log, run);
    var first := Page(log, run, -1, DEFAULT_LIMIT);
    forall n | 0 <= n < |first|
      ensures first[n].eventId != rows[k].eventId
    {
      assert first[n] == rows[n];
      IdsDiffer(log, run, n, k);
    }
    assert forall x :: x in first ==> x.eventId != rows[k].eventId;
  }

  lemma FindInFirst(log: seq<Row>, run: RunId, first: seq<Row>, row: Row)
    requires Consistent(log) && first <= RowsOf(log, run) && row in first
    ensures FindEvent(first, row.eventId) == Some(row)
  {
    var found := FindEvent(first, row.eventId);
    RowsOfMembers(log, run);
    assert found.Some?;
    assert forall x :: x in first ==> x in RowsOf(log, run);
    var i :| 0 <= i < |log| && log[i] == row;
    var j :| 0 <= j < |log| && log[j] == found.value;
  }

  // --------------------------------------------------------------------------------------------
  // The AG-UI adapter
  // --------------------------------------------------------------------------------------------

  datatype AgUi = AgUi(kind: string, sequence: int, eventId: EventId, run: RunId, data: string)

  function AgUiSequence(e: AgUi): int { e.sequence }

  const AGUI_TYPES: map<string, string> := map[
    "run.started" := "RUN_STARTED",
    "message.delta" := "TEXT_MESSAGE_CONTENT",
    "tool.started" := "TOOL_CALL_START",
    "tool.completed" := "TOOL_CALL_FINISH",
    "agent.delegated" := "ACTIVITY",
    "finding.created" := "STATE_SNAPSHOT",
    "approval.required" := "FRONTEND_INTERACTION",
    "approval.received" := "STATE_UPDATE",
    "run.completed" := "RUN_FINISHED",
    "run.failed" := "RUN_ERROR",
    "run.cancelled" := "RUN_CANCELLED"
  ]

  predicate Renderable(r: Row) { !r.sensitive && r.safeForUi }

  function ToAgUi(r: Row): Option<AgUi> {
    if !Renderable(r) then None
    else Some(AgUi(if r.kind in AGUI_TYPES then AGUI_TYPES[r.kind] else "UNKNOWN",
                   r.sequence, r.eventId, r.run, r.data))
  }

  predicate IsTerminal(e: AgUi) { e.kind in {"RUN_FINISHED", "RUN_ERROR", "RUN_CANCELLED"} }

  // The renderable events, mapped, in order.
  function RenderAll(rows: seq<Row>): (r: seq<AgUi>) {
    if rows == [] then []
    else (match ToAgUi(rows[0]) case Some(m) => [m] case None => []) + RenderAll(rows[1..])
  }

  function BatchToAgUi(rows: seq<Row>): seq<AgUi> {
    Sort(AgUiSequence, RenderAll(rows))
  }

  predicate EndsRun(r: Row) {
    exists m :: m in BatchToAgUi([r]) && IsTerminal(m)
  }

  // `at` lists, in order, the places of the rows that may be shown: not sensitive, and marked safe for the UI.
  ghost predicate PicksShown(at: seq<nat>, rows: seq<Row>) {
    && (forall j, k :: 0 <= j < k < |at| ==> at[j] < at[k])
    && (forall k :: 0 <= k < |at| ==> at[k] < |rows|)
    && (forall i: nat :: i < |rows| ==> (i in at <==> !rows[i].sensitive && rows[i].safeForUi))
  }

  // What is shown of a row: its mapped kind with its own number, id, run and data.
  predicate ShowsRow(m: AgUi, r: Row) {
    && m.sequence == r.sequence && m.eventId == r.eventId && m.run == r.run && m.data == r.data
    && m.kind == if r.kind in AGUI_TYPES then AGUI_TYPES[r.kind] else "UNKNOWN"
  }

  // `shown` are the rows at these places, as they are shown.
  ghost predicate ShowsAt(shown: seq<AgUi>, rows: seq<Row>, at: seq<nat>) {
    PicksShown(at, rows) && |shown| == |at| && forall k :: 0 <= k < |at| ==> ShowsRow(shown[k], rows[at[k]])
  }

  // `shown` is what may be shown of the rows, in their order, each once.
  ghost predicate Shows(shown: seq<AgUi>, rows: seq<Row>) { exists at: seq<nat> :: ShowsAt(shown, rows, at) }

  lemma {:induction false} RenderAllShows(rows: seq<Row>) returns (at: seq<nat>)
    ensures ShowsAt(RenderAll(rows), rows, at)
  {
    if rows == [] {
      at := [];
    } else {
      var front, last := rows[..|rows| - 1], rows[|rows| - 1];
      var before := RenderAllShows(front);
      assert rows == front + [last];
      RenderAllAppend(front, last);
      hide RenderAll, ToAgUi, ShowsAt;
      at := if ToAgUi(last).Some? then before + [|front|] else before;
      ShowsOneMore(RenderAll(front), front, before, last);
    }
  }

  lemma PicksOneMore(at: seq<nat>, rows: seq<Row>, row: Row)
    requires PicksShown(at, rows)
    ensures PicksShown(if !row.sensitive && row.safeForUi then at + [|rows|] else at, rows + [row])
  {
    var at' := if !row.sensitive && row.safeForUi then at + [|rows|] else at;
    forall i: nat | i < |rows + [row]|
      ensures i in at' <==> !(rows + [row])[i].sensitive && (rows + [row])[i].safeForUi
    {
      if i == |rows| {
        assert i !in at;
      } else {
        assert (rows + [row])[i] == rows[i];
      }
    }
  }

  lemma ShowsOneMore(shown: seq<AgUi>, rows: seq<Row>, at: seq<nat>, row: Row)
    requires ShowsAt(shown, rows, at)
    ensures var m := ToAgUi(row);
            ShowsAt(if m.Some? then shown + [m.value] else shown, rows + [row], if m.Some? then at + [|rows|] else at)
  {
    PicksOneMore(at, rows, row);
    hide PicksShown, ShowsRow;
    assert forall k :: 0 <= k < |at| ==> at[k] < |rows| by { PicksAreInside(at, rows); }
    if ToAgUi(row).Some? { assert ShowsRow(ToAgUi(row).value, row) by { MappedShows(row); } }
  }

  lemma PicksAreInside(at: seq<nat>, rows: seq<Row>)
    requires PicksShown(at, rows)
    ensures forall k :: 0 <= k < |at| ==> at[k] < |rows|
  {
  }

  lemma MappedShows(row: Row)
    ensures ToAgUi(row).Some? ==> ShowsRow(ToAgUi(row).value, row)
  {
  }

  // The kinds of the orchestrator's events in the browser's terms.
  lemma KindsAreMapped()
    ensures AGUI_TYPES.Keys == {"run.started", "message.delta", "tool.started", "tool.completed", "agent.delegated",
                                "finding.created", "approval.required", "approval.received", "run.completed",
                                "run.failed", "run.cancelled"}
    ensures AGUI_TYPES["run.started"] == "RUN_STARTED" && AGUI_TYPES["message.delta"] == "TEXT_MESSAGE_CONTENT"
    ensures AGUI_TYPES["tool.started"] == "TOOL_CALL_START" && AGUI_TYPES["tool.completed"] == "TOOL_CALL_FINISH"
    ensures AGUI_TYPES["agent.delegated"] == "ACTIVITY" && AGUI_TYPES["finding.created"] == "STATE_SNAPSHOT"
    ensures AGUI_TYPES["approval.required"] == "FRONTEND_INTERACTION"
    ensures AGUI_TYPES["approval.received"] == "STATE_UPDATE"
    ensures AGUI_TYPES["run.completed"] == "RUN_FINISHED" && AGUI_TYPES["run.failed"] == "RUN_ERROR"
    ensures AGUI_TYPES["run.cancelled"] == "RUN_CANCELLED"
  {
  }

  lemma AscendingIsShown(rows: seq<Row>)
    requires Ascending(SequenceOf, rows)
    ensures Shows(BatchToAgUi(rows), rows)
  {
    hide Ascending, RenderAll, BatchToAgUi, ShowsAt;
    BatchOfAscending(rows);
    var at := RenderAllShows(rows);
  }

  /** A live event closes the client's stream if and only if it may be shown and is one of the three kinds that end
      a run; a closed client stays closed. */
  lemma ClosesIff(c: Client, e: Row)
    ensures OnEvent(c, e).terminal
            <==> c.terminal || (!e.sensitive && e.safeForUi
                                && e.kind in {"run.completed", "run.failed", "run.cancelled"})
  {
    KindsAreMapped();
    EndsRunIff(e);
    hide EndsRun, AddNew, MaxSeq;
  }

  lemma EndsRunIff(e: Row)
    ensures EndsRun(e) <==> ToAgUi(e).Some? && IsTerminal(ToAgUi(e).value)
  {
    hide ToAgUi, IsTerminal;
    BatchOfOne(e);
    hide BatchToAgUi;
    if ToAgUi(e).Some? { assert ToAgUi(e).value in BatchToAgUi([e]); }
  }

  lemma BatchOfOne(e: Row)
    ensures BatchToAgUi([e]) == match ToAgUi(e) case Some(m) => [m] case None => []
  {
    hide ToAgUi;
    assert [] + [e] == [e];
    RenderAllAppend([], e);
  }

  lemma {:induction false} RenderAllKeepsSequences(rows: seq<Row>, lo: int)
    requires Ascending(SequenceOf, rows)
    requires forall r :: r in rows ==> lo <= r.sequence
    ensures Sorted(AgUiSequence, RenderAll(rows))
    ensures forall m :: m in RenderAll(rows) ==> lo <= m.sequence
  {
    if rows != [] {
      assert forall i :: 0 <= i < |rows[1..]| ==> rows[1..][i] == rows[i + 1];
      RenderAllKeepsSequences(rows[1..], rows[0].sequence);
    }
  }

  lemma BatchOfAscending(rows: seq<Row>)
    requires Ascending(SequenceOf, rows)
    ensures BatchToAgUi(rows) == RenderAll(rows)
  {
    if rows != [] {
      forall r | r in rows
        ensures rows[0].sequence <= r.sequence
      {
        var i :| 0 <= i < |rows| && rows[i] == r;
      }
      RenderAllKeepsSequences(rows, rows[0].sequence);
      SortedIsFixed(AgUiSequence, RenderAll(rows));
    }
  }

  // --------------------------------------------------------------------------------------------
  // The client
  // --------------------------------------------------------------------------------------------

  /** The client's state: `entries` is its map from sequence to event in insertion order, `seqRef` the
      hook's last sequence, `lastSeq` the stream's cursor, `live` whether the stream was started. */
  datatype Client = Client(entries: seq<Row>, seqRef: int, lastSeq: int, terminal: bool, live: bool)

  const FRESH := Client([], 0, 0, false, false)

  function Max(a: int, b: int): int { if a > b then a else b }

  function MaxSeq(events: seq<Row>): int {
    if events == [] then 0 else Max(MaxSeq(events[..|events| - 1]), events[|events| - 1].sequence)
  }

  predicate HasSequence(entries: seq<Row>, k: int) {
    exists i :: 0 <= i < |entries| && entries[i].sequence == k
  }

  function AddEntry(entries: seq<Row>, e: Row): seq<Row> {
    if HasSequence(entries, e.sequence) then entries else entries + [e]
  }

  function AddNew(entries: seq<Row>, events: seq<Row>): seq<Row> {
    if events == [] then entries
    else AddEntry(AddNew(entries, events[..|events| - 1]), events[|events| - 1])
  }

  function Ingest(c: Client, events: seq<Row>): Client {
    if events == [] then c
    else c.(seqRef := Max(c.seqRef, MaxSeq(events)), entries := AddNew(c.entries, events))
  }

  function OnEvent(c: Client, e: Row): Client {
    if c.terminal then c
    else var c' := Ingest(c, [e]);
         if EndsRun(e) then c'.(terminal := true) else c'
  }

  // One message of a live stream.
  function OnMessage(c: Client, e: Row): Client {
    OnEvent(if e.sequence > 0 then c.(lastSeq := Max(c.lastSeq, e.sequence)) else c, e)
  }

  // The catch-up fetch of a reconnect: only what is behind the cursor is handed on.
  function CatchUp(c: Client, page: seq<Row>): Client {
    if page == [] then c
    else
      var c' := CatchUp(c, page[..|page| - 1]);
      var e := page[|page| - 1];
      if e.sequence > c'.lastSeq then OnEvent(c'.(lastSeq := e.sequence), e) else c'
  }

  // The first fetch, after which the stream starts.
  function StartLive(c: Client, page: seq<Row>): Client {
    var c' := Ingest(c, page);
    c'.(lastSeq := Max(Max(0, MaxSeq(page)), c'.seqRef), live := true)
  }

  function Raw(c: Client): seq<Row> { Sort(SequenceOf, c.entries) }

  function View(c: Client): seq<AgUi> { BatchToAgUi(Raw(c)) }

  // --------------------------------------------------------------------------------------------
  // Server, client and the network between them
  // --------------------------------------------------------------------------------------------

  /** A response on its way to the client, with the cursor it was asked for. */
  datatype Channel =
    | First(page: seq<Row>)
    | Fetch(cursor: nat, page: seq<Row>)
    | Stream(cursor: nat, page: seq<Row>, sent: nat)

  datatype System = System(log: seq<Row>, client: Client, open: seq<Channel>)

  datatype Move =
    | Commit(row: Row)
    | AskFirst(limit: nat)
    | Reconnect(limit: nat)
    | Connect(limit: nat)
    | AnswerFirst(k: nat)
    | AnswerFetch(k: nat)
    | Deliver(k: nat, j: nat)
    | Drop(k: nat)
    | Restart

  predicate CanMove(s: System, m: Move) {
    match m
    case Commit(row) => Insertable(s.log, row) && row.sequence == |RowsOf(s.log, row.run)|
    case AskFirst(_) => !s.client.live
    case Reconnect(_) => s.client.live && s.client.lastSeq >= 0
    case Connect(_) => s.client.live && s.client.lastSeq >= 0
    case AnswerFirst(k) => k < |s.open| && s.open[k].First? && !s.client.live
    case AnswerFetch(k) => k < |s.open| && s.open[k].Fetch?
    // The next event of a stream, or any earlier one again.
    case Deliver(k, j) => k < |s.open| && s.open[k].Stream? && j <= s.open[k].sent && j < |s.open[k].page|
    case Drop(k) => k < |s.open|
    case Restart => true
  }

  function Without(open: seq<Channel>, k: nat): seq<Channel>
    requires k < |open|
  {
    open[..k] + open[k + 1..]
  }

  function MoveTo(s: System, run: RunId, m: Move): System
    requires CanMove(s, m)
  {
    match m
    case Commit(row) => s.(log := s.log + [row])
    case AskFirst(limit) => s.(open := s.open + [First(Page(s.log, run, 0, limit))])
    case Reconnect(limit) =>
      s.(open := s.open + [Fetch(s.client.lastSeq, Page(s.log, run, s.client.lastSeq, limit))])
    case Connect(limit) =>
      s.(open := s.open + [Stream(s.client.lastSeq, Page(s.log, run, s.client.lastSeq, limit), 0)])
    case AnswerFirst(k) => s.(client := StartLive(s.client, s.open[k].page), open := Without(s.open, k))
    case AnswerFetch(k) => s.(client := CatchUp(s.client, s.open[k].page), open := Without(s.open, k))
    case Deliver(k, j) =>
      var ch := s.open[k];
      s.(client := OnMessage(s.client, ch.page[j]),
         open := s.open[k := ch.(sent := if j == ch.sent then j + 1 else ch.sent)])
    case Drop(k) => s.(open := Without(s.open, k))
    case Restart => s.(client := FRESH, open := [])
  }

  lemma PageIsSliceAfter(log: seq<Row>, run: RunId, cursor: nat, limit: nat)
    requires Consistent(log)
    ensures SliceAfter(RowsOf(log, run), cursor, Page(log, run, cursor, limit))
    ensures |Page(log, run, cursor, limit)| ==
            (if cursor + limit < |RowsOf(log, run)| then limit else Max(0, |RowsOf(log, run)| - 1 - cursor))
  {
    PageIsSlice(log, run, cursor, limit);
  }

  lemma SliceAfterGrows(rows: seq<Row>, rows': seq<Row>, cursor: nat, page: seq<Row>)
    requires SliceAfter(rows, cursor, page) && rows <= rows'
    ensures SliceAfter(rows', cursor, page)
  {
  }

  lemma SliceAfterFront(rows: seq<Row>, cursor: nat, page: seq<Row>)
    requires SliceAfter(rows, cursor, page) && page != []
    ensures SliceAfter(rows, cursor, page[..|page| - 1])
    ensures cursor + |page| < |rows| && page[|page| - 1] == rows[cursor + |page|]
  {
    var last := page[|page| - 1];
    assert last == rows[cursor + |page|];
  }

  ghost predicate ChannelOk(rows: seq<Row>, c: Client, ch: Channel) {
    match ch
    case First(page) => SliceAfter(rows, 0, page)
    case Fetch(cursor, page) => SliceAfter(rows, cursor, page) && cursor <= c.lastSeq && c.live
    case Stream(cursor, page, sent) =>
      c.live && SliceAfter(rows, cursor, page) && sent <= |page| && cursor + sent <= c.lastSeq
  }

  ghost predicate ClientOk(rows: seq<Row>, c: Client) {
    && 0 <= c.seqRef <= c.lastSeq
    && (c.lastSeq > 0 ==> c.lastSeq < |rows|)
    && |c.entries| == c.seqRef && SliceAfter(rows, 0, c.entries)
    && (!c.live ==> c == FRESH)
    && (!c.terminal ==> c.lastSeq == c.seqRef)
  }

  ghost predicate SystemOk(s: System, run: RunId) {
    var rows := RowsOf(s.log, run);
    && Consistent(s.log)
    && ClientOk(rows, s.client)
    && forall ch :: ch in s.open ==> ChannelOk(rows, s.client, ch)
  }

  ghost predicate Numbered(rows: seq<Row>) {
    forall i :: 0 <= i < |rows| ==> rows[i].sequence == i
  }

  // An event the client has, or the very next one, leaves it with a contiguous prefix.
  lemma OnEventKeepsPrefix(rows: seq<Row>, c: Client, e: Row)
    requires Numbered(rows) && 0 < e.sequence < |rows| && rows[e.sequence] == e
    requires 0 <= c.seqRef && |c.entries| == c.seqRef && SliceAfter(rows, 0, c.entries)
    requires !c.terminal ==> e.sequence <= c.seqRef + 1
    ensures var c' := OnEvent(c, e);
            && c'.seqRef == (if c.terminal then c.seqRef else Max(c.seqRef, e.sequence))
            && |c'.entries| == c'.seqRef && SliceAfter(rows, 0, c'.entries)
            && c'.lastSeq == c.lastSeq && c'.live == c.live
            && (c.terminal ==> c' == c)
  {
    if !c.terminal {
      assert [e][..0] == [] && MaxSeq([e]) == Max(0, e.sequence);
      assert AddNew(c.entries, [e]) == AddEntry(c.entries, e);
      if e.sequence <= c.seqRef {
        assert c.entries[e.sequence - 1].sequence == e.sequence;
      }
    }
  }

  lemma OnMessageKeepsClient(rows: seq<Row>, c: Client, e: Row)
    requires Numbered(rows) && ClientOk(rows, c) && c.live
    requires 0 < e.sequence < |rows| && rows[e.sequence] == e && e.sequence <= c.lastSeq + 1
    ensures ClientOk(rows, OnMessage(c, e))
    ensures OnMessage(c, e).lastSeq == Max(c.lastSeq, e.sequence)
  {
    OnEventKeepsPrefix(rows, c.(lastSeq := Max(c.lastSeq, e.sequence)), e);
  }

  lemma {:induction false} CatchUpKeepsClient(rows: seq<Row>, c: Client, cursor: nat, page: seq<Row>)
    requires Numbered(rows) && ClientOk(rows, c) && c.live
    requires SliceAfter(rows, cursor, page) && cursor <= c.lastSeq
    ensures ClientOk(rows, CatchUp(c, page))
    ensures CatchUp(c, page).lastSeq == Max(c.lastSeq, cursor + |page|)
    ensures CatchUp(c, page).live
  {
    if page != [] {
      SliceAfterFront(rows, cursor, page);
      CatchUpKeepsClient(rows, c, cursor, page[..|page| - 1]);
      var c' := CatchUp(c, page[..|page| - 1]);
      var e := page[|page| - 1];
      assert e.sequence == cursor + |page|;
      if e.sequence > c'.lastSeq {
        OnEventKeepsPrefix(rows, c'.(lastSeq := e.sequence), e);
      }
    }
  }

  lemma SliceSequences(rows: seq<Row>, cursor: nat, page: seq<Row>)
    requires Numbered(rows) && SliceAfter(rows, cursor, page)
    ensures forall i :: 0 <= i < |page| ==> page[i].sequence == cursor + 1 + i
  {
  }

  lemma {:induction false} FirstPageIsIngested(rows: seq<Row>, page: seq<Row>)
    requires Numbered(rows) && SliceAfter(rows, 0, page)
    ensures MaxSeq(page) == |page| && AddNew([], page) == page
  {
    if page != [] {
      var front := page[..|page| - 1];
      SliceSequences(rows, 0, page);
      SliceAfterFront(rows, 0, page);
      FirstPageIsIngested(rows, front);
      hide SliceAfter, Numbered;
      assert !HasSequence(front, |page|);
      assert page == front + [page[|page| - 1]];
    }
  }

  lemma CommitKeepsOk(s: System, run: RunId, row: Row)
    requires SystemOk(s, run) && CanMove(s, Commit(row))
    ensures SystemOk(MoveTo(s, run, Commit(row)), run)
  {
    var rows := RowsOf(s.log, run);
    var log' := s.log + [row];
    InsertKeepsConsistent(s.log, row);
    assert log'[..|s.log|] == s.log;
    RowsOfPrefix(log', |s.log|, run);
    var rows' := RowsOf(log', run);
    SliceAfterGrows(rows, rows', 0, s.client.entries);
    forall ch | ch in s.open
      ensures ChannelOk(rows', s.client, ch)
    {
      SliceAfterGrows(rows, rows', if ch.First? then 0 else ch.cursor, ch.page);
    }
  }

  lemma AskKeepsOk(s: System, run: RunId, m: Move)
    requires SystemOk(s, run) && CanMove(s, m) && (m.AskFirst? || m.Reconnect? || m.Connect?)
    ensures SystemOk(MoveTo(s, run, m), run)
  {
    var cursor := if m.AskFirst? then 0 else s.client.lastSeq;
    PageIsSliceAfter(s.log, run, cursor, m.limit);
  }

  lemma OpenStaysOk(rows: seq<Row>, c: Client, c': Client, open: seq<Channel>)
    requires forall ch :: ch in open ==> ChannelOk(rows, c, ch)
    requires c.lastSeq <= c'.lastSeq && (c.live ==> c'.live)
    ensures forall ch :: ch in open ==> ChannelOk(rows, c', ch)
  {
  }

  lemma StartKeepsClient(rows: seq<Row>, c: Client, page: seq<Row>)
    requires Numbered(rows) && ClientOk(rows, c) && !c.live && SliceAfter(rows, 0, page)
    ensures ClientOk(rows, StartLive(c, page)) && StartLive(c, page).live && c.lastSeq <= StartLive(c, page).lastSeq
  {
    FirstPageIsIngested(rows, page);
    hide AddNew, MaxSeq;
  }

  lemma AnswerKeepsOk(s: System, run: RunId, m: Move)
    requires SystemOk(s, run) && CanMove(s, m) && (m.AnswerFirst? || m.AnswerFetch?)
    ensures SystemOk(MoveTo(s, run, m), run)
  {
    hide SliceAfter, ClientOk, CatchUp, StartLive, RowsOf;
    var rows := RowsOf(s.log, run);
    var ch := s.open[m.k];
    var c' := MoveTo(s, run, m).client;
    assert ch in s.open;
    DenseIsNumbered(s.log, run);
    if m.AnswerFirst? {
      StartKeepsClient(rows, s.client, ch.page);
    } else {
      CatchUpKeepsClient(rows, s.client, ch.cursor, ch.page);
    }
    assert forall o :: o in Without(s.open, m.k) ==> o in s.open;
    OpenStaysOk(rows, s.client, c', Without(s.open, m.k));
  }

  lemma DenseIsNumbered(log: seq<Row>, run: RunId)
    requires Consistent(log)
    ensures Numbered(RowsOf(log, run))
  {
    assert forall i {:trigger RowsOf(log, run)[i]} :: 0 <= i < |RowsOf(log, run)| ==> RowsOf(log, run)[i].sequence == i;
  }

  lemma DeliverKeepsOk(s: System, run: RunId, k: nat, j: nat)
    requires SystemOk(s, run) && CanMove(s, Deliver(k, j))
    ensures SystemOk(MoveTo(s, run, Deliver(k, j)), run)
  {
    var rows := RowsOf(s.log, run);
    var ch := s.open[k];
    assert ch in s.open;
    var s' := MoveTo(s, run, Deliver(k, j));
    OnMessageKeepsClient(rows, s.client, ch.page[j]);
    OpenStaysOk(rows, s.client, s'.client, s.open);
    forall o | o in s'.open
      ensures ChannelOk(rows, s'.client, o)
    {
      var i :| 0 <= i < |s'.open| && s'.open[i] == o;
      if i != k { assert o == s.open[i]; }
    }
  }

  lemma MoveKeepsOk(s: System, run: RunId, m: Move)
    requires SystemOk(s, run) && CanMove(s, m)
    ensures SystemOk(MoveTo(s, run, m), run)
  {
    match m
    case Commit(row) => CommitKeepsOk(s, run, row);
    case AskFirst(_) => AskKeepsOk(s, run, m);
    case Reconnect(_) => AskKeepsOk(s, run, m);
    case Connect(_) => AskKeepsOk(s, run, m);
    case AnswerFirst(_) => AnswerKeepsOk(s, run, m);
    case AnswerFetch(_) => AnswerKeepsOk(s, run, m);
    case Deliver(k, j) => DeliverKeepsOk(s, run, k, j);
    case Drop(k) => assert forall o :: o in Without(s.open, k) ==> o in s.open;
    case Restart =>
  }

  ghost predicate IsHistory(states: seq<System>, moves: seq<Move>, run: RunId) {
    && |states| == |moves| + 1
    && states[0] == System([], FRESH, [])
    && forall i {:trigger moves[i]} :: 0 <= i < |moves| ==>
         CanMove(states[i], moves[i]) && states[i + 1] == MoveTo(states[i], run, moves[i])
  }

  lemma {:induction false} ReachableOk(states: seq<System>, moves: seq<Move>, run: RunId, i: nat)
    requires IsHistory(states, moves, run) && i < |states|
    ensures SystemOk(states[i], run)
  {
    if i > 0 {
      ReachableOk(states, moves, run, i - 1);
      var m := moves[i - 1];
      MoveKeepsOk(states[i - 1], run, m);
    }
  }

  /** Readers lose nothing. For any interleaving of commits, pages, drops, redeliveries, reconnects and
      restarts, the client holds exactly the events 1..lastSequence of the log (never event 0, which
      the cursor filter hides), and shows the renderable ones among them in log order. */
  lemma ClientHoldsAPrefix(states: seq<System>, moves: seq<Move>, run: RunId, i: nat)
    requires IsHistory(states, moves, run) && i < |states|
    ensures var rows := RowsOf(states[i].log, run);
            var c := states[i].client;
            && 0 <= c.seqRef && (c.seqRef > 0 ==> c.seqRef < |rows|)
            && (forall k :: HasSequence(c.entries, k) <==> 1 <= k <= c.seqRef)
            && Raw(c) == (if c.seqRef == 0 then [] else rows[1..c.seqRef + 1])
            && Shows(View(c), Raw(c))
  {
    ReachableOk(states, moves, run, i);
    var rows := RowsOf(states[i].log, run);
    var c := states[i].client;
    forall k
      ensures HasSequence(c.entries, k) <==> 1 <= k <= c.seqRef
    {
      if 1 <= k <= c.seqRef {
        assert c.entries[k - 1].sequence == k;
      }
    }
    assert Ascending(SequenceOf, c.entries);
    SortedIsFixed(SequenceOf, c.entries);
    AscendingIsShown(c.entries);
  }

  /** The first fetch: a client that is not live yet holds exactly the page that answers it, and its cursor is
      the page's end. */
  lemma FirstFetchIsHeld(s: System, run: RunId, k: nat)
    requires SystemOk(s, run) && CanMove(s, AnswerFirst(k))
    ensures var c := MoveTo(s, run, AnswerFirst(k)).client;
            && c.entries == s.open[k].page && c.live && c.seqRef == c.lastSeq == |s.open[k].page|
  {
    DenseIsNumbered(s.log, run);
    assert s.open[k] in s.open;
    FirstPageIsIngested(RowsOf(s.log, run), s.open[k].page);
  }

  /** What a client asks for: its cursor's page of the log as it is then; from the start, what lies behind 0. */
  lemma AsksForItsPage(s: System, run: RunId, m: Move)
    requires SystemOk(s, run) && CanMove(s, m) && (m.AskFirst? || m.Reconnect? || m.Connect?)
    ensures var rows, open := RowsOf(s.log, run), MoveTo(s, run, m).open;
            var lo := Clamp(if m.AskFirst? then 1 else s.client.lastSeq + 1, |rows|);
            && |open| == |s.open| + 1 && open[..|s.open|] == s.open
            && open[|s.open|].page == rows[lo..Clamp(lo + m.limit, |rows|)]
  {
    PageIsSlice(s.log, run, if m.AskFirst? then 0 else s.client.lastSeq, m.limit);
  }

  /** What the network and the page do: a fetch that arrives moves the client's cursor to its end if that is further;
      a delivered event moves it to the event, and the stream on if it was the next; a dropped response changes no
      client; a restart forgets it. */
  lemma MovesMoveTheClient(s: System, run: RunId, k: nat, j: nat)
    requires SystemOk(s, run) && k < |s.open|
    ensures CanMove(s, AnswerFetch(k)) ==>
              var s' := MoveTo(s, run, AnswerFetch(k));
              && s'.client.lastSeq == Max(s.client.lastSeq, s.open[k].cursor + |s.open[k].page|)
              && s'.open == s.open[..k] + s.open[k + 1..] && s'.log == s.log
    ensures CanMove(s, Deliver(k, j)) ==>
              var s', ch := MoveTo(s, run, Deliver(k, j)), s.open[k];
              && s'.client.lastSeq == Max(s.client.lastSeq, ch.page[j].sequence) && s'.log == s.log
              && s'.open == s.open[k := Stream(ch.cursor, ch.page, if j == ch.sent then j + 1 else ch.sent)]
    ensures var s' := MoveTo(s, run, Drop(k));
            s'.client == s.client && s'.open == s.open[..k] + s.open[k + 1..] && s'.log == s.log
    ensures MoveTo(s, run, Restart) == System(s.log, Client([], 0, 0, false, false), [])
  {
    DenseIsNumbered(s.log, run);
    var rows, ch := RowsOf(s.log, run), s.open[k];
    assert ch in s.open;
    hide RowsOf, OnEvent, CatchUp, StartLive;
    if ch.Fetch? { CatchUpKeepsClient(rows, s.client, ch.cursor, ch.page); }
    if ch.Stream? && j < |ch.page| && j <= ch.sent { OnMessageKeepsClient(rows, s.client, ch.page[j]); }
  }

  // Nothing that can happen is left out: a live client can fetch and connect at any time, any response can be lost or
  // answered, an event can be delivered again, and the page can be loaded anew.
  lemma EveryMoveIsPossible(s: System, run: RunId, row: Row, k: nat, j: nat, limit: nat)
    requires SystemOk(s, run)
    ensures Insertable(s.log, row) && row.sequence == |RowsOf(s.log, row.run)| ==> CanMove(s, Commit(row))
    ensures CanMove(s, Restart) && (s.client.live ==> CanMove(s, Reconnect(limit)) && CanMove(s, Connect(limit)))
    ensures !s.client.live ==> CanMove(s, AskFirst(limit))
    ensures k < |s.open| ==> CanMove(s, Drop(k))
    ensures k < |s.open| && s.open[k].First? && !s.client.live ==> CanMove(s, AnswerFirst(k))
    ensures k < |s.open| && s.open[k].Fetch? ==> CanMove(s, AnswerFetch(k))
    ensures k < |s.open| && s.open[k].Stream? && j < |s.open[k].page| && (j < s.open[k].sent || j == s.open[k].sent) ==>
              CanMove(s, Deliver(k, j))
  {
    hide RowsOf, Insertable;
  }

  function Clamp(n: nat, max: nat): nat { if n <= max then n else max }

  /** A reconnect catches up: until a terminal event closes the stream, a fetch of the cursor's page
      brings the client `limit` events further, or to the end of the log. */
  lemma ReconnectCatchesUp(s: System, run: RunId, limit: nat)
    requires SystemOk(s, run) && s.client.live
    ensures var rows := RowsOf(s.log, run);
            var c := CatchUp(s.client, Page(s.log, run, s.client.lastSeq, limit));
            && c.lastSeq == (if s.client.lastSeq + limit < |rows| then s.client.lastSeq + limit
                             else Max(s.client.lastSeq, |rows| - 1))
            && (!c.terminal ==> c.seqRef == c.lastSeq)
  {
    PageIsSliceAfter(s.log, run, s.client.lastSeq, limit);
    CatchUpKeepsClient(RowsOf(s.log, run), s.client, s.client.lastSeq,
                       Page(s.log, run, s.client.lastSeq, limit));
  }

  // --------------------------------------------------------------------------------------------
  // The hook and the stream, with their mutable state
  // --------------------------------------------------------------------------------------------

  class RunEventsClient {
    var entries: seq<Row>
    var seqRef: int
    var lastSeq: int
    var terminal: bool
    var live: bool

    function State(): Client
      reads this
    {
      Client(entries, seqRef, lastSeq, terminal, live)
    }

    constructor ()
      ensures State() == FRESH
    {
      entries, seqRef, lastSeq, terminal, live := [], 0, 0, false, false;
    }

    method IngestEvents(events: seq<Row>)
      modifies this
      ensures State() == Ingest(old(State()), events)
    {
      if |events| == 0 {
        return;
      }
      var batchMax := 0;
      for i := 0 to |events|
        invariant batchMax == MaxSeq(events[..i])
        invariant State() == old(State())
      {
        assert events[..i + 1][..i] == events[..i];
        if events[i].sequence > batchMax {
          batchMax := events[i].sequence;
        }
      }
      assert events[..|events|] == events;
      if batchMax > seqRef {
        seqRef := batchMax;
      }
      var next := entries;
      for i := 0 to |events|
        invariant next == AddNew(entries, events[..i])
        invariant State() == old(State()).(seqRef := Max(old(seqRef), MaxSeq(events)))
      {
        assert events[..i + 1][..i] == events[..i];
        var e := events[i];
        if !HasSequence(next, e.sequence) {
          next := next + [e];
        }
      }
      entries := next;
    }

    method HandleEvent(e: Row)
      modifies this
      ensures State() == OnEvent(old(State()), e)
    {
      if terminal {
        return;
      }
      IngestEvents([e]);
      var ends := MapsToTerminal(e);
      if ends {
        terminal := true;
      }
    }

    method MapsToTerminal(e: Row) returns (ends: bool)
      ensures ends == EndsRun(e)
    {
      var mapped := MapBatch([e]);
      ends := exists m :: m in mapped && IsTerminal(m);
    }

    // The body of a reconnect timer: fetched events behind the cursor are handed to the hook.
    method HandleCatchUp(page: seq<Row>)
      modifies this
      ensures State() == CatchUp(old(State()), page)
    {
      for i := 0 to |page|
        invariant State() == CatchUp(old(State()), page[..i])
      {
        assert page[..i + 1][..i] == page[..i];
        var e := page[i];
        if e.sequence > lastSeq {
          lastSeq := e.sequence;
          HandleEvent(e);
        }
      }
      assert page[..|page|] == page;
    }

    method HandleMessage(e: Row)
      modifies this
      ensures State() == OnMessage(old(State()), e)
    {
      if e.sequence > 0 {
        lastSeq := Max(lastSeq, e.sequence);
      }
      HandleEvent(e);
    }
  }

  lemma {:induction false} RenderAllAppend(rows: seq<Row>, e: Row)
    ensures RenderAll(rows + [e]) == RenderAll(rows) + (match ToAgUi(e) case Some(m) => [m] case None => [])
  {
    if rows == [] {
      assert [] + [e] == [e];
    } else {
      RenderAllAppend(rows[1..], e);
      assert (rows + [e])[1..] == rows[1..] + [e];
    }
  }

  method MapBatch(events: seq<Row>) returns (out: seq<AgUi>)
    ensures out == BatchToAgUi(events)
    ensures Sorted(AgUiSequence, out)
    ensures exists shown :: Shows(shown, events) && out == Sort(AgUiSequence, shown) && multiset(out) == multiset(shown)
    ensures Ascending(SequenceOf, events) ==> Shows(out, events)
  {
    hide ToAgUi, Sort;
    out := [];
    for i := 0 to |events|
      invariant out == RenderAll(events[..i])
    {
      RenderAllAppend(events[..i], events[i]);
      assert events[..i] + [events[i]] == events[..i + 1];
      var m := ToAgUi(events[i]);
      if m.Some? {
        out := out + [m.value];
      }
    }
    assert events[..|events|] == events;
    SortSorts(AgUiSequence, out);
    ghost var at := RenderAllShows(events);
    assert Shows(out, events);
    if Ascending(SequenceOf, events) { BatchOfAscending(events); }
    out := Sort(AgUiSequence, out);
  }
}
