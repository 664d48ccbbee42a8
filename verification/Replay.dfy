/** The replay tool (tests/evaluation/replay.py): sort the log by sequence, skip repeated sequences,
    fold into a state, and refuse a log with gaps. */
module Replay {
  import opened StableSort
  import opened Wrappers

  /** An event's payload: a JSON object with its identity and its `tool` entry, or something else. */
  datatype Payload = Object(id: nat, tool: Option<string>) | NotObject

  datatype Event = Event(sequence: int, kind: string, payload: Payload)

  datatype View = View(findings: seq<Payload>, approvals: seq<Payload>, tools: seq<Option<string>>,
                       terminal: Option<string>)

  datatype Result = Replayed(eventsReplayed: nat, duplicatesSkipped: int, view: View) | Gaps

  const EMPTY := View([], [], [], None)

  const TERMINAL_TYPES: set<string> := {"run.completed", "run.failed", "run.cancelled"}

  function SequenceOf(e: Event): int { e.sequence }

  // One event folded into the view.
  function Fold(v: View, e: Event): View {
    var v' :=
      if e.kind == "finding.created" && e.payload.Object? then v.(findings := v.findings + [e.payload])
      else if e.kind in {"approval.required", "approval.received"} && e.payload.Object? then
        v.(approvals := v.approvals + [e.payload])
      else if e.kind == "tool.called" && e.payload.Object? then v.(tools := v.tools + [e.payload.tool])
      else v;
    if e.kind in TERMINAL_TYPES then v'.(terminal := Some(e.kind)) else v'
  }

  function FoldAll(v: View, events: seq<Event>): View {
    if events == [] then v else Fold(FoldAll(v, events[..|events| - 1]), events[|events| - 1])
  }

  predicate HasSequence(events: seq<Event>, k: int) {
    exists e :: e in events && e.sequence == k
  }

  // The events whose sequence has not come before.
  function Firsts(events: seq<Event>): seq<Event> {
    if events == [] then []
    else
      var front, last := events[..|events| - 1], events[|events| - 1];
      if HasSequence(front, last.sequence) then Firsts(front) else Firsts(front) + [last]
  }

  function Sequences(events: seq<Event>): set<int> {
    set e | e in events :: e.sequence
  }

  // No gap between the smallest and the largest sequence.
  predicate IsInterval(s: set<int>) {
    forall a, b :: a in s && b in s ==> forall k :: a <= k <= b ==> k in s
  }

  function ReplayEvents(events: seq<Event>): Result {
    var kept := Firsts(Sort(SequenceOf, events));
    if !IsInterval(Sequences(events)) then Gaps
    else Replayed(|kept|, |events| - |kept|, FoldAll(EMPTY, kept))
  }

  // --------------------------------------------------------------------------------------------
  // What is kept
  // --------------------------------------------------------------------------------------------

  lemma SequencesAppend(s: seq<Event>, e: Event)
    ensures Sequences(s + [e]) == Sequences(s) + {e.sequence}
    ensures HasSequence(s, e.sequence) <==> e.sequence in Sequences(s)
  {
  }

  lemma {:induction false} FirstsOfAny(s: seq<Event>)
    ensures Sequences(Firsts(s)) == Sequences(s)
    ensures |Firsts(s)| <= |s|
    ensures s != [] ==> Firsts(s) != [] && Firsts(s)[0] == s[0]
  {
    if s != [] {
      var front, last := s[..|s| - 1], s[|s| - 1];
      assert s == front + [last];
      FirstsOfAny(front);
      SequencesAppend(front, last);
      SequencesAppend(Firsts(front), last);
    }
  }

  lemma {:induction false} FirstsOfSorted(s: seq<Event>)
    requires Sorted(SequenceOf, s)
    ensures Ascending(SequenceOf, Firsts(s))
    ensures s != [] ==> Firsts(s) != [] && Firsts(s)[|Firsts(s)| - 1].sequence == s[|s| - 1].sequence
  {
    if |s| > 1 {
      var front, last := s[..|s| - 1], s[|s| - 1];
      SortedFront(SequenceOf, s);
      FirstsOfSorted(front);
      SortedFront(SequenceOf, front);
      var largest := front[|front| - 1];
      assert largest in front && largest in s;
      if !HasSequence(front, last.sequence) {
        AscendingAppend(SequenceOf, Firsts(front), last);
      }
    }
  }

  // The event that stands for sequence `k`: the first one given with it.
  function Winner(events: seq<Event>, k: int): Option<Event> {
    if events == [] then None
    else if events[0].sequence == k then Some(events[0])
    else Winner(events[1..], k)
  }

  lemma {:induction false} WinnerIsHead(events: seq<Event>, k: int)
    ensures Winner(events, k)
         == (if WithKey(SequenceOf, events, k) == [] then None else Some(WithKey(SequenceOf, events, k)[0]))
  {
    if events != [] { WinnerIsHead(events[1..], k); }
  }

  // Sorting keeps every sequence's winner.
  lemma WinnerOfSort(events: seq<Event>, k: int)
    ensures Winner(Sort(SequenceOf, events), k) == Winner(events, k)
  {
    WinnerIsHead(events, k);
    WinnerIsHead(Sort(SequenceOf, events), k);
    SortIsStable(SequenceOf, events, k);
  }

  lemma {:induction false} WinnerAppend(events: seq<Event>, e: Event, k: int)
    ensures Winner(events + [e], k) ==
            if Winner(events, k).Some? then Winner(events, k) else if e.sequence == k then Some(e) else None
    ensures Winner(events, k).None? <==> !HasSequence(events, k)
  {
    if events == [] {
      assert [] + [e] == [e];
    } else {
      WinnerAppend(events[1..], e, k);
      assert (events + [e])[1..] == events[1..] + [e];
      assert events == [events[0]] + events[1..];
    }
  }

  lemma {:induction false} FirstsAreWinners(s: seq<Event>, e: Event)
    ensures e in Firsts(s) <==> Winner(s, e.sequence) == Some(e)
  {
    if s != [] {
      var front, last := s[..|s| - 1], s[|s| - 1];
      assert s == front + [last];
      FirstsAreWinners(front, e);
      WinnerAppend(front, last, e.sequence);
    }
  }

  /** What is folded: the first event given for each sequence, in ascending order. */
  lemma KeptAreTheWinners(events: seq<Event>)
    ensures var kept := Firsts(Sort(SequenceOf, events));
            && Ascending(SequenceOf, kept)
            && Sequences(kept) == Sequences(events)
            && |kept| <= |events|
            && forall e :: e in kept <==> Winner(events, e.sequence) == Some(e)
  {
    var s := Sort(SequenceOf, events);
    SortSorts(SequenceOf, events);
    MembersOfSort(SequenceOf, events);
    FirstsOfSorted(s);
    FirstsOfAny(s);
    assert Sequences(s) == Sequences(events);
    forall e
      ensures e in Firsts(s) <==> Winner(events, e.sequence) == Some(e)
    {
      FirstsAreWinners(s, e);
      WinnerOfSort(events, e.sequence);
    }
  }

  /** Two logs with the same winner for every sequence are kept as the same list, hence fold alike. */
  lemma SameWinnersSameKept(a: seq<Event>, b: seq<Event>)
    requires forall k :: Winner(a, k) == Winner(b, k)
    ensures Firsts(Sort(SequenceOf, a)) == Firsts(Sort(SequenceOf, b))
  {
    KeptAreTheWinners(a);
    KeptAreTheWinners(b);
    AscendingIsUnique(SequenceOf, Firsts(Sort(SequenceOf, a)), Firsts(Sort(SequenceOf, b)));
  }

  // --------------------------------------------------------------------------------------------
  // Theorems
  // --------------------------------------------------------------------------------------------

  // Events with the same sequence are copies of one event.
  ghost predicate Copies(events: seq<Event>) {
    forall d, e :: d in events && e in events && d.sequence == e.sequence ==> d == e
  }

  lemma {:induction false} WinnerIsMember(events: seq<Event>, k: int)
    ensures Winner(events, k).Some? ==> Winner(events, k).value in events && Winner(events, k).value.sequence == k
    ensures Winner(events, k).None? ==> forall e :: e in events ==> e.sequence != k
  {
    if events != [] {
      WinnerIsMember(events[1..], k);
      assert events == [events[0]] + events[1..];
    }
  }

  /** Replay is a function of the log as a set: reordering it and delivering copies of its events again
      changes neither the state nor the number of events replayed. */
  lemma ReplayDependsOnTheSet(a: seq<Event>, b: seq<Event>)
    requires Copies(a) && forall e :: e in a <==> e in b
    ensures ReplayEvents(a).Gaps? <==> ReplayEvents(b).Gaps?
    ensures ReplayEvents(a).Replayed? ==>
      && ReplayEvents(a).view == ReplayEvents(b).view
      && ReplayEvents(a).eventsReplayed == ReplayEvents(b).eventsReplayed
  {
    forall k
      ensures Winner(a, k) == Winner(b, k)
    {
      WinnerIsMember(a, k);
      WinnerIsMember(b, k);
    }
    SameWinnersSameKept(a, b);
    KeptAreTheWinners(a);
    KeptAreTheWinners(b);
    assert Sequences(a) == Sequences(b);
  }

  lemma {:induction false} WinnerOfConcat(a: seq<Event>, b: seq<Event>, k: int)
    ensures Winner(a + b, k) == if Winner(a, k).Some? then Winner(a, k) else Winner(b, k)
  {
    if a == [] {
      assert a + b == b;
    } else {
      WinnerOfConcat(a[1..], b, k);
      assert (a + b)[1..] == a[1..] + b;
    }
  }

  lemma WinnerIgnoresLate(events: seq<Event>, late: seq<Event>, k: int)
    requires forall e :: e in late ==> e.sequence in Sequences(events)
    ensures Winner(events + late, k) == Winner(events, k)
  {
    WinnerOfConcat(events, late, k);
    WinnerIsMember(events, k);
    WinnerIsMember(late, k);
    if Winner(events, k).None? {
      assert k !in Sequences(events);
    }
  }

  lemma SequencesIgnoreLate(events: seq<Event>, late: seq<Event>)
    requires forall e :: e in late ==> e.sequence in Sequences(events)
    ensures Sequences(events + late) == Sequences(events)
  {
  }

  /** Late duplicates are harmless even when they differ: whatever comes again under a known sequence is
      skipped. */
  lemma LateDuplicatesAreSkipped(events: seq<Event>, late: seq<Event>)
    requires forall e :: e in late ==> e.sequence in Sequences(events)
    requires ReplayEvents(events).Replayed?
    ensures ReplayEvents(events + late)
         == ReplayEvents(events).(duplicatesSkipped := ReplayEvents(events).duplicatesSkipped + |late|)
  {
    hide Winner, Sequences, Firsts, FoldAll, IsInterval;
    forall k
      ensures Winner(events + late, k) == Winner(events, k)
    {
      WinnerIgnoresLate(events, late, k);
    }
    SameWinnersSameKept(events + late, events);
    SequencesIgnoreLate(events, late);
  }

  lemma {:induction false} DistinctCount(s: seq<Event>)
    requires Ascending(SequenceOf, s)
    ensures |Sequences(s)| == |s|
  {
    if s != [] {
      var front, last := s[..|s| - 1], s[|s| - 1];
      assert s == front + [last];
      DistinctCount(front);
      assert Sequences(s) == Sequences(front) + {last.sequence};
      assert forall e :: e in front ==> e.sequence < last.sequence;
    }
  }

  /** The counts and the refusal: replay fails exactly on a gap in the distinct sequences, and otherwise
      counts each distinct sequence once and everything else as skipped. */
  lemma CountsAndGaps(events: seq<Event>)
    ensures ReplayEvents(events).Gaps? <==> !IsInterval(Sequences(events))
    ensures ReplayEvents(events).Replayed? ==>
      && ReplayEvents(events).eventsReplayed == |Sequences(events)|
      && ReplayEvents(events).eventsReplayed + ReplayEvents(events).duplicatesSkipped == |events|
  {
    KeptAreTheWinners(events);
    DistinctCount(Firsts(Sort(SequenceOf, events)));
  }

  lemma {:induction false} FoldAllConcat(v: View, a: seq<Event>, b: seq<Event>)
    ensures FoldAll(v, a + b) == FoldAll(FoldAll(v, a), b)
  {
    if b == [] {
      assert a + b == a;
    } else {
      FoldAllConcat(v, a, b[..|b| - 1]);
      assert (a + b)[..|a + b| - 1] == a + b[..|b| - 1];
    }
  }

  lemma {:induction false} FirstsOfAscending(s: seq<Event>)
    requires Ascending(SequenceOf, s)
    ensures Firsts(s) == s
  {
    if s != [] {
      var n := |s| - 1;
      assert s == s[..n] + [s[n]];
      AscendingPrefix(SequenceOf, s, n);
      hide Ascending;
      FirstsOfAscending(s[..n]);
      assert forall e :: e in s[..n] ==> SequenceOf(e) < SequenceOf(s[n]);
    }
  }

  // Nothing of an in-order log is reordered or skipped.
  lemma KeptOfAscending(s: seq<Event>)
    requires Ascending(SequenceOf, s)
    ensures Firsts(Sort(SequenceOf, s)) == s
  {
    AscendingIsSorted(SequenceOf, s);
    hide Ascending, Sorted, Firsts, Sort;
    SortedIsFixed(SequenceOf, s);
    FirstsOfAscending(s);
  }

  /** Restarting from a checkpoint: on an in-order log, replaying a prefix and continuing with the rest
      from its state gives the state of replaying the whole. */
  lemma ReplayResumes(prefix: seq<Event>, rest: seq<Event>)
    requires Ascending(SequenceOf, prefix + rest)
    requires ReplayEvents(prefix).Replayed? && ReplayEvents(prefix + rest).Replayed?
    ensures ReplayEvents(prefix + rest).view == FoldAll(ReplayEvents(prefix).view, rest)
    ensures ReplayEvents(prefix + rest).eventsReplayed == ReplayEvents(prefix).eventsReplayed + |rest|
  {
    hide Ascending, Firsts, Sort, FoldAll, IsInterval, Sequences;
    var whole := prefix + rest;
    AscendingPrefix(SequenceOf, whole, |prefix|);
    assert whole[..|prefix|] == prefix;
    KeptOfAscending(whole);
    KeptOfAscending(prefix);
    FoldAllConcat(EMPTY, prefix, rest);
  }

  // --------------------------------------------------------------------------------------------
  // What the view shows
  // --------------------------------------------------------------------------------------------

  // The events of these kinds, in order.
  function OfKinds(events: seq<Event>, kinds: set<string>): seq<Event> {
    if events == [] then []
    else (if events[0].kind in kinds then [events[0]] else []) + OfKinds(events[1..], kinds)
  }

  // The payloads that are objects, in order.
  function Objects(events: seq<Event>): seq<Payload> {
    if events == [] then []
    else (if events[0].payload.Object? then [events[0].payload] else []) + Objects(events[1..])
  }

  lemma {:induction false} OfKindsAppend(events: seq<Event>, e: Event, kinds: set<string>)
    ensures OfKinds(events + [e], kinds) == OfKinds(events, kinds) + if e.kind in kinds then [e] else []
  {
    if events == [] {
      assert [] + [e] == [e];
    } else {
      OfKindsAppend(events[1..], e, kinds);
      assert (events + [e])[1..] == events[1..] + [e];
    }
  }

  lemma {:induction false} ObjectsAppend(events: seq<Event>, e: Event)
    ensures Objects(events + [e]) == Objects(events) + if e.payload.Object? then [e.payload] else []
  {
    if events == [] {
      assert [] + [e] == [e];
    } else {
      ObjectsAppend(events[1..], e);
      assert (events + [e])[1..] == events[1..] + [e];
    }
  }

  // The view's three lists and its end, by the kinds of the events folded.
  ghost predicate ShowsEvents(v: View, events: seq<Event>) {
    var tools := Objects(OfKinds(events, {"tool.called"}));
    var ends := OfKinds(events, {"run.completed", "run.failed", "run.cancelled"});
    && v.findings == Objects(OfKinds(events, {"finding.created"}))
    && v.approvals == Objects(OfKinds(events, {"approval.required", "approval.received"}))
    && |v.tools| == |tools| && (forall i :: 0 <= i < |tools| ==> tools[i].Object? && v.tools[i] == tools[i].tool)
    && v.terminal == if ends == [] then None else Some(ends[|ends| - 1].kind)
  }

  lemma OneMoreShown(v: View, events: seq<Event>, e: Event)
    requires ShowsEvents(v, events)
    ensures ShowsEvents(Fold(v, e), events + [e])
  {
    hide OfKinds, Objects;
    SelectedAppend(events, e, {"tool.called"});
    SelectedAppend(events, e, {"finding.created"});
    SelectedAppend(events, e, {"approval.required", "approval.received"});
    OfKindsAppend(events, e, {"run.completed", "run.failed", "run.cancelled"});
  }

  lemma SelectedAppend(events: seq<Event>, e: Event, kinds: set<string>)
    ensures Objects(OfKinds(events + [e], kinds))
            == Objects(OfKinds(events, kinds)) + if e.kind in kinds && e.payload.Object? then [e.payload] else []
  {
    hide OfKinds, Objects;
    OfKindsAppend(events, e, kinds);
    ObjectsAppend(OfKinds(events, kinds), e);
    assert OfKinds(events, kinds) + [] == OfKinds(events, kinds);
  }

  lemma {:induction false} FoldShows(events: seq<Event>)
    ensures ShowsEvents(FoldAll(EMPTY, events), events)
  {
    if events != [] {
      var front, last := events[..|events| - 1], events[|events| - 1];
      FoldShows(front);
      hide ShowsEvents, Fold;
      OneMoreShown(FoldAll(EMPTY, front), front, last);
      assert front + [last] == events;
    }
  }

  /** What a replay shows, of the events that are kept and in their order: findings, approvals and tools are the
      object payloads of their kinds, and the end is the kind of the last terminal event. */
  lemma ReplayShowsTheKept(events: seq<Event>)
    requires ReplayEvents(events).Replayed?
    ensures ShowsEvents(ReplayEvents(events).view, Firsts(Sort(SequenceOf, events)))
  {
    hide FoldAll, ShowsEvents, Firsts, Sort;
    FoldShows(Firsts(Sort(SequenceOf, events)));
  }

  // --------------------------------------------------------------------------------------------
  // The loop
  // --------------------------------------------------------------------------------------------

  function Range(lo: int, hi: int): (r: set<int>)
    ensures forall k :: k in r <==> lo <= k < hi
    decreases hi - lo
  {
    if hi <= lo then {} else {lo} + Range(lo + 1, hi)
  }

  // The density test against `range(min, max + 1)`, for a non-empty list in sorted order.
  lemma IntervalByEnds(s: seq<Event>)
    requires Ascending(SequenceOf, s) && s != []
    ensures var lo, hi := s[0].sequence, s[|s| - 1].sequence;
            IsInterval(Sequences(s)) <==> Sequences(s) == Range(lo, hi + 1)
  {
    var lo, hi := s[0].sequence, s[|s| - 1].sequence;
    assert s[0] in s && s[|s| - 1] in s;
    forall e | e in s
      ensures lo <= e.sequence <= hi
    {
      var i :| 0 <= i < |s| && s[i] == e;
    }
    assert lo in Sequences(s) && hi in Sequences(s);
  }

  lemma FirstsStep(s: seq<Event>, i: nat)
    requires i < |s|
    ensures Sequences(s[..i + 1]) == Sequences(s[..i]) + {s[i].sequence}
    ensures Firsts(s[..i + 1]) ==
            if s[i].sequence in Sequences(s[..i]) then Firsts(s[..i]) else Firsts(s[..i]) + [s[i]]
  {
    assert s[..i + 1] == s[..i] + [s[i]];
    assert s[..i + 1][..i] == s[..i];
    SequencesAppend(s[..i], s[i]);
  }

  method ReplayLog(events: seq<Event>) returns (r: Result)
    ensures r == ReplayEvents(events)
  {
    hide Fold, IsInterval, Range, Firsts, Sequences;
    var ordered := Sort(SequenceOf, events);
    NothingKept(ordered);
    var seen: set<int> := {};
    var view := EMPTY;
    var dupes := 0;
    ghost var kept: seq<Event> := [];
    for i := 0 to |ordered|
      invariant kept == Firsts(ordered[..i])
      invariant seen == Sequences(ordered[..i])
      invariant view == FoldAll(EMPTY, kept)
      invariant dupes + |kept| == i
    {
      var e := ordered[i];
      FirstsStep(ordered, i);
      if e.sequence in seen {
        dupes := dupes + 1;
      } else {
        kept := kept + [e];
        assert kept[..|kept| - 1] == Firsts(ordered[..i]);
        view := Fold(view, e);
      }
      seen := seen + {e.sequence};
    }
    assert ordered[..|ordered|] == ordered;
    SortFacts(events);
    if |ordered| > 0 {
      DensityTest(ordered);
      // The smallest and the largest sequence seen are the first and the last.
      if seen != Range(ordered[0].sequence, ordered[|ordered| - 1].sequence + 1) {
        return Gaps;
      }
    }
    return Replayed(|seen|, dupes, view);
  }

  lemma NothingKept(s: seq<Event>)
    ensures Firsts(s[..0]) == [] && Sequences(s[..0]) == {} && IsInterval({})
  {
  }

  // For a sorted list, the density test looks at the first and the last sequence only.
  lemma DensityTest(ordered: seq<Event>)
    requires Sorted(SequenceOf, ordered) && ordered != []
    ensures IsInterval(Sequences(ordered)) <==>
            Sequences(ordered) == Range(ordered[0].sequence, ordered[|ordered| - 1].sequence + 1)
  {
    FirstsOfAny(ordered);
    FirstsOfSorted(ordered);
    IntervalByEnds(Firsts(ordered));
  }

  lemma SortFacts(events: seq<Event>)
    ensures Sorted(SequenceOf, Sort(SequenceOf, events))
    ensures Sequences(Sort(SequenceOf, events)) == Sequences(events)
    ensures |Sequences(events)| == |Firsts(Sort(SequenceOf, events))| <= |events|
  {
    SortSorts(SequenceOf, events);
    MembersOfSort(SequenceOf, events);
    KeptAreTheWinners(events);
    DistinctCount(Firsts(Sort(SequenceOf, events)));
  }
}
