/** From the specialist's result to the proposals: what each step keeps, changes and decides, exactly. */
module GraphFindings {
  import opened Wrappers
  import opened Catalog
  import opened Text
  import opened Budget
  import opened Graph
  import opened GraphLedger
  import opened GraphNodes

  // The primary evidence says healthy: the first health reading does.
  predicate SaysHealthy(evidence: seq<Evidence>) {
    exists i :: 0 <= i < |evidence| && evidence[i].tool == GetHealth && evidence[i].health == Healthy
                && forall j :: 0 <= j < i ==> evidence[j].tool != GetHealth
  }

  function Total(fs: seq<RawFinding>): real {
    if fs == [] then 0.0 else Total(fs[..|fs| - 1]) + fs[|fs| - 1].confidence
  }

  lemma {:induction false} TotalOfFirst(f: RawFinding, fs: seq<RawFinding>)
    ensures Total([f] + fs) == f.confidence + Total(fs)
  {
    if fs == [] {
      assert [f] + fs == [f] && [f][..0] == [];
    } else {
      TotalOfFirst(f, fs[..|fs| - 1]);
      assert ([f] + fs)[..|fs|] == [f] + fs[..|fs| - 1];
    }
  }

  lemma {:induction false} SumIsTotal(fs: seq<RawFinding>)
    ensures SumConfidence(fs) == Total(fs)
  {
    if fs != [] {
      SumIsTotal(fs[1..]);
      TotalOfFirst(fs[0], fs[1..]);
      assert [fs[0]] + fs[1..] == fs;
    }
  }

  lemma {:induction false} FirstHealthSays(evidence: seq<Evidence>)
    ensures FirstHealth(evidence) == Some(Healthy) <==> SaysHealthy(evidence)
  {
    if evidence != [] {
      var rest := evidence[1..];
      FirstHealthSays(rest);
      if evidence[0].tool != GetHealth {
        if SaysHealthy(rest) {
          var i :| 0 <= i < |rest| && rest[i].tool == GetHealth && rest[i].health == Healthy
                   && forall j :: 0 <= j < i ==> rest[j].tool != GetHealth;
          assert evidence[i + 1] == rest[i];
        }
        if SaysHealthy(evidence) {
          var i :| 0 <= i < |evidence| && evidence[i].tool == GetHealth && evidence[i].health == Healthy
                   && forall j :: 0 <= j < i ==> evidence[j].tool != GetHealth;
          assert rest[i - 1] == evidence[i] && forall j :: 0 <= j < i - 1 ==> rest[j] == evidence[j + 1];
        }
      }
    }
  }

  // The findings contradict the primary evidence: it says healthy, and they are trusted above 0.6 on average.
  predicate Contradicts(s: RunState, fs: seq<RawFinding>) {
    SaysHealthy(s.evidence) && fs != [] && Total(fs) > 0.6 * |fs| as real
  }

  lemma ConflictingIff(s: RunState, fs: seq<RawFinding>)
    ensures Conflicting(s, fs) <==> Contradicts(s, fs)
  {
    hide SaysHealthy, Total, FirstHealth;
    FirstHealthSays(s.evidence);
    SumIsTotal(fs);
    if fs != [] { MeanAbove(Total(fs), |fs|); }
  }

  lemma MeanAbove(total: real, n: nat)
    requires n > 0
    ensures total / n as real > 0.6 <==> total > 0.6 * n as real
  {
    var mean := total / n as real;
    assert total == mean * n as real;
    ScaledUp(mean, 0.6, n as real);
  }

  lemma ScaledUp(x: real, y: real, k: real)
    requires k > 0.0
    ensures x > y <==> x * k > y * k
  {
    assert (x - y) * k == x * k - y * k;
  }

  /** The correlation: it notes a contradiction, and leaves every finding as it is but for its confidence, which a
      contradiction caps at 0.6 and a degraded run then lowers by 0.15, rounded to hundredths. */
  lemma CorrelationOutcomes(env: Env, s: RunState)
    requires s.node == Correlate
    ensures var r, fs := Dispatch(env, s), s.specialist.GetOr([]);
            var contradicted := Contradicts(s, fs);
            && r.signal == Next && r.state.node == Findings && r.state.meter == s.meter
            && r.state.fallback == s.fallback
            && Logs(s, r.state, [MessageDelta]) && r.state.conflict == (s.conflict || contradicted)
            && r.state.specialist.Some? == s.specialist.Some? && |r.state.specialist.GetOr([])| == |fs|
            && forall k :: 0 <= k < |fs| ==>
                 var capped := if contradicted && fs[k].confidence > 0.6 then 0.6 else fs[k].confidence;
                 r.state.specialist.GetOr([])[k]
                 == fs[k].(confidence := if s.fallback then Round2(capped - 0.15) else capped)
  {
    var fs := s.specialist.GetOr([]);
    ConflictingIff(s, fs);
    hide Conflicting, Contradicts, CapAll, DiscountAll, Round2;
    forall k | 0 <= k < |fs|
      ensures CapAll(fs)[k] == fs[k].(confidence := if fs[k].confidence > 0.6 then 0.6 else fs[k].confidence)
      ensures DiscountAll(fs)[k] == fs[k].(confidence := Round2(fs[k].confidence - 0.15))
      ensures DiscountAll(CapAll(fs))[k]
              == CapAll(fs)[k].(confidence := Round2(CapAll(fs)[k].confidence - 0.15))
    {
      CapAllSays(fs, k);
      DiscountAllSays(fs, k);
      DiscountAllSays(CapAll(fs), k);
    }
  }

  lemma {:induction false} CapAllSays(fs: seq<RawFinding>, k: nat)
    requires k < |fs|
    ensures CapAll(fs)[k] == fs[k].(confidence := if fs[k].confidence > 0.6 then 0.6 else fs[k].confidence)
  {
    if k > 0 { CapAllSays(fs[1..], k - 1); }
  }

  lemma {:induction false} DiscountAllSays(fs: seq<RawFinding>, k: nat)
    requires k < |fs|
    ensures DiscountAll(fs)[k] == fs[k].(confidence := Round2(fs[k].confidence - 0.15))
  {
    hide Round2;
    if k > 0 { DiscountAllSays(fs[1..], k - 1); }
  }

  // A raw finding that is kept: with a title, a summary and a reference.
  predicate Keepable(f: RawFinding) {
    Strip(f.title) != "" && Strip(f.summary) != "" && exists i :: 0 <= i < |f.refs| && f.refs[i] != ""
  }

  // What is kept of it: texts stripped and cut, the references that are not empty, the confidence in [0, 1], and
  // the severity that goes with it.
  predicate KeptAs(i: nat, f: RawFinding, g: Finding) {
    && g.index == i && g.title == Clip(Strip(f.title), 256) && g.summary == Clip(Strip(f.summary), 4000)
    && g.refs == Clip(NonEmpty(f.refs), 16)
    && g.confidence == (if f.confidence < 0.0 then 0.0 else if f.confidence > 1.0 then 1.0 else f.confidence)
    && g.severity == (if g.confidence >= 0.75 then High else if g.confidence >= 0.5 then Medium else Low)
  }

  lemma {:induction false} NonEmptySays(refs: seq<string>)
    ensures forall r :: r in NonEmpty(refs) <==> r in refs && r != ""
    ensures NonEmpty(refs) != [] <==> exists i :: 0 <= i < |refs| && refs[i] != ""
    ensures forall r :: r != "" ==> multiset(NonEmpty(refs))[r] == multiset(refs)[r]
  {
    if refs != [] {
      assert refs == [refs[0]] + refs[1..];
      NonEmptySays(refs[1..]);
      if i :| 0 <= i < |refs| && refs[i] != "" {
        assert i > 0 ==> refs[1..][i - 1] == refs[i];
      }
      if i :| 0 <= i < |refs[1..]| && refs[1..][i] != "" {
        assert refs[i + 1] == refs[1..][i];
      }
    }
  }

  lemma NormalisedSays(i: nat, f: RawFinding)
    ensures Normalised(i, f).Some? <==> Keepable(f)
    ensures Normalised(i, f).Some? ==> KeptAs(i, f, Normalised(i, f).value)
  {
    hide Strip, NonEmpty;
    NonEmptySays(f.refs);
  }

  // Each finding is what is kept of the raw one whose number it has.
  predicate EachIsKept(raw: seq<RawFinding>, from: nat, kept: seq<Finding>) {
    forall k :: 0 <= k < |kept| ==>
      var i := kept[k].index;
      from <= i < |raw| && Keepable(raw[i]) && KeptAs(i, raw[i], kept[k])
  }

  predicate InOrder(kept: seq<Finding>) {
    forall j, k :: 0 <= j < k < |kept| ==> kept[j].index < kept[k].index
  }

  predicate IsAmong(i: nat, kept: seq<Finding>) { exists k :: 0 <= k < |kept| && kept[k].index == i }

  // `kept` are the keepable ones from number `from` on, in order, each once.
  predicate KeepsFrom(raw: seq<RawFinding>, from: nat, kept: seq<Finding>)
    requires from <= |raw|
  {
    && EachIsKept(raw, from, kept) && InOrder(kept)
    && forall i: nat :: from <= i < |raw| && Keepable(raw[i]) ==> IsAmong(i, kept)
  }

  lemma {:induction false} NormaliseKeeps(raw: seq<RawFinding>, i: nat)
    requires i <= |raw|
    ensures KeepsFrom(raw, i, NormaliseFrom(raw, i))
    decreases |raw| - i
  {
    hide Normalised, Keepable, KeptAs, KeepsFrom;
    if i == |raw| {
      NoneKept(raw);
    } else {
      NormaliseKeeps(raw, i + 1);
      NormalisedSays(i, raw[i]);
      IndexOfNormalised(i, raw[i]);
      OneMoreKept(raw, i, Normalised(i, raw[i]), NormaliseFrom(raw, i + 1));
    }
  }

  lemma NoneKept(raw: seq<RawFinding>)
    ensures KeepsFrom(raw, |raw|, [])
  {
  }

  lemma OneMoreKept(raw: seq<RawFinding>, i: nat, first: Option<Finding>, rest: seq<Finding>)
    requires i < |raw| && KeepsFrom(raw, i + 1, rest) && (first.Some? <==> Keepable(raw[i]))
    requires first.Some? ==> first.value.index == i && KeptAs(i, raw[i], first.value)
    ensures KeepsFrom(raw, i, if first.Some? then [first.value] + rest else rest)
  {
    hide Keepable, KeptAs;
    var kept := if first.Some? then [first.value] + rest else rest;
    assert EachIsKept(raw, i, kept) && InOrder(kept);
    hide EachIsKept, InOrder, IsAmong;
    forall j: nat | i <= j < |raw| && Keepable(raw[j])
      ensures IsAmong(j, kept)
    {
      if j > i { assert IsAmong(j, rest); }
      if first.Some? { AmongMore(j, first.value, rest); }
    }
  }

  lemma AmongMore(j: nat, first: Finding, rest: seq<Finding>)
    ensures j == first.index || IsAmong(j, rest) ==> IsAmong(j, [first] + rest)
  {
    var kept := [first] + rest;
    assert kept[0] == first;
    if IsAmong(j, rest) {
      var k :| 0 <= k < |rest| && rest[k].index == j;
      assert kept[k + 1].index == j;
    }
  }

  lemma IndexOfNormalised(i: nat, f: RawFinding)
    ensures Normalised(i, f).Some? ==> Normalised(i, f).value.index == i
  {
  }

  lemma NonEmptyFirst(ref: string, rest: seq<string>)
    ensures NonEmpty([ref] + rest) == (if ref != "" then [ref] else []) + NonEmpty(rest)
  {
    assert ([ref] + rest)[1..] == rest;
  }

  lemma {:induction false} NonEmptyJoins(a: seq<string>, b: seq<string>)
    ensures NonEmpty(a + b) == NonEmpty(a) + NonEmpty(b)
  {
    if a == [] {
      assert a + b == b;
    } else {
      NonEmptyJoins(a[1..], b);
      NonEmptyFirst(a[0], a[1..]);
      NonEmptyFirst(a[0], a[1..] + b);
      hide NonEmpty;
      assert a == [a[0]] + a[1..] && a + b == [a[0]] + (a[1..] + b);
    }
  }

  // The finding a run makes for itself, of the first two pieces of evidence.
  predicate IsOwn(f: RawFinding, service: string, evidence: seq<Evidence>) {
    && f.title == "Elevated errors in " + service && f.confidence == 0.45 && f.summary != ""
    && |f.refs| == (if |evidence| < 2 then |evidence| else 2)
    && forall i :: 0 <= i < |f.refs| ==> f.refs[i] == evidence[i].ref
  }

  lemma {:induction false} RefsSay(evidence: seq<Evidence>)
    ensures |RefsOf(evidence)| == |evidence|
    ensures forall i :: 0 <= i < |evidence| ==> RefsOf(evidence)[i] == evidence[i].ref
  {
    if evidence != [] { RefsSay(evidence[1..]); }
  }

  // The raw findings a run has: the specialist's, or its own one if there are none and it has evidence.
  lemma RawFindingsSay(env: Env, s: RunState)
    ensures var given, raw := s.specialist.GetOr([]), RawFindings(env, s);
            if given != [] || s.evidence == [] then raw == given
            else |raw| == 1 && IsOwn(raw[0], env.service, s.evidence)
  {
    RefsSay(Clip(s.evidence, 2));
  }

  // One event for each finding.
  function Announced(fs: seq<Finding>): (r: seq<Event>)
    ensures |r| == |fs| && forall i :: 0 <= i < |fs| ==> r[i] == FindingCreated(fs[i])
  {
    seq(|fs|, i requires 0 <= i < |fs| => FindingCreated(fs[i]))
  }

  lemma {:induction false} FindingsAreLogged(s: RunState, fs: seq<Finding>)
    ensures Logs(s, EmitFindings(s, fs), Announced(fs))
  {
    if fs == [] {
      assert EmitFindings(s, fs) == s;
    } else {
      var front := fs[..|fs| - 1];
      FindingsAreLogged(s, front);
      assert Announced(fs) == Announced(front) + [FindingCreated(fs[|fs| - 1])];
      var told := EmitFindings(s, front);
      assert Logs(told, EmitFindings(s, fs), [FindingCreated(fs[|fs| - 1])]);
      hide Announced, EmitFindings, Logs;
      LogsJoin(s, told, EmitFindings(s, fs), Announced(front), [FindingCreated(fs[|fs| - 1])]);
    }
  }

  lemma {:induction false} MaxIsReached(fs: seq<Finding>, bound: real)
    requires bound > 0.0
    ensures MaxConfidence(fs) >= bound <==> exists i :: 0 <= i < |fs| && fs[i].confidence >= bound
  {
    if fs != [] {
      MaxIsReached(fs[1..], bound);
      if i :| 0 <= i < |fs| && fs[i].confidence >= bound {
        assert i > 0 ==> fs[1..][i - 1] == fs[i];
      }
      if i :| 0 <= i < |fs[1..]| && fs[1..][i].confidence >= bound {
        assert fs[i + 1] == fs[1..][i];
      }
    }
  }

  /** The findings: of the raw ones, those that can be kept are kept, in order, and logged one by one; the run goes
      on if and only if one of them has a confidence of 0.5 at least, and else ends for more information. */
  lemma FindingsOutcomes(env: Env, s: RunState)
    requires s.node == Findings
    ensures var r := Dispatch(env, s);
            var fs := r.state.findings;
            && KeepsFrom(RawFindings(env, s), 0, fs) && r.state.meter == s.meter && !r.signal.Raise?
            && (r.signal == Next <==> exists i :: 0 <= i < |fs| && fs[i].confidence >= 0.5)
            && (r.signal == Next ==>
                  r.state.node == Propose && r.state.verdict == s.verdict && Logs(s, r.state, Announced(fs)))
            && (r.signal == Return ==>
                  && r.state.node == Complete && r.state.verdict == Some(MoreInfo) && r.state.status == StatusCompleted
                  && Logs(s, r.state, Announced(fs) + [MessageDelta, RunCompleted(MoreInfo)]))
  {
    hide RawFindings, NormaliseFrom, EmitFindings, MaxConfidence, KeepsFrom, Logs, Announced;
    var raw := RawFindings(env, s);
    var fs := NormaliseFrom(raw, 0);
    NormaliseKeeps(raw, 0);
    MaxIsReached(fs, 0.5);
    var found := s.(findings := fs);
    FindingsAreLogged(found, fs);
    EmitFindingsOnlyLogs(found, fs);
    FindingsEnd(s, found, EmitFindings(found, fs), Announced(fs));
    EndsEarly(Save(EmitFindings(found, fs)), MoreInfo);
    hide EndEarly;
  }

  lemma FindingsEnd(s: RunState, found: RunState, told: RunState, events: seq<Event>)
    requires found.log == s.log && Logs(found, told, events)
    ensures Logs(s, Save(Save(told).(node := Propose)), events)
    ensures Logs(s, EndEarly(Save(told), MoreInfo), events + [MessageDelta, RunCompleted(MoreInfo)])
  {
    var ended := EndEarly(Save(told), MoreInfo);
    assert Logs(told, ended, [MessageDelta, RunCompleted(MoreInfo)]);
    LogsJoin(s, told, ended, events, [MessageDelta, RunCompleted(MoreInfo)]);
  }

  // The first of the most trusted findings.
  predicate IsFirstBest(fs: seq<Finding>, i: nat) {
    && i < |fs| && (forall j :: 0 <= j < |fs| ==> fs[j].confidence <= fs[i].confidence)
    && forall j :: 0 <= j < i ==> fs[j].confidence < fs[i].confidence
  }

  lemma {:induction false} TopIsFirstBest(fs: seq<Finding>) returns (i: nat)
    requires fs != []
    ensures IsFirstBest(fs, i) && Top(fs) == fs[i]
  {
    if |fs| == 1 {
      i := 0;
    } else {
      var rest := fs[1..];
      var k := TopIsFirstBest(rest);
      assert forall j :: 1 <= j < |fs| ==> fs[j] == rest[j - 1];
      i := if fs[0].confidence >= rest[k].confidence then 0 else k + 1;
    }
  }

  /** The proposals: a ticket of the severity of the most trusted finding, and with it a rollback if and only if the
      title of some finding mentions a deployment. Without findings, or if the arguments of either do not pass,
      the step crashes. */
  lemma ProposalOutcomes(env: Env, s: RunState)
    requires s.node == Propose
    ensures var r := Dispatch(env, s);
            var deployed := exists i :: 0 <= i < |s.findings| && Contains(s.findings[i].title, "deployment");
            && r.state.meter == s.meter && r.state.findings == s.findings && r.signal != Return
            && (r.signal == Next <==>
                  s.findings != [] && env.argsOk(TicketCreate) && (deployed ==> env.argsOk(Rollback)))
            && (r.signal != Next ==> r == Step(s, Raise(Crashed)))
            && (r.signal == Next ==>
                  && r.state.node == Policy && Logs(s, r.state, [MessageDelta])
                  && exists i: nat :: IsFirstBest(s.findings, i)
                       && var ticket := Action(TicketCreate, s.findings[i].severity, false);
                          r.state.actions == if deployed then [ticket, Action(Rollback, Medium, true)] else [ticket])
  {
    hide Contains, IsFirstBest;
    assert forall i :: 0 <= i < |s.findings| ==> s.findings[i] in s.findings;
    if s.findings != [] { var i := TopIsFirstBest(s.findings); }
    hide Top;
  }
}
