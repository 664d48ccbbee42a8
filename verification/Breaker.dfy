/** The circuit breaker (apps/orchestrator/graph.py): opens a dependency after three consecutive
    failures. */
module Breaker {

  datatype Dependency = Mcp | A2a

  const THRESHOLD: nat := 3

  /** The breaker's counters and open set. */
  datatype State = State(failures: map<Dependency, nat>, open: set<Dependency>)

  const CLOSED := State(map[], {})

  function Failures(b: State, d: Dependency): nat { if d in b.failures then b.failures[d] else 0 }

  function Success(b: State, d: Dependency): State {
    State(b.failures[d := 0], b.open - {d})
  }

  function Failure(b: State, d: Dependency): State {
    var n := Failures(b, d) + 1;
    State(b.failures[d := n], if n >= THRESHOLD then b.open + {d} else b.open)
  }

  /** One guarded call: its dependency, and whether it would succeed if it were made. */
  datatype Attempt = Attempt(dep: Dependency, succeeds: bool)

  // Guard first; a call behind an open breaker is not made.
  function Guarded(b: State, a: Attempt): State {
    if a.dep in b.open then b else if a.succeeds then Success(b, a.dep) else Failure(b, a.dep)
  }

  function After(b: State, attempts: seq<Attempt>): State {
    if attempts == [] then b else Guarded(After(b, attempts[..|attempts| - 1]), attempts[|attempts| - 1])
  }

  // The calls of one dependency that were really made.
  function Made(b: State, attempts: seq<Attempt>, d: Dependency): seq<Attempt> {
    if attempts == [] then []
    else
      var front, last := attempts[..|attempts| - 1], attempts[|attempts| - 1];
      if last.dep == d && d !in After(b, front).open then Made(b, front, d) + [last] else Made(b, front, d)
  }

  // The length of the run of failures at the end.
  function Trailing(calls: seq<Attempt>): nat {
    if calls == [] || calls[|calls| - 1].succeeds then 0 else 1 + Trailing(calls[..|calls| - 1])
  }

  // A dependency is open exactly when its counter has reached the threshold.
  predicate Consistent(b: State) {
    forall d :: d in b.open <==> Failures(b, d) >= THRESHOLD
  }

  lemma OpenAtThreshold(b: State, d: Dependency)
    requires Consistent(b)
    ensures d in b.open <==> Failures(b, d) >= THRESHOLD
  {
  }

  lemma OutcomesKeepConsistent(b: State, d: Dependency)
    requires Consistent(b)
    ensures Consistent(Success(b, d)) && Consistent(Failure(b, d))
  {
  }

  /** For any history of guarded calls, the counter is the number of failures the dependency's calls end
      with, and it is open exactly when that number has reached the threshold, which it never passes. */
  lemma {:induction false} OpenIffTrailingFailures(attempts: seq<Attempt>, d: Dependency)
    ensures Failures(After(CLOSED, attempts), d) == Trailing(Made(CLOSED, attempts, d)) <= 3
    ensures d in After(CLOSED, attempts).open <==> Trailing(Made(CLOSED, attempts, d)) == 3
  {
    if attempts != [] {
      var front, last := attempts[..|attempts| - 1], attempts[|attempts| - 1];
      OpenIffTrailingFailures(front, d);
      if last.dep == d && d !in After(CLOSED, front).open {
        var made := Made(CLOSED, front, d) + [last];
        assert made[..|made| - 1] == Made(CLOSED, front, d);
      }
    }
  }

  /** Once open, a dependency stays open and is never called again. */
  lemma {:induction false} OpenIsForGood(b: State, attempts: seq<Attempt>, more: seq<Attempt>, d: Dependency)
    requires d in After(b, attempts).open
    ensures d in After(b, attempts + more).open
    ensures Made(b, attempts + more, d) == Made(b, attempts, d)
  {
    if more == [] {
      assert attempts + more == attempts;
    } else {
      var whole := attempts + more;
      assert whole[..|whole| - 1] == attempts + more[..|more| - 1];
      OpenIsForGood(b, attempts, more[..|more| - 1], d);
    }
  }

  class CircuitBreaker {
    var failures: map<Dependency, nat>
    var open: set<Dependency>

    function Snapshot(): State
      reads this
    {
      State(failures, open)
    }

    constructor ()
      ensures Snapshot() == CLOSED
    {
      failures, open := map[], {};
    }

    method Guard(d: Dependency) returns (isOpen: bool)
      ensures isOpen == (d in open)
    {
      isOpen := d in open;
    }

    method RecordSuccess(d: Dependency)
      modifies this
      ensures Snapshot() == Success(old(Snapshot()), d)
    {
      failures := failures[d := 0];
      open := open - {d};
    }

    method RecordFailure(d: Dependency)
      modifies this
      ensures Snapshot() == Failure(old(Snapshot()), d)
    {
      var n := (if d in failures then failures[d] else 0) + 1;
      failures := failures[d := n];
      if n >= THRESHOLD {
        open := open + {d};
      }
    }
  }
}
