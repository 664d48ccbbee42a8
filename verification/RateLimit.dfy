/** The token-bucket rate limiter (packages/security/limits.py) over unbounded call traces, with exact
    real arithmetic in place of floats. */
module RateLimit {

  type Key = string

  /** A limiter's burst capacity and the tokens it earns in a span of time. */
  datatype Config = Config(capacity: int, earn: real -> real)

  // The source's limiter: `refill_per_sec` tokens a second.
  function PerSecond(capacity: int, refill: real): Config {
    Config(capacity, (dt: real) => dt * refill)
  }

  ghost predicate EarnsApart(cfg: Config, x: real, y: real) {
    cfg.earn(x - y) == cfg.earn(x) - cfg.earn(y)
  }

  // All that the proofs need of the earnings: they add up over time, and never shrink.
  ghost predicate Steady(cfg: Config) {
    && (forall x: real, y: real :: EarnsApart(cfg, x, y))
    && (forall x: real, y: real :: x <= y ==> cfg.earn(x) <= cfg.earn(y))
  }

  // A limiter's own parameters: its capacity, and what it earns in a span of time.
  ghost predicate Refills(cfg: Config, capacity: int, refill: real) {
    cfg.capacity == capacity && forall dt: real :: cfg.earn(dt) == dt * refill
  }

  lemma RefillingIsSteady(cfg: Config, refill: real)
    requires refill >= 0.0 && Refills(cfg, cfg.capacity, refill)
    ensures Steady(cfg)
  {
    forall x: real, y: real
      ensures EarnsApart(cfg, x, y)
      ensures x <= y ==> cfg.earn(x) <= cfg.earn(y)
    {
      assert (x - y) * refill == x * refill - y * refill;
    }
  }

  datatype Bucket = Bucket(tokens: real, updated: real)

  function Min(a: real, b: real): real { if a < b then a else b }

  // The tokens a bucket holds at `now`.
  function Refilled(cfg: Config, b: Bucket, now: real): real {
    Min(cfg.capacity as real, b.tokens + cfg.earn(now - b.updated))
  }

  // The bucket of a key that may not have been seen before.
  function Lookup(cfg: Config, buckets: map<Key, Bucket>, key: Key, now: real): Bucket {
    if key in buckets then buckets[key] else Bucket(cfg.capacity as real, now)
  }

  function Decide(cfg: Config, b: Bucket, now: real): (bool, Bucket) {
    var tokens := Refilled(cfg, b, now);
    if tokens < 1.0 then (false, Bucket(tokens, now)) else (true, Bucket(tokens - 1.0, now))
  }

  datatype Call = Call(key: Key, now: real)

  function After(cfg: Config, trace: seq<Call>): map<Key, Bucket> {
    if trace == [] then map[]
    else
      var before := After(cfg, trace[..|trace| - 1]);
      var c := trace[|trace| - 1];
      before[c.key := Decide(cfg, Lookup(cfg, before, c.key, c.now), c.now).1]
  }

  // Whether one more call `c` after `trace` is let through.
  predicate Allows(cfg: Config, trace: seq<Call>, c: Call) {
    Decide(cfg, Lookup(cfg, After(cfg, trace), c.key, c.now), c.now).0
  }

  // Whether call `i` of the trace was let through.
  predicate Allowed(cfg: Config, trace: seq<Call>, i: nat)
    requires i < |trace|
  {
    Allows(cfg, trace[..i], trace[i])
  }

  // How many of the key's calls with a time in [s, e] were let through.
  function Granted(cfg: Config, trace: seq<Call>, key: Key, s: real, e: real): (n: nat) {
    if trace == [] then 0
    else
      var c := trace[|trace| - 1];
      Granted(cfg, trace[..|trace| - 1], key, s, e)
      + if c.key == key && s <= c.now <= e && Allowed(cfg, trace, |trace| - 1) then 1 else 0
  }

  // Call `i` is one of the key's, has a time in [s, e], and was let through.
  predicate GrantedAt(cfg: Config, trace: seq<Call>, key: Key, s: real, e: real, i: nat) {
    i < |trace| && trace[i].key == key && s <= trace[i].now <= e && Allowed(cfg, trace, i)
  }

  lemma GrantedAtInFront(cfg: Config, trace: seq<Call>, key: Key, s: real, e: real, i: nat)
    requires i < |trace| - 1
    ensures GrantedAt(cfg, trace[..|trace| - 1], key, s, e, i) == GrantedAt(cfg, trace, key, s, e, i)
  {
    hide Allows;
    assert trace[..|trace| - 1][..i] == trace[..i];
  }

  lemma GrantedLast(cfg: Config, trace: seq<Call>, key: Key, s: real, e: real)
    ensures trace == [] ==> Granted(cfg, trace, key, s, e) == 0
    ensures trace != [] ==>
              Granted(cfg, trace, key, s, e) == Granted(cfg, trace[..|trace| - 1], key, s, e)
                                                + if GrantedAt(cfg, trace, key, s, e, |trace| - 1) then 1 else 0
  {
    hide Allows;
  }

  lemma {:induction false} GrantedCounts(cfg: Config, trace: seq<Call>, key: Key, s: real, e: real)
    ensures Granted(cfg, trace, key, s, e) == |set i: nat | i < |trace| && GrantedAt(cfg, trace, key, s, e, i)|
  {
    hide GrantedAt, Granted;
    GrantedLast(cfg, trace, key, s, e);
    var all := set i: nat | i < |trace| && GrantedAt(cfg, trace, key, s, e, i);
    if trace == [] {
      assert all == {};
    } else {
      var front, n := trace[..|trace| - 1], |trace| - 1;
      GrantedCounts(cfg, front, key, s, e);
      var before := set i: nat | i < n && GrantedAt(cfg, front, key, s, e, i);
      forall i: nat | i < n
        ensures GrantedAt(cfg, front, key, s, e, i) == GrantedAt(cfg, trace, key, s, e, i)
      {
        GrantedAtInFront(cfg, trace, key, s, e, i);
      }
      assert all == before + if GrantedAt(cfg, trace, key, s, e, n) then {n} else {};
    }
  }

  // How many calls from index `from` on were let through.
  function Passed(cfg: Config, trace: seq<Call>, from: nat): (n: nat)
    requires from <= |trace|
  {
    if |trace| == from then 0
    else Passed(cfg, trace[..|trace| - 1], from) + if Allowed(cfg, trace, |trace| - 1) then 1 else 0
  }

  // The calls that were let through.
  function OnlyAllowed(cfg: Config, trace: seq<Call>): seq<Call> {
    if trace == [] then []
    else if Allowed(cfg, trace, |trace| - 1) then OnlyAllowed(cfg, trace[..|trace| - 1]) + [trace[|trace| - 1]]
    else OnlyAllowed(cfg, trace[..|trace| - 1])
  }

  // --------------------------------------------------------------------------------------------
  // One key, in token time
  // --------------------------------------------------------------------------------------------

  // Measuring time in tokens (seconds times refill rate) makes one key's bucket linear: the level at
  // `u` after calls at `us`.
  function LevelAt(cap: real, us: seq<real>, u: real): real {
    if us == [] then cap
    else
      var last := us[|us| - 1];
      var before := LevelAt(cap, us[..|us| - 1], last);
      Min(cap, before - Spent(before) + (u - last))
  }

  function Spent(level: real): real { if level < 1.0 then 0.0 else 1.0 }

  function CountIn(cap: real, us: seq<real>, lo: real, hi: real): (n: nat) {
    if us == [] then 0
    else
      var front, last := us[..|us| - 1], us[|us| - 1];
      CountIn(cap, front, lo, hi) + if lo <= last <= hi && LevelAt(cap, front, last) >= 1.0 then 1 else 0
  }

  // Tokens left after the last call, less the token time that has passed: no call ever raises it.
  function Potential(cap: real, us: seq<real>): real
    requires us != []
  {
    var last := us[|us| - 1];
    var before := LevelAt(cap, us[..|us| - 1], last);
    before - Spent(before) - last
  }

  // From the first call granted in the window on, the potential pays for every grant.
  lemma {:induction false} PotentialPays(cap: real, us: seq<real>, lo: real, hi: real)
    requires CountIn(cap, us, lo, hi) > 0
    ensures Potential(cap, us) <= cap - lo - CountIn(cap, us, lo, hi) as real
  {
    var front := us[..|us| - 1];
    if CountIn(cap, front, lo, hi) > 0 {
      PotentialPays(cap, front, lo, hi);
    }
  }

  lemma {:induction false} CountIsBounded(cap: real, us: seq<real>, lo: real, hi: real)
    requires CountIn(cap, us, lo, hi) > 0
    ensures CountIn(cap, us, lo, hi) as real <= cap + (hi - lo)
  {
    var front, last := us[..|us| - 1], us[|us| - 1];
    if lo <= last <= hi && LevelAt(cap, front, last) >= 1.0 {
      PotentialPays(cap, us, lo, hi);
    } else {
      CountIsBounded(cap, front, lo, hi);
    }
  }

  ghost predicate Climbing(us: seq<real>) {
    forall i, j :: 0 <= i < j < |us| ==> us[i] <= us[j]
  }

  function PassedFrom(cap: real, us: seq<real>, from: nat): (n: nat)
    requires from <= |us|
  {
    if |us| == from then 0
    else PassedFrom(cap, us[..|us| - 1], from)
         + if LevelAt(cap, us[..|us| - 1], us[|us| - 1]) >= 1.0 then 1 else 0
  }

  // What is left, at `u`, of the allowance that opened with call `i`.
  function Room(cap: real, us: seq<real>, i: nat, u: real): real
    requires i < |us|
  {
    cap + (u - us[i]) - PassedFrom(cap, us, i) as real
  }

  // The bucket's level is the smallest room over all windows, capped by the capacity.
  lemma {:induction false} LevelIsLeastRoom(cap: real, us: seq<real>, u: real)
    requires Climbing(us + [u])
    ensures LevelAt(cap, us, u) <= cap
    ensures forall i :: 0 <= i < |us| ==> LevelAt(cap, us, u) <= Room(cap, us, i, u)
    ensures LevelAt(cap, us, u) == cap || exists i :: 0 <= i < |us| && LevelAt(cap, us, u) == Room(cap, us, i, u)
  {
    if us != [] {
      var n := |us| - 1;
      var front, last := us[..n], us[n];
      assert (us + [u])[n] == last && (us + [u])[n + 1] == u;
      assert front + [last] == us;
      assert forall i :: 0 <= i <= n ==> us[i] == (us + [u])[i];
      LevelIsLeastRoom(cap, front, last);
      var change := (u - last) - Spent(LevelAt(cap, front, last));
      forall i | 0 <= i < n
        ensures Room(cap, us, i, u) == Room(cap, front, i, last) + change
      {
      }
      assert PassedFrom(cap, us, n) as real == Spent(LevelAt(cap, front, last));
      assert Room(cap, us, n, u) == cap + change;
      assert LevelAt(cap, us, u) == Min(cap, LevelAt(cap, front, last) + change);
      if LevelAt(cap, front, last) != cap {
        var i :| 0 <= i < |front| && LevelAt(cap, front, last) == Room(cap, front, i, last);
        assert Room(cap, us, i, u) == LevelAt(cap, front, last) + change;
      }
    }
  }

  function Granting(cap: real, us: seq<real>): seq<real> {
    if us == [] then []
    else
      var front, last := us[..|us| - 1], us[|us| - 1];
      if LevelAt(cap, front, last) >= 1.0 then Granting(cap, front) + [last] else Granting(cap, front)
  }

  // A denied call finds the bucket below one token, so the capacity does not cut what it writes back.
  lemma {:induction false} DeniedCallsDoNotMoveTheLevel(cap: real, us: seq<real>, u: real)
    requires cap >= 1.0
    ensures LevelAt(cap, Granting(cap, us), u) == LevelAt(cap, us, u)
  {
    if us != [] {
      var front, last := us[..|us| - 1], us[|us| - 1];
      var kept := Granting(cap, front);
      DeniedCallsDoNotMoveTheLevel(cap, front, last);
      if LevelAt(cap, front, last) >= 1.0 {
        var mine := kept + [last];
        assert Granting(cap, us) == mine && mine[..|mine| - 1] == kept;
      } else {
        LevelMoves(cap, kept, last, u);
      }
    }
  }

  lemma LevelMoves(cap: real, us: seq<real>, t: real, u: real)
    requires cap >= 1.0 && LevelAt(cap, us, t) < 1.0
    ensures LevelAt(cap, us, u) == Min(cap, LevelAt(cap, us, t) + (u - t))
  {
  }

  lemma LevelIsCapped(cap: real, us: seq<real>, u: real)
    ensures LevelAt(cap, us, u) <= cap
  {
  }

  // --------------------------------------------------------------------------------------------
  // From traces to token time
  // --------------------------------------------------------------------------------------------

  // The key's calls, in token time.
  function Units(cfg: Config, trace: seq<Call>, key: Key): seq<real> {
    if trace == [] then []
    else
      var c := trace[|trace| - 1];
      if c.key == key then Units(cfg, trace[..|trace| - 1], key) + [cfg.earn(c.now)]
      else Units(cfg, trace[..|trace| - 1], key)
  }

  lemma RefilledInUnits(cfg: Config, b: Bucket, now: real)
    requires Steady(cfg)
    ensures Refilled(cfg, b, now)
         == Min(cfg.capacity as real, b.tokens + (cfg.earn(now) - cfg.earn(b.updated)))
  {
    assert EarnsApart(cfg, now, b.updated);
  }

  lemma {:induction false} LevelInUnits(cfg: Config, trace: seq<Call>, key: Key, now: real)
    requires Steady(cfg)
    ensures Refilled(cfg, Lookup(cfg, After(cfg, trace), key, now), now)
         == LevelAt(cfg.capacity as real, Units(cfg, trace, key), cfg.earn(now))
  {
    if trace == [] {
      RefilledInUnits(cfg, Bucket(cfg.capacity as real, now), now);
    } else {
      var front, c := trace[..|trace| - 1], trace[|trace| - 1];
      if c.key == key {
        LevelInUnits(cfg, front, key, c.now);
        var us := Units(cfg, front, key) + [cfg.earn(c.now)];
        assert us[..|us| - 1] == Units(cfg, front, key);
        RefilledInUnits(cfg, After(cfg, trace)[key], now);
      } else {
        LevelInUnits(cfg, front, key, now);
      }
    }
  }

  // The limiter's decision is a function of the key's own calls.
  lemma AllowsInUnits(cfg: Config, trace: seq<Call>, c: Call)
    requires Steady(cfg)
    ensures Allows(cfg, trace, c)
       <==> LevelAt(cfg.capacity as real, Units(cfg, trace, c.key), cfg.earn(c.now)) >= 1.0
  {
    LevelInUnits(cfg, trace, c.key, c.now);
  }

  function OfKey(trace: seq<Call>, key: Key): seq<Call> {
    if trace == [] then []
    else if trace[|trace| - 1].key == key then OfKey(trace[..|trace| - 1], key) + [trace[|trace| - 1]]
    else OfKey(trace[..|trace| - 1], key)
  }

  lemma {:induction false} BucketDependsOnKeyOnly(cfg: Config, trace: seq<Call>, key: Key)
    ensures key in After(cfg, trace) <==> key in After(cfg, OfKey(trace, key))
    ensures key in After(cfg, trace) ==> After(cfg, trace)[key] == After(cfg, OfKey(trace, key))[key]
  {
    if trace != [] {
      var front, c := trace[..|trace| - 1], trace[|trace| - 1];
      BucketDependsOnKeyOnly(cfg, front, key);
      if c.key == key {
        var mine := OfKey(front, key) + [c];
        assert mine[..|mine| - 1] == OfKey(front, key) && mine[|mine| - 1] == c;
        assert After(cfg, mine)[key] == Decide(cfg, Lookup(cfg, After(cfg, OfKey(front, key)), key, c.now), c.now).1;
      }
    }
  }

  /** Keys do not interfere: a decision depends only on the earlier calls with the same key. */
  lemma KeysDoNotInterfere(cfg: Config, trace: seq<Call>, c: Call)
    ensures Allows(cfg, trace, c) == Allows(cfg, OfKey(trace, c.key), c)
  {
    BucketDependsOnKeyOnly(cfg, trace, c.key);
  }

  lemma {:induction false} GrantedInUnits(cfg: Config, trace: seq<Call>, key: Key, s: real, e: real)
    requires Steady(cfg)
    ensures Granted(cfg, trace, key, s, e)
         <= CountIn(cfg.capacity as real, Units(cfg, trace, key), cfg.earn(s), cfg.earn(e))
  {
    if trace != [] {
      var front, c := trace[..|trace| - 1], trace[|trace| - 1];
      GrantedInUnits(cfg, front, key, s, e);
      if c.key == key {
        var us := Units(cfg, front, key);
        var mine := us + [cfg.earn(c.now)];
        assert Units(cfg, trace, key) == mine && mine[..|mine| - 1] == us;
        AllowsInUnits(cfg, front, c);
        if s <= c.now <= e {
        }
      }
    }
  }

  /** The limiter's promise: for every trace, key and window, and without any assumption on the clock,
      at most capacity plus what the window earns calls with times in the window are let through. */
  lemma WindowBound(cfg: Config, trace: seq<Call>, key: Key, s: real, e: real)
    requires Steady(cfg)
    ensures Granted(cfg, trace, key, s, e) == 0
         || Granted(cfg, trace, key, s, e) as real <= cfg.capacity as real + cfg.earn(e - s)
  {
    GrantedInUnits(cfg, trace, key, s, e);
    if Granted(cfg, trace, key, s, e) > 0 {
      CountIsBounded(cfg.capacity as real, Units(cfg, trace, key), cfg.earn(s), cfg.earn(e));
      assert EarnsApart(cfg, e, s);
    }
  }

  // The bound in the source's own parameters.
  lemma WindowBoundPerSecond(cfg: Config, capacity: int, refill: real, trace: seq<Call>, key: Key, s: real, e: real)
    requires refill >= 0.0 && Refills(cfg, capacity, refill)
    ensures Granted(cfg, trace, key, s, e) == 0
         || Granted(cfg, trace, key, s, e) as real <= capacity as real + (e - s) * refill
  {
    RefillingIsSteady(cfg, refill);
    WindowBound(cfg, trace, key, s, e);
    assert cfg.earn(e - s) == (e - s) * refill;
  }

  // Calls of one key with a clock that does not run backwards.
  ghost predicate Monotone(trace: seq<Call>, key: Key) {
    && (forall i :: 0 <= i < |trace| ==> trace[i].key == key)
    && (forall i, j :: 0 <= i < j < |trace| ==> trace[i].now <= trace[j].now)
  }

  lemma {:induction false} UnitsOfOneKey(cfg: Config, trace: seq<Call>, key: Key)
    requires forall i :: 0 <= i < |trace| ==> trace[i].key == key
    ensures |Units(cfg, trace, key)| == |trace|
    ensures forall i :: 0 <= i < |trace| ==> Units(cfg, trace, key)[i] == cfg.earn(trace[i].now)
  {
    if trace != [] {
      UnitsOfOneKey(cfg, trace[..|trace| - 1], key);
    }
  }

  lemma UnitsOfPrefix(cfg: Config, trace: seq<Call>, key: Key, n: nat)
    requires n <= |trace| && forall i :: 0 <= i < |trace| ==> trace[i].key == key
    ensures |Units(cfg, trace, key)| == |trace|
    ensures Units(cfg, trace[..n], key) == Units(cfg, trace, key)[..n]
  {
    UnitsOfOneKey(cfg, trace, key);
    UnitsOfOneKey(cfg, trace[..n], key);
    assert forall i :: 0 <= i < n ==> trace[..n][i] == trace[i];
  }

  lemma MonotoneClimbs(cfg: Config, trace: seq<Call>, key: Key, now: real)
    requires Steady(cfg) && Monotone(trace + [Call(key, now)], key)
    ensures forall i :: 0 <= i < |trace| ==> trace[i].key == key
    ensures |Units(cfg, trace, key)| == |trace|
    ensures forall i :: 0 <= i < |trace| ==> Units(cfg, trace, key)[i] == cfg.earn(trace[i].now)
    ensures Climbing(Units(cfg, trace, key) + [cfg.earn(now)])
  {
    var whole := trace + [Call(key, now)];
    assert forall i :: 0 <= i < |trace| ==> trace[i] == whole[i];
    UnitsOfOneKey(cfg, trace, key);
    assert forall i :: 0 <= i < |trace| ==> whole[i].now <= whole[|trace|].now;
  }

  lemma {:induction false} PassedInUnits(cfg: Config, trace: seq<Call>, key: Key, from: nat)
    requires Steady(cfg)
    requires from <= |trace| && forall i :: 0 <= i < |trace| ==> trace[i].key == key
    ensures |Units(cfg, trace, key)| == |trace|
    ensures Passed(cfg, trace, from) == PassedFrom(cfg.capacity as real, Units(cfg, trace, key), from)
  {
    UnitsOfOneKey(cfg, trace, key);
    if from < |trace| {
      var n := |trace| - 1;
      PassedInUnits(cfg, trace[..n], key, from);
      UnitsOfPrefix(cfg, trace, key, n);
      AllowsInUnits(cfg, trace[..n], trace[n]);
    }
  }

  /** The exact condition. With a clock that does not run backwards, a call is let through if and only
      if no window that ends with it would then exceed its allowance: the limiter is the most
      permissive one that keeps its promise. */
  lemma AllowedIffEveryWindowHasRoom(cfg: Config, trace: seq<Call>, c: Call)
    requires Steady(cfg) && Monotone(OfKey(trace, c.key) + [c], c.key)
    ensures var mine := OfKey(trace, c.key);
            Allows(cfg, trace, c) <==>
            && 1 <= cfg.capacity
            && forall i :: 0 <= i < |mine| ==>
                 Passed(cfg, mine, i) as real + 1.0 <= cfg.capacity as real + cfg.earn(c.now - mine[i].now)
  {
    var mine := OfKey(trace, c.key);
    var cap, us, u := cfg.capacity as real, Units(cfg, mine, c.key), cfg.earn(c.now);
    KeysDoNotInterfere(cfg, trace, c);
    MonotoneClimbs(cfg, mine, c.key, c.now);
    AllowsInUnits(cfg, mine, c);
    RoomDecides(cap, us, u);
    forall i | 0 <= i < |mine|
      ensures Room(cap, us, i, u) == cap + cfg.earn(c.now - mine[i].now) - Passed(cfg, mine, i) as real
    {
      PassedInUnits(cfg, mine, c.key, i);
      assert EarnsApart(cfg, c.now, mine[i].now);
    }
  }

  /** The same in the limiter's own parameters. */
  lemma AllowedIffPerSecond(cfg: Config, capacity: int, refill: real, trace: seq<Call>, c: Call)
    requires refill >= 0.0 && Refills(cfg, capacity, refill)
    requires Monotone(OfKey(trace, c.key) + [c], c.key)
    ensures var mine := OfKey(trace, c.key);
            Allows(cfg, trace, c) <==>
            && 1 <= capacity
            && forall i :: 0 <= i < |mine| ==>
                 Passed(cfg, mine, i) as real + 1.0 <= capacity as real + (c.now - mine[i].now) * refill
  {
    RefillingIsSteady(cfg, refill);
    AllowedIffEveryWindowHasRoom(cfg, trace, c);
    var mine := OfKey(trace, c.key);
    forall i | 0 <= i < |mine|
      ensures cfg.earn(c.now - mine[i].now) == (c.now - mine[i].now) * refill
    {
    }
  }

  lemma RoomDecides(cap: real, us: seq<real>, u: real)
    requires Climbing(us + [u])
    ensures LevelAt(cap, us, u) >= 1.0 <==>
            cap >= 1.0 && forall i :: 0 <= i < |us| ==> Room(cap, us, i, u) >= 1.0
  {
    LevelIsLeastRoom(cap, us, u);
  }

  lemma {:induction false} OnlyAllowedInUnits(cfg: Config, trace: seq<Call>, key: Key)
    requires Steady(cfg)
    ensures Units(cfg, OnlyAllowed(cfg, trace), key) == Granting(cfg.capacity as real, Units(cfg, trace, key))
  {
    if trace != [] {
      var front, c := trace[..|trace| - 1], trace[|trace| - 1];
      OnlyAllowedInUnits(cfg, front, key);
      AllowsInUnits(cfg, front, c);
      var kept := OnlyAllowed(cfg, front);
      if Allows(cfg, front, c) {
        var mine := kept + [c];
        assert OnlyAllowed(cfg, trace) == mine && mine[..|mine| - 1] == kept && mine[|mine| - 1] == c;
      }
      if c.key == key {
        var us := Units(cfg, front, key) + [cfg.earn(c.now)];
        assert Units(cfg, trace, key) == us && us[..|us| - 1] == Units(cfg, front, key);
      }
    }
  }

  /** Denied calls leave no mark: deleting every denied call, of whatever key, from the history changes
      no later decision. Nothing is assumed of the clock. */
  lemma DeniedCallsChangeNoDecision(cfg: Config, trace: seq<Call>, c: Call)
    requires Steady(cfg)
    ensures Allows(cfg, OnlyAllowed(cfg, trace), c) == Allows(cfg, trace, c)
  {
    var cap := cfg.capacity as real;
    OnlyAllowedInUnits(cfg, trace, c.key);
    AllowsInUnits(cfg, trace, c);
    AllowsInUnits(cfg, OnlyAllowed(cfg, trace), c);
    if cap >= 1.0 {
      DeniedCallsDoNotMoveTheLevel(cap, Units(cfg, trace, c.key), cfg.earn(c.now));
    } else {
      LevelIsCapped(cap, Units(cfg, trace, c.key), cfg.earn(c.now));
      LevelIsCapped(cap, Units(cfg, OnlyAllowed(cfg, trace), c.key), cfg.earn(c.now));
    }
  }

  // --------------------------------------------------------------------------------------------
  // The limiter itself
  // --------------------------------------------------------------------------------------------

  lemma OneMoreCall(cfg: Config, trace: seq<Call>, c: Call)
    ensures var before := After(cfg, trace);
            var (ok, b) := Decide(cfg, Lookup(cfg, before, c.key, c.now), c.now);
            After(cfg, trace + [c]) == before[c.key := b] && Allows(cfg, trace, c) == ok
  {
    hide Decide, Lookup;
    assert (trace + [c])[..|trace|] == trace;
  }

  class RateLimiter {
    const cfg: Config
    var buckets: map<Key, Bucket>
    ghost var history: seq<Call>

    ghost predicate Valid()
      reads this
    {
      buckets == After(cfg, history)
    }

    constructor (capacity: int, refill: real)
      ensures Valid() && Refills(cfg, capacity, refill) && history == []
    {
      cfg := PerSecond(capacity, refill);
      buckets := map[];
      history := [];
    }

    method Allow(key: Key, now: real) returns (ok: bool)
      requires Valid()
      modifies this
      ensures Valid() && history == old(history) + [Call(key, now)]
      ensures ok == Allows(cfg, old(history), Call(key, now))
      ensures buckets.Keys == old(buckets.Keys) + {key}
      ensures forall k :: k in old(buckets) && k != key ==> buckets[k] == old(buckets[k])
    {
      OneMoreCall(cfg, history, Call(key, now));
      hide After, Allows;
      history := history + [Call(key, now)];
      var b := if key in buckets then buckets[key] else Bucket(cfg.capacity as real, now);
      var tokens := Min(cfg.capacity as real, b.tokens + cfg.earn(now - b.updated));
      if tokens < 1.0 {
        buckets := buckets[key := Bucket(tokens, now)];
        return false;
      }
      buckets := buckets[key := Bucket(tokens - 1.0, now)];
      return true;
    }
  }
}
