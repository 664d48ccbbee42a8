/** Recursive redaction of JSON values and the guard that rejects anything it missed
    (packages/persistence/repositories.py). The two walk the value with differently built key paths:
    redaction joins keys as "a.b", the guard as ".a.b". */
module Redaction {
  import opened Text

  /** A JSON value; `Other` stands for numbers, booleans and null. Tuples count as lists. */
  datatype Value =
    | Dict(entries: seq<(string, Value)>)
    | List(items: seq<Value>)
    | Str(text: string)
    | Other(id: int)

  const REDACTED := "***REDACTED***"

  // --------------------------------------------------------------------------------------------
  // Sensitive key paths
  // --------------------------------------------------------------------------------------------

  // The alternatives of the key pattern, with the optional separators spelled out.
  const PLAIN_WORDS: seq<string> := [
    "password", "passwd", "secret", "token", "apikey", "accesskey", "privatekey", "clientsecret",
    "auth", "authorization", "bearer", "cookie", "sessionid", "connectionstring", "dsn", "creditcard", "ssn"
  ]

  const JOINED_WORDS: seq<string> := [
    "api_key", "api-key", "access_key", "access-key", "private_key", "private-key", "client_secret", "client-secret",
    "connection_string", "connection-string", "credit_card", "credit-card"
  ]

  const WORDS: seq<string> := PLAIN_WORDS + JOINED_WORDS

  predicate Sensitive(path: string) {
    exists w :: w in WORDS && Contains(path, w)
  }

  predicate DotFree(w: string) { w != [] && '.' !in w }

  lemma PlainWordsHaveNoDot()
    ensures forall w :: w in PLAIN_WORDS ==> DotFree(w)
  {
  }

  lemma JoinedWordsHaveNoDot()
    ensures forall w :: w in JOINED_WORDS ==> DotFree(w)
  {
  }

  lemma WordsHaveNoDot()
    ensures forall w :: w in WORDS ==> DotFree(w)
  {
    hide DotFree;
    PlainWordsHaveNoDot();
    JoinedWordsHaveNoDot();
  }

  lemma NoDotInWord(text: string, word: string)
    requires IsWord(text, word) && '.' !in word
    ensures '.' !in text
  {
    forall j | 0 <= j < |text|
      ensures text[j] != '.'
    {
      assert word[j] in word;
    }
  }

  lemma SliceOfJoin(a: string, b: string, i: nat, n: nat)
    requires i + n <= |a + "." + b|
    ensures i + n <= |a| ==> (a + "." + b)[i..i + n] == a[i..i + n]
    ensures |a| < i ==> (a + "." + b)[i..i + n] == b[i - |a| - 1..i - |a| - 1 + n]
    ensures i <= |a| < i + n ==> '.' in (a + "." + b)[i..i + n]
  {
    var p := a + "." + b;
    assert p[|a|] == '.';
    assert i <= |a| < i + n ==> p[i..i + n][|a| - i] == p[|a|];
  }

  // A match of a dot-free word cannot straddle a dot: it lies on one side of it.
  lemma MatchAvoidsDot(a: string, b: string, w: string)
    requires w != [] && '.' !in w
    ensures Contains(a + "." + b, w) <==> Contains(a, w) || Contains(b, w)
  {
    hide IsWord;
    var p := a + "." + b;
    if Contains(p, w) {
      var i :| 0 <= i <= |p| && MatchesAt(p, i, w);
      SliceOfJoin(a, b, i, |w|);
      NoDotInWord(p[i..i + |w|], w);
      assert if i + |w| <= |a| then MatchesAt(a, i, w) else MatchesAt(b, i - |a| - 1, w);
    }
    if Contains(a, w) {
      var i :| 0 <= i <= |a| && MatchesAt(a, i, w);
      SliceOfJoin(a, b, i, |w|);
      assert MatchesAt(p, i, w);
    }
    if Contains(b, w) {
      var i :| 0 <= i <= |b| && MatchesAt(b, i, w);
      SliceOfJoin(a, b, |a| + 1 + i, |w|);
      assert MatchesAt(p, |a| + 1 + i, w);
    }
  }

  lemma SensitiveJoin(a: string, b: string)
    ensures Sensitive(a + "." + b) <==> Sensitive(a) || Sensitive(b)
  {
    WordsHaveNoDot();
    forall w | w in WORDS
      ensures Contains(a + "." + b, w) <==> Contains(a, w) || Contains(b, w)
    {
      MatchAvoidsDot(a, b, w);
    }
  }

  lemma EmptyIsNotSensitive()
    ensures !Sensitive("")
  {
    WordsHaveNoDot();
  }

  // A word in whatever case, anywhere in a path.
  lemma WordsAreSensitive(a: string, text: string, w: string, b: string)
    requires w in WORDS && IsWord(text, w)
    ensures Sensitive(a + text + b)
  {
    var path := a + text + b;
    assert path[|a|..|a| + |w|] == text;
    assert MatchesAt(path, |a|, w);
  }

  predicate SmallLetters(w: string) { forall c :: c in w ==> c == '_' || c == '-' || 'a' <= c <= 'z' }

  lemma SmallIsItself(w: string)
    requires SmallLetters(w)
    ensures IsWord(w, w)
  {
    assert forall j :: 0 <= j < |w| ==> w[j] in w;
  }

  lemma PlainWordsAreSmall()
    ensures forall w :: w in PLAIN_WORDS ==> SmallLetters(w)
  {
  }

  lemma JoinedWordsAreSmall()
    ensures forall w :: w in JOINED_WORDS ==> SmallLetters(w)
  {
  }

  lemma EveryWordIsSensitive(a: string, b: string)
    ensures forall w :: w in WORDS ==> Sensitive(a + w + b)
  {
    PlainWordsAreSmall();
    JoinedWordsAreSmall();
    hide SmallLetters, IsWord;
    forall w | w in WORDS
      ensures Sensitive(a + w + b)
    {
      SmallIsItself(w);
      WordsAreSensitive(a, w, w, b);
    }
  }

  /** Which keys are sensitive: every key that holds one of these words, whatever stands around it. */
  lemma SensitiveKeys(a: string, b: string)
    ensures forall w :: w in {"password", "passwd", "secret", "token", "apikey", "api_key", "api-key"} ==>
              Sensitive(a + w + b)
    ensures forall w :: w in {"accesskey", "access_key", "access-key", "privatekey", "private_key", "private-key"} ==>
              Sensitive(a + w + b)
    ensures forall w :: w in {"clientsecret", "client_secret", "client-secret", "auth", "authorization", "bearer"} ==>
              Sensitive(a + w + b)
    ensures forall w :: w in {"cookie", "sessionid", "connectionstring", "connection_string", "connection-string"} ==>
              Sensitive(a + w + b)
    ensures forall w :: w in {"dsn", "creditcard", "credit_card", "credit-card", "ssn"} ==> Sensitive(a + w + b)
  {
    hide Sensitive;
    EveryWordIsSensitive(a, b);
    PlainWordsListed();
    JoinedWordsListed();
  }

  lemma PlainWordsListed()
    ensures "password" in WORDS && "passwd" in WORDS && "secret" in WORDS && "token" in WORDS && "apikey" in WORDS
    ensures "accesskey" in WORDS && "privatekey" in WORDS && "clientsecret" in WORDS && "auth" in WORDS
    ensures "authorization" in WORDS && "bearer" in WORDS && "cookie" in WORDS && "sessionid" in WORDS
    ensures "connectionstring" in WORDS && "dsn" in WORDS && "creditcard" in WORDS && "ssn" in WORDS
  {
    assert WORDS[..|PLAIN_WORDS|] == PLAIN_WORDS;
    var w := PLAIN_WORDS;
    assert w[0] == "password" && w[1] == "passwd" && w[2] == "secret" && w[3] == "token" && w[4] == "apikey";
    assert w[5] == "accesskey" && w[6] == "privatekey" && w[7] == "clientsecret" && w[8] == "auth";
    assert w[9] == "authorization" && w[10] == "bearer" && w[11] == "cookie" && w[12] == "sessionid";
    assert w[13] == "connectionstring" && w[14] == "dsn" && w[15] == "creditcard" && w[16] == "ssn";
  }

  lemma JoinedWordsListed()
    ensures "api_key" in WORDS && "api-key" in WORDS && "access_key" in WORDS && "access-key" in WORDS
    ensures "private_key" in WORDS && "private-key" in WORDS && "client_secret" in WORDS && "client-secret" in WORDS
    ensures "connection_string" in WORDS && "connection-string" in WORDS
    ensures "credit_card" in WORDS && "credit-card" in WORDS
  {
    assert WORDS[|PLAIN_WORDS|..] == JOINED_WORDS;
    var w := JOINED_WORDS;
    assert w[0] == "api_key" && w[1] == "api-key" && w[2] == "access_key" && w[3] == "access-key";
    assert w[4] == "private_key" && w[5] == "private-key" && w[6] == "client_secret" && w[7] == "client-secret";
    assert w[8] == "connection_string" && w[9] == "connection-string";
    assert w[10] == "credit_card" && w[11] == "credit-card";
  }

  // The letters of a path decide, not their case.
  lemma CaseDoesNotMatter(path: string, other: string)
    requires |path| == |other| && forall j :: 0 <= j < |path| ==> Lower(path[j]) == Lower(other[j])
    requires Sensitive(path)
    ensures Sensitive(other)
  {
    var w :| w in WORDS && Contains(path, w);
    var i :| 0 <= i <= |path| && MatchesAt(path, i, w);
    forall j | 0 <= j < |w|
      ensures Lower(other[i..i + |w|][j]) == w[j]
    {
      assert other[i..i + |w|][j] == other[i + j] && path[i..i + |w|][j] == path[i + j];
    }
    assert MatchesAt(other, i, w);
  }

  lemma ShoutedKeysAreSensitive(a: string, b: string)
    ensures Sensitive(a + "API_KEY" + b) && Sensitive(a + "Authorization" + b) && Sensitive(a + "passWord" + b)
  {
    hide Sensitive, WORDS;
    PlainWordsListed();
    JoinedWordsListed();
    WordsAreSensitive(a, "API_KEY", "api_key", b);
    WordsAreSensitive(a, "Authorization", "authorization", b);
    WordsAreSensitive(a, "passWord", "password", b);
  }

  // A key that is shorter than every word, or has none of their initials, is not sensitive.
  lemma OrdinaryKeys(path: string)
    requires |path| < 3 || forall j :: 0 <= j < |path| ==> Lower(path[j]) !in {'p', 's', 't', 'a', 'c', 'b', 'd'}
    ensures !Sensitive(path)
  {
    PlainInitials();
    JoinedInitials();
    hide Initial;
    forall w | w in WORDS
      ensures !Contains(path, w)
    {
      if i :| 0 <= i <= |path| && MatchesAt(path, i, w) {
        InitialsMatch(path, i, w);
      }
    }
  }

  predicate Initial(w: string) { |w| >= 3 && w[0] in {'p', 's', 't', 'a', 'c', 'b', 'd'} }

  lemma InitialsMatch(path: string, i: nat, w: string)
    requires MatchesAt(path, i, w) && Initial(w)
    ensures |path| >= 3 && i < |path| && Lower(path[i]) in {'p', 's', 't', 'a', 'c', 'b', 'd'}
  {
    assert path[i..i + |w|][0] == path[i];
  }

  lemma PlainInitials()
    ensures forall w :: w in PLAIN_WORDS ==> Initial(w)
  {
  }

  lemma JoinedInitials()
    ensures forall w :: w in JOINED_WORDS ==> Initial(w)
  {
  }

  // --------------------------------------------------------------------------------------------
  // Redaction and guard
  // --------------------------------------------------------------------------------------------

  function JoinKey(path: string, key: string): string {
    if path != "" then path + "." + key else key
  }

  /** `secret` is the test on a string's own shape: the secret-value patterns and the long-blob rule. */
  function RedactValue(secret: string -> bool, path: string, v: Value): Value
    decreases v
  {
    match v
    case Dict(entries) =>
      Dict(seq(|entries|, i requires 0 <= i < |entries| =>
        (entries[i].0, RedactValue(secret, JoinKey(path, entries[i].0), entries[i].1))))
    case List(items) =>
      List(seq(|items|, i requires 0 <= i < |items| => RedactValue(secret, path, items[i])))
    case Str(text) =>
      if path != "" && Sensitive(path) then Str(REDACTED)
      else if secret(text) then Str(REDACTED)
      else v
    case Other(_) => v
  }

  function DefaultRedact(secret: string -> bool, v: Value): Value {
    RedactValue(secret, "", v)
  }

  // The guard: is there still a string under a sensitive path that is not the marker?
  predicate HasBareSecret(path: string, v: Value)
    decreases v
  {
    match v
    case Dict(entries) =>
      exists i :: 0 <= i < |entries| && HasBareSecret(path + "." + entries[i].0, entries[i].1)
    case List(items) => exists i :: 0 <= i < |items| && HasBareSecret(path, items[i])
    case Str(text) => path != "" && Sensitive(path) && text != REDACTED
    case Other(_) => false
  }

  /** The paths differ in form only: whichever keys they are made of, one is sensitive exactly when the
      other is. */
  lemma {:induction false} GuardNeverFires(secret: string -> bool, path: string, walked: string, v: Value)
    requires Sensitive(path) <==> Sensitive(walked)
    ensures !HasBareSecret(walked, RedactValue(secret, path, v))
    decreases v
  {
    match v
    case Dict(entries) =>
      forall i | 0 <= i < |entries|
        ensures !HasBareSecret(walked + "." + entries[i].0,
                               RedactValue(secret, JoinKey(path, entries[i].0), entries[i].1))
      {
        EmptyIsNotSensitive();
        SensitiveJoin(walked, entries[i].0);
        SensitiveJoin(path, entries[i].0);
        GuardNeverFires(secret, JoinKey(path, entries[i].0), walked + "." + entries[i].0, entries[i].1);
      }
    case List(items) =>
      forall i | 0 <= i < |items|
        ensures !HasBareSecret(walked, RedactValue(secret, path, items[i]))
      {
        GuardNeverFires(secret, path, walked, items[i]);
      }
    case Str(text) => EmptyIsNotSensitive();
    case Other(_) =>
  }

  /** Storing never fails on the guard: redacted values pass it, for every value and every shape test. */
  lemma RedactedPassesGuard(secret: string -> bool, v: Value)
    ensures !HasBareSecret("", DefaultRedact(secret, v))
  {
    GuardNeverFires(secret, "", "", v);
  }

  lemma {:induction false} RedactTwice(secret: string -> bool, path: string, v: Value)
    requires !secret(REDACTED)
    ensures RedactValue(secret, path, RedactValue(secret, path, v)) == RedactValue(secret, path, v)
    decreases v
  {
    match v
    case Dict(entries) =>
      var once := RedactValue(secret, path, v);
      var twice := RedactValue(secret, path, once);
      forall i | 0 <= i < |entries|
        ensures twice.entries[i] == once.entries[i]
      {
        RedactTwice(secret, JoinKey(path, entries[i].0), entries[i].1);
      }
    case List(items) =>
      var once := RedactValue(secret, path, v);
      var twice := RedactValue(secret, path, once);
      forall i | 0 <= i < |items|
        ensures twice.items[i] == once.items[i]
      {
        RedactTwice(secret, path, items[i]);
      }
    case Str(_) =>
    case Other(_) =>
  }

  /** Redacting what is already redacted changes nothing, as long as the marker is not secret-shaped. */
  lemma RedactIsIdempotent(secret: string -> bool, v: Value)
    requires !secret(REDACTED)
    ensures DefaultRedact(secret, DefaultRedact(secret, v)) == DefaultRedact(secret, v)
  {
    RedactTwice(secret, "", v);
  }

  // --------------------------------------------------------------------------------------------
  // What redaction keeps and what it removes
  // --------------------------------------------------------------------------------------------

  // A way down into a value: a dictionary's i-th entry or a list's i-th item, again and again.
  function At(v: Value, way: seq<nat>): (r: Value)
    decreases |way|
  {
    if way == [] then v
    else match v
         case Dict(entries) => if way[0] < |entries| then At(entries[way[0]].1, way[1..]) else Other(0)
         case List(items) => if way[0] < |items| then At(items[way[0]], way[1..]) else Other(0)
         case _ => Other(0)
  }

  // The dotted keys met on the way.
  function PathOf(v: Value, way: seq<nat>, path: string): string
    decreases |way|
  {
    if way == [] then path
    else match v
         case Dict(entries) =>
           if way[0] < |entries| then PathOf(entries[way[0]].1, way[1..], JoinKey(path, entries[way[0]].0))
           else path
         case List(items) => if way[0] < |items| then PathOf(items[way[0]], way[1..], path) else path
         case _ => path
  }

  /** Leaf by leaf: redaction keeps the whole structure and every other leaf, and replaces a string by
      the marker exactly when its key path is sensitive or its own shape is secret. */
  lemma {:induction false} RedactByLeaf(secret: string -> bool, path: string, v: Value, way: seq<nat>)
    ensures At(RedactValue(secret, path, v), way) == RedactValue(secret, PathOf(v, way, path), At(v, way))
    ensures var text := At(v, way);
            var marked := Sensitive(PathOf(v, way, path)) || (text.Str? && secret(text.text));
            text.Str? ==> At(RedactValue(secret, path, v), way) == (if marked then Str(REDACTED) else text)
    decreases |way|
  {
    EmptyIsNotSensitive();
    if way != [] {
      match v
      case Dict(entries) =>
        if way[0] < |entries| {
          RedactByLeaf(secret, JoinKey(path, entries[way[0]].0), entries[way[0]].1, way[1..]);
        }
      case List(items) =>
        if way[0] < |items| {
          RedactByLeaf(secret, path, items[way[0]], way[1..]);
        }
      case _ =>
    }
  }

  // --------------------------------------------------------------------------------------------
  // By keys, without their paths
  // --------------------------------------------------------------------------------------------

  // The way leads down into the value.
  predicate Leads(v: Value, way: seq<nat>)
    decreases |way|
  {
    way == [] || match v
                 case Dict(entries) => way[0] < |entries| && Leads(entries[way[0]].1, way[1..])
                 case List(items) => way[0] < |items| && Leads(items[way[0]], way[1..])
                 case _ => false
  }

  // Some key on the way is sensitive.
  predicate UnderSensitiveKey(v: Value, way: seq<nat>)
    requires Leads(v, way)
    decreases |way|
  {
    way != [] && match v
                 case Dict(entries) =>
                   Sensitive(entries[way[0]].0) || UnderSensitiveKey(entries[way[0]].1, way[1..])
                 case List(items) => UnderSensitiveKey(items[way[0]], way[1..])
  }

  lemma {:induction false} PathIsSensitive(v: Value, way: seq<nat>, path: string)
    requires Leads(v, way)
    ensures Sensitive(PathOf(v, way, path)) <==> Sensitive(path) || UnderSensitiveKey(v, way)
    decreases |way|
  {
    EmptyIsNotSensitive();
    hide Sensitive;
    if way != [] {
      match v
      case Dict(entries) =>
        var key := entries[way[0]].0;
        SensitiveJoin(path, key);
        PathIsSensitive(entries[way[0]].1, way[1..], JoinKey(path, key));
      case List(items) => PathIsSensitive(items[way[0]], way[1..], path);
    }
  }

  /** What is stored of a value, leaf by leaf: a string becomes the marker if and only if some key above it is
      sensitive or its own shape is secret; every other leaf stays. */
  lemma MarkedIffKeyOrShape(secret: string -> bool, v: Value, way: seq<nat>)
    requires Leads(v, way)
    ensures var leaf := At(v, way);
            && (leaf.Str? ==> At(DefaultRedact(secret, v), way)
                              == if UnderSensitiveKey(v, way) || secret(leaf.text) then Str(REDACTED) else leaf)
            && (leaf.Other? ==> At(DefaultRedact(secret, v), way) == leaf)
  {
    EmptyIsNotSensitive();
    hide Sensitive;
    RedactByLeaf(secret, "", v, way);
    PathIsSensitive(v, way, "");
  }

  /** The guard fires if and only if a string that is not the marker stands under a sensitive key. */
  lemma GuardFiresIff(v: Value)
    ensures HasBareSecret("", v)
            <==> exists way: seq<nat> :: Leads(v, way) && UnderSensitiveKey(v, way) && IsBare(At(v, way))
  {
    EmptyIsNotSensitive();
    hide Sensitive;
    if HasBareSecret("", v) {
      var way := BareWay("", v);
    }
    forall way: seq<nat> | Leads(v, way) && UnderSensitiveKey(v, way) && IsBare(At(v, way))
      ensures HasBareSecret("", v)
    {
      BareIsSeen("", v, way);
    }
  }

  predicate IsBare(v: Value) { v.Str? && v.text != REDACTED }

  lemma {:induction false} BareIsSeen(walked: string, v: Value, way: seq<nat>)
    requires Leads(v, way) && IsBare(At(v, way)) && (Sensitive(walked) || UnderSensitiveKey(v, way))
    ensures HasBareSecret(walked, v)
    decreases |way|
  {
    EmptyIsNotSensitive();
    hide Sensitive;
    if way != [] {
      match v
      case Dict(entries) =>
        SensitiveJoin(walked, entries[way[0]].0);
        BareIsSeen(walked + "." + entries[way[0]].0, entries[way[0]].1, way[1..]);
      case List(items) => BareIsSeen(walked, items[way[0]], way[1..]);
    }
  }

  lemma {:induction false} BareWay(walked: string, v: Value) returns (way: seq<nat>)
    requires HasBareSecret(walked, v)
    ensures Leads(v, way) && IsBare(At(v, way)) && (Sensitive(walked) || UnderSensitiveKey(v, way))
    decreases v
  {
    hide Sensitive;
    match v
    case Dict(entries) =>
      var i :| 0 <= i < |entries| && HasBareSecret(walked + "." + entries[i].0, entries[i].1);
      var rest := BareWay(walked + "." + entries[i].0, entries[i].1);
      SensitiveJoin(walked, entries[i].0);
      way := [i] + rest;
      assert way[1..] == rest;
    case List(items) =>
      var i :| 0 <= i < |items| && HasBareSecret(walked, items[i]);
      var rest := BareWay(walked, items[i]);
      way := [i] + rest;
      assert way[1..] == rest;
    case Str(_) => way := [];
  }

  // The same structure: the same keys in the same order, lists of the same length, strings for strings, and
  // everything else unchanged.
  predicate Alike(v: Value, w: Value)
    decreases v
  {
    match v
    case Dict(entries) =>
      w.Dict? && |w.entries| == |entries|
      && forall i :: 0 <= i < |entries| ==> w.entries[i].0 == entries[i].0 && Alike(entries[i].1, w.entries[i].1)
    case List(items) =>
      w.List? && |w.items| == |items| && forall i :: 0 <= i < |items| ==> Alike(items[i], w.items[i])
    case Str(_) => w.Str?
    case Other(_) => w == v
  }

  /** Redaction keeps the structure of every value. */
  lemma {:induction false} RedactedIsAlike(secret: string -> bool, path: string, v: Value)
    ensures Alike(v, RedactValue(secret, path, v))
    decreases v
  {
    match v
    case Dict(entries) =>
      forall i | 0 <= i < |entries|
        ensures Alike(entries[i].1, RedactValue(secret, JoinKey(path, entries[i].0), entries[i].1))
      {
        RedactedIsAlike(secret, JoinKey(path, entries[i].0), entries[i].1);
      }
    case List(items) =>
      forall i | 0 <= i < |items|
        ensures Alike(items[i], RedactValue(secret, path, items[i]))
      {
        RedactedIsAlike(secret, path, items[i]);
      }
    case Str(_) =>
    case Other(_) =>
  }
}
