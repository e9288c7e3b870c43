/** The agent's log: secrets are masked on the way in, the newest entries are kept in a ring. */
module Logs {
  import opened Wrappers

  const MASK := "***"

  // ---------- the redactor ----------

  /** strings.ReplaceAll(s, secret, "***"): leftmost occurrences that do not overlap. */
  function ReplaceAll(s: string, secret: string): string
    requires secret != ""
    decreases |s|
  {
    if s == "" then ""
    else if secret <= s then MASK + ReplaceAll(s[|secret|..], secret)
    else [s[0]] + ReplaceAll(s[1..], secret)
  }

  predicate NonEmpty(secrets: seq<string>) {
    forall i | 0 <= i < |secrets| :: secrets[i] != ""
  }

  function RedactAll(s: string, secrets: seq<string>): string
    requires NonEmpty(secrets)
    decreases |secrets|
  {
    if secrets == [] then s else RedactAll(ReplaceAll(s, secrets[0]), secrets[1..])
  }

  /** `x` is a substring of `s`. */
  predicate Occurs(x: string, s: string)
    decreases |s|
  {
    x <= s || (s != "" && Occurs(x, s[1..]))
  }

  /** `x` has a whole mask at `k`. */
  predicate MaskAt(x: string, k: nat) {
    k + 3 <= |x| && x[k] == x[k + 1] == x[k + 2] == '*'
  }

  /** No star at either end and no whole mask inside: no mask can complete `x`. */
  ghost predicate Tame(x: string) {
    x != "" && x[0] != '*' && EndsTame(x)
  }

  ghost predicate EndsTame(x: string) {
    (x != "" ==> x[|x| - 1] != '*') && forall k: nat :: !MaskAt(x, k)
  }

  lemma {:induction false} PrefixSurvivesOnly(x: string, s: string, secret: string)
    requires secret != "" && EndsTame(x) && x <= ReplaceAll(s, secret)
    ensures x <= s
    decreases |s|
  {
    if x == "" || s == "" {
    } else if secret <= s {
      var r := ReplaceAll(s, secret);
      assert r[0] == r[1] == r[2] == '*';
      assert x == r[..|x|];
      assert |x| >= 3 ==> MaskAt(x, 0);
      assert false;
    } else {
      assert ReplaceAll(s, secret)[1..] == ReplaceAll(s[1..], secret);
      forall k: nat ensures !MaskAt(x[1..], k) { assert !MaskAt(x, k + 1); }
      PrefixSurvivesOnly(x[1..], s[1..], secret);
    }
  }

  lemma {:induction false} OccursInSuffix(x: string, s: string, k: nat)
    requires k <= |s| && Occurs(x, s[k..])
    ensures Occurs(x, s)
  {
    if k == 0 {
    } else {
      assert s[1..][k - 1..] == s[k..];
      OccursInSuffix(x, s[1..], k - 1);
    }
  }

  lemma {:induction false} OccursBetween(x: string, s: string) returns (a: string, b: string)
    requires Occurs(x, s)
    ensures s == a + x + b
    decreases |s|
  {
    if x <= s {
      a, b := "", s[|x|..];
    } else {
      a, b := OccursBetween(x, s[1..]);
      assert s == [s[0]] + s[1..];
      a := [s[0]] + a;
    }
  }

  lemma BetweenOccurs(a: string, x: string, b: string)
    ensures Occurs(x, a + x + b)
  {
    assert (a + x + b)[|a|..] == x + b;
    OccursInSuffix(x, a + x + b, |a|);
  }

  lemma MaskHidesNothing(x: string, rest: string)
    requires x != "" && x[0] != '*' && Occurs(x, MASK + rest)
    ensures Occurs(x, rest)
  {
    var r := MASK + rest;
    assert r[0] == r[1] == r[2] == '*';
    assert r[1..][1..][1..] == rest;
    assert Occurs(x, r[1..]);
    assert Occurs(x, r[1..][1..]);
    assert Occurs(x, r[1..][1..][1..]);
  }

  /** A replacement uncovers nothing tame: what occurs after it occurred before. */
  lemma {:induction false} OccursSurvivesOnly(x: string, s: string, secret: string)
    requires secret != "" && Tame(x) && Occurs(x, ReplaceAll(s, secret))
    ensures Occurs(x, s)
    decreases |s|
  {
    if s != "" && secret <= s {
      MaskHidesNothing(x, ReplaceAll(s[|secret|..], secret));
      OccursSurvivesOnly(x, s[|secret|..], secret);
      OccursInSuffix(x, s, |secret|);
    } else if s != "" {
      assert ReplaceAll(s, secret)[1..] == ReplaceAll(s[1..], secret);
      if x <= ReplaceAll(s, secret) {
        PrefixSurvivesOnly(x, s, secret);
      } else {
        OccursSurvivesOnly(x, s[1..], secret);
      }
    }
  }

  /** Nor does it leave the secret itself. */
  lemma {:induction false} ReplacedIsGone(s: string, secret: string)
    requires Tame(secret)
    ensures !Occurs(secret, ReplaceAll(s, secret))
    decreases |s|
  {
    if s != "" && secret <= s {
      ReplacedIsGone(s[|secret|..], secret);
      if Occurs(secret, ReplaceAll(s, secret)) {
        MaskHidesNothing(secret, ReplaceAll(s[|secret|..], secret));
      }
    } else if s != "" {
      assert ReplaceAll(s, secret)[1..] == ReplaceAll(s[1..], secret);
      ReplacedIsGone(s[1..], secret);
      if secret <= ReplaceAll(s, secret) {
        PrefixSurvivesOnly(secret, s, secret);
      }
    }
  }

  lemma {:induction false} AbsentStaysAbsent(x: string, s: string, secrets: seq<string>)
    requires Tame(x) && !Occurs(x, s)
    requires NonEmpty(secrets)
    ensures !Occurs(x, RedactAll(s, secrets))
    decreases |secrets|
  {
    if secrets == [] {
    } else {
      if Occurs(x, ReplaceAll(s, secrets[0])) { OccursSurvivesOnly(x, s, secrets[0]); }
      AbsentStaysAbsent(x, ReplaceAll(s, secrets[0]), secrets[1..]);
    }
  }

  /** A tame secret is left nowhere in a redacted string, whatever the other secrets, the overlaps and the order of
      registration. */
  lemma {:induction false} NoSecretIsLeft(s: string, secrets: seq<string>, x: string)
    requires NonEmpty(secrets) && x in secrets && Tame(x)
    ensures !Occurs(x, RedactAll(s, secrets))
    decreases |secrets|
  {
    var t := ReplaceAll(s, secrets[0]);
    if x == secrets[0] {
      ReplacedIsGone(s, x);
      AbsentStaysAbsent(x, t, secrets[1..]);
    } else {
      NoSecretIsLeft(t, secrets[1..], x);
    }
  }

  lemma {:induction false} ReplaceAllIdentity(s: string, secret: string)
    requires secret != "" && !Occurs(secret, s)
    ensures ReplaceAll(s, secret) == s
    decreases |s|
  {
    if s == "" {
    } else {
      ReplaceAllIdentity(s[1..], secret);
    }
  }

  /** A string that contains no secret is untouched. */
  lemma {:induction false} RedactIdentity(s: string, secrets: seq<string>)
    requires NonEmpty(secrets) && forall i | 0 <= i < |secrets| :: !Occurs(secrets[i], s)
    ensures RedactAll(s, secrets) == s
    decreases |secrets|
  {
    if secrets == [] {
    } else {
      ReplaceAllIdentity(s, secrets[0]);
      RedactIdentity(s, secrets[1..]);
    }
  }

  lemma RedactIdempotent(s: string, secrets: seq<string>)
    requires NonEmpty(secrets) && forall i | 0 <= i < |secrets| :: Tame(secrets[i])
    ensures RedactAll(RedactAll(s, secrets), secrets) == RedactAll(s, secrets)
  {
    forall i | 0 <= i < |secrets| ensures !Occurs(secrets[i], RedactAll(s, secrets)) {
      NoSecretIsLeft(s, secrets, secrets[i]);
    }
    RedactIdentity(RedactAll(s, secrets), secrets);
  }

  // What a secret that is not tame can leave behind: its own mask completes it.

  lemma {:induction false} ReplaceSkips(y: string, t: string, x: string)
    requires x != "" && forall p: nat | p < |y| :: !(x <= (y + t)[p..])
    ensures ReplaceAll(y + t, x) == y + ReplaceAll(t, x)
  {
    if y == "" {
      assert y + t == t;
    } else {
      var s := y + t;
      assert s[0..] == s && s[1..] == y[1..] + t;
      forall p: nat | p < |y| - 1 ensures !(x <= (y[1..] + t)[p..]) {
        assert s[p + 1..] == (y[1..] + t)[p..];
      }
      ReplaceSkips(y[1..], t, x);
    }
  }

  /** Where the secret first occurs it becomes the mask; what is before stays, and what is after is treated alike. */
  lemma FirstOccurrenceIsMasked(y: string, x: string, z: string)
    requires x != "" && forall p: nat | p < |y| :: !(x <= (y + (x + z))[p..])
    ensures ReplaceAll(y + (x + z), x) == y + "***" + ReplaceAll(z, x)
  {
    ReplaceSkips(y, x + z, x);
    assert (x + z)[|x|..] == z;
  }

  lemma {:induction false} TooShortToReplace(t: string, x: string)
    requires |t| < |x|
    ensures ReplaceAll(t, x) == t
  {
    if t == "" {
    } else {
      TooShortToReplace(t[1..], x);
    }
  }

  /** `y` goes before the secret and `z` after it, where only the secret itself is found. */
  lemma OneReplacement(y: string, x: string, z: string)
    requires |z| < |x| && forall p: nat | p < |y| :: !(x <= (y + (x + z))[p..])
    ensures ReplaceAll(y + (x + z), x) == y + (MASK + z)
  {
    ReplaceSkips(y, x + z, x);
    assert (x + z)[|x|..] == z;
    TooShortToReplace(z, x);
  }

  lemma {:induction false} FirstMask(x: string, k: nat) returns (m: nat)
    requires MaskAt(x, k)
    ensures MaskAt(x, m) && forall j: nat | j < m :: !MaskAt(x, j)
    decreases k
  {
    if j: nat :| j < k && MaskAt(x, j) {
      m := FirstMask(x, j);
    } else {
      m := k;
    }
  }

  lemma LeadingStarCompletes(x: string) returns (s: string)
    requires x != "" && x[0] == '*'
    ensures Occurs(x, ReplaceAll(s, x))
  {
    s := "" + (x + x[1..]);
    OneReplacement("", x, x[1..]);
    assert MASK + x[1..] == "**" + x + "";
    BetweenOccurs("**", x, "");
  }

  lemma TrailingStarCompletes(x: string) returns (s: string)
    requires x != "" && x[0] != '*' && x[|x| - 1] == '*'
    ensures Occurs(x, ReplaceAll(s, x))
  {
    var y := x[..|x| - 1];
    s := y + (x + "");
    forall p: nat | p < |y| ensures !(x <= s[p..]) {
      assert s[p..][0] == x[p] && s[p..][|y|] == x[p];
    }
    OneReplacement(y, x, "");
    assert y + (MASK + "") == "" + x + "**";
    BetweenOccurs("", x, "**");
  }

  lemma SplitAtMask(x: string, m: nat)
    requires MaskAt(x, m)
    ensures x == x[..m] + (MASK + x[m + 3..])
  {
    assert x[m..m + 3] == MASK;
    assert x[m..] == x[m..m + 3] + x[m + 3..];
  }

  lemma NotBeforeItself(x: string, m: nat, z: string, p: nat)
    requires MaskAt(x, m) && p < m && !MaskAt(x, p)
    ensures !(x <= (x[..m] + (x + z))[p..])
  {
    var s := x[..m] + (x + z);
    assert s[p..][m] == s[m + p] == x[p] && s[p..][m + 1] == s[m + p + 1] == x[p + 1] && s[p..][m + 2] == s[m + p + 2] == x[p + 2];
  }

  lemma InnerMaskCompletes(x: string, k: nat) returns (s: string)
    requires x != "" && MaskAt(x, k)
    ensures Occurs(x, ReplaceAll(s, x))
  {
    var m := FirstMask(x, k);
    var y, z := x[..m], x[m + 3..];
    s := y + (x + z);
    forall p: nat | p < |y| ensures !(x <= s[p..]) {
      NotBeforeItself(x, m, z, p);
    }
    hide Occurs, ReplaceAll;
    OneReplacement(y, x, z);
    SplitAtMask(x, m);
    assert "" + x + "" == x;
    BetweenOccurs("", x, "");
  }

  lemma WildSecretCanBeLeft(x: string) returns (s: string)
    requires x != "" && !Tame(x)
    ensures Occurs(x, ReplaceAll(s, x))
  {
    if x[0] == '*' {
      s := LeadingStarCompletes(x);
    } else if x[|x| - 1] == '*' {
      s := TrailingStarCompletes(x);
    } else {
      var k: nat :| MaskAt(x, k);
      s := InnerMaskCompletes(x, k);
    }
  }

  /** A registered secret is masked for good, whatever the text and the other secrets, exactly when it is tame; one that is
      not can be left even when it is the only one. */
  lemma NeverLeftIffTame(x: string)
    requires x != ""
    ensures Tame(x) <==> forall s, secrets | NonEmpty(secrets) && x in secrets :: !Occurs(x, RedactAll(s, secrets))
    ensures Tame(x) <==> forall s :: !Occurs(x, RedactAll(s, [x]))
  {
    if Tame(x) {
      forall s, secrets | NonEmpty(secrets) && x in secrets ensures !Occurs(x, RedactAll(s, secrets)) {
        NoSecretIsLeft(s, secrets, x);
      }
      forall s ensures !Occurs(x, RedactAll(s, [x])) {
        NoSecretIsLeft(s, [x], x);
      }
    } else {
      var s := WildSecretCanBeLeft(x);
      var none: seq<string> := [];
      assert [x][1..] == none;
      assert RedactAll(s, [x]) == RedactAll(ReplaceAll(s, x), none) == ReplaceAll(s, x);
      assert Occurs(x, RedactAll(s, [x]));
      assert NonEmpty([x]) && x in [x];
    }
  }

  lemma NoSixLetters(x: string, s: string)
    requires |s| == 6 && |x| == 5 && s[2] != x[2] && s[3] != x[2]
    ensures !Occurs(x, s)
  {
    if Occurs(x, s) {
      var a, b := OccursBetween(x, s);
      assert false;
    }
  }

  /** A secret with a star in it can be put together by the mask of a later one. */
  lemma StarsCanReassembleASecret()
    ensures RedactAll("abwxyz", ["ab***", "wxyz"]) == "ab***"
  {
    var s, first, second := "abwxyz", "ab***", "wxyz";
    NoSixLetters(first, s);
    ReplaceAllIdentity(s, first);
    assert s[1..] == "bwxyz" && s[1..][1..] == second && second[|second|..] == "";
    assert ReplaceAll(second, second) == MASK + "";
    assert ReplaceAll(s[1..], second) == ['b'] + ReplaceAll(second, second);
    assert ReplaceAll(s, second) == ['a'] + ReplaceAll(s[1..], second);
    var secrets, none: seq<string> := [first, second], [];
    assert secrets[1..] == [second] && [second][1..] == none;
    assert RedactAll(s, secrets) == RedactAll(s, [second]);
    assert RedactAll(s, [second]) == RedactAll(ReplaceAll(s, second), none);
  }

  class Redactor {
    var secrets: seq<string>

    constructor ()
      ensures Valid() && secrets == []
    {
      secrets := [];
    }

    ghost predicate Valid()
      reads this
    {
      && (forall x | x in secrets :: |x| >= 4)
      && (forall i, j | 0 <= i < j < |secrets| :: secrets[i] != secrets[j])
    }

    /** Registers a secret once; short strings are ignored. */
    method Add(secret: string)
      requires Valid()
      modifies this
      ensures Valid()
      ensures secrets == if |secret| < 4 || secret in old(secrets) then old(secrets) else old(secrets) + [secret]
    {
      if |secret| < 4 {
        return;
      }
      for i := 0 to |secrets|
        invariant secret !in secrets[..i]
      {
        if secrets[i] == secret {
          return;
        }
      }
      assert secrets[..|secrets|] == secrets;
      secrets := secrets + [secret];
    }

    method Redact(s: string) returns (r: string)
      requires Valid()
      ensures r == RedactAll(s, secrets)
      ensures forall x | x in secrets && Tame(x) :: !Occurs(x, r)
    {
      r := s;
      for i := 0 to |secrets|
        invariant RedactAll(s, secrets) == RedactAll(r, secrets[i..])
      {
        assert secrets[i..][0] == secrets[i] && secrets[i..][1..] == secrets[i + 1..];
        r := ReplaceAll(r, secrets[i]);
      }
      forall x | x in secrets && Tame(x) ensures !Occurs(x, r) {
        NoSecretIsLeft(s, secrets, x);
      }
    }
  }

  // ---------- the ring ----------

  datatype Entry = Entry(time: int, level: string, component: string, message: string)

  /** What a query asks for: "" is any component, None any time. */
  predicate Wanted(e: Entry, component: string, since: Option<int>) {
    (component == "" || e.component == component) && (since.None? || e.time >= since.value)
  }

  function Matching(s: seq<Entry>, component: string, since: Option<int>): seq<Entry> {
    if s == [] then []
    else if Wanted(s[0], component, since) then [s[0]] + Matching(s[1..], component, since)
    else Matching(s[1..], component, since)
  }

  function Last<T>(s: seq<T>, n: nat): seq<T> {
    if |s| <= n then s else s[|s| - n..]
  }

  /** Looking back over the newest `i` entries is enough once they are all or hold `limit` matches. */
  lemma NewestMatching(s: seq<Entry>, i: nat, limit: nat, component: string, since: Option<int>)
    requires i <= |s|
    requires var found := |Matching(Last(s, i), component, since)|; found == limit || (found <= limit && i == |s|)
    ensures Last(Matching(s, component, since), limit) == Matching(Last(s, i), component, since)
  {
    assert s == s[..|s| - i] + Last(s, i);
    MatchingConcat(s[..|s| - i], Last(s, i), component, since);
  }

  lemma {:induction false} MatchingConcat(a: seq<Entry>, b: seq<Entry>, component: string, since: Option<int>)
    ensures Matching(a + b, component, since) == Matching(a, component, since) + Matching(b, component, since)
  {
    if a == [] {
      assert a + b == b;
    } else {
      assert (a + b)[1..] == a[1..] + b;
      MatchingConcat(a[1..], b, component, since);
    }
  }

  function Reverse<T>(s: seq<T>): (r: seq<T>)
    ensures |r| == |s|
  {
    seq(|s|, i requires 0 <= i < |s| => s[|s| - 1 - i])
  }

  lemma OneFurtherBack(all: seq<Entry>, i: nat, e: Entry, component: string, since: Option<int>)
    requires i < |all|
    requires e == all[|all| - 1 - i]
    ensures Reverse(Matching(Last(all, i + 1), component, since))
         == Reverse(Matching(Last(all, i), component, since)) + if Wanted(e, component, since) then [e] else []
  {
    var later := Last(all, i);
    assert Last(all, i + 1) == [e] + later;
    assert ([e] + later)[1..] == later;
    hide Last, Wanted;
    var found := Matching(later, component, since);
    assert Matching([e] + later, component, since) == if Wanted(e, component, since) then [e] + found else found;
    hide Matching;
    ReverseCons(e, found);
  }

  lemma ReverseCons<T>(x: T, s: seq<T>)
    ensures Reverse([x] + s) == Reverse(s) + [x]
  {
  }

  lemma ReverseTwice<T>(s: seq<T>)
    ensures Reverse(Reverse(s)) == s
  {
  }

  lemma LastOfLast<T>(s: seq<T>, n: nat, i: nat)
    requires i <= |Last(s, n)|
    ensures Last(Last(s, n), i) == Last(s, i)
  {
  }

  lemma NothingYet(all: seq<Entry>, component: string, since: Option<int>)
    ensures Reverse(Matching(Last(all, 0), component, since)) == []
  {
  }

  predicate Fits(e: Entry, component: string, since: Option<int>) {
    (component == "" || e.component == component) && (since.None? || e.time >= since.value)
  }

  ghost predicate Increasing(places: seq<nat>) {
    forall j, k | 0 <= j < k < |places| :: places[j] < places[k]
  }

  /** `out` are the entries of `s` at `places`, and fit. */
  ghost predicate StandAt(s: seq<Entry>, places: seq<nat>, out: seq<Entry>, component: string, since: Option<int>) {
    && |out| == |places|
    && forall j | 0 <= j < |places| :: places[j] < |s| && out[j] == s[places[j]] && Fits(out[j], component, since)
  }

  /** Every entry among the first `n` that fits is at one of `places`. */
  ghost predicate Covers(s: seq<Entry>, n: nat, places: seq<nat>, component: string, since: Option<int>) {
    n <= |s| && forall i: nat | i < n && Fits(s[i], component, since) :: i in places
  }

  /** Where the wanted entries of the first `n` stand. */
  lemma {:induction false} PlacesOf(s: seq<Entry>, n: nat, component: string, since: Option<int>) returns (places: seq<nat>)
    requires n <= |s|
    ensures StandAt(s, places, Matching(s[..n], component, since), component, since)
    ensures Increasing(places) && Covers(s, n, places, component, since) && forall p | p in places :: p < n
  {
    if n == 0 {
      places := [];
    } else {
      var before := PlacesOf(s, n - 1, component, since);
      var e := s[n - 1];
      assert s[..n] == s[..n - 1] + [e];
      MatchingConcat(s[..n - 1], [e], component, since);
      MatchingOne(e, component, since);
      var found := Matching(s[..n - 1], component, since);
      hide Matching, Fits;
      if Fits(e, component, since) {
        places := before + [n - 1];
        OneMorePlace(s, n, before, found, component, since);
      } else {
        places := before;
        forall i: nat | i < n && Fits(s[i], component, since) ensures i in places {
          assert i < n - 1;
        }
        assert Matching(s[..n], component, since) == found;
      }
    }
  }

  lemma OneMorePlace(s: seq<Entry>, n: nat, before: seq<nat>, found: seq<Entry>, component: string, since: Option<int>)
    requires 0 < n <= |s| && Fits(s[n - 1], component, since)
    requires StandAt(s, before, found, component, since) && Increasing(before) && Covers(s, n - 1, before, component, since)
    requires forall p | p in before :: p < n - 1
    ensures var places := before + [n - 1];
            && StandAt(s, places, found + [s[n - 1]], component, since)
            && Increasing(places) && Covers(s, n, places, component, since) && forall p | p in places :: p < n
  {
    hide Fits;
    var places := before + [n - 1];
    forall i: nat | i < n && Fits(s[i], component, since) ensures i in places {
      if i < n - 1 { assert i in before; } else { assert places[|before|] == i; }
    }
    forall j | 0 <= j < |before| ensures before[j] < n - 1 { assert before[j] in before; }
  }

  lemma MatchingOne(e: Entry, component: string, since: Option<int>)
    ensures Matching([e], component, since) == if Fits(e, component, since) then [e] else []
  {
    assert [e][1..] == [];
  }

  /** `out` are the entries of `kept` at `places`, in order: each fits the query, and an entry that fits is only left out
      when `limit` later ones fit. */
  ghost predicate Selects(kept: seq<Entry>, component: string, since: Option<int>, limit: nat, out: seq<Entry>, places: seq<nat>) {
    && |out| <= limit && StandAt(kept, places, out, component, since) && Increasing(places)
    && forall i: nat | i < |kept| && Fits(kept[i], component, since) ::
         i in places || (|out| == limit && forall p | p in places :: i < p)
  }

  /** What a query returns, entry by entry. */
  lemma QueryMeans(kept: seq<Entry>, component: string, since: Option<int>, limit: nat)
    ensures exists places :: Selects(kept, component, since, limit, Last(Matching(kept, component, since), limit), places)
  {
    hide Matching, Fits, StandAt, Increasing, Covers, Last;
    var all := PlacesOf(kept, |kept|, component, since);
    assert kept[..|kept|] == kept;
    SelectsLast(kept, all, Matching(kept, component, since), component, since, limit);
  }

  lemma SelectsLast(kept: seq<Entry>, all: seq<nat>, found: seq<Entry>, component: string, since: Option<int>, limit: nat)
    requires StandAt(kept, all, found, component, since) && Increasing(all) && Covers(kept, |kept|, all, component, since)
    ensures Selects(kept, component, since, limit, Last(found, limit), Last(all, limit))
  {
    hide Fits, Increasing;
    var places, out := Last(all, limit), Last(found, limit);
    var skipped := |all| - |places|;
    LastPlaces(kept, all, found, skipped, component, since);
    forall i: nat | i < |kept| && Fits(kept[i], component, since)
      ensures i in places || (|out| == limit && forall p | p in places :: i < p)
    {
      LaterPlaces(all, skipped, i);
    }
  }

  lemma LastPlaces(s: seq<Entry>, all: seq<nat>, found: seq<Entry>, skipped: nat, component: string, since: Option<int>)
    requires StandAt(s, all, found, component, since) && Increasing(all) && skipped <= |all|
    ensures StandAt(s, all[skipped..], found[skipped..], component, since) && Increasing(all[skipped..])
  {
    hide Fits;
  }

  lemma LaterPlaces(all: seq<nat>, skipped: nat, i: nat)
    requires Increasing(all) && skipped <= |all| && i in all
    ensures i in all[skipped..] || (skipped > 0 && forall p | p in all[skipped..] :: i < p)
  {
    var k :| 0 <= k < |all| && all[k] == i;
    if k >= skipped {
      assert all[skipped..][k - skipped] == i;
    }
  }

  class Buffer {
    var entries: array<Entry>
    var next: nat
    var full: bool
    const red: Redactor
    /** Every entry ever appended. */
    ghost var all: seq<Entry>

    constructor (capacity: nat, red: Redactor)
      requires capacity > 0
      ensures Valid() && all == [] && entries.Length == capacity && this.red == red && fresh(entries)
    {
      entries := new Entry[capacity](_ => Entry(0, "", "", ""));
      next, full, this.red, all := 0, false, red, [];
    }

    ghost predicate Valid()
      reads this, entries
    {
      && entries.Length > 0 && next < entries.Length
      && (if full then |all| >= entries.Length else next == |all|)
      && (forall i | 0 <= i < entries.Length && i < |all| :: entries[Slot(i)] == all[|all| - 1 - i])
    }

    /** Where the i-th newest entry lies. */
    function Slot(i: nat): (k: nat)
      requires entries.Length > 0 && i < entries.Length && next < entries.Length
      reads this, entries
      ensures k < entries.Length
    {
      if next > i then next - 1 - i else next + entries.Length - 1 - i
    }

    method Append(component: string, level: string, message: string, now: int)
      requires Valid() && red.Valid()
      modifies this, entries
      ensures Valid() && entries == old(entries)
      ensures all == old(all) + [Entry(now, level, component, RedactAll(message, red.secrets))]
    {
      var redacted := red.Redact(message);
      var e := Entry(now, level, component, redacted);
      entries[next] := e;
      ModOnce(next + 1, entries.Length);
      next := (next + 1) % entries.Length;
      if next == 0 {
        full := true;
      }
      all := all + [e];
      forall i | 0 <= i < entries.Length && i < |all| ensures entries[Slot(i)] == all[|all| - 1 - i] {
        if i > 0 {
          assert old(entries[Slot(i - 1)]) == old(all)[|old(all)| - i];
        }
      }
    }

    lemma TotalIs()
      requires Valid()
      ensures var total := if full then entries.Length else next;
              total == |Last(all, entries.Length)| && total <= entries.Length && total <= |all|
    {
    }

    method Newest(i: nat) returns (e: Entry)
      requires Valid() && i < entries.Length && i < |all|
      ensures e == all[|all| - 1 - i]
    {
      ModOnce(next + entries.Length - 1 - i, entries.Length);
      e := entries[(next + entries.Length - 1 - i) % entries.Length];
      assert e == entries[Slot(i)];
    }

    /** Up to `limit` of the newest kept entries that are wanted, oldest first. */
    method Query(component: string, since: Option<int>, limit: nat) returns (out: seq<Entry>)
      requires Valid()
      ensures out == Last(Matching(Last(all, entries.Length), component, since), limit)
    {
      hide Matching, Wanted, Reverse, Last;
      var i;
      out, i := ScanBack(component, since, limit);
      LastOfLast(all, entries.Length, i);
      NewestMatching(Last(all, entries.Length), i, limit, component, since);
      ReverseTwice(Matching(Last(all, i), component, since));
      out := Reversed(out);
    }

    /** The first loop of a query: back from the newest entry until enough are found, `i` entries in all. */
    method ScanBack(component: string, since: Option<int>, limit: nat) returns (out: seq<Entry>, i: nat)
      requires Valid()
      ensures i <= |Last(all, entries.Length)| && |out| <= limit
      ensures out == Reverse(Matching(Last(all, i), component, since))
      ensures |out| == limit || i == |Last(all, entries.Length)|
    {
      hide Matching, Wanted, Reverse, Last, Valid;
      var total := if full then entries.Length else next;
      TotalIs();
      out := [];
      i := 0;
      NothingYet(all, component, since);
      while i < total && |out| < limit
        invariant 0 <= i <= total && |out| <= limit
        invariant out == Reverse(Matching(Last(all, i), component, since))
      {
        var e := Newest(i);
        OneFurtherBack(all, i, e, component, since);
        if Wanted(e, component, since) {
          out := out + [e];
        }
        i := i + 1;
      }
    }

    /** The second loop of a query. */
    method Reversed(s: seq<Entry>) returns (out: seq<Entry>)
      ensures out == Reverse(s)
    {
      out := s;
      var a, b := 0, |out| - 1;
      while a < b
        invariant 0 <= a <= |out| == |s| && b == |out| - 1 - a && -1 <= b
        invariant forall k | 0 <= k < a || b < k < |out| :: out[k] == s[|s| - 1 - k]
        invariant forall k | a <= k <= b :: out[k] == s[k]
        decreases b - a
      {
        var swapped := out[a := out[b]][b := out[a]];
        out, a, b := swapped, a + 1, b - 1;
      }
    }
  }

  lemma ModOnce(x: nat, n: nat)
    requires 0 < n && x < 2 * n
    ensures x % n == if x < n then x else x - n
  {
    if x >= n {
      assert x == n * 1 + (x - n);
      assert x / n == 1;
    }
  }
}
