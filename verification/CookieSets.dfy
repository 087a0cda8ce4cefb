/** Ordered cookie sets, and the linear merge that computes what changed. */
module CookieSets {
  import opened CookieOrder

  type Tuple = (string, string, string, string)

  /** A set ordered by CookieComparator: strictly ascending. */
  ghost predicate Sorted(s: seq<Cookie>) {
    forall i, j :: 0 <= i < j < |s| ==> Less(s[i], s[j])
  }

  function Tuples(s: seq<Cookie>): set<Tuple> {
    set c | c in s :: c.Tuple()
  }

  // ----------------------------------------------------------------- insertion

  /** Inserting keeps the cookie already there when one has the same key. */
  function Insert(s: seq<Cookie>, c: Cookie): seq<Cookie> {
    if s == [] then [c]
    else if Less(c, s[0]) then [c] + s
    else if Less(s[0], c) then [s[0]] + Insert(s[1..], c)
    else s
  }

  ghost predicate HasKey(s: seq<Cookie>, c: Cookie) {
    exists i :: 0 <= i < |s| && s[i].Key() == c.Key()
  }

  /** Insertion keeps the order, adds only `c`, and only when its key is new. */
  lemma {:induction false} InsertIntoSorted(s: seq<Cookie>, c: Cookie)
    requires Sorted(s)
    ensures Sorted(Insert(s, c))
    ensures forall d :: d in Insert(s, c) <==> d in s || (d == c && !HasKey(s, c))
    decreases |s|
  {
    if s != [] {
      OrdersAreTotal(s[0], c);
      var tail := s[1..];
      assert Sorted(tail) && s == [s[0]] + tail;
      forall d | d in tail ensures Less(s[0], d) {}
      if Less(c, s[0]) {
        forall d | d in s ensures Less(c, d) && d.Key() != c.Key() {
          if d != s[0] { LessIsTransitive(c, s[0], d); }
          OrdersAreTotal(c, d);
        }
      } else if Less(s[0], c) {
        InsertIntoSorted(tail, c);
        HasKeyCons(s, c);
        forall d | d in Insert(tail, c) ensures Less(s[0], d) {}
      } else {
        assert s[0].Key() == c.Key();
      }
    }
  }

  lemma HasKeyCons(s: seq<Cookie>, c: Cookie)
    requires s != []
    ensures HasKey(s, c) <==> s[0].Key() == c.Key() || HasKey(s[1..], c)
  {
    if HasKey(s, c) {
      var i :| 0 <= i < |s| && s[i].Key() == c.Key();
      if i > 0 { assert s[1..][i - 1].Key() == c.Key(); }
    }
    if HasKey(s[1..], c) {
      var i :| 0 <= i < |s[1..]| && s[1..][i].Key() == c.Key();
      assert s[i + 1].Key() == c.Key();
    }
  }

  /** A cookie above all others goes last. */
  lemma {:induction false} InsertLast(s: seq<Cookie>, c: Cookie)
    requires forall d :: d in s ==> Less(d, c)
    ensures Insert(s, c) == s + [c]
    decreases |s|
  {
    if s != [] {
      OrdersAreTotal(s[0], c);
      assert forall d :: d in s[1..] ==> d in s;
      InsertLast(s[1..], c);
    }
  }

  /** The ordered set built from a vector, cookie by cookie. */
  function Built(cookies: seq<Cookie>): seq<Cookie> {
    if cookies == [] then [] else Insert(Built(cookies[..|cookies| - 1]), cookies[|cookies| - 1])
  }

  /** `cookies[i]` is the first with its key. */
  ghost predicate First(cookies: seq<Cookie>, i: int) {
    && 0 <= i < |cookies|
    && forall k :: 0 <= k < i ==> cookies[k].Key() != cookies[i].Key()
  }

  /** `c` is the first cookie with its key. */
  ghost predicate FirstOfKey(cookies: seq<Cookie>, c: Cookie) {
    exists i :: First(cookies, i) && cookies[i] == c
  }

  /** Main result: the built set is sorted and holds exactly the first cookie of
      each key. */
  lemma {:induction false} FirstCookieWins(cookies: seq<Cookie>)
    ensures Sorted(Built(cookies))
    ensures forall c :: c in Built(cookies) <==> FirstOfKey(cookies, c)
    decreases |cookies|
  {
    if cookies != [] {
      var n := |cookies| - 1;
      var prefix, last := cookies[..n], cookies[n];
      FirstCookieWins(prefix);
      InsertIntoSorted(Built(prefix), last);
      KeyInBuilt(prefix, last);
      forall c ensures c in Built(cookies) <==> FirstOfKey(cookies, c) {
        FirstOfLonger(cookies, c);
      }
    }
  }

  lemma FirstOfLonger(cookies: seq<Cookie>, c: Cookie)
    requires cookies != []
    ensures var prefix, last := cookies[..|cookies| - 1], cookies[|cookies| - 1];
      FirstOfKey(cookies, c) <==> FirstOfKey(prefix, c) || (c == last && !HasKey(prefix, last))
  {
    var n := |cookies| - 1;
    var prefix, last := cookies[..n], cookies[n];
    FirstInPrefix(cookies);
    if FirstOfKey(prefix, c) {
      var i :| First(prefix, i) && prefix[i] == c;
      assert First(cookies, i);
    }
    if i :| First(cookies, i) && cookies[i] == c {
      if i < n { assert First(prefix, i) && prefix[i] == c; }
      else { assert forall k :: 0 <= k < n ==> prefix[k] == cookies[k]; }
    }
    if c == last && !HasKey(prefix, last) {
      assert forall k :: 0 <= k < n ==> prefix[k].Key() != last.Key() && prefix[k] == cookies[k];
      assert First(cookies, n);
    }
  }

  lemma FirstInPrefix(cookies: seq<Cookie>)
    requires cookies != []
    ensures forall i :: 0 <= i < |cookies| - 1 ==> (First(cookies, i) <==> First(cookies[..|cookies| - 1], i))
  {
  }

  /** The keys of the built set are the keys of the vector. */
  lemma KeyInBuilt(cookies: seq<Cookie>, c: Cookie)
    requires forall d :: d in Built(cookies) <==> FirstOfKey(cookies, d)
    ensures HasKey(Built(cookies), c) <==> HasKey(cookies, c)
  {
    var built := Built(cookies);
    if HasKey(built, c) {
      var k :| 0 <= k < |built| && built[k].Key() == c.Key();
      assert built[k] in built;
      var i :| First(cookies, i) && cookies[i] == built[k];
      assert cookies[i].Key() == c.Key();
    }
    if HasKey(cookies, c) {
      var k :| 0 <= k < |cookies| && cookies[k].Key() == c.Key();
      var i := FirstWithKey(cookies, k);
      assert cookies[i] in built;
      var m :| 0 <= m < |built| && built[m] == cookies[i];
      assert built[m].Key() == c.Key();
    }
  }

  lemma FirstWithKey(cookies: seq<Cookie>, k: nat) returns (i: nat)
    requires k < |cookies|
    ensures First(cookies, i) && cookies[i].Key() == cookies[k].Key()
  {
    i := 0;
    while cookies[i].Key() != cookies[k].Key()
      invariant i <= k
      invariant forall m :: 0 <= m < i ==> cookies[m].Key() != cookies[k].Key()
      decreases k - i
    {
      i := i + 1;
    }
  }

  // ---------------------------------------------------------------- difference

  /** The cookies of `a`, in order, whose tuple no cookie of `b` has. */
  function Difference(a: seq<Cookie>, b: seq<Cookie>): seq<Cookie> {
    if a == [] then []
    else Difference(a[..|a| - 1], b) +
         if a[|a| - 1].Tuple() in Tuples(b) then [] else [a[|a| - 1]]
  }

  lemma {:induction false} DifferenceMembers(a: seq<Cookie>, b: seq<Cookie>)
    ensures forall c :: c in Difference(a, b) <==> c in a && c.Tuple() !in Tuples(b)
    decreases |a|
  {
    if a != [] {
      DifferenceMembers(a[..|a| - 1], b);
      assert a == a[..|a| - 1] + [a[|a| - 1]];
    }
  }

  /** As tuples, the difference is the mathematical set difference. */
  lemma DifferenceTuples(a: seq<Cookie>, b: seq<Cookie>)
    ensures Tuples(Difference(a, b)) == Tuples(a) - Tuples(b)
  {
    DifferenceMembers(a, b);
  }

  lemma {:induction false} DifferenceIsSorted(a: seq<Cookie>, b: seq<Cookie>)
    requires Sorted(a)
    ensures Sorted(Difference(a, b))
    decreases |a|
  {
    if a != [] {
      var n := |a| - 1;
      DifferenceIsSorted(a[..n], b);
      DifferenceStaysBelow(a, b, n);
      assert forall k :: 0 <= k < |Difference(a[..n], b)| ==> Difference(a[..n], b)[k] in Difference(a[..n], b);
    }
  }

  lemma DifferenceStep(a: seq<Cookie>, b: seq<Cookie>, i: nat)
    requires i < |a|
    ensures Difference(a[..i + 1], b) ==
              Difference(a[..i], b) + if a[i].Tuple() in Tuples(b) then [] else [a[i]]
  {
    assert a[..i + 1][..i] == a[..i];
  }

  /** Cookies before `a[i]` in a sorted set are less than it. */
  lemma DifferenceStaysBelow(a: seq<Cookie>, b: seq<Cookie>, i: nat)
    requires Sorted(a) && i < |a|
    ensures forall c :: c in Difference(a[..i], b) ==> Less(c, a[i])
  {
    DifferenceMembers(a[..i], b);
  }

  /** The merge has passed `j` cookies of `b`, all below the rest of `a`. */
  ghost predicate Passed(a: seq<Cookie>, i: nat, b: seq<Cookie>, j: nat) {
    && i <= |a| && j <= |b|
    && forall k, m :: 0 <= k < j && i <= m < |a| ==> b[k].Tuple() != a[m].Tuple()
  }

  /** A cookie of `a` below what is left of `b` is not in `b` at all. */
  lemma BelowIsMissing(a: seq<Cookie>, i: nat, b: seq<Cookie>, j: nat)
    requires Sorted(b) && Passed(a, i, b, j) && i < |a| && (j < |b| ==> LessOrValue(a[i], b[j]))
    ensures a[i].Tuple() !in Tuples(b)
  {
    forall k | 0 <= k < |b| ensures b[k].Tuple() != a[i].Tuple() {
      if k >= j {
        if k > j {
          OrdersAreTotal(b[j], b[k]);
          LessOrValueIsTransitive(a[i], b[j], b[k]);
        }
        OrdersAreTotal(a[i], b[k]);
      }
    }
  }

  /** A cookie of `b` below, or equal to, `a[i]` is below everything later in `a`. */
  lemma PassingIsSafe(a: seq<Cookie>, i: nat, b: seq<Cookie>, j: nat, i': nat)
    requires Sorted(a) && Passed(a, i, b, j) && i < |a| && j < |b|
    requires if i' == i then LessOrValue(b[j], a[i]) else i' == i + 1 && b[j].Tuple() == a[i].Tuple()
    ensures Passed(a, i', b, j + 1)
  {
    forall m | i' <= m < |a| ensures b[j].Tuple() != a[m].Tuple() {
      if m > i {
        OrdersAreTotal(a[i], a[m]);
        if i' == i { LessOrValueIsTransitive(b[j], a[i], a[m]); }
      }
      OrdersAreTotal(b[j], a[m]);
    }
  }

  /** The linear merge: one pass over two sets that are sorted only by the coarse
      order, comparing by the finer one and inserting into a coarsely ordered set. */
  method SetDifference(a: seq<Cookie>, b: seq<Cookie>) returns (d: seq<Cookie>)
    requires Sorted(a) && Sorted(b)
    ensures d == Difference(a, b)
  {
    var i, j := 0, 0;
    d := [];
    while i < |a|
      invariant Passed(a, i, b, j)
      invariant d == Difference(a[..i], b)
      decreases |a| - i + |b| - j
    {
      DifferenceStep(a, b, i);
      if j == |b| || LessOrValue(a[i], b[j]) {
        BelowIsMissing(a, i, b, j);
        DifferenceStaysBelow(a, b, i);
        InsertLast(d, a[i]);
        d := Insert(d, a[i]);
        i := i + 1;
      } else if !LessOrValue(b[j], a[i]) {
        OrdersAreTotal(a[i], b[j]);
        PassingIsSafe(a, i, b, j, i + 1);
        assert b[j].Tuple() in Tuples(b);
        i, j := i + 1, j + 1;
      } else {
        PassingIsSafe(a, i, b, j, i);
        j := j + 1;
      }
    }
    assert a[..i] == a;
  }

  /** The coarse set built from a vector by its range constructor. */
  method BuildSet(cookies: seq<Cookie>) returns (s: seq<Cookie>)
    ensures s == Built(cookies) && Sorted(s)
  {
    s := [];
    for i := 0 to |cookies|
      invariant s == Built(cookies[..i])
    {
      assert cookies[..i + 1][..i] == cookies[..i];
      s := Insert(s, cookies[i]);
    }
    assert cookies[..|cookies|] == cookies;
    FirstCookieWins(cookies);
  }
}
