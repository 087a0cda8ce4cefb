/** The two orders on cookies: the coarse one sorts cookie sets, the finer one
    decides what has changed. */
module CookieOrder {
  /** `attributes` stands for everything the comparators do not look at. */
  datatype Cookie = Cookie(domain: string, path: string, name: string, value: string, attributes: int) {
    function Key(): (string, string, string) {
      (domain, path, name)
    }

    function Tuple(): (string, string, string, string) {
      (domain, path, name, value)
    }
  }

  /** Lexicographic order on strings. */
  predicate Before(a: string, b: string) {
    if b == [] then false
    else if a == [] then true
    else if a[0] != b[0] then a[0] < b[0]
    else Before(a[1..], b[1..])
  }

  lemma {:induction false} BeforeIsTotal(a: string, b: string)
    ensures a == b || Before(a, b) || Before(b, a)
    ensures !(Before(a, b) && Before(b, a))
    ensures !Before(a, a)
    decreases |a|
  {
    if a != [] {
      BeforeIsTotal(a[1..], a[1..]);
      if b != [] {
        BeforeIsTotal(a[1..], b[1..]);
        if a[0] == b[0] && a[1..] == b[1..] {
          assert a == [a[0]] + a[1..] && b == [b[0]] + b[1..];
        }
      }
    }
  }

  lemma {:induction false} BeforeIsTransitive(a: string, b: string, c: string)
    requires Before(a, b) && Before(b, c)
    ensures Before(a, c)
    decreases |a|
  {
    if a != [] && a[0] == b[0] && b[0] == c[0] {
      BeforeIsTransitive(a[1..], b[1..], c[1..]);
    }
  }

  /** `a` and `b` agree on their first `n` characters, and then `a` ends or has the
      smaller character. */
  predicate DiffersAt(a: string, b: string, n: nat) {
    && n <= |a| && n < |b| && a[..n] == b[..n]
    && (n == |a| || a[n] < b[n])
  }

  lemma {:induction false} BeforeIsLexicographic(a: string, b: string)
    ensures Before(a, b) <==> exists n: nat :: DiffersAt(a, b, n)
    decreases |a|
  {
    if b != [] && a != [] && a[0] == b[0] {
      BeforeIsLexicographic(a[1..], b[1..]);
      if n: nat :| DiffersAt(a[1..], b[1..], n) {
        assert a[..n + 1] == [a[0]] + a[1..][..n] && b[..n + 1] == [b[0]] + b[1..][..n];
        assert DiffersAt(a, b, n + 1);
      }
      if n: nat :| DiffersAt(a, b, n) {
        assert n > 0 && a[1..][..n - 1] == a[..n][1..] && b[1..][..n - 1] == b[..n][1..];
        assert DiffersAt(a[1..], b[1..], n - 1);
      }
    } else if b != [] && (a == [] || a[0] < b[0]) {
      assert DiffersAt(a, b, 0);
    } else {
      assert forall n: nat :: 0 < n <= |a| && n < |b| ==> a[..n][0] == a[0] && b[..n][0] == b[0];
    }
  }

  /** CookieComparator. */
  predicate Less(a: Cookie, b: Cookie) {
    if a.domain != b.domain then Before(a.domain, b.domain)
    else if a.path != b.path then Before(a.path, b.path)
    else if a.name != b.name then Before(a.name, b.name)
    else false
  }

  /** CookieAndValueComparator. */
  predicate LessOrValue(a: Cookie, b: Cookie) {
    if a.domain != b.domain then Before(a.domain, b.domain)
    else if a.path != b.path then Before(a.path, b.path)
    else if a.name != b.name then Before(a.name, b.name)
    else if a.value != b.value then Before(a.value, b.value)
    else false
  }

  /** Neither is less than the other exactly when the compared fields agree. */
  lemma OrdersAreTotal(a: Cookie, b: Cookie)
    ensures !Less(a, b) && !Less(b, a) <==> a.Key() == b.Key()
    ensures !(Less(a, b) && Less(b, a))
    ensures !LessOrValue(a, b) && !LessOrValue(b, a) <==> a.Tuple() == b.Tuple()
    ensures !(LessOrValue(a, b) && LessOrValue(b, a))
    ensures Less(a, b) ==> LessOrValue(a, b)
  {
    BeforeIsTotal(a.domain, b.domain);
    BeforeIsTotal(a.path, b.path);
    BeforeIsTotal(a.name, b.name);
    BeforeIsTotal(a.value, b.value);
  }

  /** The fields are compared in the order domain, path, name, value. */
  lemma FieldsInOrder(a: Cookie, b: Cookie)
    ensures Before(a.domain, b.domain) ==> Less(a, b) && LessOrValue(a, b)
    ensures a.domain == b.domain && Before(a.path, b.path) ==> Less(a, b) && LessOrValue(a, b)
    ensures a.domain == b.domain && a.path == b.path && Before(a.name, b.name) ==> Less(a, b) && LessOrValue(a, b)
    ensures a.Key() == b.Key() && Before(a.value, b.value) ==> !Less(a, b) && LessOrValue(a, b)
  {
    BeforeIsTotal(a.domain, b.domain);
    BeforeIsTotal(a.path, b.path);
    BeforeIsTotal(a.name, b.name);
    BeforeIsTotal(a.value, b.value);
  }

  lemma LessIsTransitive(a: Cookie, b: Cookie, c: Cookie)
    requires Less(a, b) && Less(b, c)
    ensures Less(a, c)
  {
    BeforeIsTotal(a.domain, b.domain);
    BeforeIsTotal(a.path, b.path);
    BeforeIsTotal(a.name, b.name);
    if a.domain != b.domain && b.domain != c.domain {
      BeforeIsTransitive(a.domain, b.domain, c.domain);
      BeforeIsTotal(a.domain, c.domain);
    }
    if a.path != b.path && b.path != c.path && Before(a.path, b.path) && Before(b.path, c.path) {
      BeforeIsTransitive(a.path, b.path, c.path);
      BeforeIsTotal(a.path, c.path);
    }
    if a.name != b.name && b.name != c.name && Before(a.name, b.name) && Before(b.name, c.name) {
      BeforeIsTransitive(a.name, b.name, c.name);
      BeforeIsTotal(a.name, c.name);
    }
  }

  lemma LessOrValueIsTransitive(a: Cookie, b: Cookie, c: Cookie)
    requires LessOrValue(a, b) && (LessOrValue(b, c) || b.Tuple() == c.Tuple())
    ensures LessOrValue(a, c)
  {
    if a.Key() == b.Key() && b.Key() == c.Key() {
      if b.value != c.value { BeforeIsTransitive(a.value, b.value, c.value); }
      BeforeIsTotal(a.value, c.value);
    } else if a.Key() != b.Key() && b.Key() != c.Key() {
      LessIsTransitive(a, b, c);
      OrdersAreTotal(a, c);
    }
  }
}
