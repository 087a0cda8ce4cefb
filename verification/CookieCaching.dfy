/** The cookie cache: one ordered set per (url, name), and the differences that
    each update reports. */
module CookieCaching {
  import opened Options
  import opened CookieOrder
  import opened CookieSets

  type Key = (string, string)
  type Cache = map<Key, seq<Cookie>>

  function Lookup(cache: Cache, key: Key): seq<Cookie> {
    if key in cache then cache[key] else []
  }

  ghost predicate Valid(cache: Cache) {
    forall key: Key :: key in cache ==> Sorted(cache[key])
  }

  /** What one update reports. */
  datatype Report = Report(changed: bool, removed: seq<Cookie>, added: seq<Cookie>)

  function Reported(before: seq<Cookie>, after: seq<Cookie>): Report {
    var removed, added := Difference(before, after), Difference(after, before);
    if removed == [] && added == [] then Report(false, [], []) else Report(true, removed, added)
  }

  /** The cache after an update; looking a key up creates its entry. */
  function Updated(cache: Cache, key: Key, cookies: seq<Cookie>): Cache {
    if Reported(Lookup(cache, key), Built(cookies)).changed then cache[key := Built(cookies)]
    else cache[key := Lookup(cache, key)]
  }

  /** What inserting at the end does to an out vector, which may be absent. */
  function Append(out: Option<seq<Cookie>>, more: seq<Cookie>): Option<seq<Cookie>> {
    if out.Some? then Some(out.value + more) else None
  }

  /** The out vector afterwards: an absent one stays absent, and a present one has
      kept what it held and received, in order, cookies with the given tuples. */
  ghost predicate Received(before: Option<seq<Cookie>>, after: Option<seq<Cookie>>, tuples: set<Tuple>) {
    if before.None? then after.None?
    else
      && after.Some? && before.value <= after.value
      && Tuples(after.value[|before.value|..]) == tuples
      && Sorted(after.value[|before.value|..])
  }

  class CookieCache {
    var cache: Cache

    constructor ()
      ensures cache == map[]
    {
      cache := map[];
    }

    /** The two out vectors may be absent. */
    method Update(key: Key, newCookies: seq<Cookie>,
                  outRemoved: Option<seq<Cookie>>, outAdded: Option<seq<Cookie>>)
      returns (changed: bool, removedNow: Option<seq<Cookie>>, addedNow: Option<seq<Cookie>>)
      requires Valid(cache)
      modifies this
      ensures Valid(cache) && cache == Updated(old(cache), key, newCookies)
      ensures var report := Reported(Lookup(old(cache), key), Built(newCookies));
        && changed == report.changed
        && removedNow == Append(outRemoved, report.removed)
        && addedNow == Append(outAdded, report.added)
      ensures var before, after := Tuples(Lookup(old(cache), key)), Tuples(Built(newCookies));
        && (changed <==> before != after)
        && Received(outRemoved, removedNow, before - after)
        && Received(outAdded, addedNow, after - before)
      ensures !changed ==> removedNow == outRemoved && addedNow == outAdded
      ensures Lookup(cache, key) == if changed then Built(newCookies) else Lookup(old(cache), key)
      ensures forall other: Key :: other != key ==> Lookup(cache, other) == Lookup(old(cache), other)
    {
      OutVectors(Lookup(cache, key), newCookies, outRemoved, outAdded);
      StoredSets(cache, key, newCookies);
      if key !in cache {
        cache := cache[key := []];
      }
      var oldSet := cache[key];
      var newSet := BuildSet(newCookies);
      var addedCookies := SetDifference(newSet, oldSet);
      var removedCookies := SetDifference(oldSet, newSet);
      removedNow, addedNow := outRemoved, outAdded;
      if addedCookies == [] && removedCookies == [] {
        return false, Append(outRemoved, []), Append(outAdded, []);
      }
      cache := cache[key := newSet];
      if outRemoved.Some? {
        removedNow := Some(outRemoved.value + removedCookies);
      }
      if outAdded.Some? {
        addedNow := Some(outAdded.value + addedCookies);
      }
      changed := true;
    }
  }

  // -------------------------------------------------------------- one update

  /** Main result: an update reports exactly the tuples that went and came, and
      returns false exactly when the tuples are the same. */
  lemma ReportIsExact(a: seq<Cookie>, b: seq<Cookie>)
    ensures Tuples(Reported(a, b).removed) == Tuples(a) - Tuples(b)
    ensures Tuples(Reported(a, b).added) == Tuples(b) - Tuples(a)
    ensures Reported(a, b).changed <==> Tuples(a) != Tuples(b)
  {
    DifferenceTuples(a, b);
    DifferenceTuples(b, a);
    NoTuples(Difference(a, b));
    NoTuples(Difference(b, a));
  }

  lemma NoTuples(s: seq<Cookie>)
    ensures s == [] <==> Tuples(s) == {}
  {
    if s != [] { assert s[0].Tuple() in Tuples(s); }
  }

  /** Main result: afterwards the key holds the new tuples, a repetition reports
      nothing, and no other key has moved. */
  lemma UpdateStores(cache: Cache, key: Key, cookies: seq<Cookie>, other: Key)
    ensures Tuples(Lookup(Updated(cache, key, cookies), key)) == Tuples(Built(cookies))
    ensures Reported(Lookup(Updated(cache, key, cookies), key), Built(cookies)) == Report(false, [], [])
    ensures Updated(Updated(cache, key, cookies), key, cookies) == Updated(cache, key, cookies)
    ensures other != key ==> Lookup(Updated(cache, key, cookies), other) == Lookup(cache, other)
  {
    ReportIsExact(Lookup(cache, key), Built(cookies));
    ReportIsExact(Lookup(Updated(cache, key, cookies), key), Built(cookies));
  }

  /** What the keys hold after an update. */
  lemma StoredSets(cache: Cache, key: Key, cookies: seq<Cookie>)
    ensures var report := Reported(Lookup(cache, key), Built(cookies));
      Lookup(Updated(cache, key, cookies), key) == if report.changed then Built(cookies) else Lookup(cache, key)
    ensures forall other: Key :: other != key ==> Lookup(Updated(cache, key, cookies), other) == Lookup(cache, other)
    ensures Valid(cache) ==> Valid(Updated(cache, key, cookies))
  {
    FirstCookieWins(cookies);
  }

  /** What the out vectors hold after an update. */
  lemma OutVectors(cached: seq<Cookie>, cookies: seq<Cookie>,
                   outRemoved: Option<seq<Cookie>>, outAdded: Option<seq<Cookie>>)
    requires Sorted(cached)
    ensures var report := Reported(cached, Built(cookies));
      var before, after := Tuples(cached), Tuples(Built(cookies));
      && (report.changed <==> before != after)
      && Received(outRemoved, Append(outRemoved, report.removed), before - after)
      && Received(outAdded, Append(outAdded, report.added), after - before)
      && (!report.changed ==> Append(outRemoved, report.removed) == outRemoved && Append(outAdded, report.added) == outAdded)
  {
    var report := Reported(cached, Built(cookies));
    ReportIsExact(cached, Built(cookies));
    FirstCookieWins(cookies);
    DifferenceIsSorted(cached, Built(cookies));
    DifferenceIsSorted(Built(cookies), cached);
    NewPart(outRemoved, report.removed);
    NewPart(outAdded, report.added);
  }

  lemma NewPart(out: Option<seq<Cookie>>, more: seq<Cookie>)
    requires Sorted(more)
    ensures Received(out, Append(out, more), Tuples(more))
    ensures more == [] ==> Append(out, more) == out
  {
    if out.Some? {
      assert (out.value + more)[|out.value|..] == more;
      assert out.value + [] == out.value;
    }
  }

  // ------------------------------------------------------------ many updates

  datatype Call = Call(key: Key, cookies: seq<Cookie>)

  function After(cache: Cache, calls: seq<Call>): Cache
    decreases |calls|
  {
    if calls == [] then cache
    else After(Updated(cache, calls[0].key, calls[0].cookies), calls[1..])
  }

  /** A listener passes its two vectors to every update and, after an update of
      `key`, applies what they have received to the tuples it knows. */
  datatype Listener = Listener(known: set<Tuple>, removed: seq<Cookie>, added: seq<Cookie>)

  function Told(l: Listener, report: Report, applies: bool): Listener {
    var removed := Append(Some(l.removed), report.removed).GetOr(l.removed);
    var added := Append(Some(l.added), report.added).GetOr(l.added);
    var gone, come := removed[Min(|l.removed|, |removed|)..], added[Min(|l.added|, |added|)..];
    Listener(if applies then l.known - Tuples(gone) + Tuples(come) else l.known, removed, added)
  }

  function Min(a: nat, b: nat): nat {
    if a < b then a else b
  }

  function Replayed(cache: Cache, calls: seq<Call>, key: Key, l: Listener): Listener
    decreases |calls|
  {
    if calls == [] then l
    else
      var c := calls[0];
      var report := Reported(Lookup(cache, c.key), Built(c.cookies));
      Replayed(Updated(cache, c.key, c.cookies), calls[1..], key, Told(l, report, c.key == key))
  }

  lemma ToldIsExact(l: Listener, before: seq<Cookie>, after: seq<Cookie>)
    requires l.known == Tuples(before)
    ensures Told(l, Reported(before, after), true).known == Tuples(after)
  {
    var report := Reported(before, after);
    ReportIsExact(before, after);
    assert (l.removed + report.removed)[|l.removed|..] == report.removed;
    assert (l.added + report.added)[|l.added|..] == report.added;
    var was, now := Tuples(before), Tuples(after);
    assert was - (was - now) + (now - was) == now;
  }

  /** Main result: over any run of updates, applying in order what the out vectors
      receive for a key rebuilds its cached tuples. */
  lemma {:induction false} ReplayRebuildsCache(cache: Cache, calls: seq<Call>, key: Key, l: Listener)
    requires l.known == Tuples(Lookup(cache, key))
    ensures Replayed(cache, calls, key, l).known == Tuples(Lookup(After(cache, calls), key))
    decreases |calls|
  {
    if calls != [] {
      var c := calls[0];
      var report := Reported(Lookup(cache, c.key), Built(c.cookies));
      UpdateStores(cache, c.key, c.cookies, key);
      if c.key == key { ToldIsExact(l, Lookup(cache, key), Built(c.cookies)); }
      ReplayRebuildsCache(Updated(cache, c.key, c.cookies), calls[1..], key, Told(l, report, c.key == key));
    }
  }

  lemma ReplayFromNothing(calls: seq<Call>, key: Key)
    ensures Replayed(map[], calls, key, Listener({}, [], [])).known == Tuples(Lookup(After(map[], calls), key))
  {
    assert Tuples(Lookup(map[], key)) == {};
    ReplayRebuildsCache(map[], calls, key, Listener({}, [], []));
  }

  // ------------------------------------------------------------- documentation

  /** What the header promises: some new cookie is not cached, or some cached
      cookie is not new, values included. */
  predicate DocumentedChange(cached: seq<Cookie>, cookies: seq<Cookie>) {
    Tuples(cached) != Tuples(cookies)
  }

  /** Cookies that agree on (domain, path, name) agree on the value too. */
  ghost predicate Unambiguous(cookies: seq<Cookie>) {
    forall i, j :: 0 <= i < |cookies| && 0 <= j < |cookies| && cookies[i].Key() == cookies[j].Key() ==>
      cookies[i].value == cookies[j].value
  }

  lemma TuplesOfBuilt(cookies: seq<Cookie>)
    ensures Tuples(Built(cookies)) <= Tuples(cookies)
    ensures Unambiguous(cookies) <==> Tuples(Built(cookies)) == Tuples(cookies)
  {
    FirstCookieWins(cookies);
    forall c | c in Built(cookies) ensures c in cookies {
      var i :| First(cookies, i) && cookies[i] == c;
    }
    if Unambiguous(cookies) {
      forall c | c in cookies ensures c.Tuple() in Tuples(Built(cookies)) {
        var k :| 0 <= k < |cookies| && cookies[k] == c;
        var i := FirstWithKey(cookies, k);
        assert cookies[i] in Built(cookies) && cookies[i].Tuple() == c.Tuple();
      }
    }
    if Tuples(Built(cookies)) == Tuples(cookies) {
      forall i, j | 0 <= i < |cookies| && 0 <= j < |cookies| && cookies[i].Key() == cookies[j].Key()
        ensures cookies[i].value == cookies[j].value
      {
        SortedHasOneValue(Built(cookies), cookies[i], cookies[j]);
      }
    }
  }

  lemma SortedHasOneValue(s: seq<Cookie>, c: Cookie, d: Cookie)
    requires Sorted(s) && c.Key() == d.Key()
    requires c.Tuple() in Tuples(s) && d.Tuple() in Tuples(s)
    ensures c.value == d.value
  {
    var i :| 0 <= i < |s| && s[i].Tuple() == c.Tuple();
    var j :| 0 <= j < |s| && s[j].Tuple() == d.Tuple();
    OrdersAreTotal(s[i], s[j]);
    assert i == j;
  }

  /** Of two new cookies that differ in the value only, the second one goes
      unnoticed when the first is what is cached. */
  lemma SecondValueGoesUnnoticed()
    ensures var first, second := Cookie("d", "/", "n", "1", 0), Cookie("d", "/", "n", "2", 0);
      Sorted([first]) && DocumentedChange([first], [first, second])
      && !Reported([first], Built([first, second])).changed
  {
    var first, second := Cookie("d", "/", "n", "1", 0), Cookie("d", "/", "n", "2", 0);
    assert [first, second][..1] == [first] && [first][..0] == [];
    OrdersAreTotal(first, second);
    assert Built([first]) == [first];
    assert Built([first, second]) == [first];
    ReportIsExact([first], [first]);
    assert second in [first, second] && second.Tuple() in Tuples([first, second]);
  }

  /** Main result: the return value is what the header promises for every sorted
      cached set exactly when no two new cookies disagree on a value only. */
  lemma DocumentationHoldsIffUnambiguous(cookies: seq<Cookie>)
    ensures (forall cached: seq<Cookie> :: Sorted(cached) ==>
               (Reported(cached, Built(cookies)).changed <==> DocumentedChange(cached, cookies)))
            <==> Unambiguous(cookies)
  {
    TuplesOfBuilt(cookies);
    FirstCookieWins(cookies);
    forall cached: seq<Cookie>
      ensures Reported(cached, Built(cookies)).changed <==> Tuples(cached) != Tuples(Built(cookies))
    {
      ReportIsExact(cached, Built(cookies));
    }
    if forall cached: seq<Cookie> :: Sorted(cached) ==>
         (Reported(cached, Built(cookies)).changed <==> DocumentedChange(cached, cookies))
    {
      var cached := Built(cookies);
      assert !Reported(cached, Built(cookies)).changed;
      assert !DocumentedChange(cached, cookies);
    }
  }
}
