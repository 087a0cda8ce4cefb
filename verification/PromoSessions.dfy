/**
 * What notification promos leave in the preferences, session after session.
 *
 * A session makes a fresh promo, loads what is stored for its ID, and records
 * views and closings while the promo can be shown. Recording writes to the
 * preferences only: the promo's own fields stay as they were loaded.
 */
module PromoSessions {
  import opened Options

  /** One promo's dictionary in the preferences; each key may be missing. */
  datatype Stored = Stored(firstViewTime: Option<real>, views: Option<int>, closed: Option<bool>)

  /** The preference object, by promo ID. */
  type Prefs = map<int, Stored>

  datatype Fields = Fields(firstViewTime: real, views: int, closed: bool)

  const FRESH := Fields(0.0, 0, false)
  const UNSET_ID := -1

  /** What the server sends; it stays the same over the sessions. */
  datatype Params = Params(id: int, text: string, start: real, end: real, maxViews: int, maxSeconds: int)

  function Written(prefs: Prefs, id: int, f: Fields): Prefs {
    prefs[id := Stored(Some(f.firstViewTime), Some(f.views), Some(f.closed))]
  }

  /** InitFromPrefs on a promo with the given fields. */
  function LoadedInto(f: Fields, prefs: Prefs, id: int): Fields {
    if id == UNSET_ID || id !in prefs then f
    else
      Fields(prefs[id].firstViewTime.GetOr(f.firstViewTime),
             prefs[id].views.GetOr(f.views),
             prefs[id].closed.GetOr(f.closed))
  }

  function Loaded(prefs: Prefs, id: int): Fields {
    LoadedInto(FRESH, prefs, id)
  }

  predicate ExceedsMaxViews(p: Params, f: Fields) {
    if p.maxViews == 0 then false else f.views >= p.maxViews
  }

  predicate ExceedsMaxSeconds(p: Params, f: Fields, now: real) {
    if p.maxSeconds == 0 || f.firstViewTime == 0.0 then false
    else f.firstViewTime + p.maxSeconds as real < now
  }

  predicate CanShow(p: Params, f: Fields, now: real) {
    && !f.closed && p.text != [] && !ExceedsMaxViews(p, f) && !ExceedsMaxSeconds(p, f, now)
    && p.start < now && p.end > now
  }

  datatype Kind = View | Close

  /** Something the user did, at a clock reading. */
  datatype Event = Event(kind: Kind, now: real)

  function Viewed(f: Fields, now: real): Fields {
    Fields(if f.firstViewTime == 0.0 then now else f.firstViewTime, f.views + 1, f.closed)
  }

  /** HandleViewed and HandleClosed of a promo whose fields are `f`. */
  function Recorded(prefs: Prefs, id: int, f: Fields, e: Event): Prefs {
    match e.kind
    case View => Written(prefs, id, Viewed(f, e.now))
    case Close => if f.closed then prefs else Written(prefs, id, f.(closed := true))
  }

  /** Events while the promo cannot be shown do not happen. */
  function Shown(p: Params, f: Fields, events: seq<Event>): seq<Event> {
    if events == [] then []
    else
      var before, last := Shown(p, f, events[..|events| - 1]), events[|events| - 1];
      if CanShow(p, f, last.now) then before + [last] else before
  }

  function RecordedAll(prefs: Prefs, id: int, f: Fields, events: seq<Event>): Prefs {
    if events == [] then prefs
    else Recorded(RecordedAll(prefs, id, f, events[..|events| - 1]), id, f, events[|events| - 1])
  }

  /** A whole session. */
  function AfterSession(prefs: Prefs, p: Params, events: seq<Event>): Prefs {
    var f := Loaded(prefs, p.id);
    RecordedAll(prefs, p.id, f, Shown(p, f, events))
  }

  // --------------------------------------------------------------- one session

  function Views(events: seq<Event>): nat {
    if events == [] then 0
    else Views(events[..|events| - 1]) + if events[|events| - 1].kind.View? then 1 else 0
  }

  lemma {:induction false} ShownWhenShowable(p: Params, f: Fields, events: seq<Event>)
    ensures forall e :: e in Shown(p, f, events) ==> CanShow(p, f, e.now)
    decreases |events|
  {
    if events != [] {
      ShownWhenShowable(p, f, events[..|events| - 1]);
    }
  }

  lemma {:induction false} WritesOneEntry(prefs: Prefs, id: int, f: Fields, events: seq<Event>)
    requires !f.closed
    ensures RecordedAll(prefs, id, f, events) ==
      if events == [] then prefs else Recorded(prefs, id, f, events[|events| - 1])
    decreases |events|
  {
    if events != [] {
      WritesOneEntry(prefs, id, f, events[..|events| - 1]);
    }
  }

  /** Main result: of all that happens in a session, only the last event that
      happens while the promo can be shown decides what is stored. */
  lemma {:induction false} LastEventDecides(prefs: Prefs, p: Params, events: seq<Event>)
    ensures var f := Loaded(prefs, p.id);
      var shown := Shown(p, f, events);
      AfterSession(prefs, p, events) ==
        if shown == [] then prefs
        else Written(prefs, p.id,
               if shown[|shown| - 1].kind.View? then Viewed(f, shown[|shown| - 1].now) else f.(closed := true))
  {
    var f := Loaded(prefs, p.id);
    var shown := Shown(p, f, events);
    ShownWhenShowable(p, f, events);
    if shown != [] {
      assert shown[|shown| - 1] in shown;
      WritesOneEntry(prefs, p.id, f, shown);
    }
  }

  /** Main result: a session's views are all counted exactly when it has none, or a
      single one after which nothing is recorded; and it leaves the promo closed
      exactly when closing is the last thing recorded (or it was closed before). */
  lemma {:induction false} SessionIsCountedExactlyWhen(prefs: Prefs, p: Params, events: seq<Event>)
    requires p.id != UNSET_ID
    ensures var f := Loaded(prefs, p.id);
      var shown := Shown(p, f, events);
      var f' := Loaded(AfterSession(prefs, p, events), p.id);
      && (f'.views == f.views + Views(shown) <==>
            Views(shown) == 0 || (Views(shown) == 1 && shown[|shown| - 1].kind.View?))
      && (f'.closed <==> f.closed || (shown != [] && shown[|shown| - 1].kind.Close?))
  {
    var f := Loaded(prefs, p.id);
    var shown := Shown(p, f, events);
    LastEventDecides(prefs, p, events);
    ShownWhenShowable(p, f, events);
    if shown != [] {
      assert shown[|shown| - 1] in shown;
    }
  }

  /** Two views in one session count once, and a view after a closing leaves the
      promo open. */
  lemma SecondEventOverwrites()
    ensures var p := Params(1, "promo", 0.0, 10.0, 0, 0);
      var twice := [Event(View, 1.0), Event(View, 2.0)];
      var reopened := [Event(Close, 1.0), Event(View, 2.0)];
      && Views(Shown(p, FRESH, twice)) == 2
      && Loaded(AfterSession(map[], p, twice), 1) == Fields(2.0, 1, false)
      && Loaded(AfterSession(map[], p, reopened), 1) == Fields(2.0, 1, false)
  {
    var p := Params(1, "promo", 0.0, 10.0, 0, 0);
    BothShown(p, Event(View, 1.0), Event(View, 2.0));
    BothShown(p, Event(Close, 1.0), Event(View, 2.0));
    LastEventDecides(map[], p, [Event(View, 1.0), Event(View, 2.0)]);
    LastEventDecides(map[], p, [Event(Close, 1.0), Event(View, 2.0)]);
    assert [Event(View, 1.0), Event(View, 2.0)][..1] == [Event(View, 1.0)];
    assert [Event(View, 1.0)][..0] == [];
  }

  lemma BothShown(p: Params, a: Event, b: Event)
    requires CanShow(p, FRESH, a.now) && CanShow(p, FRESH, b.now)
    ensures Shown(p, FRESH, [a, b]) == [a, b]
  {
    assert [a, b][..1] == [a] && [a][..0] == [];
    assert Shown(p, FRESH, [a]) == [a];
  }

  // ------------------------------------------------------------- many sessions

  /** A session in which at most one thing is recorded. */
  type Session = s: seq<Event> | |s| <= 1 witness []

  function AfterSessions(prefs: Prefs, p: Params, sessions: seq<Session>): Prefs {
    if sessions == [] then prefs
    else AfterSession(AfterSessions(prefs, p, sessions[..|sessions| - 1]), p, sessions[|sessions| - 1])
  }

  /** Does the promo, loaded from `prefs`, record `kind` in this session? */
  predicate Records(prefs: Prefs, p: Params, s: Session, kind: Kind) {
    s != [] && s[0].kind == kind && CanShow(p, Loaded(prefs, p.id), s[0].now)
  }

  function SessionsWith(prefs: Prefs, p: Params, sessions: seq<Session>, kind: Kind): nat {
    if sessions == [] then 0
    else
      var rest := sessions[..|sessions| - 1];
      SessionsWith(prefs, p, rest, kind) +
        if Records(AfterSessions(prefs, p, rest), p, sessions[|sessions| - 1], kind) then 1 else 0
  }

  lemma OneSession(prefs: Prefs, p: Params, s: Session)
    ensures AfterSession(prefs, p, s) ==
      var f := Loaded(prefs, p.id);
      if Records(prefs, p, s, View) then Written(prefs, p.id, Viewed(f, s[0].now))
      else if Records(prefs, p, s, Close) then Written(prefs, p.id, f.(closed := true))
      else prefs
  {
    LastEventDecides(prefs, p, s);
    if s != [] {
      assert s[..0] == [];
      assert Shown(p, Loaded(prefs, p.id), s[..0]) == [];
      assert Shown(p, Loaded(prefs, p.id), s) == if CanShow(p, Loaded(prefs, p.id), s[0].now) then [s[0]] else [];
    }
  }

  /** When the first session that records a view did so. */
  function FirstView(prefs: Prefs, p: Params, sessions: seq<Session>): Option<real> {
    if sessions == [] then None
    else
      var rest, last := sessions[..|sessions| - 1], sessions[|sessions| - 1];
      var before := FirstView(prefs, p, rest);
      if before.None? && Records(AfterSessions(prefs, p, rest), p, last, View) then Some(last[0].now) else before
  }

  ghost predicate HasClock(sessions: seq<Session>) {
    forall i :: 0 <= i < |sessions| && sessions[i] != [] ==> sessions[i][0].now != 0.0
  }

  lemma {:induction false} FirstViewIsNone(prefs: Prefs, p: Params, sessions: seq<Session>)
    ensures FirstView(prefs, p, sessions).None? <==> SessionsWith(prefs, p, sessions, View) == 0
    decreases |sessions|
  {
    if sessions != [] {
      FirstViewIsNone(prefs, p, sessions[..|sessions| - 1]);
    }
  }

  /** Main result: over any number of sessions the stored views are the sessions
      viewed, never more than a positive maximum; the first view time is the clock
      reading of the first view and then fixed; closing is permanent, and stops all
      recording. */
  lemma {:induction false} SessionsAddUp(prefs: Prefs, p: Params, sessions: seq<Session>)
    requires p.id != UNSET_ID && HasClock(sessions)
    ensures var f, f' := Loaded(prefs, p.id), Loaded(AfterSessions(prefs, p, sessions), p.id);
      && f'.views == f.views + SessionsWith(prefs, p, sessions, View)
      && (p.maxViews > 0 && f.views <= p.maxViews ==> f'.views <= p.maxViews)
      && f'.firstViewTime ==
           (if f.firstViewTime != 0.0 then f.firstViewTime else FirstView(prefs, p, sessions).GetOr(0.0))
      && (FirstView(prefs, p, sessions).Some? ==> FirstView(prefs, p, sessions).value != 0.0)
      && (f'.closed <==> f.closed || SessionsWith(prefs, p, sessions, Close) > 0)
      && SessionsWith(prefs, p, sessions, Close) <= 1
      && (f.closed ==> AfterSessions(prefs, p, sessions) == prefs)
    decreases |sessions|
  {
    if sessions != [] {
      var rest, last := sessions[..|sessions| - 1], sessions[|sessions| - 1];
      SessionsAddUp(prefs, p, rest);
      OneSession(AfterSessions(prefs, p, rest), p, last);
    }
  }

  /** Once set, the first view time is never written differently. */
  lemma FirstViewTimeIsFixed(prefs: Prefs, p: Params, before: seq<Session>, after: seq<Session>)
    requires p.id != UNSET_ID && HasClock(before) && HasClock(after)
    requires SessionsWith(prefs, p, before, View) > 0
    ensures Loaded(AfterSessions(prefs, p, before + after), p.id).firstViewTime ==
            Loaded(AfterSessions(prefs, p, before), p.id).firstViewTime
  {
    var middle := AfterSessions(prefs, p, before);
    SessionsAddUp(prefs, p, before);
    FirstViewIsNone(prefs, p, before);
    SessionsAddUp(middle, p, after);
    SessionsJoin(prefs, p, before, after);
  }

  lemma {:induction false} SessionsJoin(prefs: Prefs, p: Params, a: seq<Session>, b: seq<Session>)
    ensures AfterSessions(prefs, p, a + b) == AfterSessions(AfterSessions(prefs, p, a), p, b)
    decreases |b|
  {
    if b == [] {
      assert a + b == a;
    } else {
      assert (a + b)[..|a + b| - 1] == a + b[..|b| - 1];
      SessionsJoin(prefs, p, a, b[..|b| - 1]);
    }
  }

  /** Other promos' entries are untouched. */
  lemma {:induction false} OthersUntouched(prefs: Prefs, p: Params, sessions: seq<Session>, other: int)
    requires other != p.id
    ensures var after := AfterSessions(prefs, p, sessions);
      (other in after <==> other in prefs) && (other in prefs ==> after[other] == prefs[other])
    decreases |sessions|
  {
    if sessions != [] {
      var rest, last := sessions[..|sessions| - 1], sessions[|sessions| - 1];
      OthersUntouched(prefs, p, rest, other);
      OneSession(AfterSessions(prefs, p, rest), p, last);
    }
  }

  /** Before its start, from its end on, or too long after its first view. */
  predicate Expired(p: Params, firstViewTime: real, now: real) {
    || now <= p.start || now >= p.end
    || (p.maxSeconds != 0 && firstViewTime != 0.0 && firstViewTime + p.maxSeconds as real < now)
  }

  /** Nothing that happens outside the time a promo may be shown leaves a trace. */
  lemma {:induction false} ExpiredLeavesNoTrace(prefs: Prefs, p: Params, sessions: seq<Session>)
    requires forall i :: 0 <= i < |sessions| && sessions[i] != [] ==>
      Expired(p, Loaded(prefs, p.id).firstViewTime, sessions[i][0].now)
    ensures AfterSessions(prefs, p, sessions) == prefs
    decreases |sessions|
  {
    if sessions != [] {
      var rest, last := sessions[..|sessions| - 1], sessions[|sessions| - 1];
      ExpiredLeavesNoTrace(prefs, p, rest);
      OneSession(prefs, p, last);
    }
  }

  // ------------------------------------------------------ what is shown and when

  /** One session for each time, viewed then. */
  function ViewedAt(times: seq<real>): (sessions: seq<Session>)
    ensures |sessions| == |times|
  {
    seq(|times|, i requires 0 <= i < |times| => [Event(View, times[i])])
  }

  /** All times lie between start and end, and not later after the first of them than
      `maxSeconds`, if that is set. */
  ghost predicate InTime(p: Params, times: seq<real>) {
    forall k :: 0 <= k < |times| ==>
      && p.start < times[k] < p.end && times[k] != 0.0
      && (p.maxSeconds != 0 ==> times[k] <= times[0] + p.maxSeconds as real)
  }

  /** `n` views, cut off at the maximum; zero means no maximum. */
  function UpTo(n: nat, maxViews: int): nat {
    if maxViews == 0 || n <= maxViews then n else if maxViews < 0 then 0 else maxViews
  }

  lemma ViewedAtPrefix(times: seq<real>)
    requires times != []
    ensures ViewedAt(times)[..|times| - 1] == ViewedAt(times[..|times| - 1])
    ensures ViewedAt(times)[|times| - 1] == [Event(View, times[|times| - 1])]
  {
  }

  /** The preferences with `n` views stored; none leaves no entry. */
  function WithViews(prefs: Prefs, id: int, first: real, n: nat): Prefs {
    if n == 0 then prefs else prefs[id := Stored(Some(first), Some(n), Some(false))]
  }

  /** The time is within start and end, and not too long after the first view. */
  predicate InTimeAfter(p: Params, n: nat, first: real, now: real) {
    && p.start < now < p.end
    && (n > 0 && p.maxSeconds != 0 ==> now <= first + p.maxSeconds as real)
  }

  lemma LoadedViews(prefs: Prefs, id: int, first: real, n: nat)
    requires id != UNSET_ID && id !in prefs
    ensures Loaded(WithViews(prefs, id, first, n), id) == if n == 0 then FRESH else Fields(first, n, false)
  {
  }

  /** In time, the promo is shown exactly when it has a text and the maximum has not
      been reached. */
  lemma ShownBelowMaximum(p: Params, first: real, n: nat, now: real)
    requires InTimeAfter(p, n, first, now)
    ensures CanShow(p, if n == 0 then FRESH else Fields(first, n, false), now) <==>
      p.text != [] && (p.maxViews == 0 || n < p.maxViews)
  {
  }

  lemma NextView(prefs: Prefs, p: Params, first: real, n: nat, now: real)
    requires p.id != UNSET_ID && p.id !in prefs && InTimeAfter(p, n, first, now)
    requires n > 0 ==> first != 0.0
    ensures var shown := p.text != [] && (p.maxViews == 0 || n < p.maxViews);
      AfterSession(WithViews(prefs, p.id, first, n), p, [Event(View, now)]) ==
        if shown then WithViews(prefs, p.id, if n == 0 then now else first, n + 1)
        else WithViews(prefs, p.id, first, n)
  {
    LoadedViews(prefs, p.id, first, n);
    ShownBelowMaximum(p, first, n, now);
    OneSession(WithViews(prefs, p.id, first, n), p, [Event(View, now)]);
  }

  /** Main result: views in time are recorded, session after session, until there are
      as many as the maximum allows, and then no more; without a text, or with a
      negative maximum, none is. */
  lemma {:induction false} ViewsUpToMaximum(prefs: Prefs, p: Params, times: seq<real>)
    requires p.id != UNSET_ID && p.id !in prefs && InTime(p, times)
    ensures var n := if p.text == [] then 0 else UpTo(|times|, p.maxViews);
      AfterSessions(prefs, p, ViewedAt(times)) ==
        if n == 0 then prefs else prefs[p.id := Stored(Some(times[0]), Some(n), Some(false))]
    decreases |times|
  {
    if times != [] {
      var rest, now := times[..|times| - 1], times[|times| - 1];
      ViewedAtPrefix(times);
      ViewsUpToMaximum(prefs, p, rest);
      var n := if p.text == [] then 0 else UpTo(|rest|, p.maxViews);
      var first := if rest == [] then 0.0 else times[0];
      assert AfterSessions(prefs, p, ViewedAt(rest)) == WithViews(prefs, p.id, first, n);
      assert InTimeAfter(p, n, first, now) && (n > 0 ==> first != 0.0);
      NextView(prefs, p, first, n, now);
    }
  }

  lemma CloseSession(prefs: Prefs, p: Params, first: real, n: nat, now: real)
    requires p.id != UNSET_ID && p.id !in prefs && InTimeAfter(p, n, first, now)
    requires p.text != [] && (p.maxViews == 0 || n < p.maxViews)
    ensures AfterSession(WithViews(prefs, p.id, first, n), p, [Event(Close, now)]) ==
      prefs[p.id := Stored(Some(if n == 0 then 0.0 else first), Some(n), Some(true))]
  {
    LoadedViews(prefs, p.id, first, n);
    ShownBelowMaximum(p, first, n, now);
    OneSession(WithViews(prefs, p.id, first, n), p, [Event(Close, now)]);
  }

  /** A closed promo records nothing. */
  lemma {:induction false} ClosedStaysAsItIs(prefs: Prefs, p: Params, sessions: seq<Session>)
    requires Loaded(prefs, p.id).closed
    ensures AfterSessions(prefs, p, sessions) == prefs
    decreases |sessions|
  {
    if sessions != [] {
      ClosedStaysAsItIs(prefs, p, sessions[..|sessions| - 1]);
      OneSession(prefs, p, sessions[|sessions| - 1]);
    }
  }

  /** A closing in time, before the maximum is reached, is recorded with the views so
      far, and nothing after it is. */
  lemma {:induction false} ClosingIsRecorded(prefs: Prefs, p: Params, times: seq<real>, now: real, later: seq<Session>)
    requires p.id != UNSET_ID && p.id !in prefs && p.text != [] && InTime(p, times + [now])
    requires p.maxViews == 0 || |times| < p.maxViews
    ensures var first := if times == [] then 0.0 else times[0];
      AfterSessions(AfterSession(AfterSessions(prefs, p, ViewedAt(times)), p, [Event(Close, now)]), p, later) ==
      prefs[p.id := Stored(Some(first), Some(|times|), Some(true))]
  {
    var first := if times == [] then 0.0 else times[0];
    InTimeToo(p, times, now);
    ViewsUpToMaximum(prefs, p, times);
    assert AfterSessions(prefs, p, ViewedAt(times)) == WithViews(prefs, p.id, first, |times|);
    CloseSession(prefs, p, first, |times|, now);
    ClosedStaysAsItIs(prefs[p.id := Stored(Some(first), Some(|times|), Some(true))], p, later);
  }

  lemma InTimeToo(p: Params, times: seq<real>, now: real)
    requires InTime(p, times + [now])
    ensures InTime(p, times)
    ensures InTimeAfter(p, |times|, if times == [] then 0.0 else times[0], now)
  {
    var all := times + [now];
    assert all[|times|] == now;
    assert forall k :: 0 <= k < |times| ==> all[k] == times[k];
  }

  // ------------------------------------------------------------ the ID that is not

  /** The last thing a promo recorded that was fresh in every session. */
  function LastRecording(p: Params, sessions: seq<Session>): Option<Event> {
    if sessions == [] then None
    else
      var rest, last := sessions[..|sessions| - 1], sessions[|sessions| - 1];
      if last != [] && CanShow(p, FRESH, last[0].now) then Some(last[0]) else LastRecording(p, rest)
  }

  /** Main result: a promo without an ID writes its entry but never loads it, so the
      entry is what the last recording session alone leaves. */
  lemma {:induction false} UnsetIdKeepsLastSession(prefs: Prefs, p: Params, sessions: seq<Session>)
    requires p.id == UNSET_ID
    ensures var last := LastRecording(p, sessions);
      AfterSessions(prefs, p, sessions) ==
        if last.None? then prefs
        else Written(prefs, UNSET_ID,
               if last.value.kind.View? then Fields(last.value.now, 1, false) else Fields(0.0, 0, true))
    decreases |sessions|
  {
    if sessions != [] {
      var rest, last := sessions[..|sessions| - 1], sessions[|sessions| - 1];
      UnsetIdKeepsLastSession(prefs, p, rest);
      OneSession(AfterSessions(prefs, p, rest), p, last);
    }
  }

  function StoredViews(prefs: Prefs, id: int): int {
    if id in prefs then prefs[id].views.GetOr(0) else 0
  }

  /** Two sessions, each viewed, of a promo without an ID: one view is stored. */
  lemma UnsetIdCountsOnce(p: Params, now: real)
    requires p.id == UNSET_ID && CanShow(p, FRESH, now)
    ensures var s: Session := [Event(View, now)];
      && SessionsWith(map[], p, [s, s], View) == 2
      && StoredViews(AfterSessions(map[], p, [s, s]), p.id) == 1
  {
    var s: Session := [Event(View, now)];
    assert [s, s][..1] == [s] && [s][..0] == [];
    UnsetIdKeepsLastSession(map[], p, [s, s]);
    assert LastRecording(p, [s, s]) == Some(s[0]);
    assert SessionsWith(map[], p, [s], View) == 1;
  }

  /** The stored views grow by the sessions viewed. */
  ghost predicate AddsUp(prefs: Prefs, p: Params, sessions: seq<Session>) {
    StoredViews(AfterSessions(prefs, p, sessions), p.id) ==
      StoredViews(prefs, p.id) + SessionsWith(prefs, p, sessions, View)
  }

  /** Main result: for a promo that can be shown at all, views add up over every run
      of sessions exactly when its ID is set. */
  lemma ViewsAddUpIffIdIsSet(p: Params, now: real)
    requires CanShow(p, FRESH, now)
    ensures (forall prefs: Prefs, sessions: seq<Session> :: AddsUp(prefs, p, sessions)) <==> p.id != UNSET_ID
  {
    if p.id != UNSET_ID {
      forall prefs: Prefs, sessions: seq<Session> ensures AddsUp(prefs, p, sessions) {
        ViewsAddUp(prefs, p, sessions);
      }
    } else {
      var s: Session := [Event(View, now)];
      UnsetIdCountsOnce(p, now);
      assert !AddsUp(map[], p, [s, s]);
    }
  }

  lemma {:induction false} ViewsAddUp(prefs: Prefs, p: Params, sessions: seq<Session>)
    requires p.id != UNSET_ID
    ensures AddsUp(prefs, p, sessions)
    decreases |sessions|
  {
    if sessions != [] {
      var rest, last := sessions[..|sessions| - 1], sessions[|sessions| - 1];
      ViewsAddUp(prefs, p, rest);
      OneSession(AfterSessions(prefs, p, rest), p, last);
    }
  }
}
