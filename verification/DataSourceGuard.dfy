/**
 * The guard in SendResponse: exactly when a response revives a source whose count
 * is zero, which runs are safe, and what a revival leads to.
 */
module DataSourceGuard {
  import opened Options
  import opened DataSourceDeletion

  // ------------------------------------------------------- the causes of revival

  /** UI stays between the guard's look at the list and the response's AddRef. */
  ghost predicate BeforeAnswer(s: State, evs: seq<Event>)
    requires Legal(s, evs)
    decreases |evs|
  {
    && (s.At(UI).Found? || s.At(UI).Answering?)
    && (evs != [] ==> (evs[0] == Advance(UI) ==> s.At(UI).Found?) && BeforeAnswer(Apply(s, evs[0]), evs[1..]))
  }

  /** Some thread releases the last reference to `src` during the run. */
  ghost predicate LosesLast(s: State, evs: seq<Event>, src: Source)
    requires Legal(s, evs)
    decreases |evs|
  {
    && evs != []
    && ((evs[0].Drop? && evs[0].src == src && s.refs[src] == 1) || LosesLast(Apply(s, evs[0]), evs[1..], src))
  }

  /** What one step does to the count of `src`: zero stays zero. */
  lemma CountStep(s: State, ev: Event, src: Source)
    requires src in s.refs && Enabled(s, ev)
    requires s.At(UI).Found? || s.At(UI).Answering?
    requires LockDiscipline(s) && (ev == Advance(UI) ==> s.At(UI).Found?)
    ensures src in Apply(s, ev).refs
    ensures Apply(s, ev).refs[src] == 0 <==> s.refs[src] == 0 || (ev.Drop? && ev.src == src && s.refs[src] == 1)
  {
    if ev.Advance? && ev.t != UI {
      assert s.At(ev.t).OffUi();
    }
  }

  lemma {:induction false} ZeroIffLost(s: State, evs: seq<Event>, src: Source)
    requires src in s.refs && LockDiscipline(s) && Legal(s, evs) && BeforeAnswer(s, evs)
    ensures src in Run(s, evs).refs
    ensures Run(s, evs).refs[src] == 0 <==> s.refs[src] == 0 || LosesLast(s, evs, src)
    ensures s.refs[src] == 0 ==> !LosesLast(s, evs, src)
    decreases |evs|
  {
    if evs != [] {
      LockDisciplineStep(s, evs[0]);
      CountStep(s, evs[0], src);
      ZeroIffLost(Apply(s, evs[0]), evs[1..], src);
    }
  }

  lemma {:induction false} AnswerIsKept(s: State, evs: seq<Event>)
    requires LockDiscipline(s) && Legal(s, evs) && BeforeAnswer(s, evs)
    ensures var pc, pc' := s.At(UI), Run(s, evs).At(UI);
      (pc'.Found? || pc'.Answering?) && pc'.src == pc.src && pc'.scheduled == pc.scheduled
    decreases |evs|
  {
    if evs != [] {
      LockDisciplineStep(s, evs[0]);
      UiMoves(s, evs[0]);
      AnswerIsKept(Apply(s, evs[0]), evs[1..]);
    }
  }

  lemma UiMoves(s: State, ev: Event)
    requires LockDiscipline(s) && Enabled(s, ev) && (s.At(UI).Found? || s.At(UI).Answering?)
    requires ev == Advance(UI) ==> s.At(UI).Found?
    ensures var pc, pc' := s.At(UI), Apply(s, ev).At(UI);
      (pc'.Found? || pc'.Answering?) && pc'.src == pc.src && pc'.scheduled == pc.scheduled
  {
    if ev != Advance(UI) { UiStays(s, ev); }
  }

  lemma UiStays(s: State, ev: Event)
    requires Enabled(s, ev) && (s.At(UI).Found? || s.At(UI).Answering?) && ev != Advance(UI)
    ensures Apply(s, ev).At(UI) == s.At(UI)
  {
  }

  /** A source UI is looking at is listed, or on its way to the list, when its
      count is zero. */
  lemma ZeroWhenLooking(s: State)
    requires Sound(s) && s.At(UI).Looking?
    ensures var src := s.At(UI).src;
      && src in s.refs
      && (s.refs[src] == 0 <==> Waiting(s, src) || src in s.Pending())
      && !(Waiting(s, src) && src in s.Pending())
  {
    var ledger :| Accounts(s, ledger);
    var src := s.At(UI).src;
    GoneIsDead(s, ledger, src);
    SoundIsConserved(s);
    assert s.Swept() == [] && src in s.refs;
    assert Places(s, src) == if s.refs[src] > 0 then 0 else 1;
  }

  /** Main result: in every interleaving, a response revives its source exactly when
      at the guard's look another thread had released it but not yet listed it, or
      the last reference went between the look and the response's own AddRef. */
  lemma RevivalHasTwoCauses(s: State, evs: seq<Event>)
    requires Sound(s) && s.At(UI).Looking?
    requires Legal(Advanced(s, UI), evs) && BeforeAnswer(Advanced(s, UI), evs)
    requires Run(Advanced(s, UI), evs).At(UI).Answering?
    ensures var src := s.At(UI).src;
      Revives(Run(Advanced(s, UI), evs), Advance(UI)) <==>
        Waiting(s, src) || LosesLast(Advanced(s, UI), evs, src)
  {
    var s1 := Advanced(s, UI);
    ZeroWhenLooking(s);
    UiKeepsLocking(s);
    AfterLooking(s);
    ZeroIffLost(s1, evs, s.At(UI).src);
    AnswerIsKept(s1, evs);
  }

  lemma AfterLooking(s: State)
    requires s.At(UI).Looking?
    ensures var pc := Advanced(s, UI).At(UI);
      pc.Found? && pc.src == s.At(UI).src && pc.scheduled == (s.At(UI).src in s.Pending())
    ensures Advanced(s, UI).refs == s.refs
  {
  }

  // ------------------------------------------------------- which calls are safe

  /** A thread inside the critical section is about to push `src`. */
  ghost predicate BeingListed(s: State, src: Source) {
    exists t: Thread :: (s.At(t).Locked? || s.At(t).Measured?) && s.At(t).src == src
  }

  /** What a caller of SendResponse can know when it calls: it owns a reference, or
      the source is on the list or about to be pushed by the owner of the lock. */
  ghost predicate CallIsSafe(s: State, src: Source, holding: bool) {
    holding || src in s.Pending() || BeingListed(s, src)
  }

  /** The response UI is working on, if any, will do no harm. */
  ghost predicate Safe(s: State) {
    var pc := s.At(UI);
    pc.Sending() ==>
      pc.holding || (if pc.Found? || pc.Answering? then pc.scheduled else CallIsSafe(s, pc.src, false))
  }

  lemma NothingListedWithoutLock(s: State, src: Source)
    requires LockDiscipline(s) && (s.lock.None? || s.lock == Some(UI))
    ensures !BeingListed(s, src)
  {
    forall t: Thread ensures !(s.At(t).Locked? || s.At(t).Measured?) {
      assert s.At(t).HoldsLock() <==> s.lock == Some(t);
    }
  }

  lemma SafeOnUi(s: State)
    requires LockDiscipline(s) && Safe(s) && Enabled(s, Advance(UI))
    ensures Safe(Advanced(s, UI))
  {
    var pc := s.At(UI);
    assert pc.HoldsLock() <==> s.lock == Some(UI);
    if pc.Asking? || pc.Looking? {
      NothingListedWithoutLock(s, pc.src);
    }
  }

  /** Another thread's step may list the source, and never unlists it. */
  lemma ListingStays(s: State, ev: Event, src: Source)
    requires LockDiscipline(s) && Enabled(s, ev) && s.At(UI).Sending() && ev != Advance(UI)
    requires CallIsSafe(s, src, false)
    ensures CallIsSafe(Apply(s, ev), src, false)
  {
    var s' := Apply(s, ev);
    if src !in s.Pending() {
      var t: Thread :| (s.At(t).Locked? || s.At(t).Measured?) && s.At(t).src == src;
      if s.At(t).Measured? && ev == Advance(t) {
        assert s'.Pending()[|s.Pending()|] == src;
      } else {
        assert s'.At(t).Locked? || s'.At(t).Measured?;
      }
    }
  }

  lemma SafeElsewhere(s: State, ev: Event)
    requires LockDiscipline(s) && Safe(s) && Enabled(s, ev) && s.At(UI).Sending() && ev != Advance(UI)
    ensures Safe(Apply(s, ev)) && Apply(s, ev).At(UI) == s.At(UI)
  {
    SendingStays(s, ev);
    var pc := s.At(UI);
    if !pc.holding && (pc.Asking? || pc.Looking?) {
      ListingStays(s, ev, pc.src);
    }
  }

  lemma SendingStays(s: State, ev: Event)
    requires Enabled(s, ev) && s.At(UI).Sending() && ev != Advance(UI)
    ensures Apply(s, ev).At(UI) == s.At(UI)
  {
  }

  lemma CallStarts(s: State, src: Source, holding: bool)
    requires Enabled(s, Send(src, holding))
    ensures var s' := Apply(s, Send(src, holding));
      s'.At(UI) == Asking(src, holding) && (Safe(s') <==> CallIsSafe(s, src, holding))
  {
    var s' := Apply(s, Send(src, holding));
    assert forall t: Thread :: t != UI ==> s'.At(t) == s.At(t);
    if BeingListed(s, src) {
      var t: Thread :| (s.At(t).Locked? || s.At(t).Measured?) && s.At(t).src == src;
      assert s'.At(t) == s.At(t);
    }
    if BeingListed(s', src) {
      var t: Thread :| (s'.At(t).Locked? || s'.At(t).Measured?) && s'.At(t).src == src;
      assert s'.At(t) == s.At(t);
    }
  }

  lemma SafeStep(s: State, ev: Event)
    requires LockDiscipline(s) && Safe(s) && Enabled(s, ev)
    requires ev.Send? ==> CallIsSafe(s, ev.src, ev.holding)
    ensures Safe(Apply(s, ev))
  {
    match ev {
      case Send(src, holding) => CallStarts(s, src, holding);
      case _ =>
        if ev == Advance(UI) { SafeOnUi(s); }
        else if s.At(UI).Sending() { SafeElsewhere(s, ev); }
        else { IdleStays(s, ev); }
    }
  }

  lemma IdleStays(s: State, ev: Event)
    requires Enabled(s, ev) && !s.At(UI).Sending() && !ev.Send?
    ensures !Apply(s, ev).At(UI).Sending()
  {
  }

  lemma SafeNeverRevives(s: State, ev: Event)
    requires Sound(s) && Safe(s)
    ensures !Revives(s, ev)
  {
    if ev.Advance? && s.At(ev.t).Answering? {
      var ledger :| Accounts(s, ledger);
      assert ev.t == UI;
      assert Counts(s.refs, ledger) && Answerable(s.At(UI), ledger);
    }
  }

  /** Every call in the run is safe when it is made. */
  ghost predicate CallsAreSafe(s: State, evs: seq<Event>)
    requires Legal(s, evs)
    decreases |evs|
  {
    evs != [] ==>
      && (evs[0].Send? ==> CallIsSafe(s, evs[0].src, evs[0].holding))
      && CallsAreSafe(Apply(s, evs[0]), evs[1..])
  }

  lemma SoundStep(s: State, ev: Event)
    requires Sound(s) && Enabled(s, ev) && !Revives(s, ev)
    ensures Sound(Apply(s, ev))
  {
    var ledger :| Accounts(s, ledger);
    LockDisciplineStep(s, ev);
    AccountsStep(s, ledger, ev);
  }

  /** Main result: a run in which every call is safe never revives a source, however
      the threads interleave. */
  lemma {:induction false} SafeCallsNeverRevive(s: State, evs: seq<Event>)
    requires Sound(s) && Safe(s) && Legal(s, evs) && CallsAreSafe(s, evs)
    ensures NoRevival(s, evs)
    decreases |evs|
  {
    if evs != [] {
      SafeNeverRevives(s, evs[0]);
      SoundStep(s, evs[0]);
      SafeStep(s, evs[0]);
      SafeCallsNeverRevive(Apply(s, evs[0]), evs[1..]);
    }
  }

  /** Every caller of SendResponse owns a reference while it calls. */
  ghost predicate CallersHold(evs: seq<Event>) {
    forall i :: 0 <= i < |evs| && evs[i].Send? ==> evs[i].holding
  }

  lemma {:induction false} HoldingCallsAreSafe(s: State, evs: seq<Event>)
    requires Legal(s, evs) && CallersHold(evs)
    ensures CallsAreSafe(s, evs)
    decreases |evs|
  {
    if evs != [] {
      assert CallersHold(evs[1..]);
      HoldingCallsAreSafe(Apply(s, evs[0]), evs[1..]);
    }
  }

  /** So callers that own references are safe. */
  lemma HoldingCallersNeverRevive(evs: seq<Event>)
    requires Legal(Initial, evs) && CallersHold(evs)
    ensures NoRevival(Initial, evs) && Conserved(Run(Initial, evs))
  {
    InitialIsSound();
    HoldingCallsAreSafe(Initial, evs);
    SafeCallsNeverRevive(Initial, evs);
    ReleasedOnceDestroyedOnce(evs);
  }

  /** UI is inside the same SendResponse from the first state to the last. */
  ghost predicate InSend(s: State, evs: seq<Event>)
    requires Legal(s, evs)
    decreases |evs|
  {
    s.At(UI).Sending() && (evs != [] ==> InSend(Apply(s, evs[0]), evs[1..]))
  }

  lemma {:induction false} SafeInSend(s: State, evs: seq<Event>)
    requires Sound(s) && Safe(s) && Legal(s, evs) && InSend(s, evs)
    ensures !Revives(Run(s, evs), Advance(UI))
    decreases |evs|
  {
    SafeNeverRevives(s, Advance(UI));
    if evs != [] {
      SafeNeverRevives(s, evs[0]);
      SoundStep(s, evs[0]);
      SafeStep(s, evs[0]);
      SafeInSend(Apply(s, evs[0]), evs[1..]);
    }
  }

  // ------------------------------------------------ an unsafe call can do harm

  /** UI is answering for `src` and will not find it on the list. */
  ghost predicate Open(s: State, src: Source) {
    var pc := s.At(UI);
    && LockDiscipline(s) && src in s.refs
    && pc.Sending() && pc.src == src && !pc.holding
    && (if pc.Found? || pc.Answering? then !pc.scheduled else !CallIsSafe(s, src, false))
  }

  /** How far UI is from its AddRef. */
  ghost function Distance(s: State): nat {
    match s.At(UI)
    case Found(_, _, _) => 1
    case Looking(_, _) => 2
    case Asking(_, _) => 3 + (if s.lock.None? then 0 else ToUnlock(s.At(s.lock.value)))
    case _ => 0
  }

  function ToUnlock(pc: Pc): nat {
    if pc.Locked? then 3 else if pc.Measured? then 2 else 1
  }

  /** The lock's owner goes on; it is listing some other source. */
  lemma OwnerAdvances(s: State, src: Source)
    requires Open(s, src) && s.At(UI).Asking? && s.lock.Some?
    ensures var ev := Advance(s.lock.value);
      Enabled(s, ev) && Open(Apply(s, ev), src) && Distance(Apply(s, ev)) < Distance(s)
      && Apply(s, ev).At(UI) == s.At(UI)
  {
    var t := s.lock.value;
    assert s.At(t).HoldsLock() && t != UI && s.At(t).OffUi();
    var s' := Advanced(s, t);
    OffUiKeepsLocking(s, t);
    OthersAreElsewhere(s, t);
    if s.At(t).Locked? || s.At(t).Measured? { assert s.At(t).src != src; }
    assert src !in s'.Pending();
    forall u: Thread ensures !((s'.At(u).Locked? || s'.At(u).Measured?) && s'.At(u).src == src) {
      assert !((s.At(u).Locked? || s.At(u).Measured?) && s.At(u).src == src);
    }
  }

  lemma OthersAreElsewhere(s: State, t: Thread)
    ensures forall u: Thread :: u != t ==> Advanced(s, t).At(u) == s.At(u)
  {
  }

  lemma GuardAdvances(s: State, src: Source)
    requires Open(s, src) && !s.At(UI).Answering? && (s.At(UI).Asking? ==> s.lock.None?)
    ensures Enabled(s, Advance(UI)) && Open(Advanced(s, UI), src)
    ensures Distance(Advanced(s, UI)) < Distance(s)
  {
    UiKeepsLocking(s);
    var s' := Advanced(s, UI);
    if s.At(UI).Asking? {
      NothingListedWithoutLock(s', src);
    }
  }

  lemma FreshAbove(ts: set<Thread>) returns (t: Thread)
    ensures t > 0 && forall u :: u in ts ==> u < t
    decreases |ts|
  {
    if ts == {} {
      t := 1;
    } else {
      var u :| u in ts;
      var t' := FreshAbove(ts - {u});
      t := if t' > u then t' else u + 1;
      assert forall v :: v in ts ==> v == u || v in ts - {u};
    }
  }

  /** A thread that owns the references releases one of them. */
  lemma OwnerReleases(s: State, src: Source) returns (t: Thread)
    requires Open(s, src) && s.At(UI).Answering? && s.refs[src] > 0
    ensures Enabled(s, Drop(t, src)) && Open(Dropped(s, t, src), src)
    ensures Dropped(s, t, src).At(UI) == s.At(UI) && Dropped(s, t, src).refs[src] == s.refs[src] - 1
  {
    t := FreshAbove(s.pcs.Keys);
    LockDisciplineStep(s, Drop(t, src));
  }

  lemma Prepend(s: State, ev: Event, s': State, rest: seq<Event>)
    requires Enabled(s, ev) && Apply(s, ev) == s' && s.At(UI).Sending()
    requires Legal(s', rest) && InSend(s', rest)
    ensures Legal(s, [ev] + rest) && InSend(s, [ev] + rest) && Run(s, [ev] + rest) == Run(s', rest)
  {
    assert ([ev] + rest)[1..] == rest;
  }

  lemma OpenRevives(s: State, src: Source) returns (evs: seq<Event>)
    requires Open(s, src)
    ensures Legal(s, evs) && InSend(s, evs) && Revives(Run(s, evs), Advance(UI))
    decreases Distance(s), s.refs[src]
  {
    if s.At(UI).Answering? && s.refs[src] == 0 {
      evs := [];
    } else {
      var ev;
      if s.At(UI).Answering? {
        var t := OwnerReleases(s, src);
        ev := Drop(t, src);
      } else if s.At(UI).Asking? && s.lock.Some? {
        OwnerAdvances(s, src);
        ev := Advance(s.lock.value);
      } else {
        GuardAdvances(s, src);
        ev := Advance(UI);
      }
      var rest := OpenRevives(Apply(s, ev), src);
      Prepend(s, ev, Apply(s, ev), rest);
      evs := [ev] + rest;
    }
  }

  /** Whatever the threads do until the response's AddRef, it revives nothing. */
  ghost predicate Harmless(s: State) {
    forall evs: seq<Event> :: Legal(s, evs) && InSend(s, evs) ==> !Revives(Run(s, evs), Advance(UI))
  }

  lemma OpenIsHarmful(s: State, src: Source)
    requires Open(s, src)
    ensures !Harmless(s)
  {
    var evs := OpenRevives(s, src);
    assert Legal(s, evs) && InSend(s, evs);
  }

  lemma SafeIsHarmless(s: State)
    requires Sound(s) && Safe(s)
    ensures Harmless(s)
  {
    forall evs: seq<Event> | Legal(s, evs) && InSend(s, evs)
      ensures !Revives(Run(s, evs), Advance(UI))
    {
      SafeInSend(s, evs);
    }
  }

  /** Main result: a call of SendResponse is harmless in every interleaving exactly
      when the caller owns a reference, or the source is on the list or about to be
      pushed by the owner of the lock. Otherwise some interleaving revives it. */
  lemma CallIsHarmlessIffSafe(s: State, src: Source, holding: bool)
    requires Sound(s) && Enabled(s, Send(src, holding))
    ensures Harmless(Apply(s, Send(src, holding))) <==> CallIsSafe(s, src, holding)
  {
    var s1 := Apply(s, Send(src, holding));
    CallStarts(s, src, holding);
    CallIsSound(s, src, holding);
    if Safe(s1) {
      SafeIsHarmless(s1);
    } else {
      OpenIsHarmful(s1, src);
    }
  }

  lemma CallIsSound(s: State, src: Source, holding: bool)
    requires Sound(s) && Enabled(s, Send(src, holding))
    ensures var s1 := Apply(s, Send(src, holding)); Sound(s1) && src in s1.refs
  {
    SoundStep(s, Send(src, holding));
  }

  /** With the lock free, that is: exactly when the caller owns a reference or the
      source is on the list, which is what the guard tests. */
  lemma CallIsHarmlessIffGuarded(s: State, src: Source, holding: bool)
    requires Sound(s) && s.lock.None? && Enabled(s, Send(src, holding))
    ensures Harmless(Apply(s, Send(src, holding))) <==> holding || src in s.Pending()
  {
    CallIsHarmlessIffSafe(s, src, holding);
    NothingListedWithoutLock(s, src);
  }

  // ------------------------------------------------------------ atomic releases

  /** What happens in one go: any single step other than a last release off the UI
      thread, or such a release together with the push onto the list. The unlock
      and the post that follow are steps of their own. */
  datatype Turn =
    | Step(ev: Event)
    | Release(t: Thread, src: Source)

  function EventsOf(turn: Turn): seq<Event> {
    match turn
    case Step(ev) => [ev]
    case Release(t, src) => [Drop(t, src)] + Steps(t, 3)
  }

  /** The lock is free for the push, and UI is not between its look at the list and
      its AddRef for the same source. */
  ghost predicate Allowed(s: State, turn: Turn) {
    match turn
    case Step(ev) =>
      Enabled(s, ev) && (ev.Drop? && ev.t != UI ==> s.refs[ev.src] > 1)
    case Release(t, src) =>
      && t != UI && s.lock.None? && Enabled(s, Drop(t, src)) && s.refs[src] == 1
      && !(s.At(UI).Answering? && s.At(UI).src == src)
  }

  /** Between turns no source is released and unlisted, and one that the guard has
      let through is referenced. */
  ghost predicate Calm(s: State) {
    && Sound(s)
    && (forall t: Thread :: !s.At(t).InWindow())
    && LetThrough(s)
  }

  ghost predicate LetThrough(s: State) {
    var pc := s.At(UI);
    (pc.Found? || pc.Answering?) && !pc.scheduled ==> pc.src in s.refs && s.refs[pc.src] > 0
  }

  lemma CalmNeverRevives(s: State, ev: Event)
    requires Calm(s)
    ensures !Revives(s, ev)
  {
    if ev.Advance? && s.At(ev.t).Answering? {
      assert ev.t == UI;
    }
  }

  lemma LookLetsThroughReferenced(s: State)
    requires Calm(s) && s.At(UI).Looking?
    ensures LetThrough(Advanced(s, UI))
  {
    ZeroWhenLooking(s);
    AfterLooking(s);
    assert !Waiting(s, s.At(UI).src);
  }

  lemma StepLetsThrough(s: State, ev: Event)
    requires Calm(s) && Allowed(s, Step(ev)) && !(ev == Advance(UI) && s.At(UI).Looking?)
    ensures LetThrough(Apply(s, ev))
  {
    if s.At(UI).Sending() && ev != Advance(UI) {
      SendingStays(s, ev);
    }
    if ev.Advance? && ev.t != UI {
      assert s.At(ev.t).OffUi();
    }
  }

  lemma StepOpensNoWindow(s: State, ev: Event, t: Thread)
    requires Calm(s) && Allowed(s, Step(ev))
    ensures !Apply(s, ev).At(t).InWindow()
  {
    assert !s.At(t).InWindow();
  }

  lemma StepIsCalm(s: State, ev: Event)
    requires Calm(s) && Allowed(s, Step(ev))
    ensures Calm(Apply(s, ev))
  {
    CalmNeverRevives(s, ev);
    SoundStep(s, ev);
    forall t: Thread ensures !Apply(s, ev).At(t).InWindow() { StepOpensNoWindow(s, ev, t); }
    if ev == Advance(UI) && s.At(UI).Looking? {
      LookLetsThroughReferenced(s);
    } else {
      StepLetsThrough(s, ev);
    }
  }

  lemma NoRevivalJoin(s: State, a: seq<Event>, b: seq<Event>)
    requires Legal(s, a) && NoRevival(s, a) && Legal(Run(s, a), b) && NoRevival(Run(s, a), b)
    ensures Legal(s, a + b) && NoRevival(s, a + b) && Run(s, a + b) == Run(Run(s, a), b)
    decreases |a|
  {
    if a == [] {
      assert a + b == b;
    } else {
      assert (a + b)[0] == a[0] && (a + b)[1..] == a[1..] + b;
      NoRevivalJoin(Apply(s, a[0]), a[1..], b);
    }
  }

  /** Only UI can revive a source. */
  lemma {:induction false} OthersNeverRevive(s: State, t: Thread, n: nat)
    requires LockDiscipline(s) && t != UI && Legal(s, Steps(t, n))
    ensures NoRevival(s, Steps(t, n))
    decreases n
  {
    if n > 0 {
      assert Steps(t, n)[0] == Advance(t) && Steps(t, n)[1..] == Steps(t, n - 1);
      LockDisciplineStep(s, Advance(t));
      OthersNeverRevive(Advanced(s, t), t, n - 1);
    }
  }

  lemma OneEvent(s: State, ev: Event, s': State)
    requires Enabled(s, ev) && !Revives(s, ev) && Apply(s, ev) == s'
    ensures Legal(s, [ev]) && NoRevival(s, [ev]) && Run(s, [ev]) == s'
  {
    assert [ev][1..] == [];
  }

  lemma ReleaseRun(s: State, t: Thread, src: Source)
    requires LockDiscipline(s) && Allowed(s, Release(t, src))
    ensures var evs := EventsOf(Release(t, src));
      Legal(s, evs) && NoRevival(s, evs) && Run(s, evs) == Listing(Dropped(s, t, src), t, src)[2]
  {
    var s1 := Dropped(s, t, src);
    var ss := Listing(s1, t, src);
    LockDisciplineStep(s, Drop(t, src));
    OneEvent(s, Drop(t, src), s1);
    ListingMoves(s1, t, src);
    NoSteps(ss[2], t);
    ThreeSteps(s1, t, ss[0], ss[1], ss[2], 0);
    OthersNeverRevive(s1, t, 3);
    NoRevivalJoin(s, [Drop(t, src)], Steps(t, 3));
  }

  lemma ReleaseStaysCalm(s: State, t: Thread, src: Source)
    requires Calm(s) && Allowed(s, Release(t, src))
    ensures var s' := Listing(Dropped(s, t, src), t, src)[2];
      LetThrough(s') && forall u: Thread :: !s'.At(u).InWindow()
  {
    var s' := Listing(Dropped(s, t, src), t, src)[2];
    assert s.At(UI).HoldsLock() <==> s.lock == Some(UI);
    forall u: Thread | u != t ensures s'.At(u) == s.At(u) {}
  }

  lemma TurnIsCalm(s: State, turn: Turn)
    requires Calm(s) && Allowed(s, turn)
    ensures Legal(s, EventsOf(turn)) && NoRevival(s, EventsOf(turn)) && Calm(Run(s, EventsOf(turn)))
  {
    match turn {
      case Step(ev) =>
        CalmNeverRevives(s, ev);
        StepIsCalm(s, ev);
        OneEvent(s, ev, Apply(s, ev));
      case Release(t, src) =>
        ReleaseRun(s, t, src);
        ReleaseStaysCalm(s, t, src);
        SoundRun(s, EventsOf(turn));
    }
  }

  ghost predicate TurnsLegal(s: State, turns: seq<Turn>)
    decreases |turns|
  {
    turns != [] ==>
      && Allowed(s, turns[0]) && Legal(s, EventsOf(turns[0]))
      && TurnsLegal(Run(s, EventsOf(turns[0])), turns[1..])
  }

  function Flat(turns: seq<Turn>): seq<Event> {
    if turns == [] then [] else EventsOf(turns[0]) + Flat(turns[1..])
  }

  lemma {:induction false} TurnsAreCalm(s: State, turns: seq<Turn>)
    requires Calm(s) && TurnsLegal(s, turns)
    ensures Legal(s, Flat(turns)) && NoRevival(s, Flat(turns)) && Calm(Run(s, Flat(turns)))
    decreases |turns|
  {
    if turns != [] {
      TurnIsCalm(s, turns[0]);
      var s' := Run(s, EventsOf(turns[0]));
      TurnsAreCalm(s', turns[1..]);
      NoRevivalJoin(s, EventsOf(turns[0]), Flat(turns[1..]));
    }
  }

  /** Main result: when a last release and the push of its source are one step, which
      does not fall between the guard's answer and the AddRef for that source, no
      response ever revives a source, whether or not callers hold references; so
      each source is destroyed at most once. Everything else interleaves freely. */
  lemma AtomicReleaseIsSafe(turns: seq<Turn>)
    requires TurnsLegal(Initial, turns)
    ensures Legal(Initial, Flat(turns)) && NoRevival(Initial, Flat(turns))
    ensures Conserved(Run(Initial, Flat(turns)))
  {
    InitialIsSound();
    TurnsAreCalm(Initial, turns);
    SoundIsConserved(Run(Initial, Flat(turns)));
  }

  // -------------------------------------------------------- concrete failing runs

  /** Source 0 has lost its last reference on thread 1 and is not listed yet. */
  lemma InTheWindow() returns (evs: seq<Event>, s: State)
    ensures Legal(Initial, evs) && s == Run(Initial, evs)
    ensures s == Initial.(refs := map[0 := 0], pcs := map[1 := Released(0)])
  {
    evs, s := Grow(Initial, [], Create(0));
    assert s == Initial.(refs := map[0 := 1]);
    evs, s := Grow(Initial, evs, Drop(1, 0));
  }

  /** The guard is not enough: a caller without a reference can revive a source
      inside that window ... */
  lemma RevivalInWindow() returns (evs: seq<Event>, s: State)
    ensures Legal(Initial, evs) && s == Run(Initial, evs)
    ensures s.refs == map[0 := 1] && s.At(UI).Idle? && s.At(1) == Released(0)
    ensures s.lock.None? && s.list.None? && s.destroyed == []
  {
    evs, s := InTheWindow();
    SendUpToAnswer(s, 0, false);
    evs, s := Follow(evs, s, [Send(0, false)] + Steps(UI, 3));
    assert s.At(UI) == Answering(0, false, false);
    evs, s := Follow(evs, s, [Advance(UI)]);
  }

  /** ... and the source is then destroyed twice. */
  lemma RevivalDestroysTwice() returns (evs: seq<Event>)
    ensures Legal(Initial, evs)
    ensures Victims(Run(Initial, evs).destroyed) == [0, 0]
  {
    var s;
    evs, s := RevivalInWindow();
    EnqueueRun(s, 1, 0);
    evs, s := Follow(evs, s, EnqueueSteps(s, 1));
    var s' := ForcedSweep(s);
    evs, s := Follow(evs, s, SweepTrace(1));
    VictimsPush(s.destroyed, Destruction(0, UI));
    evs, s := Follow(evs, s, [Drop(UI, 0)]);
  }

  /** Continues a run from the initial state. */
  lemma Follow(evs: seq<Event>, s: State, more: seq<Event>) returns (evs': seq<Event>, s': State)
    requires Legal(Initial, evs) && s == Run(Initial, evs) && Legal(s, more)
    ensures evs' == evs + more && Legal(Initial, evs') && s' == Run(Initial, evs') == Run(s, more)
  {
    RunJoin(Initial, evs, more);
    evs', s' := evs + more, Run(s, more);
  }

  /** A second opening: the last reference goes between the guard and the AddRef. */
  lemma RevivalBetweenCheckAndUse() returns (evs: seq<Event>)
    ensures Legal(Initial, evs) && Enabled(Run(Initial, evs), Advance(UI))
    ensures Revives(Run(Initial, evs), Advance(UI)) && evs[|evs| - 1..] == [Drop(1, 0)]
  {
    var s;
    evs, s := Grow(Initial, [], Create(0));
    assert s == Initial.(refs := map[0 := 1]);
    SendUpToAnswer(s, 0, false);
    evs, s := Follow(evs, s, [Send(0, false)] + Steps(UI, 3));
    assert s == Initial.(refs := map[0 := 1], pcs := map[UI := Answering(0, false, false)]);
    evs, s := Follow(evs, s, [Drop(1, 0)]);
  }
}
