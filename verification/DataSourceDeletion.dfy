/**
 * Deferred deletion of WebUI data sources, as an interleaved step system.
 *
 * A source is reference counted. Its last reference may be dropped on any
 * thread, but only the UI thread may destroy it. A thread other than UI puts
 * the source on a list protected by a lock, and posts a sweep to the UI thread
 * only when the list was empty. Each `Advance` is one access to shared state.
 */
module DataSourceDeletion {
  import opened Options

  type Source = nat
  type Thread = nat
  const UI: Thread := 0

  /** What a thread will do next. */
  datatype Pc =
    | Idle
    // Inside DeleteDataSource, on any thread but UI.
    | Released(src: Source)                  // about to take the lock
    | Locked(src: Source)                    // about to look at the list
    | Measured(src: Source, schedule: bool)  // about to push
    | Pushed(schedule: bool)                 // about to drop the lock
    | Posting                                // about to post the sweep
    // Inside DeleteDataSources, on UI.
    | Deleting                               // about to take the lock
    | Sweeping                               // about to swap the list out
    | Swapped(sources: seq<Source>)          // about to drop the lock
    | Destroying(sources: seq<Source>)       // in the delete loop
    // Inside SendResponse, on UI. `holding`: the caller owns a reference.
    | Asking(src: Source, holding: bool)     // about to take the lock
    | Looking(src: Source, holding: bool)    // about to search the list
    | Found(src: Source, holding: bool, scheduled: bool)      // about to drop the lock
    | Answering(src: Source, holding: bool, scheduled: bool)  // about to post the response
  {
    predicate OnUi() {
      Deleting? || Sweeping? || Swapped? || Destroying? || Asking? || Looking? || Found? || Answering?
    }

    predicate OffUi() {
      Released? || Locked? || Measured? || Pushed? || Posting?
    }

    predicate NeedsLock() { Released? || Deleting? || Asking? }

    predicate HoldsLock() {
      Locked? || Measured? || Pushed? || Sweeping? || Swapped? || Looking? || Found?
    }

    /** The count has reached zero and the source is not on the list yet. */
    predicate InWindow() { Released? || Locked? || Measured? }

    /** This thread has decided to post a sweep and has not done so. */
    predicate WillPost() { (Pushed? && schedule) || Posting? }

    predicate Sending() { Asking? || Looking? || Found? || Answering? }
  }

  datatype Destruction = Destruction(src: Source, thread: Thread)

  datatype State = State(
    refs: map<Source, nat>,          // reference counts of all sources ever made
    list: Option<seq<Source>>,       // data_sources_, null until the first push
    lock: Option<Thread>,
    pcs: map<Thread, Pc>,            // a thread not mentioned is Idle
    queue: nat,                      // sweeps in the UI queue
    accepting: bool,                 // UI still runs and accepts tasks
    destroyed: seq<Destruction>)
  {
    function At(t: Thread): Pc {
      if t in pcs then pcs[t] else Idle
    }

    function Pending(): seq<Source> {
      list.GetOr([])
    }

    /** The vector swapped out by the sweep that is now running. */
    function Swept(): seq<Source> {
      if At(UI).Swapped? || At(UI).Destroying? then At(UI).sources else []
    }

    predicate Gone(src: Source) {
      exists i :: 0 <= i < |destroyed| && destroyed[i].src == src
    }

    /** References that belong to the running UI task and nobody else can drop. */
    function Pinned(src: Source): nat {
      if At(UI).Sending() && At(UI).holding && At(UI).src == src then 1 else 0
    }

    function Goto(t: Thread, pc: Pc): State {
      this.(pcs := pcs[t := pc])
    }
  }

  datatype Event =
    | Create(src: Source)                  // a source is made and referenced
    | AddRef(src: Source)                  // a reference is copied
    | Drop(t: Thread, src: Source)         // a reference is released
    | RunTask                              // UI takes a sweep from its queue
    | Force                                // UI calls DeleteDataSources directly
    | Send(src: Source, holding: bool)     // UI calls SendResponse
    | StopUi                               // UI stops running and accepting tasks
    | Advance(t: Thread)                   // a thread takes its next step

  ghost predicate Enabled(s: State, ev: Event) {
    match ev
    case Create(src) => src !in s.refs
    case AddRef(src) => src in s.refs && s.refs[src] > 0
    case Drop(t, src) =>
      && src in s.refs && s.refs[src] > s.Pinned(src)
      && (s.At(t).Idle? || (t == UI && s.At(UI).Destroying?))
    case RunTask => s.At(UI).Idle? && s.accepting && s.queue > 0
    case Force => s.At(UI).Idle?
    case Send(src, holding) =>
      && s.At(UI).Idle? && src in s.refs && !s.Gone(src)
      && (holding ==> s.refs[src] > 0)
    case StopUi => s.At(UI).Idle?
    case Advance(t) => !s.At(t).Idle? && (s.At(t).NeedsLock() ==> s.lock.None?)
  }

  /** A reference is released on thread `t`; the last one starts DeleteDataSource. */
  function Dropped(s: State, t: Thread, src: Source): State
    requires src in s.refs && s.refs[src] > 0
  {
    var s' := s.(refs := s.refs[src := s.refs[src] - 1]);
    if s'.refs[src] > 0 then s'
    else if t == UI then s'.(destroyed := s.destroyed + [Destruction(src, t)])
    else s'.Goto(t, Released(src))
  }

  /** One step of a thread that is inside one of the three operations. */
  function Advanced(s: State, t: Thread): State {
    match s.At(t)
    case Idle => s
    case Released(src) => s.(lock := Some(t)).Goto(t, Locked(src))
    case Locked(src) =>
      s.(list := Some(s.Pending())).Goto(t, Measured(src, s.Pending() == []))
    case Measured(src, schedule) =>
      s.(list := Some(s.Pending() + [src])).Goto(t, Pushed(schedule))
    case Pushed(schedule) =>
      s.(lock := None).Goto(t, if schedule then Posting else Idle)
    case Posting =>
      s.(queue := if s.accepting then s.queue + 1 else s.queue).Goto(t, Idle)
    case Deleting => s.(lock := Some(t)).Goto(t, Sweeping)
    case Sweeping =>
      s.(list := if s.list.None? then None else Some([])).Goto(t, Swapped(s.Pending()))
    case Swapped(sources) => s.(lock := None).Goto(t, Destroying(sources))
    case Destroying(sources) =>
      if sources == [] then s.Goto(t, Idle)
      else s.(destroyed := s.destroyed + [Destruction(sources[0], t)]).Goto(t, Destroying(sources[1..]))
    case Asking(src, holding) => s.(lock := Some(t)).Goto(t, Looking(src, holding))
    case Looking(src, holding) => s.Goto(t, Found(src, holding, src in s.Pending()))
    case Found(src, holding, scheduled) =>
      s.(lock := None).Goto(t, Answering(src, holding, scheduled))
    case Answering(src, _, scheduled) =>
      if scheduled || src !in s.refs then s.Goto(t, Idle)
      else s.(refs := s.refs[src := s.refs[src] + 1]).Goto(t, Idle)
  }

  ghost function Apply(s: State, ev: Event): State
    requires Enabled(s, ev)
  {
    match ev
    case Create(src) => s.(refs := s.refs[src := 1])
    case AddRef(src) => s.(refs := s.refs[src := s.refs[src] + 1])
    case Drop(t, src) => Dropped(s, t, src)
    case RunTask => s.(queue := s.queue - 1).Goto(UI, Deleting)
    case Force => s.Goto(UI, Deleting)
    case Send(src, holding) => s.Goto(UI, Asking(src, holding))
    case StopUi => s.(accepting := false)
    case Advance(t) => Advanced(s, t)
  }

  const Initial := State(map[], None, None, map[], 0, true, [])

  ghost predicate Legal(s: State, evs: seq<Event>)
    decreases |evs|
  {
    evs == [] || (Enabled(s, evs[0]) && Legal(Apply(s, evs[0]), evs[1..]))
  }

  ghost function Run(s: State, evs: seq<Event>): State
    requires Legal(s, evs)
    decreases |evs|
  {
    if evs == [] then s else Run(Apply(s, evs[0]), evs[1..])
  }

  // ---------------------------------------------------------------- scheduling

  ghost predicate LockDiscipline(s: State) {
    && s.At(UI).OnUi() != s.At(UI).Idle?
    && (forall t: Thread :: t != UI ==> s.At(t).OffUi() != s.At(t).Idle?)
    && (forall t: Thread :: s.At(t).HoldsLock() <==> s.lock == Some(t))
    && (forall t: Thread :: s.At(t).Measured? ==> s.list.Some? && s.At(t).schedule == (s.Pending() == []))
  }

  /** Somebody is going to empty the list. */
  ghost predicate SweepComing(s: State) {
    || s.queue > 0
    || s.At(UI).Deleting? || s.At(UI).Sweeping?
    || exists t: Thread :: s.At(t).WillPost()
  }

  ghost predicate Scheduled(s: State) {
    && LockDiscipline(s)
    && (s.accepting && s.Pending() != [] ==> SweepComing(s))
  }

  /** A move of thread `t` keeps the locking rules when it takes only a free
      lock, drops only its own, and touches the list only while holding it. */
  lemma MoveKeepsLocking(s: State, s': State, t: Thread, pc: Pc)
    requires LockDiscipline(s)
    requires s'.pcs == s.pcs[t := pc]
    requires if t == UI then pc.OnUi() != pc.Idle? else pc.OffUi() != pc.Idle?
    requires pc.HoldsLock() <==> s'.lock == Some(t)
    requires s'.lock == s.lock || (s.lock in {None, Some(t)} && s'.lock in {None, Some(t)})
    requires s'.list == s.list || s.lock == Some(t)
    requires pc.Measured? ==> s'.list.Some? && pc.schedule == (s'.Pending() == [])
    ensures LockDiscipline(s')
  {
    assert s'.At(t) == pc;
    forall u: Thread | u != t
      ensures s'.At(u) == s.At(u)
      ensures s'.At(u).HoldsLock() <==> s'.lock == Some(u)
      ensures s'.At(u).Measured? ==> s'.list.Some? && s'.At(u).schedule == (s'.Pending() == [])
    {
      assert s.At(u).HoldsLock() <==> s.lock == Some(u);
    }
  }

  lemma SamePcs(s: State, s': State)
    requires LockDiscipline(s) && s'.pcs == s.pcs && s'.lock == s.lock && s'.list == s.list
    ensures LockDiscipline(s')
  {
    forall u: Thread ensures s'.At(u) == s.At(u) {}
  }

  lemma UiKeepsLocking(s: State)
    requires LockDiscipline(s) && Enabled(s, Advance(UI))
    ensures LockDiscipline(Advanced(s, UI))
  {
    var s' := Advanced(s, UI);
    assert s.At(UI).OnUi() && (s.At(UI).HoldsLock() <==> s.lock == Some(UI));
    MoveKeepsLocking(s, s', UI, s'.At(UI));
  }

  lemma OffUiKeepsLocking(s: State, t: Thread)
    requires LockDiscipline(s) && t != UI && Enabled(s, Advance(t))
    ensures LockDiscipline(Advanced(s, t))
  {
    var s' := Advanced(s, t);
    assert s.At(t).OffUi() && (s.At(t).HoldsLock() <==> s.lock == Some(t));
    MoveKeepsLocking(s, s', t, s'.At(t));
  }

  /** An idle thread enters one of the three operations. */
  lemma EnterKeepsLocking(s: State, s': State, t: Thread, pc: Pc)
    requires LockDiscipline(s) && s.At(t).Idle?
    requires s'.pcs == s.pcs[t := pc] && s'.lock == s.lock && s'.list == s.list
    requires pc.NeedsLock() && (if t == UI then pc.OnUi() else pc.OffUi())
    ensures LockDiscipline(s')
  {
    assert s.At(t).HoldsLock() <==> s.lock == Some(t);
    MoveKeepsLocking(s, s', t, pc);
  }

  lemma LockDisciplineStep(s: State, ev: Event)
    requires LockDiscipline(s) && Enabled(s, ev)
    ensures LockDiscipline(Apply(s, ev))
  {
    var s' := Apply(s, ev);
    match ev {
      case Advance(t) => if t == UI { UiKeepsLocking(s); } else { OffUiKeepsLocking(s, t); }
      case Drop(t, src) =>
        if s'.pcs == s.pcs { SamePcs(s, s'); } else { EnterKeepsLocking(s, s', t, Released(src)); }
      case RunTask => EnterKeepsLocking(s, s', UI, Deleting);
      case Force => EnterKeepsLocking(s, s', UI, Deleting);
      case Send(src, holding) => EnterKeepsLocking(s, s', UI, Asking(src, holding));
      case _ => SamePcs(s, s');
    }
  }

  /** The list becomes non-empty only by a push that has decided to post. */
  lemma FirstPushPosts(s: State, ev: Event)
    requires LockDiscipline(s) && Enabled(s, ev)
    requires s.Pending() == [] && Apply(s, ev).Pending() != []
    ensures ev.Advance? && Apply(s, ev).At(ev.t).WillPost()
  {
    assert ev.Advance? && s.At(ev.t).Measured?;
  }

  /** A thread that will post either still will, or has just posted. */
  lemma PosterStays(s: State, ev: Event, t: Thread)
    requires LockDiscipline(s) && Enabled(s, ev) && s.accepting && s.At(t).WillPost()
    ensures Apply(s, ev).At(t).WillPost() || Apply(s, ev).queue > 0
  {
    assert t != UI;
  }

  /** UI on its way to the list either still is, or has emptied it. */
  lemma SweeperStays(s: State, ev: Event)
    requires LockDiscipline(s) && Enabled(s, ev) && (s.At(UI).Deleting? || s.At(UI).Sweeping?)
    ensures var s' := Apply(s, ev);
      s'.At(UI).Deleting? || s'.At(UI).Sweeping? || s'.Pending() == []
  {
    if ev == Advance(UI) {
      assert s.At(UI).Sweeping? ==> Apply(s, ev).Pending() == [];
    } else {
      assert Apply(s, ev).At(UI) == s.At(UI);
    }
  }

  /** A queued sweep stays queued until UI starts it. */
  lemma QueueStays(s: State, ev: Event)
    requires Enabled(s, ev) && s.queue > 0
    ensures Apply(s, ev).queue > 0 || Apply(s, ev).At(UI).Deleting?
  {
  }

  lemma ScheduledStep(s: State, ev: Event)
    requires Scheduled(s) && Enabled(s, ev)
    ensures Scheduled(Apply(s, ev))
  {
    var s' := Apply(s, ev);
    LockDisciplineStep(s, ev);
    if s'.accepting && s'.Pending() != [] {
      assert s.accepting;
      if s.Pending() == [] {
        FirstPushPosts(s, ev);
      } else if s.queue > 0 {
        QueueStays(s, ev);
      } else if s.At(UI).Deleting? || s.At(UI).Sweeping? {
        SweeperStays(s, ev);
      } else {
        var t: Thread :| s.At(t).WillPost();
        PosterStays(s, ev, t);
      }
    }
  }

  lemma {:induction false} ScheduledRun(s: State, evs: seq<Event>)
    requires Scheduled(s) && Legal(s, evs)
    ensures Scheduled(Run(s, evs))
    decreases |evs|
  {
    if evs != [] {
      ScheduledStep(s, evs[0]);
      ScheduledRun(Apply(s, evs[0]), evs[1..]);
    }
  }

  /** Main result: in every interleaving, revivals included, sources on the list
      are never stranded while UI accepts tasks: a sweep is queued or about to
      empty the list, or a thread has decided to post one and not yet done so. */
  lemma NeverStranded(evs: seq<Event>)
    requires Legal(Initial, evs)
    ensures var s := Run(Initial, evs);
      s.accepting && s.Pending() != [] ==>
        || s.queue > 0 || s.At(UI).Deleting? || s.At(UI).Sweeping?
        || exists t: Thread :: s.At(t).WillPost()
  {
    assert Scheduled(Initial);
    ScheduledRun(Initial, evs);
  }

  // -------------------------------------------------------------- conservation

  /** Where a source is in its life. */
  datatype Place = Held | InWindow(t: Thread) | Listed | InSweep | Dead

  function Victims(ds: seq<Destruction>): seq<Source> {
    seq(|ds|, i requires 0 <= i < |ds| => ds[i].src)
  }

  /** `xs` holds, once each, exactly the sources that the ledger puts at `place`. */
  ghost predicate Matches(xs: seq<Source>, ledger: map<Source, Place>, place: Place) {
    && (forall i :: 0 <= i < |xs| ==> xs[i] in ledger && ledger[xs[i]] == place)
    && (forall i, j :: 0 <= i < j < |xs| ==> xs[i] != xs[j])
    && (forall src: Source :: src in ledger && ledger[src] == place ==> src in xs)
  }

  ghost predicate Counts(refs: map<Source, nat>, ledger: map<Source, Place>) {
    && ledger.Keys == refs.Keys
    && (forall src: Source :: src in ledger ==> (refs[src] > 0 <==> ledger[src].Held?))
  }

  ghost predicate Windows(s: State, ledger: map<Source, Place>) {
    && (forall t: Thread :: s.At(t).InWindow() ==>
          s.At(t).src in ledger && ledger[s.At(t).src] == InWindow(t))
    && (forall src: Source :: src in ledger && ledger[src].InWindow? ==>
          s.At(ledger[src].t).InWindow() && s.At(ledger[src].t).src == src)
  }

  ghost predicate Lists(s: State, ledger: map<Source, Place>) {
    && Matches(s.Pending(), ledger, Listed)
    && Matches(s.Swept(), ledger, InSweep)
    && Matches(Victims(s.destroyed), ledger, Dead)
  }

  /** A source UI is answering for is still there, and held if the caller holds it. */
  ghost predicate Answerable(pc: Pc, ledger: map<Source, Place>) {
    pc.Sending() ==>
      && pc.src in ledger && ledger[pc.src] != Dead
      && (pc.holding ==> ledger[pc.src].Held?)
  }

  /** The ledger gives every source one place, and the shared state agrees. */
  ghost predicate Accounts(s: State, ledger: map<Source, Place>) {
    && Counts(s.refs, ledger)
    && Windows(s, ledger)
    && Lists(s, ledger)
    && Answerable(s.At(UI), ledger)
    && (forall i :: 0 <= i < |s.destroyed| ==> s.destroyed[i].thread == UI)
  }

  /** A response that adds a reference to a source whose count is zero. */
  ghost predicate Revives(s: State, ev: Event) {
    && ev.Advance? && s.At(ev.t).Answering? && !s.At(ev.t).scheduled
    && s.At(ev.t).src in s.refs && s.refs[s.At(ev.t).src] == 0
  }

  function Moved(ledger: map<Source, Place>, from: Place, to: Place): map<Source, Place> {
    map src | src in ledger :: if ledger[src] == from then to else ledger[src]
  }

  ghost function NextLedger(s: State, ledger: map<Source, Place>, ev: Event): map<Source, Place>
    requires Enabled(s, ev)
  {
    match ev
    case Create(src) => ledger[src := Held]
    case Drop(t, src) =>
      if s.refs[src] > 1 then ledger
      else ledger[src := if t == UI then Dead else InWindow(t)]
    case Advance(t) =>
      (match s.At(t)
       case Measured(src, _) => ledger[src := Listed]
       case Sweeping => Moved(ledger, Listed, InSweep)
       case Destroying(sources) => if sources == [] then ledger else ledger[sources[0] := Dead]
       case _ => ledger)
    case _ => ledger
  }

  lemma MatchesElsewhere(xs: seq<Source>, ledger: map<Source, Place>, place: Place, src: Source, to: Place)
    requires Matches(xs, ledger, place) && to != place
    requires src in ledger ==> ledger[src] != place
    ensures Matches(xs, ledger[src := to], place)
  {
  }

  lemma MatchesPush(xs: seq<Source>, ledger: map<Source, Place>, place: Place, src: Source)
    requires Matches(xs, ledger, place)
    requires src in ledger && ledger[src] != place
    ensures Matches(xs + [src], ledger[src := place], place)
  {
    forall other: Source | other in ledger[src := place] && ledger[src := place][other] == place
      ensures other in xs + [src]
    {
      if other == src { assert (xs + [src])[|xs|] == src; }
    }
  }

  lemma MatchesPop(xs: seq<Source>, ledger: map<Source, Place>, place: Place, to: Place)
    requires Matches(xs, ledger, place) && xs != [] && to != place
    ensures Matches(xs[1..], ledger[xs[0] := to], place)
  {
    forall src: Source | src in ledger[xs[0] := to] && ledger[xs[0] := to][src] == place
      ensures src in xs[1..]
    {
      assert src in xs && src != xs[0];
    }
  }

  lemma VictimsPush(ds: seq<Destruction>, d: Destruction)
    ensures Victims(ds + [d]) == Victims(ds) + [d.src]
  {
  }

  lemma ListsElsewhere(s: State, s': State, ledger: map<Source, Place>, src: Source, to: Place)
    requires Lists(s, ledger)
    requires s'.Pending() == s.Pending() && s'.Swept() == s.Swept() && s'.destroyed == s.destroyed
    requires to.Held? || to.InWindow?
    requires src in ledger ==> ledger[src].Held? || ledger[src].InWindow?
    ensures Lists(s', ledger[src := to])
  {
    MatchesElsewhere(s.Pending(), ledger, Listed, src, to);
    MatchesElsewhere(s.Swept(), ledger, InSweep, src, to);
    MatchesElsewhere(Victims(s.destroyed), ledger, Dead, src, to);
  }

  /** Thread `t` moves without entering or leaving a window. */
  lemma WindowsStay(s: State, s': State, ledger: map<Source, Place>, t: Thread)
    requires Windows(s, ledger)
    requires forall u: Thread :: u != t ==> s'.At(u) == s.At(u)
    requires s'.At(t).InWindow() == s.At(t).InWindow()
    requires s.At(t).InWindow() ==> s'.At(t).src == s.At(t).src
    ensures Windows(s', ledger)
  {
  }

  /** A source moves between places outside any window. */
  lemma WindowsElsewhere(s: State, s': State, ledger: map<Source, Place>, src: Source, to: Place)
    requires Windows(s, ledger) && !to.InWindow?
    requires forall u: Thread :: s'.At(u) == s.At(u) || !(s.At(u).InWindow() || s'.At(u).InWindow())
    requires src in ledger ==> !ledger[src].InWindow?
    ensures Windows(s', ledger[src := to])
  {
  }

  lemma WindowsEnter(s: State, s': State, ledger: map<Source, Place>, t: Thread, src: Source)
    requires Windows(s, ledger)
    requires forall u: Thread :: u != t ==> s'.At(u) == s.At(u)
    requires !s.At(t).InWindow() && s'.At(t).InWindow() && s'.At(t).src == src
    requires src in ledger && !ledger[src].InWindow?
    ensures Windows(s', ledger[src := InWindow(t)])
  {
  }

  lemma WindowsLeave(s: State, s': State, ledger: map<Source, Place>, t: Thread)
    requires Windows(s, ledger)
    requires forall u: Thread :: u != t ==> s'.At(u) == s.At(u)
    requires s.At(t).InWindow() && !s'.At(t).InWindow()
    ensures Windows(s', ledger[s.At(t).src := Listed])
  {
  }

  lemma DropOnUiKeepsAccounts(s: State, ledger: map<Source, Place>, src: Source)
    requires LockDiscipline(s) && Accounts(s, ledger) && Enabled(s, Drop(UI, src)) && s.refs[src] == 1
    ensures Accounts(Dropped(s, UI, src), ledger[src := Dead])
  {
    var s' := Dropped(s, UI, src);
    VictimsPush(s.destroyed, Destruction(src, UI));
    MatchesPush(Victims(s.destroyed), ledger, Dead, src);
    MatchesElsewhere(s.Pending(), ledger, Listed, src, Dead);
    MatchesElsewhere(s.Swept(), ledger, InSweep, src, Dead);
    WindowsElsewhere(s, s', ledger, src, Dead);
  }

  lemma DropOffUiKeepsAccounts(s: State, ledger: map<Source, Place>, t: Thread, src: Source)
    requires LockDiscipline(s) && Accounts(s, ledger) && Enabled(s, Drop(t, src))
    requires t != UI && s.refs[src] == 1
    ensures Accounts(Dropped(s, t, src), ledger[src := InWindow(t)])
  {
    var s' := Dropped(s, t, src);
    assert s'.At(t) == Released(src) && s'.At(UI) == s.At(UI);
    WindowsEnter(s, s', ledger, t, src);
    ListsElsewhere(s, s', ledger, src, InWindow(t));
  }

  lemma DropKeepsAccounts(s: State, ledger: map<Source, Place>, t: Thread, src: Source)
    requires LockDiscipline(s) && Accounts(s, ledger) && Enabled(s, Drop(t, src))
    ensures Accounts(Dropped(s, t, src), NextLedger(s, ledger, Drop(t, src)))
  {
    if s.refs[src] > 1 {
      QuietKeepsAccounts(s, Dropped(s, t, src), ledger, t);
    } else if t == UI {
      DropOnUiKeepsAccounts(s, ledger, src);
    } else {
      DropOffUiKeepsAccounts(s, ledger, t, src);
    }
  }

  /** A step that neither moves a source nor touches a list's contents. */
  lemma QuietKeepsAccounts(s: State, s': State, ledger: map<Source, Place>, t: Thread)
    requires Accounts(s, ledger) && Counts(s'.refs, ledger)
    requires forall u: Thread :: u != t ==> s'.At(u) == s.At(u)
    requires s'.At(t).InWindow() == s.At(t).InWindow()
    requires s.At(t).InWindow() ==> s'.At(t).src == s.At(t).src
    requires s'.Pending() == s.Pending() && s'.destroyed == s.destroyed
    requires s'.Swept() == s.Swept()
    requires Answerable(s'.At(UI), ledger)
    ensures Accounts(s', ledger)
  {
    WindowsStay(s, s', ledger, t);
  }

  lemma ReleasingKeepsAccounts(s: State, ledger: map<Source, Place>, t: Thread)
    requires LockDiscipline(s) && Accounts(s, ledger) && Enabled(s, Advance(t))
    requires s.At(t).OffUi()
    ensures Accounts(Advanced(s, t), NextLedger(s, ledger, Advance(t)))
  {
    if s.At(t).Measured? {
      PushKeepsAccounts(s, ledger, t);
    } else {
      QuietKeepsAccounts(s, Advanced(s, t), ledger, t);
    }
  }

  lemma PushKeepsAccounts(s: State, ledger: map<Source, Place>, t: Thread)
    requires LockDiscipline(s) && Accounts(s, ledger) && t != UI && s.At(t).Measured?
    ensures Accounts(Advanced(s, t), ledger[s.At(t).src := Listed])
  {
    var s' := Advanced(s, t);
    var src := s.At(t).src;
    assert s'.At(UI) == s.At(UI);
    WindowsLeave(s, s', ledger, t);
    MatchesPush(s.Pending(), ledger, Listed, src);
    MatchesElsewhere(s.Swept(), ledger, InSweep, src, Listed);
    MatchesElsewhere(Victims(s.destroyed), ledger, Dead, src, Listed);
  }

  lemma SweepingKeepsAccounts(s: State, ledger: map<Source, Place>)
    requires LockDiscipline(s) && Accounts(s, ledger) && Enabled(s, Advance(UI))
    requires !s.At(UI).Sending()
    ensures Accounts(Advanced(s, UI), NextLedger(s, ledger, Advance(UI)))
  {
    if s.At(UI).Sweeping? {
      SwapKeepsAccounts(s, ledger);
    } else if s.At(UI).Destroying? && s.At(UI).sources != [] {
      DestroyKeepsAccounts(s, ledger);
    } else {
      QuietKeepsAccounts(s, Advanced(s, UI), ledger, UI);
    }
  }

  lemma AnswerKeepsAccounts(s: State, ledger: map<Source, Place>)
    requires Accounts(s, ledger) && s.At(UI).Answering? && !Revives(s, Advance(UI))
    ensures Accounts(Advanced(s, UI), ledger)
  {
    var s' := Advanced(s, UI);
    assert Counts(s'.refs, ledger);
    QuietKeepsAccounts(s, s', ledger, UI);
  }

  lemma SendingKeepsAccounts(s: State, ledger: map<Source, Place>)
    requires LockDiscipline(s) && Accounts(s, ledger) && Enabled(s, Advance(UI))
    requires s.At(UI).Sending() && !Revives(s, Advance(UI))
    ensures Accounts(Advanced(s, UI), ledger)
  {
    if s.At(UI).Answering? {
      AnswerKeepsAccounts(s, ledger);
    } else {
      QuietKeepsAccounts(s, Advanced(s, UI), ledger, UI);
    }
  }

  lemma SwapKeepsAccounts(s: State, ledger: map<Source, Place>)
    requires LockDiscipline(s) && Accounts(s, ledger) && s.At(UI).Sweeping?
    ensures Accounts(Advanced(s, UI), Moved(ledger, Listed, InSweep))
  {
    var s' := Advanced(s, UI);
    var moved := Moved(ledger, Listed, InSweep);
    assert s'.At(UI) == Swapped(s.Pending()) && s.Swept() == [];
    assert Matches(s'.Pending(), moved, Listed);
    assert Matches(s'.Swept(), moved, InSweep);
    assert Matches(Victims(s.destroyed), moved, Dead);
    forall u: Thread | u != UI ensures s'.At(u) == s.At(u) {}
  }

  lemma DestroyKeepsAccounts(s: State, ledger: map<Source, Place>)
    requires LockDiscipline(s) && Accounts(s, ledger)
    requires s.At(UI).Destroying? && s.At(UI).sources != []
    ensures Accounts(Advanced(s, UI), ledger[s.At(UI).sources[0] := Dead])
  {
    var s' := Advanced(s, UI);
    var sources := s.At(UI).sources;
    assert s'.At(UI) == Destroying(sources[1..]);
    VictimsPush(s.destroyed, Destruction(sources[0], UI));
    MatchesPush(Victims(s.destroyed), ledger, Dead, sources[0]);
    MatchesPop(sources, ledger, InSweep, Dead);
    MatchesElsewhere(s.Pending(), ledger, Listed, sources[0], Dead);
    WindowsElsewhere(s, s', ledger, sources[0], Dead);
  }

  lemma GoneIsDead(s: State, ledger: map<Source, Place>, src: Source)
    requires Lists(s, ledger) && src in ledger
    ensures s.Gone(src) <==> ledger[src] == Dead
  {
    var victims := Victims(s.destroyed);
    if s.Gone(src) {
      var i :| 0 <= i < |s.destroyed| && s.destroyed[i].src == src;
      assert victims[i] == src;
    }
    if ledger[src] == Dead {
      var i :| 0 <= i < |victims| && victims[i] == src;
      assert s.destroyed[i].src == src;
    }
  }

  lemma AdvanceKeepsAccounts(s: State, ledger: map<Source, Place>, t: Thread)
    requires LockDiscipline(s) && Accounts(s, ledger)
    requires Enabled(s, Advance(t)) && !Revives(s, Advance(t))
    ensures Accounts(Advanced(s, t), NextLedger(s, ledger, Advance(t)))
  {
    if t != UI {
      ReleasingKeepsAccounts(s, ledger, t);
    } else if s.At(UI).Sending() {
      SendingKeepsAccounts(s, ledger);
    } else {
      SweepingKeepsAccounts(s, ledger);
    }
  }

  lemma CreateKeepsAccounts(s: State, ledger: map<Source, Place>, src: Source)
    requires Accounts(s, ledger) && src !in s.refs
    ensures Accounts(s.(refs := s.refs[src := 1]), ledger[src := Held])
  {
    var s' := s.(refs := s.refs[src := 1]);
    WindowsElsewhere(s, s', ledger, src, Held);
    ListsElsewhere(s, s', ledger, src, Held);
  }

  lemma AccountsStep(s: State, ledger: map<Source, Place>, ev: Event)
    requires LockDiscipline(s) && Accounts(s, ledger)
    requires Enabled(s, ev) && !Revives(s, ev)
    ensures Accounts(Apply(s, ev), NextLedger(s, ledger, ev))
  {
    match ev {
      case Drop(t, src) => DropKeepsAccounts(s, ledger, t, src);
      case Advance(t) => AdvanceKeepsAccounts(s, ledger, t);
      case Create(src) => CreateKeepsAccounts(s, ledger, src);
      case Send(src, _) =>
        GoneIsDead(s, ledger, src);
        QuietKeepsAccounts(s, Apply(s, ev), ledger, UI);
      case _ => QuietKeepsAccounts(s, Apply(s, ev), ledger, UI);
    }
  }

  ghost predicate NoRevival(s: State, evs: seq<Event>)
    requires Legal(s, evs)
    decreases |evs|
  {
    evs != [] ==> !Revives(s, evs[0]) && NoRevival(Apply(s, evs[0]), evs[1..])
  }

  ghost predicate Sound(s: State) {
    LockDiscipline(s) && exists ledger :: Accounts(s, ledger)
  }

  lemma {:induction false} SoundRun(s: State, evs: seq<Event>)
    requires Sound(s) && Legal(s, evs) && NoRevival(s, evs)
    ensures Sound(Run(s, evs))
    decreases |evs|
  {
    if evs != [] {
      var ledger :| Accounts(s, ledger);
      LockDisciplineStep(s, evs[0]);
      AccountsStep(s, ledger, evs[0]);
      SoundRun(Apply(s, evs[0]), evs[1..]);
    }
  }

  lemma InitialIsSound()
    ensures Sound(Initial) && Scheduled(Initial)
  {
    assert Accounts(Initial, map[]);
  }

  ghost predicate Waiting(s: State, src: Source) {
    exists t: Thread :: s.At(t).InWindow() && s.At(t).src == src
  }

  /** How many of the four places a released source can be in hold `src`. */
  ghost function Places(s: State, src: Source): nat {
    (if Waiting(s, src) then 1 else 0) + (if src in s.Pending() then 1 else 0) +
    (if src in s.Swept() then 1 else 0) + (if s.Gone(src) then 1 else 0)
  }

  ghost predicate NoRepeats(xs: seq<Source>) {
    forall i, j :: 0 <= i < j < |xs| ==> xs[i] != xs[j]
  }

  /** A referenced source is nowhere; a released one is in exactly one place,
      once; whatever was destroyed was destroyed once, on UI. */
  ghost predicate Conserved(s: State) {
    && (forall src: Source :: src in s.refs ==> Places(s, src) == if s.refs[src] > 0 then 0 else 1)
    && (forall t: Thread, u: Thread ::
          s.At(t).InWindow() && s.At(u).InWindow() && s.At(t).src == s.At(u).src ==> t == u)
    && NoRepeats(s.Pending()) && NoRepeats(s.Swept()) && NoRepeats(Victims(s.destroyed))
    && (forall i :: 0 <= i < |s.destroyed| ==> s.destroyed[i].thread == UI && s.destroyed[i].src in s.refs)
  }

  lemma WaitingIsInWindow(s: State, ledger: map<Source, Place>, src: Source)
    requires Windows(s, ledger) && src in ledger
    ensures Waiting(s, src) <==> ledger[src].InWindow?
  {
    if ledger[src].InWindow? {
      assert s.At(ledger[src].t).InWindow();
    }
  }

  lemma SoundIsConserved(s: State)
    requires Sound(s)
    ensures Conserved(s)
  {
    var ledger :| Accounts(s, ledger);
    forall src: Source | src in s.refs
      ensures Places(s, src) == if s.refs[src] > 0 then 0 else 1
    {
      WaitingIsInWindow(s, ledger, src);
      GoneIsDead(s, ledger, src);
    }
    forall i | 0 <= i < |s.destroyed| ensures s.destroyed[i].src in s.refs {
      assert Victims(s.destroyed)[i] in ledger;
    }
  }

  /** Main result: in every interleaving in which no response revives a source,
      each released source is in exactly one place and destroyed at most once. */
  lemma ReleasedOnceDestroyedOnce(evs: seq<Event>)
    requires Legal(Initial, evs) && NoRevival(Initial, evs)
    ensures Conserved(Run(Initial, evs))
  {
    InitialIsSound();
    SoundRun(Initial, evs);
    SoundIsConserved(Run(Initial, evs));
  }

  /** Main result: while UI accepts tasks, once its queue is empty and every thread
      is done, a source has been destroyed exactly when it has no references. */
  lemma QuiescenceLeaksNothing(evs: seq<Event>)
    requires Legal(Initial, evs) && NoRevival(Initial, evs)
    requires var s := Run(Initial, evs); s.accepting && s.queue == 0 && forall t: Thread :: s.At(t).Idle?
    ensures var s := Run(Initial, evs);
      && s.Pending() == []
      && forall src: Source :: src in s.refs ==> (s.Gone(src) <==> s.refs[src] == 0)
  {
    var s := Run(Initial, evs);
    NeverStranded(evs);
    ReleasedOnceDestroyedOnce(evs);
    assert s.Swept() == [];
    forall src: Source | src in s.refs ensures s.Gone(src) <==> s.refs[src] == 0 {
      assert !Waiting(s, src);
      assert Places(s, src) == if s.refs[src] > 0 then 0 else 1;
    }
  }

  // -------------------------------------------------------- uninterrupted calls

  function Steps(t: Thread, n: nat): seq<Event> {
    seq(n, _ => Advance(t))
  }

  lemma Grow(s: State, evs: seq<Event>, ev: Event) returns (evs': seq<Event>, s': State)
    requires Legal(s, evs) && Enabled(Run(s, evs), ev)
    ensures evs' == evs + [ev] && Legal(s, evs')
    ensures s' == Run(s, evs') == Apply(Run(s, evs), ev)
    decreases |evs|
  {
    evs', s' := evs + [ev], Apply(Run(s, evs), ev);
    if evs == [] {
      assert evs'[1..] == [];
    } else {
      assert evs'[0] == evs[0] && evs'[1..] == evs[1..] + [ev];
      var rest, _ := Grow(Apply(s, evs[0]), evs[1..], ev);
      assert rest == evs'[1..];
    }
  }

  lemma GotoTwice(s: State, t: Thread, a: Pc, b: Pc)
    ensures s.Goto(t, a).Goto(t, b) == s.Goto(t, b)
  {
    assert s.pcs[t := a][t := b] == s.pcs[t := b];
  }

  function Guarding(s: State, src: Source, holding: bool): (ss: seq<State>)
    ensures |ss| == 4
  {
    var scheduled := src in s.Pending();
    [s.Goto(UI, Asking(src, holding)),
     s.(lock := Some(UI)).Goto(UI, Looking(src, holding)),
     s.(lock := Some(UI)).Goto(UI, Found(src, holding, scheduled)),
     s.Goto(UI, Answering(src, holding, scheduled))]
  }

  lemma GuardMoves(s: State, src: Source, holding: bool)
    requires s.lock.None?
    ensures var ss := Guarding(s, src, holding);
      Advanced(ss[0], UI) == ss[1] && Advanced(ss[1], UI) == ss[2] && Advanced(ss[2], UI) == ss[3]
  {
    var scheduled := src in s.Pending();
    GotoTwice(s, UI, Asking(src, holding), Looking(src, holding));
    GotoTwice(s, UI, Looking(src, holding), Found(src, holding, scheduled));
    GotoTwice(s, UI, Found(src, holding, scheduled), Answering(src, holding, scheduled));
  }

  lemma SendUpToAnswer(s: State, src: Source, holding: bool)
    requires s.lock.None? && Enabled(s, Send(src, holding))
    ensures Legal(s, [Send(src, holding)] + Steps(UI, 3))
    ensures Run(s, [Send(src, holding)] + Steps(UI, 3)) == s.Goto(UI, Answering(src, holding, src in s.Pending()))
  {
    var ss := Guarding(s, src, holding);
    GuardMoves(s, src, holding);
    NoSteps(ss[3], UI);
    ThreeSteps(ss[0], UI, ss[1], ss[2], ss[3], 0);
    assert ([Send(src, holding)] + Steps(UI, 3))[1..] == Steps(UI, 3);
  }

  function SendTrace(src: Source, holding: bool): seq<Event> {
    [Send(src, holding)] + Steps(UI, 3) + [Advance(UI)]
  }

  function Sent(s: State, src: Source): State {
    (if src in s.Pending() || src !in s.refs then s
     else s.(refs := s.refs[src := s.refs[src] + 1])).Goto(UI, Idle)
  }

  lemma AnswerMoves(s: State, src: Source, holding: bool)
    ensures Advanced(s.Goto(UI, Answering(src, holding, src in s.Pending())), UI) == Sent(s, src)
  {
    GotoTwice(s, UI, Answering(src, holding, src in s.Pending()), Idle);
  }

  lemma LastStep(s: State, evs: seq<Event>, s': State, ev: Event)
    requires Legal(s, evs) && Run(s, evs) == s' && Enabled(s', ev)
    ensures Legal(s, evs + [ev]) && Run(s, evs + [ev]) == Apply(s', ev)
  {
    var _, _ := Grow(s, evs, ev);
  }

  lemma SendRun(s: State, src: Source, holding: bool)
    requires s.lock.None? && Enabled(s, Send(src, holding))
    ensures Legal(s, SendTrace(src, holding))
    ensures Run(s, SendTrace(src, holding)) == Sent(s, src)
  {
    SendUpToAnswer(s, src, holding);
    AnswerMoves(s, src, holding);
    LastStep(s, [Send(src, holding)] + Steps(UI, 3),
             s.Goto(UI, Answering(src, holding, src in s.Pending())), Advance(UI));
  }

  lemma NoSteps(s: State, t: Thread)
    ensures Legal(s, Steps(t, 0)) && Run(s, Steps(t, 0)) == s
  {
  }

  lemma StepAhead(s: State, t: Thread, s': State, n: nat)
    requires Enabled(s, Advance(t)) && Advanced(s, t) == s' && Legal(s', Steps(t, n))
    ensures Legal(s, Steps(t, n + 1)) && Run(s, Steps(t, n + 1)) == Run(s', Steps(t, n))
  {
    assert Steps(t, n + 1)[0] == Advance(t) && Steps(t, n + 1)[1..] == Steps(t, n);
  }

  lemma ThreeSteps(s1: State, t: Thread, s2: State, s3: State, s4: State, n: nat)
    requires Enabled(s1, Advance(t)) && Advanced(s1, t) == s2
    requires Enabled(s2, Advance(t)) && Advanced(s2, t) == s3
    requires Enabled(s3, Advance(t)) && Advanced(s3, t) == s4
    requires Legal(s4, Steps(t, n))
    ensures Legal(s1, Steps(t, n + 3)) && Run(s1, Steps(t, n + 3)) == Run(s4, Steps(t, n))
  {
    StepAhead(s3, t, s4, n);
    StepAhead(s2, t, s3, n + 1);
    StepAhead(s1, t, s2, n + 2);
  }

  /** The steps of DeleteDataSource off the UI thread, run without interruption. */
  function EnqueueSteps(s: State, t: Thread): seq<Event> {
    Steps(t, if s.Pending() == [] then 5 else 4)
  }

  function Enqueued(s: State, t: Thread, src: Source): State {
    s.(list := Some(s.Pending() + [src]),
       queue := if s.Pending() == [] && s.accepting then s.queue + 1 else s.queue).Goto(t, Idle)
  }

  /** From the moment the source is on the list. */
  lemma PushedRun(s: State, t: Thread, first: bool)
    requires s.At(t) == Pushed(first)
    ensures var n := if first then 2 else 1;
      Legal(s, Steps(t, n)) &&
      Run(s, Steps(t, n)) == s.(lock := None,
        queue := if first && s.accepting then s.queue + 1 else s.queue).Goto(t, Idle)
  {
    if first {
      var s1 := s.(lock := None).Goto(t, Posting);
      var s2 := s.(lock := None, queue := if s.accepting then s.queue + 1 else s.queue).Goto(t, Idle);
      assert Advanced(s1, t) == s2 by { GotoTwice(s, t, Posting, Idle); }
      NoSteps(s2, t);
      StepAhead(s1, t, s2, 0);
      StepAhead(s, t, s1, 1);
    } else {
      var s1 := s.(lock := None).Goto(t, Idle);
      NoSteps(s1, t);
      StepAhead(s, t, s1, 0);
    }
  }

  function Listing(s: State, t: Thread, src: Source): (ss: seq<State>)
    ensures |ss| == 3
  {
    var first := s.Pending() == [];
    [s.(lock := Some(t)).Goto(t, Locked(src)),
     s.(lock := Some(t), list := Some(s.Pending())).Goto(t, Measured(src, first)),
     s.(lock := Some(t), list := Some(s.Pending() + [src])).Goto(t, Pushed(first))]
  }

  lemma ListingMoves(s: State, t: Thread, src: Source)
    requires s.lock.None? && s.At(t) == Released(src)
    ensures var ss := Listing(s, t, src);
      Advanced(s, t) == ss[0] && Advanced(ss[0], t) == ss[1] && Advanced(ss[1], t) == ss[2]
  {
    var first := s.Pending() == [];
    GotoTwice(s, t, Locked(src), Measured(src, first));
    GotoTwice(s, t, Measured(src, first), Pushed(first));
  }

  lemma EnqueueRun(s: State, t: Thread, src: Source)
    requires s.lock.None? && s.At(t) == Released(src)
    ensures Legal(s, EnqueueSteps(s, t)) && Run(s, EnqueueSteps(s, t)) == Enqueued(s, t, src)
  {
    var first, ss := s.Pending() == [], Listing(s, t, src);
    ListingMoves(s, t, src);
    GotoTwice(s, t, Pushed(first), Idle);
    PushedRun(ss[2], t, first);
    ThreeSteps(s, t, ss[0], ss[1], ss[2], if first then 2 else 1);
  }

  /** Main result: SendResponse run as one uninterrupted UI task adds a reference
      to a zero-count source exactly when another thread has dropped the last
      reference and has not yet put the source on the list. */
  lemma UninterruptedSend(s: State, src: Source, holding: bool)
    requires Sound(s) && s.lock.None? && Enabled(s, Send(src, holding))
    ensures Legal(s, [Send(src, holding)] + Steps(UI, 3))
    ensures Enabled(Run(s, [Send(src, holding)] + Steps(UI, 3)), Advance(UI))
    ensures Revives(Run(s, [Send(src, holding)] + Steps(UI, 3)), Advance(UI)) <==> Waiting(s, src)
  {
    SendUpToAnswer(s, src, holding);
    assert (s.refs[src] == 0 && src !in s.Pending()) <==> Waiting(s, src) by {
      SoundIsConserved(s);
      assert s.Swept() == [];
    }
  }

  // ------------------------------------------------------------------ shutdown

  function Destructions(sources: seq<Source>): seq<Destruction> {
    seq(|sources|, i requires 0 <= i < |sources| => Destruction(sources[i], UI))
  }

  /** The UI thread's delete loop, run to its end. */
  lemma {:induction false} DeleteLoop(s: State, sources: seq<Source>) returns (s': State)
    requires s.At(UI) == Destroying(sources)
    ensures Legal(s, Steps(UI, |sources| + 1)) && s' == Run(s, Steps(UI, |sources| + 1))
    ensures s' == s.(destroyed := s.destroyed + Destructions(sources), pcs := s'.pcs) && s'.At(UI).Idle?
    decreases |sources|
  {
    var evs := Steps(UI, |sources| + 1);
    var s1 := Advanced(s, UI);
    assert evs[0] == Advance(UI) && evs[1..] == Steps(UI, |sources|);
    if sources == [] {
      s' := s1;
      assert s.destroyed + Destructions(sources) == s.destroyed;
    } else {
      s' := DeleteLoop(s1, sources[1..]);
      assert Destructions(sources) == [Destruction(sources[0], UI)] + Destructions(sources[1..]);
    }
  }

  function SweepTrace(n: nat): seq<Event> {
    [Force] + Steps(UI, 3) + Steps(UI, n + 1)
  }

  lemma RunJoin(s: State, a: seq<Event>, b: seq<Event>)
    requires Legal(s, a) && Legal(Run(s, a), b)
    ensures Legal(s, a + b) && Run(s, a + b) == Run(Run(s, a), b)
    decreases |a|
  {
    if a == [] {
      assert a + b == b;
    } else {
      assert (a + b)[1..] == a[1..] + b;
      RunJoin(Apply(s, a[0]), a[1..], b);
    }
  }

  /** An uninterrupted DeleteDataSources destroys the list, in order, and empties it. */
  lemma ForcedSweep(s: State) returns (s': State)
    requires s.At(UI).Idle? && s.lock.None?
    ensures Legal(s, SweepTrace(|s.Pending()|)) && s' == Run(s, SweepTrace(|s.Pending()|))
    ensures s' == s.(list := if s.list.None? then None else Some([]),
                     destroyed := s.destroyed + Destructions(s.Pending()),
                     pcs := s'.pcs)
    ensures s'.At(UI).Idle? && Victims(s'.destroyed) == Victims(s.destroyed) + s.Pending()
  {
    var pending, list := s.Pending(), if s.list.None? then None else Some([]);
    var s1 := s.Goto(UI, Deleting);
    var s2 := s.(lock := Some(UI)).Goto(UI, Sweeping);
    var s3 := s.(lock := Some(UI), list := list).Goto(UI, Swapped(pending));
    var s4 := s.(list := list).Goto(UI, Destroying(pending));
    assert Advanced(s1, UI) == s2 by { GotoTwice(s, UI, Deleting, Sweeping); }
    assert Advanced(s2, UI) == s3 by { GotoTwice(s, UI, Sweeping, Swapped(pending)); }
    assert Advanced(s3, UI) == s4 by { GotoTwice(s, UI, Swapped(pending), Destroying(pending)); }
    NoSteps(s4, UI);
    ThreeSteps(s1, UI, s2, s3, s4, 0);
    RunJoin(s, [Force], Steps(UI, 3));
    s' := DeleteLoop(s4, pending);
    RunJoin(s, [Force] + Steps(UI, 3), Steps(UI, |pending| + 1));
    VictimsJoin(s.destroyed, pending);
  }

  lemma VictimsJoin(ds: seq<Destruction>, sources: seq<Source>)
    ensures Victims(ds + Destructions(sources)) == Victims(ds) + sources
  {
  }

  /** Main result: once the other threads are done, the forced sweep of shutdown
      leaves no released source undestroyed, whether or not UI still runs tasks. */
  lemma ShutdownLeaksNothing(s: State) returns (s': State)
    requires Sound(s) && forall t: Thread :: s.At(t).Idle?
    ensures Legal(s, SweepTrace(|s.Pending()|)) && s' == Run(s, SweepTrace(|s.Pending()|))
    ensures s'.Pending() == [] && s'.refs == s.refs
    ensures forall src: Source :: src in s.refs ==> (s'.Gone(src) <==> s.refs[src] == 0)
  {
    assert s.lock.None? by {
      assert s.At(s.lock.GetOr(UI)).Idle?;
    }
    s' := ForcedSweep(s);
    SoundIsConserved(s);
    forall src: Source | src in s.refs ensures s'.Gone(src) <==> s.refs[src] == 0 {
      GoneAfter(s, s', src);
    }
  }

  lemma GoneAfter(s: State, s': State, src: Source)
    requires Victims(s'.destroyed) == Victims(s.destroyed) + s.Pending()
    ensures s'.Gone(src) <==> s.Gone(src) || src in s.Pending()
  {
    var before, after := Victims(s.destroyed), Victims(s'.destroyed);
    if s'.Gone(src) {
      var i :| 0 <= i < |s'.destroyed| && s'.destroyed[i].src == src;
      assert after[i] == src;
      if i < |before| { assert s.destroyed[i].src == before[i]; }
    }
    if s.Gone(src) {
      var i :| 0 <= i < |s.destroyed| && s.destroyed[i].src == src;
      assert before[i] == src && after[i] == src && s'.destroyed[i].src == src;
    }
    if src in s.Pending() {
      var i :| 0 <= i < |s.Pending()| && s.Pending()[i] == src;
      assert after[|before| + i] == src && s'.destroyed[|before| + i].src == src;
    }
  }
}
