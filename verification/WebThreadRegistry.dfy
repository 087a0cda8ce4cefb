/**
 * The registry that binds the named threads UI and IO to task runners, and the
 * posting of tasks through it, as an interleaved step system.
 *
 * Posting skips the registry lock when the identifiers, listed in order of
 * lifetime, say that the target outlives the current thread. Every `Advance` is
 * one access to the shared registry.
 */
module WebThreadRegistry {
  import opened Options

  type Thread = nat
  const MAIN: Thread := 0       // runs WebThread::UI
  const IO_THREAD: Thread := 1  // runs WebThread::IO

  type Task = nat

  // Identifiers in order of lifetime.
  type Id = i: nat | i < ID_COUNT
  const ID_COUNT: nat := 2
  const UI: Id := 0
  const IO: Id := 1

  /** The thread an identifier's task runner runs its tasks on. */
  function Owner(id: Id): Thread {
    if id == UI then MAIN else IO_THREAD
  }

  datatype Status = Uninitialized | Running | Shutdown

  /** One registry entry: states[id] and task_runners[id]. */
  datatype Entry = Entry(status: Status, runner: Option<Thread>)

  /** What a thread will do next. */
  datatype Pc =
    | Idle
    // WebThreadImpl's constructor.
    | RegisterWait(id: Id) | RegisterState(id: Id) | RegisterRunner(id: Id) | RegisterEnd(id: Id)
    // WebThreadImpl's destructor.
    | ShutdownWait(id: Id) | ShutdownState(id: Id) | ShutdownEnd(id: Id)
    // PostTaskHelper: which thread is this?
    | LookupWait(id: Id, task: Task) | LookupScan(id: Id, task: Task)
    | LookupEnd(id: Id, task: Task, elide: bool)
    // PostTaskHelper: read the entry, hand over the task, return.
    | ReadWait(id: Id, task: Task)
    | Read(id: Id, task: Task, locked: bool)
    | Hand(id: Id, task: Task, locked: bool, accepting: bool)
    | Return(id: Id, task: Task, locked: bool, accepting: bool)
  {
    predicate NeedsLock() { RegisterWait? || ShutdownWait? || LookupWait? || ReadWait? }

    predicate HoldsLock() {
      || RegisterState? || RegisterRunner? || RegisterEnd? || ShutdownState? || ShutdownEnd?
      || LookupScan? || LookupEnd?
      || ((Read? || Hand? || Return?) && locked)
    }

    predicate Registers() { RegisterWait? || RegisterState? || RegisterRunner? || RegisterEnd? }

    predicate ShutsDown() { ShutdownWait? || ShutdownState? || ShutdownEnd? }

    predicate Posts() {
      LookupWait? || LookupScan? || LookupEnd? || ReadWait? || Read? || Hand? || Return?
    }

    /** The next step changes entry `target`. */
    predicate Changes(target: Id) {
      (RegisterState? || RegisterRunner? || ShutdownState?) && id == target
    }

    /** Inside, or waiting for, a critical section that writes entry `target`. */
    predicate Writes(target: Id) { (Registers() || ShutsDown()) && id == target }

    /** Past the decision to use entry `id` without the lock. */
    predicate Elided() {
      (LookupEnd? && elide) || ((Read? || Hand? || Return?) && !locked)
    }
  }

  datatype Life = NotStarted | Alive | Exited

  datatype Handoff = Handoff(task: Task, id: Id, entry: Entry)

  datatype State = State(
    ui: Entry,
    io: Entry,
    lock: Option<Thread>,
    pcs: map<Thread, Pc>,       // a thread not mentioned is Idle
    ioThread: Life,             // the physical IO thread
    uiOutlivesIo: bool,         // whether UI is shut down only after IO is joined
    handed: seq<Handoff>,       // tasks given to a runner, with the entry at that time
    results: map<Task, bool>,   // what finished posts returned
    used: set<Task>)
  {
    function At(t: Thread): Pc {
      if t in pcs then pcs[t] else Idle
    }

    function Get(id: Id): Entry {
      if id == UI then ui else io
    }

    function Set(id: Id, entry: Entry): State {
      if id == UI then this.(ui := entry) else this.(io := entry)
    }

    function Goto(t: Thread, pc: Pc): State {
      this.(pcs := pcs[t := pc])
    }

    /** What the search of GetCurrentThreadIdentifier finds on thread `t`. */
    function Identify(t: Thread): Option<Id> {
      if ui.runner == Some(t) then Some(UI)
      else if io.runner == Some(t) then Some(IO)
      else None
    }

    predicate TargetOutlives(t: Thread, id: Id) {
      Identify(t).Some? && Identify(t).value >= id
    }
  }

  const EMPTY := Entry(Uninitialized, None)

  function Initial(uiOutlivesIo: bool): State {
    State(EMPTY, EMPTY, None, map[], NotStarted, uiOutlivesIo, [], map[], {})
  }

  datatype Event =
    | StartIo                                    // MAIN starts the physical IO thread
    | ExitIo                                     // the IO thread ends and MAIN joins it
    | BeginRegister(id: Id)                      // MAIN registers an identifier
    | BeginShutdown(id: Id)                      // a thread unregisters its identifier
    | BeginPost(t: Thread, id: Id, task: Task)
    | Advance(t: Thread)

  /** The thread that takes the event's step. */
  function Actor(ev: Event): Thread {
    match ev
    case StartIo => MAIN
    case ExitIo => IO_THREAD
    case BeginRegister(_) => MAIN
    case BeginShutdown(id) => Owner(id)
    case BeginPost(t, _, _) => t
    case Advance(t) => t
  }

  predicate Present(s: State, t: Thread) {
    t == IO_THREAD ==> s.ioThread.Alive?
  }

  predicate Enabled(s: State, ev: Event) {
    match ev
    case StartIo => s.At(MAIN).Idle? && s.ui.status.Running? && s.ioThread.NotStarted?
    case ExitIo =>
      s.At(MAIN).Idle? && s.At(IO_THREAD).Idle? && s.ioThread.Alive? && !s.io.status.Running?
    case BeginRegister(id) =>
      && s.At(MAIN).Idle? && s.Get(id) == EMPTY
      && (id == IO ==> s.ioThread.Alive?)
    case BeginShutdown(id) =>
      && s.At(Owner(id)).Idle? && Present(s, Owner(id)) && s.Get(id).status.Running?
      && !s.At(MAIN).Registers()  // the constructor has returned
      && (id == UI && s.uiOutlivesIo ==> !s.ioThread.Alive?)
    case BeginPost(t, id, task) => s.At(t).Idle? && Present(s, t) && task !in s.used
    case Advance(t) => !s.At(t).Idle? && (s.At(t).NeedsLock() ==> s.lock.None?)
  }

  function Advanced(s: State, t: Thread): State {
    match s.At(t)
    case Idle => s
    case RegisterWait(id) => s.(lock := Some(t)).Goto(t, RegisterState(id))
    case RegisterState(id) =>
      s.Set(id, s.Get(id).(status := Running)).Goto(t, RegisterRunner(id))
    case RegisterRunner(id) =>
      s.Set(id, s.Get(id).(runner := Some(Owner(id)))).Goto(t, RegisterEnd(id))
    case RegisterEnd(_) => s.(lock := None).Goto(t, Idle)
    case ShutdownWait(id) => s.(lock := Some(t)).Goto(t, ShutdownState(id))
    case ShutdownState(id) =>
      s.Set(id, s.Get(id).(status := Shutdown)).Goto(t, ShutdownEnd(id))
    case ShutdownEnd(_) => s.(lock := None).Goto(t, Idle)
    case LookupWait(id, task) => s.(lock := Some(t)).Goto(t, LookupScan(id, task))
    case LookupScan(id, task) => s.Goto(t, LookupEnd(id, task, s.TargetOutlives(t, id)))
    case LookupEnd(id, task, elide) =>
      s.(lock := None).Goto(t, if elide then Read(id, task, false) else ReadWait(id, task))
    case ReadWait(id, task) => s.(lock := Some(t)).Goto(t, Read(id, task, true))
    case Read(id, task, locked) => s.Goto(t, Hand(id, task, locked, s.Get(id).status.Running?))
    case Hand(id, task, locked, accepting) =>
      s.(handed := if accepting then s.handed + [Handoff(task, id, s.Get(id))] else s.handed)
       .Goto(t, Return(id, task, locked, accepting))
    case Return(id, task, locked, accepting) =>
      s.(lock := if locked then None else s.lock, results := s.results[task := accepting]).Goto(t, Idle)
  }

  function Apply(s: State, ev: Event): State
    requires Enabled(s, ev)
  {
    match ev
    case StartIo => s.(ioThread := Alive)
    case ExitIo => s.(ioThread := Exited)
    case BeginRegister(id) => s.Goto(MAIN, RegisterWait(id))
    case BeginShutdown(id) => s.Goto(Owner(id), ShutdownWait(id))
    case BeginPost(t, id, task) => s.(used := s.used + {task}).Goto(t, LookupWait(id, task))
    case Advance(t) => Advanced(s, t)
  }

  predicate Legal(s: State, evs: seq<Event>)
    decreases |evs|
  {
    evs == [] || (Enabled(s, evs[0]) && Legal(Apply(s, evs[0]), evs[1..]))
  }

  function Run(s: State, evs: seq<Event>): State
    requires Legal(s, evs)
    decreases |evs|
  {
    if evs == [] then s else Run(Apply(s, evs[0]), evs[1..])
  }

  lemma PostingMovesOne(s: State, t: Thread, u: Thread)
    requires s.At(t).Posts() && u != t
    ensures Advanced(s, t).At(u) == s.At(u)
  {
  }

  lemma BindingMovesOne(s: State, t: Thread, u: Thread)
    requires (s.At(t).Registers() || s.At(t).ShutsDown()) && u != t
    ensures Advanced(s, t).At(u) == s.At(u)
  {
  }

  /** The search finds the lowest identifier bound to the thread, and the target
      outlives the thread when that is not below it. */
  lemma OutlivesIff(s: State, t: Thread, id: Id)
    ensures s.TargetOutlives(t, id) <==>
      exists c: Id :: id <= c && s.Get(c).runner == Some(t) && forall d: Id :: d < c ==> s.Get(d).runner != Some(t)
  {
    if s.TargetOutlives(t, id) {
      var c := s.Identify(t).value;
      assert s.Get(c).runner == Some(t) && forall d: Id :: d < c ==> s.Get(d).runner != Some(t);
    }
    assert s.Get(UI) == s.ui && s.Get(IO) == s.io;
  }

  /** The step of one thread leaves every other thread where it was. */
  lemma OthersStay(s: State, ev: Event, u: Thread)
    requires Enabled(s, ev) && u != Actor(ev)
    ensures Apply(s, ev).At(u) == s.At(u)
  {
    match ev {
      case Advance(t) => if s.At(t).Posts() { PostingMovesOne(s, t, u); } else { BindingMovesOne(s, t, u); }
      case _ =>
    }
  }

  // ------------------------------------------------------------------- locking

  ghost predicate Locking(s: State) {
    forall t: Thread :: s.At(t).HoldsLock() <==> s.lock == Some(t)
  }

  lemma LockingMove(s: State, s': State, t: Thread)
    requires Locking(s)
    requires forall u: Thread :: u != t ==> s'.At(u) == s.At(u)
    requires s'.At(t).HoldsLock() <==> s'.lock == Some(t)
    requires s'.lock == s.lock || (s.lock in {None, Some(t)} && s'.lock in {None, Some(t)})
    ensures Locking(s')
  {
    forall u: Thread | u != t ensures s'.At(u).HoldsLock() <==> s'.lock == Some(u) {
      assert s.At(u).HoldsLock() <==> s.lock == Some(u);
    }
  }

  lemma LockingStep(s: State, ev: Event)
    requires Locking(s) && Enabled(s, ev)
    ensures Locking(Apply(s, ev))
  {
    var t := Actor(ev);
    assert s.At(t).HoldsLock() <==> s.lock == Some(t);
    forall u: Thread | u != t ensures Apply(s, ev).At(u) == s.At(u) { OthersStay(s, ev, u); }
    LockingMove(s, Apply(s, ev), t);
  }

  // ------------------------------------------------------------------ lifetime

  /** Who writes an entry, and what it looks like then. */
  ghost predicate Writer(s: State, t: Thread) {
    var pc := s.At(t);
    && (pc.Registers() ==> t == MAIN)
    && (pc.ShutsDown() ==> t == Owner(pc.id) && s.Get(pc.id).runner.Some?)
    && (pc.RegisterWait? || pc.RegisterState? ==> s.Get(pc.id) == EMPTY)
    && (pc.RegisterRunner? ==> s.Get(pc.id) == Entry(Running, None))
    && (pc.ShutdownWait? || pc.ShutdownState? ==> s.Get(pc.id).status.Running?)
  }

  ghost predicate Writers(s: State) {
    forall t: Thread :: Writer(s, t)
  }

  /** A runner is bound exactly when its identifier has left Uninitialized, except
      between the two writes of a registration. */
  ghost predicate Bound(s: State, id: Id) {
    && s.Get(id).runner in {None, Some(Owner(id))}
    && (s.At(MAIN) != RegisterRunner(id) ==> (s.Get(id).runner.Some? <==> !s.Get(id).status.Uninitialized?))
  }

  /** The documented order: the IO thread lives only while UI is registered. */
  ghost predicate Ordered(s: State) {
    && (s.ioThread.Alive? ==> s.ui.status.Running? && s.ui.runner.Some?)
    && (s.ioThread.Alive? ==> !s.At(MAIN).Writes(UI))
    && (s.At(MAIN).Writes(IO) ==> s.ioThread.Alive?)
    && (!s.At(IO_THREAD).Idle? ==> s.ioThread.Alive?)
  }

  /** A thread that skips the lock is a registered named thread which the target
      outlives, and nobody registers that thread's identifier any more. */
  ghost predicate Elision(s: State, t: Thread) {
    s.At(t).Elided() ==>
      && t < ID_COUNT && t >= s.At(t).id
      && s.Get(t).runner == Some(t)
      && (t == IO_THREAD ==> !s.At(MAIN).Writes(IO))
  }

  ghost predicate Elisions(s: State) {
    forall t: Thread :: Elision(s, t)
  }

  ghost predicate Lifetimes(s: State) {
    && s.uiOutlivesIo
    && Locking(s) && Writers(s) && Bound(s, UI) && Bound(s, IO) && Ordered(s) && Elisions(s)
  }

  /** Only the thread inside the critical section of an entry changes it. */
  lemma EntryFrame(s: State, ev: Event, id: Id)
    requires Enabled(s, ev)
    requires ev.Advance? ==> !s.At(ev.t).Changes(id)
    ensures Apply(s, ev).Get(id) == s.Get(id)
  {
  }

  lemma WriterStays(s: State, ev: Event, u: Thread)
    requires Lifetimes(s) && Enabled(s, ev) && u != Actor(ev)
    ensures Writer(Apply(s, ev), u)
  {
    OthersStay(s, ev, u);
    assert Writer(s, u) && Writer(s, Actor(ev));
    assert s.At(MAIN).HoldsLock() <==> s.lock == Some(MAIN);
    if s.At(u).Registers() || s.At(u).ShutsDown() {
      EntryFrame(s, ev, s.At(u).id);
    }
  }

  lemma WriterBegins(s: State, ev: Event)
    requires Lifetimes(s) && Enabled(s, ev) && !ev.Advance?
    ensures Writer(Apply(s, ev), Actor(ev))
  {
    assert Writer(s, Actor(ev)) && Bound(s, UI) && Bound(s, IO);
  }

  lemma WriterMoves(s: State, t: Thread)
    requires Lifetimes(s) && Enabled(s, Advance(t))
    ensures Writer(Advanced(s, t), t)
  {
    assert Writer(s, t);
  }

  lemma WritersStep(s: State, ev: Event)
    requires Lifetimes(s) && Enabled(s, ev)
    ensures Writers(Apply(s, ev))
  {
    forall u: Thread ensures Writer(Apply(s, ev), u) {
      if u == Actor(ev) {
        if ev.Advance? { WriterMoves(s, u); } else { WriterBegins(s, ev); }
      } else {
        WriterStays(s, ev, u);
      }
    }
  }

  lemma BoundStep(s: State, ev: Event, id: Id)
    requires Lifetimes(s) && Enabled(s, ev)
    ensures Bound(Apply(s, ev), id)
  {
    var t, s' := Actor(ev), Apply(s, ev);
    assert Bound(s, id) && Writer(s, t);
    if t != MAIN { OthersStay(s, ev, MAIN); }
  }

  lemma OrderedStep(s: State, ev: Event)
    requires Lifetimes(s) && Enabled(s, ev)
    ensures Ordered(Apply(s, ev))
  {
    var t, s' := Actor(ev), Apply(s, ev);
    assert Writer(s, t);
    if t != MAIN { OthersStay(s, ev, MAIN); }
    if t != IO_THREAD { OthersStay(s, ev, IO_THREAD); }
  }

  /** Another thread's step cannot disturb an elision: the runner stays bound. */
  lemma ElisionStays(s: State, ev: Event, u: Thread)
    requires Lifetimes(s) && Enabled(s, ev) && u != Actor(ev)
    ensures Elision(Apply(s, ev), u)
  {
    OthersStay(s, ev, u);
    assert Elision(s, u);
    if s.At(u).Elided() {
      RunnerStays(s, ev, u);
      if u == IO_THREAD && Actor(ev) != MAIN { OthersStay(s, ev, MAIN); }
    }
  }

  lemma RunnerStays(s: State, ev: Event, id: Id)
    requires Lifetimes(s) && Enabled(s, ev) && s.Get(id).runner.Some?
    ensures Apply(s, ev).Get(id).runner == s.Get(id).runner
  {
    assert Bound(s, id);
  }

  /** A thread that decides to skip the lock has found itself in the registry. */
  lemma ElisionStarts(s: State, t: Thread)
    requires Lifetimes(s) && s.At(t).LookupScan?
    ensures Elision(Advanced(s, t), t)
  {
    var s' := Advanced(s, t);
    assert s'.Get(UI) == s.Get(UI) && s'.Get(IO) == s.Get(IO);
    assert Bound(s, UI) && Bound(s, IO) && Writer(s, MAIN);
    assert s.At(t).HoldsLock() <==> s.lock == Some(t);
    if t != MAIN {
      OthersStay(s, Advance(t), MAIN);
      assert s.At(MAIN).HoldsLock() <==> s.lock == Some(MAIN);
    }
  }

  /** ... and it stays so until the post returns. */
  lemma ElisionContinues(s: State, t: Thread)
    requires Lifetimes(s) && Enabled(s, Advance(t)) && !s.At(t).LookupScan?
    ensures Elision(Advanced(s, t), t)
  {
    assert Elision(s, t);
    if Advanced(s, t).At(t).Elided() {
      assert Advanced(s, t).Get(UI) == s.Get(UI) && Advanced(s, t).Get(IO) == s.Get(IO);
      if t != MAIN { OthersStay(s, Advance(t), MAIN); }
    }
  }

  lemma ElisionsStep(s: State, ev: Event)
    requires Lifetimes(s) && Enabled(s, ev)
    ensures Elisions(Apply(s, ev))
  {
    forall u: Thread ensures Elision(Apply(s, ev), u) {
      if u != Actor(ev) {
        ElisionStays(s, ev, u);
      } else if ev.Advance? {
        if s.At(u).LookupScan? { ElisionStarts(s, u); } else { ElisionContinues(s, u); }
      }
    }
  }

  lemma SettingStays(s: State, ev: Event)
    requires Enabled(s, ev)
    ensures Apply(s, ev).uiOutlivesIo == s.uiOutlivesIo
  {
  }

  lemma LifetimesStep(s: State, ev: Event)
    requires Lifetimes(s) && Enabled(s, ev)
    ensures Lifetimes(Apply(s, ev))
  {
    SettingStays(s, ev);
    LockingStep(s, ev);
    WritersStep(s, ev);
    BoundStep(s, ev, UI);
    BoundStep(s, ev, IO);
    OrderedStep(s, ev);
    ElisionsStep(s, ev);
  }

  // -------------------------------------------------------------- lock elision

  /** Main result: while a thread uses an entry without the lock, no other thread
      is inside, or waiting for, a critical section that writes that entry. */
  lemma ElidedReadsDoNotRace(s: State, t: Thread, u: Thread)
    requires Lifetimes(s) && s.At(t).Elided() && !s.At(t).LookupEnd? && u != t
    ensures !s.At(u).Writes(s.At(t).id)
  {
    assert Elision(s, t) && Writer(s, u) && Writer(s, t);
  }

  /** Whoever is about to hand over a task sees an entry nobody else changes. */
  lemma ReadersAreUndisturbed(s: State, ev: Event, t: Thread)
    requires Lifetimes(s) && Enabled(s, ev) && t != Actor(ev)
    requires s.At(t).Read? || s.At(t).Hand?
    ensures Apply(s, ev).Get(s.At(t).id) == s.Get(s.At(t).id)
  {
    var u := Actor(ev);
    if ev.Advance? && s.At(u).Changes(s.At(t).id) {
      assert s.At(u).HoldsLock() <==> s.lock == Some(u);
      assert s.At(t).HoldsLock() <==> s.lock == Some(t);
      ElidedReadsDoNotRace(s, t, u);
      assert false;
    }
    EntryFrame(s, ev, s.At(t).id);
  }

  /** Main result: an elided read gives the answer of a locked read. However long
      the thread is delayed and whatever the others do meanwhile, the entry it is
      about to read does not change, so neither does the entry a locked read would
      find at the next moment the lock is free. */
  lemma {:induction false} ElidedReadEqualsLockedRead(s: State, evs: seq<Event>, t: Thread)
    requires Lifetimes(s) && Legal(s, evs)
    requires s.At(t).Read? || s.At(t).Hand?
    requires forall i :: 0 <= i < |evs| ==> Actor(evs[i]) != t
    ensures Run(s, evs).At(t) == s.At(t)
    ensures Run(s, evs).Get(s.At(t).id) == s.Get(s.At(t).id)
    decreases |evs|
  {
    if evs != [] {
      var s' := Apply(s, evs[0]);
      LifetimesStep(s, evs[0]);
      OthersStay(s, evs[0], t);
      ReadersAreUndisturbed(s, evs[0], t);
      forall i | 0 <= i < |evs[1..]| ensures Actor(evs[1..][i]) != t {
        assert evs[1..][i] == evs[i + 1];
      }
      ElidedReadEqualsLockedRead(s', evs[1..], t);
    }
  }

  lemma InitialLifetimes()
    ensures Lifetimes(Initial(true))
  {
    assert forall t: Thread :: Initial(true).At(t) == Idle;
  }

  lemma {:induction false} LifetimesRun(s: State, evs: seq<Event>)
    requires Lifetimes(s) && Legal(s, evs)
    ensures Lifetimes(Run(s, evs))
    decreases |evs|
  {
    if evs != [] {
      LifetimesStep(s, evs[0]);
      LifetimesRun(Apply(s, evs[0]), evs[1..]);
    }
  }

  // ---------------------------------------------------------------- life cycle

  predicate NotBefore(a: Status, b: Status) {
    a == b || a.Uninitialized? || b.Shutdown?
  }

  /** One step moves an identifier at most one place along its life. */
  lemma StatusStep(s: State, ev: Event, id: Id)
    requires Lifetimes(s) && Enabled(s, ev)
    ensures var a, b := s.Get(id).status, Apply(s, ev).Get(id).status;
            a == b || (a.Uninitialized? && b.Running?) || (a.Running? && b.Shutdown?)
  {
    assert Writer(s, Actor(ev));
  }

  /** Main result: an identifier only moves forward, and whenever the lock is free
      its runner is bound exactly when it has left Uninitialized. */
  lemma {:induction false} StatusOnlyAdvances(s: State, evs: seq<Event>, id: Id)
    requires Lifetimes(s) && Legal(s, evs)
    ensures NotBefore(s.Get(id).status, Run(s, evs).Get(id).status)
    ensures Run(s, evs).lock.None? ==>
      (Run(s, evs).Get(id).runner == if Run(s, evs).Get(id).status.Uninitialized? then None else Some(Owner(id)))
    decreases |evs|
  {
    if evs != [] {
      LifetimesStep(s, evs[0]);
      StatusStep(s, evs[0], id);
      StatusOnlyAdvances(Apply(s, evs[0]), evs[1..], id);
    } else {
      assert Bound(s, id) && (s.At(MAIN).HoldsLock() <==> s.lock == Some(MAIN));
    }
  }

  /** Main result: no thread that has returned, or is about to ask for the lock,
      owns it; so the lock is never left held and never taken twice. */
  lemma LockIsBalanced(evs: seq<Event>, t: Thread)
    requires Legal(Initial(true), evs)
    ensures var s := Run(Initial(true), evs);
      s.At(t).Idle? || s.At(t).NeedsLock() ==> s.lock != Some(t)
  {
    InitialLifetimes();
    LifetimesRun(Initial(true), evs);
    var s := Run(Initial(true), evs);
    assert s.At(t).HoldsLock() <==> s.lock == Some(t);
  }

  // --------------------------------------------------------------------- posts

  function Times(handed: seq<Handoff>, task: Task): nat {
    if handed == [] then 0
    else Times(handed[..|handed| - 1], task) + (if handed[|handed| - 1].task == task then 1 else 0)
  }

  lemma TimesPush(handed: seq<Handoff>, h: Handoff, task: Task)
    ensures Times(handed + [h], task) == Times(handed, task) + if h.task == task then 1 else 0
  {
    assert (handed + [h])[..|handed|] == handed;
  }

  /** What is known about the post that thread `t` is in. */
  ghost predicate Posting(s: State, t: Thread) {
    var pc := s.At(t);
    pc.Posts() ==>
      && pc.task in s.used && pc.task !in s.results
      && Times(s.handed, pc.task) == (if pc.Return? && pc.accepting then 1 else 0)
      && (pc.Hand? ==> pc.accepting == s.Get(pc.id).status.Running?)
  }

  ghost predicate DistinctPosts(s: State) {
    forall t: Thread, u: Thread ::
      s.At(t).Posts() && s.At(u).Posts() && s.At(t).task == s.At(u).task ==> t == u
  }

  /** Finished posts: true means handed over once, false means not at all, and
      every hand-over went to the bound runner of a running identifier. */
  ghost predicate Settled(s: State) {
    && (forall k: Task :: k in s.results ==> k in s.used && Times(s.handed, k) == if s.results[k] then 1 else 0)
    && (forall k: Task :: k !in s.used ==> Times(s.handed, k) == 0)
    && (forall i :: 0 <= i < |s.handed| ==> s.handed[i].entry == Entry(Running, Some(Owner(s.handed[i].id))))
  }

  ghost predicate Posted(s: State) {
    && (forall t: Thread :: Posting(s, t))
    && DistinctPosts(s)
    && Settled(s)
  }

  lemma PostingStays(s: State, ev: Event, u: Thread)
    requires Lifetimes(s) && Posted(s) && Enabled(s, ev) && u != Actor(ev)
    ensures Posting(Apply(s, ev), u)
  {
    var t := Actor(ev);
    OthersStay(s, ev, u);
    assert Posting(s, u) && Posting(s, t);
    if s.At(u).Hand? { ReadersAreUndisturbed(s, ev, u); }
    if ev.Advance? && s.At(t).Hand? && s.At(t).accepting && s.At(u).Posts() {
      TimesPush(s.handed, Handoff(s.At(t).task, s.At(t).id, s.Get(s.At(t).id)), s.At(u).task);
    }
  }

  lemma PostingBegins(s: State, ev: Event)
    requires Posted(s) && Enabled(s, ev) && !ev.Advance?
    ensures Posting(Apply(s, ev), Actor(ev))
  {
    assert Posting(s, Actor(ev));
  }

  lemma PostingMoves(s: State, t: Thread)
    requires Posted(s) && Enabled(s, Advance(t))
    ensures Posting(Advanced(s, t), t)
  {
    assert Posting(s, t);
    if s.At(t).Hand? && s.At(t).accepting {
      TimesPush(s.handed, Handoff(s.At(t).task, s.At(t).id, s.Get(s.At(t).id)), s.At(t).task);
    }
  }

  /** A task is handed to a bound runner of a running identifier. */
  lemma HandedToRunning(s: State, t: Thread)
    requires Lifetimes(s) && Posting(s, t) && s.At(t).Hand? && s.At(t).accepting
    ensures s.Get(s.At(t).id) == Entry(Running, Some(Owner(s.At(t).id)))
  {
    var id := s.At(t).id;
    assert Bound(s, id);
    if s.At(MAIN) == RegisterRunner(id) {
      assert s.At(t).HoldsLock() <==> s.lock == Some(t);
      assert s.At(MAIN).HoldsLock() <==> s.lock == Some(MAIN);
      ElidedReadsDoNotRace(s, t, MAIN);
      assert false;
    }
  }

  lemma HandKeepsSettled(s: State, t: Thread)
    requires Lifetimes(s) && Posted(s) && s.At(t).Hand?
    ensures Settled(Advanced(s, t))
  {
    var pc := s.At(t);
    assert Posting(s, t);
    if pc.accepting {
      HandedToRunning(s, t);
      var h := Handoff(pc.task, pc.id, s.Get(pc.id));
      forall k: Task ensures Times(s.handed + [h], k) == Times(s.handed, k) + if h.task == k then 1 else 0 {
        TimesPush(s.handed, h, k);
      }
    }
  }

  lemma ReturnKeepsSettled(s: State, t: Thread)
    requires Posted(s) && s.At(t).Return?
    ensures Settled(Advanced(s, t))
  {
    assert Posting(s, t);
  }

  lemma SettledStep(s: State, ev: Event)
    requires Lifetimes(s) && Posted(s) && Enabled(s, ev)
    ensures Settled(Apply(s, ev))
  {
    if ev.Advance? && s.At(ev.t).Hand? {
      HandKeepsSettled(s, ev.t);
    } else if ev.Advance? && s.At(ev.t).Return? {
      ReturnKeepsSettled(s, ev.t);
    } else {
      var s' := Apply(s, ev);
      assert s'.handed == s.handed && s'.results == s.results && s.used <= s'.used;
    }
  }

  /** A thread inside a post was in it before, or has just begun it. */
  lemma PostsBefore(s: State, ev: Event, t: Thread)
    requires Enabled(s, ev) && Apply(s, ev).At(t).Posts()
    ensures var pc := Apply(s, ev).At(t);
      || (s.At(t).Posts() && s.At(t).task == pc.task && s.At(t).id == pc.id)
      || (ev.BeginPost? && t == ev.t && pc.task == ev.task && pc.id == ev.id && ev.task !in s.used)
  {
    if t != Actor(ev) { OthersStay(s, ev, t); }
  }

  lemma DistinctPostsStep(s: State, ev: Event)
    requires Posted(s) && Enabled(s, ev)
    ensures DistinctPosts(Apply(s, ev))
  {
    var s' := Apply(s, ev);
    forall t: Thread, u: Thread | s'.At(t).Posts() && s'.At(u).Posts() && s'.At(t).task == s'.At(u).task
      ensures t == u
    {
      PostsBefore(s, ev, t);
      PostsBefore(s, ev, u);
      assert Posting(s, t) && Posting(s, u);
    }
  }

  lemma PostedStep(s: State, ev: Event)
    requires Lifetimes(s) && Posted(s) && Enabled(s, ev)
    ensures Posted(Apply(s, ev))
  {
    forall u: Thread ensures Posting(Apply(s, ev), u) {
      if u != Actor(ev) {
        PostingStays(s, ev, u);
      } else if ev.Advance? {
        PostingMoves(s, u);
      } else {
        PostingBegins(s, ev);
      }
    }
    DistinctPostsStep(s, ev);
    SettledStep(s, ev);
  }

  lemma {:induction false} PostedRun(s: State, evs: seq<Event>)
    requires Lifetimes(s) && Posted(s) && Legal(s, evs)
    ensures Posted(Run(s, evs))
    decreases |evs|
  {
    if evs != [] {
      LifetimesStep(s, evs[0]);
      PostedStep(s, evs[0]);
      PostedRun(Apply(s, evs[0]), evs[1..]);
    }
  }

  lemma InitialPosted()
    ensures Posted(Initial(true))
  {
    assert forall t: Thread :: Initial(true).At(t) == Idle;
  }

  /** Main result: in every run, a finished post has returned true exactly when its
      task was handed over, once, and false when it was not handed over at all; and
      every hand-over was to the bound runner of an identifier then running. */
  lemma PostsAreExact(evs: seq<Event>)
    requires Legal(Initial(true), evs)
    ensures var s := Run(Initial(true), evs);
      && (forall k: Task :: k in s.results ==> Times(s.handed, k) == if s.results[k] then 1 else 0)
      && (forall i :: 0 <= i < |s.handed| ==>
            s.handed[i].entry == Entry(Running, Some(Owner(s.handed[i].id))))
  {
    InitialLifetimes();
    InitialPosted();
    PostedRun(Initial(true), evs);
  }

  // ------------------------------------------------------ where a task is handed

  /** The identifier each task was posted to. */
  function Targets(m: map<Task, Id>, evs: seq<Event>): map<Task, Id>
    decreases |evs|
  {
    if evs == [] then m
    else Targets(if evs[0].BeginPost? then m[evs[0].task := evs[0].id] else m, evs[1..])
  }

  ghost predicate AddressedBy(s: State, m: map<Task, Id>, t: Thread) {
    s.At(t).Posts() ==> s.At(t).task in m && m[s.At(t).task] == s.At(t).id
  }

  /** Every post, and every hand-over, is for the identifier posted to. */
  ghost predicate Addressed(s: State, m: map<Task, Id>) {
    && m.Keys == s.used
    && (forall t: Thread :: AddressedBy(s, m, t))
    && (forall i :: 0 <= i < |s.handed| ==>
          s.handed[i].task in m && m[s.handed[i].task] == s.handed[i].id)
  }

  /** A step hands over nothing, or the acting thread's own task. */
  lemma HandsOwnTask(s: State, ev: Event)
    requires Enabled(s, ev)
    ensures || Apply(s, ev).handed == s.handed
            || var pc := s.At(Actor(ev));
               ev.Advance? && pc.Hand? && Apply(s, ev).handed == s.handed + [Handoff(pc.task, pc.id, s.Get(pc.id))]
  {
  }

  lemma UsedStep(s: State, ev: Event)
    requires Enabled(s, ev)
    ensures Apply(s, ev).used == if ev.BeginPost? then s.used + {ev.task} else s.used
    ensures ev.BeginPost? ==> ev.task !in s.used
  {
  }

  lemma AddressedStep(s: State, m: map<Task, Id>, ev: Event)
    requires Addressed(s, m) && Enabled(s, ev)
    ensures Addressed(Apply(s, ev), if ev.BeginPost? then m[ev.task := ev.id] else m)
  {
    var s', m' := Apply(s, ev), if ev.BeginPost? then m[ev.task := ev.id] else m;
    UsedStep(s, ev);
    HandsOwnTask(s, ev);
    assert AddressedBy(s, m, Actor(ev));
    forall t: Thread ensures AddressedBy(s', m', t) {
      if s'.At(t).Posts() {
        PostsBefore(s, ev, t);
        assert AddressedBy(s, m, t);
      }
    }
  }

  lemma {:induction false} AddressedRun(s: State, m: map<Task, Id>, evs: seq<Event>)
    requires Addressed(s, m) && Legal(s, evs)
    ensures Addressed(Run(s, evs), Targets(m, evs))
    ensures forall k :: k in m ==> k in Targets(m, evs) && Targets(m, evs)[k] == m[k]
    ensures forall i :: 0 <= i < |evs| && evs[i].BeginPost? ==>
              evs[i].task in Targets(m, evs) && Targets(m, evs)[evs[i].task] == evs[i].id
    decreases |evs|
  {
    if evs != [] {
      var ev, rest := evs[0], evs[1..];
      AddressedStep(s, m, ev);
      UsedStep(s, ev);
      AddressedRun(Apply(s, ev), if ev.BeginPost? then m[ev.task := ev.id] else m, rest);
      forall i | 0 <= i < |evs| && evs[i].BeginPost?
        ensures evs[i].task in Targets(m, evs) && Targets(m, evs)[evs[i].task] == evs[i].id
      {
        if i > 0 { assert rest[i - 1] == evs[i]; }
      }
    }
  }

  lemma {:induction false} TimesIsPositive(handed: seq<Handoff>, task: Task)
    ensures Times(handed, task) > 0 <==> exists i :: 0 <= i < |handed| && handed[i].task == task
    decreases |handed|
  {
    if handed != [] {
      var n := |handed| - 1;
      TimesIsPositive(handed[..n], task);
      if Times(handed[..n], task) > 0 {
        var i :| 0 <= i < |handed[..n]| && handed[..n][i].task == task;
        assert handed[i].task == task;
      }
      if i :| 0 <= i < n && handed[i].task == task {
        assert handed[..n][i].task == task;
      }
    }
  }

  /** Main result: in every run, a post that has returned true handed its task over
      once, to the runner then bound to the identifier it was posted to; a post
      that has returned false handed nothing over. */
  lemma PostsReachTheirTarget(evs: seq<Event>, k: nat)
    requires Legal(Initial(true), evs) && k < |evs| && evs[k].BeginPost?
    ensures var s, task, id := Run(Initial(true), evs), evs[k].task, evs[k].id;
      task in s.results ==>
        && Times(s.handed, task) == (if s.results[task] then 1 else 0)
        && (s.results[task] <==> exists i :: 0 <= i < |s.handed| && s.handed[i].task == task)
        && (forall i :: 0 <= i < |s.handed| && s.handed[i].task == task ==>
              s.handed[i] == Handoff(task, id, Entry(Running, Some(Owner(id)))))
  {
    var s, task, id := Run(Initial(true), evs), evs[k].task, evs[k].id;
    PostsAreExact(evs);
    assert Addressed(Initial(true), map[]);
    AddressedRun(Initial(true), map[], evs);
    TimesIsPositive(s.handed, task);
  }

  // ------------------------------------------------------- uninterrupted calls

  function Steps(t: Thread, n: nat): seq<Event> {
    seq(n, _ => Advance(t))
  }

  lemma RunJoin(s: State, a: seq<Event>, b: seq<Event>)
    requires Legal(s, a) && Legal(Run(s, a), b)
    ensures Legal(s, a + b) && Run(s, a + b) == Run(Run(s, a), b)
    decreases |a|
  {
    if a == [] {
      assert a + b == b;
    } else {
      assert (a + b)[1..] == a[1..] + b;
      RunJoin(Apply(s, a[0]), a[1..], b);
    }
  }

  lemma StepAhead(s: State, t: Thread, s': State, n: nat)
    requires Enabled(s, Advance(t)) && Advanced(s, t) == s' && Legal(s', Steps(t, n))
    ensures Legal(s, Steps(t, n + 1)) && Run(s, Steps(t, n + 1)) == Run(s', Steps(t, n))
  {
    assert Steps(t, n + 1)[0] == Advance(t) && Steps(t, n + 1)[1..] == Steps(t, n);
  }

  lemma NoSteps(s: State, t: Thread)
    ensures Legal(s, Steps(t, 0)) && Run(s, Steps(t, 0)) == s
  {
  }

  lemma StepsAhead(s1: State, t: Thread, s2: State, s3: State, s4: State, n: nat)
    requires Enabled(s1, Advance(t)) && Advanced(s1, t) == s2
    requires Enabled(s2, Advance(t)) && Advanced(s2, t) == s3
    requires Enabled(s3, Advance(t)) && Advanced(s3, t) == s4
    requires Legal(s4, Steps(t, n))
    ensures Legal(s1, Steps(t, n + 3)) && Run(s1, Steps(t, n + 3)) == Run(s4, Steps(t, n))
  {
    StepAhead(s3, t, s4, n);
    StepAhead(s2, t, s3, n + 1);
    StepAhead(s1, t, s2, n + 2);
  }

  lemma ThreeSteps(s1: State, t: Thread, s2: State, s3: State, s4: State)
    requires Enabled(s1, Advance(t)) && Advanced(s1, t) == s2
    requires Enabled(s2, Advance(t)) && Advanced(s2, t) == s3
    requires Enabled(s3, Advance(t)) && Advanced(s3, t) == s4
    ensures Legal(s1, Steps(t, 3)) && Run(s1, Steps(t, 3)) == s4
  {
    NoSteps(s4, t);
    StepsAhead(s1, t, s2, s3, s4, 0);
  }

  lemma OneMore(s: State, ev: Event, evs: seq<Event>)
    requires Enabled(s, ev) && Legal(Apply(s, ev), evs)
    ensures Legal(s, [ev] + evs) && Run(s, [ev] + evs) == Run(Apply(s, ev), evs)
  {
    assert ([ev] + evs)[1..] == evs;
  }

  lemma GotoTwice(s: State, t: Thread, a: Pc, b: Pc)
    ensures s.Goto(t, a).Goto(t, b) == s.Goto(t, b)
  {
    assert s.pcs[t := a][t := b] == s.pcs[t := b];
  }

  function RegisterTrace(id: Id): seq<Event> {
    [BeginRegister(id)] + ([Advance(MAIN)] + Steps(MAIN, 3))
  }

  /** The states inside the constructor's critical section. */
  function Registering(s: State, id: Id): (ss: seq<State>)
    ensures |ss| == 3
  {
    var bound := Entry(Running, Some(Owner(id)));
    [s.Set(id, Entry(Running, None)).Goto(MAIN, RegisterRunner(id)),
     s.Set(id, bound).Goto(MAIN, RegisterEnd(id)),
     s.(lock := None).Set(id, bound).Goto(MAIN, Idle)]
  }

  lemma RegisterMoves(s: State, id: Id)
    requires s.At(MAIN) == RegisterState(id) && s.Get(id) == EMPTY
    ensures var ss := Registering(s, id);
      Advanced(s, MAIN) == ss[0] && Advanced(ss[0], MAIN) == ss[1] && Advanced(ss[1], MAIN) == ss[2]
  {
    GotoTwice(s, MAIN, RegisterRunner(id), RegisterEnd(id));
    GotoTwice(s, MAIN, RegisterEnd(id), Idle);
  }

  lemma RegisterLocked(s: State, id: Id)
    requires s.At(MAIN) == RegisterState(id) && s.Get(id) == EMPTY
    ensures Legal(s, Steps(MAIN, 3))
    ensures Run(s, Steps(MAIN, 3)) == Registering(s, id)[2]
  {
    var ss := Registering(s, id);
    RegisterMoves(s, id);
    ThreeSteps(s, MAIN, ss[0], ss[1], ss[2]);
  }

  lemma RegisterRun(s: State, id: Id)
    requires s.lock.None? && Enabled(s, BeginRegister(id))
    ensures Legal(s, RegisterTrace(id))
    ensures Run(s, RegisterTrace(id)) == s.Set(id, Entry(Running, Some(Owner(id)))).Goto(MAIN, Idle)
  {
    var s1 := s.Goto(MAIN, RegisterWait(id));
    var s2 := s.(lock := Some(MAIN)).Goto(MAIN, RegisterState(id));
    assert Advanced(s1, MAIN) == s2 by { GotoTwice(s, MAIN, RegisterWait(id), RegisterState(id)); }
    RegisterLocked(s2, id);
    GotoTwice(s, MAIN, RegisterState(id), Idle);
    OneMore(s1, Advance(MAIN), Steps(MAIN, 3));
    OneMore(s, BeginRegister(id), [Advance(MAIN)] + Steps(MAIN, 3));
  }

  function ShutdownTrace(id: Id): seq<Event> {
    [BeginShutdown(id)] + Steps(Owner(id), 3)
  }

  function Unregistering(s: State, id: Id): (ss: seq<State>)
    ensures |ss| == 4
  {
    var t, down, held := Owner(id), s.Get(id).(status := Shutdown), s.(lock := Some(Owner(id)));
    [s.Goto(t, ShutdownWait(id)),
     held.Goto(t, ShutdownState(id)),
     held.Set(id, down).Goto(t, ShutdownEnd(id)),
     s.Set(id, down).Goto(t, Idle)]
  }

  lemma ShutdownMoves(s: State, id: Id)
    requires s.lock.None?
    ensures var t, ss := Owner(id), Unregistering(s, id);
      Advanced(ss[0], t) == ss[1] && Advanced(ss[1], t) == ss[2] && Advanced(ss[2], t) == ss[3]
  {
    var t := Owner(id);
    GotoTwice(s, t, ShutdownWait(id), ShutdownState(id));
    GotoTwice(s, t, ShutdownState(id), ShutdownEnd(id));
    GotoTwice(s, t, ShutdownEnd(id), Idle);
  }

  lemma ShutdownRun(s: State, id: Id)
    requires s.lock.None? && Enabled(s, BeginShutdown(id))
    ensures Legal(s, ShutdownTrace(id))
    ensures Run(s, ShutdownTrace(id)) == s.Set(id, s.Get(id).(status := Shutdown)).Goto(Owner(id), Idle)
  {
    var ss := Unregistering(s, id);
    ShutdownMoves(s, id);
    ThreeSteps(ss[0], Owner(id), ss[1], ss[2], ss[3]);
    OneMore(s, BeginShutdown(id), Steps(Owner(id), 3));
  }

  /** GetCurrentThreadIdentifier, up to the decision whether to take the lock. */
  function LookupTrace(t: Thread, id: Id, task: Task): seq<Event> {
    [BeginPost(t, id, task)] + Steps(t, 3)
  }

  lemma LookupRun(s: State, t: Thread, id: Id, task: Task)
    requires s.lock.None? && Enabled(s, BeginPost(t, id, task))
    ensures Legal(s, LookupTrace(t, id, task))
    ensures Run(s, LookupTrace(t, id, task)) ==
              s.(used := s.used + {task})
               .Goto(t, if s.TargetOutlives(t, id) then Read(id, task, false) else ReadWait(id, task))
  {
    var elide, noted := s.TargetOutlives(t, id), s.(used := s.used + {task});
    var last := if elide then Read(id, task, false) else ReadWait(id, task);
    var held := noted.(lock := Some(t));
    var s1 := noted.Goto(t, LookupWait(id, task));
    var s2 := held.Goto(t, LookupScan(id, task));
    var s3 := held.Goto(t, LookupEnd(id, task, elide));
    var s4 := noted.Goto(t, last);
    assert Advanced(s1, t) == s2 by { GotoTwice(noted, t, LookupWait(id, task), LookupScan(id, task)); }
    assert Advanced(s2, t) == s3 by { GotoTwice(noted, t, LookupScan(id, task), LookupEnd(id, task, elide)); }
    assert Advanced(s3, t) == s4 by { GotoTwice(noted, t, LookupEnd(id, task, elide), last); }
    ThreeSteps(s1, t, s2, s3, s4);
    OneMore(s, BeginPost(t, id, task), Steps(t, 3));
  }

  function DeliverTrace(s: State, t: Thread, id: Id): seq<Event> {
    if s.TargetOutlives(t, id) then Steps(t, 3) else [Advance(t)] + Steps(t, 3)
  }

  function Delivered(s: State, t: Thread, id: Id, task: Task): State {
    var accepting := s.Get(id).status.Running?;
    s.(handed := if accepting then s.handed + [Handoff(task, id, s.Get(id))] else s.handed,
       results := s.results[task := accepting]).Goto(t, Idle)
  }

  function Delivering(s: State, t: Thread, id: Id, task: Task, locked: bool): (ss: seq<State>)
    ensures |ss| == 3
  {
    var accepting := s.Get(id).status.Running?;
    var given := s.(handed := if accepting then s.handed + [Handoff(task, id, s.Get(id))] else s.handed);
    [s.Goto(t, Hand(id, task, locked, accepting)),
     given.Goto(t, Return(id, task, locked, accepting)),
     Delivered(s.(lock := None), t, id, task)]
  }

  lemma DeliverMoves(s: State, t: Thread, id: Id, task: Task, locked: bool)
    requires s.lock == if locked then Some(t) else None
    requires s.At(t) == Read(id, task, locked)
    ensures var ss := Delivering(s, t, id, task, locked);
      Advanced(s, t) == ss[0] && Advanced(ss[0], t) == ss[1] && Advanced(ss[1], t) == ss[2]
  {
    var accepting := s.Get(id).status.Running?;
    GotoTwice(s, t, Hand(id, task, locked, accepting), Return(id, task, locked, accepting));
    GotoTwice(s, t, Return(id, task, locked, accepting), Idle);
  }

  lemma ReadHandReturn(s: State, t: Thread, id: Id, task: Task, locked: bool)
    requires s.lock == if locked then Some(t) else None
    requires s.At(t) == Read(id, task, locked)
    ensures Legal(s, Steps(t, 3))
    ensures Run(s, Steps(t, 3)) == Delivered(s.(lock := None), t, id, task)
  {
    var ss := Delivering(s, t, id, task, locked);
    DeliverMoves(s, t, id, task, locked);
    ThreeSteps(s, t, ss[0], ss[1], ss[2]);
  }

  lemma DeliverRun(s: State, t: Thread, id: Id, task: Task)
    requires s.lock.None?
    requires s.At(t) == if s.TargetOutlives(t, id) then Read(id, task, false) else ReadWait(id, task)
    ensures Legal(s, DeliverTrace(s, t, id))
    ensures Run(s, DeliverTrace(s, t, id)) == Delivered(s, t, id, task)
    ensures var running := s.Get(id).status.Running?;
      Run(s, DeliverTrace(s, t, id)) ==
        s.(handed := s.handed + (if running then [Handoff(task, id, s.Get(id))] else []),
           results := s.results[task := running], pcs := s.pcs[t := Idle])
  {
    if s.TargetOutlives(t, id) {
      ReadHandReturn(s, t, id, task, false);
    } else {
      var s' := s.(lock := Some(t)).Goto(t, Read(id, task, true));
      ReadHandReturn(s', t, id, task, true);
      GotoTwice(s, t, Read(id, task, true), Idle);
      OneMore(s, Advance(t), Steps(t, 3));
      assert Delivered(s'.(lock := None), t, id, task) == Delivered(s, t, id, task);
    }
  }

  // --------------------------------------------------- why the order is needed

  /** Both identifiers registered, as at startup. */
  function Started(uiOutlivesIo: bool): State {
    Initial(uiOutlivesIo).(ui := Entry(Running, Some(MAIN)), io := Entry(Running, Some(IO_THREAD)),
                           pcs := map[MAIN := Idle], ioThread := Alive)
  }

  lemma Startup(uiOutlivesIo: bool) returns (evs: seq<Event>)
    ensures Legal(Initial(uiOutlivesIo), evs) && Run(Initial(uiOutlivesIo), evs) == Started(uiOutlivesIo)
  {
    var s0 := Initial(uiOutlivesIo);
    var s1 := s0.(ui := Entry(Running, Some(MAIN)), pcs := map[MAIN := Idle]);
    var s2 := s1.(ioThread := Alive);
    RegisterRun(s2, IO);
    assert Run(s2, RegisterTrace(IO)) == Started(uiOutlivesIo) by { GotoTwice(s0, MAIN, Idle, Idle); }
    OneMore(s1, StartIo, RegisterTrace(IO));
    RegisterRun(s0, UI);
    assert Run(s0, RegisterTrace(UI)) == s1;
    evs := RegisterTrace(UI) + ([StartIo] + RegisterTrace(IO));
    RunJoin(s0, RegisterTrace(UI), [StartIo] + RegisterTrace(IO));
  }

  /** The IO thread has read UI's entry without the lock, and UI is then shut down. */
  lemma ShutdownDuringPost(s: State, task: Task) returns (evs: seq<Event>, s': State)
    requires s == Started(false)
    ensures Legal(s, evs) && s' == Run(s, evs)
    ensures s'.At(IO_THREAD) == Hand(UI, task, false, true) && s'.ui.status == Shutdown
    ensures s'.handed == [] && s'.results == map[]
  {
    LookupRun(s, IO_THREAD, UI, task);
    var s1 := s.(used := {task}).Goto(IO_THREAD, Read(UI, task, false));
    assert Run(s, LookupTrace(IO_THREAD, UI, task)) == s1;
    var s2 := Advanced(s1, IO_THREAD);
    assert s2 == s1.Goto(IO_THREAD, Hand(UI, task, false, true));
    ShutdownRun(s2, UI);
    OneMore(s1, Advance(IO_THREAD), ShutdownTrace(UI));
    evs := LookupTrace(IO_THREAD, UI, task) + ([Advance(IO_THREAD)] + ShutdownTrace(UI));
    RunJoin(s, LookupTrace(IO_THREAD, UI, task), [Advance(IO_THREAD)] + ShutdownTrace(UI));
    s' := s2.Set(UI, s2.ui.(status := Shutdown)).Goto(MAIN, Idle);
  }

  /** Without the documented order the elision is unsound: UI is shut down while
      the IO thread reads its entry without the lock, and the task is handed to
      an identifier that no longer accepts tasks. */
  lemma DisorderedShutdownLosesTask(task: Task) returns (evs: seq<Event>)
    ensures Legal(Initial(false), evs)
    ensures Run(Initial(false), evs).results == map[task := true]
    ensures |Run(Initial(false), evs).handed| == 1
    ensures Run(Initial(false), evs).handed[0].entry.status == Shutdown
  {
    evs := Startup(false);
    var more, s := ShutdownDuringPost(Started(false), task);
    RunJoin(Initial(false), evs, more);
    HandAndReturn(Initial(false), evs + more, s, task);
    evs := evs + more + [Advance(IO_THREAD), Advance(IO_THREAD)];
  }

  lemma HandAndReturn(s0: State, evs: seq<Event>, s: State, task: Task)
    requires Legal(s0, evs) && s == Run(s0, evs)
    requires s.At(IO_THREAD) == Hand(UI, task, false, true) && s.handed == [] && s.results == map[]
    ensures Legal(s0, evs + [Advance(IO_THREAD), Advance(IO_THREAD)])
    ensures Run(s0, evs + [Advance(IO_THREAD), Advance(IO_THREAD)]).handed == [Handoff(task, UI, s.ui)]
    ensures Run(s0, evs + [Advance(IO_THREAD), Advance(IO_THREAD)]).results == map[task := true]
  {
    var s1 := Advanced(s, IO_THREAD);
    OneMore(s1, Advance(IO_THREAD), []);
    OneMore(s, Advance(IO_THREAD), [Advance(IO_THREAD)]);
    assert [Advance(IO_THREAD)] + [Advance(IO_THREAD)] == [Advance(IO_THREAD), Advance(IO_THREAD)];
    RunJoin(s0, evs, [Advance(IO_THREAD), Advance(IO_THREAD)]);
  }
}
