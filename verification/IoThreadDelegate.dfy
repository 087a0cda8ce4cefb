/**
 * The life of the IO sub-thread and the delegate that is told about it.
 *
 * MAIN sets the delegate, starts the thread, registers it and stops it; the
 * thread runs its queue in order until it meets Quit, then cleans up.
 */
module IoThreadDelegate {
  import opened Options

  type Delegate = nat

  datatype Status = Uninitialized | Running | Shutdown

  datatype Task = CompleteInit | Quit | Other

  datatype Call = Init(d: Delegate) | CleanUp(d: Delegate)

  /** The physical thread: running its queue, in CleanUp before and after the
      delegate has been told, and gone. */
  datatype Phase = NotStarted | Looping | CleaningUp | Unregistering | Exited

  /** MAIN: free, inside RegisterAsWebThread, or waiting inside Stop. */
  datatype Main = Free | AboutToPost | Joining

  datatype State = State(
    status: Status,
    delegate: Option<Delegate>,
    queue: seq<Task>,
    phase: Phase,
    main: Main,
    calls: seq<Call>)   // what any delegate was told, on the IO thread

  const Initial := State(Uninitialized, None, [], NotStarted, Free, [])

  datatype Event =
    | SetDelegate(d: Option<Delegate>)
    | Start
    | Register | PostInit   // the two halves of RegisterAsWebThread
    | PostOther
    | Stop | Join
    | RunTask
    | TellCleanUp | Unregister   // the two halves of WebSubThread::CleanUp

  predicate Enabled(s: State, ev: Event) {
    match ev
    case SetDelegate(d) =>
      s.main.Free? && !s.status.Running? && (s.delegate.None? || d.None?)
    case Start => s.main.Free? && s.phase.NotStarted?
    case Register => s.main.Free? && s.phase.Looping? && s.status.Uninitialized?
    case PostInit => s.main.AboutToPost?
    case PostOther => s.phase.Looping?
    case Stop => s.main.Free? && s.phase.Looping?
    case Join => s.main.Joining? && s.phase.Exited?
    case RunTask => s.phase.Looping? && s.queue != []
    case TellCleanUp => s.phase.CleaningUp?
    case Unregister => s.phase.Unregistering?
  }

  function Told(s: State, call: Delegate -> Call): seq<Call> {
    if s.delegate.Some? then s.calls + [call(s.delegate.value)] else s.calls
  }

  function Apply(s: State, ev: Event): State
    requires Enabled(s, ev)
  {
    match ev
    case SetDelegate(d) => s.(delegate := d)
    case Start => s.(phase := Looping)
    case Register => s.(status := Running, main := AboutToPost)
    case PostInit => s.(queue := s.queue + [CompleteInit], main := Free)
    case PostOther => s.(queue := s.queue + [Other])
    case Stop => s.(queue := s.queue + [Quit], main := Joining)
    case Join => s.(main := Free)
    case RunTask =>
      var rest := s.(queue := s.queue[1..]);
      (match s.queue[0]
       case CompleteInit => rest.(calls := Told(s, (d: Delegate) => Init(d)))
       case Quit => rest.(phase := CleaningUp)
       case Other => rest)
    case TellCleanUp => s.(calls := Told(s, (d: Delegate) => CleanUp(d)), phase := Unregistering)
    case Unregister => s.(status := if s.status.Running? then Shutdown else s.status, phase := Exited)
  }

  predicate Legal(s: State, evs: seq<Event>)
    decreases |evs|
  {
    evs == [] || (Enabled(s, evs[0]) && Legal(Apply(s, evs[0]), evs[1..]))
  }

  function Run(s: State, evs: seq<Event>): State
    requires Legal(s, evs)
    decreases |evs|
  {
    if evs == [] then s else Run(Apply(s, evs[0]), evs[1..])
  }

  /** `task` is in the queue once, and no Quit comes before it. */
  ghost predicate QueuedOnce(queue: seq<Task>, task: Task) {
    exists i :: 0 <= i < |queue| && queue[i] == task && Quit !in queue[..i] && task !in queue[..i] + queue[i + 1..]
  }

  /** CompleteInit is still to come and will run before any Quit. */
  ghost predicate InitAhead(s: State) {
    if s.main.AboutToPost? then CompleteInit !in s.queue && Quit !in s.queue && s.phase.Looping?
    else QueuedOnce(s.queue, CompleteInit) && s.phase.Looping?
  }

  function CallsOf(d: Option<Delegate>, init: bool, cleanUp: bool): seq<Call> {
    if d.None? then []
    else (if init then [Init(d.value)] else []) + (if cleanUp then [CleanUp(d.value)] else [])
  }

  /** The registered life of the thread whose delegate is `d`. */
  ghost predicate Served(s: State, d: Option<Delegate>) {
    && !s.phase.NotStarted?
    && (s.status.Running? <==> !s.phase.Exited?)
    && (s.status.Running? ==> s.delegate == d)
    && (InitAhead(s) || (CompleteInit !in s.queue && !s.main.AboutToPost?))
    && s.calls == CallsOf(d, !InitAhead(s), s.phase.Unregistering? || s.phase.Exited?)
  }

  /** Not registered so far: the delegate may change until the thread cleans up. */
  ghost predicate Unserved(s: State) {
    && !s.main.AboutToPost? && CompleteInit !in s.queue
    && (s.phase.NotStarted? || s.phase.Looping? || s.phase.CleaningUp? ==> s.calls == [])
    && (s.phase.Unregistering? || s.phase.Exited? ==> exists d :: s.calls == CallsOf(d, false, true))
  }

  ghost predicate Inv(s: State) {
    && (Quit in s.queue ==> s.main.Joining? && s.phase.Looping?)
    && (s.phase.CleaningUp? || s.phase.Unregistering? ==> s.main.Joining?)
    && (forall i, j :: 0 <= i < j < |s.queue| ==> !(s.queue[i].Quit? && s.queue[j].Quit?))
    && (s.phase.NotStarted? ==> s.main.Free? && s.queue == [])
    && if s.status.Uninitialized? then Unserved(s) else exists d :: Served(s, d)
  }

  lemma ServedStep(s: State, ev: Event, d: Option<Delegate>)
    requires Inv(s) && Served(s, d) && !s.status.Uninitialized? && Enabled(s, ev)
    ensures Served(Apply(s, ev), d)
  {
    var s' := Apply(s, ev);
    match ev {
      case RunTask => RunTaskKeepsInit(s);
      case PostInit => PostedOnce(s.queue);
      case PostOther => StillOnce(s.queue, Other);
      case Stop => StillOnce(s.queue, Quit);
      case _ =>
    }
  }

  lemma PostedOnce(queue: seq<Task>)
    requires CompleteInit !in queue && Quit !in queue
    ensures QueuedOnce(queue + [CompleteInit], CompleteInit)
  {
    var q := queue + [CompleteInit];
    assert q[|queue|] == CompleteInit && q[..|queue|] == queue && q[|queue| + 1..] == [];
  }

  lemma StillOnce(queue: seq<Task>, task: Task)
    requires task != CompleteInit
    ensures QueuedOnce(queue, CompleteInit) ==> QueuedOnce(queue + [task], CompleteInit)
  {
    if QueuedOnce(queue, CompleteInit) {
      var i :| 0 <= i < |queue| && queue[i] == CompleteInit && Quit !in queue[..i]
               && CompleteInit !in queue[..i] + queue[i + 1..];
      var q := queue + [task];
      assert q[..i] == queue[..i] && q[i + 1..] == queue[i + 1..] + [task];
      assert q[i] == CompleteInit;
    }
  }

  lemma RunTaskKeepsInit(s: State)
    requires s.phase.Looping? && s.queue != []
    ensures InitAhead(s) && s.queue[0] != CompleteInit ==>
              s.queue[0] == Other && InitAhead(Apply(s, RunTask))
    ensures InitAhead(s) && s.queue[0] == CompleteInit ==> CompleteInit !in s.queue[1..] && !s.main.AboutToPost?
  {
    if InitAhead(s) && !s.main.AboutToPost? {
      var queue := s.queue;
      var i :| 0 <= i < |queue| && queue[i] == CompleteInit && Quit !in queue[..i]
               && CompleteInit !in queue[..i] + queue[i + 1..];
      if i > 0 {
        assert queue[0] in queue[..i];
        assert queue[1..][..i - 1] == queue[1..i] && queue[1..][i..] == queue[i + 1..];
        assert queue[1..][i - 1] == CompleteInit;
        assert forall t :: t in queue[1..i] ==> t in queue[..i];
      }
    }
  }

  lemma InvStep(s: State, ev: Event)
    requires Inv(s) && Enabled(s, ev)
    ensures Inv(Apply(s, ev))
  {
    var s' := Apply(s, ev);
    if !s.status.Uninitialized? {
      var d :| Served(s, d);
      ServedStep(s, ev, d);
    } else if ev == Register {
      assert Served(s', s.delegate);
    } else if ev == TellCleanUp {
      assert s'.calls == CallsOf(s.delegate, false, true);
    } else if s.phase.Unregistering? || s.phase.Exited? {
      var d :| s.calls == CallsOf(d, false, true);
      assert s'.calls == CallsOf(d, false, true);
    }
  }

  lemma {:induction false} InvRun(s: State, evs: seq<Event>)
    requires Inv(s) && Legal(s, evs)
    ensures Inv(Run(s, evs))
    decreases |evs|
  {
    if evs != [] {
      InvStep(s, evs[0]);
      InvRun(Apply(s, evs[0]), evs[1..]);
    }
  }

  /** All that was said in the thread's life: Init only if it was registered. */
  predicate ToldAtExit(s: State, d: Option<Delegate>) {
    s.calls == CallsOf(d, !s.status.Uninitialized?, true)
  }

  /** Main result: once the thread is gone, a thread that was registered has told
      one delegate Init and then CleanUp, once each, or nobody anything; and a
      thread that never was has told CleanUp alone. */
  lemma DelegateIsToldInPairs(evs: seq<Event>)
    requires Legal(Initial, evs) && Run(Initial, evs).phase.Exited?
    ensures var s := Run(Initial, evs);
      exists d: Option<Delegate> :: ToldAtExit(s, d)
  {
    InvRun(Initial, evs);
    var s := Run(Initial, evs);
    if !s.status.Uninitialized? {
      var d :| Served(s, d);
      assert ToldAtExit(s, d);
    } else {
      var d :| s.calls == CallsOf(d, false, true);
      assert ToldAtExit(s, d);
    }
  }

  /** Main result: the delegate that is told is the one set when the thread was
      registered; nothing can replace it until the thread has unregistered. */
  lemma {:induction false} RegisteredDelegateIsServed(s: State, evs: seq<Event>, d: Option<Delegate>)
    requires Inv(s) && !s.status.Uninitialized? && Served(s, d) && Legal(s, evs)
    ensures Served(Run(s, evs), d)
    decreases |evs|
  {
    if evs != [] {
      InvStep(s, evs[0]);
      ServedStep(s, evs[0], d);
      RegisteredDelegateIsServed(Apply(s, evs[0]), evs[1..], d);
    }
  }

  lemma RegistrationStartsService(s: State)
    requires Inv(s) && Enabled(s, Register)
    ensures Served(Apply(s, Register), s.delegate)
  {
  }

  /** The delegate that was set last, null included. */
  function LastSet(evs: seq<Event>): Option<Delegate> {
    if evs == [] then None
    else if evs[|evs| - 1].SetDelegate? then evs[|evs| - 1].d
    else LastSet(evs[..|evs| - 1])
  }

  /** The delegate pointer holds what was set last. */
  lemma {:induction false} PointerIsLastSet(s: State, before: seq<Event>, evs: seq<Event>)
    requires Legal(s, evs) && s.delegate == LastSet(before)
    ensures Run(s, evs).delegate == LastSet(before + evs)
    decreases |evs|
  {
    if evs == [] {
      assert before + evs == before;
    } else {
      var so := before + [evs[0]];
      assert so[..|so| - 1] == before;
      assert before + evs == so + evs[1..];
      PointerIsLastSet(Apply(s, evs[0]), so, evs[1..]);
    }
  }

  /** Main result: once a registered thread is gone, the delegate set last before the
      registration has been told Init and CleanUp, and nobody anything if that was
      null. */
  lemma LastSetIsTold(before: seq<Event>, after: seq<Event>)
    requires Legal(Initial, before) && Enabled(Run(Initial, before), Register)
    requires Legal(Apply(Run(Initial, before), Register), after)
    requires Run(Apply(Run(Initial, before), Register), after).phase.Exited?
    ensures Run(Apply(Run(Initial, before), Register), after).calls ==
      if LastSet(before).None? then [] else [Init(LastSet(before).value), CleanUp(LastSet(before).value)]
  {
    var s := Run(Initial, before);
    InvRun(Initial, before);
    PointerIsLastSet(Initial, [], before);
    assert [] + before == before;
    RegistrationStartsService(s);
    InvStep(s, Register);
    RegisteredDelegateIsServed(Apply(s, Register), after, s.delegate);
  }

  /** A thread that is stopped without having been registered tells its delegate
      CleanUp although it never told it Init. */
  lemma UnregisteredThreadCleansUp(d: Delegate)
    ensures var evs := [SetDelegate(Some(d)), Start, Stop, RunTask, TellCleanUp, Unregister];
      Legal(Initial, evs) && Run(Initial, evs).calls == [CleanUp(d)]
  {
    var s1 := Apply(Initial, SetDelegate(Some(d)));
    var s3 := Apply(Apply(s1, Start), Stop);
    assert s3.queue == [Quit];
    var s5 := Apply(Apply(s3, RunTask), TellCleanUp);
    assert Legal(s5, [Unregister]) && Run(s5, [Unregister]).calls == [CleanUp(d)];
    assert Legal(s3, [RunTask, TellCleanUp, Unregister]);
    assert Legal(s1, [Start, Stop, RunTask, TellCleanUp, Unregister]);
  }

  /** The IO sub-thread and the global delegate pointer. */
  class WebSubThread {
    var status: Status
    var delegate: Option<Delegate>
    var queue: seq<Task>
    var phase: Phase
    var main: Main
    var calls: seq<Call>

    function View(): State
      reads this
    {
      State(status, delegate, queue, phase, main, calls)
    }

    method SetIOThreadDelegate(d: Option<Delegate>)
      requires Enabled(View(), SetDelegate(d))
      modifies `delegate
      ensures View() == Apply(old(View()), SetDelegate(d))
      ensures delegate == d
    {
      delegate := d;
    }

    method RegisterAsWebThread()
      requires Enabled(View(), Register)
      modifies `status, `queue
      ensures Legal(old(View()), [Register, PostInit])
      ensures View() == Run(old(View()), [Register, PostInit])
      ensures status == Running && queue == old(queue) + [CompleteInit]
    {
      assert [Register, PostInit][1..] == [PostInit];
      status := Running;
      queue := queue + [CompleteInit];
    }

    /** Runs on the IO thread, as the task posted by the registration. */
    method CompleteInitializationOnWebThread()
      requires Enabled(View(), RunTask) && queue[0].CompleteInit?
      modifies `queue, `calls
      ensures View() == Apply(old(View()), RunTask)
      ensures calls == old(calls) + (if delegate.Some? then [Init(delegate.value)] else [])
    {
      queue := queue[1..];
      if delegate.Some? {
        calls := calls + [Init(delegate.value)];
      }
    }

    /** Runs on the IO thread after its queue. The delegate is told before the
        registration is dropped. */
    method CleanUpThread()
      requires Enabled(View(), TellCleanUp)
      modifies `status, `phase, `calls
      ensures Legal(old(View()), [TellCleanUp, Unregister])
      ensures View() == Run(old(View()), [TellCleanUp, Unregister])
      ensures calls == old(calls) + (if delegate.Some? then [CleanUp(delegate.value)] else [])
      ensures status == if old(status).Running? then Shutdown else old(status)
    {
      assert [TellCleanUp, Unregister][1..] == [Unregister];
      if delegate.Some? {
        calls := calls + [CleanUp(delegate.value)];
      }
      phase := Unregistering;
      if status.Running? {
        status := Shutdown;
      }
      phase := Exited;
    }
  }
}
