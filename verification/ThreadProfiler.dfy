/**
 * The profiler's cycle: a delayed task starts a collection, its completion posts
 * a task that schedules the next one. `Tick` lets time pass; the tasks may run
 * late, and a collection may take more or less than its nominal duration.
 */
module ThreadProfiler {
  import opened Options
  import opened SamplingScheduler

  /** A task in the owning thread's queue; a start may not run before `due`. */
  datatype Task = Start(due: real) | Reschedule

  /** One periodic collection, and when it reported completion. */
  datatype Collection = Collection(started: real, completed: Option<real>) {
    function Duration(): real
      requires completed.Some?
    {
      completed.value - started
    }
  }

  datatype State = State(
    c: Config,
    clock: real,
    periodStart: real,
    runner: bool,                 // owning_thread_task_runner_ is set
    alive: bool,
    tasks: seq<Task>,
    collections: seq<Collection>, // the last one belongs to periodic_profiler_
    plans: seq<Plan>)             // what the scheduler has answered so far
  {
    /** periodic_profiler_ has been started and has not reported completion. */
    predicate Collecting() {
      alive && collections != [] && collections[|collections| - 1].completed.None?
    }
  }

  datatype Event =
    | Tick(delay: real)
    | SetRunner(draw: real)
    | RunTask(i: nat, draw: real)   // `draw` is used if the task schedules
    | Complete                      // on the profiler thread
    | Destroy

  function Initial(c: Config, now: real): State {
    State(c, now, now + c.sampling, false, true, [], [], [])
  }

  predicate Enabled(s: State, ev: Event) {
    match ev
    case Tick(delay) => delay >= 0.0
    case SetRunner(draw) => s.alive && !s.runner && 0.0 <= draw <= 1.0
    case RunTask(i, draw) =>
      && i < |s.tasks| && 0.0 <= draw <= 1.0
      && (s.tasks[i].Start? ==> s.tasks[i].due <= s.clock)
    case Complete => s.Collecting()
    case Destroy => s.alive
  }

  /** ScheduleNextPeriodicCollection. */
  function Scheduled(s: State, draw: real): State
    requires s.c.Valid()
  {
    var plan := Planned(s.c, s.periodStart, Request(s.clock, draw));
    s.(periodStart := plan.begin + s.c.period,
       tasks := s.tasks + [Start(s.clock + plan.Delay())],
       plans := s.plans + [plan])
  }

  function Without(tasks: seq<Task>, i: nat): seq<Task>
    requires i < |tasks|
  {
    tasks[..i] + tasks[i + 1..]
  }

  function Apply(s: State, ev: Event): State
    requires s.c.Valid() && Enabled(s, ev)
  {
    match ev
    case Tick(delay) => s.(clock := s.clock + delay)
    case SetRunner(draw) => Scheduled(s.(runner := true), draw)
    case RunTask(i, draw) =>
      var s' := s.(tasks := Without(s.tasks, i));
      if !s.alive then s'   // the weak pointer of the task is gone
      else if s.tasks[i].Start? then s'.(collections := s.collections + [Collection(s.clock, None)])
      else Scheduled(s', draw)
    case Complete =>
      var last := |s.collections| - 1;
      s.(collections := s.collections[last := s.collections[last].(completed := Some(s.clock))],
         tasks := s.tasks + [Reschedule])
    case Destroy => s.(alive := false)
  }

  predicate Legal(s: State, evs: seq<Event>)
    requires s.c.Valid()
    decreases |evs|
  {
    evs == [] || (Enabled(s, evs[0]) && Legal(Apply(s, evs[0]), evs[1..]))
  }

  function Run(s: State, evs: seq<Event>): State
    requires s.c.Valid() && Legal(s, evs)
    decreases |evs|
  {
    if evs == [] then s else Run(Apply(s, evs[0]), evs[1..])
  }

  /** The single token of the cycle: queued tasks plus the running collection. */
  function Tokens(s: State): nat {
    |s.tasks| + if s.Collecting() then 1 else 0
  }

  /** Each collection but the last has completed, before the next one started. */
  ghost predicate NoOverlap(cs: seq<Collection>) {
    forall i, j :: 0 <= i < j < |cs| ==> cs[i].completed.Some? && cs[i].completed.value <= cs[j].started
  }

  /** Nothing has happened in the future, nor completed before it started. */
  ghost predicate Past(cs: seq<Collection>, clock: real) {
    forall i :: 0 <= i < |cs| ==>
      && cs[i].started <= clock
      && (cs[i].completed.Some? ==> cs[i].started <= cs[i].completed.value <= clock)
  }

  /** Plan i was made for the period after plan i - 1, when collection i - 1 had
      completed. */
  predicate Follows(c: Config, cs: seq<Collection>, plans: seq<Plan>, i: nat) {
    && 0 < i < |plans| && i <= |cs|
    && cs[i - 1].completed.Some?
    && plans[i].now >= cs[i - 1].completed.value
    && plans[i].begin == Max(plans[i - 1].begin + c.period, plans[i].now)
  }

  /** Collection i runs the i-th answer of the scheduler, not before its time, and
      the next answer is asked for after its completion. */
  ghost predicate Linked(c: Config, cs: seq<Collection>, plans: seq<Plan>) {
    && |cs| <= |plans| <= |cs| + 1
    && (forall i :: 0 <= i < |plans| ==> InPeriod(c, plans[i]))
    && (forall i :: 0 <= i < |cs| ==> cs[i].started >= plans[i].start)
    && (forall i: nat :: 0 < i < |plans| ==> Follows(c, cs, plans, i))
  }

  /** What the token says about the last answer of the scheduler. */
  ghost predicate TokenFits(s: State) {
    var n := |s.plans|;
    && (s.runner <==> n > 0)
    && (n > 0 ==> s.periodStart == s.plans[n - 1].begin + s.c.period)
    && (s.alive ==> Tokens(s) == if s.runner then 1 else 0)
    && (s.alive ==> n == |s.collections| + if s.tasks != [] && s.tasks[0].Start? then 1 else 0)
    && (s.alive && s.tasks != [] && s.tasks[0].Start? ==> s.tasks[0].due == s.plans[n - 1].start)
  }

  ghost predicate Inv(s: State) {
    && s.c.Valid()
    && NoOverlap(s.collections) && Past(s.collections, s.clock)
    && Linked(s.c, s.collections, s.plans)
    && TokenFits(s)
  }

  lemma PlanLinks(c: Config, cs: seq<Collection>, plans: seq<Plan>, plan: Plan)
    requires Linked(c, cs, plans) && |plans| == |cs| && InPeriod(c, plan)
    requires plans != [] ==>
      && cs[|cs| - 1].completed.Some? && plan.now >= cs[|cs| - 1].completed.value
      && plan.begin == Max(plans[|plans| - 1].begin + c.period, plan.now)
    ensures Linked(c, cs, plans + [plan])
  {
    var plans' := plans + [plan];
    forall i: nat | 0 < i < |plans'| ensures Follows(c, cs, plans', i) {
      if i < |plans| { assert Follows(c, cs, plans, i); }
    }
  }

  lemma StartLinks(c: Config, cs: seq<Collection>, plans: seq<Plan>, ran: Collection)
    requires Linked(c, cs, plans) && |plans| == |cs| + 1 && ran.started >= plans[|cs|].start
    ensures Linked(c, cs + [ran], plans)
  {
    forall i: nat | 0 < i < |plans| ensures Follows(c, cs + [ran], plans, i) {
      assert Follows(c, cs, plans, i);
    }
  }

  lemma CompleteLinks(c: Config, cs: seq<Collection>, plans: seq<Plan>, done: Collection)
    requires Linked(c, cs, plans) && cs != [] && |plans| == |cs| && done.started == cs[|cs| - 1].started
    ensures Linked(c, cs[|cs| - 1 := done], plans)
  {
    var cs' := cs[|cs| - 1 := done];
    forall i: nat | 0 < i < |plans| ensures Follows(c, cs', plans, i) {
      assert Follows(c, cs, plans, i);
    }
  }

  lemma ScheduleKeepsInv(s: State, draw: real)
    requires s.c.Valid() && NoOverlap(s.collections) && Past(s.collections, s.clock)
    requires Linked(s.c, s.collections, s.plans) && |s.plans| == |s.collections|
    requires s.alive && s.runner && s.tasks == [] && !s.Collecting()
    requires s.plans != [] ==> s.periodStart == s.plans[|s.plans| - 1].begin + s.c.period
    requires 0.0 <= draw <= 1.0
    ensures Inv(Scheduled(s, draw))
  {
    WindowInPeriod(s.c, s.periodStart, Request(s.clock, draw));
    PlanLinks(s.c, s.collections, s.plans, Planned(s.c, s.periodStart, Request(s.clock, draw)));
  }

  lemma TickKeepsInv(s: State, delay: real)
    requires Inv(s) && delay >= 0.0
    ensures Inv(s.(clock := s.clock + delay))
  {
  }

  /** The token is the start that has just run; the new collection takes it over. */
  lemma StartKeepsInv(s: State)
    requires Inv(s) && s.alive && |s.tasks| == 1 && s.tasks[0].Start? && s.tasks[0].due <= s.clock
    ensures Inv(s.(tasks := [], collections := s.collections + [Collection(s.clock, None)]))
  {
    assert !s.Collecting();
    var cs' := s.collections + [Collection(s.clock, None)];
    StartLinks(s.c, s.collections, s.plans, Collection(s.clock, None));
    assert NoOverlap(cs') && Past(cs', s.clock);
    assert cs'[|cs'| - 1] == Collection(s.clock, None);
  }

  lemma CompleteKeepsInv(s: State)
    requires Inv(s) && Enabled(s, Complete)
    ensures Inv(Apply(s, Complete))
  {
    var last := |s.collections| - 1;
    var done := s.collections[last].(completed := Some(s.clock));
    var cs' := s.collections[last := done];
    CompleteLinks(s.c, s.collections, s.plans, done);
    assert NoOverlap(cs') && Past(cs', s.clock);
    assert s.tasks == [] && Apply(s, Complete).tasks == [Reschedule];
  }

  lemma TaskIsTheToken(s: State, i: nat)
    requires Inv(s) && s.alive && i < |s.tasks|
    ensures i == 0 && s.runner && s.tasks == [s.tasks[0]] && Without(s.tasks, i) == []
    ensures !s.Collecting()
  {
  }

  lemma StaleTaskKeepsInv(s: State, i: nat)
    requires Inv(s) && !s.alive && i < |s.tasks|
    ensures Inv(s.(tasks := Without(s.tasks, i)))
  {
  }

  lemma RescheduleKeepsInv(s: State, draw: real)
    requires Inv(s) && s.alive && s.tasks == [Reschedule] && 0.0 <= draw <= 1.0
    ensures Inv(Scheduled(s.(tasks := []), draw))
  {
    assert !s.Collecting();
    ScheduleKeepsInv(s.(tasks := []), draw);
  }

  lemma InvStep(s: State, ev: Event)
    requires Inv(s) && Enabled(s, ev)
    ensures Inv(Apply(s, ev))
  {
    match ev {
      case Tick(delay) => TickKeepsInv(s, delay);
      case SetRunner(draw) => ScheduleKeepsInv(s.(runner := true), draw);
      case RunTask(i, draw) =>
        if s.alive {
          TaskIsTheToken(s, i);
          if s.tasks[0].Start? { StartKeepsInv(s); } else { RescheduleKeepsInv(s, draw); }
        } else {
          StaleTaskKeepsInv(s, i);
        }
      case Complete => CompleteKeepsInv(s);
      case Destroy =>
    }
  }

  lemma {:induction false} InvRun(s: State, evs: seq<Event>)
    requires Inv(s) && Legal(s, evs)
    ensures Inv(Run(s, evs))
    decreases |evs|
  {
    if evs != [] {
      InvStep(s, evs[0]);
      InvRun(Apply(s, evs[0]), evs[1..]);
    }
  }

  lemma InitialInv(c: Config, now: real)
    requires c.Valid()
    ensures Inv(Initial(c, now))
  {
  }

  /** Main result: in every run, however long the collections take, while the profiler
      lives with a task runner there is exactly one of a queued start, an uncompleted
      collection and a queued reschedule, and none before; and collections never
      overlap. */
  lemma CycleCarriesOneToken(c: Config, now: real, evs: seq<Event>)
    requires c.Valid() && Legal(Initial(c, now), evs)
    ensures var s := Run(Initial(c, now), evs);
      && (s.alive ==> |s.tasks| + (if s.Collecting() then 1 else 0) == if s.runner then 1 else 0)
      && NoOverlap(s.collections)
  {
    InitialInv(c, now);
    InvRun(Initial(c, now), evs);
  }

  /** The i-th delay is at most the slack, plus what is left of a whole period after
      the time that the collection before it took. */
  predicate DelayFits(c: Config, cs: seq<Collection>, plans: seq<Plan>, i: nat) {
    && 0 < i < |plans| && i <= |cs| && cs[i - 1].completed.Some?
    && 0.0 <= plans[i].Delay() <= c.Slack() + Max(0.0, c.period - cs[i - 1].Duration())
  }

  lemma DelayAfterCollection(c: Config, cs: seq<Collection>, plans: seq<Plan>, i: nat)
    requires c.Valid() && Linked(c, cs, plans) && 0 < i < |plans|
    ensures DelayFits(c, cs, plans, i)
  {
    assert Follows(c, cs, plans, i);
    assert InPeriod(c, plans[i - 1]) && InPeriod(c, plans[i]);
    assert cs[i - 1].started >= plans[i - 1].start;
  }

  lemma {:induction false} ConfigStays(s: State, evs: seq<Event>)
    requires s.c.Valid() && Legal(s, evs)
    ensures Run(s, evs).c == s.c
    decreases |evs|
  {
    if evs != [] {
      ConfigStays(Apply(s, evs[0]), evs[1..]);
    }
  }

  /** Main result: in every run each delay but the first fits the collection before
      it, however short or long that was. */
  lemma DelaysFitDurations(c: Config, now: real, evs: seq<Event>, i: nat)
    requires c.Valid() && Legal(Initial(c, now), evs) && 0 < i < |Run(Initial(c, now), evs).plans|
    ensures DelayFits(c, Run(Initial(c, now), evs).collections, Run(Initial(c, now), evs).plans, i)
  {
    InitialInv(c, now);
    InvRun(Initial(c, now), evs);
    ConfigStays(Initial(c, now), evs);
    var s := Run(Initial(c, now), evs);
    DelayAfterCollection(s.c, s.collections, s.plans, i);
  }

  /** After a collection of at least the nominal duration that is twice the slack. */
  lemma NominalDelay(c: Config, cs: seq<Collection>, plans: seq<Plan>, i: nat)
    requires c.Valid() && DelayFits(c, cs, plans, i) && cs[i - 1].Duration() >= c.sampling
    ensures plans[i].Delay() <= 2.0 * c.Slack()
  {
  }

  /** Main result: in every run a collection starts no earlier than the window that the
      scheduler chose for it, and the queued start waits for the window last chosen. */
  lemma StartsAreOnPlan(c: Config, now: real, evs: seq<Event>)
    requires c.Valid() && Legal(Initial(c, now), evs)
    ensures var s := Run(Initial(c, now), evs);
      && |s.collections| <= |s.plans| <= |s.collections| + 1
      && (forall i :: 0 <= i < |s.collections| ==> s.collections[i].started >= s.plans[i].start)
      && (s.alive && s.tasks != [] && s.tasks[0].Start? ==>
            |s.plans| == |s.collections| + 1 && s.tasks == [Start(s.plans[|s.plans| - 1].start)])
  {
    InitialInv(c, now);
    InvRun(Initial(c, now), evs);
  }

  /** The first window is not chosen before `earliest`. */
  predicate FirstNotBefore(s: State, earliest: real) {
    if s.plans == [] then s.periodStart >= earliest else s.plans[0].start >= earliest
  }

  lemma {:induction false} FirstStays(s: State, evs: seq<Event>, earliest: real)
    requires s.c.Valid() && Legal(s, evs) && FirstNotBefore(s, earliest)
    ensures FirstNotBefore(Run(s, evs), earliest)
    decreases |evs|
  {
    if evs != [] {
      FirstStep(s, evs[0], earliest);
      FirstStays(Apply(s, evs[0]), evs[1..], earliest);
    }
  }

  lemma FirstStep(s: State, ev: Event, earliest: real)
    requires s.c.Valid() && Enabled(s, ev) && FirstNotBefore(s, earliest)
    ensures FirstNotBefore(Apply(s, ev), earliest)
  {
    if ev.SetRunner? || ev.RunTask? {
      WindowInPeriod(s.c, s.periodStart, Request(s.clock, ev.draw));
    }
  }

  /** Main result: in every run the first window starts after the time at which the
      startup profiling is estimated to be complete. */
  lemma StartupComesFirst(c: Config, now: real, evs: seq<Event>)
    requires c.Valid() && Legal(Initial(c, now), evs) && Run(Initial(c, now), evs).plans != []
    ensures Run(Initial(c, now), evs).plans[0].start >= now + c.sampling
  {
    FirstStays(Initial(c, now), evs, now + c.sampling);
  }

  /** Main result: a start replaces only a profiler that has reported completion. */
  lemma ReplacedProfilerHasCompleted(s: State, i: nat, draw: real)
    requires Inv(s) && s.alive && Enabled(s, RunTask(i, draw)) && s.tasks[i].Start?
    ensures s.runner && !s.Collecting() && s.tasks == [s.tasks[i]]
    ensures s.collections != [] ==>
      var previous := s.collections[|s.collections| - 1];
      previous.completed.Some? && previous.started <= previous.completed.value <= s.clock
  {
  }

  /** After destruction nothing starts, completes or is scheduled any more. */
  lemma {:induction false} DestructionStopsCycle(s: State, evs: seq<Event>)
    requires s.c.Valid() && !s.alive && Legal(s, evs)
    ensures Run(s, evs).collections == s.collections && Run(s, evs).plans == s.plans
    decreases |evs|
  {
    if evs != [] {
      DestructionStopsCycle(Apply(s, evs[0]), evs[1..]);
    }
  }

  // ---------------------------------------------------------------- the class

  // 300 samples at 0.1 s are 30 s, two percent of a period of 25 minutes.
  const SAMPLES_PER_PROFILE: real := 300.0
  const SAMPLING_INTERVAL: real := 0.1
  const FRACTION_OF_EXECUTION_TIME_TO_SAMPLE: real := 0.02

  class IOSThreadProfiler {
    const scheduler: PeriodicSamplingScheduler
    var clock: real
    var owningThreadTaskRunner: bool
    var alive: bool
    var tasks: seq<Task>
    var collections: seq<Collection>
    ghost var plans: seq<Plan>

    ghost function View(): State
      reads this, scheduler
    {
      State(scheduler.Settings(), clock, scheduler.periodStartTime, owningThreadTaskRunner,
            alive, tasks, collections, plans)
    }

    /** `hasRunner`: the task runner is supplied, as for a child thread. */
    constructor (hasRunner: bool, now: real, draw: real)
      requires 0.0 <= draw <= 1.0
      ensures fresh(scheduler) && Inv(View())
      ensures var initial := Initial(Config(30.0, 1500.0), now);
        View() == if hasRunner then Apply(initial, SetRunner(draw)) else initial
    {
      var sampling := SAMPLES_PER_PROFILE * SAMPLING_INTERVAL;
      scheduler := new PeriodicSamplingScheduler(sampling, FRACTION_OF_EXECUTION_TIME_TO_SAMPLE, now + sampling);
      clock, owningThreadTaskRunner, alive := now, hasRunner, true;
      tasks, collections, plans := [], [], [];
      new;
      InitialInv(Config(30.0, 1500.0), now);
      if hasRunner {
        InvStep(Initial(Config(30.0, 1500.0), now), SetRunner(draw));
        ScheduleNextPeriodicCollection(draw);
      }
    }

    method ScheduleNextPeriodicCollection(draw: real)
      requires scheduler.Settings().Valid() && owningThreadTaskRunner
      modifies `tasks, `plans, scheduler
      ensures View() == Scheduled(old(View()), draw)
    {
      plans := plans + [Planned(scheduler.Settings(), scheduler.periodStartTime, Request(clock, draw))];
      var delay := scheduler.GetTimeToNextCollection(clock, draw);
      tasks := tasks + [Start(clock + delay)];
    }

    method SetMainThreadTaskRunner(draw: real)
      requires Inv(View()) && Enabled(View(), SetRunner(draw))
      modifies this, scheduler
      ensures View() == Apply(old(View()), SetRunner(draw)) && Inv(View())
    {
      InvStep(View(), SetRunner(draw));
      owningThreadTaskRunner := true;
      ScheduleNextPeriodicCollection(draw);
    }

    /** Destroys the previous profiler, which has completed, and starts a new one. */
    method StartPeriodicSamplingCollection(ghost draw: real)
      requires Inv(View()) && alive && tasks != [] && tasks[0].Start? && Enabled(View(), RunTask(0, draw))
      modifies this
      ensures View() == Apply(old(View()), RunTask(0, draw)) && Inv(View())
    {
      InvStep(View(), RunTask(0, draw));
      ReplacedProfilerHasCompleted(View(), 0, draw);
      tasks := tasks[1..];
      collections := collections + [Collection(clock, None)];
    }

    method OnPeriodicCollectionCompleted()
      requires Inv(View()) && Enabled(View(), Complete)
      modifies this
      ensures View() == Apply(old(View()), Complete) && Inv(View())
    {
      InvStep(View(), Complete);
      var last := |collections| - 1;
      collections := collections[last := collections[last].(completed := Some(clock))];
      tasks := tasks + [Reschedule];
    }
  }
}
