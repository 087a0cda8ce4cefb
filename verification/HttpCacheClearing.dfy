/**
 * Clearing the HTTP cache: two asynchronous calls in a row, each of which answers
 * either by its return value or by a callback, and one callback for the client.
 * A callback that may be used on either way is split in two halves. Only one of
 * them may be run: the second finds the callback gone, which is a fault.
 */
module HttpCacheClearing {
  const ERR_IO_PENDING := -1

  /** One of the two asynchronous calls, as its callback's owner sees it. */
  datatype Request = NotMade | Waiting | Answered

  datatype State = State(
    started: bool,            // the task on the network thread has run
    getBackend: Request,
    backend: bool,            // *backend is not null
    doomRun: bool,            // a half of the doom callback has been run
    doomEntries: Request,
    clientQueue: seq<int>,    // halves of the client's callback on its task runner
    clientRun: bool,          // a half of the client's callback has been run
    delivered: seq<int>,      // results its callback has been run with
    fault: bool)              // a second half of some callback has been run

  const Initial := State(false, NotMade, false, false, NotMade, [], false, [], false)

  /** A half of the client's callback goes to the client's task runner. */
  function Posted(s: State, result: int): State {
    s.(clientQueue := s.clientQueue + [result])
  }

  /** DoomHttpCache; `rv` is what DoomEntriesBetween would return. */
  function Doomed(s: State, error: int, rv: int): State {
    if !s.backend then Posted(s, error)
    else if rv == ERR_IO_PENDING then s.(doomEntries := Waiting)
    else Posted(s.(doomEntries := Answered), rv)
  }

  /** Running a half of the doom callback. */
  function DoomOnce(s: State, error: int, rv: int): State {
    if s.doomRun then s.(fault := true) else Doomed(s.(doomRun := true), error, rv)
  }

  datatype Event =
    | RunOnNetworkThread(backendRv: int, filled: bool, doomRv: int)
    | BackendReady(error: int, filled: bool, doomRv: int)  // GetBackend's callback
    | EntriesDoomed(result: int)                           // DoomEntriesBetween's callback
    | RunOnClientThread

  /** Callbacks may come at any time and any number of times after the call. */
  predicate Enabled(s: State, ev: Event) {
    match ev
    case RunOnNetworkThread(_, _, _) => !s.started
    case BackendReady(_, _, _) => !s.getBackend.NotMade?
    case EntriesDoomed(_) => !s.doomEntries.NotMade?
    case RunOnClientThread => s.clientQueue != []
  }

  function Apply(s: State, ev: Event): State
    requires Enabled(s, ev)
  {
    match ev
    case RunOnNetworkThread(backendRv, filled, doomRv) =>
      var s' := s.(started := true, backend := filled);
      if backendRv == ERR_IO_PENDING then s'.(getBackend := Waiting)
      else DoomOnce(s'.(getBackend := Answered), backendRv, doomRv)
    case BackendReady(error, filled, doomRv) =>
      DoomOnce(s.(getBackend := Answered, backend := s.backend || filled), error, doomRv)
    case EntriesDoomed(result) => Posted(s.(doomEntries := Answered), result)
    case RunOnClientThread =>
      var s' := s.(clientQueue := s.clientQueue[1..]);
      if s.clientRun then s'.(fault := true)
      else s'.(clientRun := true, delivered := s.delivered + [s.clientQueue[0]])
  }

  predicate Legal(s: State, evs: seq<Event>)
    decreases |evs|
  {
    evs == [] || (Enabled(s, evs[0]) && Legal(Apply(s, evs[0]), evs[1..]))
  }

  function Run(s: State, evs: seq<Event>): State
    requires Legal(s, evs)
    decreases |evs|
  {
    if evs == [] then s else Run(Apply(s, evs[0]), evs[1..])
  }

  // -------------------------------------------------------------- exactly once

  /** The cache calls back exactly when it has said that it would. */
  predicate Expected(s: State, ev: Event) {
    match ev
    case BackendReady(_, _, _) => s.getBackend.Waiting?
    case EntriesDoomed(_) => s.doomEntries.Waiting?
    case _ => true
  }

  predicate KeepsPromises(s: State, evs: seq<Event>)
    requires Legal(s, evs)
    decreases |evs|
  {
    evs == [] || (Expected(s, evs[0]) && KeepsPromises(Apply(s, evs[0]), evs[1..]))
  }

  /** How many things the client's callback is still waiting for. */
  function Outstanding(s: State): nat {
    (if s.started then 0 else 1) + (if s.getBackend.Waiting? then 1 else 0) +
    (if s.doomEntries.Waiting? then 1 else 0)
  }

  /** Runs of the client's callback, which its first half only can make. */
  function Runs(s: State): nat {
    if s.clientRun then 1 else 0
  }

  predicate Progress(s: State) {
    && |s.delivered| == Runs(s) && !s.fault
    && Outstanding(s) + |s.clientQueue| + |s.delivered| == 1
    && (s.started <==> !s.getBackend.NotMade?)
    && (s.doomRun <==> s.getBackend.Answered?)
    && (!s.doomEntries.NotMade? ==> s.doomRun && s.backend)
    && (|s.clientQueue| + |s.delivered| > 0 && s.backend ==> s.doomEntries.Answered?)
  }

  lemma {:induction false} ProgressRun(s: State, evs: seq<Event>)
    requires Progress(s) && Legal(s, evs) && KeepsPromises(s, evs)
    ensures Progress(Run(s, evs))
    decreases |evs|
  {
    if evs != [] {
      ProgressRun(Apply(s, evs[0]), evs[1..]);
    }
  }

  /** Main result: with a cache that keeps its promises, the client's callback has
      been run exactly when nothing is outstanding or queued any more, and then
      exactly once; no two halves of a callback are ever both run. */
  lemma ExactlyOnceAtTheEnd(evs: seq<Event>)
    requires Legal(Initial, evs) && KeepsPromises(Initial, evs)
    ensures var s := Run(Initial, evs);
      && |s.delivered| <= 1 && !s.fault
      && (|s.delivered| == 1 <==> Outstanding(s) == 0 && s.clientQueue == [])
      && (|s.delivered| == 1 ==> (s.backend <==> s.doomEntries.Answered?))
  {
    ProgressRun(Initial, evs);
  }

  /** A half too many has been run, or is on its way to the client. */
  predicate HalfTooMany(s: State) {
    s.fault || |s.clientQueue| + Runs(s) >= 2
  }

  lemma {:induction false} BrokenRun(s: State, evs: seq<Event>)
    requires Legal(s, evs) && HalfTooMany(s)
    ensures HalfTooMany(Run(s, evs))
    decreases |evs|
  {
    if evs != [] {
      BrokenRun(Apply(s, evs[0]), evs[1..]);
    }
  }

  lemma {:induction false} BrokenPromiseShows(s: State, evs: seq<Event>)
    requires Progress(s) && Legal(s, evs) && !KeepsPromises(s, evs)
    ensures HalfTooMany(Run(s, evs))
    decreases |evs|
  {
    var s' := Apply(s, evs[0]);
    if Expected(s, evs[0]) {
      BrokenPromiseShows(s', evs[1..]);
    } else {
      assert HalfTooMany(s');
      BrokenRun(s', evs[1..]);
    }
  }

  /** Main result: once the client's queue is drained, both halves of some callback
      have been run exactly when the cache has broken its promise to call back only
      after saying so, and only once; with the promise kept they never are. */
  lemma FaultIffPromiseBroken(evs: seq<Event>)
    requires Legal(Initial, evs)
    ensures Run(Initial, evs).fault ==> !KeepsPromises(Initial, evs)
    ensures Run(Initial, evs).clientQueue == [] ==>
      (Run(Initial, evs).fault <==> !KeepsPromises(Initial, evs))
  {
    if KeepsPromises(Initial, evs) {
      ProgressRun(Initial, evs);
    } else {
      BrokenPromiseShows(Initial, evs);
    }
  }

  /** What the client is told, for each way the two calls can answer. */
  function Outcome(backendResult: int, filled: bool, doomResult: int): int {
    if filled then doomResult else backendResult
  }

  /** Main result: whichever of the two calls answers by callback, the client gets
      the backend's error when there is no backend and else the doom's result. */
  lemma OutcomeIsTheSameEitherWay(backendResult: int, filled: bool, doomResult: int,
                                  backendAsync: bool, doomAsync: bool)
    requires backendResult != ERR_IO_PENDING && doomResult != ERR_IO_PENDING
    ensures var rv := if doomAsync then ERR_IO_PENDING else doomResult;
      var evs :=
        (if backendAsync then [RunOnNetworkThread(ERR_IO_PENDING, false, rv), BackendReady(backendResult, filled, rv)]
         else [RunOnNetworkThread(backendResult, filled, rv)]) +
        (if filled && doomAsync then [EntriesDoomed(doomResult)] else []);
      && Legal(Initial, evs) && KeepsPromises(Initial, evs)
      && Run(Initial, evs).clientQueue == [Outcome(backendResult, filled, doomResult)]
      && Enabled(Run(Initial, evs), RunOnClientThread)
      && Apply(Run(Initial, evs), RunOnClientThread).delivered == [Outcome(backendResult, filled, doomResult)]
  {
    var rv := if doomAsync then ERR_IO_PENDING else doomResult;
    var first := if backendAsync then RunOnNetworkThread(ERR_IO_PENDING, false, rv)
                 else RunOnNetworkThread(backendResult, filled, rv);
    var s1 := Apply(Initial, first);
    var last := if filled && doomAsync then [EntriesDoomed(doomResult)] else [];
    if backendAsync {
      var ready := BackendReady(backendResult, filled, rv);
      var s2 := Apply(s1, ready);
      LastStep(s2, doomResult, last);
      assert ([ready] + last)[1..] == last;
      assert Legal(s1, [ready] + last) && Run(s1, [ready] + last) == Run(s2, last);
      assert ([first, ready] + last)[1..] == [ready] + last;
    } else {
      LastStep(s1, doomResult, last);
      assert ([first] + last)[1..] == last;
    }
  }

  lemma LastStep(s: State, doomResult: int, last: seq<Event>)
    requires last == if s.doomEntries.Waiting? then [EntriesDoomed(doomResult)] else []
    ensures Legal(s, last) && KeepsPromises(s, last)
    ensures Run(s, last) == if s.doomEntries.Waiting? then Apply(s, EntriesDoomed(doomResult)) else s
  {
    if s.doomEntries.Waiting? {
      assert last[1..] == [];
    }
  }

  // ----------------------------------------------------------------- the class

  class HttpCacheHelper {
    var started: bool
    var getBackend: Request
    var backend: bool
    var doomRun: bool
    var doomEntries: Request
    var clientRun: bool
    var clientQueue: seq<int>
    var delivered: seq<int>
    var fault: bool

    function View(): State
      reads this
    {
      State(started, getBackend, backend, doomRun, doomEntries, clientQueue, clientRun, delivered, fault)
    }

    /** `rv` and `filled` are what GetBackend does, `doomRv` what the doom returns. */
    method ClearHttpCacheOnIOThread(rv: int, filled: bool, doomRv: int)
      requires !started
      modifies this
      ensures View() == Apply(old(View()), RunOnNetworkThread(rv, filled, doomRv))
    {
      started := true;
      backend := filled;
      if rv != ERR_IO_PENDING {
        getBackend := Answered;
        RunDoomCallback(rv, doomRv);
      } else {
        getBackend := Waiting;
      }
    }

    method OnBackendReady(error: int, filled: bool, doomRv: int)
      requires Enabled(View(), BackendReady(error, filled, doomRv))
      modifies this
      ensures View() == Apply(old(View()), BackendReady(error, filled, doomRv))
    {
      getBackend := Answered;
      backend := backend || filled;
      RunDoomCallback(error, doomRv);
    }

    /** A half of the split callback; running the second one is a fault. */
    method RunDoomCallback(error: int, doomRv: int)
      modifies `doomRun, `doomEntries, `clientQueue, `fault
      ensures View() == DoomOnce(old(View()), error, doomRv)
    {
      if doomRun {
        fault := true;
        return;
      }
      doomRun := true;
      DoomHttpCache(error, doomRv);
    }

    method DoomHttpCache(error: int, doomRv: int)
      modifies `doomEntries, `clientQueue
      ensures View() == Doomed(old(View()), error, doomRv)
    {
      if backend {
        if doomRv != ERR_IO_PENDING {
          doomEntries := Answered;
          PostCallback(doomRv);
        } else {
          doomEntries := Waiting;
        }
      } else {
        PostCallback(error);
      }
    }

    method PostCallback(result: int)
      modifies `clientQueue
      ensures View() == Posted(old(View()), result)
    {
      clientQueue := clientQueue + [result];
    }

    /** The client's task runner takes the next half of the client's callback. */
    method RunClientTask()
      requires clientQueue != []
      modifies `clientQueue, `clientRun, `delivered, `fault
      ensures View() == Apply(old(View()), RunOnClientThread)
    {
      var result := clientQueue[0];
      clientQueue := clientQueue[1..];
      if clientRun {
        fault := true;
      } else {
        clientRun := true;
        delivered := delivered + [result];
      }
    }
  }
}
