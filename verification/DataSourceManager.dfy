/**
 * The data source manager itself: the shared fields of the step system of
 * DataSourceDeletion, and the operations that change them. Each operation, run
 * by one thread without interruption, is proved to be a run of that system, so
 * the results there are about this code.
 */
module DataSourceManager {
  import opened Options
  import opened DataSourceDeletion

  class URLDataManager {
    var refs: map<Source, nat>
    var dataSources: Option<seq<Source>>
    var lock: Option<Thread>
    var queue: nat
    var accepting: bool
    var destroyed: seq<Destruction>

    /** The state of the step system, given where the threads are. */
    ghost function View(pcs: map<Thread, Pc>): State
      reads this
    {
      State(refs, dataSources, lock, pcs, queue, accepting, destroyed)
    }

    constructor ()
      ensures View(map[]) == Initial
    {
      refs, dataSources, lock := map[], None, None;
      queue, accepting, destroyed := 0, true, [];
    }

    method AcquireLock(t: Thread)
      requires lock.None?
      modifies `lock
      ensures lock == Some(t)
    {
      lock := Some(t);
    }

    method ReleaseLock(t: Thread)
      requires lock == Some(t)
      modifies `lock
      ensures lock.None?
    {
      lock := None;
    }

    method Delete(src: Source)
      modifies `destroyed
      ensures destroyed == old(destroyed) + [Destruction(src, UI)]
    {
      destroyed := destroyed + [Destruction(src, UI)];
    }

    /** Called when the last reference has been released on thread `t`. */
    method DeleteDataSource(t: Thread, src: Source, ghost pcs: map<Thread, Pc>)
      requires lock.None?
      requires t != UI ==> View(pcs).At(t) == Released(src)
      modifies `dataSources, `lock, `queue, `destroyed
      ensures t == UI ==> View(pcs) == old(View(pcs)).(destroyed := old(destroyed) + [Destruction(src, UI)])
      ensures t != UI ==>
        && dataSources == Some(old(dataSources).GetOr([]) + [src])
        && Legal(old(View(pcs)), EnqueueSteps(old(View(pcs)), t))
        && View(pcs[t := Idle]) == Run(old(View(pcs)), EnqueueSteps(old(View(pcs)), t))
    {
      if t == UI {
        Delete(src);
        return;
      }
      EnqueueRun(View(pcs), t, src);
      var scheduleDelete := false;
      AcquireLock(t);
      if dataSources.None? {
        dataSources := Some([]);
      }
      scheduleDelete := dataSources.value == [];
      dataSources := Some(dataSources.value + [src]);
      ReleaseLock(t);
      if scheduleDelete && accepting {
        queue := queue + 1;
      }
    }

    /** Releases one reference on thread `t`. */
    method Release(t: Thread, src: Source, ghost pcs: map<Thread, Pc>)
      requires lock.None? && Enabled(View(pcs), Drop(t, src)) && View(pcs).At(t).Idle?
      modifies this
      ensures refs == old(refs)[src := old(refs)[src] - 1]
      ensures Legal(old(View(pcs)), [Drop(t, src)])
      ensures refs[src] > 0 || t == UI ==> View(pcs) == Run(old(View(pcs)), [Drop(t, src)])
      ensures refs[src] == 0 && t != UI ==>
        var dropped := Run(old(View(pcs)), [Drop(t, src)]);
        Legal(dropped, EnqueueSteps(dropped, t)) && View(pcs[t := Idle]) == Run(dropped, EnqueueSteps(dropped, t))
    {
      refs := refs[src := refs[src] - 1];
      if refs[src] == 0 {
        if t == UI {
          DeleteDataSource(t, src, pcs);
        } else {
          GotoTwice(View(pcs), t, Released(src), Idle);
          DeleteDataSource(t, src, pcs[t := Released(src)]);
        }
      }
    }

    /** Destroys everything on the list, on the UI thread. */
    method DeleteDataSources(ghost pcs: map<Thread, Pc>)
      requires lock.None? && View(pcs).At(UI).Idle?
      modifies this
      ensures dataSources.GetOr([]) == []
      ensures Victims(destroyed) == Victims(old(destroyed)) + old(dataSources).GetOr([])
      ensures refs == old(refs)
      ensures var s := old(View(pcs));
        && Legal(s, SweepTrace(|s.Pending()|))
        && var s' := Run(s, SweepTrace(|s.Pending()|)); View(s'.pcs) == s'
    {
      ghost var s := View(pcs);
      ghost var s' := ForcedSweep(s);
      var sources := [];
      AcquireLock(UI);
      if dataSources.None? {
        ReleaseLock(UI);
        assert Destructions([]) == [];
        return;
      }
      sources, dataSources := dataSources.value, Some([]);
      ReleaseLock(UI);
      for i := 0 to |sources|
        invariant View(pcs) == s.(list := Some([]), destroyed := s.destroyed + Destructions(sources[..i]))
      {
        assert Destructions(sources[..i + 1]) == Destructions(sources[..i]) + [Destruction(sources[i], UI)];
        Delete(sources[i]);
      }
      assert sources[..|sources|] == sources;
    }

    method IsScheduledForDeletion(src: Source) returns (scheduled: bool)
      requires lock.None?
      modifies `lock
      ensures lock.None?
      ensures scheduled <==> src in dataSources.GetOr([])
    {
      AcquireLock(UI);
      if dataSources.None? {
        ReleaseLock(UI);
        return false;
      }
      scheduled := src in dataSources.value;
      ReleaseLock(UI);
    }

    /** The response's task holds a reference, added here, until it has run on IO. */
    method SendResponse(src: Source, ghost holding: bool, ghost pcs: map<Thread, Pc>)
      requires lock.None? && Enabled(View(pcs), Send(src, holding))
      modifies this
      ensures Legal(old(View(pcs)), SendTrace(src, holding))
      ensures View(pcs[UI := Idle]) == Run(old(View(pcs)), SendTrace(src, holding))
      ensures src in old(dataSources).GetOr([]) ==> refs == old(refs)
      ensures src !in old(dataSources).GetOr([]) ==> refs == old(refs)[src := old(refs)[src] + 1]
    {
      SendRun(View(pcs), src, holding);
      var scheduled := IsScheduledForDeletion(src);
      if scheduled {
        return;
      }
      refs := refs[src := refs[src] + 1];
    }
  }
}
