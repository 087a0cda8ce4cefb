/** A notification promo and the preference service it writes to. */
module NotificationPromos {
  import opened Options
  import opened PromoSessions

  class PrefService {
    var promos: Prefs

    constructor (promos: Prefs)
      ensures this.promos == promos
    {
      this.promos := promos;
    }
  }

  class NotificationPromo {
    const localState: PrefService
    var promoText: string
    var start: real
    var end: real
    var promoId: int
    var maxViews: int
    var maxSeconds: int
    var firstViewTime: real
    var views: int
    var closed: bool

    function Settings(): Params
      reads this
    {
      Params(promoId, promoText, start, end, maxViews, maxSeconds)
    }

    function Current(): Fields
      reads this
    {
      Fields(firstViewTime, views, closed)
    }

    constructor (localState: PrefService)
      ensures this.localState == localState
      ensures Current() == FRESH && Settings() == Params(UNSET_ID, [], 0.0, 0.0, 0, 0)
    {
      this.localState := localState;
      promoText, start, end, promoId := [], 0.0, 0.0, UNSET_ID;
      maxViews, maxSeconds, firstViewTime, views, closed := 0, 0, 0.0, 0, false;
    }

    /** The server's parameters, as InitFromJson stores them. */
    method SetParams(p: Params)
      modifies `promoText, `start, `end, `promoId, `maxViews, `maxSeconds
      ensures Settings() == p
    {
      promoId, promoText, start, end := p.id, p.text, p.start, p.end;
      maxViews, maxSeconds := p.maxViews, p.maxSeconds;
    }

    method InitFromPrefs()
      modifies `firstViewTime, `views, `closed
      ensures Current() == LoadedInto(old(Current()), localState.promos, promoId)
      ensures promoId == UNSET_ID || promoId !in localState.promos ==> Current() == old(Current())
      ensures promoId != UNSET_ID && promoId in localState.promos ==>
        var stored := localState.promos[promoId];
        && firstViewTime == (if stored.firstViewTime.Some? then stored.firstViewTime.value else old(firstViewTime))
        && views == (if stored.views.Some? then stored.views.value else old(views))
        && closed == (if stored.closed.Some? then stored.closed.value else old(closed))
    {
      if promoId == UNSET_ID {
        return;
      }
      if promoId !in localState.promos {
        return;
      }
      var ntpPromo := localState.promos[promoId];
      firstViewTime := ntpPromo.firstViewTime.GetOr(firstViewTime);
      if ntpPromo.views.Some? {
        views := ntpPromo.views.value;
      }
      closed := ntpPromo.closed.GetOr(closed);
    }

    method WritePrefs(id: int, firstViewTime: real, views: int, closed: bool)
      modifies localState
      ensures localState.promos == Written(old(localState.promos), id, Fields(firstViewTime, views, closed))
      ensures localState.promos ==
        old(localState.promos)[id := Stored(Some(firstViewTime), Some(views), Some(closed))]
    {
      localState.promos := localState.promos[id := Stored(Some(firstViewTime), Some(views), Some(closed))];
    }

    method HandleClosed(ghost now: real)
      modifies localState
      ensures localState.promos == Recorded(old(localState.promos), promoId, Current(), Event(Close, now))
      ensures closed ==> localState.promos == old(localState.promos)
      ensures !closed ==>
        localState.promos == old(localState.promos)[promoId := Stored(Some(firstViewTime), Some(views), Some(true))]
    {
      if !closed {
        WritePrefs(promoId, firstViewTime, views, true);
      }
    }

    method HandleViewed(now: real)
      modifies localState
      ensures localState.promos == Recorded(old(localState.promos), promoId, Current(), Event(View, now))
      ensures localState.promos == old(localState.promos)[promoId :=
        Stored(Some(if firstViewTime == 0.0 then now else firstViewTime), Some(views + 1), Some(closed))]
    {
      var newViews := views + 1;
      var newFirstViewTime := firstViewTime;
      if newFirstViewTime == 0.0 {
        newFirstViewTime := now;
      }
      WritePrefs(promoId, newFirstViewTime, newViews, closed);
    }

    predicate Showable(now: real)
      reads this
    {
      CanShow(Settings(), Current(), now)
    }
  }

  /** A session: a fresh promo is loaded, and what happens while it can be shown is
      recorded. */
  method RunSession(localState: PrefService, p: Params, events: seq<Event>)
    modifies localState
    ensures localState.promos == AfterSession(old(localState.promos), p, events)
  {
    ghost var prefs := localState.promos;
    var promo := new NotificationPromo(localState);
    promo.SetParams(p);
    promo.InitFromPrefs();
    for i := 0 to |events|
      invariant promo.localState == localState && promo.Settings() == p
      invariant promo.Current() == Loaded(prefs, p.id)
      invariant localState.promos ==
        RecordedAll(prefs, p.id, promo.Current(), Shown(p, promo.Current(), events[..i]))
    {
      assert events[..i + 1][..i] == events[..i];
      ghost var before := Shown(p, promo.Current(), events[..i]);
      if promo.Showable(events[i].now) {
        assert (before + [events[i]])[..|before|] == before;
        match events[i].kind {
          case View => promo.HandleViewed(events[i].now);
          case Close => promo.HandleClosed(events[i].now);
        }
      }
    }
    assert events[..|events|] == events;
  }
}
