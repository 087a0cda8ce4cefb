/**
 * The scheduler that picks one collection window at random in each period.
 * Times are in seconds; clock readings are arbitrary and may jump back.
 */
module SamplingScheduler {
  /** One window of length `sampling` in every `period`. */
  datatype Config = Config(sampling: real, period: real) {
    predicate Valid() {
      0.0 < sampling <= period
    }

    /** How far into its period a window may start. */
    function Slack(): real {
      period - sampling
    }
  }

  /** One answer: asked at `now`, the window [start, start + sampling] was chosen
      in the period that begins at `begin`. */
  datatype Plan = Plan(now: real, begin: real, start: real) {
    function Delay(): real {
      start - now
    }
  }

  /** A clock reading and a draw from [0, 1]. */
  datatype Request = Request(now: real, draw: real)

  predicate DrawsInRange(requests: seq<Request>) {
    forall i :: 0 <= i < |requests| ==> 0.0 <= requests[i].draw <= 1.0
  }

  function Max(a: real, b: real): real {
    if a < b then b else a
  }

  /** Where in its period a window starts, for a draw from [0, 1]. */
  function Offset(c: Config, draw: real): real {
    c.Slack() * draw
  }

  function Planned(c: Config, periodStart: real, r: Request): Plan
    requires c.Valid()
  {
    var begin := Max(periodStart, r.now);
    Plan(r.now, begin, begin + Offset(c, r.draw))
  }

  /** The answers to a run of requests. */
  function Plans(c: Config, periodStart: real, requests: seq<Request>): (plans: seq<Plan>)
    requires c.Valid()
    ensures |plans| == |requests|
    decreases |requests|
  {
    if requests == [] then []
    else
      var plan := Planned(c, periodStart, requests[0]);
      [plan] + Plans(c, plan.begin + c.period, requests[1..])
  }

  class PeriodicSamplingScheduler {
    const periodDuration: real
    const samplingDuration: real
    var periodStartTime: real

    function Settings(): Config {
      Config(samplingDuration, periodDuration)
    }

    /** The assertion in the body of the original holds exactly when the fraction
        is at most one. */
    constructor (sampling: real, fraction: real, startTime: real)
      requires sampling > 0.0 && 0.0 < fraction <= 1.0
      ensures Settings() == Config(sampling, sampling / fraction) && Settings().Valid()
      ensures periodStartTime == startTime
    {
      periodDuration := sampling / fraction;
      samplingDuration := sampling;
      periodStartTime := startTime;
      FractionGivesPeriod(sampling, fraction);
    }

    method GetTimeToNextCollection(now: real, randDouble: real) returns (delay: real)
      requires Settings().Valid()
      modifies `periodStartTime
      ensures var plan := Planned(Settings(), old(periodStartTime), Request(now, randDouble));
        delay == plan.Delay() && periodStartTime == plan.begin + periodDuration
    {
      if periodStartTime < now {
        periodStartTime := now;
      }
      var slack := periodDuration - samplingDuration;
      var samplingOffset := slack * randDouble;
      OffsetIsProduct(Settings(), slack, randDouble);
      var nextCollectionTime := periodStartTime + samplingOffset;
      periodStartTime := periodStartTime + periodDuration;
      delay := nextCollectionTime - now;
    }
  }

  // -------------------------------------------------------------- one request

  lemma OffsetIsProduct(c: Config, slack: real, draw: real)
    requires slack == c.Slack()
    ensures slack * draw == Offset(c, draw)
  {
  }

  lemma Scaled(x: real, draw: real)
    requires 0.0 <= x && 0.0 <= draw <= 1.0
    ensures 0.0 <= x * draw <= x
  {
    assert x * draw <= x * 1.0;
  }

  lemma OffsetInSlack(c: Config, draw: real)
    requires c.Valid() && 0.0 <= draw <= 1.0
    ensures 0.0 <= Offset(c, draw) <= c.Slack()
  {
    var slack := c.Slack();
    Scaled(slack, draw);
    assert Offset(c, draw) == slack * draw;
  }

  lemma Ordered(a: real, b: real, w: real)
    requires a < b && w > 0.0
    ensures a * w < b * w
  {
  }

  lemma FitsWhenFractionAtMostOne(sampling: real, period: real, fraction: real)
    requires sampling > 0.0 && 0.0 < fraction <= 1.0 && period * fraction == sampling
    ensures sampling <= period
  {
    if period < sampling {
      Ordered(period, sampling, fraction);
      Scaled(sampling, fraction);
      assert false;
    }
  }

  lemma FractionAtMostOneWhenFits(sampling: real, period: real, fraction: real)
    requires fraction > 0.0 && 0.0 < sampling <= period && period * fraction == sampling
    ensures fraction <= 1.0
  {
    if fraction > 1.0 {
      Ordered(1.0, fraction, period);
      assert false;
    }
  }

  /** A window of length `sampling` that takes `fraction` of its period fits into
      the period exactly when the fraction is at most one. */
  lemma FractionGivesPeriod(sampling: real, fraction: real)
    requires sampling > 0.0 && fraction > 0.0
    ensures (sampling / fraction) * fraction == sampling
    ensures sampling <= sampling / fraction <==> fraction <= 1.0
  {
    var period := sampling / fraction;
    assert period * fraction == sampling;
    if fraction <= 1.0 {
      FitsWhenFractionAtMostOne(sampling, period, fraction);
    } else if sampling <= period {
      FractionAtMostOneWhenFits(sampling, period, fraction);
    }
  }

  /** The delay is never negative and the window lies inside its period. */
  lemma WindowInPeriod(c: Config, periodStart: real, r: Request)
    requires c.Valid() && 0.0 <= r.draw <= 1.0
    ensures var plan := Planned(c, periodStart, r);
      && plan.Delay() >= 0.0 && plan.begin >= periodStart && plan.begin >= r.now
      && plan.begin <= plan.start && plan.start + c.sampling <= plan.begin + c.period
  {
    OffsetInSlack(c, r.draw);
  }

  /** The window moves evenly with the draw, from the period's begin to the latest
      place at which it still fits. */
  lemma DrawMovesEvenly(c: Config, periodStart: real, now: real, a: real, b: real, d: real, e: real)
    requires c.Valid() && a - b == d - e
    ensures Planned(c, periodStart, Request(now, a)).start - Planned(c, periodStart, Request(now, b)).start
         == Planned(c, periodStart, Request(now, d)).start - Planned(c, periodStart, Request(now, e)).start
    ensures Planned(c, periodStart, Request(now, 0.0)).start == Max(periodStart, now)
    ensures Planned(c, periodStart, Request(now, 1.0)).start == Max(periodStart, now) + c.Slack()
  {
    Difference(c.Slack(), a, b);
    Difference(c.Slack(), d, e);
  }

  lemma Difference(w: real, a: real, b: real)
    ensures w * a - w * b == w * (a - b)
  {
  }

  // ------------------------------------------------------------- many requests

  predicate InPeriod(c: Config, plan: Plan) {
    && plan.Delay() >= 0.0
    && plan.begin <= plan.start && plan.start + c.sampling <= plan.begin + c.period
  }

  ghost predicate WellSpaced(c: Config, periodStart: real, plans: seq<Plan>) {
    && (forall i :: 0 <= i < |plans| ==> InPeriod(c, plans[i]) && plans[i].begin >= periodStart)
    && (forall i, j :: 0 <= i < j < |plans| ==> plans[i].begin + c.period <= plans[j].begin)
  }

  /** Main result: for any clock readings and draws, every window lies in its own
      period, and periods never overlap. */
  lemma {:induction false} PlansAreWellSpaced(c: Config, periodStart: real, requests: seq<Request>)
    requires c.Valid() && DrawsInRange(requests)
    ensures WellSpaced(c, periodStart, Plans(c, periodStart, requests))
    decreases |requests|
  {
    if requests != [] {
      var plan := Planned(c, periodStart, requests[0]);
      WindowInPeriod(c, periodStart, requests[0]);
      var next, tail := plan.begin + c.period, requests[1..];
      PlansAreWellSpaced(c, next, tail);
      FirstPlan(c, periodStart, plan, Plans(c, next, tail));
    }
  }

  lemma FirstPlan(c: Config, periodStart: real, plan: Plan, rest: seq<Plan>)
    requires c.Valid() && InPeriod(c, plan) && plan.begin >= periodStart
    requires WellSpaced(c, plan.begin + c.period, rest)
    ensures WellSpaced(c, periodStart, [plan] + rest)
  {
  }

  /** So windows of different requests are disjoint, in the order of the requests. */
  lemma WindowsAreDisjoint(c: Config, periodStart: real, requests: seq<Request>, i: nat, j: nat)
    requires c.Valid() && DrawsInRange(requests) && i < j < |requests|
    ensures var plans := Plans(c, periodStart, requests);
      plans[i].start + c.sampling <= plans[j].start
  {
    PlansAreWellSpaced(c, periodStart, requests);
  }

  lemma {:induction false} SpanOfPeriods(c: Config, periodStart: real, requests: seq<Request>)
    requires c.Valid() && requests != []
    ensures var plans := Plans(c, periodStart, requests);
      plans[|plans| - 1].begin + c.period - plans[0].begin >= |plans| as real * c.period
    decreases |requests|
  {
    var plans := Plans(c, periodStart, requests);
    if |requests| > 1 {
      var next := plans[0].begin + c.period;
      SpanOfPeriods(c, next, requests[1..]);
      var rest := Plans(c, next, requests[1..]);
      assert plans[1..] == rest && rest[0].begin >= next;
      assert |rest| as real * c.period + c.period == |plans| as real * c.period;
    }
  }

  /** Main result: n windows take up at most the configured fraction of the time
      from the first period's begin to the last period's end. */
  lemma FractionIsRespected(c: Config, fraction: real, periodStart: real, requests: seq<Request>)
    requires c.Valid() && fraction > 0.0 && c.period * fraction == c.sampling
    requires requests != []
    ensures var plans := Plans(c, periodStart, requests);
      |plans| as real * c.sampling <= fraction * (plans[|plans| - 1].begin + c.period - plans[0].begin)
  {
    var plans := Plans(c, periodStart, requests);
    var span, n := plans[|plans| - 1].begin + c.period - plans[0].begin, |plans| as real;
    SpanOfPeriods(c, periodStart, requests);
    Weighted(fraction, n * c.period, span);
    assert fraction * (n * c.period) == n * (c.period * fraction);
  }

  lemma Weighted(w: real, a: real, b: real)
    requires 0.0 < w && a <= b
    ensures w * a <= w * b
  {
  }

  /** Asked again only after the window chosen before has ended. */
  predicate AskedAfterWindows(c: Config, plans: seq<Plan>) {
    forall i :: 0 < i < |plans| ==> plans[i].now >= plans[i - 1].start + c.sampling
  }

  lemma DelayAfterWindow(c: Config, before: Plan, r: Request)
    requires c.Valid() && 0.0 <= r.draw <= 1.0 && InPeriod(c, before)
    requires r.now >= before.start + c.sampling
    ensures Planned(c, before.begin + c.period, r).Delay() <= 2.0 * c.Slack()
  {
    OffsetInSlack(c, r.draw);
  }

  lemma SecondPlan(c: Config, periodStart: real, requests: seq<Request>)
    requires c.Valid() && |requests| > 1
    ensures Plans(c, periodStart, requests)[1]
         == Planned(c, Planned(c, periodStart, requests[0]).begin + c.period, requests[1])
  {
    var next, tail := Planned(c, periodStart, requests[0]).begin + c.period, requests[1..];
    assert tail[0] == requests[1];
    assert Plans(c, next, tail)[0] == Planned(c, next, tail[0]);
  }

  /** Main result: then every delay but the first is at most twice the slack,
      whatever the draws. */
  lemma {:induction false} DelaysAreBounded(c: Config, periodStart: real, requests: seq<Request>)
    requires c.Valid() && DrawsInRange(requests)
    requires AskedAfterWindows(c, Plans(c, periodStart, requests))
    ensures var plans := Plans(c, periodStart, requests);
      forall i :: 0 < i < |plans| ==> plans[i].Delay() <= 2.0 * c.Slack()
    decreases |requests|
  {
    if |requests| > 1 {
      var plans := Plans(c, periodStart, requests);
      var next := plans[0].begin + c.period;
      WindowInPeriod(c, periodStart, requests[0]);
      SecondPlan(c, periodStart, requests);
      assert plans[1].now == requests[1].now;
      DelayAfterWindow(c, plans[0], requests[1]);
      assert forall i :: 0 <= i < |plans| - 1 ==> plans[1..][i] == plans[i + 1];
      DelaysAreBounded(c, next, requests[1..]);
    }
  }

  /** The bound is attained: an earliest window followed by a latest one. */
  lemma BoundIsAttained(c: Config, periodStart: real)
    requires c.Valid()
    ensures var requests := [Request(periodStart, 0.0), Request(periodStart + c.sampling, 1.0)];
      var plans := Plans(c, periodStart, requests);
      AskedAfterWindows(c, plans) && plans[1].Delay() == 2.0 * c.Slack()
  {
    var requests := [Request(periodStart, 0.0), Request(periodStart + c.sampling, 1.0)];
    var first := Planned(c, periodStart, requests[0]);
    assert first.start == periodStart;
    assert requests[1..] == [requests[1]];
    var plans := Plans(c, periodStart, requests);
    var second := Planned(c, periodStart + c.period, requests[1]);
    assert Plans(c, periodStart + c.period, requests[1..]) == [second] + Plans(c, second.begin + c.period, []);
    assert plans == [first] + Plans(c, first.begin + c.period, requests[1..]);
    assert plans[1] == second;
  }
}
