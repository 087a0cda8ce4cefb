/**
 * Smoothing runs of duplicate timestamps, in microseconds, while letting time
 * jump backwards.
 */
module TimeSmoothing {
  /** base::Time's null value, which both marks start from. */
  const NULL_TIME := 0

  /** The first and the last time of the current run of adjusted times. */
  datatype Marks = Marks(low: int, high: int)

  const Initial := Marks(NULL_TIME, NULL_TIME)

  function Moved(m: Marks, t: int): Marks {
    if m.low <= t <= m.high then m.(high := m.high + 1) else Marks(t, t)
  }

  function MarksAfter(m: Marks, times: seq<int>): Marks {
    if times == [] then m else Moved(MarksAfter(m, times[..|times| - 1]), times[|times| - 1])
  }

  /** The smoothed times of a run of calls. */
  function Smoothed(m: Marks, times: seq<int>): (out: seq<int>)
    ensures |out| == |times|
  {
    if times == [] then []
    else Smoothed(m, times[..|times| - 1]) + [MarksAfter(m, times).high]
  }

  class TimeSmoother {
    var lowWaterMark: int
    var highWaterMark: int

    function View(): Marks
      reads this
    {
      Marks(lowWaterMark, highWaterMark)
    }

    constructor ()
      ensures View() == Initial
    {
      lowWaterMark, highWaterMark := NULL_TIME, NULL_TIME;
    }

    method GetSmoothedTime(t: int) returns (smoothed: int)
      modifies this
      ensures View() == Moved(old(View()), t) && smoothed == highWaterMark
    {
      if lowWaterMark <= t && t <= highWaterMark {
        highWaterMark := highWaterMark + 1;
        return highWaterMark;
      }
      lowWaterMark, highWaterMark := t, t;
      return t;
    }
  }

  lemma SmoothedAt(m: Marks, times: seq<int>, k: nat)
    requires k < |times|
    ensures Smoothed(m, times)[k] == MarksAfter(m, times[..k + 1]).high
    decreases |times|
  {
    if k == |times| - 1 {
      assert times[..k + 1] == times;
    } else {
      var rest := times[..|times| - 1];
      assert rest[..k + 1] == times[..k + 1];
      SmoothedAt(m, rest, k);
    }
  }

  lemma MarksStep(m: Marks, times: seq<int>, k: nat)
    requires k < |times|
    ensures MarksAfter(m, times[..k + 1]) == Moved(MarksAfter(m, times[..k]), times[k])
  {
    assert times[..k + 1][..k] == times[..k];
  }

  // ------------------------------------------------------ times that do not fall

  ghost predicate Ascending(times: seq<int>) {
    forall i, j :: 0 <= i < j < |times| ==> times[i] <= times[j]
  }

  /** `v` is the largest of times[j] + (k - j) for j up to k: each input pushes the
      later outputs one microsecond further apart. */
  ghost predicate IsLatest(times: seq<int>, k: nat, v: int)
    requires k < |times|
  {
    && (forall j :: 0 <= j <= k ==> times[j] + (k - j) <= v)
    && (exists j :: 0 <= j <= k && times[j] + (k - j) == v)
  }

  lemma LatestStep(times: seq<int>, k: nat, v: int)
    requires k + 1 < |times| && IsLatest(times, k, v)
    ensures IsLatest(times, k + 1, if times[k + 1] <= v then v + 1 else times[k + 1])
  {
    if times[k + 1] <= v {
      var j :| 0 <= j <= k && times[j] + (k - j) == v;
      assert times[j] + (k + 1 - j) == v + 1;
    }
  }

  lemma {:induction false} MarksAreLatest(times: seq<int>, k: nat)
    requires Ascending(times) && k < |times| && times[0] != NULL_TIME
    ensures var m := MarksAfter(Initial, times[..k + 1]);
      IsLatest(times, k, m.high) && m.low <= times[k]
  {
    MarksStep(Initial, times, k);
    if k == 0 {
      assert times[..0] == [];
    } else {
      MarksAreLatest(times, k - 1);
      LatestStep(times, k - 1, MarksAfter(Initial, times[..k]).high);
    }
  }

  /** Main result: for times that do not fall, the k-th output has the closed form
      exactly when the first time is not the null time; outputs then increase. */
  lemma {:induction false} ClosedForm(times: seq<int>)
    requires Ascending(times) && times != []
    ensures (forall k: nat :: k < |times| ==> IsLatest(times, k, Smoothed(Initial, times)[k]))
            <==> times[0] != NULL_TIME
  {
    SmoothedAt(Initial, times, 0);
    MarksStep(Initial, times, 0);
    assert times[..0] == [];
    if times[0] != NULL_TIME {
      forall k: nat | k < |times| ensures IsLatest(times, k, Smoothed(Initial, times)[k]) {
        MarksAreLatest(times, k);
        SmoothedAt(Initial, times, k);
      }
    } else {
      assert !IsLatest(times, 0, Smoothed(Initial, times)[0]);
    }
  }

  lemma NullTimeIsMoved()
    ensures Smoothed(Initial, [NULL_TIME]) == [NULL_TIME + 1]
  {
    var times := [NULL_TIME];
    assert times[..0] == [] && times[..1] == times;
    SmoothedAt(Initial, times, 0);
    MarksStep(Initial, times, 0);
  }

  lemma {:induction false} OutputsIncrease(times: seq<int>, k: nat)
    requires Ascending(times) && k + 1 < |times| && times[0] != NULL_TIME
    ensures Smoothed(Initial, times)[k] < Smoothed(Initial, times)[k + 1]
  {
    MarksAreLatest(times, k);
    MarksAreLatest(times, k + 1);
    SmoothedAt(Initial, times, k);
    SmoothedAt(Initial, times, k + 1);
    var j :| 0 <= j <= k && times[j] + (k - j) == Smoothed(Initial, times)[k];
    assert times[j] + (k + 1 - j) <= Smoothed(Initial, times)[k + 1];
  }

  // ---------------------------------------------------------------- all times

  /** Main result: whatever the times, consecutive outputs differ, and an output
      differs from its input only inside a run. */
  lemma {:induction false} ConsecutiveOutputsDiffer(m: Marks, times: seq<int>, k: nat)
    requires k + 1 < |times|
    ensures Smoothed(m, times)[k] != Smoothed(m, times)[k + 1]
    ensures m.low <= m.high ==>
      var before := MarksAfter(m, times[..k + 1]);
      (Smoothed(m, times)[k + 1] != times[k + 1] <==> before.low <= times[k + 1] <= before.high)
  {
    SmoothedAt(m, times, k);
    SmoothedAt(m, times, k + 1);
    MarksStep(m, times, k);
    MarksStep(m, times, k + 1);
  }

  /** `j` is the last call before `k` whose output was its input. */
  ghost predicate LastUnchanged(times: seq<int>, out: seq<int>, j: nat, k: nat) {
    && j < k <= |times| == |out|
    && out[j] == times[j]
    && forall i :: j < i < k ==> out[i] != times[i]
  }

  /** The marks are that call's time and the latest output. */
  lemma {:induction false} MarksByOutputs(m: Marks, times: seq<int>, j: nat, k: nat)
    requires LastUnchanged(times, Smoothed(m, times), j, k)
    ensures MarksAfter(m, times[..k]) == Marks(times[j], Smoothed(m, times)[k - 1])
    decreases k
  {
    SmoothedAt(m, times, k - 1);
    MarksStep(m, times, k - 1);
    if k > j + 1 {
      MarksByOutputs(m, times, j, k - 1);
    }
  }

  /** Main result, in inputs and outputs alone: an output differs from its input
      exactly when the input lies between the last time that was returned as it was
      and the latest output, both included; it is then one more than that output. */
  lemma {:induction false} ChangedIffInRun(m: Marks, times: seq<int>, j: nat, k: nat)
    requires k < |times| && LastUnchanged(times, Smoothed(m, times), j, k)
    ensures var out := Smoothed(m, times);
      && (out[k] != times[k] <==> times[j] <= times[k] <= out[k - 1])
      && (out[k] != times[k] ==> out[k] == out[k - 1] + 1)
  {
    MarksByOutputs(m, times, j, k);
    SmoothedAt(m, times, k);
    MarksStep(m, times, k);
  }

  /** The outputs since the marks were last reset are low, low + 1, ..., high. */
  ghost predicate EndsInRun(out: seq<int>, m: Marks) {
    var n := m.high - m.low + 1;
    && 1 <= n <= |out|
    && forall k :: |out| - n <= k < |out| ==> out[k] == m.high - (|out| - 1 - k)
  }

  /** Every time falls into the run that the null marks themselves start, so the
      marks have never been reset. */
  ghost predicate NeverReset(times: seq<int>) {
    forall k :: 0 <= k < |times| ==> NULL_TIME <= times[k] <= NULL_TIME + k
  }

  lemma NeverResetStep(times: seq<int>)
    requires times != []
    ensures var rest, t := times[..|times| - 1], times[|times| - 1];
      NeverReset(times) <==> NeverReset(rest) && NULL_TIME <= t <= NULL_TIME + |rest|
  {
    var rest, t := times[..|times| - 1], times[|times| - 1];
    if NeverReset(rest) && NULL_TIME <= t <= NULL_TIME + |rest| {
      forall k | 0 <= k < |times| ensures NULL_TIME <= times[k] <= NULL_TIME + k {
        if k < |rest| { assert times[k] == rest[k]; }
      }
    }
    if NeverReset(times) {
      forall k | 0 <= k < |rest| ensures NULL_TIME <= rest[k] <= NULL_TIME + k {
        assert rest[k] == times[k];
      }
    }
  }

  lemma {:induction false} MarksBeforeReset(times: seq<int>)
    requires NeverReset(times)
    ensures MarksAfter(Initial, times) == Marks(NULL_TIME, NULL_TIME + |times|)
    decreases |times|
  {
    if times != [] {
      NeverResetStep(times);
      MarksBeforeReset(times[..|times| - 1]);
    }
  }

  /** Main result: each adjusted run has emitted its watermark range without gaps,
      exactly when the marks have been reset at least once. */
  lemma {:induction false} RunsHaveNoGaps(times: seq<int>)
    ensures EndsInRun(Smoothed(Initial, times), MarksAfter(Initial, times)) <==> !NeverReset(times)
    decreases |times|
  {
    if times != [] {
      var rest := times[..|times| - 1];
      NeverResetStep(times);
      if NeverReset(rest) { MarksBeforeReset(rest); }
      RunsHaveNoGaps(rest);
    }
  }

  /** Before the first reset the whole range but the null time has been emitted. */
  lemma {:induction false} OutputsBeforeReset(times: seq<int>, k: nat)
    requires NeverReset(times) && k < |times|
    ensures Smoothed(Initial, times)[k] == NULL_TIME + 1 + k
  {
    SmoothedAt(Initial, times, k);
    assert forall j :: 0 <= j <= k ==> times[..k + 1][j] == times[j];
    MarksBeforeReset(times[..k + 1]);
  }
}
