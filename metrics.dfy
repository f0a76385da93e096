/** The prediction metrics (`update_metrics` over `prediction_metrics`).
    MetricsState is the value of the metrics dictionary; Apply is one
    `update_metrics` call; PredictionMetrics is the mutable dictionary itself,
    updated in place by its methods. */
module Metrics {
  import opened Common

  /** The arguments of one `update_metrics(predicted_class, inference_time, success)` call. */
  datatype MetricsUpdate = MetricsUpdate(predictedClass: int, inferenceTime: real, success: bool)

  /** The call every error path enqueues: `update_metrics(-1, 0, success=False)`. */
  const FailureUpdate: MetricsUpdate := MetricsUpdate(-1, 0.0, false)

  datatype MetricsState = MetricsState(
    totalPredictions: int,
    successfulPredictions: int,
    failedPredictions: int,
    averageInferenceTime: real,
    predictionsByClass: map<string, int>)

  /** What `update_metrics` needs to run without a KeyError or a division by zero. */
  predicate WellFormed(s: MetricsState)
  {
    ClassKeys() <= s.predictionsByClass.Keys && s.successfulPredictions >= 0
  }

  /** The ten class counts, in class order. */
  function ClassCounts(m: map<string, int>): (counts: seq<int>)
    requires ClassKeys() <= m.Keys
    ensures |counts| == NumClasses
    ensures forall i :: 0 <= i < NumClasses ==> counts[i] == m[ClassKey(i)]
  {
    seq(NumClasses, i requires 0 <= i < NumClasses => m[ClassKey(i)])
  }

  function SumInts(xs: seq<int>): int
  {
    if xs == [] then 0 else SumInts(xs[..|xs| - 1]) + xs[|xs| - 1]
  }

  /** The sum of all ten class counts. */
  function ClassTotal(m: map<string, int>): int
    requires ClassKeys() <= m.Keys
  {
    SumInts(ClassCounts(m))
  }

  /** The invariant every reachable metrics state satisfies. */
  predicate Inv(s: MetricsState)
  {
    && s.totalPredictions == s.successfulPredictions + s.failedPredictions
    && s.successfulPredictions >= 0
    && s.failedPredictions >= 0
    && s.predictionsByClass.Keys == ClassKeys()
    && (forall i :: 0 <= i < NumClasses ==> s.predictionsByClass[ClassKey(i)] >= 0)
    && s.averageInferenceTime >= 0.0
  }

  /** The second half of the invariant: the class counts sum to at most the
      number of successful predictions. */
  predicate ClassesWithinSuccesses(s: MetricsState)
  {
    WellFormed(s) && ClassTotal(s.predictionsByClass) <= s.successfulPredictions
  }

  /** `{str(i): 0 for i in range(10)}`. */
  function ZeroCounts(): (m: map<string, int>)
    ensures m.Keys == ClassKeys()
    ensures forall i :: 0 <= i < NumClasses ==> m[ClassKey(i)] == 0
  {
    map k | k in ClassKeys() :: 0
  }

  /** The dictionary as the process starts: all counters 0, average 0.0,
      one zero count per class key "0".."9". */
  function InitialMetrics(): (s: MetricsState)
    ensures s.totalPredictions == 0 && s.successfulPredictions == 0 && s.failedPredictions == 0
    ensures s.averageInferenceTime == 0.0
    ensures s.predictionsByClass == ZeroCounts()
  {
    MetricsState(0, 0, 0, 0.0, ZeroCounts())
  }

  /** The initial state satisfies the invariant, with no success times recorded. */
  lemma InitialMetricsValid(s: MetricsState, times: seq<real>)
    requires s.totalPredictions == 0 && s.successfulPredictions == 0 && s.failedPredictions == 0
    requires s.averageInferenceTime == 0.0 && s.predictionsByClass == ZeroCounts() && times == []
    ensures Inv(s) && AverageIsMean(s, times)
    ensures ClassesWithinSuccesses(s)
  {
    ZeroClassTotal(s.predictionsByClass);
  }

  /** Counts that are all zero sum to zero. */
  lemma ZeroClassTotal(m: map<string, int>)
    requires ClassKeys() <= m.Keys
    requires forall i :: 0 <= i < NumClasses ==> m[ClassKey(i)] == 0
    ensures ClassTotal(m) == 0
  {
    SumOfZeros(ClassCounts(m));
  }

  lemma {:induction false} SumOfZeros(xs: seq<int>)
    requires forall i :: 0 <= i < |xs| ==> xs[i] == 0
    ensures SumInts(xs) == 0
  {
    if xs != [] {
      SumOfZeros(xs[..|xs| - 1]);
    }
  }

  /** The running average after a success taking `t`, the success count
      already incremented to `successful`. It lies between the old average
      and the new time. */
  function NextAverage(average: real, successful: nat, t: real): (r: real)
    requires successful >= 1
    ensures average <= t ==> average <= r <= t
    ensures t <= average ==> t <= r <= average
  {
    var n := successful as real;
    AverageStepBetween(average, n, t);
    (average * (n - 1.0) + t) / n
  }

  /** Weighting `a` by `n - 1` and `t` by 1 gives a value between them. */
  lemma AverageStepBetween(a: real, n: real, t: real)
    requires n >= 1.0
    ensures var r := (a * (n - 1.0) + t) / n;
      (a <= t ==> a <= r <= t) && (t <= a ==> t <= r <= a)
  {
    var r := (a * (n - 1.0) + t) / n;
    assert r * n == a * (n - 1.0) + t;
    assert (r - a) * n == t - a;
    assert (t - r) * n == (t - a) * (n - 1.0);
    if a <= t {
      assert (t - a) * (n - 1.0) >= 0.0;
      SignOfProduct(r - a, n);
      SignOfProduct(t - r, n);
    } else {
      assert (a - t) * (n - 1.0) >= 0.0;
      SignOfProduct(a - r, n);
      SignOfProduct(r - t, n);
    }
  }

  lemma SignOfProduct(x: real, n: real)
    requires n > 0.0
    ensures x * n >= 0.0 ==> x >= 0.0
  {
    if x < 0.0 {
      assert x * n < 0.0;
    }
  }

  /** One `update_metrics` call. The total always grows by one. A failure
      only counts as failed. A success counts as successful, counts its class
      when that is a digit, and moves the running average only when its time
      is positive, using the incremented success count. */
  function Apply(s: MetricsState, u: MetricsUpdate): (t: MetricsState)
    requires WellFormed(s)
    ensures WellFormed(t)
    ensures t.totalPredictions == s.totalPredictions + 1
    ensures t.predictionsByClass.Keys == s.predictionsByClass.Keys
    ensures !u.success ==>
      t == s.(totalPredictions := s.totalPredictions + 1, failedPredictions := s.failedPredictions + 1)
    ensures u.success ==>
      && t.successfulPredictions == s.successfulPredictions + 1
      && t.failedPredictions == s.failedPredictions
    ensures u.inferenceTime <= 0.0 ==> t.averageInferenceTime == s.averageInferenceTime
    ensures forall i :: 0 <= i < NumClasses ==>
      t.predictionsByClass[ClassKey(i)] ==
        s.predictionsByClass[ClassKey(i)] + (if u.success && u.predictedClass == i then 1 else 0)
  {
    var total := s.totalPredictions + 1;
    if u.success then
      var successful := s.successfulPredictions + 1;
      var average :=
        if u.inferenceTime > 0.0 then
          NextAverage(s.averageInferenceTime, successful, u.inferenceTime)
        else s.averageInferenceTime;
      var byClass :=
        if 0 <= u.predictedClass <= 9 then
          var key := ClassKey(u.predictedClass);
          s.predictionsByClass[key := s.predictionsByClass[key] + 1]
        else s.predictionsByClass;
      ClassKeysDistinct(u.predictedClass);
      MetricsState(total, successful, s.failedPredictions, average, byClass)
    else
      MetricsState(total, s.successfulPredictions, s.failedPredictions + 1,
                   s.averageInferenceTime, s.predictionsByClass)
  }

  /** Each key names one class. */
  lemma ClassKeysDistinct(c: int)
    ensures 0 <= c < NumClasses ==> forall i :: 0 <= i < NumClasses && i != c ==> ClassKey(i) != ClassKey(c)
  {
    if 0 <= c < NumClasses {
      forall i | 0 <= i < NumClasses && i != c
        ensures ClassKey(i) != ClassKey(c)
      {
        if ClassKey(i) == ClassKey(c) {
          ClassKeyInjective(i, c);
        }
      }
    }
  }

  /** Adding one to element `c` adds one to the sum. */
  lemma {:induction false} SumIncrement(xs: seq<int>, c: nat)
    requires c < |xs|
    ensures SumInts(xs[c := xs[c] + 1]) == SumInts(xs) + 1
  {
    var ys := xs[c := xs[c] + 1];
    assert ys[..|ys| - 1] == if c == |xs| - 1 then xs[..|xs| - 1] else xs[..|xs| - 1][c := xs[c] + 1];
    if c < |xs| - 1 {
      SumIncrement(xs[..|xs| - 1], c);
    }
  }

  /** Incrementing the count of class `c` adds one to the class total. */
  lemma ClassTotalIncrement(m: map<string, int>, c: nat)
    requires ClassKeys() <= m.Keys && c < NumClasses
    ensures ClassKeys() <= m[ClassKey(c) := m[ClassKey(c)] + 1].Keys
    ensures ClassTotal(m[ClassKey(c) := m[ClassKey(c)] + 1]) == ClassTotal(m) + 1
  {
    var m' := m[ClassKey(c) := m[ClassKey(c)] + 1];
    var xs := ClassCounts(m);
    ClassKeysDistinct(c);
    assert ClassCounts(m') == xs[c := xs[c] + 1];
    SumIncrement(xs, c);
  }

  /** Every `update_metrics` call keeps `total == successful + failed`,
      the ten class keys with non-negative counts, and a non-negative average. */
  lemma ApplyPreservesInv(s: MetricsState, u: MetricsUpdate)
    requires Inv(s)
    ensures Inv(Apply(s, u))
  {
  }

  /** A call that is counted under a class: a success with a digit class. */
  predicate CountsClass(u: MetricsUpdate)
  {
    u.success && 0 <= u.predictedClass <= 9
  }

  /** The class counts grow by one exactly for a success with a digit class. */
  lemma ApplyClassTotal(s: MetricsState, u: MetricsUpdate)
    requires WellFormed(s)
    ensures ClassTotal(Apply(s, u).predictionsByClass)
      == ClassTotal(s.predictionsByClass) + (if CountsClass(u) then 1 else 0)
  {
    if CountsClass(u) {
      ClassTotalIncrement(s.predictionsByClass, u.predictedClass);
    } else {
      assert Apply(s, u).predictionsByClass == s.predictionsByClass;
    }
  }

  /** Every `update_metrics` call keeps the class counts within the successes. */
  lemma ApplyKeepsClassesWithinSuccesses(s: MetricsState, u: MetricsUpdate)
    requires ClassesWithinSuccesses(s)
    ensures ClassesWithinSuccesses(Apply(s, u))
  {
    ApplyClassTotal(s, u);
  }

  // ---------------------------------------------------------------------------
  // Queues of updates
  // ---------------------------------------------------------------------------

  /** The state after the queued calls `us` ran in order. */
  function ApplyAll(s: MetricsState, us: seq<MetricsUpdate>): (t: MetricsState)
    requires WellFormed(s)
    ensures WellFormed(t)
    ensures t.totalPredictions == s.totalPredictions + |us|
    decreases |us|
  {
    if us == [] then s else Apply(ApplyAll(s, us[..|us| - 1]), us[|us| - 1])
  }

  lemma {:induction false} ApplyAllPreservesInv(s: MetricsState, us: seq<MetricsUpdate>)
    requires Inv(s)
    ensures Inv(ApplyAll(s, us))
    decreases |us|
  {
    if us != [] {
      ApplyAllPreservesInv(s, us[..|us| - 1]);
      ApplyPreservesInv(ApplyAll(s, us[..|us| - 1]), us[|us| - 1]);
    }
  }

  lemma {:induction false} ApplyAllKeepsClassesWithinSuccesses(s: MetricsState, us: seq<MetricsUpdate>)
    requires ClassesWithinSuccesses(s)
    ensures ClassesWithinSuccesses(ApplyAll(s, us))
    decreases |us|
  {
    if us != [] {
      ApplyAllKeepsClassesWithinSuccesses(s, us[..|us| - 1]);
      ApplyKeepsClassesWithinSuccesses(ApplyAll(s, us[..|us| - 1]), us[|us| - 1]);
    }
  }

  /** The number of successful calls in a queue. */
  function Successes(us: seq<MetricsUpdate>): nat
  {
    if us == [] then 0 else Successes(us[..|us| - 1]) + (if us[|us| - 1].success then 1 else 0)
  }

  /** Each queued call counts once: the successful ones as successful, the
      others as failed. */
  lemma {:induction false} ApplyAllCounts(s: MetricsState, us: seq<MetricsUpdate>)
    requires WellFormed(s)
    ensures Successes(us) <= |us|
    ensures ApplyAll(s, us).successfulPredictions == s.successfulPredictions + Successes(us)
    ensures ApplyAll(s, us).failedPredictions == s.failedPredictions + |us| - Successes(us)
    decreases |us|
  {
    if us != [] {
      ApplyAllCounts(s, us[..|us| - 1]);
    }
  }

  /** The number of queued calls counted under a class. */
  function ClassifiedSuccesses(us: seq<MetricsUpdate>): nat
  {
    if us == [] then 0
    else ClassifiedSuccesses(us[..|us| - 1]) + (if CountsClass(us[|us| - 1]) then 1 else 0)
  }

  /** The class counts grow by the number of successes with a digit class,
      and that number never exceeds the number of successes. */
  lemma {:induction false} ApplyAllClassTotal(s: MetricsState, us: seq<MetricsUpdate>)
    requires WellFormed(s)
    ensures ClassTotal(ApplyAll(s, us).predictionsByClass)
      == ClassTotal(s.predictionsByClass) + ClassifiedSuccesses(us)
    ensures ClassifiedSuccesses(us) <= Successes(us)
    decreases |us|
  {
    if us != [] {
      ApplyAllClassTotal(s, us[..|us| - 1]);
      ApplyClassTotal(ApplyAll(s, us[..|us| - 1]), us[|us| - 1]);
    }
  }

  /** From the initial state, the class counts sum to at most the number of
      successful predictions. */
  lemma ClassCountsWithinSuccesses(s: MetricsState, us: seq<MetricsUpdate>)
    requires s == InitialMetrics()
    ensures ClassTotal(ApplyAll(s, us).predictionsByClass) <= ApplyAll(s, us).successfulPredictions
  {
    SumOfZeros(ClassCounts(s.predictionsByClass));
    ApplyAllClassTotal(s, us);
    ApplyAllCounts(s, us);
  }

  /** Calls whose time is not positive, such as the batch route's, never move
      the average. */
  lemma {:induction false} ZeroTimeKeepsAverage(s: MetricsState, us: seq<MetricsUpdate>)
    requires WellFormed(s)
    requires forall i :: 0 <= i < |us| ==> us[i].inferenceTime <= 0.0
    ensures ApplyAll(s, us).averageInferenceTime == s.averageInferenceTime
    decreases |us|
  {
    if us != [] {
      ZeroTimeKeepsAverage(s, us[..|us| - 1]);
    }
  }

  // ---------------------------------------------------------------------------
  // The running average
  // ---------------------------------------------------------------------------

  function Sum(ts: seq<real>): real
  {
    if ts == [] then 0.0 else Sum(ts[..|ts| - 1]) + ts[|ts| - 1]
  }

  /** The arithmetic mean of `ts` (0.0 for none). */
  function Mean(ts: seq<real>): real
  {
    if ts == [] then 0.0 else Sum(ts) / |ts| as real
  }

  predicate AllPositive(ts: seq<real>)
  {
    forall i :: 0 <= i < |ts| ==> ts[i] > 0.0
  }

  /** `times` holds the time of every success so far, in order, and when all of
      them were positive the stored average is their mean. */
  predicate AverageIsMean(s: MetricsState, times: seq<real>)
  {
    && |times| == s.successfulPredictions
    && (AllPositive(times) ==> s.averageInferenceTime == Mean(times))
  }

  /** The success times after one more call. */
  function RecordTime(times: seq<real>, u: MetricsUpdate): seq<real>
  {
    if u.success then times + [u.inferenceTime] else times
  }

  lemma MeanTimesCount(total: real, n: real)
    requires n > 0.0
    ensures total / n * n == total
  {
  }

  /** The incremental formula computes the mean of the success times, as long
      as every success so far came with a positive time. */
  lemma ApplyKeepsMean(s: MetricsState, times: seq<real>, u: MetricsUpdate)
    requires WellFormed(s) && AverageIsMean(s, times)
    ensures AverageIsMean(Apply(s, u), RecordTime(times, u))
  {
    if u.success && AllPositive(times + [u.inferenceTime]) {
      var ts := times + [u.inferenceTime];
      assert ts[..|ts| - 1] == times;
      assert Sum(ts) == Sum(times) + u.inferenceTime;
      assert AllPositive(times) by {
        forall i | 0 <= i < |times| ensures times[i] > 0.0 {
          assert times[i] == ts[i];
        }
      }
      assert u.inferenceTime == ts[|ts| - 1];
      if times != [] {
        MeanTimesCount(Sum(times), |times| as real);
      }
    }
  }

  /** The average is not the mean of the positive times once a success with
      time 0 (a batch result) has been counted: from a state with no successes
      yet, one batch success then one single prediction taking 10 ms leaves the
      average at 5 ms. */
  lemma ZeroTimeSuccessDilutesAverage(s: MetricsState)
    requires WellFormed(s) && s.successfulPredictions == 0 && s.averageInferenceTime == 0.0
    ensures ApplyAll(s, [MetricsUpdate(0, 0.0, true), MetricsUpdate(1, 10.0, true)])
      .averageInferenceTime == 5.0
  {
    var u0, u1 := MetricsUpdate(0, 0.0, true), MetricsUpdate(1, 10.0, true);
    var us := [u0, u1];
    assert us[..1] == [u0] && [u0][..0] == [];
    var s1 := ApplyAll(s, [u0]);
    assert ApplyAll(s, []) == s;
    assert s1 == Apply(s, u0);
    assert ApplyAll(s, us) == Apply(s1, u1);
    assert NextAverage(s1.averageInferenceTime, 2, 10.0) == 5.0;
  }

  /** From a state with no successes yet, two successes of class 3 taking 10 ms
      and 20 ms give an average of 15 ms and add two to the count of "3". */
  lemma TwoTimedSuccesses(s: MetricsState)
    requires WellFormed(s) && s.successfulPredictions == 0 && s.averageInferenceTime == 0.0
    ensures var t := ApplyAll(s, [MetricsUpdate(3, 10.0, true), MetricsUpdate(3, 20.0, true)]);
      && t.successfulPredictions == 2
      && t.averageInferenceTime == 15.0
      && t.predictionsByClass[ClassKey(3)] == s.predictionsByClass[ClassKey(3)] + 2
  {
    var u0, u1 := MetricsUpdate(3, 10.0, true), MetricsUpdate(3, 20.0, true);
    var us := [u0, u1];
    assert us[..1] == [u0] && [u0][..0] == [];
    var s1 := ApplyAll(s, [u0]);
    assert ApplyAll(s, []) == s;
    assert s1 == Apply(s, u0);
    assert ApplyAll(s, us) == Apply(s1, u1);
    assert NextAverage(0.0, 1, 10.0) == 10.0;
    assert NextAverage(10.0, 2, 20.0) == 15.0;
  }

  // ---------------------------------------------------------------------------
  // The metrics dictionary, updated in place
  // ---------------------------------------------------------------------------

  /** One call keeps the whole invariant of the live dictionary. */
  lemma ApplyKeepsValid(s: MetricsState, times: seq<real>, u: MetricsUpdate)
    requires Inv(s) && ClassesWithinSuccesses(s) && AverageIsMean(s, times)
    ensures Inv(Apply(s, u)) && ClassesWithinSuccesses(Apply(s, u))
    ensures AverageIsMean(Apply(s, u), RecordTime(times, u))
  {
    ApplyPreservesInv(s, u);
    ApplyKeepsClassesWithinSuccesses(s, u);
    ApplyKeepsMean(s, times, u);
  }

  class PredictionMetrics {
    var totalPredictions: int
    var successfulPredictions: int
    var failedPredictions: int
    var averageInferenceTime: real
    var predictionsByClass: map<string, int>
    /** The time of every success recorded so far, in order. */
    ghost var recordedTimes: seq<real>

    function State(): MetricsState
      reads this
    {
      MetricsState(totalPredictions, successfulPredictions, failedPredictions,
                   averageInferenceTime, predictionsByClass)
    }

    ghost predicate Valid()
      reads this
    {
      Inv(State()) && ClassesWithinSuccesses(State()) && AverageIsMean(State(), recordedTimes)
    }

    /** The dictionary as the module defines it at import time. */
    constructor ()
      ensures Valid()
      ensures totalPredictions == 0 && successfulPredictions == 0 && failedPredictions == 0
      ensures averageInferenceTime == 0.0 && predictionsByClass == ZeroCounts() && recordedTimes == []
    {
      totalPredictions := 0;
      successfulPredictions := 0;
      failedPredictions := 0;
      averageInferenceTime := 0.0;
      predictionsByClass := ZeroCounts();
      recordedTimes := [];
      new;
      InitialMetricsValid(State(), recordedTimes);
    }

    /** `update_metrics(predicted_class, inference_time, success)`. */
    method UpdateMetrics(predictedClass: int, inferenceTime: real, success: bool)
      requires Valid()
      modifies this
      ensures Valid()
      ensures State() == Apply(old(State()), MetricsUpdate(predictedClass, inferenceTime, success))
      ensures recordedTimes ==
        RecordTime(old(recordedTimes), MetricsUpdate(predictedClass, inferenceTime, success))
    {
      ghost var s := State();
      ghost var u := MetricsUpdate(predictedClass, inferenceTime, success);
      ApplyKeepsValid(s, recordedTimes, u);
      totalPredictions := totalPredictions + 1;
      if success {
        RecordSuccess(predictedClass, inferenceTime);
      } else {
        failedPredictions := failedPredictions + 1;
      }
      assert State() == Apply(s, u);
    }

    /** The success branch of `update_metrics`, after the total was counted. */
    method RecordSuccess(predictedClass: int, inferenceTime: real)
      requires ClassKeys() <= predictionsByClass.Keys && successfulPredictions >= 0
      modifies this
      ensures successfulPredictions == old(successfulPredictions) + 1
      ensures averageInferenceTime ==
        if inferenceTime > 0.0
        then NextAverage(old(averageInferenceTime), successfulPredictions, inferenceTime)
        else old(averageInferenceTime)
      ensures predictionsByClass ==
        if 0 <= predictedClass <= 9
        then old(predictionsByClass)[ClassKey(predictedClass) := old(predictionsByClass)[ClassKey(predictedClass)] + 1]
        else old(predictionsByClass)
      ensures recordedTimes == old(recordedTimes) + [inferenceTime]
      ensures totalPredictions == old(totalPredictions) && failedPredictions == old(failedPredictions)
    {
      successfulPredictions := successfulPredictions + 1;
      if inferenceTime > 0.0 {
        var currentAvg := averageInferenceTime;
        var totalSuccessful := successfulPredictions;
        averageInferenceTime :=
          (currentAvg * (totalSuccessful - 1) as real + inferenceTime) / totalSuccessful as real;
      }
      if 0 <= predictedClass <= 9 {
        var key := ClassKey(predictedClass);
        predictionsByClass := predictionsByClass[key := predictionsByClass[key] + 1];
      }
      recordedTimes := recordedTimes + [inferenceTime];
    }

    /** Runs queued background calls in the order they were added. */
    method RunQueued(tasks: seq<MetricsUpdate>)
      requires Valid()
      modifies this
      ensures Valid()
      ensures State() == ApplyAll(old(State()), tasks)
    {
      var i := 0;
      while i < |tasks|
        invariant 0 <= i <= |tasks|
        invariant Valid()
        invariant State() == ApplyAll(old(State()), tasks[..i])
      {
        assert tasks[..i + 1][..i] == tasks[..i];
        var u := tasks[i];
        UpdateMetrics(u.predictedClass, u.inferenceTime, u.success);
        i := i + 1;
      }
      assert tasks[..i] == tasks;
    }
  }
}
