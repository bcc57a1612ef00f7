/** The N-task value comparison: totals, per-task deltas, the dry run and the live pairing. */
module ValueBaseline {
  import opened Basics

  datatype TaskMetrics = TaskMetrics(netTime: real, manualReviews: int, posthocReviews: int)

  datatype Arm = Arm(totalTime: real, meanTime: real, totalReview: int, meanReview: real)

  datatype TaskDelta = TaskDelta(timeSaved: Option<real>, reviewReduction: int)

  /** The control side and the deltas are absent without a control arm. */
  datatype Comparison = Comparison(control: Arm, timeSaved: Option<real>, reviewReduction: int, perTask: seq<TaskDelta>)

  datatype Baseline = Baseline(n: nat, zw: Arm, comparison: Option<Comparison>)

  datatype Result = Ok(value: Baseline) | LengthMismatch

  function ReviewsOf(m: TaskMetrics): int {
    m.manualReviews + m.posthocReviews
  }

  function TotalTime(ms: seq<TaskMetrics>): real {
    if ms == [] then 0.0 else TotalTime(ms[..|ms| - 1]) + ms[|ms| - 1].netTime
  }

  function TotalReviews(ms: seq<TaskMetrics>): int {
    if ms == [] then 0 else TotalReviews(ms[..|ms| - 1]) + ReviewsOf(ms[|ms| - 1])
  }

  /** A product, named so that proofs can keep it closed. */
  ghost function Times(a: real, b: real): real {
    a * b
  }

  /** `saved` is the percentage of `before` that `after` saves; there is none when `before` is not positive. */
  ghost predicate Saving(saved: Option<real>, before: real, after: real) {
    && (saved.Some? <==> before > 0.0)
    && (saved.Some? ==> Times(saved.value, before) == 100.0 * (before - after))
  }

  ghost predicate Aggregates(arm: Arm, ms: seq<TaskMetrics>) {
    && arm.totalTime == TotalTime(ms) && Times(arm.meanTime, |ms| as real) == arm.totalTime
    && arm.totalReview == TotalReviews(ms) && Times(arm.meanReview, |ms| as real) == arm.totalReview as real
    && (ms == [] ==> arm.meanTime == 0.0 && arm.meanReview == 0.0)
  }

  ghost predicate Compares(c: Comparison, zw: seq<TaskMetrics>, control: seq<TaskMetrics>)
    requires |control| == |zw|
  {
    && Aggregates(c.control, control)
    && Saving(c.timeSaved, TotalTime(control), TotalTime(zw))
    && c.reviewReduction == TotalReviews(control) - TotalReviews(zw)
    && |c.perTask| == |zw|
    && forall i :: 0 <= i < |zw| ==>
         && Saving(c.perTask[i].timeSaved, control[i].netTime, zw[i].netTime)
         && c.perTask[i].reviewReduction == ReviewsOf(control[i]) - ReviewsOf(zw[i])
  }

  method Percentage(before: real, after: real) returns (saved: Option<real>)
    ensures Saving(saved, before, after)
  {
    if before > 0.0 {
      var share := (before - after) / before;
      assert share * before == before - after;
      saved := Some(share * 100.0);
      assert Times(saved.value, before) == share * before * 100.0;
    } else {
      saved := None;
    }
  }

  method Summarize(ms: seq<TaskMetrics>) returns (arm: Arm)
    ensures Aggregates(arm, ms)
  {
    var n := |ms|;
    if n == 0 {
      return Arm(0.0, 0.0, 0, 0.0);
    }
    arm := Arm(TotalTime(ms), TotalTime(ms) / n as real, TotalReviews(ms), TotalReviews(ms) as real / n as real);
  }

  /** `compute_value_baseline`. */
  method ComputeValueBaseline(zw: seq<TaskMetrics>, control: Option<seq<TaskMetrics>>) returns (r: Result)
    ensures r.LengthMismatch? <==> control.Some? && |control.value| != |zw|
    ensures r.Ok? ==> r.value.n == |zw| && Aggregates(r.value.zw, zw)
    ensures r.Ok? ==> (r.value.comparison.Some? <==> control.Some?)
    ensures r.Ok? && control.Some? ==> Compares(r.value.comparison.value, zw, control.value)
  {
    hide Saving, Aggregates;
    var own := Summarize(zw);
    if control.None? {
      return Ok(Baseline(|zw|, own, None));
    }
    if |control.value| != |zw| {
      return LengthMismatch;
    }
    var other := Summarize(control.value);
    var saved := Percentage(TotalTime(control.value), TotalTime(zw));
    var perTask: seq<TaskDelta> := [];
    for i := 0 to |zw|
      invariant |perTask| == i
      invariant forall k :: 0 <= k < i ==>
        && Saving(perTask[k].timeSaved, control.value[k].netTime, zw[k].netTime)
        && perTask[k].reviewReduction == ReviewsOf(control.value[k]) - ReviewsOf(zw[k])
    {
      var s := Percentage(control.value[i].netTime, zw[i].netTime);
      perTask := perTask + [TaskDelta(s, ReviewsOf(control.value[i]) - ReviewsOf(zw[i]))];
    }
    r := Ok(Baseline(|zw|, own,
      Some(Comparison(other, saved, TotalReviews(control.value) - TotalReviews(zw), perTask))));
  }

  // ----- What the aggregate means -----

  ghost function Share(d: TaskDelta, controlTime: real): real {
    if d.timeSaved.Some? then Times(d.timeSaved.value, controlTime) else 0.0
  }

  /** Each task's saving weighted by its control time. */
  ghost function Weighted(perTask: seq<TaskDelta>, control: seq<TaskMetrics>): real
    requires |perTask| == |control|
  {
    if perTask == [] then 0.0 else
    var last := |perTask| - 1;
    Weighted(perTask[..last], control[..last]) + Share(perTask[last], control[last].netTime)
  }

  /** The time spent on tasks that took the control arm none. */
  ghost function Unmatched(zw: seq<TaskMetrics>, control: seq<TaskMetrics>): real
    requires |zw| == |control|
  {
    if zw == [] then 0.0 else
    var last := |zw| - 1;
    Unmatched(zw[..last], control[..last]) + if control[last].netTime > 0.0 then 0.0 else zw[last].netTime
  }

  function Reductions(perTask: seq<TaskDelta>): int {
    if perTask == [] then 0 else Reductions(perTask[..|perTask| - 1]) + perTask[|perTask| - 1].reviewReduction
  }

  /** The per-task part of `Compares`, which prefixes inherit. */
  ghost predicate TaskByTask(perTask: seq<TaskDelta>, zw: seq<TaskMetrics>, control: seq<TaskMetrics>) {
    && |perTask| == |zw| == |control|
    && forall i :: 0 <= i < |zw| ==>
         && Saving(perTask[i].timeSaved, control[i].netTime, zw[i].netTime)
         && perTask[i].reviewReduction == ReviewsOf(control[i]) - ReviewsOf(zw[i])
         && control[i].netTime >= 0.0
  }

  lemma {:induction false} TotalsFromTasks(perTask: seq<TaskDelta>, zw: seq<TaskMetrics>, control: seq<TaskMetrics>)
    requires TaskByTask(perTask, zw, control)
    ensures 100.0 * (TotalTime(control) - TotalTime(zw)) == Weighted(perTask, control) - 100.0 * Unmatched(zw, control)
    ensures TotalReviews(control) - TotalReviews(zw) == Reductions(perTask)
  {
    hide Times;
    if zw != [] {
      var last := |zw| - 1;
      TotalsFromTasks(perTask[..last], zw[..last], control[..last]);
      assert Saving(perTask[last].timeSaved, control[last].netTime, zw[last].netTime);
    }
  }

  /**
   The aggregate is the control-weighted mean of the per-task savings exactly when no time was
   spent on tasks that took the control arm none; the review reduction is always the sum.
   */
  lemma AggregateIsWeightedMean(c: Comparison, zw: seq<TaskMetrics>, control: seq<TaskMetrics>)
    requires |zw| == |control| && Compares(c, zw, control)
    requires forall m :: m in control ==> m.netTime >= 0.0
    ensures c.reviewReduction == Reductions(c.perTask)
    ensures c.timeSaved.Some? ==>
      (Times(c.timeSaved.value, TotalTime(control)) == Weighted(c.perTask, control) <==> Unmatched(zw, control) == 0.0)
  {
    hide Times;
    TotalsFromTasks(c.perTask, zw, control);
  }

  const FREE_CONTROL := [TaskMetrics(0.0, 0, 0), TaskMetrics(10.0, 0, 0)]
  const EVEN_PRODUCT := [TaskMetrics(5.0, 0, 0), TaskMetrics(5.0, 0, 0)]

  lemma TwoTasks(zw: seq<TaskMetrics>, control: seq<TaskMetrics>)
    requires |zw| == |control| == 2
    ensures TotalTime(zw) == zw[0].netTime + zw[1].netTime
    ensures TotalReviews(zw) == ReviewsOf(zw[0]) + ReviewsOf(zw[1])
    ensures control[0].netTime <= 0.0 < control[1].netTime ==> Unmatched(zw, control) == zw[0].netTime
  {
    assert zw[..1] == [zw[0]] && zw[..1][..0] == [] && control[..1] == [control[0]] && control[..1][..0] == [];
    assert TotalTime(zw[..1]) == zw[0].netTime && TotalReviews(zw[..1]) == ReviewsOf(zw[0]);
    assert Unmatched(zw[..1], control[..1]) == if control[0].netTime > 0.0 then 0.0 else zw[0].netTime;
  }

  lemma Solved(x: real, b: real, y: real)
    requires b == 10.0 && Times(x, b) == y
    ensures x == y / 10.0
  {
  }

  /** It happens: a task that took the control arm no time hides that the only comparable task was halved. */
  lemma UnmatchedTimeHidesSavings(c: Comparison)
    requires Compares(c, EVEN_PRODUCT, FREE_CONTROL)
    ensures c.timeSaved == Some(0.0) && c.perTask[0].timeSaved == None && c.perTask[1].timeSaved == Some(50.0)
    ensures Times(c.timeSaved.value, TotalTime(FREE_CONTROL)) != Weighted(c.perTask, FREE_CONTROL)
  {
    hide Times, Aggregates;
    TwoTasks(EVEN_PRODUCT, FREE_CONTROL);
    TwoTasks(FREE_CONTROL, FREE_CONTROL);
    AggregateIsWeightedMean(c, EVEN_PRODUCT, FREE_CONTROL);
    Solved(c.timeSaved.value, TotalTime(FREE_CONTROL), 0.0);
    assert Saving(c.perTask[1].timeSaved, FREE_CONTROL[1].netTime, EVEN_PRODUCT[1].netTime);
    Solved(c.perTask[1].timeSaved.value, FREE_CONTROL[1].netTime, 500.0);
  }

  /** The two arms do have a comparison. */
  lemma EvenArmsCompare(c: Comparison)
    requires c.control == Arm(10.0, 5.0, 0, 0.0) && c.timeSaved == Some(0.0) && c.reviewReduction == 0
    requires c.perTask == [TaskDelta(None, 0), TaskDelta(Some(50.0), 0)]
    ensures Compares(c, EVEN_PRODUCT, FREE_CONTROL)
  {
    hide Times, TotalTime, TotalReviews, Aggregates, Saving;
    EvenTotals();
    EvenSavings();
    FreeArm();
  }

  lemma EvenTotals()
    ensures TotalTime(FREE_CONTROL) == TotalTime(EVEN_PRODUCT) == 10.0
    ensures TotalReviews(FREE_CONTROL) == TotalReviews(EVEN_PRODUCT) == 0
  {
    hide TotalTime, TotalReviews, Unmatched;
    TwoTasks(EVEN_PRODUCT, FREE_CONTROL);
    TwoTasks(FREE_CONTROL, FREE_CONTROL);
  }

  lemma EvenSavings()
    ensures Saving(Some(0.0), 10.0, 10.0) && Saving(Some(50.0), 10.0, 5.0) && Saving(None, 0.0, 5.0)
  {
  }

  lemma FreeArm()
    ensures Aggregates(Arm(10.0, 5.0, 0, 0.0), FREE_CONTROL)
  {
    hide TotalTime, TotalReviews, Unmatched;
    TwoTasks(FREE_CONTROL, FREE_CONTROL);
    assert |FREE_CONTROL| as real == 2.0;
  }

  lemma {:induction false} WeightedBetween(perTask: seq<TaskDelta>, zw: seq<TaskMetrics>,
      control: seq<TaskMetrics>, low: real, high: real)
    requires TaskByTask(perTask, zw, control)
    requires forall d :: d in perTask && d.timeSaved.Some? ==> low <= d.timeSaved.value <= high
    ensures Times(low, TotalTime(control)) <= Weighted(perTask, control) <= Times(high, TotalTime(control))
  {
    hide Times, Saving;
    if zw == [] {
      NoTime(low);
      NoTime(high);
    } else {
      var last := |zw| - 1;
      WeightedBetween(perTask[..last], zw[..last], control[..last], low, high);
      assert perTask[last] in perTask;
      Distribute(low, TotalTime(control[..last]), control[last].netTime);
      Distribute(high, TotalTime(control[..last]), control[last].netTime);
      ShareBetween(perTask[last], control[last].netTime, zw[last].netTime, low, high);
    }
  }

  lemma NoTime(a: real)
    ensures Times(a, 0.0) == 0.0
  {
  }

  lemma Distribute(a: real, b: real, c: real)
    ensures Times(a, b + c) == Times(a, b) + Times(a, c)
  {
  }

  lemma Scale(a: real, b: real, t: real)
    requires a <= b && t >= 0.0
    ensures Times(a, t) <= Times(b, t)
  {
  }

  lemma ScaleStrictly(a: real, b: real, t: real)
    requires a < b && t > 0.0
    ensures Times(a, t) < Times(b, t)
  {
  }

  lemma ShareBetween(d: TaskDelta, control: real, zw: real, low: real, high: real)
    requires control >= 0.0 && Saving(d.timeSaved, control, zw)
    requires d.timeSaved.Some? ==> low <= d.timeSaved.value <= high
    ensures Times(low, control) <= Share(d, control) <= Times(high, control)
  {
    hide Times;
    if d.timeSaved.Some? {
      Scale(low, d.timeSaved.value, control);
      Scale(d.timeSaved.value, high, control);
    } else {
      NoTime(low);
      NoTime(high);
    }
  }

  /** No task took time in the product arm that took none in the control arm. */
  ghost predicate NothingForNothing(zw: seq<TaskMetrics>, control: seq<TaskMetrics>) {
    |zw| == |control| && forall i :: 0 <= i < |zw| ==>
      control[i].netTime >= 0.0 && (control[i].netTime == 0.0 ==> zw[i].netTime == 0.0)
  }

  lemma {:induction false} NothingUnmatched(zw: seq<TaskMetrics>, control: seq<TaskMetrics>)
    requires NothingForNothing(zw, control)
    ensures Unmatched(zw, control) == 0.0
  {
    if zw != [] {
      NothingUnmatched(zw[..|zw| - 1], control[..|zw| - 1]);
    }
  }

  /** Within any bounds on the per-task savings, in particular between their least and their greatest. */
  lemma AggregateIsBetween(c: Comparison, zw: seq<TaskMetrics>, control: seq<TaskMetrics>, low: real, high: real)
    requires |zw| == |control| && Compares(c, zw, control) && c.timeSaved.Some?
    requires NothingForNothing(zw, control)
    requires forall d :: d in c.perTask && d.timeSaved.Some? ==> low <= d.timeSaved.value <= high
    ensures low <= c.timeSaved.value <= high
  {
    hide Times;
    NothingUnmatched(zw, control);
    AggregateIsWeightedMean(c, zw, control);
    WeightedBetween(c.perTask, zw, control, low, high);
    var t := TotalTime(control);
    if c.timeSaved.value < low {
      ScaleStrictly(c.timeSaved.value, low, t);
    }
    if high < c.timeSaved.value {
      ScaleStrictly(high, c.timeSaved.value, t);
    }
  }

  // ----- The dry run -----

  /** `_dry_run` on `n` loaded tasks: always half the time and four reviews fewer per task. */
  method DryRun(n: nat) returns (c: Comparison)
    requires n >= 1
    ensures c.timeSaved == Some(50.0) && c.reviewReduction == 4 * n
  {
    hide Times;
    var zw: seq<TaskMetrics>, control: seq<TaskMetrics> := [], [];
    for i := 0 to n
      invariant |zw| == |control| == i
      invariant TotalTime(control) == 2.0 * TotalTime(zw) && TotalTime(zw) >= 60.0 * i as real
      invariant TotalReviews(control) == TotalReviews(zw) + 4 * i
    {
      var base := 60.0 + 30.0 * i as real;
      var cRev := 3 + i % 3;
      var zRev := if cRev - 2 > 0 then cRev - 2 else 0;
      var z, k := TaskMetrics(base, zRev, zRev), TaskMetrics(base * 2.0, cRev, cRev);
      assert (zw + [z])[..i] == zw && (control + [k])[..i] == control;
      zw, control := zw + [z], control + [k];
    }
    var r := ComputeValueBaseline(zw, Some(control));
    c := r.value.comparison.value;
    HalfIsFifty(c.timeSaved, TotalTime(control), TotalTime(zw));
  }

  lemma HalfIsFifty(saved: Option<real>, before: real, after: real)
    requires after > 0.0 && before == 2.0 * after && Saving(saved, before, after)
    ensures saved == Some(50.0)
  {
    hide Times;
    if saved.value < 50.0 {
      ScaleStrictly(saved.value, 50.0, before);
    }
    if saved.value > 50.0 {
      ScaleStrictly(50.0, saved.value, before);
    }
    FiftyTimes(before);
  }

  lemma FiftyTimes(before: real)
    ensures Times(50.0, before) == 50.0 * before
  {
  }

  // ----- The live pairing -----

  /** One measured arm of a task: its metrics and whether its command succeeded. */
  datatype Measured = Measured(metrics: TaskMetrics, ok: bool)

  function Paired(zw: seq<Measured>, control: seq<Measured>, pick: seq<Measured>): seq<TaskMetrics>
    requires |zw| == |control| == |pick|
  {
    if zw == [] then [] else
    var last := |zw| - 1;
    Paired(zw[..last], control[..last], pick[..last])
    + if zw[last].ok && control[last].ok then [pick[last].metrics] else []
  }

  lemma {:induction false} SameLength(zw: seq<Measured>, control: seq<Measured>)
    requires |zw| == |control|
    ensures |Paired(zw, control, zw)| == |Paired(zw, control, control)|
  {
    if zw != [] {
      SameLength(zw[..|zw| - 1], control[..|zw| - 1]);
    }
  }

  /** The comparison of two paired arms. */
  ghost predicate LiveResult(b: Baseline, own: seq<TaskMetrics>, other: seq<TaskMetrics>) {
    && |own| == |other| && b.n == |own| && Aggregates(b.zw, own)
    && b.comparison.Some? && Compares(b.comparison.value, own, other)
  }

  lemma CancelTimes(a: real, b: real, t: real)
    requires t > 0.0 && Times(a, t) == Times(b, t)
    ensures a == b
  {
    if a < b {
      ScaleStrictly(a, b, t);
    } else if b < a {
      ScaleStrictly(b, a, t);
    }
  }

  lemma SavingIsDetermined(s: Option<real>, t: Option<real>, before: real, after: real)
    requires Saving(s, before, after) && Saving(t, before, after)
    ensures s == t
  {
    hide Times;
    if s.Some? {
      CancelTimes(s.value, t.value, before);
    }
  }

  lemma ArmIsDetermined(a: Arm, b: Arm, ms: seq<TaskMetrics>)
    requires Aggregates(a, ms) && Aggregates(b, ms)
    ensures a == b
  {
    hide Times;
    if ms != [] {
      CancelTimes(a.meanTime, b.meanTime, |ms| as real);
      CancelTimes(a.meanReview, b.meanReview, |ms| as real);
    }
  }

  /** The paired arms determine every number of the result. */
  lemma ResultIsDetermined(a: Baseline, b: Baseline, own: seq<TaskMetrics>, other: seq<TaskMetrics>)
    requires LiveResult(a, own, other) && LiveResult(b, own, other)
    ensures a == b
  {
    hide Times, Saving, Aggregates;
    var (x, y) := (a.comparison.value, b.comparison.value);
    ArmIsDetermined(a.zw, b.zw, own);
    ArmIsDetermined(x.control, y.control, other);
    SavingIsDetermined(x.timeSaved, y.timeSaved, TotalTime(other), TotalTime(own));
    forall i | 0 <= i < |own| ensures x.perTask[i] == y.perTask[i] {
      SavingIsDetermined(x.perTask[i].timeSaved, y.perTask[i].timeSaved, other[i].netTime, own[i].netTime);
    }
    assert x.perTask == y.perTask;
  }

  /** The aggregation of `_live`: only tasks whose two arms both succeeded. */
  method Live(zw: seq<Measured>, control: seq<Measured>) returns (b: Baseline)
    requires |zw| == |control|
    ensures LiveResult(b, Paired(zw, control, zw), Paired(zw, control, control))
  {
    hide Aggregates, Compares;
    var own: seq<TaskMetrics>, other: seq<TaskMetrics> := [], [];
    for i := 0 to |zw|
      invariant own == Paired(zw[..i], control[..i], zw[..i])
      invariant other == Paired(zw[..i], control[..i], control[..i])
    {
      assert zw[..i + 1][..i] == zw[..i] && control[..i + 1][..i] == control[..i];
      if zw[i].ok && control[i].ok {
        own, other := own + [zw[i].metrics], other + [control[i].metrics];
      }
    }
    assert zw[..|zw|] == zw && control[..|control|] == control;
    SameLength(zw, control);
    var r := ComputeValueBaseline(own, Some(other));
    b := r.value;
  }

  /** The same outcome, and the same metrics unless some arm of the task failed. */
  ghost predicate AgreeWherePaired(zw: seq<Measured>, control: seq<Measured>,
      zw': seq<Measured>, control': seq<Measured>) {
    && |zw| == |control| == |zw'| == |control'|
    && forall i :: 0 <= i < |zw| ==>
         && zw[i].ok == zw'[i].ok && control[i].ok == control'[i].ok
         && (zw[i].ok && control[i].ok ==> zw[i] == zw'[i] && control[i] == control'[i])
  }

  lemma {:induction false} SamePairs(zw: seq<Measured>, control: seq<Measured>,
      zw': seq<Measured>, control': seq<Measured>)
    requires AgreeWherePaired(zw, control, zw', control')
    ensures Paired(zw, control, zw) == Paired(zw', control', zw')
    ensures Paired(zw, control, control) == Paired(zw', control', control')
  {
    if zw != [] {
      var last := |zw| - 1;
      SamePairs(zw[..last], control[..last], zw'[..last], control'[..last]);
    }
  }

  /** What a failed task measured, in either arm, reaches no number of the result. */
  lemma FailedTasksDoNotCount(
    zw: seq<Measured>, control: seq<Measured>, b: Baseline, zw': seq<Measured>, control': seq<Measured>, b': Baseline)
    requires AgreeWherePaired(zw, control, zw', control')
    requires LiveResult(b, Paired(zw, control, zw), Paired(zw, control, control))
    requires LiveResult(b', Paired(zw', control', zw'), Paired(zw', control', control'))
    ensures b == b'
  {
    hide LiveResult;
    SamePairs(zw, control, zw', control');
    ResultIsDetermined(b, b', Paired(zw, control, zw), Paired(zw, control, control));
  }
}
