/**
 * `hevycli stats progress` (cmd/stats/progress.go): a per-day series of one
 * metric for the exercises whose title contains a query, and its trend.
 *
 * A calendar day is the number of whole days since the Unix epoch (UTC),
 * which orders the same way as the "2006-01-02" keys the command sorts.
 * Values are exact reals; the rounding to two decimals is not modelled.
 */
module Progress {
  import opened Common
  import opened ApiTypes

  const SecondsPerDay: int := 86400

  /** The calendar day (UTC) of a timestamp. */
  function Day(t: int): int { t / SecondsPerDay }

  // ---------------------------------------------------------------- per-set metrics

  /** computeMaxWeight's running maximum, starting from 0. */
  function MaxWeight(sets: seq<Set>): real
  {
    if sets == [] then 0.0
    else
      var m := MaxWeight(sets[..|sets| - 1]);
      var s := sets[|sets| - 1];
      if s.weightKg.Some? && s.weightKg.value > m then s.weightKg.value else m
  }

  /** The heaviest recorded weight, or 0 when no set has one above 0. */
  lemma {:induction false} MaxWeightIsMaximum(sets: seq<Set>)
    ensures MaxWeight(sets) >= 0.0
    ensures forall i :: 0 <= i < |sets| && sets[i].weightKg.Some? ==> sets[i].weightKg.value <= MaxWeight(sets)
    ensures MaxWeight(sets) == 0.0 || exists i :: 0 <= i < |sets| && sets[i].weightKg == Some(MaxWeight(sets))
    decreases |sets|
  {
    if sets != [] {
      var init := sets[..|sets| - 1];
      MaxWeightIsMaximum(init);
      assert forall i :: 0 <= i < |init| ==> init[i] == sets[i];
    }
  }

  /** computeVolume: the sum of weight times reps over sets that record both. */
  function Volume(sets: seq<Set>): real
  {
    if sets == [] then 0.0
    else
      var s := sets[|sets| - 1];
      Volume(sets[..|sets| - 1]) + (if s.weightKg.Some? && s.reps.Some? then s.weightKg.value * s.reps.value as real else 0.0)
  }

  /** Volume adds up over consecutive runs of sets. */
  lemma {:induction false} VolumeAppend(a: seq<Set>, b: seq<Set>)
    ensures Volume(a + b) == Volume(a) + Volume(b)
    decreases |b|
  {
    if b == [] {
      assert a + b == a;
    } else {
      assert (a + b)[..|a + b| - 1] == a + b[..|b| - 1];
      assert (a + b)[|a + b| - 1] == b[|b| - 1];
      VolumeAppend(a, b[..|b| - 1]);
    }
  }

  /** computeMaxReps's running maximum, starting from 0. */
  function MaxReps(sets: seq<Set>): int
  {
    if sets == [] then 0
    else
      var m := MaxReps(sets[..|sets| - 1]);
      var s := sets[|sets| - 1];
      if s.reps.Some? && s.reps.value > m then s.reps.value else m
  }

  lemma {:induction false} MaxRepsIsMaximum(sets: seq<Set>)
    ensures MaxReps(sets) >= 0
    ensures forall i :: 0 <= i < |sets| && sets[i].reps.Some? ==> sets[i].reps.value <= MaxReps(sets)
    ensures MaxReps(sets) == 0 || exists i :: 0 <= i < |sets| && sets[i].reps == Some(MaxReps(sets))
    decreases |sets|
  {
    if sets != [] {
      var init := sets[..|sets| - 1];
      MaxRepsIsMaximum(init);
      assert forall i :: 0 <= i < |init| ==> init[i] == sets[i];
    }
  }

  /** The Brzycki estimate of the one-repetition maximum. */
  function Brzycki(weight: real, reps: int): real
    requires reps != 37
  {
    weight * (36.0 / (37.0 - reps as real))
  }

  /** The sets computeEstimated1RM considers: weight and reps recorded, reps not 0 and at most 10. */
  predicate Eligible(s: Set)
  {
    s.weightKg.Some? && s.reps.Some? && s.reps.value != 0 && s.reps.value <= 10
  }

  /** computeEstimated1RM's running maximum over eligible sets, starting from 0. */
  function Max1RM(sets: seq<Set>): real
  {
    if sets == [] then 0.0
    else
      var m := Max1RM(sets[..|sets| - 1]);
      var s := sets[|sets| - 1];
      if Eligible(s) && Brzycki(s.weightKg.value, s.reps.value) > m then Brzycki(s.weightKg.value, s.reps.value) else m
  }

  /** The best estimate over eligible sets; sets of more than 10 reps are left out, not clamped. */
  lemma {:induction false} Max1RMIsMaximum(sets: seq<Set>)
    ensures Max1RM(sets) >= 0.0
    ensures forall i :: 0 <= i < |sets| && Eligible(sets[i]) ==> Brzycki(sets[i].weightKg.value, sets[i].reps.value) <= Max1RM(sets)
    ensures Max1RM(sets) == 0.0 ||
      exists i :: 0 <= i < |sets| && Eligible(sets[i]) && Brzycki(sets[i].weightKg.value, sets[i].reps.value) == Max1RM(sets)
    decreases |sets|
  {
    if sets != [] {
      var init := sets[..|sets| - 1];
      Max1RMIsMaximum(init);
      assert forall i :: 0 <= i < |init| ==> init[i] == sets[i];
    }
  }

  /** A set with more than 10 reps changes nothing, whatever its weight. */
  lemma Max1RMIgnoresHighReps(sets: seq<Set>, s: Set)
    requires s.reps.Some? && s.reps.value > 10
    ensures Max1RM(sets + [s]) == Max1RM(sets)
  {
    assert (sets + [s])[..|sets|] == sets;
  }

  function WeightSet(weight: real, reps: int): Set
  {
    Set(0, SetTypeNormal, Some(weight), Some(reps), None, None, None)
  }

  /** 100 kg for 5 and 120 kg for 11: only the first counts, 100 × 36/32 = 112.5. */
  lemma BrzyckiExample()
    ensures Max1RM([WeightSet(100.0, 5), WeightSet(120.0, 11)]) == 112.5
  {
    var a := [WeightSet(100.0, 5)];
    assert [WeightSet(100.0, 5), WeightSet(120.0, 11)][..1] == a;
    assert a[..0] == [];
    assert Brzycki(100.0, 5) == 112.5;
  }

  /** 60 kg for 10 plus a 100 kg set without reps: 600. */
  lemma VolumeExample()
    ensures Volume([WeightSet(60.0, 10), Set(1, SetTypeNormal, Some(100.0), None, None, None, None)]) == 600.0
  {
    var a := [WeightSet(60.0, 10)];
    assert [WeightSet(60.0, 10), Set(1, SetTypeNormal, Some(100.0), None, None, None, None)][..1] == a;
    assert a[..0] == [];
  }

  method ComputeMaxWeight(sets: seq<Set>) returns (maxWeight: real)
    ensures maxWeight == MaxWeight(sets)
  {
    maxWeight := 0.0;
    var i := 0;
    while i < |sets|
      invariant 0 <= i <= |sets|
      invariant maxWeight == MaxWeight(sets[..i])
    {
      assert sets[..i + 1][..i] == sets[..i];
      if sets[i].weightKg.Some? && sets[i].weightKg.value > maxWeight {
        maxWeight := sets[i].weightKg.value;
      }
      i := i + 1;
    }
    assert sets[..i] == sets;
  }

  method ComputeVolume(sets: seq<Set>) returns (volume: real)
    ensures volume == Volume(sets)
  {
    volume := 0.0;
    var i := 0;
    while i < |sets|
      invariant 0 <= i <= |sets|
      invariant volume == Volume(sets[..i])
    {
      assert sets[..i + 1][..i] == sets[..i];
      if sets[i].weightKg.Some? && sets[i].reps.Some? {
        volume := volume + sets[i].weightKg.value * sets[i].reps.value as real;
      }
      i := i + 1;
    }
    assert sets[..i] == sets;
  }

  method ComputeMaxReps(sets: seq<Set>) returns (value: real)
    ensures value == MaxReps(sets) as real
  {
    var maxReps := 0;
    var i := 0;
    while i < |sets|
      invariant 0 <= i <= |sets|
      invariant maxReps == MaxReps(sets[..i])
    {
      assert sets[..i + 1][..i] == sets[..i];
      if sets[i].reps.Some? && sets[i].reps.value > maxReps {
        maxReps := sets[i].reps.value;
      }
      i := i + 1;
    }
    assert sets[..i] == sets;
    value := maxReps as real;
  }

  method ComputeEstimated1RM(sets: seq<Set>) returns (max1RM: real)
    ensures max1RM == Max1RM(sets)
  {
    max1RM := 0.0;
    var i := 0;
    while i < |sets|
      invariant 0 <= i <= |sets|
      invariant max1RM == Max1RM(sets[..i])
    {
      assert sets[..i + 1][..i] == sets[..i];
      var s := sets[i];
      if s.weightKg.None? || s.reps.None? || s.reps.value == 0 {
        i := i + 1;
        continue;
      }
      var weight := s.weightKg.value;
      var reps := s.reps.value;
      if reps > 10 {
        i := i + 1;
        continue;
      }
      var estimated := weight * (36.0 / (37.0 - reps as real));
      if estimated > max1RM {
        max1RM := estimated;
      }
      i := i + 1;
    }
    assert sets[..i] == sets;
  }

  // ---------------------------------------------------------------- the metric of one exercise

  const Metrics: seq<string> := ["weight", "volume", "reps", "1rm"]

  /** The value of the metric for one exercise's sets; an unknown metric gives 0. */
  function MetricValue(metric: string, sets: seq<Set>): real
  {
    match metric
    case "weight" => MaxWeight(sets)
    case "volume" => Volume(sets)
    case "reps" => MaxReps(sets) as real
    case "1rm" => Max1RM(sets)
    case _ => 0.0
  }

  /** The unit shown for a metric. */
  function Unit(metric: string): (u: string)
    ensures metric == "1rm" ==> u == "kg (estimated)"
    ensures metric == "reps" ==> u == "reps"
    ensures metric != "1rm" && metric != "reps" ==> u == "kg"
  {
    match metric
    case "1rm" => "kg (estimated)"
    case "volume" => "kg"
    case "reps" => "reps"
    case _ => "kg"
  }

  method ComputeMetric(metric: string, sets: seq<Set>) returns (value: real)
    ensures value == MetricValue(metric, sets)
  {
    value := 0.0;
    match metric {
      case "weight" => value := ComputeMaxWeight(sets);
      case "volume" => value := ComputeVolume(sets);
      case "reps" => value := ComputeMaxReps(sets);
      case "1rm" => value := ComputeEstimated1RM(sets);
      case _ =>
    }
  }

  // ---------------------------------------------------------------- the per-day maxima

  /** A missing day reads as 0, as a Go map does. */
  function Get(m: map<int, real>, d: int): real { if d in m then m[d] else 0.0 }

  /** `if value > dateValues[d] { dateValues[d] = value }`. */
  function Keep(m: map<int, real>, d: int, v: real): map<int, real>
  {
    if v > Get(m, d) then m[d := v] else m
  }

  /** Keeping the larger value does not depend on the order in which values arrive. */
  lemma KeepCommutes(m: map<int, real>, d1: int, v1: real, d2: int, v2: real)
    ensures Keep(Keep(m, d1, v1), d2, v2) == Keep(Keep(m, d2, v2), d1, v1)
  {
  }

  /** Two workouts on one day, with 80 and then 95: one value for the day, 95. */
  lemma PerDayMaxExample(d: int)
    ensures Keep(Keep(map[], d, 80.0), d, 95.0) == map[d := 95.0]
    ensures Keep(Keep(map[], d, 95.0), d, 80.0) == map[d := 95.0]
  {
  }

  /** The day maxima after the exercises of one workout on `day`. */
  function DayValues(m: map<int, real>, exs: seq<Exercise>, day: int, query: string, metric: string): map<int, real>
  {
    if exs == [] then m
    else
      var m' := DayValues(m, exs[..|exs| - 1], day, query, metric);
      var ex := exs[|exs| - 1];
      if ContainsFold(ex.title, query) then Keep(m', day, MetricValue(metric, ex.sets)) else m'
  }

  /** A workout counts when it starts within [start, end], both ends included. */
  predicate InWindow(w: Workout, start: int, end: int)
  {
    start <= w.startTime <= end
  }

  /** The `dateValues` map computeProgress fills. */
  function DateValues(ws: seq<Workout>, query: string, metric: string, start: int, end: int): map<int, real>
  {
    if ws == [] then map[]
    else
      var m := DateValues(ws[..|ws| - 1], query, metric, start, end);
      var w := ws[|ws| - 1];
      if InWindow(w, start, end) then DayValues(m, w.exercises, Day(w.startTime), query, metric) else m
  }

  /** Exercise j of workout i is one computeProgress takes a value from. */
  predicate Contributes(ws: seq<Workout>, query: string, start: int, end: int, i: int, j: int)
  {
    0 <= i < |ws| && InWindow(ws[i], start, end) &&
    0 <= j < |ws[i].exercises| && ContainsFold(ws[i].exercises[j].title, query)
  }

  predicate Positive(m: map<int, real>)
  {
    forall d :: d in m ==> m[d] > 0.0
  }

  /** Other days are untouched, no day goes down, and positive maps stay positive. */
  lemma {:induction false} DayValuesFrame(m: map<int, real>, exs: seq<Exercise>, day: int, query: string, metric: string)
    ensures var r := DayValues(m, exs, day, query, metric);
      (forall d :: d != day ==> Get(r, d) == Get(m, d) && (d in r <==> d in m)) &&
      Get(r, day) >= Get(m, day) &&
      (Positive(m) ==> Positive(r))
    decreases |exs|
  {
    if exs != [] {
      DayValuesFrame(m, exs[..|exs| - 1], day, query, metric);
    }
  }

  /** Every matching exercise's value is at most the day's maximum. */
  lemma {:induction false} DayValuesBound(m: map<int, real>, exs: seq<Exercise>, day: int, query: string, metric: string)
    ensures forall j :: 0 <= j < |exs| && ContainsFold(exs[j].title, query) ==>
      MetricValue(metric, exs[j].sets) <= Get(DayValues(m, exs, day, query, metric), day)
    decreases |exs|
  {
    if exs != [] {
      var init := exs[..|exs| - 1];
      DayValuesBound(m, init, day, query, metric);
      assert forall j :: 0 <= j < |init| ==> init[j] == exs[j];
    }
  }

  /** The day's maximum, if it changed, is the value of one matching exercise. */
  lemma {:induction false} DayValuesAttained(m: map<int, real>, exs: seq<Exercise>, day: int, query: string, metric: string)
    ensures var r := DayValues(m, exs, day, query, metric);
      (day in r && day in m && r[day] == m[day]) || day !in r ||
      exists j :: 0 <= j < |exs| && ContainsFold(exs[j].title, query) && MetricValue(metric, exs[j].sets) == r[day]
    decreases |exs|
  {
    if exs != [] {
      var init := exs[..|exs| - 1];
      DayValuesAttained(m, init, day, query, metric);
      var r' := DayValues(m, init, day, query, metric);
      if day in r' && !(day in m && r'[day] == m[day]) {
        var j :| 0 <= j < |init| && ContainsFold(init[j].title, query) && MetricValue(metric, init[j].sets) == r'[day];
        assert init[j] == exs[j];
      }
    }
  }

  lemma ContributesPrefix(ws: seq<Workout>, query: string, start: int, end: int)
    requires ws != []
    ensures forall i, j :: Contributes(ws[..|ws| - 1], query, start, end, i, j) ==> Contributes(ws, query, start, end, i, j)
  {
  }

  /** Every contributing exercise's value is at most the maximum kept for its day. */
  lemma {:induction false} DateValuesBound(ws: seq<Workout>, query: string, metric: string, start: int, end: int)
    ensures forall i, j :: Contributes(ws, query, start, end, i, j) ==>
      MetricValue(metric, ws[i].exercises[j].sets) <= Get(DateValues(ws, query, metric, start, end), Day(ws[i].startTime))
    decreases |ws|
  {
    if ws != [] {
      var init := ws[..|ws| - 1];
      var w := ws[|ws| - 1];
      var m := DateValues(init, query, metric, start, end);
      DateValuesBound(init, query, metric, start, end);
      if InWindow(w, start, end) {
        DayValuesFrame(m, w.exercises, Day(w.startTime), query, metric);
        DayValuesBound(m, w.exercises, Day(w.startTime), query, metric);
      }
      forall i, j | Contributes(ws, query, start, end, i, j)
        ensures MetricValue(metric, ws[i].exercises[j].sets) <= Get(DateValues(ws, query, metric, start, end), Day(ws[i].startTime))
      {
        if i < |init| {
          assert init[i] == ws[i];
          assert Contributes(init, query, start, end, i, j);
        }
      }
    }
  }

  /** Every kept value is positive and is the value of a contributing exercise on that day. */
  lemma {:induction false} DateValuesAttained(ws: seq<Workout>, query: string, metric: string, start: int, end: int)
    ensures var m := DateValues(ws, query, metric, start, end);
      Positive(m) &&
      forall d :: d in m ==>
        exists i, j :: (Contributes(ws, query, start, end, i, j) &&
          Day(ws[i].startTime) == d && MetricValue(metric, ws[i].exercises[j].sets) == m[d])
    decreases |ws|
  {
    if ws != [] {
      var init := ws[..|ws| - 1];
      var w := ws[|ws| - 1];
      var m := DateValues(init, query, metric, start, end);
      var r := DateValues(ws, query, metric, start, end);
      DateValuesAttained(init, query, metric, start, end);
      ContributesPrefix(ws, query, start, end);
      forall i | 0 <= i < |init| ensures init[i] == ws[i] { }
      if InWindow(w, start, end) {
        var day := Day(w.startTime);
        DayValuesFrame(m, w.exercises, day, query, metric);
        DayValuesAttained(m, w.exercises, day, query, metric);
        forall d | d in r
          ensures exists i, j :: (Contributes(ws, query, start, end, i, j) &&
            Day(ws[i].startTime) == d && MetricValue(metric, ws[i].exercises[j].sets) == r[d])
        {
          if d != day || (day in m && r[day] == m[day]) {
            assert d in m && r[d] == m[d];
            var i, j :| Contributes(init, query, start, end, i, j) &&
              Day(init[i].startTime) == d && MetricValue(metric, init[i].exercises[j].sets) == m[d];
            assert Contributes(ws, query, start, end, i, j);
          } else {
            var j :| 0 <= j < |w.exercises| && ContainsFold(w.exercises[j].title, query) &&
              MetricValue(metric, w.exercises[j].sets) == r[day];
            assert Contributes(ws, query, start, end, |ws| - 1, j);
          }
        }
      }
    }
  }

  /** An unknown metric produces no data points at all. */
  lemma {:induction false} UnknownMetricIsEmpty(ws: seq<Workout>, query: string, metric: string, start: int, end: int)
    requires metric !in Metrics
    ensures DateValues(ws, query, metric, start, end) == map[]
    decreases |ws|
  {
    if ws != [] {
      UnknownMetricIsEmpty(ws[..|ws| - 1], query, metric, start, end);
      var w := ws[|ws| - 1];
      if InWindow(w, start, end) {
        UnknownMetricDay(w.exercises, Day(w.startTime), query, metric);
      }
    }
  }

  lemma {:induction false} UnknownMetricDay(exs: seq<Exercise>, day: int, query: string, metric: string)
    requires metric !in Metrics
    ensures DayValues(map[], exs, day, query, metric) == map[]
    decreases |exs|
  {
    if exs != [] {
      UnknownMetricDay(exs[..|exs| - 1], day, query, metric);
    }
  }

  // ---------------------------------------------------------------- the matched title

  /** `if matchedExercise == "" { matchedExercise = ex.Title }` over one workout's exercises. */
  function MatchedIn(acc: string, exs: seq<Exercise>, query: string): string
  {
    if exs == [] then acc
    else
      var a := MatchedIn(acc, exs[..|exs| - 1], query);
      if ContainsFold(exs[|exs| - 1].title, query) && a == "" then exs[|exs| - 1].title else a
  }

  function MatchedTitle(ws: seq<Workout>, query: string, start: int, end: int): string
  {
    if ws == [] then ""
    else
      var a := MatchedTitle(ws[..|ws| - 1], query, start, end);
      var w := ws[|ws| - 1];
      if InWindow(w, start, end) then MatchedIn(a, w.exercises, query) else a
  }

  lemma {:induction false} MatchedInMatches(acc: string, exs: seq<Exercise>, query: string)
    requires acc == "" || ContainsFold(acc, query)
    ensures var a := MatchedIn(acc, exs, query); a == "" || ContainsFold(a, query)
    ensures acc != "" ==> MatchedIn(acc, exs, query) == acc
    decreases |exs|
  {
    if exs != [] {
      MatchedInMatches(acc, exs[..|exs| - 1], query);
    }
  }

  /** The reported exercise name, when a title matched, itself contains the query. */
  lemma {:induction false} MatchedTitleMatches(ws: seq<Workout>, query: string, start: int, end: int)
    ensures var t := MatchedTitle(ws, query, start, end); t == "" || ContainsFold(t, query)
    decreases |ws|
  {
    if ws != [] {
      MatchedTitleMatches(ws[..|ws| - 1], query, start, end);
      var w := ws[|ws| - 1];
      if InWindow(w, start, end) {
        MatchedInMatches(MatchedTitle(ws[..|ws| - 1], query, start, end), w.exercises, query);
      }
    }
  }

  /** Once a title is reported, later workouts do not replace it. */
  lemma MatchedTitleKeepsFirst(ws: seq<Workout>, w: Workout, query: string, start: int, end: int)
    requires MatchedTitle(ws, query, start, end) != ""
    ensures MatchedTitle(ws + [w], query, start, end) == MatchedTitle(ws, query, start, end)
  {
    assert (ws + [w])[..|ws|] == ws;
    MatchedTitleMatches(ws, query, start, end);
    MatchedInMatches(MatchedTitle(ws, query, start, end), w.exercises, query);
  }

  // ---------------------------------------------------------------- the series and its trend

  datatype ProgressPoint = ProgressPoint(date: int, value: real)

  datatype ProgressAnalysis = ProgressAnalysis(
    startingValue: real,
    currentValue: real,
    absoluteChange: real,
    percentChange: real,
    trend: string)

  datatype ProgressData = ProgressData(
    exercise: string,
    metric: string,
    unit: string,
    dataPoints: seq<ProgressPoint>,
    analysis: ProgressAnalysis)

  function Dates(points: seq<ProgressPoint>): seq<int>
  {
    seq(|points|, k requires 0 <= k < |points| => points[k].date)
  }

  /** The points list the days of `m` once each, ascending, each with its value. */
  predicate SeriesOf(points: seq<ProgressPoint>, m: map<int, real>)
  {
    StrictlyIncreasing(Dates(points)) && Elems(Dates(points)) == m.Keys &&
    forall k :: 0 <= k < |points| ==> points[k].date in m && points[k].value == m[points[k].date]
  }

  /** The trend summary of a series. */
  function Analyze(points: seq<ProgressPoint>): ProgressAnalysis
  {
    if |points| >= 2 then
      var first := points[0].value;
      var last := points[|points| - 1].value;
      ProgressAnalysis(first, last, last - first,
        if first > 0.0 then (last - first) / first * 100.0 else 0.0,
        if last > first then "increasing" else if last < first then "decreasing" else "stable")
    else if |points| == 1 then
      ProgressAnalysis(points[0].value, points[0].value, 0.0, 0.0, "insufficient_data")
    else ProgressAnalysis(0.0, 0.0, 0.0, 0.0, "")
  }

  /**
   * The analysis compares the last value with the first: the trend label and
   * the signs of both changes agree, and the percentage is relative to the
   * first value when that is positive and 0 otherwise.
   */
  lemma AnalyzeProperties(points: seq<ProgressPoint>)
    ensures var a := Analyze(points);
      (|points| >= 2 ==>
        a.startingValue == points[0].value && a.currentValue == points[|points| - 1].value &&
        a.startingValue + a.absoluteChange == a.currentValue &&
        (a.trend == "increasing" <==> a.absoluteChange > 0.0) &&
        (a.trend == "decreasing" <==> a.absoluteChange < 0.0) &&
        (a.trend == "stable" <==> a.absoluteChange == 0.0) &&
        (a.startingValue > 0.0 ==> a.percentChange * a.startingValue == a.absoluteChange * 100.0) &&
        (a.startingValue <= 0.0 ==> a.percentChange == 0.0)) &&
      (|points| == 1 ==> a.startingValue == a.currentValue == points[0].value && a.trend == "insufficient_data") &&
      (|points| == 0 ==> a == ProgressAnalysis(0.0, 0.0, 0.0, 0.0, ""))
  {
  }

  /** A series starting at 0 and ending at 50 reports a 0 percent change instead of dividing by zero. */
  lemma PercentChangeGuard()
    ensures Analyze([ProgressPoint(0, 0.0), ProgressPoint(1, 50.0)]).percentChange == 0.0
    ensures Analyze([ProgressPoint(0, 0.0), ProgressPoint(1, 50.0)]).trend == "increasing"
  {
  }

  /**
   * On a series the command builds every value is positive, so the
   * percentage is always computed there and the zero guard never fires.
   */
  lemma SeriesStartsPositive(points: seq<ProgressPoint>, m: map<int, real>)
    requires SeriesOf(points, m) && Positive(m) && |points| >= 2
    ensures Analyze(points).startingValue > 0.0
  {
    assert points[0].date in m;
  }

  /** The points for the sorted days. */
  method PointsOf(dates: seq<int>, m: map<int, real>) returns (points: seq<ProgressPoint>)
    requires forall k :: 0 <= k < |dates| ==> dates[k] in m
    ensures Dates(points) == dates
    ensures forall k :: 0 <= k < |points| ==> points[k].value == m[dates[k]]
  {
    points := [];
    var k := 0;
    while k < |dates|
      invariant 0 <= k <= |dates|
      invariant |points| == k
      invariant forall k' :: 0 <= k' < k ==> points[k'] == ProgressPoint(dates[k'], m[dates[k']])
    {
      points := points + [ProgressPoint(dates[k], m[dates[k]])];
      k := k + 1;
    }
  }

  /** computeProgress without the rounding of values. */
  method ComputeProgress(workouts: seq<Workout>, query: string, metric: string, start: int, end: int)
    returns (data: ProgressData)
    ensures data.metric == metric && data.unit == Unit(metric)
    ensures var t := MatchedTitle(workouts, query, start, end);
      data.exercise == if t == "" then query else t
    ensures SeriesOf(data.dataPoints, DateValues(workouts, query, metric, start, end))
    ensures data.analysis == Analyze(data.dataPoints)
  {
    var dateValues: map<int, real> := map[];
    var matched := "";
    var i := 0;
    while i < |workouts|
      invariant 0 <= i <= |workouts|
      invariant dateValues == DateValues(workouts[..i], query, metric, start, end)
      invariant matched == MatchedTitle(workouts[..i], query, start, end)
    {
      var w := workouts[i];
      assert workouts[..i + 1][..i] == workouts[..i];
      if start <= w.startTime <= end {
        var day := Day(w.startTime);
        var before, matchedBefore := dateValues, matched;
        var j := 0;
        while j < |w.exercises|
          invariant 0 <= j <= |w.exercises|
          invariant dateValues == DayValues(before, w.exercises[..j], day, query, metric)
          invariant matched == MatchedIn(matchedBefore, w.exercises[..j], query)
        {
          var ex := w.exercises[j];
          assert w.exercises[..j + 1][..j] == w.exercises[..j];
          if ContainsFold(ex.title, query) {
            if matched == "" {
              matched := ex.title;
            }
            var value := ComputeMetric(metric, ex.sets);
            if value > Get(dateValues, day) {
              dateValues := dateValues[day := value];
            }
          }
          j := j + 1;
        }
        assert w.exercises[..j] == w.exercises;
      }
      i := i + 1;
    }
    assert workouts[..i] == workouts;
    var exercise := if matched == "" then query else matched;
    var dates := SortedElements(dateValues.Keys);
    assert forall k :: 0 <= k < |dates| ==> dates[k] in Elems(dates);
    var points := PointsOf(dates, dateValues);
    data := ProgressData(exercise, metric, Unit(metric), points, Analyze(points));
  }

  // ---------------------------------------------------------------- the command

  /** Midnight UTC on 2000-01-01, where the "all" period starts. */
  const Year2000: int := 946684800

  /**
   * The start of the period before `now`; the calendar arithmetic of the
   * month and year periods is the time library's and comes in as parameters.
   */
  function PeriodStart(period: string, now: int, monthBefore: int, yearBefore: int): (r: Result<int>)
    ensures r.Err? <==> period !in ["week", "month", "year", "all"]
    ensures r.Err? ==> r.msg == "invalid period: " + period
    ensures period == "week" ==> r == Ok(now - 7 * SecondsPerDay)
    ensures period == "all" ==> r == Ok(Year2000)
  {
    match period
    case "week" => Ok(now - 7 * SecondsPerDay)
    case "month" => Ok(monthBefore)
    case "year" => Ok(yearBefore)
    case "all" => Ok(Year2000)
    case _ => Err("invalid period: " + period)
  }

  /** runProgress fails when the series is empty. */
  function ProgressOutcome(data: ProgressData, name: string): (r: Result<ProgressData>)
    ensures r.Err? <==> data.dataPoints == []
    ensures r.Err? ==> r.msg == "no data found for exercise '" + name + "'"
    ensures r.Ok? ==> r.value == data
  {
    if |data.dataPoints| == 0 then Err("no data found for exercise '" + name + "'") else Ok(data)
  }
}
