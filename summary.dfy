/**
 * `hevycli stats summary` (cmd/stats/summary.go): the workouts of a period,
 * their totals and averages, the most frequent exercises, workouts per week
 * and the longest and current streaks of consecutive workout days.
 *
 * Times are seconds since the Unix epoch; calendar days are whole days since
 * the epoch (UTC).
 */
module Summary {
  import opened Common
  import opened ApiTypes
  import opened Progress

  // ---------------------------------------------------------------- the period

  /** runSummary's period switch; it differs from the progress command only in its error text. */
  function SummaryPeriodStart(period: string, now: int, monthBefore: int, yearBefore: int): (r: Result<int>)
    ensures r.Err? <==> period !in ["week", "month", "year", "all"]
    ensures r.Err? ==> r.msg == "invalid period: " + period + " (use week, month, year, or all)"
    ensures r.Ok? ==> PeriodStart(period, now, monthBefore, yearBefore) == r
  {
    match PeriodStart(period, now, monthBefore, yearBefore)
    case Ok(t) => Ok(t)
    case Err(_) => Err("invalid period: " + period + " (use week, month, year, or all)")
  }

  /** `StartTime.After(startDate) && StartTime.Before(now)`: both bounds are excluded. */
  predicate InPeriod(t: int, start: int, now: int) { start < t < now }

  function Period(ws: seq<Workout>, start: int, now: int): seq<Workout>
  {
    if ws == [] then []
    else
      var w := ws[|ws| - 1];
      Period(ws[..|ws| - 1], start, now) + (if InPeriod(w.startTime, start, now) then [w] else [])
  }

  /** The period keeps exactly the workouts strictly inside it, and never adds any. */
  lemma {:induction false} PeriodMembers(ws: seq<Workout>, start: int, now: int)
    ensures forall w :: w in Period(ws, start, now) <==> w in ws && InPeriod(w.startTime, start, now)
    ensures |Period(ws, start, now)| <= |ws|
    decreases |ws|
  {
    if ws != [] {
      var init := ws[..|ws| - 1];
      PeriodMembers(init, start, now);
      assert ws == init + [ws[|ws| - 1]];
    }
  }

  /** The filter loop of runSummary. */
  method FilterPeriod(ws: seq<Workout>, start: int, now: int) returns (kept: seq<Workout>)
    ensures kept == Period(ws, start, now)
  {
    kept := [];
    var i := 0;
    while i < |ws|
      invariant 0 <= i <= |ws|
      invariant kept == Period(ws[..i], start, now)
    {
      assert ws[..i + 1][..i] == ws[..i];
      var w := ws[i];
      if start < w.startTime && w.startTime < now {
        kept := kept + [w];
      }
      i := i + 1;
    }
    assert ws[..i] == ws;
  }

  // ---------------------------------------------------------------- totals

  function TotalMinutes(ws: seq<Workout>): real
  {
    if ws == [] then 0.0 else TotalMinutes(ws[..|ws| - 1]) + Duration(ws[|ws| - 1]) as real / 60.0
  }

  function TotalSetsOf(ws: seq<Workout>): nat
  {
    if ws == [] then 0 else TotalSetsOf(ws[..|ws| - 1]) + SetCount(ws[|ws| - 1].exercises)
  }

  /** Σ weight × reps over the sets that have both, for a list of exercises. */
  function ExercisesVolume(exs: seq<Exercise>): real
  {
    if exs == [] then 0.0 else ExercisesVolume(exs[..|exs| - 1]) + Volume(exs[|exs| - 1].sets)
  }

  function VolumeOf(ws: seq<Workout>): real
  {
    if ws == [] then 0.0 else VolumeOf(ws[..|ws| - 1]) + ExercisesVolume(ws[|ws| - 1].exercises)
  }

  /** The calendar days with at least one workout. */
  function WorkoutDays(ws: seq<Workout>): set<int>
  {
    if ws == [] then {} else WorkoutDays(ws[..|ws| - 1]) + {Day(ws[|ws| - 1].startTime)}
  }

  lemma {:induction false} WorkoutDaysMembers(ws: seq<Workout>)
    ensures forall d :: d in WorkoutDays(ws) <==> exists i :: 0 <= i < |ws| && Day(ws[i].startTime) == d
    decreases |ws|
  {
    if ws != [] {
      var init := ws[..|ws| - 1];
      WorkoutDaysMembers(init);
      assert forall i :: 0 <= i < |init| ==> init[i] == ws[i];
    }
  }

  // ---------------------------------------------------------------- exercise counts

  function CountOf(m: map<string, int>, t: string): int { if t in m then m[t] else 0 }

  /** `exerciseCount[ex.Title]++` over a list of exercises. */
  function Tally(m: map<string, int>, exs: seq<Exercise>): map<string, int>
  {
    if exs == [] then m
    else
      var m' := Tally(m, exs[..|exs| - 1]);
      var t := exs[|exs| - 1].title;
      m'[t := CountOf(m', t) + 1]
  }

  /** The exerciseCount map after all workouts. */
  function Counts(ws: seq<Workout>): map<string, int>
  {
    if ws == [] then map[] else Tally(Counts(ws[..|ws| - 1]), ws[|ws| - 1].exercises)
  }

  /** Occurrences of a title, counted directly. */
  function TitleCount(exs: seq<Exercise>, t: string): nat
  {
    if exs == [] then 0 else TitleCount(exs[..|exs| - 1], t) + (if exs[|exs| - 1].title == t then 1 else 0)
  }

  function Occurrences(ws: seq<Workout>, t: string): nat
  {
    if ws == [] then 0 else Occurrences(ws[..|ws| - 1], t) + TitleCount(ws[|ws| - 1].exercises, t)
  }

  lemma {:induction false} TallyCounts(m: map<string, int>, exs: seq<Exercise>, t: string)
    ensures CountOf(Tally(m, exs), t) == CountOf(m, t) + TitleCount(exs, t)
    ensures t in Tally(m, exs) <==> t in m || TitleCount(exs, t) > 0
    decreases |exs|
  {
    if exs != [] {
      TallyCounts(m, exs[..|exs| - 1], t);
    }
  }

  /** The map holds exactly the titles that occur, each with its number of occurrences. */
  lemma {:induction false} CountsAreOccurrences(ws: seq<Workout>, t: string)
    ensures t in Counts(ws) <==> Occurrences(ws, t) > 0
    ensures CountOf(Counts(ws), t) == Occurrences(ws, t)
    decreases |ws|
  {
    if ws != [] {
      CountsAreOccurrences(ws[..|ws| - 1], t);
      TallyCounts(Counts(ws[..|ws| - 1]), ws[|ws| - 1].exercises, t);
    }
  }

  datatype ExerciseFrequency = ExerciseFrequency(name: string, count: int)

  function FrequencyCount(f: ExerciseFrequency): real { f.count as real }

  /** The most frequent list: up to five titles with their counts, largest first, none left out that beats one listed. */
  predicate TopFrequencies(counts: map<string, int>, top: seq<ExerciseFrequency>)
  {
    |top| == Min(5, |counts|) &&
    NonIncreasingBy(top, FrequencyCount) &&
    (forall f :: f in top ==> f.name in counts && counts[f.name] == f.count) &&
    NoDuplicates(top) &&
    forall n :: n in counts && ExerciseFrequency(n, counts[n]) !in top ==> forall f :: f in top ==> f.count >= counts[n]
  }

  /** The map iteration: one entry per title, with its count. */
  method FrequencyEntries(counts: map<string, int>) returns (all: seq<ExerciseFrequency>)
    ensures forall f :: f in all <==> f.name in counts && f.count == counts[f.name]
    ensures NoDuplicates(all)
    ensures |all| == |counts|
  {
    all := [];
    var todo := counts.Keys;
    while todo != {}
      invariant todo <= counts.Keys
      invariant forall f :: f in all <==> f.name in counts && f.name !in todo && f.count == counts[f.name]
      invariant NoDuplicates(all)
      invariant |all| + |todo| == |counts.Keys|
      decreases |todo|
    {
      var n :| n in todo;
      all := all + [ExerciseFrequency(n, counts[n])];
      todo := todo - {n};
    }
  }

  /** The sort by count and the cut to five. */
  method MostFrequent(counts: map<string, int>) returns (top: seq<ExerciseFrequency>)
    ensures TopFrequencies(counts, top)
  {
    var all := FrequencyEntries(counts);
    var sorted := SortByKey(all, FrequencyCount);
    assert forall f :: f in sorted <==> f in all by {
      assert forall f :: f in sorted <==> f in multiset(sorted);
      assert forall f :: f in all <==> f in multiset(all);
    }
    assert |sorted| == |all| by {
      assert |multiset(sorted)| == |multiset(all)|;
    }
    NoDuplicatesPermutation(all, sorted);
    var limit := 5;
    if |sorted| < limit {
      limit := |sorted|;
    }
    top := sorted[..limit];
    forall n | n in counts && ExerciseFrequency(n, counts[n]) !in top
      ensures forall f :: f in top ==> f.count >= counts[n]
    {
      PrefixDominates(sorted, limit, FrequencyCount, ExerciseFrequency(n, counts[n]));
    }
  }

  // ---------------------------------------------------------------- consistency

  /** `n / ((end-start)/7 days)`, guarded so that a non-positive span gives 0. */
  function WorkoutsPerWeek(n: nat, start: int, end: int): (r: real)
    ensures end <= start ==> r == 0.0
    ensures end > start ==> r * (end - start) as real == n as real * 7.0 * SecondsPerDay as real
  {
    var days := (end - start) as real / SecondsPerDay as real;
    if days > 0.0 then
      var weeks := days / 7.0;
      if weeks > 0.0 then n as real / weeks else 0.0
    else 0.0
  }

  // ---------------------------------------------------------------- streaks

  /** The days x with e - len < x <= e all have a workout. */
  predicate RunEndingAt(days: set<int>, e: int, len: int)
  {
    forall x :: e - len < x <= e ==> x in days
  }

  /** `n` is the length of the longest run of consecutive workout days. */
  ghost predicate IsLongest(days: set<int>, n: int)
  {
    n >= 1 && (exists e :: RunEndingAt(days, e, n)) &&
    forall e, len :: len >= 1 && RunEndingAt(days, e, len) ==> len <= n
  }

  /** currentStreak after looking at date k of the ascending list. */
  function StreakAt(ds: seq<int>, k: nat): nat
    requires k < |ds|
  {
    if k == 0 then 1 else if ds[k] - ds[k - 1] <= 1 then StreakAt(ds, k - 1) + 1 else 1
  }

  /** longestStreak after the first n dates. */
  function LongestUpTo(ds: seq<int>, n: nat): nat
    requires 1 <= n <= |ds|
  {
    if n == 1 then 1 else Max(LongestUpTo(ds, n - 1), StreakAt(ds, n - 1))
  }

  /** The counter is the length of a run of workout days ending at that date. */
  lemma {:induction false} StreakIsRun(ds: seq<int>, k: nat)
    requires StrictlyIncreasing(ds) && k < |ds|
    ensures RunEndingAt(Elems(ds), ds[k], StreakAt(ds, k))
    decreases k
  {
    if k > 0 && ds[k] - ds[k - 1] <= 1 {
      StreakIsRun(ds, k - 1);
      assert ds[k - 1] == ds[k] - 1;
    }
  }

  /** Every run of workout days ending at a date is counted by the counter at that date. */
  lemma {:induction false} RunBoundedByStreak(ds: seq<int>, k: nat, len: int)
    requires StrictlyIncreasing(ds) && k < |ds|
    requires len >= 1 && RunEndingAt(Elems(ds), ds[k], len)
    ensures len <= StreakAt(ds, k)
    decreases k
  {
    if len > 1 {
      assert ds[k] - 1 in Elems(ds);
      var m :| 0 <= m < |ds| && ds[m] == ds[k] - 1;
      assert m < k;
      assert m <= k - 1;
      assert ds[m] <= ds[k - 1] < ds[k];
      assert ds[k - 1] == ds[k] - 1;
      assert RunEndingAt(Elems(ds), ds[k - 1], len - 1);
      RunBoundedByStreak(ds, k - 1, len - 1);
    }
  }

  lemma {:induction false} LongestUpToIsMax(ds: seq<int>, n: nat)
    requires 1 <= n <= |ds|
    ensures exists k :: 0 <= k < n && LongestUpTo(ds, n) == StreakAt(ds, k)
    ensures forall k :: 0 <= k < n ==> StreakAt(ds, k) <= LongestUpTo(ds, n)
    decreases n
  {
    if n > 1 {
      LongestUpToIsMax(ds, n - 1);
    } else {
      assert LongestUpTo(ds, n) == StreakAt(ds, 0);
    }
  }

  /** The longest-streak loop over the ascending dates computes the longest run of consecutive days. */
  lemma LongestStreakCorrect(ds: seq<int>)
    requires StrictlyIncreasing(ds) && |ds| >= 1
    ensures IsLongest(Elems(ds), LongestUpTo(ds, |ds|))
  {
    var n := LongestUpTo(ds, |ds|);
    LongestUpToIsMax(ds, |ds|);
    var k :| 0 <= k < |ds| && n == StreakAt(ds, k);
    StreakIsRun(ds, k);
    forall e, len | len >= 1 && RunEndingAt(Elems(ds), e, len)
      ensures len <= n
    {
      assert e in Elems(ds);
      var j :| 0 <= j < |ds| && ds[j] == e;
      RunBoundedByStreak(ds, j, len);
    }
  }

  /** The workout days up to d. */
  function UpTo(days: set<int>, d: int): set<int> { set x | x in days && x <= d }

  lemma UpToShrinks(days: set<int>, d: int)
    requires d in days
    ensures |UpTo(days, d - 1)| < |UpTo(days, d)|
  {
    assert UpTo(days, d) == UpTo(days, d - 1) + {d};
  }

  /** The number of consecutive workout days counting back from d. */
  function WalkBack(days: set<int>, d: int): nat
    decreases |UpTo(days, d)|
  {
    if d in days then
      UpToShrinks(days, d);
      1 + WalkBack(days, d - 1)
    else 0
  }

  /** The walk counts a run ending at d that cannot be extended back. */
  lemma {:induction false} WalkBackRun(days: set<int>, d: int)
    ensures RunEndingAt(days, d, WalkBack(days, d))
    ensures d - WalkBack(days, d) !in days
    decreases |UpTo(days, d)|
  {
    if d in days {
      UpToShrinks(days, d);
      WalkBackRun(days, d - 1);
    }
  }

  /** So no run ending at d is longer than the walk. */
  lemma WalkBackMaximal(days: set<int>, d: int, len: int)
    requires len > WalkBack(days, d)
    ensures !RunEndingAt(days, d, len)
  {
    WalkBackRun(days, d);
    assert d - len < d - WalkBack(days, d) <= d;
  }

  /** The current-streak walk of calculateStreaks: from d back, while the day has a workout. */
  method WalkBackFrom(days: set<int>, d: int) returns (n: nat)
    ensures n == WalkBack(days, d)
  {
    n := 0;
    var checkDate := d;
    while checkDate in days
      invariant WalkBack(days, d) == n + WalkBack(days, checkDate)
      decreases |UpTo(days, checkDate)|
    {
      UpToShrinks(days, checkDate);
      n := n + 1;
      checkDate := checkDate - 1;
    }
  }

  /** The guard and the walk as written: the walk starts at endDate whether or not yesterday passed the guard. */
  method CurrentStreakAsWritten(days: set<int>, endDay: int) returns (current: nat)
    ensures current == WalkBack(days, endDay)
  {
    if endDay !in days && endDay - 1 !in days {
      return 0;
    }
    current := WalkBackFrom(days, endDay);
  }

  /** A streak that ended yesterday passes the guard and is still counted as 0, where the intended count is 1. */
  lemma YesterdayStreakIsLost(d: int)
    ensures !(d !in {d - 1} && d - 1 !in {d - 1})
    ensures WalkBack({d - 1}, d) == 0
    ensures CurrentStreakOf({d - 1}, d) == 1
  {
    assert WalkBack({d - 1}, d - 2) == 0;
  }

  /** The current streak as the guard intends it: counted from today, or from yesterday when today has no workout yet. */
  function CurrentStreakOf(days: set<int>, endDay: int): nat
  {
    if endDay in days then WalkBack(days, endDay) else WalkBack(days, endDay - 1)
  }

  /** The intended current streak is 0 exactly when neither today nor yesterday has a workout, and is a maximal run. */
  lemma CurrentStreakProperties(days: set<int>, endDay: int)
    ensures CurrentStreakOf(days, endDay) == 0 <==> endDay !in days && endDay - 1 !in days
    ensures var e := if endDay in days then endDay else endDay - 1;
      RunEndingAt(days, e, CurrentStreakOf(days, endDay)) && e - CurrentStreakOf(days, endDay) !in days
  {
    WalkBackRun(days, endDay);
    WalkBackRun(days, endDay - 1);
  }

  method CurrentStreak(days: set<int>, endDay: int) returns (current: nat)
    ensures current == CurrentStreakOf(days, endDay)
  {
    if endDay !in days && endDay - 1 !in days {
      return 0;
    }
    var from := endDay;
    if endDay !in days {
      from := endDay - 1;
    }
    current := WalkBackFrom(days, from);
  }

  /** The current streak never exceeds the longest: its days are a run in the same set. */
  lemma CurrentWithinLongest(days: set<int>, endDay: int, longest: int)
    requires IsLongest(days, longest)
    ensures CurrentStreakOf(days, endDay) <= longest
  {
    CurrentStreakProperties(days, endDay);
    var e := if endDay in days then endDay else endDay - 1;
    if CurrentStreakOf(days, endDay) >= 1 {
      assert RunEndingAt(days, e, CurrentStreakOf(days, endDay));
    }
  }

  /** The walk from any day never exceeds the longest streak: its days are a run in the same set. */
  lemma WalkBackWithinLongest(days: set<int>, endDay: int, longest: int)
    requires IsLongest(days, longest)
    ensures WalkBack(days, endDay) <= longest
  {
    WalkBackRun(days, endDay);
  }

  /** calculateStreaks as written: the current streak is the walk from endDate. */
  method CalculateStreaks(days: set<int>, endDay: int) returns (longest: nat, current: nat)
    ensures days == {} ==> longest == 0 && current == 0
    ensures days != {} ==> IsLongest(days, longest)
    ensures current == WalkBack(days, endDay)
    ensures current <= longest
  {
    if |days| == 0 {
      return 0, 0;
    }
    longest := LongestStreak(days);
    current := CurrentStreakAsWritten(days, endDay);
    WalkBackWithinLongest(days, endDay, longest);
  }

  /** calculateStreaks with the current streak as the guard intends it. */
  method CalculateStreaksIntended(days: set<int>, endDay: int) returns (longest: nat, current: nat)
    ensures days == {} ==> longest == 0 && current == 0
    ensures days != {} ==> IsLongest(days, longest)
    ensures current == CurrentStreakOf(days, endDay)
    ensures current <= longest
  {
    if |days| == 0 {
      return 0, 0;
    }
    longest := LongestStreak(days);
    current := CurrentStreak(days, endDay);
    CurrentWithinLongest(days, endDay, longest);
  }

  /** The longest-streak loop of calculateStreaks over the ascending dates. */
  method LongestStreak(days: set<int>) returns (longest: nat)
    requires days != {}
    ensures IsLongest(days, longest)
  {
    var dates := SortedElements(days);
    var currentStreak := 1;
    var longestStreak := 1;
    var i := 1;
    while i < |dates|
      invariant 1 <= i <= |dates|
      invariant currentStreak == StreakAt(dates, i - 1)
      invariant longestStreak == LongestUpTo(dates, i)
    {
      var diff := dates[i] - dates[i - 1];
      if diff <= 1 {
        currentStreak := currentStreak + 1;
        if currentStreak > longestStreak {
          longestStreak := currentStreak;
        }
      } else {
        currentStreak := 1;
      }
      i := i + 1;
    }
    LongestStreakCorrect(dates);
    longest := longestStreak;
  }

  lemma NoRunOfFour(d: int, e: int)
    ensures !RunEndingAt({d, d + 1, d + 2, d + 4}, e, 4)
  {
    var days := {d, d + 1, d + 2, d + 4};
    if e == d + 4 {
      assert e - 1 !in days;
    } else if e == d + 2 || e == d + 1 || e == d {
      assert e - 3 !in days;
    } else {
      assert e !in days;
    }
  }

  /** Days d, d+1, d+2 and d+4 with the period ending on d+4: longest 3, current 1. */
  lemma StreakExample(d: int, longest: int)
    requires IsLongest({d, d + 1, d + 2, d + 4}, longest)
    ensures longest == 3
    ensures WalkBack({d, d + 1, d + 2, d + 4}, d + 4) == 1
  {
    var days := {d, d + 1, d + 2, d + 4};
    assert RunEndingAt(days, d + 2, 3);
    var e :| RunEndingAt(days, e, longest);
    NoRunOfFour(d, e);
    assert d + 3 !in days;
    assert WalkBack(days, d + 3) == 0;
  }

  // ---------------------------------------------------------------- the statistics

  datatype SummaryStats = SummaryStats(
    periodStart: int,
    periodEnd: int,
    total: nat,
    averageDurationMinutes: real,
    totalDurationHours: real,
    totalKg: real,
    averagePerWorkoutKg: real,
    uniqueCount: nat,
    totalSets: nat,
    mostFrequent: seq<ExerciseFrequency>,
    workoutsPerWeek: real,
    longestStreakDays: nat,
    currentStreakDays: nat)

  /** What is left of the statistics when there is no workout: only the period. */
  function EmptyStats(start: int, end: int): SummaryStats
  {
    SummaryStats(Day(start), Day(end), 0, 0.0, 0.0, 0.0, 0.0, 0, 0, [], 0.0, 0, 0)
  }

  /** The exercise loop of computeSummaryStats for one workout. */
  method TallyExercises(counts0: map<string, int>, sets0: nat, volume0: real, exs: seq<Exercise>)
    returns (counts: map<string, int>, sets: nat, volume: real)
    ensures counts == Tally(counts0, exs)
    ensures sets == sets0 + SetCount(exs)
    ensures volume == volume0 + ExercisesVolume(exs)
  {
    counts, sets, volume := counts0, sets0, volume0;
    var j := 0;
    while j < |exs|
      invariant 0 <= j <= |exs|
      invariant counts == Tally(counts0, exs[..j])
      invariant sets == sets0 + SetCount(exs[..j])
      invariant volume == volume0 + ExercisesVolume(exs[..j])
    {
      var ex := exs[j];
      assert exs[..j + 1][..j] == exs[..j];
      SetCountAppend(exs[..j], [ex]);
      assert exs[..j] + [ex] == exs[..j + 1];
      counts := counts[ex.title := CountOf(counts, ex.title) + 1];
      sets := sets + |ex.sets|;
      var v := ComputeVolume(ex.sets);
      volume := volume + v;
      j := j + 1;
    }
    assert exs[..j] == exs;
  }

  /** computeSummaryStats. */
  method ComputeSummaryStats(ws: seq<Workout>, start: int, end: int) returns (st: SummaryStats)
    ensures st.periodStart == Day(start) && st.periodEnd == Day(end) && st.total == |ws|
    ensures ws == [] ==> st == EmptyStats(start, end)
    ensures ws != [] ==>
      st.totalDurationHours == TotalMinutes(ws) / 60.0 &&
      st.averageDurationMinutes == TotalMinutes(ws) / |ws| as real &&
      st.totalKg == VolumeOf(ws) &&
      st.averagePerWorkoutKg == VolumeOf(ws) / |ws| as real &&
      st.totalSets == TotalSetsOf(ws) &&
      st.uniqueCount == |Counts(ws)| &&
      TopFrequencies(Counts(ws), st.mostFrequent) &&
      st.workoutsPerWeek == WorkoutsPerWeek(|ws|, start, end) &&
      IsLongest(WorkoutDays(ws), st.longestStreakDays) &&
      st.currentStreakDays == WalkBack(WorkoutDays(ws), Day(end)) &&
      st.currentStreakDays <= st.longestStreakDays
  {
    if |ws| == 0 {
      return EmptyStats(start, end);
    }
    var totalDurationMinutes := 0.0;
    var totalVolumeKg := 0.0;
    var totalSets: nat := 0;
    var exerciseCount: map<string, int> := map[];
    var workoutDates: set<int> := {};
    var i := 0;
    while i < |ws|
      invariant 0 <= i <= |ws|
      invariant totalDurationMinutes == TotalMinutes(ws[..i])
      invariant totalVolumeKg == VolumeOf(ws[..i])
      invariant totalSets == TotalSetsOf(ws[..i])
      invariant exerciseCount == Counts(ws[..i])
      invariant workoutDates == WorkoutDays(ws[..i])
    {
      var w := ws[i];
      assert ws[..i + 1][..i] == ws[..i];
      totalDurationMinutes := totalDurationMinutes + (w.endTime - w.startTime) as real / 60.0;
      workoutDates := workoutDates + {Day(w.startTime)};
      exerciseCount, totalSets, totalVolumeKg := TallyExercises(exerciseCount, totalSets, totalVolumeKg, w.exercises);
      i := i + 1;
    }
    assert ws[..i] == ws;
    assert workoutDates != {} by {
      assert Day(ws[|ws| - 1].startTime) in workoutDates;
    }
    var top := MostFrequent(exerciseCount);
    var longest, current := CalculateStreaks(workoutDates, Day(end));
    st := SummaryStats(
      Day(start), Day(end), |ws|,
      totalDurationMinutes / |ws| as real, totalDurationMinutes / 60.0,
      totalVolumeKg, totalVolumeKg / |ws| as real,
      |exerciseCount|, totalSets, top,
      WorkoutsPerWeek(|ws|, start, end),
      longest, current);
  }
}
