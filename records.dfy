/**
 * `hevycli stats records` (cmd/stats/records.go): per exercise title, the
 * best weight, the best estimated one-rep max and the best session volume
 * over all workouts, each with the day and workout that set it; then the
 * weight and 1RM records sorted by value and cut to a limit.
 *
 * Days are whole days since the Unix epoch (UTC). Values are exact reals;
 * the rounding to one decimal is not modelled.
 */
module Records {
  import opened Common
  import opened ApiTypes
  import opened Progress

  // ---------------------------------------------------------------- case-insensitive search

  /** toLower: the byte loop over the string. */
  method ToLower(s: string) returns (r: string)
    ensures r == Lower(s)
  {
    var b: seq<char> := [];
    var i := 0;
    while i < |s|
      invariant 0 <= i <= |s|
      invariant b == Lower(s[..i])
    {
      var c := s[i];
      if 'A' <= c <= 'Z' {
        c := (c as int + ('a' as int - 'A' as int)) as char;
      }
      b := b + [c];
      i := i + 1;
    }
    r := b;
  }

  /** Lowering keeps the length, changes only 'A'..'Z', and maps each of them to its lower-case letter. */
  lemma LowerProperties(s: string)
    ensures |Lower(s)| == |s|
    ensures forall i :: 0 <= i < |s| && !IsUpper(s[i]) ==> Lower(s)[i] == s[i]
    ensures forall i :: 0 <= i < |s| && IsUpper(s[i]) ==> 'a' <= Lower(s)[i] <= 'z' && Lower(s)[i] as int == s[i] as int + 32
    ensures Lower(Lower(s)) == Lower(s)
  {
    LowerIdempotent(s);
  }

  /** containsLower: the scan over every offset. */
  method ContainsLower(s: string, substr: string) returns (found: bool)
    ensures found == Contains(s, substr)
  {
    var i := 0;
    while i <= |s| - |substr|
      invariant 0 <= i
      invariant |substr| <= |s| ==> i <= |s| - |substr| + 1
      invariant forall k :: 0 <= k < i ==> !OccursAt(s, substr, k)
    {
      if s[i..i + |substr|] == substr {
        assert OccursAt(s, substr, i);
        return true;
      }
      i := i + 1;
    }
    return false;
  }

  /** containsIgnoreCase, with its shortcuts. */
  predicate ContainsIgnoreCase(s: string, substr: string)
  {
    |s| >= |substr| && (s == substr || |substr| == 0 || (|s| > 0 && Contains(Lower(s), Lower(substr))))
  }

  /** The shortcuts change nothing: containsIgnoreCase is a case-folded substring test. */
  lemma ContainsIgnoreCaseIsFold(s: string, substr: string)
    ensures ContainsIgnoreCase(s, substr) <==> ContainsFold(s, substr)
    ensures ContainsIgnoreCase(s, "")
    ensures |substr| > |s| ==> !ContainsIgnoreCase(s, substr)
  {
    ContainsEmpty(Lower(s));
    if s == substr {
      ContainsSelf(Lower(s));
    }
    if |substr| > |s| {
      ContainsLonger(Lower(s), Lower(substr));
    }
  }

  // ---------------------------------------------------------------- one exercise in one workout

  /** The session values of one exercise in one workout. */
  datatype SessionBest = SessionBest(volume: real, maxWeight: real, maxWeightReps: int, best1RM: real, best1RMReps: int)

  const NoSession: SessionBest := SessionBest(0.0, 0.0, 0, 0.0, 0)

  function RepsOrZero(s: Set): int { if s.reps.Some? then s.reps.value else 0 }

  /** The sets the session 1RM uses: a weight, and 1 to 10 reps. */
  predicate Eligible1RM(s: Set) { s.weightKg.Some? && 0 < RepsOrZero(s) <= 10 }

  /** One pass of the set loop: unweighted sets are skipped, missing reps count as 0. */
  function SessionStep(b: SessionBest, s: Set): SessionBest
  {
    if s.weightKg.None? then b
    else
      var w := s.weightKg.value;
      var r := RepsOrZero(s);
      var b1 := if w > b.maxWeight then b.(maxWeight := w, maxWeightReps := r) else b;
      var b2 := if r > 0 then b1.(volume := b1.volume + w * r as real) else b1;
      if 0 < r <= 10 && Brzycki(w, r) > b2.best1RM then b2.(best1RM := Brzycki(w, r), best1RMReps := r) else b2
  }

  function Session(sets: seq<Set>): SessionBest
  {
    if sets == [] then NoSession else SessionStep(Session(sets[..|sets| - 1]), sets[|sets| - 1])
  }

  /** The session's best weight is the heaviest weighted set, with that set's reps (the first such set). */
  lemma {:induction false} SessionMaxWeight(sets: seq<Set>)
    ensures Session(sets).maxWeight >= 0.0
    ensures forall i :: 0 <= i < |sets| && sets[i].weightKg.Some? ==> sets[i].weightKg.value <= Session(sets).maxWeight
    ensures Session(sets).maxWeight == 0.0 ||
      exists i :: 0 <= i < |sets| && sets[i].weightKg == Some(Session(sets).maxWeight) &&
        RepsOrZero(sets[i]) == Session(sets).maxWeightReps
    decreases |sets|
  {
    if sets != [] {
      var init := sets[..|sets| - 1];
      SessionMaxWeight(init);
      assert forall i :: 0 <= i < |init| ==> init[i] == sets[i];
    }
  }

  /** The session 1RM is the best Brzycki estimate over sets of 1 to 10 reps, with that set's reps. */
  lemma {:induction false} SessionBest1RM(sets: seq<Set>)
    ensures Session(sets).best1RM >= 0.0
    ensures forall i :: 0 <= i < |sets| && Eligible1RM(sets[i]) ==>
      Brzycki(sets[i].weightKg.value, RepsOrZero(sets[i])) <= Session(sets).best1RM
    ensures Session(sets).best1RM == 0.0 ||
      exists i :: 0 <= i < |sets| && Eligible1RM(sets[i]) &&
        Brzycki(sets[i].weightKg.value, RepsOrZero(sets[i])) == Session(sets).best1RM &&
        RepsOrZero(sets[i]) == Session(sets).best1RMReps
    decreases |sets|
  {
    if sets != [] {
      var init := sets[..|sets| - 1];
      SessionBest1RM(init);
      assert forall i :: 0 <= i < |init| ==> init[i] == sets[i];
    }
  }

  /** A set without weight is skipped entirely. */
  lemma SessionSkipsUnweighted(sets: seq<Set>, s: Set)
    requires s.weightKg.None?
    ensures Session(sets + [s]) == Session(sets)
  {
    assert (sets + [s])[..|sets|] == sets;
  }

  /** A weighted set without reps can raise the best weight but adds nothing to volume or 1RM. */
  lemma SessionMissingReps(sets: seq<Set>, s: Set)
    requires s.weightKg.Some? && s.reps.None?
    ensures Session(sets + [s]).volume == Session(sets).volume
    ensures Session(sets + [s]).best1RM == Session(sets).best1RM
    ensures Session(sets + [s]).maxWeight == if s.weightKg.value > Session(sets).maxWeight then s.weightKg.value else Session(sets).maxWeight
  {
    assert (sets + [s])[..|sets|] == sets;
  }

  /** The set loop of computeRecords for one exercise. */
  method ComputeSession(sets: seq<Set>) returns (b: SessionBest)
    ensures b == Session(sets)
  {
    var sessionVolume, sessionMaxWeight, sessionMaxWeightReps, session1RM, session1RMReps := 0.0, 0.0, 0, 0.0, 0;
    var i := 0;
    while i < |sets|
      invariant 0 <= i <= |sets|
      invariant SessionBest(sessionVolume, sessionMaxWeight, sessionMaxWeightReps, session1RM, session1RMReps) == Session(sets[..i])
    {
      assert sets[..i + 1][..i] == sets[..i];
      var s := sets[i];
      ghost var before := Session(sets[..i]);
      assert Session(sets[..i + 1]) == SessionStep(before, s);
      if s.weightKg.None? {
        i := i + 1;
        continue;
      }
      var weight := s.weightKg.value;
      var reps := 0;
      if s.reps.Some? {
        reps := s.reps.value;
      }
      if weight > sessionMaxWeight {
        sessionMaxWeight := weight;
        sessionMaxWeightReps := reps;
      }
      if reps > 0 {
        sessionVolume := sessionVolume + weight * reps as real;
      }
      if reps > 0 && reps <= 10 {
        var estimated := Brzycki(weight, reps);
        if estimated > session1RM {
          session1RM := estimated;
          session1RMReps := reps;
        }
      }
      assert SessionBest(sessionVolume, sessionMaxWeight, sessionMaxWeightReps, session1RM, session1RMReps) == SessionStep(before, s);
      i := i + 1;
    }
    assert sets[..i] == sets;
    b := SessionBest(sessionVolume, sessionMaxWeight, sessionMaxWeightReps, session1RM, session1RMReps);
  }

  // ---------------------------------------------------------------- the records of one title

  datatype RecordKind = WeightRecord | OneRMRecord | VolumeRecord

  /** The best value of one kind, with the reps, day and workout that set it. */
  datatype Best = Best(value: real, reps: int, date: int, workoutId: string)

  datatype ExerciseRecord = ExerciseRecord(weight: Best, oneRM: Best, volume: Best)

  const NoBest: Best := Best(0.0, 0, 0, "")
  const NoRecord: ExerciseRecord := ExerciseRecord(NoBest, NoBest, NoBest)

  function BestOf(rec: ExerciseRecord, k: RecordKind): Best
  {
    match k
    case WeightRecord => rec.weight
    case OneRMRecord => rec.oneRM
    case VolumeRecord => rec.volume
  }

  /** What a session offers for a record kind: value and reps (volume has no reps). */
  function Offer(b: SessionBest, k: RecordKind): (real, int)
  {
    match k
    case WeightRecord => (b.maxWeight, b.maxWeightReps)
    case OneRMRecord => (b.best1RM, b.best1RMReps)
    case VolumeRecord => (b.volume, 0)
  }

  /** A record is replaced only by a strictly greater session value. */
  function Improve(best: Best, offer: (real, int), date: int, wid: string): Best
  {
    if offer.0 > best.value then Best(offer.0, offer.1, date, wid) else best
  }

  /** The three record updates after one exercise of one workout. */
  function Merge(rec: ExerciseRecord, b: SessionBest, date: int, wid: string): (r: ExerciseRecord)
    ensures forall k :: BestOf(r, k) == Improve(BestOf(rec, k), Offer(b, k), date, wid)
  {
    ExerciseRecord(
      Improve(rec.weight, Offer(b, WeightRecord), date, wid),
      Improve(rec.oneRM, Offer(b, OneRMRecord), date, wid),
      Improve(rec.volume, Offer(b, VolumeRecord), date, wid))
  }

  /** A session that only equals a record leaves it, with its day and workout, as it was. */
  lemma TiesKeepEarlier(rec: ExerciseRecord, b: SessionBest, date: int, wid: string, k: RecordKind)
    requires Offer(b, k).0 <= BestOf(rec, k).value
    ensures BestOf(Merge(rec, b, date, wid), k) == BestOf(rec, k)
  {
  }

  function RecordOf(recs: map<string, ExerciseRecord>, title: string): ExerciseRecord
  {
    if title in recs then recs[title] else NoRecord
  }

  /** The exercise filter: empty keeps everything. */
  predicate Passes(title: string, filter: string)
  {
    filter == "" || ContainsIgnoreCase(title, filter)
  }

  /** The records after the exercises of one workout. */
  function WorkoutRecords(recs: map<string, ExerciseRecord>, exs: seq<Exercise>, date: int, wid: string, filter: string): map<string, ExerciseRecord>
  {
    if exs == [] then recs
    else
      var m := WorkoutRecords(recs, exs[..|exs| - 1], date, wid, filter);
      var ex := exs[|exs| - 1];
      if Passes(ex.title, filter) then m[ex.title := Merge(RecordOf(m, ex.title), Session(ex.sets), date, wid)] else m
  }

  /** The `exerciseRecords` map after all workouts. */
  function AllRecords(ws: seq<Workout>, filter: string): map<string, ExerciseRecord>
  {
    if ws == [] then map[]
    else
      var w := ws[|ws| - 1];
      WorkoutRecords(AllRecords(ws[..|ws| - 1], filter), w.exercises, Day(w.startTime), w.id, filter)
  }

  /** Exercise j of workout i feeds the records. */
  predicate Feeds(ws: seq<Workout>, filter: string, i: int, j: int)
  {
    0 <= i < |ws| && 0 <= j < |ws[i].exercises| && Passes(ws[i].exercises[j].title, filter)
  }

  /** The best of kind k that exercise j of workout i offers, as a record. */
  function OfferedBest(ws: seq<Workout>, k: RecordKind, i: int, j: int): Best
    requires 0 <= i < |ws| && 0 <= j < |ws[i].exercises|
  {
    ExerciseBest(ws[i].exercises[j], k, Day(ws[i].startTime), ws[i].id)
  }

  function ExerciseBest(ex: Exercise, k: RecordKind, date: int, wid: string): Best
  {
    var o := Offer(Session(ex.sets), k);
    Best(o.0, o.1, date, wid)
  }

  /** `b` is what one contributing exercise of title t in `exs` offered. */
  predicate SetIn(exs: seq<Exercise>, date: int, wid: string, filter: string, k: RecordKind, t: string, b: Best)
  {
    exists j :: 0 <= j < |exs| && exs[j].title == t && Passes(t, filter) && b == ExerciseBest(exs[j], k, date, wid)
  }

  /** `b` is what `recs` held for t before (nothing, if t was absent). */
  predicate KeptFrom(recs: map<string, ExerciseRecord>, k: RecordKind, t: string, b: Best)
  {
    if t in recs then b == BestOf(recs[t], k) else b == NoBest
  }

  predicate NonNegative(recs: map<string, ExerciseRecord>, k: RecordKind)
  {
    forall t :: t in recs ==> BestOf(recs[t], k).value >= 0.0
  }

  /** Within one workout: a title is in the map afterwards iff it was before or one of its exercises passes the filter. */
  lemma {:induction false} WorkoutRecordsKeys(recs: map<string, ExerciseRecord>, exs: seq<Exercise>, date: int, wid: string, filter: string)
    ensures forall t :: t in WorkoutRecords(recs, exs, date, wid, filter) <==>
      t in recs || exists j :: 0 <= j < |exs| && exs[j].title == t && Passes(t, filter)
    decreases |exs|
  {
    if exs != [] {
      var init := exs[..|exs| - 1];
      WorkoutRecordsKeys(recs, init, date, wid, filter);
      assert forall j :: 0 <= j < |init| ==> init[j] == exs[j];
    }
  }

  /** A merge never lowers a record. */
  lemma MergeGrows(m: map<string, ExerciseRecord>, t: string, b: SessionBest, date: int, wid: string, k: RecordKind)
    ensures var r := m[t := Merge(RecordOf(m, t), b, date, wid)];
      (forall u :: u in m ==> BestOf(m[u], k).value <= BestOf(r[u], k).value) &&
      Offer(b, k).0 <= BestOf(r[t], k).value
  {
  }

  /** Within one workout: values only grow. */
  lemma {:induction false} WorkoutRecordsGrow(recs: map<string, ExerciseRecord>, exs: seq<Exercise>, date: int, wid: string, filter: string, k: RecordKind)
    ensures var r := WorkoutRecords(recs, exs, date, wid, filter);
      forall t :: t in recs ==> t in r && BestOf(recs[t], k).value <= BestOf(r[t], k).value
    decreases |exs|
  {
    if exs != [] {
      var init := exs[..|exs| - 1];
      WorkoutRecordsGrow(recs, init, date, wid, filter, k);
      var m := WorkoutRecords(recs, init, date, wid, filter);
      var ex := exs[|exs| - 1];
      MergeGrows(m, ex.title, Session(ex.sets), date, wid, k);
    }
  }

  /** Within one workout: every contributing exercise's offer is covered by its title's record. */
  lemma {:induction false} WorkoutRecordsCover(recs: map<string, ExerciseRecord>, exs: seq<Exercise>, date: int, wid: string, filter: string, k: RecordKind)
    ensures var r := WorkoutRecords(recs, exs, date, wid, filter);
      forall j :: 0 <= j < |exs| && Passes(exs[j].title, filter) ==>
        exs[j].title in r && Offer(Session(exs[j].sets), k).0 <= BestOf(r[exs[j].title], k).value
    decreases |exs|
  {
    if exs != [] {
      var init := exs[..|exs| - 1];
      WorkoutRecordsCover(recs, init, date, wid, filter, k);
      var m := WorkoutRecords(recs, init, date, wid, filter);
      var ex := exs[|exs| - 1];
      MergeGrows(m, ex.title, Session(ex.sets), date, wid, k);
      assert forall j :: 0 <= j < |init| ==> init[j] == exs[j];
    }
  }

  /** What an exercise of a workout's prefix offered, the whole workout offered. */
  lemma SetInExtends(exs: seq<Exercise>, date: int, wid: string, filter: string, k: RecordKind, t: string, b: Best)
    requires exs != [] && SetIn(exs[..|exs| - 1], date, wid, filter, k, t, b)
    ensures SetIn(exs, date, wid, filter, k, t, b)
  {
    var j :| 0 <= j < |exs| - 1 && exs[..|exs| - 1][j].title == t && Passes(t, filter) && b == ExerciseBest(exs[..|exs| - 1][j], k, date, wid);
    assert exs[..|exs| - 1][j] == exs[j];
  }

  /** The inductive step of WorkoutRecordsAttained for one title. */
  lemma AttainedStep(recs: map<string, ExerciseRecord>, exs: seq<Exercise>, date: int, wid: string, filter: string, k: RecordKind, t: string)
    requires exs != []
    requires var m := WorkoutRecords(recs, exs[..|exs| - 1], date, wid, filter);
      t in m ==> KeptFrom(recs, k, t, BestOf(m[t], k)) || SetIn(exs[..|exs| - 1], date, wid, filter, k, t, BestOf(m[t], k))
    requires t in WorkoutRecords(recs, exs, date, wid, filter)
    ensures var r := WorkoutRecords(recs, exs, date, wid, filter);
      KeptFrom(recs, k, t, BestOf(r[t], k)) || SetIn(exs, date, wid, filter, k, t, BestOf(r[t], k))
  {
    var init := exs[..|exs| - 1];
    var ex := exs[|exs| - 1];
    var m := WorkoutRecords(recs, init, date, wid, filter);
    var r := WorkoutRecords(recs, exs, date, wid, filter);
    if Passes(ex.title, filter) && t == ex.title {
      var prev := BestOf(RecordOf(m, t), k);
      assert r[t] == Merge(RecordOf(m, t), Session(ex.sets), date, wid);
      assert BestOf(r[t], k) == Improve(prev, Offer(Session(ex.sets), k), date, wid);
      if Offer(Session(ex.sets), k).0 > prev.value {
        assert BestOf(r[t], k) == ExerciseBest(exs[|exs| - 1], k, date, wid);
      } else if t in m {
        if SetIn(init, date, wid, filter, k, t, BestOf(m[t], k)) {
          SetInExtends(exs, date, wid, filter, k, t, BestOf(m[t], k));
        }
      } else {
        WorkoutRecordsGrow(recs, init, date, wid, filter, k);
        assert t !in recs;
      }
    } else {
      assert r[t] == m[t];
      if SetIn(init, date, wid, filter, k, t, BestOf(m[t], k)) {
        SetInExtends(exs, date, wid, filter, k, t, BestOf(m[t], k));
      }
    }
  }

  /** Within one workout: every record of kind k either was there before or was set by one of its exercises. */
  lemma {:induction false} WorkoutRecordsAttained(recs: map<string, ExerciseRecord>, exs: seq<Exercise>, date: int, wid: string, filter: string, k: RecordKind)
    requires NonNegative(recs, k)
    ensures var r := WorkoutRecords(recs, exs, date, wid, filter);
      NonNegative(r, k) &&
      forall t :: t in r ==> KeptFrom(recs, k, t, BestOf(r[t], k)) || SetIn(exs, date, wid, filter, k, t, BestOf(r[t], k))
    decreases |exs|
  {
    if exs != [] {
      var init := exs[..|exs| - 1];
      WorkoutRecordsAttained(recs, init, date, wid, filter, k);
      var r := WorkoutRecords(recs, exs, date, wid, filter);
      forall t | t in r
        ensures KeptFrom(recs, k, t, BestOf(r[t], k)) || SetIn(exs, date, wid, filter, k, t, BestOf(r[t], k))
      {
        AttainedStep(recs, exs, date, wid, filter, k, t);
      }
    }
  }

  /**
   * Every record of kind k is at least what any contributing exercise of
   * that title offered; the records are keyed by exact title.
   */
  lemma {:induction false} AllRecordsBound(ws: seq<Workout>, filter: string, k: RecordKind)
    ensures var r := AllRecords(ws, filter);
      forall i, j :: Feeds(ws, filter, i, j) ==>
        ws[i].exercises[j].title in r &&
        Offer(Session(ws[i].exercises[j].sets), k).0 <= BestOf(r[ws[i].exercises[j].title], k).value
    decreases |ws|
  {
    if ws != [] {
      var init := ws[..|ws| - 1];
      var w := ws[|ws| - 1];
      var m := AllRecords(init, filter);
      var r := AllRecords(ws, filter);
      AllRecordsBound(init, filter, k);
      WorkoutRecordsGrow(m, w.exercises, Day(w.startTime), w.id, filter, k);
      WorkoutRecordsCover(m, w.exercises, Day(w.startTime), w.id, filter, k);
      forall i, j | Feeds(ws, filter, i, j)
        ensures ws[i].exercises[j].title in r &&
          Offer(Session(ws[i].exercises[j].sets), k).0 <= BestOf(r[ws[i].exercises[j].title], k).value
      {
        if i < |init| {
          assert init[i] == ws[i];
          assert Feeds(init, filter, i, j);
        }
      }
    }
  }

  /**
   * Every positive record of kind k was set by one contributing exercise of
   * that title, and carries that workout's day, id and reps.
   */
  lemma {:induction false} AllRecordsAttained(ws: seq<Workout>, filter: string, k: RecordKind)
    ensures var r := AllRecords(ws, filter);
      NonNegative(r, k) &&
      forall t :: t in r && BestOf(r[t], k).value > 0.0 ==>
        exists i, j :: (Feeds(ws, filter, i, j) && ws[i].exercises[j].title == t &&
          BestOf(r[t], k) == OfferedBest(ws, k, i, j))
    decreases |ws|
  {
    if ws != [] {
      var init := ws[..|ws| - 1];
      var w := ws[|ws| - 1];
      var m := AllRecords(init, filter);
      var r := AllRecords(ws, filter);
      AllRecordsAttained(init, filter, k);
      WorkoutRecordsAttained(m, w.exercises, Day(w.startTime), w.id, filter, k);
      forall i | 0 <= i < |init| ensures init[i] == ws[i] { }
      forall t | t in r && BestOf(r[t], k).value > 0.0
        ensures exists i, j :: (Feeds(ws, filter, i, j) && ws[i].exercises[j].title == t &&
          BestOf(r[t], k) == OfferedBest(ws, k, i, j))
      {
        var b := BestOf(r[t], k);
        if SetIn(w.exercises, Day(w.startTime), w.id, filter, k, t, b) {
          var j :| 0 <= j < |w.exercises| && w.exercises[j].title == t && Passes(t, filter) &&
            b == ExerciseBest(w.exercises[j], k, Day(w.startTime), w.id);
          assert Feeds(ws, filter, |ws| - 1, j);
        } else {
          assert t in m && b == BestOf(m[t], k);
          var i, j :| Feeds(init, filter, i, j) && init[i].exercises[j].title == t &&
            BestOf(m[t], k) == OfferedBest(init, k, i, j);
          assert Feeds(ws, filter, i, j);
          assert OfferedBest(ws, k, i, j) == OfferedBest(init, k, i, j);
        }
      }
    }
  }

  /** The three strict-greater updates of the record of one title. */
  method UpdateRecord(rec: ExerciseRecord, session: SessionBest, date: int, wid: string) returns (r: ExerciseRecord)
    ensures r == Merge(rec, session, date, wid)
  {
    r := rec;
    if session.maxWeight > r.weight.value {
      r := r.(weight := Best(session.maxWeight, session.maxWeightReps, date, wid));
    }
    if session.best1RM > r.oneRM.value {
      r := r.(oneRM := Best(session.best1RM, session.best1RMReps, date, wid));
    }
    if session.volume > r.volume.value {
      r := r.(volume := Best(session.volume, 0, date, wid));
    }
  }

  /** The exercise loop of computeRecords for one workout. */
  method CollectWorkout(recs0: map<string, ExerciseRecord>, exs: seq<Exercise>, date: int, wid: string, filter: string)
    returns (recs: map<string, ExerciseRecord>)
    ensures recs == WorkoutRecords(recs0, exs, date, wid, filter)
  {
    recs := recs0;
    var j := 0;
    while j < |exs|
      invariant 0 <= j <= |exs|
      invariant recs == WorkoutRecords(recs0, exs[..j], date, wid, filter)
    {
      var ex := exs[j];
      assert exs[..j + 1][..j] == exs[..j];
      if filter != "" && !ContainsIgnoreCase(ex.title, filter) {
        j := j + 1;
        continue;
      }
      var rec := NoRecord;
      if ex.title in recs {
        rec := recs[ex.title];
      }
      var session := ComputeSession(ex.sets);
      rec := UpdateRecord(rec, session, date, wid);
      recs := recs[ex.title := rec];
      j := j + 1;
    }
    assert exs[..j] == exs;
  }

  /** The workout loop of computeRecords that fills the map. */
  method CollectRecords(ws: seq<Workout>, filter: string) returns (recs: map<string, ExerciseRecord>)
    ensures recs == AllRecords(ws, filter)
  {
    recs := map[];
    var i := 0;
    while i < |ws|
      invariant 0 <= i <= |ws|
      invariant recs == AllRecords(ws[..i], filter)
    {
      assert ws[..i + 1][..i] == ws[..i];
      recs := CollectWorkout(recs, ws[i].exercises, Day(ws[i].startTime), ws[i].id, filter);
      i := i + 1;
    }
    assert ws[..i] == ws;
  }

  // ---------------------------------------------------------------- the output

  datatype PersonalRecord = PersonalRecord(
    exercise: string,
    recordType: string,
    value: real,
    unit: string,
    reps: int,
    date: int,
    workoutId: string)

  function AsRecord(title: string, recordType: string, b: Best): PersonalRecord
  {
    PersonalRecord(title, recordType, b.value, "kg", b.reps, b.date, b.workoutId)
  }

  /** The records one title emits: its weight record and its 1RM record, each only when positive. */
  function Emitted(title: string, rec: ExerciseRecord): seq<PersonalRecord>
  {
    (if rec.weight.value > 0.0 then [AsRecord(title, "weight", rec.weight)] else []) +
    (if rec.oneRM.value > 0.0 then [AsRecord(title, "estimated_1rm", rec.oneRM)] else [])
  }

  /** A record the command can output from `recs`. */
  predicate Candidate(recs: map<string, ExerciseRecord>, r: PersonalRecord)
  {
    r.exercise in recs && r in Emitted(r.exercise, recs[r.exercise])
  }

  /** Only weight and 1RM records with a positive value; the best volume is never output. */
  lemma CandidateShape(recs: map<string, ExerciseRecord>, r: PersonalRecord)
    requires Candidate(recs, r)
    ensures r.value > 0.0 && r.unit == "kg"
    ensures r.recordType == "weight" ==> BestOf(recs[r.exercise], WeightRecord) == Best(r.value, r.reps, r.date, r.workoutId)
    ensures r.recordType == "estimated_1rm" ==> BestOf(recs[r.exercise], OneRMRecord) == Best(r.value, r.reps, r.date, r.workoutId)
    ensures r.recordType == "weight" || r.recordType == "estimated_1rm"
  {
  }

  /** The loop over the map: every title's emitted records, each once (in some order). */
  method EmitAll(recs: map<string, ExerciseRecord>) returns (all: seq<PersonalRecord>)
    ensures forall r :: r in all <==> Candidate(recs, r)
    ensures NoDuplicates(all)
  {
    all := [];
    var todo := recs.Keys;
    while todo != {}
      invariant todo <= recs.Keys
      invariant forall r :: r in all <==> Candidate(recs, r) && r.exercise !in todo
      invariant NoDuplicates(all)
      decreases |todo|
    {
      var t :| t in todo;
      var e := Emitted(t, recs[t]);
      assert forall r :: r in e ==> r.exercise == t;
      assert NoDuplicates(e);
      all := all + e;
      todo := todo - {t};
    }
  }

  function RecordValue(r: PersonalRecord): real { r.value }

  /** Sorted by value, largest first. */
  predicate NonIncreasing(xs: seq<PersonalRecord>)
  {
    NonIncreasingBy(xs, RecordValue)
  }

  /**
   * computeRecords: the records sorted by value, largest first, cut to the
   * limit. Slicing to a negative limit panics in Go, hence the requires.
   */
  method ComputeRecords(ws: seq<Workout>, filter: string, limit: int) returns (out: seq<PersonalRecord>)
    requires limit >= 0
    ensures NonIncreasing(out)
    ensures |out| <= limit
    ensures forall r :: r in out ==> Candidate(AllRecords(ws, filter), r)
    ensures NoDuplicates(out)
    ensures forall r :: Candidate(AllRecords(ws, filter), r) && r !in out ==>
      |out| == limit && forall x :: x in out ==> x.value >= r.value
  {
    var recs := CollectRecords(ws, filter);
    var all := EmitAll(recs);
    var sorted := SortByKey(all, RecordValue);
    assert forall r :: r in sorted <==> r in all by {
      assert forall r :: r in sorted <==> r in multiset(sorted);
      assert forall r :: r in all <==> r in multiset(all);
    }
    NoDuplicatesPermutation(all, sorted);
    out := sorted;
    if |sorted| > limit {
      out := sorted[..limit];
      forall r | r in sorted && r !in out
        ensures forall x :: x in out ==> x.value >= r.value
      {
        PrefixDominates(sorted, limit, RecordValue, r);
      }
    }
  }
}
