/**
 * The records exchanged with the Hevy REST API: workouts with their
 * exercises and sets, routines, exercise templates, workout events, and the
 * request bodies for creating workouts and routines.
 *
 * Timestamps are whole seconds since the Unix epoch (UTC). Weights and
 * other float64 fields are `real`. A Go pointer field (`*float64`, `*int`,
 * `*string`) is an Option: None stands for nil.
 */
module ApiTypes {
  import opened Common

  // The values of the SetType string type.
  const SetTypeNormal: string := "normal"
  const SetTypeWarmup: string := "warmup"
  const SetTypeDropset: string := "dropset"
  const SetTypeFailure: string := "failure"

  // The values of the EventType string type.
  const EventTypeUpdated: string := "updated"
  const EventTypeDeleted: string := "deleted"

  datatype Set = Set(
    index: int,
    setType: string,
    weightKg: Option<real>,
    reps: Option<int>,
    distanceMeters: Option<real>,
    durationSeconds: Option<int>,
    rpe: Option<real>)

  datatype Exercise = Exercise(
    index: int,
    title: string,
    notes: string,
    exerciseTemplateId: string,
    supersetId: Option<int>,
    sets: seq<Set>)

  datatype Workout = Workout(
    id: string,
    title: string,
    description: string,
    startTime: int,
    endTime: int,
    createdAt: int,
    updatedAt: int,
    exercises: seq<Exercise>)

  datatype Routine = Routine(
    id: string,
    title: string,
    folderId: Option<string>,
    createdAt: int,
    updatedAt: int,
    exercises: seq<Exercise>)

  datatype ExerciseTemplate = ExerciseTemplate(
    id: string,
    title: string,
    kind: string,
    primaryMuscleGroup: string,
    secondaryMuscleGroups: seq<string>,
    equipment: string,
    isCustom: bool)

  datatype WorkoutEvent = WorkoutEvent(
    id: string,
    eventType: string,
    workoutId: string,
    timestamp: int)

  // ---------------------------------------------------------------- request bodies

  datatype CreateWorkoutSet = CreateWorkoutSet(
    setType: string,
    weightKg: Option<real>,
    reps: Option<int>,
    distanceMeters: Option<int>,
    durationSeconds: Option<int>,
    customMetric: Option<real>,
    rpe: Option<real>)

  datatype CreateWorkoutExercise = CreateWorkoutExercise(
    exerciseTemplateId: string,
    supersetId: Option<int>,
    notes: Option<string>,
    sets: seq<CreateWorkoutSet>)

  datatype CreateWorkoutData = CreateWorkoutData(
    title: string,
    description: Option<string>,
    startTime: int,
    endTime: int,
    isPrivate: bool,
    exercises: seq<CreateWorkoutExercise>)

  datatype RepRange = RepRange(start: Option<int>, end: Option<int>)

  datatype CreateRoutineSet = CreateRoutineSet(
    setType: string,
    weightKg: Option<real>,
    reps: Option<int>,
    distanceMeters: Option<int>,
    durationSeconds: Option<int>,
    customMetric: Option<real>,
    repRange: Option<RepRange>)

  datatype CreateRoutineExercise = CreateRoutineExercise(
    exerciseTemplateId: string,
    supersetId: Option<int>,
    restSeconds: Option<int>,
    notes: Option<string>,
    sets: seq<CreateRoutineSet>)

  datatype CreateRoutineData = CreateRoutineData(
    title: string,
    folderId: Option<int>,
    notes: Option<string>,
    exercises: seq<CreateRoutineExercise>)

  // ---------------------------------------------------------------- Workout methods

  /** Workout.Duration in seconds: the time from start to end. */
  function Duration(w: Workout): (d: int)
    ensures w.startTime + d == w.endTime
  {
    w.endTime - w.startTime
  }

  /** Workout.ExerciseCount. */
  function ExerciseCount(w: Workout): (n: nat)
    ensures n == |w.exercises|
  {
    |w.exercises|
  }

  /** Number of sets across a list of exercises. */
  function SetCount(exs: seq<Exercise>): nat
  {
    if exs == [] then 0 else |exs[0].sets| + SetCount(exs[1..])
  }

  /** Set counting distributes over concatenation of exercise lists. */
  lemma {:induction false} SetCountAppend(a: seq<Exercise>, b: seq<Exercise>)
    ensures SetCount(a + b) == SetCount(a) + SetCount(b)
    decreases |a|
  {
    if a != [] {
      assert (a + b)[0] == a[0];
      assert (a + b)[1..] == a[1..] + b;
      SetCountAppend(a[1..], b);
    } else {
      assert a + b == b;
    }
  }

  /** When every exercise has between lo and hi sets, the set total lies between lo and hi per exercise. */
  lemma {:induction false} SetCountBetween(exs: seq<Exercise>, lo: nat, hi: nat)
    requires forall i :: 0 <= i < |exs| ==> lo <= |exs[i].sets| <= hi
    ensures lo * |exs| <= SetCount(exs) <= hi * |exs|
    decreases |exs|
  {
    if exs != [] {
      SetCountBetween(exs[1..], lo, hi);
      assert lo * |exs| == lo * |exs[1..]| + lo;
      assert hi * |exs| == hi * |exs[1..]| + hi;
    }
  }

  /**
   * ExerciseCount against TotalSets: a workout with a set has an exercise, a
   * workout whose exercises all have a set has no more exercises than sets,
   * and exercises of at most k sets give at most k sets per exercise.
   */
  lemma ExerciseCountAndSets(w: Workout, k: nat)
    ensures SetCount(w.exercises) > 0 ==> ExerciseCount(w) > 0
    ensures (forall i :: 0 <= i < |w.exercises| ==> |w.exercises[i].sets| >= 1) ==> ExerciseCount(w) <= SetCount(w.exercises)
    ensures (forall i :: 0 <= i < |w.exercises| ==> |w.exercises[i].sets| <= k) ==> SetCount(w.exercises) <= k * ExerciseCount(w)
  {
    var exs := w.exercises;
    if forall i :: 0 <= i < |exs| ==> |exs[i].sets| >= 1 {
      MaxSetsBound(exs);
      SetCountBetween(exs, 1, SetCount(exs));
    }
    if forall i :: 0 <= i < |exs| ==> |exs[i].sets| <= k {
      SetCountBetween(exs, 0, k);
    }
  }

  /** No exercise holds more sets than the total. */
  lemma {:induction false} MaxSetsBound(exs: seq<Exercise>)
    ensures forall i :: 0 <= i < |exs| ==> |exs[i].sets| <= SetCount(exs)
    decreases |exs|
  {
    if exs != [] {
      MaxSetsBound(exs[1..]);
      assert forall i :: 1 <= i < |exs| ==> exs[i] == exs[1..][i - 1];
    }
  }

  /** Workout.TotalSets: the accumulator loop over exercises. */
  method TotalSets(w: Workout) returns (total: nat)
    ensures total == SetCount(w.exercises)
  {
    total := 0;
    var i := 0;
    while i < |w.exercises|
      invariant 0 <= i <= |w.exercises|
      invariant total == SetCount(w.exercises[..i])
    {
      assert w.exercises[..i + 1] == w.exercises[..i] + [w.exercises[i]];
      SetCountAppend(w.exercises[..i], [w.exercises[i]]);
      total := total + |w.exercises[i].sets|;
      i := i + 1;
    }
    assert w.exercises[..i] == w.exercises;
  }

  // ---------------------------------------------------------------- repository test fixtures

  function ExerciseNamed(title: string, sets: seq<Set>): Exercise
  {
    Exercise(0, title, "", "", None, sets)
  }

  function SetOfType(index: int, t: string): Set
  {
    Set(index, t, None, None, None, None, None)
  }

  function WorkoutOf(start: int, end: int, exs: seq<Exercise>): Workout
  {
    Workout("", "", "", start, end, 0, 0, exs)
  }

  /** 2024-12-17 10:00 to 11:15 UTC lasts 75 minutes. */
  lemma DurationFixture()
    ensures Duration(WorkoutOf(1734429600, 1734429600 + 75 * 60, [])) == 75 * 60
  {
  }

  /** Three exercises count as three; a warm-up and two normal sets plus two normal sets make five. */
  lemma CountFixtures()
    ensures ExerciseCount(WorkoutOf(0, 0, [ExerciseNamed("Bench Press", []), ExerciseNamed("Squat", []), ExerciseNamed("Deadlift", [])])) == 3
    ensures SetCount([ExerciseNamed("Bench Press", [SetOfType(0, SetTypeWarmup), SetOfType(1, SetTypeNormal), SetOfType(2, SetTypeNormal)]),
                      ExerciseNamed("Squat", [SetOfType(0, SetTypeNormal), SetOfType(1, SetTypeNormal)])]) == 5
    ensures SetCount([]) == 0
  {
    var exs := [ExerciseNamed("Bench Press", [SetOfType(0, SetTypeWarmup), SetOfType(1, SetTypeNormal), SetOfType(2, SetTypeNormal)]),
                ExerciseNamed("Squat", [SetOfType(0, SetTypeNormal), SetOfType(1, SetTypeNormal)])];
    assert SetCount(exs[1..][1..]) == 0 by { assert exs[1..][1..] == []; }
    assert SetCount(exs[1..]) == 2;
    assert SetCount(exs) == 3 + SetCount(exs[1..]);
  }

  /** The four set types are the distinct strings the API expects. */
  lemma SetTypeValues()
    ensures SetTypeNormal == "normal" && SetTypeWarmup == "warmup" && SetTypeDropset == "dropset" && SetTypeFailure == "failure"
    ensures |{SetTypeNormal, SetTypeWarmup, SetTypeDropset, SetTypeFailure}| == 4
    ensures EventTypeUpdated == "updated" && EventTypeDeleted == "deleted"
  {
  }
}
