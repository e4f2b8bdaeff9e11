/**
 * `hevycli workout start` (cmd/workout/start.go): what the session starts
 * with, what happens once it ends, and the create-workout request built
 * from its result.
 *
 * The session's result is an abstract record (title, start and end time,
 * whether the session was finished, the exercises) because the command
 * and the session package disagree on its shape; None stands for a nil
 * result. The answer to the save prompt is a parameter: None when reading
 * it failed.
 */
module Start {
  import opened Common
  import opened ApiTypes
  import opened Session

  datatype SessionResult = SessionResult(
    title: string,
    startTime: int,
    endTime: int,
    finished: bool,
    exercises: seq<ExerciseData>)

  const BlankTitle: string := "New Workout"
  const BlankExerciseTitle: string := "Exercise 1"
  const NoCompletedExercises: string := "no completed exercises to save"

  /** What the session starts with: the routine's exercises, or one placeholder exercise of three normal sets. */
  method StartExercises(routine: Option<Routine>) returns (title: string, exs: seq<ExerciseData>)
    ensures routine.Some? ==>
      title == routine.value.title && |exs| == |routine.value.exercises| &&
      forall i :: 0 <= i < |exs| ==> SeededExercise(routine.value.exercises[i], exs[i])
    ensures routine.None? ==>
      title == BlankTitle && |exs| == 1 &&
      exs[0].template.title == BlankExerciseTitle && exs[0].template.id == "" &&
      exs[0].sets == [NewSet, NewSet, NewSet] && exs[0].notes == "" && !exs[0].done
  {
    if routine.Some? {
      title := routine.value.title;
      exs := SeedFromRoutine(routine.value);
    } else {
      title := BlankTitle;
      var normal := SetData(0.0, 0, SetTypeNormal, false);
      exs := [ExerciseData(ExerciseTemplate("", BlankExerciseTitle, "", "", [], "", false), [normal, normal, normal], "", false)];
    }
  }

  // ---------------------------------------------------------------- counting completed sets

  /** The number of complete sets in a list of sets. */
  function CountComplete(sets: seq<SetData>): nat
  {
    if sets == [] then 0
    else CountComplete(sets[..|sets| - 1]) + (if sets[|sets| - 1].complete then 1 else 0)
  }

  /** The number of complete sets across the exercises. */
  function CompletedCount(exs: seq<ExerciseData>): nat
  {
    if exs == [] then 0 else CompletedCount(exs[..|exs| - 1]) + CountComplete(exs[|exs| - 1].sets)
  }

  /** The complete sets, in their original order. */
  function CompletedSets(sets: seq<SetData>): seq<SetData>
  {
    if sets == [] then []
    else CompletedSets(sets[..|sets| - 1]) + (if sets[|sets| - 1].complete then [sets[|sets| - 1]] else [])
  }

  /** As many completed sets as counted, and no more than there were sets. */
  lemma {:induction false} CompletedSetsCount(sets: seq<SetData>)
    ensures |CompletedSets(sets)| == CountComplete(sets) <= |sets|
    decreases |sets|
  {
    if sets != [] {
      CompletedSetsCount(sets[..|sets| - 1]);
    }
  }

  /** Every completed set is complete, and every complete set is among them. */
  lemma {:induction false} CompletedSetsMembers(sets: seq<SetData>)
    ensures forall k :: 0 <= k < |CompletedSets(sets)| ==> CompletedSets(sets)[k].complete
    ensures forall i :: 0 <= i < |sets| && sets[i].complete ==> sets[i] in CompletedSets(sets)
    decreases |sets|
  {
    if sets != [] {
      var init := sets[..|sets| - 1];
      CompletedSetsMembers(init);
      assert forall i :: 0 <= i < |init| ==> init[i] == sets[i];
    }
  }

  /** Filtering keeps the list as it is exactly when every set is complete. */
  lemma {:induction false} CompletedSetsIdentity(sets: seq<SetData>)
    ensures CompletedSets(sets) == sets <==> AllComplete(sets)
    decreases |sets|
  {
    if sets != [] {
      var init := sets[..|sets| - 1];
      var last := sets[|sets| - 1];
      CompletedSetsIdentity(init);
      CompletedSetsCount(init);
      assert sets == init + [last];
      if AllComplete(sets) {
        assert AllComplete(init);
      }
      if CompletedSets(sets) == sets {
        if !last.complete {
          assert false;
        }
        assert CompletedSets(init) + [last] == init + [last];
        assert CompletedSets(init) == init;
      }
    }
  }

  lemma {:induction false} CompletedCountInTotal(exs: seq<ExerciseData>)
    ensures CompletedCount(exs) <= CountSets(exs)
    decreases |exs|
  {
    if exs != [] {
      var init := exs[..|exs| - 1];
      CompletedCountInTotal(init);
      CompletedSetsCount(exs[|exs| - 1].sets);
      assert exs == init + [exs[|exs| - 1]];
      CountSetsAppend(init, [exs[|exs| - 1]]);
    }
  }

  /** The set counts runStart prints: complete sets and all sets. */
  method SetCounts(exs: seq<ExerciseData>) returns (completed: nat, total: nat)
    ensures completed == CompletedCount(exs) && total == CountSets(exs)
    ensures completed <= total
  {
    completed, total := 0, 0;
    var i := 0;
    while i < |exs|
      invariant 0 <= i <= |exs|
      invariant completed == CompletedCount(exs[..i]) && total == CountSets(exs[..i])
    {
      var ex := exs[i];
      assert exs[..i + 1] == exs[..i] + [ex];
      CountSetsAppend(exs[..i], [ex]);
      total := total + |ex.sets|;
      var j := 0;
      var before := completed;
      while j < |ex.sets|
        invariant 0 <= j <= |ex.sets|
        invariant completed == before + CountComplete(ex.sets[..j])
      {
        assert ex.sets[..j + 1][..j] == ex.sets[..j];
        if ex.sets[j].complete {
          completed := completed + 1;
        }
        j := j + 1;
      }
      assert ex.sets[..j] == ex.sets;
      assert exs[..i + 1][..i] == exs[..i];
      i := i + 1;
    }
    assert exs[..i] == exs;
    CompletedCountInTotal(exs);
  }

  // ---------------------------------------------------------------- the request

  /** A complete set as the API receives it: type, weight and reps. */
  function PayloadSet(s: SetData): CreateWorkoutSet
  {
    CreateWorkoutSet(s.setType, Some(s.weight), Some(s.reps), None, None, None, None)
  }

  function PayloadSets(sets: seq<SetData>): seq<CreateWorkoutSet>
  {
    if sets == [] then []
    else PayloadSets(sets[..|sets| - 1]) + (if sets[|sets| - 1].complete then [PayloadSet(sets[|sets| - 1])] else [])
  }

  /** The request exercise for a session exercise, if it has at least one complete set. */
  function PayloadExercise(ex: ExerciseData): Option<CreateWorkoutExercise>
  {
    var sets := PayloadSets(ex.sets);
    if sets == [] then None
    else Some(CreateWorkoutExercise(ex.template.id, None, if ex.notes == "" then None else Some(ex.notes), sets))
  }

  function PayloadExercises(exs: seq<ExerciseData>): seq<CreateWorkoutExercise>
  {
    if exs == [] then []
    else
      var last := PayloadExercise(exs[|exs| - 1]);
      PayloadExercises(exs[..|exs| - 1]) + (if last.Some? then [last.value] else [])
  }

  /** The request saveWorkoutToHevy sends, or its error when nothing was completed. */
  function WorkoutRequest(r: SessionResult): Result<CreateWorkoutData>
  {
    var exs := PayloadExercises(r.exercises);
    if exs == [] then Err(NoCompletedExercises)
    else Ok(CreateWorkoutData(r.title, None, r.startTime, r.endTime, false, exs))
  }

  /** The sets sent for an exercise are its complete sets, in order, with their type, weight and reps. */
  lemma {:induction false} PayloadSetsAreCompletedSets(sets: seq<SetData>)
    ensures |PayloadSets(sets)| == |CompletedSets(sets)|
    ensures forall k :: 0 <= k < |PayloadSets(sets)| ==> PayloadSets(sets)[k] == PayloadSet(CompletedSets(sets)[k])
    decreases |sets|
  {
    if sets != [] {
      PayloadSetsAreCompletedSets(sets[..|sets| - 1]);
    }
  }

  /**
   * An exercise is sent iff it has a complete set; what is sent carries its
   * template, its notes (nil when empty) and no superset.
   */
  lemma PayloadExerciseProperties(ex: ExerciseData)
    ensures PayloadExercise(ex).Some? <==> CountComplete(ex.sets) > 0
    ensures PayloadExercise(ex).Some? ==>
      var p := PayloadExercise(ex).value;
      p.exerciseTemplateId == ex.template.id && p.supersetId == None &&
      (p.notes == None <==> ex.notes == "") && (p.notes.Some? ==> p.notes.value == ex.notes) &&
      p.sets == PayloadSets(ex.sets) && |p.sets| == CountComplete(ex.sets)
  {
    PayloadSetsAreCompletedSets(ex.sets);
    CompletedSetsCount(ex.sets);
  }

  /**
   * The exercises sent: never more than there were, each with at least one
   * set, and none at all exactly when no set was completed.
   */
  lemma {:induction false} PayloadExercisesProperties(exs: seq<ExerciseData>)
    ensures |PayloadExercises(exs)| <= |exs|
    ensures forall k :: 0 <= k < |PayloadExercises(exs)| ==> |PayloadExercises(exs)[k].sets| > 0
    ensures PayloadExercises(exs) == [] <==> CompletedCount(exs) == 0
    decreases |exs|
  {
    if exs != [] {
      PayloadExercisesProperties(exs[..|exs| - 1]);
      PayloadExerciseProperties(exs[|exs| - 1]);
    }
  }

  /** The request fails exactly when no set was completed; otherwise it carries the session's title and times. */
  lemma WorkoutRequestProperties(r: SessionResult)
    ensures WorkoutRequest(r).Err? <==> CompletedCount(r.exercises) == 0
    ensures WorkoutRequest(r).Err? ==> WorkoutRequest(r).msg == NoCompletedExercises
    ensures WorkoutRequest(r).Ok? ==>
      var d := WorkoutRequest(r).value;
      d.title == r.title && d.startTime == r.startTime && d.endTime == r.endTime &&
      d.description == None && !d.isPrivate && |d.exercises| <= |r.exercises|
  {
    PayloadExercisesProperties(r.exercises);
  }

  /** saveWorkoutToHevy up to the API call: the nested loops that build the request. */
  method SaveWorkoutRequest(r: SessionResult) returns (req: Result<CreateWorkoutData>)
    ensures req == WorkoutRequest(r)
  {
    var apiExercises: seq<CreateWorkoutExercise> := [];
    var i := 0;
    while i < |r.exercises|
      invariant 0 <= i <= |r.exercises|
      invariant apiExercises == PayloadExercises(r.exercises[..i])
    {
      var ex := r.exercises[i];
      var completed: seq<CreateWorkoutSet> := [];
      var j := 0;
      while j < |ex.sets|
        invariant 0 <= j <= |ex.sets|
        invariant completed == PayloadSets(ex.sets[..j])
      {
        assert ex.sets[..j + 1][..j] == ex.sets[..j];
        if ex.sets[j].complete {
          completed := completed + [CreateWorkoutSet(ex.sets[j].setType, Some(ex.sets[j].weight), Some(ex.sets[j].reps), None, None, None, None)];
        }
        j := j + 1;
      }
      assert ex.sets[..j] == ex.sets;
      if |completed| > 0 {
        var notes: Option<string> := None;
        if ex.notes != "" {
          notes := Some(ex.notes);
        }
        apiExercises := apiExercises + [CreateWorkoutExercise(ex.template.id, None, notes, completed)];
      }
      assert r.exercises[..i + 1][..i] == r.exercises[..i];
      i := i + 1;
    }
    assert r.exercises[..i] == r.exercises;
    if |apiExercises| == 0 {
      return Err(NoCompletedExercises);
    }
    req := Ok(CreateWorkoutData(r.title, None, r.startTime, r.endTime, false, apiExercises));
  }

  // ---------------------------------------------------------------- after the session

  /** The answer to "Save workout to Hevy?": yes or y, ignoring case and surrounding blanks. */
  predicate IsYes(response: string)
  {
    var t := TrimSpace(Lower(response));
    t == "yes" || t == "y"
  }

  /** "yes" and "y" are accepted whatever whitespace ends the line. */
  lemma IsYesAccepts(tail: string)
    requires forall i :: 0 <= i < |tail| ==> IsSpace(tail[i])
    ensures IsYes("yes" + tail) && IsYes("y" + tail)
  {
    TrimLowerWord("yes", tail);
    TrimLowerWord("y", tail);
  }

  /** The answer is folded to lower case before it is compared. */
  lemma IsYesFoldsCase(tail: string)
    requires forall i :: 0 <= i < |tail| ==> IsSpace(tail[i])
    ensures IsYes("YES" + tail) && IsYes("Y" + tail)
  {
    TrimLowerWord("YES", tail);
    TrimLowerWord("Y", tail);
    LowerYes();
  }

  /** Any other word is a refusal, even one that starts with yes. */
  lemma IsYesRejects(tail: string)
    requires forall i :: 0 <= i < |tail| ==> IsSpace(tail[i])
    ensures !IsYes("no" + tail) && !IsYes("yes please" + tail)
  {
    TrimLowerWord("no", tail);
    TrimLowerWord("yes please", tail);
  }

  lemma LowerYes()
    ensures Lower("YES") == "yes" && Lower("Y") == "y"
  {
    assert LowerChar('Y') == 'y' && LowerChar('E') == 'e' && LowerChar('S') == 's';
    var l := Lower("YES");
    assert |l| == 3 && l[0] == 'y' && l[1] == 'e' && l[2] == 's';
  }

  datatype StartOutcome =
    | Cancelled            // the session was quit, or returned nothing
    | NotSavedByFlag       // --no-save
    | NothingToSave        // no set was completed
    | ReadFailed           // the answer could not be read
    | NotSaved             // the answer was not yes
    | Saving(request: CreateWorkoutData)
    | SaveFailed(msg: string)

  /**
   * runStart after the session: print the counts, then save only when
   * allowed and confirmed. Also returns the two counts it prints.
   */
  method Conclude(result: Option<SessionResult>, noSave: bool, answer: Option<string>)
    returns (o: StartOutcome, completed: nat, total: nat)
    ensures result.None? || !result.value.finished ==> o == Cancelled
    ensures result.Some? && result.value.finished ==>
      var exs := result.value.exercises;
      completed == CompletedCount(exs) && total == CountSets(exs) &&
      (noSave ==> o == NotSavedByFlag) &&
      (!noSave && completed == 0 ==> o == NothingToSave) &&
      (!noSave && completed > 0 && answer.None? ==> o == ReadFailed) &&
      (!noSave && completed > 0 && answer.Some? && !IsYes(answer.value) ==> o == NotSaved) &&
      (!noSave && completed > 0 && answer.Some? && IsYes(answer.value) ==>
        o == match WorkoutRequest(result.value) case Ok(d) => Saving(d) case Err(m) => SaveFailed(m))
  {
    completed, total := 0, 0;
    if result.None? || !result.value.finished {
      return Cancelled, completed, total;
    }
    completed, total := SetCounts(result.value.exercises);
    if !noSave && completed > 0 {
      if answer.None? {
        o := ReadFailed;
      } else if IsYes(answer.value) {
        var req := SaveWorkoutRequest(result.value);
        match req
        case Ok(d) => o := Saving(d);
        case Err(m) => o := SaveFailed(m);
      } else {
        o := NotSaved;
      }
    } else if noSave {
      o := NotSavedByFlag;
    } else {
      o := NothingToSave;
    }
  }

  /**
   * The save gate makes the request builder's error unreachable: whenever
   * runStart asks to save, there is a completed set, so a request is built.
   */
  lemma SaveGateBuildsRequest(r: SessionResult)
    requires CompletedCount(r.exercises) > 0
    ensures WorkoutRequest(r).Ok?
    ensures |WorkoutRequest(r).value.exercises| > 0
  {
    WorkoutRequestProperties(r);
  }
}
