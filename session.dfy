/**
 * The interactive workout-logging session (internal/tui/workout/session.go):
 * a cursor over `exercises[currentExercise].sets[currentSet]`, two text
 * buffers for the weight and the reps of the set under the cursor, and one
 * method per key binding.
 *
 * The text-input widgets are reduced to their values: `Type` stands for a
 * keystroke the focused widget turns into new text, and `FeedRune` for a
 * key the model lets fall through to the focused widget.
 */
module Session {
  import opened Common
  import opened NumText
  import opened ApiTypes
  import TextBox

  /** A set being logged. */
  datatype SetData = SetData(weight: real, reps: int, setType: string, complete: bool)

  /** An exercise in the session. */
  datatype ExerciseData = ExerciseData(template: ExerciseTemplate, sets: seq<SetData>, notes: string, done: bool)

  const WeightField: nat := 0
  const RepsField: nat := 1

  // Character limits of the two text inputs.
  const WeightCharLimit: nat := 6
  const RepsCharLimit: nat := 4

  /** The set appended by the `n` key. */
  const NewSet: SetData := SetData(0.0, 0, SetTypeNormal, false)

  // ---------------------------------------------------------------- committing a set

  /** `var weight float64; fmt.Sscanf(text, "%f", &weight)`: zero unless the text reads as a number. */
  function ParsedWeight(text: string): real
  {
    match ScanFloat(text)
    case None => 0.0
    case Some(w) => w
  }

  /** `var reps int; fmt.Sscanf(text, "%d", &reps)`. */
  function ParsedReps(text: string): int
  {
    match ScanInt(text)
    case None => 0
    case Some(r) => r
  }

  /** The set after saveCurrentSet: the parsed buffers, and complete. */
  function SavedSet(s: SetData, weightText: string, repsText: string): SetData
  {
    s.(weight := ParsedWeight(weightText), reps := ParsedReps(repsText), complete := true)
  }

  predicate InRange(exs: seq<ExerciseData>, e: int, k: int)
  {
    0 <= e < |exs| && 0 <= k < |exs[e].sets|
  }

  /** The exercises after saveCurrentSet with the cursor at (e, k); out of range nothing changes. */
  function Committed(exs: seq<ExerciseData>, e: int, k: int, weightText: string, repsText: string): seq<ExerciseData>
  {
    if InRange(exs, e, k) then
      exs[e := exs[e].(sets := exs[e].sets[k := SavedSet(exs[e].sets[k], weightText, repsText)])]
    else exs
  }

  /** Same exercises, same number of sets each, same set types, same Done flags. */
  predicate SameShape(a: seq<ExerciseData>, b: seq<ExerciseData>)
  {
    |a| == |b| &&
    forall i :: 0 <= i < |a| ==>
      a[i].template == b[i].template && a[i].notes == b[i].notes && a[i].done == b[i].done &&
      |a[i].sets| == |b[i].sets| &&
      forall j :: 0 <= j < |a[i].sets| ==> a[i].sets[j].setType == b[i].sets[j].setType
  }

  /** Committing writes exactly the set under the cursor, and marks it complete. */
  lemma CommitWritesOneSet(exs: seq<ExerciseData>, e: int, k: int, weightText: string, repsText: string)
    ensures var c := Committed(exs, e, k, weightText, repsText);
      SameShape(exs, c) &&
      (forall i, j :: InRange(exs, i, j) && (i != e || j != k) ==> c[i].sets[j] == exs[i].sets[j]) &&
      (InRange(exs, e, k) ==>
        c[e].sets[k].complete &&
        c[e].sets[k].weight == ParsedWeight(weightText) &&
        c[e].sets[k].reps == ParsedReps(repsText)) &&
      (!InRange(exs, e, k) ==> c == exs)
  {
  }

  /** Committing the same buffers twice is committing them once. */
  lemma CommitIdempotent(exs: seq<ExerciseData>, e: int, k: int, weightText: string, repsText: string)
    ensures Committed(Committed(exs, e, k, weightText, repsText), e, k, weightText, repsText)
         == Committed(exs, e, k, weightText, repsText)
  {
    var c := Committed(exs, e, k, weightText, repsText);
    if InRange(exs, e, k) {
      var s := SavedSet(exs[e].sets[k], weightText, repsText);
      var x := exs[e].(sets := exs[e].sets[k := s]);
      assert c == exs[e := x];
      assert InRange(c, e, k) && c[e] == x && x.sets[k] == s;
      assert SavedSet(s, weightText, repsText) == s;
      assert x.sets[k := s] == x.sets;
      assert x.(sets := x.sets) == x;
      assert c[e := x] == c;
    }
  }

  /**
   * Text that does not read as a number is stored as zero, and the set still
   * counts as complete. (Digit-free text spelling NaN or an infinity is what
   * Go reads as those values; such weights are not modelled.)
   */
  lemma UnparsableBuffersStoreZero(s: SetData, weightText: string, repsText: string)
    requires forall i :: 0 <= i < |weightText| ==> !IsDigit(weightText[i])
    requires !SpellsNaNOrInf(weightText)
    requires forall i :: 0 <= i < |repsText| ==> !IsDigit(repsText[i])
    ensures SavedSet(s, weightText, repsText) == s.(weight := 0.0, reps := 0, complete := true)
  {
    ScanIntNeedsDigit(repsText);
    assert ScanFloat(weightText) == None by {
      ScanFloatNeedsDigit(weightText);
    }
  }

  lemma ScanFloatNeedsDigit(s: string)
    requires forall i :: 0 <= i < |s| ==> !IsDigit(s[i])
    ensures ScanFloat(s) == None
  {
    var (neg, u) := SplitSign(SkipBlanks(s));
    assert forall i :: 0 <= i < |u| ==> u[i] in s;
    FloatDigitsNeedsDigit(u);
  }

  lemma FloatDigitsNeedsDigit(u: string)
    requires forall i :: 0 <= i < |u| ==> !IsDigit(u[i])
    ensures FloatDigits(u) == None
  {
    if !SpecialStart(u) {
      var (ip, fp, rest) := ScanMantissa(u);
      assert ip == [] || ip[0] == u[0];
      var (ip', rest') := Run(u);
      if |rest'| > 0 && rest'[0] == '.' {
        assert fp == [] || fp[0] == u[|ip| + 1];
      }
    }
  }

  // ---------------------------------------------------------------- loading a set into the buffers

  /** What SetValue leaves in an input with the given character limit: the text, cut at the limit. */
  function Shown(text: string, limit: nat): (r: string)
    ensures r <= text
    ensures limit > 0 ==> |r| <= limit
    ensures |text| <= limit ==> r == text
    ensures limit > 0 && |text| > limit ==> r == text[..limit]
  {
    TextBox.SetValue(TextBox.NewInput(limit), text).value
  }

  /**
   * The buffer texts loadCurrentSet shows for a set: its saved values if
   * complete, cut to the inputs' character limits, and nothing otherwise.
   */
  function LoadedBuffers(s: SetData): (string, string)
  {
    if s.complete then (Shown(FormatTenths(s.weight), WeightCharLimit), Shown(IntToString(s.reps), RepsCharLimit))
    else ("", "")
  }

  /**
   * Revisiting a set and pressing enter without typing: an incomplete set
   * becomes a complete set of zero weight and zero reps; a complete set whose
   * texts fit the inputs keeps its reps and gets its weight rounded to one
   * decimal place. A longer weight text is cut (see ReloadCutsLongWeight).
   */
  lemma ReloadThenCommit(s: SetData)
    requires MinInt64 <= s.reps <= MaxInt64
    ensures !s.complete ==>
      SavedSet(s, LoadedBuffers(s).0, LoadedBuffers(s).1) == s.(weight := 0.0, reps := 0, complete := true)
    ensures s.complete && |FormatTenths(s.weight)| <= WeightCharLimit && |IntToString(s.reps)| <= RepsCharLimit ==>
      SavedSet(s, LoadedBuffers(s).0, LoadedBuffers(s).1) == s.(weight := RoundTenths(s.weight))
    ensures s.complete ==> LoadedBuffers(s).0 <= FormatTenths(s.weight) && |LoadedBuffers(s).0| <= WeightCharLimit
  {
    if s.complete {
      var wt, rt := FormatTenths(s.weight), IntToString(s.reps);
      assert LoadedBuffers(s) == (Shown(wt, WeightCharLimit), Shown(rt, RepsCharLimit));
      if |wt| <= WeightCharLimit && |rt| <= RepsCharLimit {
        assert LoadedBuffers(s) == (wt, rt);
        ScanFormatTenths(s.weight);
        assert rt + "" == rt;
        ScanIntOfIntToString(s.reps, "");
        assert ParsedWeight(wt) == RoundTenths(s.weight);
        assert ParsedReps(rt) == s.reps;
      }
    } else {
      UnparsableBuffersStoreZero(s, "", "");
    }
  }

  /** A weight of ten times a six-digit m shows as m's digits in the six-character input, and committing stores m. */
  lemma ReloadCutsLongWeight(s: SetData, m: nat)
    requires s.complete && |NatToString(m)| == WeightCharLimit && s.weight == (10 * m) as real
    ensures LoadedBuffers(s).0 == NatToString(m)
    ensures SavedSet(s, LoadedBuffers(s).0, LoadedBuffers(s).1).weight == m as real
  {
    var ip := NatToString(m);
    assert m >= 1;
    FormatTenthsOfTens(m);
    var t := ip + [DigitChar(0)] + "." + [DigitChar(0)];
    assert t[..WeightCharLimit] == ip;
    assert LoadedBuffers(s).0 == ip;
    ScanNatText(m);
  }

  /** `%.1f` of 10·m is m's digits, a zero, a point and a zero. */
  lemma FormatTenthsOfTens(m: nat)
    requires m >= 1
    ensures FormatTenths((10 * m) as real) == NatToString(m) + [DigitChar(0)] + "." + [DigitChar(0)]
  {
    var w := (10 * m) as real;
    assert Abs(w) * 10.0 == (100 * m) as real;
    assert TenthsOf(w) == 100 * m;
    assert (100 * m) / 10 == 10 * m && (100 * m) % 10 == 0;
    assert NatToString(10 * m) == NatToString(m) + [DigitChar(0)] by {
      assert (10 * m) / 10 == m && (10 * m) % 10 == 0;
    }
  }

  /** Digits without a point read back by `%f` as their number. */
  lemma ScanNatText(m: nat)
    ensures ScanFloat(NatToString(m)) == Some(m as real)
  {
    var ip := NatToString(m);
    assert IsDigit(ip[0]) && (|ip| > 1 ==> IsDigit(ip[1]));
    NoBlankToSkip(ip);
    assert SplitSign(SkipBlanks(ip)) == (false, ip);
    ScanFloatSplit(ip, false, ip);
    assert ScanMantissa(ip) == (ip, "", "") by { assert ip + "" == ip; RunOfDigits(ip, ""); }
    FloatDigitsPlain(ip, ip, "");
    assert DecimalValue(ip, "", 0) == m as real by {
      NatToStringValue(m);
      assert FractionValue("") == 0.0;
    }
  }

  /** 1000000 is shown as "100000" and stored as 100000 after a reload and enter. */
  lemma ReloadMillion(s: SetData)
    requires s.complete && s.weight == 1000000.0
    ensures SavedSet(s, LoadedBuffers(s).0, LoadedBuffers(s).1).weight == 100000.0
  {
    assert |NatToString(100000)| == 6 by {
      assert NatToString(100000) == NatToString(10000) + [DigitChar(0)];
      assert NatToString(10000) == NatToString(1000) + [DigitChar(0)];
      assert NatToString(1000) == NatToString(100) + [DigitChar(0)];
      assert NatToString(100) == NatToString(10) + [DigitChar(0)];
      assert NatToString(10) == NatToString(1) + [DigitChar(0)];
    }
    ReloadCutsLongWeight(s, 100000);
  }

  // ---------------------------------------------------------------- advancing

  predicate AllComplete(sets: seq<SetData>)
  {
    forall i :: 0 <= i < |sets| ==> sets[i].complete
  }

  /** moveToNextSet on the last set of exercise e: Done is set when every set is complete. */
  function MarkedDone(exs: seq<ExerciseData>, e: nat): seq<ExerciseData>
    requires e < |exs|
  {
    if AllComplete(exs[e].sets) then exs[e := exs[e].(done := true)] else exs
  }

  /** The cursor after moveToNextSet: next set, else set 0 of the next exercise, else unchanged. */
  function NextCursor(exs: seq<ExerciseData>, e: nat, k: nat): (nat, nat)
    requires e < |exs|
  {
    if k < |exs[e].sets| - 1 then (e, k + 1)
    else if e < |exs| - 1 then (e + 1, 0)
    else (e, k)
  }

  /**
   * The cursor only moves forward in (exercise, set) order, stays in range,
   * and stays put exactly on the last set of the last exercise.
   */
  lemma NextCursorProperties(exs: seq<ExerciseData>, e: nat, k: nat)
    requires e < |exs| && (k == 0 || k < |exs[e].sets|)
    ensures var (e2, k2) := NextCursor(exs, e, k);
      e2 < |exs| && (k2 == 0 || k2 < |exs[e2].sets|) &&
      (e2 > e || (e2 == e && k2 >= k)) &&
      ((e2, k2) == (e, k) <==> e == |exs| - 1 && k + 1 >= |exs[e].sets|)
  {
  }

  /** The Done flag is never cleared by any transition of the session. */
  lemma DoneNeverCleared(exs: seq<ExerciseData>, e: nat, k: nat, weightText: string, repsText: string)
    requires e < |exs|
    ensures forall i :: 0 <= i < |exs| && exs[i].done ==> Committed(exs, e, k, weightText, repsText)[i].done
    ensures forall i :: 0 <= i < |exs| && exs[i].done ==> MarkedDone(exs, e)[i].done
    ensures forall i :: 0 <= i < |exs| && exs[i].done ==> WithSetAdded(exs, e)[i].done
  {
  }

  /** Reaching the end of an exercise marks it done exactly when all its sets are complete (or it has none). */
  lemma MarkedDoneIff(exs: seq<ExerciseData>, e: nat)
    requires e < |exs| && !exs[e].done
    ensures MarkedDone(exs, e)[e].done <==> AllComplete(exs[e].sets)
    ensures exs[e].sets == [] ==> MarkedDone(exs, e)[e].done
    ensures forall i :: 0 <= i < |exs| && i != e ==> MarkedDone(exs, e)[i] == exs[i]
  {
  }

  // ---------------------------------------------------------------- appending a set

  /** addSet: one normal, incomplete set appended to exercise e. */
  function WithSetAdded(exs: seq<ExerciseData>, e: nat): seq<ExerciseData>
    requires e < |exs|
  {
    exs[e := exs[e].(sets := exs[e].sets + [NewSet])]
  }

  /** After addSet an exercise can be Done with an incomplete set: Done is not recomputed. */
  lemma AddSetLeavesDone(exs: seq<ExerciseData>, e: nat)
    requires e < |exs| && exs[e].done
    ensures var a := WithSetAdded(exs, e);
      a[e].done && !AllComplete(a[e].sets) &&
      |a[e].sets| == |exs[e].sets| + 1 && a[e].sets[..|exs[e].sets|] == exs[e].sets &&
      a[e].sets[|exs[e].sets|] == NewSet &&
      forall i :: 0 <= i < |exs| && i != e ==> a[i] == exs[i]
  {
    var a := WithSetAdded(exs, e);
    assert !a[e].sets[|exs[e].sets|].complete;
  }

  // ---------------------------------------------------------------- counts and the clock

  /** The number of exercises marked Done. */
  function CountDone(exs: seq<ExerciseData>): nat
  {
    if exs == [] then 0 else (if exs[0].done then 1 else 0) + CountDone(exs[1..])
  }

  /** The number of sets across the exercises. */
  function CountSets(exs: seq<ExerciseData>): nat
  {
    if exs == [] then 0 else |exs[0].sets| + CountSets(exs[1..])
  }

  lemma {:induction false} CountDoneAppend(a: seq<ExerciseData>, b: seq<ExerciseData>)
    ensures CountDone(a + b) == CountDone(a) + CountDone(b)
    decreases |a|
  {
    if a == [] {
      assert a + b == b;
    } else {
      assert (a + b)[0] == a[0] && (a + b)[1..] == a[1..] + b;
      CountDoneAppend(a[1..], b);
    }
  }

  lemma {:induction false} CountSetsAppend(a: seq<ExerciseData>, b: seq<ExerciseData>)
    ensures CountSets(a + b) == CountSets(a) + CountSets(b)
    decreases |a|
  {
    if a == [] {
      assert a + b == b;
    } else {
      assert (a + b)[0] == a[0] && (a + b)[1..] == a[1..] + b;
      CountSetsAppend(a[1..], b);
    }
  }

  /** At most every exercise is done, and all are exactly when the count reaches the length. */
  lemma {:induction false} CountDoneBound(exs: seq<ExerciseData>)
    ensures CountDone(exs) <= |exs|
    ensures CountDone(exs) == |exs| <==> forall i :: 0 <= i < |exs| ==> exs[i].done
    decreases |exs|
  {
    if exs != [] {
      CountDoneBound(exs[1..]);
      assert forall i :: 1 <= i < |exs| ==> exs[i] == exs[1..][i - 1];
    }
  }

  /** formatDuration: HH:MM:SS from one hour on, else MM:SS, for whole elapsed seconds. */
  function FormatClock(secs: nat): string
  {
    var h := secs / 3600;
    var m := secs / 60 % 60;
    var s := secs % 60;
    if h > 0 then Pad2(h) + ":" + Pad2(m) + ":" + Pad2(s) else Pad2(m) + ":" + Pad2(s)
  }

  /** Below an hour the clock shows MM:SS, and the two fields give back the elapsed seconds. */
  lemma FormatClockShort(secs: nat)
    requires secs < 3600
    ensures var r := FormatClock(secs);
      |r| == 5 && r[2] == ':' && AllDigits(r[..2]) && AllDigits(r[3..]) &&
      60 * DigitsValue(r[..2]) + DigitsValue(r[3..]) == secs
  {
    var m, s := secs / 60 % 60, secs % 60;
    var pm, ps := Pad2(m), Pad2(s);
    assert FormatClock(secs) == pm + ":" + ps;
    assert (pm + ":" + ps)[..2] == pm && (pm + ":" + ps)[3..] == ps;
  }

  /** From one hour up to a hundred hours the clock shows HH:MM:SS and gives back the elapsed seconds. */
  lemma FormatClockLong(secs: nat)
    requires 3600 <= secs < 360000
    ensures var r := FormatClock(secs);
      |r| == 8 && r[2] == ':' && r[5] == ':' &&
      3600 * DigitsValue(r[..2]) + 60 * DigitsValue(r[3..5]) + DigitsValue(r[6..]) == secs
  {
    var h, m, s := secs / 3600, secs / 60 % 60, secs % 60;
    var ph, pm, ps := Pad2(h), Pad2(m), Pad2(s);
    var r := ph + ":" + pm + ":" + ps;
    assert FormatClock(secs) == r;
    assert r[..2] == ph && r[3..5] == pm && r[6..] == ps;
    assert secs == 3600 * h + 60 * m + s;
  }

  // ---------------------------------------------------------------- seeding from a routine

  /** A session set seeded from a routine set: its type, nothing else. */
  predicate SeededSet(rs: ApiTypes.Set, s: SetData)
  {
    s == SetData(0.0, 0, rs.setType, false)
  }

  /** A session exercise seeded from a routine exercise. */
  predicate SeededExercise(re: Exercise, x: ExerciseData)
  {
    x.template == ExerciseTemplate(re.exerciseTemplateId, re.title, "", "", [], "", false) &&
    x.notes == re.notes && !x.done &&
    |x.sets| == |re.sets| &&
    forall j :: 0 <= j < |re.sets| ==> SeededSet(re.sets[j], x.sets[j])
  }

  /** The exercise list of NewSessionFromRoutine: one per routine exercise, every set incomplete. */
  method SeedFromRoutine(r: Routine) returns (exs: seq<ExerciseData>)
    ensures |exs| == |r.exercises|
    ensures forall i :: 0 <= i < |exs| ==> SeededExercise(r.exercises[i], exs[i])
    ensures CountDone(exs) == 0
  {
    exs := [];
    var i := 0;
    while i < |r.exercises|
      invariant 0 <= i <= |r.exercises|
      invariant |exs| == i
      invariant forall i' :: 0 <= i' < i ==> SeededExercise(r.exercises[i'], exs[i'])
      invariant CountDone(exs) == 0
    {
      var ex := r.exercises[i];
      var sets: seq<SetData> := [];
      var j := 0;
      while j < |ex.sets|
        invariant 0 <= j <= |ex.sets|
        invariant |sets| == j
        invariant forall j' :: 0 <= j' < j ==> SeededSet(ex.sets[j'], sets[j'])
      {
        sets := sets + [SetData(0.0, 0, ex.sets[j].setType, false)];
        j := j + 1;
      }
      var x := ExerciseData(ExerciseTemplate(ex.exerciseTemplateId, ex.title, "", "", [], "", false), sets, ex.notes, false);
      CountDoneAppend(exs, [x]);
      exs := exs + [x];
      i := i + 1;
    }
  }

  // ---------------------------------------------------------------- the model

  class SessionModel {
    var title: string
    var startTime: int
    var exercises: seq<ExerciseData>
    var currentExercise: nat
    var currentSet: nat
    /** 0 = weight, 1 = reps. */
    var currentField: nat
    var weightText: string
    var repsText: string
    var quitting: bool
    var finished: bool

    /**
     * The cursor names an exercise when there is one, and a set of it or set 0
     * (an exercise may have no sets); the focus is on one of the two inputs.
     */
    predicate Valid()
      reads this
    {
      currentField <= RepsField &&
      (if exercises == [] then currentExercise == 0 && currentSet == 0
       else currentExercise < |exercises| && (currentSet == 0 || currentSet < |exercises[currentExercise].sets|))
    }

    /** The buffers show the set under the cursor and the weight input has the focus. */
    predicate ShowsCurrentSet()
      reads this
    {
      InRange(exercises, currentExercise, currentSet) ==>
        (weightText, repsText) == LoadedBuffers(exercises[currentExercise].sets[currentSet]) &&
        currentField == WeightField
    }

    /** NewSessionModel: cursor at the first set of the first exercise, weight focused, inputs empty. */
    constructor NewSessionModel(t: string, exs: seq<ExerciseData>, start: int)
      ensures Valid()
      ensures title == t && exercises == exs && startTime == start
      ensures currentExercise == 0 && currentSet == 0 && currentField == WeightField
      ensures weightText == "" && repsText == ""
      ensures !quitting && !finished
    {
      title := t;
      startTime := start;
      exercises := exs;
      currentExercise := 0;
      currentSet := 0;
      currentField := WeightField;
      weightText := "";
      repsText := "";
      quitting := false;
      finished := false;
    }

    /** NewSessionFromRoutine: the routine's title and its exercises, seeded. */
    constructor FromRoutine(r: Routine, start: int)
      ensures Valid()
      ensures title == r.title && startTime == start
      ensures |exercises| == |r.exercises|
      ensures forall i :: 0 <= i < |exercises| ==> SeededExercise(r.exercises[i], exercises[i])
      ensures currentExercise == 0 && currentSet == 0 && currentField == WeightField
      ensures weightText == "" && repsText == ""
      ensures !quitting && !finished
    {
      var exs := SeedFromRoutine(r);
      title := r.title;
      startTime := start;
      exercises := exs;
      currentExercise := 0;
      currentSet := 0;
      currentField := WeightField;
      weightText := "";
      repsText := "";
      quitting := false;
      finished := false;
    }

    /** saveCurrentSet. */
    method SaveCurrentSet()
      requires Valid()
      modifies this`exercises
      ensures Valid()
      ensures exercises == Committed(old(exercises), currentExercise, currentSet, weightText, repsText)
    {
      CommitWritesOneSet(exercises, currentExercise, currentSet, weightText, repsText);
      if currentExercise >= |exercises| {
        return;
      }
      var ex := exercises[currentExercise];
      if currentSet >= |ex.sets| {
        return;
      }
      var weight := ParsedWeight(weightText);
      var reps := ParsedReps(repsText);
      var s := ex.sets[currentSet].(weight := weight, reps := reps, complete := true);
      exercises := exercises[currentExercise := ex.(sets := ex.sets[currentSet := s])];
    }

    /** loadCurrentSet; out of range it does nothing, not even refocus. */
    method LoadCurrentSet()
      requires Valid()
      modifies this`weightText, this`repsText, this`currentField
      ensures Valid() && ShowsCurrentSet()
      ensures !InRange(exercises, currentExercise, currentSet) ==>
        weightText == old(weightText) && repsText == old(repsText) && currentField == old(currentField)
    {
      if currentExercise >= |exercises| {
        return;
      }
      var ex := exercises[currentExercise];
      if currentSet >= |ex.sets| {
        return;
      }
      var s := ex.sets[currentSet];
      if s.complete {
        weightText := Shown(FormatTenths(s.weight), WeightCharLimit);
        repsText := Shown(IntToString(s.reps), RepsCharLimit);
      } else {
        weightText := "";
        repsText := "";
      }
      currentField := WeightField;
    }

    /** moveToNextSet; the source indexes the current exercise without a check. */
    method MoveToNextSet()
      requires Valid() && |exercises| > 0
      modifies this`exercises, this`currentExercise, this`currentSet, this`weightText, this`repsText, this`currentField
      ensures Valid()
      ensures (currentExercise, currentSet) == NextCursor(old(exercises), old(currentExercise), old(currentSet))
      ensures exercises == if old(currentSet) < |old(exercises)[old(currentExercise)].sets| - 1 then old(exercises)
                           else MarkedDone(old(exercises), old(currentExercise))
      ensures (currentExercise, currentSet) != (old(currentExercise), old(currentSet)) ==> ShowsCurrentSet()
      ensures (currentExercise, currentSet) == (old(currentExercise), old(currentSet)) ||
              !InRange(exercises, currentExercise, currentSet) ==>
        weightText == old(weightText) && repsText == old(repsText) && currentField == old(currentField)
    {
      var ex := exercises[currentExercise];
      if currentSet < |ex.sets| - 1 {
        currentSet := currentSet + 1;
        LoadCurrentSet();
        return;
      }
      var allComplete := true;
      var i := 0;
      while i < |ex.sets| && allComplete
        invariant 0 <= i <= |ex.sets|
        invariant allComplete <==> forall j :: 0 <= j < i ==> ex.sets[j].complete
        invariant !allComplete ==> !AllComplete(ex.sets)
      {
        if !ex.sets[i].complete {
          allComplete := false;
        }
        i := i + 1;
      }
      assert allComplete <==> AllComplete(ex.sets);
      if allComplete {
        exercises := exercises[currentExercise := ex.(done := true)];
      }
      if currentExercise < |exercises| - 1 {
        currentExercise := currentExercise + 1;
        currentSet := 0;
        LoadCurrentSet();
      }
    }

    /** addSet; the source indexes the current exercise without a check. */
    method AddSet()
      requires Valid() && |exercises| > 0
      modifies this`exercises, this`currentSet, this`weightText, this`repsText, this`currentField
      ensures Valid() && ShowsCurrentSet()
      ensures exercises == WithSetAdded(old(exercises), currentExercise)
      ensures currentSet == |exercises[currentExercise].sets| - 1
      ensures weightText == "" && repsText == "" && currentField == WeightField
    {
      var ex := exercises[currentExercise];
      exercises := exercises[currentExercise := ex.(sets := ex.sets + [NewSet])];
      currentSet := |ex.sets|;
      LoadCurrentSet();
    }

    // ------------------------------------------------------------ key bindings

    /** ctrl+c and esc: cancel; the returned flag is tea.Quit. */
    method Quit() returns (quit: bool)
      modifies this`quitting
      ensures quitting && quit
    {
      quitting := true;
      quit := true;
    }

    /** f: finish; the returned flag is tea.Quit. */
    method Finish() returns (quit: bool)
      modifies this`finished
      ensures finished && quit
    {
      finished := true;
      quit := true;
    }

    /** tab: move the focus to the other input. */
    method Tab()
      requires Valid()
      modifies this`currentField
      ensures Valid()
      ensures currentField == if old(currentField) == WeightField then RepsField else WeightField
    {
      if currentField == WeightField {
        currentField := RepsField;
      } else {
        currentField := WeightField;
      }
    }

    /** enter: save the set under the cursor, then move on. */
    method Enter()
      requires Valid() && |exercises| > 0
      modifies this`exercises, this`currentExercise, this`currentSet, this`weightText, this`repsText, this`currentField
      ensures Valid()
      ensures var c := Committed(old(exercises), old(currentExercise), old(currentSet), old(weightText), old(repsText));
        (currentExercise, currentSet) == NextCursor(old(exercises), old(currentExercise), old(currentSet)) &&
        exercises == if old(currentSet) < |old(exercises)[old(currentExercise)].sets| - 1 then c
                     else MarkedDone(c, old(currentExercise))
      ensures (currentExercise, currentSet) != (old(currentExercise), old(currentSet)) ==> ShowsCurrentSet()
      ensures (currentExercise, currentSet) == (old(currentExercise), old(currentSet)) ||
              !InRange(exercises, currentExercise, currentSet) ==>
        weightText == old(weightText) && repsText == old(repsText) && currentField == old(currentField)
    {
      ghost var exs0, e0, k0 := exercises, currentExercise, currentSet;
      SaveCurrentSet();
      ghost var c := exercises;
      assert SameShape(exs0, c);
      assert |c[e0].sets| == |exs0[e0].sets|;
      assert NextCursor(c, e0, k0) == NextCursor(exs0, e0, k0);
      MoveToNextSet();
    }

    /** up: the previous set, if there is one. */
    method Up()
      requires Valid()
      modifies this`currentSet, this`weightText, this`repsText, this`currentField
      ensures Valid()
      ensures currentSet == if old(currentSet) > 0 then old(currentSet) - 1 else old(currentSet)
      ensures old(currentSet) > 0 ==> ShowsCurrentSet()
      ensures old(currentSet) == 0 ==>
        weightText == old(weightText) && repsText == old(repsText) && currentField == old(currentField)
    {
      if currentSet > 0 {
        currentSet := currentSet - 1;
        LoadCurrentSet();
      }
    }

    /** down: the next set, if there is one; the source indexes the current exercise without a check. */
    method Down()
      requires Valid() && |exercises| > 0
      modifies this`currentSet, this`weightText, this`repsText, this`currentField
      ensures Valid()
      ensures var n := |exercises[currentExercise].sets|;
        currentSet == if old(currentSet) < n - 1 then old(currentSet) + 1 else old(currentSet)
      ensures currentSet != old(currentSet) ==> ShowsCurrentSet()
      ensures currentSet == old(currentSet) ==>
        weightText == old(weightText) && repsText == old(repsText) && currentField == old(currentField)
    {
      if currentSet < |exercises[currentExercise].sets| - 1 {
        currentSet := currentSet + 1;
        LoadCurrentSet();
      }
    }

    /** left and shift+tab: set 0 of the previous exercise, if there is one. */
    method Left()
      requires Valid()
      modifies this`currentExercise, this`currentSet, this`weightText, this`repsText, this`currentField
      ensures Valid()
      ensures old(currentExercise) > 0 ==>
        currentExercise == old(currentExercise) - 1 && currentSet == 0 && ShowsCurrentSet()
      ensures old(currentExercise) == 0 ==>
        currentExercise == 0 && currentSet == old(currentSet) &&
        weightText == old(weightText) && repsText == old(repsText) && currentField == old(currentField)
    {
      if currentExercise > 0 {
        currentExercise := currentExercise - 1;
        currentSet := 0;
        LoadCurrentSet();
      }
    }

    /** right: set 0 of the next exercise, if there is one. */
    method Right()
      requires Valid()
      modifies this`currentExercise, this`currentSet, this`weightText, this`repsText, this`currentField
      ensures Valid()
      ensures old(currentExercise) < |exercises| - 1 ==>
        currentExercise == old(currentExercise) + 1 && currentSet == 0 && ShowsCurrentSet()
      ensures old(currentExercise) >= |exercises| - 1 ==>
        currentExercise == old(currentExercise) && currentSet == old(currentSet) &&
        weightText == old(weightText) && repsText == old(repsText) && currentField == old(currentField)
    {
      if currentExercise < |exercises| - 1 {
        currentExercise := currentExercise + 1;
        currentSet := 0;
        LoadCurrentSet();
      }
    }

    /** A keystroke the focused input turns into `text` (typing is the widget's business). */
    method Type(text: string)
      modifies this`weightText, this`repsText
      ensures currentField == WeightField ==> weightText == text && repsText == old(repsText)
      ensures currentField != WeightField ==> repsText == text && weightText == old(weightText)
    {
      if currentField == WeightField {
        weightText := text;
      } else {
        repsText := text;
      }
    }

    /** A rune key passed on to the focused input: appended while the input is under its character limit. */
    method FeedRune(c: char)
      modifies this`weightText, this`repsText
      ensures currentField == WeightField ==>
        repsText == old(repsText) &&
        weightText == (if |old(weightText)| < WeightCharLimit then old(weightText) + [c] else old(weightText))
      ensures currentField != WeightField ==>
        weightText == old(weightText) &&
        repsText == (if |old(repsText)| < RepsCharLimit then old(repsText) + [c] else old(repsText))
    {
      if currentField == WeightField {
        if |weightText| < WeightCharLimit {
          weightText := weightText + [c];
        }
      } else {
        if |repsText| < RepsCharLimit {
          repsText := repsText + [c];
        }
      }
    }

    /**
     * The `n` key as the source handles it: addSet runs, and then the key is
     * not consumed but passed on to the freshly emptied and focused weight
     * input, which then holds "n".
     */
    method KeyNAsWritten()
      requires Valid() && |exercises| > 0
      modifies this`exercises, this`currentSet, this`weightText, this`repsText, this`currentField
      ensures Valid()
      ensures exercises == WithSetAdded(old(exercises), currentExercise)
      ensures currentSet == |exercises[currentExercise].sets| - 1
      ensures weightText == "n" && repsText == "" && currentField == WeightField
    {
      AddSet();
      FeedRune('n');
    }

    /** The `n` key consumed like `f`: addSet only, both inputs left empty. */
    method KeyN()
      requires Valid() && |exercises| > 0
      modifies this`exercises, this`currentSet, this`weightText, this`repsText, this`currentField
      ensures Valid() && ShowsCurrentSet()
      ensures exercises == WithSetAdded(old(exercises), currentExercise)
      ensures currentSet == |exercises[currentExercise].sets| - 1
      ensures weightText == "" && repsText == "" && currentField == WeightField
    {
      AddSet();
    }

    /** countCompleteExercises. */
    method CountCompleteExercises() returns (count: nat)
      ensures count == CountDone(exercises)
      ensures count <= |exercises|
    {
      count := 0;
      var i := 0;
      while i < |exercises|
        invariant 0 <= i <= |exercises|
        invariant count == CountDone(exercises[..i])
      {
        assert exercises[..i + 1] == exercises[..i] + [exercises[i]];
        CountDoneAppend(exercises[..i], [exercises[i]]);
        if exercises[i].done {
          count := count + 1;
        }
        i := i + 1;
      }
      assert exercises[..i] == exercises;
      CountDoneBound(exercises);
    }

    /** countTotalSets. */
    method CountTotalSets() returns (count: nat)
      ensures count == CountSets(exercises)
    {
      count := 0;
      var i := 0;
      while i < |exercises|
        invariant 0 <= i <= |exercises|
        invariant count == CountSets(exercises[..i])
      {
        assert exercises[..i + 1] == exercises[..i] + [exercises[i]];
        CountSetsAppend(exercises[..i], [exercises[i]]);
        count := count + |exercises[i].sets|;
        i := i + 1;
      }
      assert exercises[..i] == exercises;
    }
  }

  /**
   * With the source's handling of `n`, whatever the user types next,
   * committing the new set stores weight 0: the buffer starts with "n",
   * which `%f` takes for the start of "nan" and then rejects. The one
   * exception is typing "a" or "A" and then "N", which spells NaN; such
   * weights are not modelled.
   */
  lemma NKeyWeightReadsZero(s: SetData, typed: string, repsText: string)
    requires !SpellsNaNOrInf("n" + typed)
    ensures SavedSet(s, "n" + typed, repsText).weight == 0.0
  {
    var t := "n" + typed;
    assert t[0] == 'n';
    NoBlankToSkip(t);
    assert SplitSign(SkipBlanks(t)) == (false, t);
    assert SpecialStart(t);
    ScanFloatSplit(t, false, t);
  }
}
