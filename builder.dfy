/**
 * The interactive routine builder (internal/tui/routine/builder.go): a
 * five-mode state machine that collects a title and a list of exercises,
 * each with a set count, a rest time and notes, and finally produces the
 * create-routine request.
 *
 * The text inputs and the two list widgets are represented by their
 * contents: the text a field holds, and the list cursor passed to the key
 * that reads it. Loading the templates and sending the request are I/O and
 * appear only as the messages they deliver.
 */
module Builder {
  import opened Common
  import opened NumText
  import opened ApiTypes
  import opened TextBox

  datatype Mode = ModeTitle | ModeExerciseList | ModeAddExercise | ModeEditSets | ModeConfirm

  /** An exercise of the routine being built. */
  datatype RoutineExercise = RoutineExercise(template: ExerciseTemplate, sets: int, restSeconds: int, notes: string)

  const DefaultSets: int := 3
  const DefaultRestSeconds: int := 90
  const MinSets: int := 1
  const MaxSets: int := 20

  /** An exercise as the add-exercise screen appends it. */
  function NewExercise(t: ExerciseTemplate): RoutineExercise
  {
    RoutineExercise(t, DefaultSets, DefaultRestSeconds, "")
  }

  /** The set count typed in the sets field: 3 when it does not parse, then clamped to [1, 20]. */
  function SetsFrom(text: string): (n: int)
    ensures MinSets <= n <= MaxSets
    ensures ScanInt(text).None? ==> n == DefaultSets
    ensures ScanInt(text).Some? && MinSets <= ScanInt(text).value <= MaxSets ==> n == ScanInt(text).value
    ensures ScanInt(text).Some? && ScanInt(text).value < MinSets ==> n == MinSets
    ensures ScanInt(text).Some? && ScanInt(text).value > MaxSets ==> n == MaxSets
  {
    var v := match ScanInt(text) case None => DefaultSets case Some(v) => v;
    if v < MinSets then MinSets else if v > MaxSets then MaxSets else v
  }

  /** The rest time typed in the rest field: 90 when it does not parse, and never below 0. */
  function RestFrom(text: string): (n: int)
    ensures n >= 0
    ensures ScanInt(text).None? ==> n == DefaultRestSeconds
    ensures ScanInt(text).Some? && ScanInt(text).value >= 0 ==> n == ScanInt(text).value
    ensures ScanInt(text).Some? && ScanInt(text).value < 0 ==> n == 0
  {
    var v := match ScanInt(text) case None => DefaultRestSeconds case Some(v) => v;
    if v < 0 then 0 else v
  }

  // ---------------------------------------------------------------- the template filter

  /** The lowercased query occurs in the lowercased title or primary muscle group. */
  predicate TemplateMatches(t: ExerciseTemplate, query: string)
  {
    Contains(Lower(t.title), query) || Contains(Lower(t.primaryMuscleGroup), query)
  }

  function TemplateMatcher(query: string): ExerciseTemplate -> bool
  {
    t => TemplateMatches(t, query)
  }

  /** filterTemplates: everything for an empty query, otherwise the matching templates in order. */
  function FilteredTemplates(all: seq<ExerciseTemplate>, search: string): seq<ExerciseTemplate>
  {
    var query := Lower(search);
    if query == "" then all else Filter(all, TemplateMatcher(query))
  }

  /** The empty-query shortcut agrees with the filter, which keeps exactly the matching templates. */
  lemma FilteredTemplatesProperties(all: seq<ExerciseTemplate>, search: string)
    ensures FilteredTemplates(all, search) == Filter(all, TemplateMatcher(Lower(search)))
    ensures search == "" ==> FilteredTemplates(all, search) == all
    ensures forall t :: t in FilteredTemplates(all, search) <==> t in all && TemplateMatches(t, Lower(search))
  {
    var query := Lower(search);
    if query == "" {
      forall i | 0 <= i < |all| ensures TemplateMatcher(query)(all[i]) {
        ContainsEmpty(Lower(all[i].title));
      }
      FilterAllPass(all, TemplateMatcher(query));
    }
    FilterMembers(all, TemplateMatcher(query));
  }

  // ---------------------------------------------------------------- the request

  function NormalSets(n: nat): (sets: seq<CreateRoutineSet>)
    ensures |sets| == n
    ensures forall j :: 0 <= j < n ==> sets[j].setType == SetTypeNormal
  {
    seq(n, _ => CreateRoutineSet(SetTypeNormal, None, None, None, None, None, None))
  }

  function ExerciseRequest(ex: RoutineExercise): CreateRoutineExercise
    requires ex.sets >= 0
  {
    CreateRoutineExercise(ex.template.id, None, Some(ex.restSeconds),
      if ex.notes != "" then Some(ex.notes) else None, NormalSets(ex.sets))
  }

  predicate SetCountsValid(exs: seq<RoutineExercise>)
  {
    forall i :: 0 <= i < |exs| ==> exs[i].sets >= 0
  }

  function ExerciseRequests(exs: seq<RoutineExercise>): seq<CreateRoutineExercise>
    requires SetCountsValid(exs)
  {
    if exs == [] then [] else ExerciseRequests(exs[..|exs| - 1]) + [ExerciseRequest(exs[|exs| - 1])]
  }

  /** The request createRoutine sends. */
  function RoutineRequest(title: string, exs: seq<RoutineExercise>): CreateRoutineData
    requires SetCountsValid(exs)
  {
    CreateRoutineData(title, None, None, ExerciseRequests(exs))
  }

  /**
   * One request exercise per builder exercise, in order: its template, its
   * rest time, notes only when non-empty, no superset, and exactly `sets`
   * normal sets.
   */
  lemma {:induction false} RoutineRequestProperties(title: string, exs: seq<RoutineExercise>)
    requires SetCountsValid(exs)
    ensures var r := RoutineRequest(title, exs);
      r.title == title && |r.exercises| == |exs| &&
      forall i :: 0 <= i < |exs| ==>
        r.exercises[i].exerciseTemplateId == exs[i].template.id &&
        r.exercises[i].supersetId.None? &&
        r.exercises[i].restSeconds == Some(exs[i].restSeconds) &&
        (r.exercises[i].notes.None? <==> exs[i].notes == "") &&
        (r.exercises[i].notes.Some? ==> r.exercises[i].notes.value == exs[i].notes) &&
        |r.exercises[i].sets| == exs[i].sets &&
        forall j :: 0 <= j < |r.exercises[i].sets| ==> r.exercises[i].sets[j].setType == SetTypeNormal
    decreases |exs|
  {
    if exs != [] {
      var init := exs[..|exs| - 1];
      assert SetCountsValid(init);
      RoutineRequestProperties(title, init);
      assert forall i :: 0 <= i < |init| ==> init[i] == exs[i];
    }
  }

  /** createRoutine's loops. `make` with a negative length panics, hence the requires. */
  method BuildRoutineRequest(title: string, exs: seq<RoutineExercise>) returns (req: CreateRoutineData)
    requires SetCountsValid(exs)
    ensures req == RoutineRequest(title, exs)
  {
    var apiExercises: seq<CreateRoutineExercise> := [];
    var i := 0;
    while i < |exs|
      invariant 0 <= i <= |exs|
      invariant SetCountsValid(exs[..i])
      invariant apiExercises == ExerciseRequests(exs[..i])
    {
      var ex := exs[i];
      assert exs[..i + 1][..i] == exs[..i];
      var sets: seq<CreateRoutineSet> := [];
      var j := 0;
      while j < ex.sets
        invariant 0 <= j <= ex.sets
        invariant sets == NormalSets(j)
      {
        sets := sets + [CreateRoutineSet(SetTypeNormal, None, None, None, None, None, None)];
        j := j + 1;
      }
      var notes: Option<string> := None;
      if ex.notes != "" {
        notes := Some(ex.notes);
      }
      apiExercises := apiExercises + [CreateRoutineExercise(ex.template.id, None, Some(ex.restSeconds), notes, sets)];
      i := i + 1;
    }
    assert exs[..i] == exs;
    req := CreateRoutineData(title, None, None, apiExercises);
  }

  // ---------------------------------------------------------------- text inputs

  const TitleLimit: nat := 100
  const SearchLimit: nat := 50
  const SetsLimit: nat := 2
  const RestLimit: nat := 4
  const NotesLimit: nat := 200
  /** The largest rest time the four-character rest box can hold. */
  const MaxRest: int := 9999

  // ---------------------------------------------------------------- the exercise list

  /** Every exercise has 1 to 20 sets, a rest time the rest box can show, and notes the notes box can hold. */
  predicate ExercisesValid(exs: seq<RoutineExercise>)
  {
    forall i :: 0 <= i < |exs| ==>
      MinSets <= exs[i].sets <= MaxSets && 0 <= exs[i].restSeconds <= MaxRest && |exs[i].notes| <= NotesLimit
  }

  /** The list after the edit screen is saved into exercise k; out of range, the list is kept. */
  function Edited(exs: seq<RoutineExercise>, k: int, setsText: string, restText: string, notes: string): (r: seq<RoutineExercise>)
    ensures |r| == |exs|
    ensures forall j :: 0 <= j < |exs| && j != k ==> r[j] == exs[j]
  {
    if 0 <= k < |exs| then exs[k := RoutineExercise(exs[k].template, SetsFrom(setsText), RestFrom(restText), notes)] else exs
  }

  /**
   * Saving the edit screen writes the clamped set count and rest time and the
   * notes into exercise k and keeps every exercise valid, because the rest
   * box holds at most four characters.
   */
  lemma EditedProperties(exs: seq<RoutineExercise>, k: int, setsText: string, restText: string, notes: string)
    requires ExercisesValid(exs) && |restText| <= RestLimit && |notes| <= NotesLimit
    requires 0 <= k < |exs|
    ensures var r := Edited(exs, k, setsText, restText, notes);
      ExercisesValid(r) && r[k].template == exs[k].template && r[k].notes == notes &&
      r[k].sets == SetsFrom(setsText) && r[k].restSeconds == RestFrom(restText)
  {
    if ScanInt(restText).Some? {
      ScanIntBound(restText);
      Pow10Grows(|restText|, RestLimit);
    }
    assert Pow10(RestLimit) == MaxRest + 1;
  }

  /** The list after the exercise at k is deleted; out of range, the list is kept. */
  function Removed(exs: seq<RoutineExercise>, k: int): seq<RoutineExercise>
  {
    if 0 <= k < |exs| then exs[..k] + exs[k + 1..] else exs
  }

  /** Deleting exercise k removes exactly it, keeps the others in order, and keeps the list valid. */
  lemma RemovedProperties(exs: seq<RoutineExercise>, k: int)
    requires 0 <= k < |exs|
    ensures var r := Removed(exs, k);
      |r| == |exs| - 1 &&
      (forall j :: 0 <= j < k ==> r[j] == exs[j]) &&
      (forall j :: k <= j < |r| ==> r[j] == exs[j + 1]) &&
      (ExercisesValid(exs) ==> ExercisesValid(r))
  {
    var r := Removed(exs, k);
    assert forall j :: k <= j < |r| ==> r[j] == exs[j + 1];
  }

  /**
   * Opening the edit screen on a valid exercise and saving it untouched
   * gives the exercise back: its numbers fit the boxes they are shown in.
   */
  lemma EditRoundTrip(exs: seq<RoutineExercise>, k: int, setsBox: TextInput, restBox: TextInput, notesBox: TextInput)
    requires ExercisesValid(exs) && 0 <= k < |exs|
    requires setsBox.charLimit == SetsLimit && restBox.charLimit == RestLimit && notesBox.charLimit == NotesLimit
    ensures Edited(exs, k, SetValue(setsBox, IntToString(exs[k].sets)).value,
                   SetValue(restBox, IntToString(exs[k].restSeconds)).value,
                   SetValue(notesBox, exs[k].notes).value) == exs
  {
    var ex := exs[k];
    ShownNumberReadBack(ex.sets, setsBox);
    ShownNumberReadBack(ex.restSeconds, restBox);
    assert SetsFrom(IntToString(ex.sets)) == ex.sets;
    assert RestFrom(IntToString(ex.restSeconds)) == ex.restSeconds;
    assert exs[k := ex] == exs;
  }

  /** A non-negative number shown in a box wide enough for it is shown whole and read back by `%d`. */
  lemma ShownNumberReadBack(n: int, box: TextInput)
    requires 0 <= n && 1 <= box.charLimit <= RestLimit && n < Pow10(box.charLimit)
    ensures SetValue(box, IntToString(n)).value == IntToString(n)
    ensures ScanInt(IntToString(n)) == Some(n)
  {
    NatToStringLength(n, box.charLimit);
    Pow10Grows(box.charLimit, RestLimit);
    assert Pow10(RestLimit) == 10000;
    ScanIntOfIntToString(n, "");
    assert IntToString(n) + "" == IntToString(n);
  }

  // ---------------------------------------------------------------- the model

  /** Every field of the builder, for stating a transition in one line. */
  datatype BuilderState = BuilderState(
    mode: Mode,
    title: string,
    titleInput: TextInput,
    exercises: seq<RoutineExercise>,
    templateSearch: TextInput,
    allTemplates: seq<ExerciseTemplate>,
    filteredTempls: seq<ExerciseTemplate>,
    setsInput: TextInput,
    restInput: TextInput,
    notesInput: TextInput,
    editingIndex: int,
    loading: bool,
    err: Option<string>,
    saved: bool,
    createdRoutine: Option<Routine>,
    quitting: bool)

  /** The five boxes keep their limits and respect them, and the exercises are valid. */
  predicate StateValid(st: BuilderState)
  {
    st.titleInput.charLimit == TitleLimit && st.templateSearch.charLimit == SearchLimit &&
    st.setsInput.charLimit == SetsLimit && st.restInput.charLimit == RestLimit && st.notesInput.charLimit == NotesLimit &&
    Fits(st.titleInput) && Fits(st.templateSearch) && Fits(st.setsInput) && Fits(st.restInput) && Fits(st.notesInput) &&
    ExercisesValid(st.exercises)
  }

  /** enter on the exercise list with the cursor at k: the edit screen, its boxes loaded from exercise k. */
  function OpenEdit(st: BuilderState, k: int): BuilderState
    requires 0 <= k < |st.exercises|
  {
    var ex := st.exercises[k];
    st.(editingIndex := k,
        setsInput := Focus(SetValue(st.setsInput, IntToString(ex.sets))),
        restInput := SetValue(st.restInput, IntToString(ex.restSeconds)),
        notesInput := SetValue(st.notesInput, ex.notes),
        mode := ModeEditSets)
  }

  /** enter on the edit screen: the boxes saved into the exercise being edited, back to the list. */
  function SaveEdit(st: BuilderState): BuilderState
  {
    st.(exercises := Edited(st.exercises, st.editingIndex, st.setsInput.value, st.restInput.value, st.notesInput.value),
        mode := ModeExerciseList, setsInput := Blur(st.setsInput), restInput := Blur(st.restInput),
        notesInput := Blur(st.notesInput))
  }

  /** enter on the template screen with the cursor at k: the template appended, back to the list with the search cleared. */
  function AddTemplate(st: BuilderState, k: int): BuilderState
    requires 0 <= k < |st.filteredTempls|
  {
    st.(exercises := st.exercises + [NewExercise(st.filteredTempls[k])],
        mode := ModeExerciseList, templateSearch := SetValue(st.templateSearch, ""),
        filteredTempls := st.allTemplates)
  }

  /** Opening the edit screen keeps the builder valid. */
  lemma OpenEditValid(st: BuilderState, k: int)
    requires StateValid(st) && 0 <= k < |st.exercises|
    ensures StateValid(OpenEdit(st, k))
  {
  }

  /** Saving the edit screen keeps the builder valid. */
  lemma SaveEditValid(st: BuilderState)
    requires StateValid(st)
    ensures StateValid(SaveEdit(st))
  {
    if 0 <= st.editingIndex < |st.exercises| {
      EditedProperties(st.exercises, st.editingIndex, st.setsInput.value, st.restInput.value, st.notesInput.value);
    }
  }

  /** Adding a template keeps the builder valid. */
  lemma AddTemplateValid(st: BuilderState, k: int)
    requires StateValid(st) && 0 <= k < |st.filteredTempls|
    ensures StateValid(AddTemplate(st, k))
  {
  }

  /**
   * Opening the edit screen and saving it with nothing typed leaves the
   * exercises as they were and returns to the exercise list.
   */
  lemma OpenThenSave(st: BuilderState, k: int)
    requires StateValid(st) && 0 <= k < |st.exercises|
    ensures SaveEdit(OpenEdit(st, k)).exercises == st.exercises
    ensures SaveEdit(OpenEdit(st, k)).mode == ModeExerciseList
    ensures SaveEdit(OpenEdit(st, k)).editingIndex == k
  {
    EditRoundTrip(st.exercises, k, st.setsInput, st.restInput, st.notesInput);
  }

  class BuilderModel {
    var mode: Mode
    var title: string
    var titleInput: TextInput
    var exercises: seq<RoutineExercise>
    var templateSearch: TextInput
    var allTemplates: seq<ExerciseTemplate>
    var filteredTempls: seq<ExerciseTemplate>
    var setsInput: TextInput
    var restInput: TextInput
    var notesInput: TextInput
    var editingIndex: int
    var loading: bool
    var err: Option<string>
    var saved: bool
    var createdRoutine: Option<Routine>
    var quitting: bool

    function State(): BuilderState
      reads this
    {
      BuilderState(mode, title, titleInput, exercises, templateSearch, allTemplates, filteredTempls,
        setsInput, restInput, notesInput, editingIndex, loading, err, saved, createdRoutine, quitting)
    }

    predicate Valid()
      reads this
    {
      StateValid(State())
    }

    /** NewBuilderModel: the title screen with the title box focused, waiting for templates. */
    constructor NewBuilderModel()
      ensures State() == BuilderState(ModeTitle, "", Focus(NewInput(TitleLimit)), [], NewInput(SearchLimit), [], [],
        NewInput(SetsLimit), NewInput(RestLimit), NewInput(NotesLimit), 0, true, None, false, None, false)
      ensures Valid()
    {
      mode := ModeTitle;
      title := "";
      titleInput := Focus(NewInput(TitleLimit));
      exercises := [];
      templateSearch := NewInput(SearchLimit);
      allTemplates, filteredTempls := [], [];
      setsInput, restInput, notesInput := NewInput(SetsLimit), NewInput(RestLimit), NewInput(NotesLimit);
      editingIndex := 0;
      loading := true;
      err := None;
      saved := false;
      createdRoutine := None;
      quitting := false;
    }

    /** filterTemplates. */
    method FilterTemplates()
      modifies this
      ensures State() == old(State()).(filteredTempls := FilteredTemplates(allTemplates, templateSearch.value))
    {
      var query := Lower(templateSearch.value);
      if query == "" {
        filteredTempls := allTemplates;
      } else {
        filteredTempls := FilterSeq(allTemplates, TemplateMatcher(query));
      }
    }

    /** templatesLoadedMsg: both template lists replaced, loading over. */
    method TemplatesLoaded(ts: seq<ExerciseTemplate>)
      modifies this
      ensures State() == old(State()).(allTemplates := ts, filteredTempls := ts, loading := false)
    {
      allTemplates := ts;
      filteredTempls := ts;
      loading := false;
    }

    /** routineCreatedMsg: saved, and the program quits. */
    method RoutineCreated(r: Routine) returns (quit: bool)
      modifies this
      ensures quit
      ensures State() == old(State()).(createdRoutine := Some(r), saved := true, quitting := true)
    {
      createdRoutine := Some(r);
      saved := true;
      quitting := true;
      quit := true;
    }

    /** errMsg: the error is kept and loading ends. */
    method Failed(e: string)
      modifies this
      ensures State() == old(State()).(err := Some(e), loading := false)
    {
      err := Some(e);
      loading := false;
    }

    /** ctrl+c quits from every screen. */
    method CtrlC() returns (quit: bool)
      modifies this
      ensures quit
      ensures State() == old(State()).(quitting := true)
    {
      quitting := true;
      quit := true;
    }

    /** esc steps back one screen; on the title screen it quits. */
    method Esc() returns (quit: bool)
      modifies this
      ensures quit <==> old(mode) == ModeTitle
      ensures old(mode) == ModeTitle ==> State() == old(State()).(quitting := true)
      ensures old(mode) == ModeExerciseList ==> State() == old(State()).(mode := ModeTitle, titleInput := Focus(old(titleInput)))
      ensures old(mode) == ModeAddExercise ==>
        State() == old(State()).(mode := ModeExerciseList, templateSearch := SetValue(old(templateSearch), ""),
                                 filteredTempls := old(allTemplates))
      ensures old(mode) == ModeEditSets ==> State() == old(State()).(mode := ModeAddExercise, templateSearch := Focus(old(templateSearch)))
      ensures old(mode) == ModeConfirm ==> State() == old(State()).(mode := ModeExerciseList)
    {
      quit := mode == ModeTitle;
      match mode
      case ModeTitle =>
        var _ := CtrlC();
      case ModeExerciseList =>
        BackToTitle();
      case ModeAddExercise =>
        LeaveTemplates();
      case ModeEditSets =>
        BackToTemplates();
      case ModeConfirm =>
        BackToList();
    }

    /** Back from the exercise list to the title screen, title box focused. */
    method BackToTitle()
      modifies this
      ensures State() == old(State()).(mode := ModeTitle, titleInput := Focus(old(titleInput)))
    {
      mode := ModeTitle;
      titleInput := Focus(titleInput);
    }

    /** Back from the template screen to the exercise list, search cleared and every template listed again. */
    method LeaveTemplates()
      modifies this
      ensures State() == old(State()).(mode := ModeExerciseList, templateSearch := SetValue(old(templateSearch), ""),
                                       filteredTempls := old(allTemplates))
    {
      mode := ModeExerciseList;
      templateSearch := SetValue(templateSearch, "");
      FilterTemplates();
    }

    /** Back from the edit screen to the template screen, search box focused. */
    method BackToTemplates()
      modifies this
      ensures State() == old(State()).(mode := ModeAddExercise, templateSearch := Focus(old(templateSearch)))
    {
      mode := ModeAddExercise;
      templateSearch := Focus(templateSearch);
    }

    /** Back from the confirm screen to the exercise list. */
    method BackToList()
      modifies this
      ensures State() == old(State()).(mode := ModeExerciseList)
    {
      mode := ModeExerciseList;
    }

    /** enter on the title screen: a non-empty title is taken and the exercise list opens. */
    method EnterTitle()
      modifies this
      ensures State() == if old(titleInput.value) != "" then
                           old(State()).(title := old(titleInput.value), mode := ModeExerciseList, titleInput := Blur(old(titleInput)))
                         else old(State())
    {
      if titleInput.value != "" {
        title := titleInput.value;
        mode := ModeExerciseList;
        titleInput := Blur(titleInput);
      }
    }

    /** enter on the exercise list: the edit screen opens on the exercise under the cursor, its values in the boxes. */
    method EnterExerciseList(listIndex: int)
      modifies this
      ensures 0 <= listIndex < |old(exercises)| ==> State() == OpenEdit(old(State()), listIndex)
      ensures !(0 <= listIndex < |old(exercises)|) ==> State() == old(State())
    {
      if |exercises| > 0 {
        var selected := listIndex;
        if selected >= 0 && selected < |exercises| {
          LoadEditScreen(selected);
        }
      }
    }

    /** The edit screen, its boxes loaded from exercise k. */
    method LoadEditScreen(k: int)
      requires 0 <= k < |exercises|
      modifies this
      ensures State() == OpenEdit(old(State()), k)
    {
      var ex := exercises[k];
      var sets, rest, notes := Focus(SetValue(setsInput, IntToString(ex.sets))),
        SetValue(restInput, IntToString(ex.restSeconds)), SetValue(notesInput, ex.notes);
      editingIndex := k;
      setsInput, restInput, notesInput := sets, rest, notes;
      mode := ModeEditSets;
    }

    /** enter on the template screen: the template under the cursor is appended with 3 sets and 90 s rest. */
    method EnterAddExercise(templateIndex: int)
      modifies this
      ensures State() == if 0 <= templateIndex < |old(filteredTempls)| then AddTemplate(old(State()), templateIndex) else old(State())
    {
      if |filteredTempls| > 0 {
        if 0 <= templateIndex < |filteredTempls| {
          exercises := exercises + [NewExercise(filteredTempls[templateIndex])];
          LeaveTemplates();
        }
      }
    }

    /** enter on the edit screen: the edited exercise takes the clamped values; the list is shown again. */
    method EnterEditSets()
      modifies this
      ensures State() == SaveEdit(old(State()))
    {
      // SaveEdit writes exercise editingIndex only when that index is in range.
      var next := SaveEdit(State());
      exercises := next.exercises;
      mode := next.mode;
      setsInput, restInput, notesInput := next.setsInput, next.restInput, next.notesInput;
    }

    /** enter on the confirm screen: loading, and the request to send. */
    method EnterConfirm() returns (request: CreateRoutineData)
      requires Valid()
      modifies this
      ensures State() == old(State()).(loading := true)
      ensures request == RoutineRequest(old(title), old(exercises))
    {
      loading := true;
      request := BuildRoutineRequest(title, exercises);
    }

    /** handleEnter, with the exercise list's cursor and the template list's cursor. */
    method Enter(listIndex: int, templateIndex: int) returns (request: Option<CreateRoutineData>)
      requires Valid()
      modifies this
      ensures Valid()
      ensures request.Some? <==> old(mode) == ModeConfirm
      ensures old(mode) == ModeTitle ==>
        State() == if old(titleInput.value) != "" then
                     old(State()).(title := old(titleInput.value), mode := ModeExerciseList, titleInput := Blur(old(titleInput)))
                   else old(State())
      ensures old(mode) == ModeExerciseList ==>
        State() == if 0 <= listIndex < |old(exercises)| then OpenEdit(old(State()), listIndex) else old(State())
      ensures old(mode) == ModeAddExercise ==>
        State() == if 0 <= templateIndex < |old(filteredTempls)| then AddTemplate(old(State()), templateIndex) else old(State())
      ensures old(mode) == ModeEditSets ==> State() == SaveEdit(old(State()))
      ensures old(mode) == ModeConfirm ==>
        State() == old(State()).(loading := true) && request == Some(RoutineRequest(old(title), old(exercises)))
    {
      request := None;
      ghost var before := State();
      match mode
      case ModeTitle =>
        EnterTitle();
      case ModeExerciseList =>
        if 0 <= listIndex < |exercises| {
          OpenEditValid(before, listIndex);
        }
        EnterExerciseList(listIndex);
      case ModeAddExercise =>
        if 0 <= templateIndex < |filteredTempls| {
          AddTemplateValid(before, templateIndex);
        }
        EnterAddExercise(templateIndex);
      case ModeEditSets =>
        SaveEditValid(before);
        EnterEditSets();
      case ModeConfirm =>
        var req := EnterConfirm();
        request := Some(req);
    }

    /** `a` on the exercise list opens the template screen with the search box focused. */
    method KeyA()
      modifies this
      ensures State() == if old(mode) == ModeExerciseList then
                           old(State()).(mode := ModeAddExercise, templateSearch := Focus(old(templateSearch)))
                         else old(State())
    {
      if mode == ModeExerciseList {
        mode := ModeAddExercise;
        templateSearch := Focus(templateSearch);
      }
    }

    /** `d` on the exercise list deletes the exercise under the cursor. */
    method KeyD(listIndex: int)
      requires Valid()
      modifies this
      ensures Valid()
      ensures State() == if old(mode) == ModeExerciseList then old(State()).(exercises := Removed(old(exercises), listIndex))
                         else old(State())
    {
      if mode == ModeExerciseList && |exercises| > 0 {
        var selected := listIndex;
        if selected >= 0 && selected < |exercises| {
          RemovedProperties(exercises, selected);
          exercises := exercises[..selected] + exercises[selected + 1..];
        }
      }
    }

    /** `s` on the exercise list asks for confirmation, only with a title and at least one exercise. */
    method KeyS()
      modifies this
      ensures State() == if old(mode) == ModeExerciseList && |old(exercises)| > 0 && old(title) != "" then
                           old(State()).(mode := ModeConfirm)
                         else old(State())
    {
      if mode == ModeExerciseList && |exercises| > 0 && title != "" {
        mode := ModeConfirm;
      }
    }

    /** tab on the edit screen moves the focus sets → rest → notes → sets. */
    method Tab()
      modifies this
      ensures old(mode) != ModeEditSets ==> State() == old(State())
      ensures old(mode) == ModeEditSets ==>
        State() == if old(setsInput.focused) then old(State()).(setsInput := Blur(old(setsInput)), restInput := Focus(old(restInput)))
                   else if old(restInput.focused) then old(State()).(restInput := Blur(old(restInput)), notesInput := Focus(old(notesInput)))
                   else old(State()).(notesInput := Blur(old(notesInput)), setsInput := Focus(old(setsInput)))
    {
      if mode == ModeEditSets {
        if setsInput.focused {
          setsInput := Blur(setsInput);
          restInput := Focus(restInput);
        } else if restInput.focused {
          restInput := Blur(restInput);
          notesInput := Focus(notesInput);
        } else {
          notesInput := Blur(notesInput);
          setsInput := Focus(setsInput);
        }
      }
    }

    /**
     * Any other key, as handleKeyPress is written: it falls out of the key
     * switch and the model is returned unchanged, so no typed character ever
     * reaches a text box.
     */
    method OtherKeyAsWritten(c: char)
      ensures State() == old(State())
    {
    }

    /**
     * Any other key, as evidently intended: a typed character goes to the
     * boxes of the current screen (only a focused box takes it), and a change
     * of the search text refilters the templates.
     */
    method OtherKey(c: char)
      requires Valid()
      modifies this
      ensures Valid()
      ensures old(mode) == ModeTitle ==> State() == old(State()).(titleInput := Insert(old(titleInput), c))
      ensures old(mode) == ModeAddExercise ==>
        State() == old(State()).(templateSearch := Insert(old(templateSearch), c),
                                 filteredTempls := if Insert(old(templateSearch), c) == old(templateSearch) then old(filteredTempls)
                                                   else FilteredTemplates(old(allTemplates), Insert(old(templateSearch), c).value))
      ensures old(mode) == ModeEditSets ==>
        State() == old(State()).(setsInput := Insert(old(setsInput), c), restInput := Insert(old(restInput), c),
                                 notesInput := Insert(old(notesInput), c))
      ensures old(mode) == ModeExerciseList || old(mode) == ModeConfirm ==> State() == old(State())
    {
      match mode
      case ModeTitle =>
        titleInput := Insert(titleInput, c);
      case ModeAddExercise =>
        TypeSearch(c);
      case ModeEditSets =>
        setsInput, restInput, notesInput := Insert(setsInput, c), Insert(restInput, c), Insert(notesInput, c);
      case ModeExerciseList =>
      case ModeConfirm =>
    }

    /** A character typed into the search box; the templates are refiltered when the text changed. */
    method TypeSearch(c: char)
      modifies this
      ensures State() == old(State()).(templateSearch := Insert(old(templateSearch), c),
                                       filteredTempls := if Insert(old(templateSearch), c) == old(templateSearch) then old(filteredTempls)
                                                         else FilteredTemplates(old(allTemplates), Insert(old(templateSearch), c).value))
    {
      var prev := templateSearch.value;
      templateSearch := Insert(templateSearch, c);
      if templateSearch.value != prev {
        FilterTemplates();
      }
    }
  }

  /** Typing "Legs" and pressing enter on a fresh builder, as written: the title screen stays and no title is taken. */
  method TitleScreenAsWritten() returns (mode: Mode, title: string)
    ensures mode == ModeTitle && title == ""
  {
    var m := new BuilderModel.NewBuilderModel();
    m.OtherKeyAsWritten('L');
    m.OtherKeyAsWritten('e');
    m.OtherKeyAsWritten('g');
    m.OtherKeyAsWritten('s');
    var _ := m.Enter(0, 0);
    mode, title := m.mode, m.title;
  }

  /** The same keys when typed characters reach the focused box: the title is taken and the exercise list opens. */
  method TitleScreen() returns (mode: Mode, title: string)
    ensures mode == ModeExerciseList && title == "Legs"
  {
    var m := new BuilderModel.NewBuilderModel();
    m.OtherKey('L');
    m.OtherKey('e');
    m.OtherKey('g');
    m.OtherKey('s');
    var _ := m.Enter(0, 0);
    mode, title := m.mode, m.title;
  }
}
