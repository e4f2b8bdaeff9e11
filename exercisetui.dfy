/**
 * The two interactive exercise screens (internal/tui/exercise): the table,
 * which browses the templates and searches them after "/", and the search
 * screen, whose search box has the focus from the start. Both filter the
 * loaded templates by title, primary muscle group or equipment.
 *
 * Each screen is a class whose fields are the screen's state; its key
 * handler is specified by a transition function on that state, about which
 * the lemmas below are stated. The table cursor and the list index are passed
 * to the key that reads them.
 */
module ExerciseTui {
  import opened Common
  import opened ApiTypes
  import opened TextBox

  const TableSearchLimit: nat := 100
  const SearchBoxLimit: nat := 50

  // ---------------------------------------------------------------- the filter

  /** The lowercased query occurs in the lowercased title, primary muscle group or equipment. */
  predicate ExerciseMatches(e: ExerciseTemplate, query: string)
  {
    Contains(Lower(e.title), query) || Contains(Lower(e.primaryMuscleGroup), query) || Contains(Lower(e.equipment), query)
  }

  function ExerciseMatcher(query: string): ExerciseTemplate -> bool
  {
    e => ExerciseMatches(e, query)
  }

  /** filterExercises: everything for an empty query, otherwise the matching exercises in order. */
  function FilteredExercises(all: seq<ExerciseTemplate>, search: string): seq<ExerciseTemplate>
  {
    var query := Lower(search);
    if query == "" then all else Filter(all, ExerciseMatcher(query))
  }

  /** The empty-query shortcut agrees with the filter, which keeps exactly the matching exercises. */
  lemma FilteredExercisesProperties(all: seq<ExerciseTemplate>, search: string)
    ensures FilteredExercises(all, search) == Filter(all, ExerciseMatcher(Lower(search)))
    ensures search == "" ==> FilteredExercises(all, search) == all
    ensures forall e :: e in FilteredExercises(all, search) <==> e in all && ExerciseMatches(e, Lower(search))
  {
    var query := Lower(search);
    if query == "" {
      forall i | 0 <= i < |all| ensures ExerciseMatcher(query)(all[i]) {
        ContainsEmpty(Lower(all[i].title));
      }
      FilterAllPass(all, ExerciseMatcher(query));
    }
    FilterMembers(all, ExerciseMatcher(query));
  }

  /** The filter loop shared by both screens. */
  method FilterLoop(all: seq<ExerciseTemplate>, search: string) returns (filtered: seq<ExerciseTemplate>)
    ensures filtered == FilteredExercises(all, search)
  {
    var query := Lower(search);
    if query == "" {
      filtered := all;
    } else {
      filtered := FilterSeq(all, ExerciseMatcher(query));
    }
  }

  /** Every shown exercise is one of the loaded ones. */
  predicate Within(filtered: seq<ExerciseTemplate>, all: seq<ExerciseTemplate>)
  {
    forall i :: 0 <= i < |filtered| ==> filtered[i] in all
  }

  lemma FilteredWithin(all: seq<ExerciseTemplate>, search: string)
    ensures Within(FilteredExercises(all, search), all)
  {
    FilteredExercisesProperties(all, search);
  }

  // ---------------------------------------------------------------- the table screen

  datatype TableState = TableState(
    textInput: TextInput,
    allExercises: seq<ExerciseTemplate>,
    filtered: seq<ExerciseTemplate>,
    loading: bool,
    err: Option<string>,
    quitting: bool,
    selected: Option<ExerciseTemplate>,
    searchFocus: bool)

  /** The state after a key, and whether the program quits. */
  datatype TableStep = TableStep(state: TableState, quit: bool)

  /** What the table hands back: the chosen exercise, and whether the user cancelled. */
  datatype TableResult = TableResult(selected: Option<ExerciseTemplate>, cancelled: bool)

  /** GetResult: cancelled when the user quit or chose nothing. */
  function ResultOf(st: TableState): TableResult
  {
    TableResult(st.selected, st.quitting || st.selected.None?)
  }

  /** The search box keeps its limit, the "search focused" flag is the box's focus, and only loaded exercises are shown. */
  predicate TableValid(st: TableState)
  {
    st.textInput.charLimit == TableSearchLimit && Fits(st.textInput) &&
    st.searchFocus == st.textInput.focused &&
    Within(st.filtered, st.allExercises)
  }

  /** The shown list is the filter of the loaded exercises by the search text. */
  predicate TableConsistent(st: TableState)
  {
    st.filtered == FilteredExercises(st.allExercises, st.textInput.value)
  }

  /** A key while the search box has the focus: esc and enter leave the box, anything else edits it. */
  function TableSearchKey(st: TableState, k: Key): TableStep
  {
    if k.Esc? || k.Enter? then
      TableStep(st.(searchFocus := false, textInput := Blur(st.textInput)), false)
    else
      var t := Typed(st.textInput, k);
      if t.value == st.textInput.value then TableStep(st.(textInput := t), false)
      else TableStep(st.(textInput := t, filtered := FilteredExercises(st.allExercises, t.value)), false)
  }

  /** The row under the table cursor can be chosen. */
  predicate Selectable(loading: bool, filtered: seq<ExerciseTemplate>, cursor: int)
  {
    !loading && |filtered| > 0 && 0 <= cursor < |filtered|
  }

  /**
   * A key while browsing: ctrl+c and q quit; esc clears a search or else
   * quits; "/" focuses the search box; enter chooses the row under the
   * cursor. Every other key only moves the table.
   */
  function TableBrowseKey(st: TableState, k: Key, cursor: int): TableStep
  {
    if k.CtrlC? || k == Rune('q') then TableStep(st.(quitting := true), true)
    else if k.Esc? then
      if st.textInput.value != "" then
        TableStep(st.(textInput := SetValue(st.textInput, ""), filtered := FilteredExercises(st.allExercises, "")), false)
      else TableStep(st.(quitting := true), true)
    else if k == Rune('/') then TableStep(st.(searchFocus := true, textInput := Focus(st.textInput)), false)
    else if k.Enter? && Selectable(st.loading, st.filtered, cursor) then
      TableStep(st.(selected := Some(st.filtered[cursor])), true)
    else TableStep(st, false)
  }

  function TableKey(st: TableState, k: Key, cursor: int): TableStep
  {
    if st.searchFocus then TableSearchKey(st, k) else TableBrowseKey(st, k, cursor)
  }

  /** Every key keeps the table valid. */
  lemma TableKeyValid(st: TableState, k: Key, cursor: int)
    requires TableValid(st)
    ensures TableValid(TableKey(st, k, cursor).state)
  {
    FilteredWithin(st.allExercises, st.textInput.value);
    FilteredWithin(st.allExercises, Typed(st.textInput, k).value);
    FilteredWithin(st.allExercises, "");
  }

  /** Every key keeps the shown list in step with the search text. */
  lemma TableKeyConsistent(st: TableState, k: Key, cursor: int)
    requires TableConsistent(st)
    ensures TableConsistent(TableKey(st, k, cursor).state)
  {
  }

  /**
   * While the search box has the focus no key quits, chooses a row or
   * changes the loaded exercises: q is typed into the box, and ctrl+c
   * reaches the box and changes nothing.
   */
  lemma TableSearchNeverQuits(st: TableState, k: Key, cursor: int)
    requires st.searchFocus
    ensures var r := TableKey(st, k, cursor);
      !r.quit && r.state.quitting == st.quitting && r.state.selected == st.selected &&
      r.state.allExercises == st.allExercises && r.state.loading == st.loading
  {
  }

  /**
   * The table quits exactly on ctrl+c, q, esc with an empty search, or a
   * choice; a quit by choice hands back the chosen loaded exercise, any other
   * quit is a cancellation, and a key that does not quit leaves the result alone.
   */
  lemma TableKeyResult(st: TableState, k: Key, cursor: int)
    requires TableValid(st) && !st.quitting
    ensures var r := TableKey(st, k, cursor);
      (r.quit <==> (!st.searchFocus &&
                    (k.CtrlC? || k == Rune('q') || (k.Esc? && st.textInput.value == "") || (k.Enter? && Selectable(st.loading, st.filtered, cursor))))) &&
      (r.quit && k.Enter? ==> ResultOf(r.state) == TableResult(Some(st.filtered[cursor]), false) && st.filtered[cursor] in st.allExercises) &&
      (r.quit && !k.Enter? ==> ResultOf(r.state).cancelled) &&
      (!r.quit ==> ResultOf(r.state) == ResultOf(st))
  {
  }

  class TableModel {
    var textInput: TextInput
    var allExercises: seq<ExerciseTemplate>
    var filtered: seq<ExerciseTemplate>
    var loading: bool
    var err: Option<string>
    var quitting: bool
    var selected: Option<ExerciseTemplate>
    var searchFocus: bool

    function State(): TableState
      reads this
    {
      TableState(textInput, allExercises, filtered, loading, err, quitting, selected, searchFocus)
    }

    predicate Valid()
      reads this
    {
      TableValid(State())
    }

    /** NewTableModel: an empty, unfocused search box of 100 characters, loading. */
    constructor NewTableModel()
      ensures State() == TableState(NewInput(TableSearchLimit), [], [], true, None, false, None, false)
      ensures Valid() && TableConsistent(State())
    {
      textInput := NewInput(TableSearchLimit);
      allExercises := [];
      filtered := [];
      loading := true;
      err := None;
      quitting := false;
      selected := None;
      searchFocus := false;
    }

    method FilterExercises()
      modifies this
      ensures State() == old(State()).(filtered := FilteredExercises(allExercises, textInput.value))
    {
      filtered := FilterLoop(allExercises, textInput.value);
    }

    /** tableExercisesLoadedMsg: all exercises are shown, whatever the search box holds. */
    method Loaded(es: seq<ExerciseTemplate>)
      modifies this
      ensures State() == old(State()).(allExercises := es, filtered := es, loading := false)
    {
      allExercises := es;
      filtered := es;
      loading := false;
    }

    /** tableLoadErrorMsg. */
    method LoadFailed(e: string)
      modifies this
      ensures State() == old(State()).(err := Some(e), loading := false)
    {
      err := Some(e);
      loading := false;
    }

    function GetResult(): TableResult
      reads this
    {
      ResultOf(State())
    }

    method SearchKey(k: Key)
      requires searchFocus
      modifies this
      ensures State() == TableSearchKey(old(State()), k).state
    {
      if k.Esc? || k.Enter? {
        searchFocus := false;
        textInput := Blur(textInput);
      } else {
        var prev := textInput.value;
        textInput := Typed(textInput, k);
        if textInput.value != prev {
          FilterExercises();
        }
      }
    }

    method BrowseKey(k: Key, cursor: int) returns (quit: bool)
      requires !searchFocus
      modifies this
      ensures State() == TableBrowseKey(old(State()), k, cursor).state
      ensures quit == TableBrowseKey(old(State()), k, cursor).quit
    {
      quit := false;
      if k.CtrlC? || k == Rune('q') {
        quitting := true;
        quit := true;
      } else if k.Esc? {
        if textInput.value != "" {
          textInput := SetValue(textInput, "");
          FilterExercises();
        } else {
          quitting := true;
          quit := true;
        }
      } else if k == Rune('/') {
        searchFocus := true;
        textInput := Focus(textInput);
      } else if k.Enter? && !loading && |filtered| > 0 {
        if 0 <= cursor < |filtered| {
          selected := Some(filtered[cursor]);
          quit := true;
        }
      }
    }

    /** Update on a key. */
    method Key(k: Key, cursor: int) returns (quit: bool)
      requires Valid()
      modifies this
      ensures Valid()
      ensures State() == TableKey(old(State()), k, cursor).state
      ensures quit == TableKey(old(State()), k, cursor).quit
    {
      ghost var before := State();
      TableKeyValid(before, k, cursor);
      if searchFocus {
        SearchKey(k);
        quit := false;
      } else {
        quit := BrowseKey(k, cursor);
      }
    }
  }

  // ---------------------------------------------------------------- the search screen

  datatype SearchState = SearchState(
    textInput: TextInput,
    exercises: seq<ExerciseTemplate>,
    filtered: seq<ExerciseTemplate>,
    loading: bool,
    err: Option<string>,
    selected: Option<ExerciseTemplate>,
    quitting: bool)

  datatype SearchStep = SearchStep(state: SearchState, quit: bool)

  /** The search box keeps its limit and its focus, and only loaded exercises are listed. */
  predicate SearchValid(st: SearchState)
  {
    st.textInput.charLimit == SearchBoxLimit && st.textInput.focused && Fits(st.textInput) &&
    Within(st.filtered, st.exercises)
  }

  predicate SearchConsistent(st: SearchState)
  {
    st.filtered == FilteredExercises(st.exercises, st.textInput.value)
  }

  /**
   * A key: ctrl+c and esc quit; enter on a listed exercise chooses it and
   * quits; every other key, and an enter that chooses nothing, goes to the
   * search box, and the list is filtered again when the text changed.
   */
  function SearchKey(st: SearchState, k: Key, index: int): SearchStep
  {
    if k.CtrlC? || k.Esc? then SearchStep(st.(quitting := true), true)
    else if k.Enter? && Selectable(st.loading, st.filtered, index) then
      SearchStep(st.(selected := Some(st.filtered[index]), quitting := true), true)
    else
      var t := Typed(st.textInput, k);
      if t.value == st.textInput.value then SearchStep(st.(textInput := t), false)
      else SearchStep(st.(textInput := t, filtered := FilteredExercises(st.exercises, t.value)), false)
  }

  /** Every key keeps the search screen valid and its list in step with its text. */
  lemma SearchKeyInvariants(st: SearchState, k: Key, index: int)
    requires SearchValid(st)
    ensures SearchValid(SearchKey(st, k, index).state)
    ensures SearchConsistent(st) ==> SearchConsistent(SearchKey(st, k, index).state)
  {
    FilteredWithin(st.exercises, Typed(st.textInput, k).value);
  }

  /**
   * The screen quits exactly on ctrl+c, esc or a choice; a choice is a
   * loaded exercise; typed characters reach the search box, so q is typed
   * and does not quit.
   */
  lemma SearchKeyResult(st: SearchState, k: Key, index: int)
    requires SearchValid(st)
    ensures var r := SearchKey(st, k, index);
      (r.quit <==> k.CtrlC? || k.Esc? || (k.Enter? && Selectable(st.loading, st.filtered, index))) &&
      (r.quit ==> r.state.quitting) &&
      (r.quit && k.Enter? ==> r.state.selected == Some(st.filtered[index]) && st.filtered[index] in st.exercises) &&
      (!r.quit ==> r.state.selected == st.selected && r.state.textInput == Typed(st.textInput, k)) &&
      (k.Rune? && |st.textInput.value| < SearchBoxLimit ==> r.state.textInput.value == st.textInput.value + [k.c])
  {
  }

  class SearchModel {
    var textInput: TextInput
    var exercises: seq<ExerciseTemplate>
    var filtered: seq<ExerciseTemplate>
    var loading: bool
    var err: Option<string>
    var selected: Option<ExerciseTemplate>
    var quitting: bool

    function State(): SearchState
      reads this
    {
      SearchState(textInput, exercises, filtered, loading, err, selected, quitting)
    }

    predicate Valid()
      reads this
    {
      SearchValid(State())
    }

    /** NewSearchModel: a focused, empty search box of 50 characters, loading. */
    constructor NewSearchModel()
      ensures State() == SearchState(Focus(NewInput(SearchBoxLimit)), [], [], true, None, None, false)
      ensures Valid() && SearchConsistent(State())
    {
      textInput := Focus(NewInput(SearchBoxLimit));
      exercises := [];
      filtered := [];
      loading := true;
      err := None;
      selected := None;
      quitting := false;
    }

    method FilterExercises()
      modifies this
      ensures State() == old(State()).(filtered := FilteredExercises(exercises, textInput.value))
    {
      filtered := FilterLoop(exercises, textInput.value);
    }

    /** exercisesLoadedMsg: all exercises are listed, whatever the search box holds. */
    method Loaded(es: seq<ExerciseTemplate>)
      modifies this
      ensures State() == old(State()).(exercises := es, filtered := es, loading := false)
    {
      exercises := es;
      filtered := es;
      loading := false;
    }

    /** errMsg. */
    method LoadFailed(e: string)
      modifies this
      ensures State() == old(State()).(err := Some(e), loading := false)
    {
      err := Some(e);
      loading := false;
    }

    function Selected(): Option<ExerciseTemplate>
      reads this
    {
      selected
    }

    /** Update on a key. */
    method Key(k: Key, index: int) returns (quit: bool)
      requires Valid()
      modifies this
      ensures Valid()
      ensures State() == SearchKey(old(State()), k, index).state
      ensures quit == SearchKey(old(State()), k, index).quit
    {
      SearchKeyInvariants(State(), k, index);
      quit := false;
      if k.CtrlC? || k.Esc? {
        quitting := true;
        quit := true;
        return;
      }
      if k.Enter? && !loading && |filtered| > 0 && 0 <= index < |filtered| {
        selected := Some(filtered[index]);
        quitting := true;
        quit := true;
        return;
      }
      var prev := textInput.value;
      textInput := Typed(textInput, k);
      if textInput.value != prev {
        FilterExercises();
      }
    }
  }

  /** When the search box is empty, loading leaves the list in step with it (with a search typed during loading it need not). */
  lemma LoadedConsistent(st: TableState, es: seq<ExerciseTemplate>)
    requires st.textInput.value == ""
    ensures TableConsistent(st.(allExercises := es, filtered := es, loading := false))
  {
    FilteredExercisesProperties(es, "");
  }
}
