/**
 * The generic prompts (internal/tui/prompt/prompt.go): a one-line text
 * prompt, a selection from a fixed option list, and a selection from options
 * that are loaded and then narrowed by a search box.
 *
 * Each prompt's key handler is a class method specified by a transition
 * function on the prompt's state. The option list's own filtering mode and
 * its highlighted row belong to the list widget and are passed to the key
 * that reads them; the option loader becomes the two messages it sends.
 */
module Prompt {
  import opened Common
  import opened TextBox

  datatype SelectOption = SelectOption(id: string, title: string, description: string)

  const TextPromptLimit: nat := 256
  const SearchSelectLimit: nat := 100

  // ---------------------------------------------------------------- the text prompt

  datatype TextPromptState = TextPromptState(textInput: TextInput, value: string, cancelled: bool)

  datatype TextPromptStep = TextPromptStep(state: TextPromptState, quit: bool)

  /** newTextInputModel: a focused, empty box of 256 characters. */
  function NewTextPrompt(): (st: TextPromptState)
    ensures st.textInput.focused && st.textInput.value == "" && st.textInput.charLimit == TextPromptLimit
    ensures st.value == "" && !st.cancelled
  {
    TextPromptState(Focus(NewInput(TextPromptLimit)), "", false)
  }

  /** ctrl+c and esc cancel, enter takes the box's text, anything else goes to the box. */
  function TextPromptKey(st: TextPromptState, k: Key): TextPromptStep
  {
    if k.CtrlC? || k.Esc? then TextPromptStep(st.(cancelled := true), true)
    else if k.Enter? then TextPromptStep(st.(value := st.textInput.value), true)
    else TextPromptStep(st.(textInput := Typed(st.textInput, k)), false)
  }

  /** What TextInput returns for the final state: "cancelled", or the entered text. */
  function TextPromptOutcome(st: TextPromptState): Result<string>
  {
    if st.cancelled then Err("cancelled") else Ok(st.value)
  }

  /** The state after typing the characters of `s`, none of which quits. */
  function TypeText(st: TextPromptState, s: string): TextPromptState
    decreases |s|
  {
    if s == [] then st else TypeText(TextPromptKey(st, Rune(s[0])).state, s[1..])
  }

  /** Typing into a focused box with room appends the text and keeps everything else. */
  lemma {:induction false} TypeTextAppends(st: TextPromptState, s: string)
    requires st.textInput.focused && st.textInput.charLimit == TextPromptLimit
    requires |st.textInput.value| + |s| <= TextPromptLimit
    ensures TypeText(st, s) == st.(textInput := st.textInput.(value := st.textInput.value + s))
    decreases |s|
  {
    if s != [] {
      var next := TextPromptKey(st, Rune(s[0])).state;
      assert next.textInput.value == st.textInput.value + [s[0]];
      TypeTextAppends(next, s[1..]);
      assert st.textInput.value + [s[0]] + s[1..] == st.textInput.value + s;
    }
  }

  /** enter returns the box's text unless the prompt was cancelled; esc always cancels. */
  lemma EnterAndEsc(st: TextPromptState)
    ensures TextPromptKey(st, Enter).quit && TextPromptKey(st, Esc).quit
    ensures !st.cancelled ==> TextPromptOutcome(TextPromptKey(st, Enter).state) == Ok(st.textInput.value)
    ensures TextPromptOutcome(TextPromptKey(st, Esc).state) == Err("cancelled")
  {
  }

  /** Typing up to 256 characters into a fresh prompt gives a box holding exactly them, not cancelled. */
  lemma TypedIntoFresh(s: string)
    requires |s| <= TextPromptLimit
    ensures TypeText(NewTextPrompt(), s).textInput.value == s && !TypeText(NewTextPrompt(), s).cancelled
  {
    var start := NewTextPrompt();
    TypeTextAppends(start, s);
    assert "" + s == s;
  }

  /** Typing up to 256 characters into a fresh prompt and pressing enter returns exactly them; esc instead cancels. */
  lemma EnteredText(s: string)
    requires |s| <= TextPromptLimit
    ensures var typed := TypeText(NewTextPrompt(), s);
      TextPromptKey(typed, Enter).quit && TextPromptOutcome(TextPromptKey(typed, Enter).state) == Ok(s) &&
      TextPromptKey(typed, Esc).quit && TextPromptOutcome(TextPromptKey(typed, Esc).state) == Err("cancelled")
  {
    TypedIntoFresh(s);
    EnterAndEsc(TypeText(NewTextPrompt(), s));
  }

  class TextPromptModel {
    var textInput: TextInput
    var value: string
    var cancelled: bool

    function State(): TextPromptState
      reads this
    {
      TextPromptState(textInput, value, cancelled)
    }

    constructor NewTextInputModel()
      ensures State() == NewTextPrompt()
    {
      textInput := Focus(NewInput(TextPromptLimit));
      value := "";
      cancelled := false;
    }

    /** Update on a key. */
    method Key(k: Key) returns (quit: bool)
      modifies this
      ensures State() == TextPromptKey(old(State()), k).state
      ensures quit == TextPromptKey(old(State()), k).quit
    {
      quit := false;
      if k.CtrlC? || k.Esc? {
        cancelled := true;
        quit := true;
      } else if k.Enter? {
        value := textInput.value;
        quit := true;
      } else {
        textInput := Typed(textInput, k);
      }
    }

    function Outcome(): Result<string>
      reads this
    {
      TextPromptOutcome(State())
    }
  }

  // ---------------------------------------------------------------- the option list

  datatype SelectState = SelectState(options: seq<SelectOption>, selected: Option<SelectOption>, cancelled: bool)

  datatype SelectStep = SelectStep(state: SelectState, quit: bool)

  /**
   * A key. While the list is filtering every key goes to the list, whose
   * force-quit binding (ctrl+c) ends the program with nothing chosen and
   * nothing cancelled. Otherwise ctrl+c and esc cancel, enter takes the
   * highlighted option, if there is one, and quits either way, and the
   * other keys go to the list, whose quit binding (q) again ends the
   * program with nothing chosen.
   */
  function SelectKey(st: SelectState, k: Key, filtering: bool, highlighted: Option<nat>): SelectStep
  {
    if filtering then SelectStep(st, k.CtrlC?)
    else if k.CtrlC? || k.Esc? then SelectStep(st.(cancelled := true), true)
    else if k.Enter? then
      if highlighted.Some? && highlighted.value < |st.options| then
        SelectStep(st.(selected := Some(st.options[highlighted.value])), true)
      else SelectStep(st, true)
    else SelectStep(st, k == Rune('q'))
  }

  /** What Select returns: no options is an error before any screen; then "cancelled", or the chosen option (none if enter found no row). */
  function SelectOutcome(options: seq<SelectOption>, final: SelectState): Result<Option<SelectOption>>
  {
    if |options| == 0 then Err("no options provided")
    else if final.cancelled then Err("cancelled")
    else Ok(final.selected)
  }

  /** Only options of the list are ever chosen. */
  predicate SelectValid(st: SelectState)
  {
    st.selected.Some? ==> st.selected.value in st.options
  }

  /**
   * Every key keeps the choice among the options; enter on a highlighted
   * option ends the prompt with that option; while filtering only ctrl+c
   * ends it; and the list's own quit keys end it with no option and no
   * error, so Select returns no option at all.
   */
  lemma SelectKeyProperties(st: SelectState, k: Key, filtering: bool, highlighted: Option<nat>)
    requires SelectValid(st) && !st.cancelled
    ensures var r := SelectKey(st, k, filtering, highlighted);
      SelectValid(r.state) && r.state.options == st.options &&
      (filtering ==> r.state == st && (r.quit <==> k.CtrlC?)) &&
      ((filtering && k.CtrlC?) || (!filtering && k == Rune('q')) ==>
        r.quit && (st.selected == None && |st.options| > 0 ==> SelectOutcome(st.options, r.state) == Ok(None))) &&
      (!filtering && k.Enter? && highlighted.Some? && highlighted.value < |st.options| ==>
        r.quit && SelectOutcome(st.options, r.state) == Ok(Some(st.options[highlighted.value]))) &&
      (!filtering && (k.CtrlC? || k.Esc?) ==> r.quit && SelectOutcome(st.options, r.state).Err?)
  {
  }

  class SelectModel {
    var options: seq<SelectOption>
    var selected: Option<SelectOption>
    var cancelled: bool

    function State(): SelectState
      reads this
    {
      SelectState(options, selected, cancelled)
    }

    constructor NewSelectModel(opts: seq<SelectOption>)
      ensures State() == SelectState(opts, None, false)
    {
      options := opts;
      selected := None;
      cancelled := false;
    }

    /** Update on a key. */
    method Key(k: Key, filtering: bool, highlighted: Option<nat>) returns (quit: bool)
      modifies this
      ensures State() == SelectKey(old(State()), k, filtering, highlighted).state
      ensures quit == SelectKey(old(State()), k, filtering, highlighted).quit
    {
      quit := false;
      if filtering {
        quit := k.CtrlC?;
        return;
      }
      if k.CtrlC? || k.Esc? {
        cancelled := true;
        quit := true;
      } else if k.Enter? {
        if highlighted.Some? && highlighted.value < |options| {
          selected := Some(options[highlighted.value]);
        }
        quit := true;
      } else {
        quit := k == Rune('q');
      }
    }
  }

  /** Select with zero options fails before any screen runs, whatever the screen would have done. */
  lemma NoOptionsFails(final: SelectState)
    ensures SelectOutcome([], final) == Err("no options provided")
  {
  }

  // ---------------------------------------------------------------- the search-and-select prompt

  /** The lowercased query occurs in the lowercased title or description. */
  predicate OptionMatches(o: SelectOption, query: string)
  {
    Contains(Lower(o.title), query) || Contains(Lower(o.description), query)
  }

  function OptionMatcher(query: string): SelectOption -> bool
  {
    o => OptionMatches(o, query)
  }

  /** filterOptions: everything for an empty query, otherwise the matching options in order. */
  function FilteredOptions(all: seq<SelectOption>, search: string): seq<SelectOption>
  {
    var query := Lower(search);
    if query == "" then all else Filter(all, OptionMatcher(query))
  }

  /** The empty-query shortcut agrees with the filter, which keeps exactly the matching options. */
  lemma FilteredOptionsProperties(all: seq<SelectOption>, search: string)
    ensures FilteredOptions(all, search) == Filter(all, OptionMatcher(Lower(search)))
    ensures search == "" ==> FilteredOptions(all, search) == all
    ensures forall o :: o in FilteredOptions(all, search) <==> o in all && OptionMatches(o, Lower(search))
  {
    var query := Lower(search);
    if query == "" {
      forall i | 0 <= i < |all| ensures OptionMatcher(query)(all[i]) {
        ContainsEmpty(Lower(all[i].title));
      }
      FilterAllPass(all, OptionMatcher(query));
    }
    FilterMembers(all, OptionMatcher(query));
  }

  datatype SearchSelectState = SearchSelectState(
    textInput: TextInput,
    allOptions: seq<SelectOption>,
    filtered: seq<SelectOption>,
    loading: bool,
    err: Option<string>,
    selected: Option<SelectOption>,
    cancelled: bool)

  datatype SearchSelectStep = SearchSelectStep(state: SearchSelectState, quit: bool)

  /** The box keeps its limit and its focus, and only loaded options are listed. */
  predicate SearchSelectValid(st: SearchSelectState)
  {
    st.textInput.charLimit == SearchSelectLimit && st.textInput.focused && Fits(st.textInput) &&
    (forall i :: 0 <= i < |st.filtered| ==> st.filtered[i] in st.allOptions)
  }

  predicate SearchSelectConsistent(st: SearchSelectState)
  {
    st.filtered == FilteredOptions(st.allOptions, st.textInput.value)
  }

  /**
   * A key: ctrl+c and esc cancel; enter on a listed option chooses it and
   * quits; every other key, and an enter that chooses nothing, goes to the
   * search box, and the list is filtered again when the text changed.
   */
  function SearchSelectKey(st: SearchSelectState, k: Key, index: int): SearchSelectStep
  {
    if k.CtrlC? || k.Esc? then SearchSelectStep(st.(cancelled := true), true)
    else if k.Enter? && !st.loading && |st.filtered| > 0 && 0 <= index < |st.filtered| then
      SearchSelectStep(st.(selected := Some(st.filtered[index])), true)
    else
      var t := Typed(st.textInput, k);
      if t.value == st.textInput.value then SearchSelectStep(st.(textInput := t), false)
      else SearchSelectStep(st.(textInput := t, filtered := FilteredOptions(st.allOptions, t.value)), false)
  }

  /** What SearchSelect returns for the final state. */
  function SearchSelectOutcome(st: SearchSelectState): Result<Option<SelectOption>>
  {
    if st.cancelled then Err("cancelled") else Ok(st.selected)
  }

  /** Every key keeps the prompt valid and its list in step with its text. */
  lemma SearchSelectKeyInvariants(st: SearchSelectState, k: Key, index: int)
    requires SearchSelectValid(st)
    ensures SearchSelectValid(SearchSelectKey(st, k, index).state)
    ensures SearchSelectConsistent(st) ==> SearchSelectConsistent(SearchSelectKey(st, k, index).state)
  {
    var t := Typed(st.textInput, k);
    FilteredOptionsProperties(st.allOptions, t.value);
  }

  /**
   * The prompt ends exactly on ctrl+c, esc, or enter on a listed option when
   * loading is over; ending by enter returns that loaded option.
   */
  lemma SearchSelectKeyResult(st: SearchSelectState, k: Key, index: int)
    requires SearchSelectValid(st) && !st.cancelled
    ensures var r := SearchSelectKey(st, k, index);
      (r.quit <==> k.CtrlC? || k.Esc? || (k.Enter? && !st.loading && 0 <= index < |st.filtered|)) &&
      (r.quit && k.Enter? ==> SearchSelectOutcome(r.state) == Ok(Some(st.filtered[index])) && st.filtered[index] in st.allOptions) &&
      (r.quit && !k.Enter? ==> SearchSelectOutcome(r.state) == Err("cancelled")) &&
      (!r.quit ==> r.state.selected == st.selected && !r.state.cancelled)
  {
  }

  class SearchSelectModel {
    var textInput: TextInput
    var allOptions: seq<SelectOption>
    var filtered: seq<SelectOption>
    var loading: bool
    var err: Option<string>
    var selected: Option<SelectOption>
    var cancelled: bool

    function State(): SearchSelectState
      reads this
    {
      SearchSelectState(textInput, allOptions, filtered, loading, err, selected, cancelled)
    }

    predicate Valid()
      reads this
    {
      SearchSelectValid(State())
    }

    /** newSearchSelectModel: a focused, empty box of 100 characters, loading. */
    constructor NewSearchSelectModel()
      ensures State() == SearchSelectState(Focus(NewInput(SearchSelectLimit)), [], [], true, None, None, false)
      ensures Valid() && SearchSelectConsistent(State())
    {
      textInput := Focus(NewInput(SearchSelectLimit));
      allOptions := [];
      filtered := [];
      loading := true;
      err := None;
      selected := None;
      cancelled := false;
    }

    /** The filterOptions loop. */
    method FilterOptions()
      modifies this
      ensures State() == old(State()).(filtered := FilteredOptions(allOptions, textInput.value))
    {
      var query := Lower(textInput.value);
      if query == "" {
        filtered := allOptions;
      } else {
        filtered := FilterSeq(allOptions, OptionMatcher(query));
      }
    }

    /** optionsLoadedMsg: all options are listed, whatever the box holds. */
    method Loaded(opts: seq<SelectOption>)
      modifies this
      ensures State() == old(State()).(allOptions := opts, filtered := opts, loading := false)
    {
      allOptions := opts;
      filtered := opts;
      loading := false;
    }

    /** loadErrMsg. */
    method LoadFailed(e: string)
      modifies this
      ensures State() == old(State()).(err := Some(e), loading := false)
    {
      err := Some(e);
      loading := false;
    }

    /** Update on a key. */
    method Key(k: Key, index: int) returns (quit: bool)
      requires Valid()
      modifies this
      ensures Valid()
      ensures State() == SearchSelectKey(old(State()), k, index).state
      ensures quit == SearchSelectKey(old(State()), k, index).quit
    {
      SearchSelectKeyInvariants(State(), k, index);
      quit := false;
      if k.CtrlC? || k.Esc? {
        cancelled := true;
        quit := true;
        return;
      }
      if k.Enter? && !loading && |filtered| > 0 && 0 <= index < |filtered| {
        selected := Some(filtered[index]);
        quit := true;
        return;
      }
      var prev := textInput.value;
      textInput := Typed(textInput, k);
      if textInput.value != prev {
        FilterOptions();
      }
    }

    function Outcome(): Result<Option<SelectOption>>
      reads this
    {
      SearchSelectOutcome(State())
    }
  }
}
