/**
 * The text input box of the terminal UI library, as the screens use it: the
 * text it holds, whether it has the focus, and its character limit. The cursor
 * is not modelled; a typed character goes at the end of the text and the
 * backspace key removes the last one.
 */
module TextBox {
  /** A text input box: what it holds, whether it has the focus, and its character limit (0 for none). */
  datatype TextInput = TextInput(value: string, focused: bool, charLimit: nat)

  /** The keys the screens tell apart. */
  datatype Key = Rune(c: char) | Backspace | Enter | Esc | CtrlC | Up | Down | Tab

  /** The value respects the character limit. */
  predicate Fits(t: TextInput)
  {
    t.charLimit == 0 || |t.value| <= t.charLimit
  }

  /** An empty, unfocused input with the given limit. */
  function NewInput(limit: nat): (t: TextInput)
    ensures Fits(t) && t.value == "" && !t.focused && t.charLimit == limit
  {
    TextInput("", false, limit)
  }

  function Focus(t: TextInput): (r: TextInput)
    ensures r.focused && r.value == t.value && r.charLimit == t.charLimit
  {
    t.(focused := true)
  }

  function Blur(t: TextInput): (r: TextInput)
    ensures !r.focused && r.value == t.value && r.charLimit == t.charLimit
  {
    t.(focused := false)
  }

  /** SetValue: the text, cut at the character limit; the focus is kept. */
  function SetValue(t: TextInput, s: string): (r: TextInput)
    ensures Fits(r) && r.focused == t.focused && r.charLimit == t.charLimit
    ensures r.value <= s
    ensures t.charLimit == 0 || |s| <= t.charLimit ==> r.value == s
  {
    t.(value := if t.charLimit > 0 && |s| > t.charLimit then s[..t.charLimit] else s)
  }

  /** A typed character reaches a focused input with room left, and goes at the end of its text. */
  function Insert(t: TextInput, c: char): (r: TextInput)
    ensures r.focused == t.focused && r.charLimit == t.charLimit
    ensures Fits(t) ==> Fits(r)
    ensures t.focused && (t.charLimit == 0 || |t.value| < t.charLimit) ==> r.value == t.value + [c]
    ensures !(t.focused && (t.charLimit == 0 || |t.value| < t.charLimit)) ==> r == t
  {
    if t.focused && (t.charLimit == 0 || |t.value| < t.charLimit) then t.(value := t.value + [c]) else t
  }

  /** Backspace removes the last character of a focused input; an empty or unfocused one is unchanged. */
  function DeleteLast(t: TextInput): (r: TextInput)
    ensures r.focused == t.focused && r.charLimit == t.charLimit
    ensures t.focused && t.value != "" ==> r.value + [t.value[|t.value| - 1]] == t.value
    ensures !(t.focused && t.value != "") ==> r == t
  {
    if t.focused && t.value != "" then t.(value := t.value[..|t.value| - 1]) else t
  }

  /**
   * The input's own update on a key: characters and backspace edit a focused
   * input, every other key leaves it as it is; an unfocused input ignores
   * everything.
   */
  function Typed(t: TextInput, k: Key): (r: TextInput)
    ensures r.focused == t.focused && r.charLimit == t.charLimit
    ensures Fits(t) ==> Fits(r)
    ensures !t.focused ==> r == t
    ensures !k.Rune? && !k.Backspace? ==> r == t
  {
    match k
    case Rune(c) => Insert(t, c)
    case Backspace => DeleteLast(t)
    case _ => t
  }

  /** Typing a character and deleting it again restores a focused input that had room. */
  lemma InsertThenDelete(t: TextInput, c: char)
    requires t.focused && (t.charLimit == 0 || |t.value| < t.charLimit)
    ensures DeleteLast(Insert(t, c)) == t
  {
    var u := Insert(t, c);
    assert u.value[..|u.value| - 1] == t.value;
  }
}
