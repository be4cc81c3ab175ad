/** The shared search bar: a text input whose Enter key starts a search when
    the value is not blank, and a button that starts one unless the caller
    disables it. The two paths are guarded independently. */
module SearchBar {

  /** Characters removed by `String.prototype.trim`: the ECMAScript
      WhiteSpace and LineTerminator code points. */
  predicate IsWhitespace(c: char)
  {
    || c == '\t' || c == '\n' || c == '\U{000B}' || c == '\U{000C}' || c == '\r'
    || c == ' ' || c == '\U{00A0}' || c == '\U{1680}'
    || ('\U{2000}' <= c <= '\U{200A}')
    || c == '\U{2028}' || c == '\U{2029}' || c == '\U{202F}' || c == '\U{205F}'
    || c == '\U{3000}' || c == '\U{FEFF}'
  }

  /** Independent reading of "not blank": some character is not whitespace. */
  predicate HasVisibleChar(s: string)
  {
    exists i :: 0 <= i < |s| && !IsWhitespace(s[i])
  }

  /** `s` without its leading whitespace: a suffix of `s` that is empty or
      starts with a visible character. */
  function TrimStart(s: string): (r: string)
    ensures |r| <= |s| && r == s[|s| - |r|..]
    ensures r != [] ==> !IsWhitespace(r[0])
    ensures forall i :: 0 <= i < |s| - |r| ==> IsWhitespace(s[i])
  {
    if |s| > 0 && IsWhitespace(s[0]) then TrimStart(s[1..]) else s
  }

  /** `s` without its trailing whitespace: a prefix of `s` that is empty or
      ends with a visible character. */
  function TrimEnd(s: string): (r: string)
    ensures |r| <= |s| && r == s[..|r|]
    ensures r != [] ==> !IsWhitespace(r[|r| - 1])
    ensures forall i :: |r| <= i < |s| ==> IsWhitespace(s[i])
  {
    if |s| > 0 && IsWhitespace(s[|s| - 1]) then TrimEnd(s[..|s| - 1]) else s
  }

  /** `s.trim()`. */
  function Trim(s: string): string
  {
    TrimEnd(TrimStart(s))
  }

  /** `value.trim() !== ''` holds exactly when the value has a character
      that is not whitespace. */
  lemma TrimNonEmptyIffVisible(s: string)
    ensures Trim(s) != [] <==> HasVisibleChar(s)
  {
  }

  /** What the user does to the bar. */
  datatype Input = KeyDown(key: string) | ButtonClick

  /** Whether `onSearch` is called: `handleKeyDown` fires on Enter with a
      non-blank value; the button fires unless `disabled`. */
  function Triggers(input: Input, value: string, disabled: bool): (r: bool)
    ensures input.KeyDown? ==> (r <==> input.key == "Enter" && HasVisibleChar(value))
    ensures input.ButtonClick? ==> (r <==> !disabled)
  {
    TrimNonEmptyIffVisible(value);
    match input
    case KeyDown(key) => key == "Enter" && Trim(value) != ""
    case ButtonClick => !disabled
  }

  /** The `disabled` prop is consulted only by the button: the Enter path
      gives the same answer either way, so Enter can start a search while
      the button is disabled. */
  lemma EnterIgnoresDisabled(key: string, value: string)
    ensures Triggers(KeyDown(key), value, true) == Triggers(KeyDown(key), value, false)
    ensures Triggers(KeyDown("Enter"), "pasta", true)
    ensures !Triggers(ButtonClick, "pasta", true)
  {
  }

  /** No key other than Enter ever starts a search. */
  lemma OtherKeysNeverTrigger(key: string, value: string, disabled: bool)
    requires key != "Enter"
    ensures !Triggers(KeyDown(key), value, disabled)
  {
  }

  /** `onChange(e.target.value)`: the raw value reaches the caller untouched. */
  function OnChange(raw: string): (forwarded: string)
    ensures |forwarded| == |raw|
    ensures forall i :: 0 <= i < |raw| ==> forwarded[i] == raw[i]
  {
    raw
  }
}
