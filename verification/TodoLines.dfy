/** agent/autonomous_worker.py, `parse_todo_line`: one line of an agent's TODO file.

    Strings are sequences of code points. Whitespace and line breaks are those of Python's
    `str.strip` and `str.splitlines`; digits are the ASCII ones. */
module TodoLines {
  import opened Options

  /** Line breaks of `str.splitlines`. */
  predicate IsBreak(c: char) {
    '\n' <= c <= '\r' || '\U{1C}' <= c <= '\U{1E}' || c == '\U{85}' || c == '\U{2028}' || c == '\U{2029}'
  }

  /** White space of `str.strip`; every line break is white space. */
  predicate IsSpace(c: char) {
    || IsBreak(c) || c == '\t' || c == '\U{1F}' || c == ' ' || c == '\U{A0}' || c == '\U{1680}'
    || '\U{2000}' <= c <= '\U{200A}' || c == '\U{202F}' || c == '\U{205F}' || c == '\U{3000}'
  }

  predicate OneLine(s: string) {
    forall c <- s :: !IsBreak(c)
  }

  // ---- Stripping -------------------------------------------------------------------------

  function StripLeft(s: string): (r: string)
    ensures |r| <= |s| && r == s[|s| - |r|..] && (r == "" || !IsSpace(r[0]))
  {
    if s != "" && IsSpace(s[0]) then StripLeft(s[1..]) else s
  }

  function StripRight(s: string): (r: string)
    ensures r <= s && (r == "" || !IsSpace(r[|r| - 1]))
  {
    if s != "" && IsSpace(s[|s| - 1]) then StripRight(s[..|s| - 1]) else s
  }

  function Strip(s: string): string {
    StripRight(StripLeft(s))
  }

  /** What is left after stripping is stripped, and comes from the string. */
  lemma StripIsStripped(s: string)
    ensures Strip(Strip(s)) == Strip(s)
    ensures Strip(s) != "" ==> !IsSpace(Strip(s)[0]) && !IsSpace(Strip(s)[|Strip(s)| - 1])
    ensures OneLine(s) ==> OneLine(Strip(s))
  {
    hide IsBreak, IsSpace;
    var u, t := StripLeft(s), Strip(s);
    if t != "" {
      assert t[0] == u[0];
      assert StripLeft(t) == t && StripRight(t) == t;
    }
    assert forall c <- t :: c in u;
    assert forall c <- u :: c in s;
  }

  lemma {:induction false} StripIgnoresRight(s: string, w: char)
    requires IsSpace(w)
    ensures Strip(s + [w]) == Strip(s)
  {
    hide IsSpace;
    StripLeftSnoc(s, w);
    if StripLeft(s) != "" {
      assert (StripLeft(s) + [w])[..|StripLeft(s)|] == StripLeft(s);
    }
  }

  lemma {:induction false} StripLeftSnoc(s: string, w: char)
    requires IsSpace(w)
    ensures StripLeft(s + [w]) == if StripLeft(s) == "" then "" else StripLeft(s) + [w]
  {
    hide IsSpace;
    if s == "" {
      assert s + [w] == [w] && [w][1..] == "";
    } else if IsSpace(s[0]) {
      assert (s + [w])[1..] == s[1..] + [w];
      StripLeftSnoc(s[1..], w);
    }
  }

  /** A string that starts black is kept by stripping a longer one, up to any black character. */
  lemma {:induction false} StripKeepsPrefix(s: string, tail: string)
    requires s != "" && !IsSpace(s[0]) && !IsSpace(s[|s| - 1])
    ensures s <= Strip(s + tail) <= s + tail
  {
    assert StripLeft(s + tail) == s + tail;
    StripRightKeeps(s, tail);
  }

  lemma {:induction false} StripRightKeeps(s: string, tail: string)
    requires s != "" && !IsSpace(s[|s| - 1])
    ensures s <= StripRight(s + tail)
  {
    if tail == "" {
      assert s + tail == s;
    } else if IsSpace(tail[|tail| - 1]) {
      assert (s + tail)[..|s + tail| - 1] == s + tail[..|tail| - 1];
      StripRightKeeps(s, tail[..|tail| - 1]);
    }
  }

  // ---- Parsing ---------------------------------------------------------------------------

  const NO_PRIORITY: nat := 99

  datatype TodoItem = TodoItem(raw: string, priority: nat, text: string)

  predicate IsDigit(c: char) {
    '0' <= c <= '9'
  }

  function DigitValue(c: char): nat
    requires IsDigit(c)
  {
    c as int - '0' as int
  }

  function Value(digits: string): nat
    requires forall c <- digits :: IsDigit(c)
  {
    if digits == "" then 0 else 10 * Value(digits[..|digits| - 1]) + DigitValue(digits[|digits| - 1])
  }

  function IndexOf(s: string, c: char): (k: nat)
    ensures k <= |s| && c !in s[..k] && (k < |s| ==> s[k] == c)
  {
    if s == "" || s[0] == c then 0
    else
      var k := IndexOf(s[1..], c) + 1;
      assert s[..k] == [s[0]] + s[1..][..k - 1];
      k
  }

  /** What stands between the brackets is a priority: a letter P and a number. */
  predicate IsPriority(inner: string) {
    inner != "" && inner[0] in "Pp" && inner[1..] != "" && forall c <- inner[1..] :: IsDigit(c)
  }

  /** Priority and text of a line that starts with any bracketed tag. */
  function BracketTag(s: string): (nat, string) {
    if s != "" && s[0] == '[' && ']' in s then
      var k := IndexOf(s, ']');
      assert s == s[..k] + s[k..];
      var inner := Strip(s[1..k]);
      if IsPriority(inner) then (Value(inner[1..]), Strip(s[k + 1..])) else (NO_PRIORITY, s)
    else (NO_PRIORITY, s)
  }

  /** A line that starts with `[P1]`, `[P2]` or `[P3]`. */
  predicate IsShortForm(s: string) {
    |s| > 3 && s[0] == '[' && s[1] == 'P' && '1' <= s[2] <= '3' && s[3] == ']'
  }

  /** Priority and text: the short form `[P1]` to `[P3]` first, then the general one. */
  function Tag(s: string): (nat, string) {
    if IsShortForm(s) then (DigitValue(s[2]), Strip(s[4..])) else BracketTag(s)
  }

  function ParseTodoLine(line: string): Option<TodoItem> {
    var stripped := Strip(line);
    if stripped == "" || stripped[0] == '#' then None
    else
      var (priority, text) := Tag(stripped);
      if text == "" then None else Some(TodoItem(stripped, priority, text))
  }

  /** The short form is a special case of the general one. */
  lemma {:induction false} ShortFormIsRedundant(s: string)
    ensures Tag(s) == BracketTag(s)
  {
    if IsShortForm(s) {
      hide Strip, Value;
      ShortFormBracket(s);
      SingleDigit(s[2]);
      assert s[1..3][1..] == [s[2]];
    }
  }

  lemma IndexIs(s: string, c: char, k: nat)
    requires k < |s| && c !in s[..k] && s[k] == c
    ensures IndexOf(s, c) == k
  {
    hide IndexOf;
  }

  /** The tag of a line whose first closing bracket is known. */
  lemma TagAt(s: string, k: nat)
    requires s != "" && s[0] == '[' && 0 < k < |s| && s[k] == ']' && ']' !in s[..k]
    ensures IsPriority(Strip(s[1..k])) ==> BracketTag(s) == (Value(Strip(s[1..k])[1..]), Strip(s[k + 1..]))
    ensures !IsPriority(Strip(s[1..k])) ==> BracketTag(s) == (NO_PRIORITY, s)
  {
    hide Value, IsPriority, IndexOf, Strip;
    IndexIs(s, ']', k);
  }

  lemma ShortFormBracket(s: string)
    requires IsShortForm(s)
    ensures IndexOf(s, ']') == 3 && Strip(s[1..3]) == s[1..3] && IsPriority(s[1..3])
  {
    IndexIs(s, ']', 3);
    var inner := s[1..3];
    assert inner == [s[1], s[2]] && !IsSpace(s[1]) && !IsSpace(s[2]);
    assert StripLeft(inner) == inner && StripRight(inner) == inner;
    assert inner[1..] == [s[2]];
  }

  lemma SingleDigit(c: char)
    requires IsDigit(c)
    ensures Value([c]) == DigitValue(c)
  {
    assert [c][..0] == "";
  }

  /** An item that stands for its own line. */
  predicate WellFormed(item: TodoItem) {
    OneLine(item.raw) && ParseTodoLine(item.raw) == Some(item)
  }

  lemma ParsedIsWellFormed(line: string)
    requires OneLine(line) && ParseTodoLine(line).Some?
    ensures WellFormed(ParseTodoLine(line).value)
  {
    StripIsStripped(line);
  }
}
