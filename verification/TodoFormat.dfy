/** agent/autonomous_worker.py, `parse_todo_line`: the format of a TODO line, told by its parts. */
module TodoFormat {
  import opened Options
  import opened TodoLines
  import Ids = ToolCallIds

  /** A tag that names a priority, blanks around it aside. */
  predicate NamesPriority(inner: string, digits: string) {
    && (Strip(inner) == "P" + digits || Strip(inner) == "p" + digits)
    && digits != "" && forall c <- digits :: '0' <= c <= '9'
  }

  lemma {:induction false} LeftIsBlank(s: string, i: nat)
    requires i < |s| - |StripLeft(s)|
    ensures IsSpace(s[i])
  {
    hide IsSpace;
    if i > 0 {
      LeftIsBlank(s[1..], i - 1);
    }
  }

  lemma {:induction false} RightIsBlank(s: string, i: nat)
    requires |StripRight(s)| <= i < |s|
    ensures IsSpace(s[i])
  {
    hide IsSpace;
    if i < |s| - 1 {
      RightIsBlank(s[..|s| - 1], i);
    }
  }

  /** How much white space a string starts with. */
  function Lead(s: string): nat { |s| - |StripLeft(s)| }

  /** Stripping takes white space off both ends and nothing else. */
  lemma StripIsSlice(s: string, i: nat)
    ensures
      var a, b := Lead(s), Lead(s) + |Strip(s)|;
      && b <= |s| && Strip(s) == s[a..b]
      && (i < a || b <= i < |s| ==> IsSpace(s[i]))
  {
    hide IsSpace, StripLeft, StripRight;
    var u := StripLeft(s);
    var a, b := |s| - |u|, |s| - |u| + |Strip(s)|;
    if i < a {
      LeftIsBlank(s, i);
    } else if b <= i < |s| {
      RightIsBlank(u, i - a);
      assert s[i] == u[i - a];
    }
    assert u[..|Strip(s)|] == s[a..][..|Strip(s)|] == s[a..b];
  }

  /** A blank line and a comment are no items. */
  lemma CommentsAreNoItems(line: string)
    requires Strip(line) == "" || Strip(line)[0] == '#'
    ensures ParseTodoLine(line) == None
  {
  }

  /** A line without a closed bracket in front is an item of the lowest priority, whole. */
  lemma UntaggedReads(line: string)
    requires Strip(line) != "" && Strip(line)[0] != '#' && (Strip(line)[0] != '[' || ']' !in Strip(line))
    ensures ParseTodoLine(line) == Some(TodoItem(Strip(line), 99, Strip(line)))
  {
    hide Strip;
  }

  lemma PriorityExactlyWhen(inner: string, digits: string)
    ensures NamesPriority(inner, digits) ==> IsPriority(Strip(inner)) && Strip(inner)[1..] == digits
    ensures IsPriority(Strip(inner)) ==> exists d :: NamesPriority(inner, d)
  {
    hide Strip;
    var tag := Strip(inner);
    if IsPriority(tag) {
      assert tag == [tag[0]] + tag[1..];
      assert NamesPriority(inner, tag[1..]);
    }
  }

  lemma BracketReads(line: string)
    requires Strip(line) != "" && Strip(line)[0] == '['
    ensures
      var (priority, text) := BracketTag(Strip(line));
      ParseTodoLine(line) == if text == "" then None else Some(TodoItem(Strip(line), priority, text))
  {
    hide Strip, BracketTag, Tag;
    ShortFormIsRedundant(Strip(line));
  }

  lemma Parts(inner: string, rest: string)
    requires ']' !in inner
    ensures
      var s, k := "[" + inner + "]" + rest, |inner| + 1;
      && s[0] == '[' && s[k] == ']' && ']' !in s[..k] && s[1..k] == inner && s[k + 1..] == rest
  {
    var s, k := "[" + inner + "]" + rest, |inner| + 1;
    assert s[..k] == "[" + inner;
  }

  /** A line with a tag in front: when the tag names a priority, the item has it and the text behind the
      tag, and there is none without text; under any other tag the whole line is one of the lowest. */
  lemma TaggedReads(line: string, inner: string, rest: string, digits: string)
    requires Strip(line) == "[" + inner + "]" + rest && ']' !in inner
    ensures NamesPriority(inner, digits) ==>
              ParseTodoLine(line)
              == if Strip(rest) == "" then None else Some(TodoItem(Strip(line), Value(digits), Strip(rest)))
    ensures (forall d :: !NamesPriority(inner, d)) ==>
              ParseTodoLine(line) == Some(TodoItem(Strip(line), 99, Strip(line)))
  {
    PriorityExactlyWhen(inner, digits);
    hide Strip, StripLeft, StripRight, Value, IsPriority, NamesPriority, ParseTodoLine, BracketTag, IndexOf;
    Parts(inner, rest);
    TagAt(Strip(line), |inner| + 1);
    BracketReads(line);
  }

  lemma {:induction false} DecimalReads(n: nat)
    ensures (forall c <- Ids.Decimal(n) :: '0' <= c <= '9') && Value(Ids.Decimal(n)) == n
  {
    var s := Ids.Decimal(n);
    if n < 10 {
      assert s[..0] == "";
    } else {
      DecimalReads(n / 10);
      assert s[..|s| - 1] == Ids.Decimal(n / 10);
    }
  }

  lemma StrippedIs(a: string, b: string)
    requires a != "" && b != "" && !IsSpace(a[0]) && !IsSpace(b[|b| - 1])
    ensures Strip(a + b) == a + b
  {
    hide IsSpace;
    var s := a + b;
    assert s[0] == a[0] && s[|s| - 1] == b[|b| - 1];
  }

  lemma {:induction false} BlankInFront(s: string)
    ensures Strip(" " + s) == Strip(s)
  {
    assert (" " + s)[1..] == s;
  }

  lemma DigitIsBlack(c: char)
    ensures '0' <= c <= '9' ==> !IsSpace(c)
    ensures !IsSpace('[') && !IsSpace('P')
  {
  }

  lemma DigitsName(digits: string)
    requires digits != "" && forall c <- digits :: '0' <= c <= '9'
    ensures NamesPriority("P" + digits, digits) && ']' !in "P" + digits
  {
    hide Strip, IsSpace;
    assert digits[|digits| - 1] in digits;
    DigitIsBlack(digits[|digits| - 1]);
    StrippedIs("P", digits);
  }

  /** Round trip: a task written with its priority in decimal reads back as that priority and text. */
  lemma WrittenTaskReads(n: nat, text: string)
    requires text != "" && Strip(text) == text
    ensures
      var line := "[" + ("P" + Ids.Decimal(n)) + "]" + (" " + text);
      ParseTodoLine(line) == Some(TodoItem(line, n, text))
  {
    var digits := Ids.Decimal(n);
    DecimalReads(n);
    DigitsName(digits);
    BlankInFront(text);
    StripIsStripped(text);
    DigitIsBlack('0');
    hide *;
    var head, rest := "[" + ("P" + digits) + "]", " " + text;
    assert head[0] == '[' && rest[|rest| - 1] == text[|text| - 1];
    StrippedIs(head, rest);
    TaggedReads(head + rest, "P" + digits, rest, digits);
  }
}
