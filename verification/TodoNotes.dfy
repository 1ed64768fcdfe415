/** agent/autonomous_worker.py, `_requeue`: a failed item goes back to the end of the file with a
    note. */
module TodoNotes {
  import opened Options
  import opened TodoLines
  import opened TodoQueue

  const MARK := "  # failed: "

  function NotedLine(item: TodoItem, note: string): string {
    Strip(item.raw + MARK + note)
  }

  function DropNewlines(s: string): (r: string)
    ensures r <= s && (r == "" || r[|r| - 1] != '\n') && forall i :: |r| <= i < |s| ==> s[i] == '\n'
  {
    if s != "" && s[|s| - 1] == '\n' then DropNewlines(s[..|s| - 1]) else s
  }

  /** The file after putting the item back. */
  function Requeued(file: Option<string>, item: TodoItem, note: string): string {
    var existing := if file.Some? then DropNewlines(Universal(file.value)) else "";
    if existing != "" then existing + "\n" + NotedLine(item, note) + "\n" else NotedLine(item, note) + "\n"
  }

  function FirstLine(note: string): string {
    note[..FirstBreak(note)]
  }

  function OtherLines(note: string): string {
    var k := FirstBreak(note);
    if k == |note| then "" else note[k + 1..]
  }

  // ---- A note leaves the tag alone ---------------------------------------------------------

  /** A note that closes the bracket of a line that never did makes no tag: the mark is inside. */
  lemma MarkIsNoPriority(s: string)
    requires '#' in s
    ensures !IsPriority(s)
  {
    if s != "" && s[0] != '#' {
      assert s == [s[0]] + s[1..];
      assert '#' in s[1..];
    }
  }

  lemma {:induction false} StripKeepsMark(s: string)
    requires '#' in s
    ensures '#' in Strip(s)
  {
    StripLeftKeepsMark(s);
    StripRightKeepsMark(StripLeft(s));
  }

  lemma {:induction false} StripLeftKeepsMark(s: string)
    requires '#' in s
    ensures '#' in StripLeft(s)
  {
    if IsSpace(s[0]) {
      assert s == [s[0]] + s[1..];
      StripLeftKeepsMark(s[1..]);
    }
  }

  lemma {:induction false} StripRightKeepsMark(s: string)
    requires '#' in s
    ensures '#' in StripRight(s)
  {
    if IsSpace(s[|s| - 1]) {
      assert s == s[..|s| - 1] + [s[|s| - 1]];
      StripRightKeepsMark(s[..|s| - 1]);
    }
  }

  lemma {:induction false} StripLeftExtends(s: string, tail: string)
    requires StripLeft(s) != ""
    ensures StripLeft(s + tail) == StripLeft(s) + tail
  {
    hide IsSpace;
    if IsSpace(s[0]) {
      assert (s + tail)[1..] == s[1..] + tail;
      StripLeftExtends(s[1..], tail);
    }
  }

  lemma StripExtends(s: string, tail: string)
    requires s != "" && !IsSpace(s[|s| - 1])
    ensures Strip(s) <= Strip(s + tail)
  {
    hide IsSpace;
    StripLeftIsNotEmpty(s);
    StripLeftExtends(s, tail);
    StripRightKeeps(StripLeft(s), tail);
  }

  lemma {:induction false} StripLeftIsNotEmpty(s: string)
    requires s != "" && !IsSpace(s[|s| - 1])
    ensures StripLeft(s) != ""
  {
    hide IsSpace;
    if IsSpace(s[0]) {
      StripLeftIsNotEmpty(s[1..]);
    }
  }

  /** A bracket the line never closed may be closed by the note, but then the mark is inside. */
  lemma UnclosedBracket(raw: string, tail: string, k: nat)
    requires raw != "" && ']' !in raw && "  #" <= tail
    requires k < |raw + tail| && (raw + tail)[k] == ']'
    ensures k > 0 && !IsPriority(Strip((raw + tail)[1..k]))
  {
    hide Strip, IsPriority;
    var line := raw + tail;
    assert k >= |raw|;
    var at := |raw| + 2;
    assert line[at] == tail[2] == '#';
    assert k != at && k != at - 1 && k != at - 2;
    assert line[1..k][at - 1] == '#';
    StripKeepsMark(line[1..k]);
    MarkIsNoPriority(Strip(line[1..k]));
  }

  /** The mark behind a stripped line leaves its priority alone and only extends its text. */
  lemma NoteKeepsTag(raw: string, tail: string)
    requires raw != "" && !IsSpace(raw[|raw| - 1]) && "  #" <= tail
    ensures BracketTag(raw + tail).0 == BracketTag(raw).0 && BracketTag(raw).1 <= BracketTag(raw + tail).1
  {
    hide Value, IsPriority, IndexOf, IsSpace, Strip;
    var line := raw + tail;
    if raw[0] == '[' && ']' in line {
      var k := IndexOf(line, ']');
      assert ']' in line[..|line|] by { assert line[..|line|] == line; }
      if k < |raw| {
        hide BracketTag;
        assert raw[..k] == line[..k] && raw[1..k] == line[1..k] && raw[k] == line[k];
        TagAt(line, k);
        TagAt(raw, k);
        assert line[k + 1..] == raw[k + 1..] + tail;
        TaggedTextExtends(raw[k + 1..], tail);
      } else {
        assert raw == line[..k][..|raw|];
        UnclosedBracket(raw, tail, k);
      }
    } else {
      assert forall c <- raw :: c in line;
    }
  }

  lemma TaggedTextExtends(rest: string, tail: string)
    requires rest != "" ==> !IsSpace(rest[|rest| - 1])
    ensures Strip(rest) <= Strip(rest + tail)
  {
    hide IsSpace;
    if rest != "" {
      StripExtends(rest, tail);
    }
  }

  /** A one-line note keeps the item an item, and keeps its priority; its text grows. */
  lemma NotedParses(item: TodoItem, note: string)
    requires WellFormed(item)
    ensures
      var noted := ParseTodoLine(item.raw + MARK + note);
      noted.Some? && noted.value.raw == NotedLine(item, note) && noted.value.priority == item.priority
      && item.text <= noted.value.text
  {
    hide IsSpace, BracketTag, Strip;
    var raw := item.raw;
    var line := Strip(raw + MARK + note);
    StripIsStripped(raw);
    StripIsStripped(raw + MARK + note);
    NotedLineExtends(raw, note);
    var tail := line[|raw|..];
    assert line == raw + tail;
    ShortFormIsRedundant(raw);
    ShortFormIsRedundant(line);
    NoteKeepsTag(raw, tail);
  }

  lemma NotedLineExtends(raw: string, note: string)
    requires raw != "" && !IsSpace(raw[0])
    ensures raw + "  #" <= Strip(raw + MARK + note)
  {
    hide Strip;
    var known := raw + MARK[..11];
    assert known[|known| - 1] == MARK[10] == ':';
    assert raw + MARK + note == known + (MARK[11..] + note);
    StripKeepsPrefix(known, MARK[11..] + note);
    assert MARK[..3] == "  #" && raw + MARK[..3] <= known;
  }

  // ---- The file after putting an item back --------------------------------------------------

  lemma {:induction false} EntriesIgnoreNewlines(s: string)
    ensures Entries(DropNewlines(s)) == Entries(s)
  {
    hide Entries;
    if s != "" && s[|s| - 1] == '\n' {
      EntriesIgnoreNewlines(s[..|s| - 1]);
      EntriesIgnoreRight(s[..|s| - 1], '\n');
      assert s[..|s| - 1] + "\n" == s;
    }
  }

  /** Whatever the note, the queue keeps its items and gains the noted one at the end with its old
      priority - and after it whatever the further lines of the note read as. */
  lemma RequeueAppends(file: Option<string>, item: TodoItem, note: string)
    requires WellFormed(item)
    ensures
      var noted := ParseTodoLine(item.raw + MARK + FirstLine(note));
      && noted.Some? && noted.value.priority == item.priority && item.text <= noted.value.text
      && Entries(Requeued(file, item, note)) == Queue(file) + [noted.value] + Entries(OtherLines(note))
  {
    hide Entries, ParseTodoLine, Strip;
    NotedParses(item, FirstLine(note));
    var line := NotedLine(item, note);
    NotedLineReads(item, note);
    BlankIsNoEntry();
    EntriesJoin(line, '\n', "");
    assert line + "\n" + "" == line + "\n";
    if file.Some? {
      var text := Universal(file.value);
      UniversalIsHarmless(file.value);
      EntriesIgnoreNewlines(text);
      EntriesJoin(DropNewlines(text), '\n', line + "\n");
      assert DropNewlines(text) + "\n" + (line + "\n") == DropNewlines(text) + "\n" + line + "\n";
    }
  }

  lemma NotedLineReads(item: TodoItem, note: string)
    requires WellFormed(item)
    ensures Entries(NotedLine(item, note))
         == Entry(item.raw + MARK + FirstLine(note)) + Entries(OtherLines(note))
  {
    hide Entries, ParseTodoLine, Strip;
    var whole, k := item.raw + MARK + note, FirstBreak(note);
    var head := item.raw + MARK + note[..k];
    EntriesIgnoreStrip(whole);
    assert whole[..|head|] == head;
    assert OneLine(MARK);
    EntriesAt(whole, |head|);
    BlankIsNoEntry();
    if k < |note| {
      assert whole[|head| + 1..] == note[k + 1..];
    }
  }

  lemma OneLineHasNoOthers(note: string)
    requires OneLine(note)
    ensures FirstLine(note) == note && Entries(OtherLines(note)) == []
  {
    hide IsBreak;
    BlankIsNoEntry();
    assert note[..|note|] == note;
    FirstBreakIs(note, |note|);
  }

  /** A failed item comes back as exactly one item iff the note's further lines read as nothing -
      in particular whenever the note has one line. */
  lemma RequeueAddsOneExactlyWhen(file: Option<string>, item: TodoItem, note: string)
    requires WellFormed(item)
    ensures |Entries(Requeued(file, item, note))| == |Queue(file)| + 1 <==> Entries(OtherLines(note)) == []
    ensures OneLine(note) ==> Entries(OtherLines(note)) == []
  {
    hide Entries, ParseTodoLine, OneLine;
    RequeueAppends(file, item, note);
    if OneLine(note) {
      OneLineHasNoOthers(note);
    }
  }
}
