/** agent/autonomous_worker.py, `AutonomousWorker`: a priority queue of tasks kept in a text file. */
module TodoQueue {
  import opened Options
  import opened TodoLines

  // ---- Reading ---------------------------------------------------------------------------

  function FirstBreak(s: string): (k: nat)
    ensures k <= |s| && OneLine(s[..k]) && (k < |s| ==> IsBreak(s[k]))
  {
    if s == "" || IsBreak(s[0]) then 0
    else
      var k := FirstBreak(s[1..]) + 1;
      assert s[..k] == [s[0]] + s[1..][..k - 1];
      k
  }

  /** The lines of a text without carriage returns, as `str.splitlines` gives them. */
  function Lines(s: string): seq<string> {
    if s == "" then []
    else
      var k := FirstBreak(s);
      if k == |s| then [s] else [s[..k]] + Lines(s[k + 1..])
  }

  /** What reading a file in text mode makes of carriage returns. */
  function Universal(s: string): string {
    if s == "" then ""
    else if s[0] == '\r' then "\n" + Universal(if |s| > 1 && s[1] == '\n' then s[2..] else s[1..])
    else [s[0]] + Universal(s[1..])
  }

  function Entry(line: string): seq<TodoItem> {
    match ParseTodoLine(line)
    case None => []
    case Some(item) => [item]
  }

  /** The items a text stands for: one line at a time, every line break ending a line. */
  function Entries(s: string): seq<TodoItem> {
    var k := FirstBreak(s);
    Entry(s[..k]) + if k == |s| then [] else Entries(s[k + 1..])
  }

  function Parsed(lines: seq<string>): seq<TodoItem> {
    if lines == [] then [] else Entry(lines[0]) + Parsed(lines[1..])
  }

  function Queue(file: Option<string>): seq<TodoItem> {
    match file
    case None => []
    case Some(content) => Entries(content)
  }

  // ---- How texts and items relate --------------------------------------------------------

  lemma BlankIsNoEntry()
    ensures Entry("") == [] && Entries("") == []
  {
    assert StripLeft("") == "" && StripRight("") == "";
  }

  lemma FirstBreakIs(s: string, k: nat)
    requires k <= |s| && OneLine(s[..k]) && (k < |s| ==> IsBreak(s[k]))
    ensures FirstBreak(s) == k
  {
    hide IsBreak;
  }

  /** The items of a text, given its first line break. */
  lemma EntriesAt(s: string, k: nat)
    requires k <= |s| && OneLine(s[..k]) && (k < |s| ==> IsBreak(s[k]))
    ensures Entries(s) == Entry(s[..k]) + if k == |s| then [] else Entries(s[k + 1..])
  {
    hide IsBreak, ParseTodoLine;
    FirstBreakIs(s, k);
  }

  /** A line break separates: what stands before and after it is read independently. */
  lemma {:induction false} EntriesJoin(a: string, b: char, c: string)
    requires IsBreak(b)
    ensures Entries(a + [b] + c) == Entries(a) + Entries(c)
    decreases |a|
  {
    hide Entry, Entries, IsBreak;
    var s, k := a + [b] + c, FirstBreak(a);
    assert s[..k] == a[..k];
    EntriesAt(s, k);
    EntriesAt(a, k);
    if k == |a| {
      assert s[k + 1..] == c;
    } else {
      assert s[k + 1..] == a[k + 1..] + [b] + c;
      EntriesJoin(a[k + 1..], b, c);
    }
  }

  lemma {:induction false} EntriesOfLine(line: string)
    requires OneLine(line)
    ensures Entries(line) == Entry(line)
  {
    hide Entry, IsBreak, Entries;
    assert line[..|line|] == line;
    EntriesAt(line, |line|);
  }

  /** White space at either end of a text changes no item. */
  lemma {:induction false} EntriesIgnoreLeft(w: char, s: string)
    requires IsSpace(w)
    ensures Entries([w] + s) == Entries(s)
  {
    hide Entry, Entries, IsBreak;
    BlankIsNoEntry();
    if IsBreak(w) {
      EntriesJoin("", w, s);
      assert "" + [w] + s == [w] + s;
    } else {
      var t, k := [w] + s, FirstBreak(s);
      assert t[..k + 1] == [w] + s[..k] && t[k + 1..] == s[k..];
      EntriesAt(s, k);
      EntriesAt(t, k + 1);
      EntryIgnoresLeft(w, s[..k]);
      if k < |s| {
        assert t[k + 1 + 1..] == s[k + 1..];
      }
    }
  }

  lemma EntryIgnoresLeft(w: char, line: string)
    requires IsSpace(w)
    ensures Entry([w] + line) == Entry(line)
  {
    hide IsSpace, Tag, StripRight;
    assert ([w] + line)[1..] == line;
  }

  lemma {:induction false} EntriesIgnoreRight(s: string, w: char)
    requires IsSpace(w)
    ensures Entries(s + [w]) == Entries(s)
    decreases |s|
  {
    hide Entry, Entries, IsBreak;
    BlankIsNoEntry();
    if IsBreak(w) {
      EntriesJoin(s, w, "");
      assert s + [w] + "" == s + [w];
    } else {
      var t, k := s + [w], FirstBreak(s);
      EntriesAt(s, k);
      if k == |s| {
        assert s[..k] == s && t[..|t|] == t;
        EntriesAt(t, |t|);
        EntryIgnoresRight(s, w);
      } else {
        assert t[..k] == s[..k] && t[k + 1..] == s[k + 1..] + [w];
        EntriesAt(t, k);
        EntriesIgnoreRight(s[k + 1..], w);
      }
    }
  }

  lemma EntryIgnoresRight(line: string, w: char)
    requires IsSpace(w)
    ensures Entry(line + [w]) == Entry(line)
  {
    hide IsSpace, Tag;
    StripIgnoresRight(line, w);
  }

  lemma {:induction false} EntriesIgnoreStrip(s: string)
    ensures Entries(Strip(s)) == Entries(s)
  {
    hide Entries, StripLeft, StripRight;
    EntriesIgnoreStripLeft(s);
    EntriesIgnoreStripRight(StripLeft(s));
  }

  lemma {:induction false} EntriesIgnoreStripLeft(s: string)
    ensures Entries(StripLeft(s)) == Entries(s)
  {
    hide Entries, IsSpace;
    if s != "" && IsSpace(s[0]) {
      EntriesIgnoreStripLeft(s[1..]);
      EntriesIgnoreLeft(s[0], s[1..]);
      assert [s[0]] + s[1..] == s;
    }
  }

  lemma {:induction false} EntriesIgnoreStripRight(s: string)
    ensures Entries(StripRight(s)) == Entries(s)
  {
    hide Entries, IsSpace;
    if s != "" && IsSpace(s[|s| - 1]) {
      EntriesIgnoreStripRight(s[..|s| - 1]);
      EntriesIgnoreRight(s[..|s| - 1], s[|s| - 1]);
      assert s[..|s| - 1] + [s[|s| - 1]] == s;
    }
  }

  /** What the first line break of a text becomes, and what is left to translate behind it. */
  lemma BreakBecomes(s: string) returns (b: char, tail: string)
    requires s != "" && IsBreak(s[0])
    ensures IsBreak(b) && |tail| < |s| && Universal(s) == [b] + Universal(tail)
    ensures Entries(tail) == Entries(s[1..])
  {
    hide Entries, Universal;
    UniversalAt(s);
    b := if s[0] == '\r' then '\n' else s[0];
    if s[0] == '\r' && |s| > 1 && s[1] == '\n' {
      tail := s[2..];
      assert s[1..] == [s[1]] + s[2..];
      EntriesIgnoreLeft(s[1], s[2..]);
    } else {
      tail := s[1..];
    }
  }

  /** Translating carriage returns on reading loses and adds no item. */
  lemma {:induction false} UniversalIsHarmless(s: string)
    ensures Entries(Universal(s)) == Entries(s)
    decreases |s|
  {
    hide Entries, Entry, Universal, IsBreak, FirstBreak;
    var k := FirstBreak(s);
    UniversalUpTo(s, k);
    var head, rest := s[..k], s[k..];
    if k == |s| {
      UniversalAt("");
      assert rest == "" && Universal(s) == head == s;
    } else {
      var b, tail := BreakBecomes(rest);
      UniversalIsHarmless(tail);
      EntriesJoin(head, s[k], rest[1..]);
      EntriesJoin(head, b, Universal(tail));
      assert s == head + [s[k]] + rest[1..];
      assert head + Universal(rest) == head + [b] + Universal(tail);
    }
  }

  lemma UniversalAt(s: string)
    ensures s == "" ==> Universal(s) == ""
    ensures s != "" && s[0] != '\r' ==> Universal(s) == [s[0]] + Universal(s[1..])
    ensures |s| > 1 && s[0] == '\r' && s[1] == '\n' ==> Universal(s) == "\n" + Universal(s[2..])
    ensures s != "" && s[0] == '\r' && !(|s| > 1 && s[1] == '\n') ==> Universal(s) == "\n" + Universal(s[1..])
  {
  }

  lemma {:induction false} UniversalUpTo(s: string, k: nat)
    requires k <= |s| && OneLine(s[..k])
    ensures Universal(s) == s[..k] + Universal(s[k..])
  {
    hide Universal;
    if k == 0 {
      assert s[..k] + Universal(s[k..]) == Universal(s) by { assert s[k..] == s && s[..k] == ""; }
    } else {
      assert s[..k] == [s[0]] + s[1..][..k - 1];
      assert s[0] in s[..k];
      assert OneLine(s[1..][..k - 1]) by {
        forall c | c in s[1..][..k - 1] ensures c in s[..k] {}
      }
      UniversalAt(s);
      UniversalUpTo(s[1..], k - 1);
      assert s[1..][k - 1..] == s[k..];
    }
  }

  lemma {:induction false} LinesAreEntries(s: string)
    ensures Parsed(Lines(s)) == Entries(s)
  {
    hide Entry, IsBreak;
    BlankIsNoEntry();
    if s != "" {
      var k := FirstBreak(s);
      if k == |s| {
        assert s[..k] == s && [s][1..] == [];
      } else {
        LinesAreEntries(s[k + 1..]);
        assert Lines(s)[1..] == Lines(s[k + 1..]);
      }
    }
  }

  lemma {:induction false} ParsedSnoc(lines: seq<string>, i: nat)
    requires i < |lines|
    ensures Parsed(lines[..i + 1]) == Parsed(lines[..i]) + Entry(lines[i])
  {
    hide Entry;
    if i == 0 {
      assert lines[..1][1..] == [];
    } else {
      assert lines[..i + 1][1..] == lines[1..][..i] && lines[..i][1..] == lines[1..][..i - 1];
      ParsedSnoc(lines[1..], i - 1);
    }
  }

  predicate AllWellFormed(items: seq<TodoItem>) {
    forall item <- items :: WellFormed(item)
  }

  lemma {:induction false} EntriesAreWellFormed(s: string)
    ensures AllWellFormed(Entries(s))
  {
    hide ParseTodoLine, IsBreak, WellFormed;
    var k := FirstBreak(s);
    if ParseTodoLine(s[..k]).Some? {
      ParsedIsWellFormed(s[..k]);
    }
    if k < |s| {
      EntriesAreWellFormed(s[k + 1..]);
    }
  }

  // ---- Writing ---------------------------------------------------------------------------

  /** The text `_rewrite_queue` stores: the lines of the items. */
  function Text(items: seq<TodoItem>): string {
    if items == [] then "" else items[0].raw + "\n" + Text(items[1..])
  }

  /** Rewriting the queue and reading it back is the identity. */
  lemma {:induction false} RewriteThenRead(items: seq<TodoItem>)
    requires AllWellFormed(items)
    ensures Entries(Text(items)) == items
  {
    hide ParseTodoLine, Entries;
    BlankIsNoEntry();
    if items != [] {
      assert WellFormed(items[0]);
      RewriteThenRead(items[1..]);
      EntriesJoin(items[0].raw, '\n', Text(items[1..]));
      EntriesOfLine(items[0].raw);
      assert [items[0]] + items[1..] == items;
    }
  }

  function Without(items: seq<TodoItem>, raw: string): (rest: seq<TodoItem>)
    ensures forall x :: x in rest <==> x in items && x.raw != raw
    ensures |rest| <= |items|
    ensures (exists x :: x in items && x.raw == raw) ==> |rest| < |items|
  {
    if items == [] then []
    else if items[0].raw == raw then Without(items[1..], raw)
    else [items[0]] + Without(items[1..], raw)
  }

  /** Items are left out one by one, every other stays as often and in the order it stood. */
  lemma WithoutCons(item: TodoItem, rest: seq<TodoItem>, raw: string)
    ensures Without([item] + rest, raw) == if item.raw == raw then Without(rest, raw) else [item] + Without(rest, raw)
    ensures Without([], raw) == []
  {
    assert ([item] + rest)[1..] == rest;
  }

  /** The position of the item to claim: the best priority, and of those the first. */
  function BestIndex(items: seq<TodoItem>): (k: nat)
    requires items != []
    ensures k < |items|
    ensures forall j :: 0 <= j < k ==> items[k].priority < items[j].priority
    ensures forall j :: k <= j < |items| ==> items[k].priority <= items[j].priority
  {
    if |items| == 1 then 0
    else
      var k := BestIndex(items[1..]);
      assert forall j :: 1 <= j < |items| ==> items[j] == items[1..][j - 1];
      if items[0].priority <= items[k + 1].priority then 0 else k + 1
  }

  function Best(items: seq<TodoItem>): TodoItem
    requires items != []
  {
    items[BestIndex(items)]
  }
}
