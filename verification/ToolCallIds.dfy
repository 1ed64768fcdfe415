/** agent/agent_loop.py: the ids the loop mints for tool calls, and why no two of them are equal. */
module ToolCallIds {

  function Digit(d: nat): char
    requires d < 10
  {
    "0123456789"[d]
  }

  /** Decimal notation, as Python formats an integer. */
  function Decimal(n: nat): (s: string)
    ensures s != []
  {
    if n < 10 then [Digit(n)] else Decimal(n / 10) + [Digit(n % 10)]
  }

  predicate IsDigit(c: char) { '0' <= c <= '9' }

  function Value(s: string): nat {
    if s == [] then 0
    else Value(s[..|s| - 1]) * 10
         + if IsDigit(s[|s| - 1]) then (s[|s| - 1] as int - '0' as int) else 0
  }

  lemma {:induction false} DecimalRoundTrip(n: nat)
    ensures Value(Decimal(n)) == n
    ensures forall i :: 0 <= i < |Decimal(n)| ==> IsDigit(Decimal(n)[i])
  {
    var s := Decimal(n);
    if n < 10 {
      assert s[..0] == [];
      assert Value(s) == s[0] as int - '0' as int;
    } else {
      DecimalRoundTrip(n / 10);
      assert s[..|s| - 1] == Decimal(n / 10);
    }
  }

  /** `call_agent_<tag>_<turn>_<index>` */
  function Mint(tag: string, turn: nat, index: nat): string {
    "call_agent_" + tag + "_" + Decimal(turn) + "_" + Decimal(index)
  }

  lemma SplitAtUnderscore(a: string, b: string, c: string, d: string)
    requires a + "_" + b == c + "_" + d
    requires forall i :: 0 <= i < |a| ==> IsDigit(a[i])
    requires forall i :: 0 <= i < |c| ==> IsDigit(c[i])
    ensures a == c && b == d
  {
    var s := a + "_" + b;
    assert s[|a|] == '_' && (c + "_" + d)[|c|] == '_';
    assert forall i :: 0 <= i < |a| ==> s[i] == a[i];
    assert forall i :: 0 <= i < |c| ==> s[i] == c[i];
    assert |a| == |c|;
    assert a == s[..|a|] == c;
    assert b == s[|a| + 1..] == d;
  }

  /** Within one run an id determines the turn and the position it was minted for. */
  lemma MintIsInjective(tag: string, turn: nat, index: nat, turn': nat, index': nat)
    requires Mint(tag, turn, index) == Mint(tag, turn', index')
    ensures turn == turn' && index == index'
  {
    var head := "call_agent_" + tag + "_";
    var x, y := Mint(tag, turn, index), Mint(tag, turn', index');
    assert x[|head|..] == Decimal(turn) + "_" + Decimal(index);
    assert y[|head|..] == Decimal(turn') + "_" + Decimal(index');
    DecimalRoundTrip(turn);
    DecimalRoundTrip(turn');
    DecimalRoundTrip(index);
    DecimalRoundTrip(index');
    SplitAtUnderscore(Decimal(turn), Decimal(index), Decimal(turn'), Decimal(index'));
  }
}
