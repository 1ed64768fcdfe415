/** lan_discovery.py, `_RateLimiter`: a minimal interval per address that forgets everything when
    its table is full. */
module LanRateLimiter {

  const MAX_TRACKED: nat := 256
  const RATE_LIMIT_SECONDS: real := 0.5

  type Table = map<string, real>

  datatype Step = Step(key: string, time: real, allowed: bool, cleared: bool)

  function Answer(table: Table, key: string, now: real): (Step, Table) {
    if key in table && now - table[key] < RATE_LIMIT_SECONDS then (Step(key, now, false, false), table)
    else if key !in table && |table| >= MAX_TRACKED then (Step(key, now, true, true), map[key := now])
    else (Step(key, now, true, false), table[key := now])
  }

  // ---- Runs ----------------------------------------------------------------------------

  datatype Query = Query(key: string, time: real)

  predicate Forward(queries: seq<Query>) {
    forall i, j :: 0 <= i < j < |queries| ==> queries[i].time <= queries[j].time
  }

  function TableAfter(queries: seq<Query>): Table {
    if queries == [] then map[]
    else Answer(TableAfter(queries[..|queries| - 1]), queries[|queries| - 1].key, queries[|queries| - 1].time).1
  }

  /** The answer to query `i` of a run. */
  function StepAt(queries: seq<Query>, i: nat): Step
    requires i < |queries|
  {
    Answer(TableAfter(queries[..i]), queries[i].key, queries[i].time).0
  }

  lemma {:induction false} TableSnoc(queries: seq<Query>, i: nat)
    requires i < |queries|
    ensures TableAfter(queries[..i + 1]) == Answer(TableAfter(queries[..i]), queries[i].key, queries[i].time).1
  {
    assert queries[..i + 1][..i] == queries[..i];
  }

  class RateLimiter {
    var last: Table
    ghost var history: seq<Query>

    ghost predicate Valid()
      reads this
    {
      last == TableAfter(history)
    }

    constructor ()
      ensures Valid() && history == []
    {
      last := map[];
      history := [];
    }

    /** Each call is the next step of the run. */
    method Allow(key: string, now: real) returns (allowed: bool)
      requires Valid()
      modifies this
      ensures Valid() && history == old(history) + [Query(key, now)]
      ensures allowed == StepAt(history, |history| - 1).allowed
      ensures !allowed ==> last == old(last)
    {
      ghost var past := history;
      history := history + [Query(key, now)];
      assert history[..|past|] == past;
      if key in last && now - last[key] < RATE_LIMIT_SECONDS {
        return false;
      }
      if key !in last && |last| >= MAX_TRACKED {
        last := map[];
      }
      last := last[key := now];
      allowed := true;
    }
  }

  /** The table never outgrows its bound. */
  lemma {:induction false} TableIsBounded(queries: seq<Query>)
    ensures |TableAfter(queries)| <= MAX_TRACKED
  {
    if queries != [] {
      var last := |queries| - 1;
      TableIsBounded(queries[..last]);
      var t, k := TableAfter(queries[..last]), queries[last].key;
      assert t[k := queries[last].time].Keys == t.Keys + {k};
      assert |t.Keys + {k}| <= |t.Keys| + 1;
    }
  }

  /** While nothing is cleared, the table remembers when a key was last allowed. */
  lemma {:induction false} Remembered(queries: seq<Query>, i: nat, j: nat)
    requires i < j <= |queries| && StepAt(queries, i).allowed
    requires forall m :: i < m < j ==> !StepAt(queries, m).cleared
    requires forall m :: i < m < j && queries[m].key == queries[i].key ==> !StepAt(queries, m).allowed
    ensures queries[i].key in TableAfter(queries[..j])
    ensures TableAfter(queries[..j])[queries[i].key] == queries[i].time
    decreases j
  {
    TableSnoc(queries, j - 1);
    if j == i + 1 {
      assert StepAt(queries, i) == Answer(TableAfter(queries[..i]), queries[i].key, queries[i].time).0;
    } else {
      Remembered(queries, i, j - 1);
      assert !StepAt(queries, j - 1).cleared;
    }
  }

  /** Query `i` was the last one allowed for the key before query `j`, and nothing was cleared since. */
  ghost predicate Remembers(queries: seq<Query>, key: string, i: nat, j: nat)
    requires i < j <= |queries|
  {
    && queries[i].key == key && StepAt(queries, i).allowed
    && forall m :: i < m < j ==>
         !StepAt(queries, m).cleared && (queries[m].key == key ==> !StepAt(queries, m).allowed)
  }

  /** The table holds exactly the keys allowed since the last clear, each with the time it was last
      allowed. */
  lemma {:induction false} TableHolds(queries: seq<Query>, key: string, j: nat)
    requires j <= |queries|
    ensures key in TableAfter(queries[..j]) <==> exists i :: 0 <= i < j && Remembers(queries, key, i, j)
    ensures forall i :: 0 <= i < j && Remembers(queries, key, i, j) ==>
                          key in TableAfter(queries[..j]) && TableAfter(queries[..j])[key] == queries[i].time
  {
    forall i | 0 <= i < j && Remembers(queries, key, i, j)
      ensures key in TableAfter(queries[..j]) && TableAfter(queries[..j])[key] == queries[i].time
    {
      Remembered(queries, i, j);
    }
    if key in TableAfter(queries[..j]) {
      var i := RememberedSince(queries, key, j);
    }
  }

  lemma KeyStays(queries: seq<Query>, key: string, j: nat)
    requires j <= |queries| && key in TableAfter(queries[..j])
    ensures j > 0
    ensures (queries[j - 1].key == key && StepAt(queries, j - 1).allowed)
            || (!StepAt(queries, j - 1).cleared && key in TableAfter(queries[..j - 1]))
    ensures queries[j - 1].key == key ==>
              StepAt(queries, j - 1).allowed || key in TableAfter(queries[..j - 1])
  {
    if j > 0 {
      TableSnoc(queries, j - 1);
    }
  }

  lemma {:induction false} RememberedSince(queries: seq<Query>, key: string, j: nat) returns (i: nat)
    requires j <= |queries| && key in TableAfter(queries[..j])
    ensures i < j && Remembers(queries, key, i, j)
    decreases j
  {
    hide Answer, StepAt, TableAfter;
    KeyStays(queries, key, j);
    if StepAt(queries, j - 1).allowed && queries[j - 1].key == key {
      i := j - 1;
    } else {
      i := RememberedSince(queries, key, j - 1);
    }
  }

  /** A query is refused exactly when its key was allowed less than the interval ago and nothing was
      cleared since; otherwise it is allowed. */
  lemma {:induction false} RefusedExactlyWhen(queries: seq<Query>, j: nat)
    requires j < |queries|
    ensures !StepAt(queries, j).allowed <==>
            exists i :: && 0 <= i < j && Remembers(queries, queries[j].key, i, j)
                        && queries[j].time - queries[i].time < 0.5
  {
    hide Remembers;
    TableHolds(queries, queries[j].key, j);
  }

  /** The table is cleared exactly when a key it does not hold is asked for while it holds 256 others. */
  lemma {:induction false} ClearedExactlyWhen(queries: seq<Query>, j: nat, held: set<string>)
    requires j < |queries|
    requires forall key :: key in held <==> exists i :: 0 <= i < j && Remembers(queries, key, i, j)
    ensures StepAt(queries, j).cleared <==> queries[j].key !in held && |held| == 256
  {
    hide Remembers;
    var table := TableAfter(queries[..j]);
    forall key ensures key in table.Keys <==> key in held {
      TableHolds(queries, key, j);
    }
    assert table.Keys == held;
    TableIsBounded(queries[..j]);
  }

  /** Two successive allows of one key are at least the interval apart, or something was cleared in
      between. */
  lemma {:induction false} SuccessiveAllowsAreSpaced(queries: seq<Query>, i: nat, j: nat)
    requires i < j < |queries| && queries[i].key == queries[j].key
    requires StepAt(queries, i).allowed && StepAt(queries, j).allowed
    requires forall m :: i < m < j && queries[m].key == queries[i].key ==> !StepAt(queries, m).allowed
    ensures queries[j].time - queries[i].time >= RATE_LIMIT_SECONDS
            || exists m :: i < m < j && StepAt(queries, m).cleared
  {
    if forall m :: i < m < j ==> !StepAt(queries, m).cleared {
      Remembered(queries, i, j);
    }
  }

  // ---- Counting ------------------------------------------------------------------------

  /** Allows of a key among the queries from `lo` up to `hi`. */
  function Allows(queries: seq<Query>, key: string, lo: nat, hi: nat): nat
    requires lo <= hi <= |queries|
    decreases hi - lo
  {
    if lo == hi then 0
    else Allows(queries, key, lo, hi - 1)
         + if queries[hi - 1].key == key && StepAt(queries, hi - 1).allowed then 1 else 0
  }

  function Clears(queries: seq<Query>, lo: nat, hi: nat): nat
    requires lo <= hi <= |queries|
    decreases hi - lo
  {
    if lo == hi then 0
    else Clears(queries, lo, hi - 1) + if StepAt(queries, hi - 1).cleared then 1 else 0
  }

  lemma {:induction false} ClearsSplit(queries: seq<Query>, lo: nat, mid: nat, hi: nat)
    requires lo <= mid <= hi <= |queries|
    ensures Clears(queries, lo, hi) == Clears(queries, lo, mid) + Clears(queries, mid, hi)
    decreases hi - mid
  {
    if mid < hi {
      ClearsSplit(queries, lo, mid, hi - 1);
    }
  }

  lemma {:induction false} ClearCounts(queries: seq<Query>, lo: nat, hi: nat, m: nat)
    requires lo <= m < hi <= |queries| && StepAt(queries, m).cleared
    ensures Clears(queries, lo, hi) >= 1
    decreases hi - lo
  {
    if m < hi - 1 {
      ClearCounts(queries, lo, hi - 1, m);
    }
  }

  /** The position of the last allow of a key, if there is one. */
  function LastAllow(queries: seq<Query>, key: string, lo: nat, hi: nat): (p: nat)
    requires lo <= hi <= |queries| && Allows(queries, key, lo, hi) > 0
    ensures lo <= p < hi && queries[p].key == key && StepAt(queries, p).allowed
    ensures forall m :: p < m < hi && queries[m].key == key ==> !StepAt(queries, m).allowed
    decreases hi - lo
  {
    if queries[hi - 1].key == key && StepAt(queries, hi - 1).allowed then hi - 1
    else LastAllow(queries, key, lo, hi - 1)
  }

  /** When times never go back, any two allows of one key closer than the interval have a clear
      strictly between them. */
  lemma {:induction false} AllowsAreSpaced(queries: seq<Query>, i: nat, j: nat)
    requires Forward(queries) && i < j < |queries| && queries[i].key == queries[j].key
    requires StepAt(queries, i).allowed && StepAt(queries, j).allowed
    requires queries[j].time - queries[i].time < RATE_LIMIT_SECONDS
    ensures exists m :: i < m < j && StepAt(queries, m).cleared
  {
    var key := queries[i].key;
    AllowCounts(queries, key, i, j, i);
    var p := LastAllow(queries, key, i, j);
    SuccessiveAllowsAreSpaced(queries, p, j);
    assert p == i || queries[i].time <= queries[p].time;
    var m :| p < m < j && StepAt(queries, m).cleared;
    assert i < m < j;
  }

  lemma {:induction false} AllowCounts(queries: seq<Query>, key: string, lo: nat, hi: nat, m: nat)
    requires lo <= m < hi <= |queries| && queries[m].key == key && StepAt(queries, m).allowed
    ensures Allows(queries, key, lo, hi) >= 1
    decreases hi - lo
  {
    if m < hi - 1 {
      AllowCounts(queries, key, lo, hi - 1, m);
    }
  }

  /** Over any stretch of queries in time order, the allows of one key take at least the interval
      each, but for the first and one more per clear. */
  lemma {:induction false} AllowsTakeTime(queries: seq<Query>, key: string, lo: nat, hi: nat)
    requires Forward(queries) && lo <= hi <= |queries| && Allows(queries, key, lo, hi) > 0
    ensures
      var p := LastAllow(queries, key, lo, hi);
      ((Allows(queries, key, lo, hi) - 1 - Clears(queries, lo, p)) as real) * RATE_LIMIT_SECONDS
      <= queries[p].time - queries[lo].time
    decreases hi - lo
  {
    var p := LastAllow(queries, key, lo, hi);
    if p < hi - 1 {
      assert Allows(queries, key, lo, hi) == Allows(queries, key, lo, hi - 1);
      AllowsTakeTime(queries, key, lo, hi - 1);
    } else if Allows(queries, key, lo, p) > 0 {
      var q := LastAllow(queries, key, lo, p);
      AllowsTakeTime(queries, key, lo, p);
      SuccessiveAllowsAreSpaced(queries, q, p);
      ClearsSplit(queries, lo, q, p);
      if queries[p].time - queries[q].time < RATE_LIMIT_SECONDS {
        var m :| q < m < p && StepAt(queries, m).cleared;
        ClearCounts(queries, q, p, m);
      }
    }
  }

  /** The rate bound: in a window of length `t` a key is allowed at most floor(t / 0.5) + 1 times,
      and once more for each clear in the window. */
  lemma {:induction false} WindowBound(queries: seq<Query>, key: string, lo: nat, hi: nat, t: real)
    requires Forward(queries) && lo < hi <= |queries| && queries[hi - 1].time - queries[lo].time <= t
    ensures t >= 0.0
    ensures Allows(queries, key, lo, hi) <= (t / RATE_LIMIT_SECONDS).Floor + 1 + Clears(queries, lo, hi)
  {
    assert hi - 1 > lo ==> queries[lo].time <= queries[hi - 1].time;
    if Allows(queries, key, lo, hi) > 0 {
      AllowsTakeTime(queries, key, lo, hi);
      var p := LastAllow(queries, key, lo, hi);
      ClearsSplit(queries, lo, p, hi);
      assert p < hi - 1 ==> queries[p].time <= queries[hi - 1].time;
      var n := Allows(queries, key, lo, hi) - 1 - Clears(queries, lo, p);
      assert (n as real) * RATE_LIMIT_SECONDS <= t;
      assert n as real <= t / RATE_LIMIT_SECONDS;
      assert n <= (t / RATE_LIMIT_SECONDS).Floor;
    }
  }

  // ---- How rare clears are ---------------------------------------------------------------

  function AllAllows(queries: seq<Query>, hi: nat): nat
    requires hi <= |queries|
  {
    if hi == 0 then 0 else AllAllows(queries, hi - 1) + if StepAt(queries, hi - 1).allowed then 1 else 0
  }

  /** Every clear has been paid for by a full table of allows, and one more. */
  lemma {:induction false} ClearsArePaidFor(queries: seq<Query>, hi: nat)
    requires hi <= |queries|
    ensures Clears(queries, 0, hi) * MAX_TRACKED + |TableAfter(queries[..hi])| <= AllAllows(queries, hi)
    ensures Clears(queries, 0, hi) > 0 ==> AllAllows(queries, hi) >= MAX_TRACKED * Clears(queries, 0, hi) + 1
  {
    if hi > 0 {
      ClearsArePaidFor(queries, hi - 1);
      TableSnoc(queries, hi - 1);
      var t, q := TableAfter(queries[..hi - 1]), queries[hi - 1];
      assert t[q.key := q.time].Keys == t.Keys + {q.key};
      TableIsBounded(queries[..hi - 1]);
      if Clears(queries, 0, hi) > 0 {
        NotEmptyAfterAllow(queries, hi);
      }
    }
  }

  lemma {:induction false} NotEmptyAfterAllow(queries: seq<Query>, hi: nat)
    requires 0 < hi <= |queries|
    ensures |TableAfter(queries[..hi])| > 0
  {
    TableSnoc(queries, hi - 1);
    assert queries[hi - 1].key in TableAfter(queries[..hi]);
  }
}
