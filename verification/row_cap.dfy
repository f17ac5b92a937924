/** How many rows come of walking connections that have the given numbers of subscriptions, when the
    inner loop stops at the row that reaches the cap and the outer loop goes on. */
module RowCap {
  const MAX_ROWS: nat := 50000

  /** The rows after one more connection: all its subscriptions, or those up to the cap, but never fewer
      than one. */
  function Grown(len: nat, count: nat): (r: nat)
    ensures len <= r <= len + count
  {
    if len + count <= MAX_ROWS then len + count
    else if count == 0 then len
    else if len < MAX_ROWS then MAX_ROWS
    else len + 1
  }

  function Walked(len: nat, counts: seq<nat>): (r: nat) {
    if counts == [] then len
    else Grown(Walked(len, counts[..|counts| - 1]), counts[|counts| - 1])
  }

  function Sum(counts: seq<nat>): (r: nat) {
    if counts == [] then 0 else Sum(counts[..|counts| - 1]) + counts[|counts| - 1]
  }

  /** How many connections have subscriptions at all. */
  function NonEmpty(counts: seq<nat>): (r: nat) {
    if counts == [] then 0
    else NonEmpty(counts[..|counts| - 1]) + if counts[|counts| - 1] > 0 then 1 else 0
  }

  /** The subscriptions of the last connection that has any. */
  function LastCount(counts: seq<nat>): (r: nat) {
    if counts == [] then 0
    else if counts[|counts| - 1] > 0 then counts[|counts| - 1]
    else LastCount(counts[..|counts| - 1])
  }

  lemma {:induction false} WalkedSplit(len: nat, a: seq<nat>, b: seq<nat>)
    ensures Walked(len, a + b) == Walked(Walked(len, a), b)
  {
    if b == [] {
      assert a + b == a;
    } else {
      var n := |b| - 1;
      WalkedSplit(len, a, b[..n]);
      assert (a + b)[..|a| + n] == a + b[..n];
    }
  }

  lemma {:induction false} SumSplit(a: seq<nat>, b: seq<nat>)
    ensures Sum(a + b) == Sum(a) + Sum(b)
    ensures LastCount(a + b) == if Sum(b) > 0 then LastCount(b) else LastCount(a)
  {
    if b == [] {
      assert a + b == a;
    } else {
      var n := |b| - 1;
      SumSplit(a, b[..n]);
      assert (a + b)[..|a| + n] == a + b[..n];
    }
  }

  /** Up to the cap nothing is left out, and past it the cap was reached. */
  lemma {:induction false} WalkedBelow(counts: seq<nat>)
    ensures Sum(counts) <= MAX_ROWS ==> Walked(0, counts) == Sum(counts)
    ensures Sum(counts) > MAX_ROWS ==> Walked(0, counts) >= MAX_ROWS
  {
    if counts != [] {
      WalkedBelow(counts[..|counts| - 1]);
    }
  }

  /** Once the cap is reached every connection with subscriptions adds one row. */
  lemma {:induction false} WalkedAbove(len: nat, counts: seq<nat>)
    requires len >= MAX_ROWS
    ensures Walked(len, counts) == len + NonEmpty(counts)
  {
    if counts != [] {
      WalkedAbove(len, counts[..|counts| - 1]);
    }
  }

  /** The connection whose rows reach the cap. */
  lemma {:induction false} Reaches(counts: seq<nat>) returns (k: nat)
    requires Sum(counts) >= MAX_ROWS
    ensures k < |counts| && Sum(counts[..k]) < MAX_ROWS <= Sum(counts[..k + 1])
  {
    var n := |counts| - 1;
    assert counts[..n + 1] == counts;
    if Sum(counts[..n]) >= MAX_ROWS {
      k := Reaches(counts[..n]);
      assert counts[..n][..k] == counts[..k] && counts[..n][..k + 1] == counts[..k + 1];
    } else {
      k := n;
    }
  }

  /** Up to the cap the walk gives all rows; past it the cap, and one more for each connection with
      subscriptions after the one that reached it. */
  lemma WalkedLength(counts: seq<nat>) returns (k: nat)
    ensures Sum(counts) <= MAX_ROWS ==> Walked(0, counts) == Sum(counts)
    ensures Sum(counts) > MAX_ROWS ==>
              && k < |counts| && Sum(counts[..k]) < MAX_ROWS <= Sum(counts[..k + 1])
              && Walked(0, counts) == MAX_ROWS + NonEmpty(counts[k + 1..])
  {
    WalkedBelow(counts);
    k := 0;
    if Sum(counts) > MAX_ROWS {
      k := Reaches(counts);
      var upTo, later := counts[..k + 1], counts[k + 1..];
      assert counts == upTo + later && upTo[..k] == counts[..k];
      WalkedSplit(0, upTo, later);
      WalkedBelow(counts[..k]);
      WalkedAbove(Walked(0, upTo), later);
    }
  }

  /** The walk stays within the cap exactly when the rows before the last connection with subscriptions
      are below it. */
  lemma {:induction false} WithinCap(counts: seq<nat>)
    ensures LastCount(counts) <= Sum(counts) && (LastCount(counts) > 0 <==> Sum(counts) > 0)
    ensures Walked(0, counts) <= MAX_ROWS <==> Sum(counts) == 0 || Sum(counts) - LastCount(counts) < MAX_ROWS
  {
    if counts != [] {
      WithinCap(counts[..|counts| - 1]);
      WalkedBelow(counts[..|counts| - 1]);
    }
  }
}
