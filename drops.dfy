/**
 * The stability measures of a row of quarterly returns: the sum of the
 * drops (the negative returns) and the worst single drop, each rounded to
 * one decimal place with Python's `round`, and 0.0 for a row with no drop.
 */
module Drops {
  import opened Rounding

  /**
   * The negative entries of the row, in row order: every negative value as
   * many times as the row holds it, and nothing else.
   */
  function Negatives(row: seq<real>): (neg: seq<real>)
    ensures |neg| <= |row|
    ensures forall v :: v in neg <==> v in row && v < 0.0
    ensures forall v :: multiset(neg)[v] == if v < 0.0 then multiset(row)[v] else 0
  {
    if |row| == 0 then []
    else
      assert row == [row[0]] + row[1..];
      (if row[0] < 0.0 then [row[0]] else []) + Negatives(row[1..])
  }

  function Sum(s: seq<real>): real
  {
    if |s| == 0 then 0.0 else s[0] + Sum(s[1..])
  }

  /** The smallest entry of a non-empty sequence. */
  function Min(s: seq<real>): real
    requires |s| > 0
  {
    if |s| == 1 then s[0]
    else
      var m := Min(s[1..]);
      if s[0] <= m then s[0] else m
  }

  /** `sum_of_drops`: the negative entries summed and rounded to one place; 0.0 when there are none. */
  function SumOfDrops(row: seq<real>): real
  {
    var neg := Negatives(row);
    if |neg| > 0 then PyRound(Sum(neg), 1) else 0.0
  }

  /** `max_drop`: the smallest negative entry rounded to one place; 0.0 when there are none. */
  function MaxDrop(row: seq<real>): real
  {
    var neg := Negatives(row);
    if |neg| > 0 then PyRound(Min(neg), 1) else 0.0
  }

  /** The smallest entry is one of the entries and no entry is smaller. */
  lemma {:induction false} MinIsLeast(s: seq<real>)
    requires |s| > 0
    ensures Min(s) in s
    ensures forall v :: v in s ==> Min(s) <= v
  {
    if |s| > 1 {
      MinIsLeast(s[1..]);
      assert s == [s[0]] + s[1..];
    }
  }

  /** A non-empty run of negative numbers sums to something negative and no greater than its smallest entry. */
  lemma {:induction false} SumAtMostMin(s: seq<real>)
    requires |s| > 0
    requires forall v :: v in s ==> v < 0.0
    ensures Sum(s) < 0.0
    ensures Sum(s) <= Min(s)
  {
    assert s[0] in s;
    if |s| == 1 {
      assert s[1..] == [];
    } else {
      assert s[1..][0] in s;
      assert forall v :: v in s[1..] ==> v in s;
      SumAtMostMin(s[1..]);
    }
  }

  /** A row without a negative entry has no drops by either measure. */
  lemma {:induction false} NoDrops(row: seq<real>)
    requires forall i :: 0 <= i < |row| ==> row[i] >= 0.0
    ensures Negatives(row) == []
    ensures SumOfDrops(row) == 0.0 && MaxDrop(row) == 0.0
  {
    if |row| > 0 {
      NoDrops(row[1..]);
    }
  }

  /** The sum of drops is never positive. */
  lemma SumOfDropsNonPositive(row: seq<real>)
    ensures SumOfDrops(row) <= 0.0
  {
    var neg := Negatives(row);
    if |neg| > 0 {
      SumAtMostMin(neg);
      PyRoundNonPositive(Sum(neg), 1);
    }
  }

  /**
   * When the row has a drop, the worst drop is an entry of the row, negative,
   * and no greater than any negative entry; once rounded, it is no greater
   * than any negative entry rounded.
   */
  lemma MaxDropIsWorst(row: seq<real>)
    requires exists i :: 0 <= i < |row| && row[i] < 0.0
    ensures var neg := Negatives(row);
            && |neg| > 0
            && Min(neg) in row && Min(neg) < 0.0
            && MaxDrop(row) == PyRound(Min(neg), 1)
            && forall v :: v in row && v < 0.0 ==> Min(neg) <= v && MaxDrop(row) <= PyRound(v, 1)
  {
    var i :| 0 <= i < |row| && row[i] < 0.0;
    var neg := Negatives(row);
    assert row[i] in neg;
    MinIsLeast(neg);
    forall v | v in row && v < 0.0
      ensures MaxDrop(row) <= PyRound(v, 1)
    {
      PyRoundMonotone(Min(neg), v, 1);
    }
  }

  /** The sum of the drops is at least as severe as the worst single drop. */
  lemma SumOfDropsAtMostMaxDrop(row: seq<real>)
    ensures SumOfDrops(row) <= MaxDrop(row)
  {
    var neg := Negatives(row);
    if |neg| > 0 {
      SumAtMostMin(neg);
      PyRoundMonotone(Sum(neg), Min(neg), 1);
    }
  }
}
