/**
 * Monthly cost ranges and their algebra: field-wise sums, the grand total
 * over kinds, the difference between two totals and its textual summary.
 * Money is a `real`; the float64 rounding of the source is not modelled.
 */
module Costs {
  import opened Text

  const Headers: seq<string> :=
    ["MIN REQUESTED", "MIN REQ + HPA CPU BUFFER", "MAX REQUESTED", "MIN LIMITED", "MAX LIMITED"]
  const MonthlyTotalKind := "MonthlyTotal"
  const NoChangeSummary := "No cost change found!"
  const IncreasePrefix := "There are increase in costs on: '"
  const DecreaseText := " are decrease in costs on: '"

  /** The estimated monthly cost of one workload, one kind, or a total. */
  datatype CostRange = CostRange(
    kind: string,
    minRequested: real,
    maxRequested: real,
    hpaBuffer: real,
    minLimited: real,
    maxLimited: real)
  {
    /** Field-wise sum; the receiver's kind label is kept. */
    function Add(other: CostRange): (sum: CostRange)
      ensures sum.kind == kind
      ensures sum.minRequested - other.minRequested == minRequested && sum.maxRequested - other.maxRequested == maxRequested
      ensures sum.hpaBuffer - other.hpaBuffer == hpaBuffer
      ensures sum.minLimited - other.minLimited == minLimited && sum.maxLimited - other.maxLimited == maxLimited
    {
      CostRange(kind,
        minRequested + other.minRequested,
        maxRequested + other.maxRequested,
        hpaBuffer + other.hpaBuffer,
        minLimited + other.minLimited,
        maxLimited + other.maxLimited)
    }

    /** The difference from `prev` to this (current) range, absolute and in percent of the current value. */
    function Subtract(prev: CostRange): (d: DiffCostRange)
      ensures d.kind == kind && d.costCurr == this && d.costPrev == prev
      ensures prev.Add(d.diffValue) == this.(kind := prev.kind)
      ensures d.diffPercentage == Percentages(d.diffValue, this)
    {
      var diff := CostRange(kind,
        minRequested - prev.minRequested,
        maxRequested - prev.maxRequested,
        hpaBuffer - prev.hpaBuffer,
        minLimited - prev.minLimited,
        maxLimited - prev.maxLimited);
      DiffCostRange(kind, this, prev, diff, Percentages(diff, this))
    }

    /** The largest of the five amounts. */
    function Max(): (m: real)
      ensures m == minRequested || m == maxRequested || m == hpaBuffer || m == minLimited || m == maxLimited
      ensures m >= minRequested && m >= maxRequested && m >= hpaBuffer && m >= minLimited && m >= maxLimited
    {
      var m := minRequested;
      var m := if maxRequested > m then maxRequested else m;
      var m := if hpaBuffer > m then hpaBuffer else m;
      var m := if minLimited > m then minLimited else m;
      if maxLimited > m then maxLimited else m
    }

    /** Every amount is at least zero, as for any cost computed from non-negative prices. */
    predicate NonNegative()
    {
      minRequested >= 0.0 && maxRequested >= 0.0 && hpaBuffer >= 0.0 && minLimited >= 0.0 && maxLimited >= 0.0
    }
  }

  /** A zero range labelled `kind`: the start of every fold. */
  function Zero(kind: string): CostRange
  {
    CostRange(kind, 0.0, 0.0, 0.0, 0.0, 0.0)
  }

  /**
   * The float64 quotient `diff * 100 / current`. A zero divisor gives what
   * IEEE 754 gives: an infinity with the sign of `diff`, or NaN for 0/0.
   */
  datatype Percent = Ratio(value: real) | PlusInf | MinusInf | NotANumber
  {
    predicate IsPositive() { (Ratio? && value > 0.0) || PlusInf? }
    predicate IsNegative() { (Ratio? && value < 0.0) || MinusInf? }
  }

  function PercentOf(diff: real, current: real): (p: Percent)
    ensures current != 0.0 ==> p.Ratio? && p.value * current == diff * 100.0
    ensures current >= 0.0 ==> (p.IsPositive() <==> diff > 0.0) && (p.IsNegative() <==> diff < 0.0)
  {
    if current != 0.0 then Ratio(diff * 100.0 / current)
    else if diff > 0.0 then PlusInf
    else if diff < 0.0 then MinusInf
    else NotANumber
  }

  datatype PercentRange = PercentRange(
    kind: string,
    minRequested: Percent,
    maxRequested: Percent,
    hpaBuffer: Percent,
    minLimited: Percent,
    maxLimited: Percent)

  /** Each difference field taken in percent of the same field of the current range. */
  function Percentages(diff: CostRange, curr: CostRange): PercentRange
  {
    PercentRange(curr.kind,
      PercentOf(diff.minRequested, curr.minRequested),
      PercentOf(diff.maxRequested, curr.maxRequested),
      PercentOf(diff.hpaBuffer, curr.hpaBuffer),
      PercentOf(diff.minLimited, curr.minLimited),
      PercentOf(diff.maxLimited, curr.maxLimited))
  }

  predicate AnyIncrease(p: PercentRange)
  {
    p.minRequested.IsPositive() || p.hpaBuffer.IsPositive() || p.maxRequested.IsPositive()
    || p.minLimited.IsPositive() || p.maxLimited.IsPositive()
  }

  predicate AnyDecrease(p: PercentRange)
  {
    p.minRequested.IsNegative() || p.hpaBuffer.IsNegative() || p.maxRequested.IsNegative()
    || p.minLimited.IsNegative() || p.maxLimited.IsNegative()
  }

  /** The headers of the columns whose percentage went up, in column order. */
  function IncreasedHeaders(p: PercentRange): (hs: seq<string>)
    ensures |hs| > 0 <==> AnyIncrease(p)
  {
    (if p.minRequested.IsPositive() then [Headers[0]] else [])
    + (if p.hpaBuffer.IsPositive() then [Headers[1]] else [])
    + (if p.maxRequested.IsPositive() then [Headers[2]] else [])
    + (if p.minLimited.IsPositive() then [Headers[3]] else [])
    + (if p.maxLimited.IsPositive() then [Headers[4]] else [])
  }

  /** The headers of the columns whose percentage went down, in column order. */
  function DecreasedHeaders(p: PercentRange): (hs: seq<string>)
    ensures |hs| > 0 <==> AnyDecrease(p)
  {
    (if p.minRequested.IsNegative() then [Headers[0]] else [])
    + (if p.hpaBuffer.IsNegative() then [Headers[1]] else [])
    + (if p.maxRequested.IsNegative() then [Headers[2]] else [])
    + (if p.minLimited.IsNegative() then [Headers[3]] else [])
    + (if p.maxLimited.IsNegative() then [Headers[4]] else [])
  }

  function IncreaseSentence(hs: seq<string>): string
  {
    IncreasePrefix + Join(hs, "', '") + "'"
  }

  function DecreaseSentence(start: string, hs: seq<string>): string
  {
    start + DecreaseText + Join(hs, "', '") + "'"
  }

  datatype DiffCostRange = DiffCostRange(
    kind: string,
    costCurr: CostRange,
    costPrev: CostRange,
    diffValue: CostRange,
    diffPercentage: PercentRange)
  {
    /**
     * The summary sentence and whether some cost went up. Increase and
     * decrease sentences may both appear; the no-change sentence appears
     * exactly when no percentage is positive or negative.
     */
    function Status(): (r: (string, bool))
      ensures r.1 <==> AnyIncrease(diffPercentage)
      ensures r.0 == NoChangeSummary <==> !AnyIncrease(diffPercentage) && !AnyDecrease(diffPercentage)
      ensures AnyIncrease(diffPercentage) && !AnyDecrease(diffPercentage) ==>
        r.0 == IncreaseSentence(IncreasedHeaders(diffPercentage))
      ensures !AnyIncrease(diffPercentage) && AnyDecrease(diffPercentage) ==>
        r.0 == DecreaseSentence("There", DecreasedHeaders(diffPercentage))
      ensures AnyIncrease(diffPercentage) && AnyDecrease(diffPercentage) ==>
        r.0 == IncreaseSentence(IncreasedHeaders(diffPercentage))
               + DecreaseSentence(". And there", DecreasedHeaders(diffPercentage))
    {
      var costInc := IncreasedHeaders(diffPercentage);
      var costDec := DecreasedHeaders(diffPercentage);
      var summary := if |costInc| > 0 then IncreaseSentence(costInc) else "";
      var summary :=
        if |costDec| > 0 then summary + DecreaseSentence(if |summary| > 0 then ". And there" else "There", costDec)
        else summary;
      assert |costInc| > 0 ==> summary[0] == 'T';
      assert |costInc| == 0 && |costDec| > 0 ==> summary[0] == 'T';
      var summary := if |costInc| == 0 && |costDec| == 0 then NoChangeSummary else summary;
      (summary, |costInc| > 0)
    }
  }

  /** All the monthly ranges of one estimation, one per workload kind. */
  datatype Cost = Cost(monthlyRanges: seq<CostRange>)
  {
    /** The sum of all ranges, labelled "MonthlyTotal". */
    method MonthlyTotal() returns (total: CostRange)
      ensures total == SumRanges(MonthlyTotalKind, monthlyRanges)
    {
      total := Zero(MonthlyTotalKind);
      for i := 0 to |monthlyRanges|
        invariant total == SumRanges(MonthlyTotalKind, monthlyRanges[..i])
      {
        assert monthlyRanges[..i + 1][..i] == monthlyRanges[..i];
        total := total.Add(monthlyRanges[i]);
      }
      assert monthlyRanges[..|monthlyRanges|] == monthlyRanges;
    }

    /** Compares this (current) total with the total of `costPrev`. */
    method Subtract(costPrev: Cost) returns (d: DiffCost)
      ensures d.costCurr == this && d.costPrev == costPrev
      ensures d.monthlyDiffRange ==
        SumRanges(MonthlyTotalKind, monthlyRanges).Subtract(SumRanges(MonthlyTotalKind, costPrev.monthlyRanges))
      ensures (d.summary, d.hasCostIncreased) == d.monthlyDiffRange.Status()
    {
      var cr := MonthlyTotal();
      var prevTotal := costPrev.MonthlyTotal();
      var diff := cr.Subtract(prevTotal);
      var (summary, hasCostIncreased) := diff.Status();
      d := DiffCost(summary, hasCostIncreased, this, costPrev, diff);
    }
  }

  datatype DiffCost = DiffCost(
    summary: string,
    hasCostIncreased: bool,
    costCurr: Cost,
    costPrev: Cost,
    monthlyDiffRange: DiffCostRange)

  /** The `Add`-fold of `rs`, left to right, from a zero range labelled `kind`. */
  function SumRanges(kind: string, rs: seq<CostRange>): (r: CostRange)
    ensures r.kind == kind
  {
    if |rs| == 0 then Zero(kind) else SumRanges(kind, rs[..|rs| - 1]).Add(rs[|rs| - 1])
  }

  // ----- Properties of the algebra -----

  /** `Add` is associative. */
  lemma AddAssociative(a: CostRange, b: CostRange, c: CostRange)
    ensures a.Add(b).Add(c) == a.Add(b.Add(c))
  {
  }

  /** The amounts of `Add` do not depend on the order of its operands. */
  lemma AddCommutesOnAmounts(a: CostRange, b: CostRange)
    ensures a.Add(b) == b.Add(a).(kind := a.kind)
  {
  }

  /** Summing a concatenation is adding the two partial sums. */
  lemma {:induction false} SumRangesConcat(kind: string, a: seq<CostRange>, b: seq<CostRange>)
    ensures SumRanges(kind, a + b) == SumRanges(kind, a).Add(SumRanges(kind, b))
    decreases |b|
  {
    if |b| == 0 {
      assert a + b == a;
    } else {
      var b' := b[..|b| - 1];
      assert (a + b)[..|a + b| - 1] == a + b';
      SumRangesConcat(kind, a, b');
      AddAssociative(SumRanges(kind, a), SumRanges(kind, b'), b[|b| - 1]);
    }
  }

  /** Moving one range to the end of a sequence does not change the sum. */
  lemma {:induction false} SumRangesMoveToEnd(kind: string, b1: seq<CostRange>, x: CostRange, b2: seq<CostRange>)
    ensures SumRanges(kind, b1 + [x] + b2) == SumRanges(kind, b1 + b2).Add(x)
  {
    SumRangesConcat(kind, b1 + [x], b2);
    SumRangesConcat(kind, b1, b2);
    assert (b1 + [x])[..|b1|] == b1;
  }

  /** Removing one occurrence of `x` from both sides of a multiset equality. */
  lemma RemoveLast(a: seq<CostRange>, x: CostRange, b1: seq<CostRange>, b2: seq<CostRange>)
    requires multiset(a + [x]) == multiset(b1 + [x] + b2)
    ensures multiset(a) == multiset(b1 + b2)
  {
    calc {
      multiset(a) + multiset{x};
      multiset(a + [x]);
      multiset(b1 + [x] + b2);
      multiset(b1 + b2) + multiset{x};
    }
    forall y | true
      ensures multiset(a)[y] == multiset(b1 + b2)[y]
    {
      assert (multiset(a) + multiset{x})[y] == (multiset(b1 + b2) + multiset{x})[y];
    }
  }

  /** The total does not depend on the order of the ranges: any permutation sums the same. */
  lemma {:induction false} SumRangesPermutation(kind: string, a: seq<CostRange>, b: seq<CostRange>)
    requires multiset(a) == multiset(b)
    ensures SumRanges(kind, a) == SumRanges(kind, b)
    decreases |a|
  {
    if |a| == 0 {
      assert |b| == |multiset(b)| == 0;
    } else {
      var x := a[|a| - 1];
      var a' := a[..|a| - 1];
      assert a == a' + [x];
      assert x in multiset(b);
      var j :| 0 <= j < |b| && b[j] == x;
      var b1, b2 := b[..j], b[j + 1..];
      assert b == b1 + [x] + b2;
      RemoveLast(a', x, b1, b2);
      SumRangesPermutation(kind, a', b1 + b2);
      SumRangesMoveToEnd(kind, b1, x, b2);
    }
  }

  /** A sum of ranges whose limits cover their requests also has limits covering requests. */
  lemma {:induction false} SumRangesKeepsLimitsAboveRequests(kind: string, rs: seq<CostRange>)
    requires forall i :: 0 <= i < |rs| ==> rs[i].minLimited >= rs[i].minRequested && rs[i].maxLimited >= rs[i].maxRequested
    ensures var s := SumRanges(kind, rs); s.minLimited >= s.minRequested && s.maxLimited >= s.maxRequested
  {
    if |rs| > 0 {
      SumRangesKeepsLimitsAboveRequests(kind, rs[..|rs| - 1]);
    }
  }

  /** The no-change case: comparing a range with itself gives zero differences and the no-change summary. */
  lemma SubtractSelfNoChange(c: CostRange)
    ensures c.Subtract(c).diffValue == Zero(c.kind)
    ensures c.Subtract(c).Status() == (NoChangeSummary, false)
  {
  }

  /**
   * For non-negative current costs the summary reports an increase exactly when
   * some field grew and a decrease exactly when some field shrank.
   */
  lemma StatusMatchesFieldChanges(curr: CostRange, prev: CostRange)
    requires curr.NonNegative()
    ensures curr.Subtract(prev).Status().1 <==>
      curr.minRequested > prev.minRequested || curr.maxRequested > prev.maxRequested || curr.hpaBuffer > prev.hpaBuffer
      || curr.minLimited > prev.minLimited || curr.maxLimited > prev.maxLimited
    ensures AnyDecrease(curr.Subtract(prev).diffPercentage) <==>
      curr.minRequested < prev.minRequested || curr.maxRequested < prev.maxRequested || curr.hpaBuffer < prev.hpaBuffer
      || curr.minLimited < prev.minLimited || curr.maxLimited < prev.maxLimited
  {
  }
}
