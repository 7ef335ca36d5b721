/** The distribution chart pipeline: trim the column to a count-dependent
    quantile range, cut it into bins (fixed width or by quantiles), label
    every selected value with the first bin that holds it, aggregate per
    label and report the aggregates in bin order.

    The dataset engine's work (filtering the table, the aggregate queries,
    `group_by`) is given as inputs or as specification functions; the
    decisions the service code makes around it are modelled as written. */
module ChartServices {
  import opened Common
  import opened Intervals
  import opened Utils

  // ---------------------------------------------------------------------
  // clean_data: the count-tiered trim
  // ---------------------------------------------------------------------

  /** The one-row aggregate `clean_data` queries: the row count (`u32`),
      the relative spread, min and max, and the `Nearest` quantile at any
      level. */
  datatype ColumnSummary = ColumnSummary(count: nat, rsd: real, min: int, max: int, quantile: real -> real)

  /** The quantile levels that bound the trimmed range; `None`: no trim. */
  function TrimLevels(count: nat): (r: Option<(real, real)>)
    ensures r.Some? <==> count > 50
    ensures r.Some? ==> 0.0 < r.value.0 < r.value.1 < 1.0
  {
    if count > 1000 then Some((0.0005, 0.995))
    else if count > 500 then Some((0.03, 0.97))
    else if count > 50 then Some((0.05, 0.95))
    else None
  }

  /** The engine's quantiles behave: non-decreasing in the level and within
      `[min, max]`, which lie in the `i32` range. */
  ghost predicate WellFormed(st: ColumnSummary) {
    I32Min <= st.min <= st.max <= I32Max
    && forall a: real, b: real {:trigger st.quantile(a), st.quantile(b)} :: 0.0 <= a <= b <= 1.0 ==>
         st.min as real <= st.quantile(a) <= st.quantile(b) <= st.max as real
  }

  /** `clean_data` after its query: the original bounds, count and spread
      copied, the trimmed bounds from the tier's quantiles cast to `i32`. */
  function CleanData(column: string, st: ColumnSummary): (r: StatInterval)
    requires st.count < 0x1_0000_0000
    ensures r.column == column && r.origStart == st.min && r.origEnd == st.max
    ensures r.rsd == st.rsd && r.count == WrapU32ToI32(st.count)
    ensures TrimLevels(st.count).None? ==> r.start == st.min && r.end == st.max
    ensures TrimLevels(st.count).Some? ==>
      r.start == TruncToI32(st.quantile(TrimLevels(st.count).value.0))
      && r.end == TruncToI32(st.quantile(TrimLevels(st.count).value.1))
    ensures WellFormed(st) ==> r.origStart <= r.start <= r.end <= r.origEnd
  {
    var count := WrapU32ToI32(st.count);
    match TrimLevels(st.count)
    case None => StatInterval(column, st.min, st.max, st.rsd, count, st.min, st.max)
    case Some((lo, hi)) =>
      var r := StatInterval(column, st.min, st.max, st.rsd, count,
                            TruncToI32(st.quantile(lo)), TruncToI32(st.quantile(hi)));
      TrimInside(st, lo, hi);
      r
  }

  lemma TrimInside(st: ColumnSummary, lo: real, hi: real)
    requires 0.0 <= lo <= hi <= 1.0
    ensures WellFormed(st) ==>
      st.min <= TruncToI32(st.quantile(lo)) <= TruncToI32(st.quantile(hi)) <= st.max
  {
    if WellFormed(st) {
      assert st.min as real <= st.quantile(lo) <= st.quantile(hi) <= st.max as real;
      TruncToI32Monotone(st.min as real, st.quantile(lo));
      TruncToI32Monotone(st.quantile(lo), st.quantile(hi));
      TruncToI32Monotone(st.quantile(hi), st.max as real);
      TruncToI32OfInt(st.min);
      TruncToI32OfInt(st.max);
    }
  }

  /** Above 50 rows, a larger sample is trimmed less: the lower level never
      rises and the upper level never falls. The thresholds are strict. */
  lemma TrimNarrowsWithSize(c1: nat, c2: nat)
    requires 50 < c1 <= c2
    ensures TrimLevels(c2).value.0 <= TrimLevels(c1).value.0
    ensures TrimLevels(c1).value.1 <= TrimLevels(c2).value.1
  {
  }

  lemma TrimThresholds()
    ensures TrimLevels(1001) == Some((0.0005, 0.995)) && TrimLevels(1000) == Some((0.03, 0.97))
    ensures TrimLevels(501) == Some((0.03, 0.97)) && TrimLevels(500) == Some((0.05, 0.95))
    ensures TrimLevels(51) == Some((0.05, 0.95)) && TrimLevels(50) == None
  {
  }

  // ---------------------------------------------------------------------
  // data_to_bins: the bins
  // ---------------------------------------------------------------------

  /** The range the bins cover: trimmed when `all` is set, original otherwise. */
  function BinRange(si: StatInterval, all: bool): (r: (int, int))
    ensures all ==> r == (si.start, si.end)
    ensures !all ==> r == (si.origStart, si.origEnd)
  {
    if all then (si.start, si.end) else (si.origStart, si.origEnd)
  }

  /** Fixed-width bin `i`: `[start + i*step, start + (i+1)*step)`, labelled `i`. */
  function FixedBin(column: string, start: int, step: int, i: nat): Interval {
    Interval(column, start + i * step, start + (i + 1) * step, NatToString(i), 0)
  }

  /** The fixed-width step: the range divided by the bin count, truncated. */
  function Step(start: int, end: int, n: nat): int
    requires n > 0
  {
    RustDiv(end - start, n)
  }

  /** The `ByInterval` loop. */
  method FixedBins(column: string, start: int, end: int, n: nat) returns (ivs: seq<Interval>)
    requires n > 0
    ensures |ivs| == n
    ensures forall i :: 0 <= i < n ==> ivs[i] == FixedBin(column, start, Step(start, end, n), i)
  {
    var step := RustDiv(end - start, n);
    ivs := [];
    var i := 0;
    while i < n
      invariant 0 <= i <= n && |ivs| == i
      invariant forall k :: 0 <= k < i ==> ivs[k] == FixedBin(column, start, step, k)
    {
      ivs := ivs + [Interval(column, start + i * step, start + (i + 1) * step, NatToString(i), 0)];
      i := i + 1;
    }
  }

  predicate IsFixedBins(ivs: seq<Interval>, column: string, start: int, step: int) {
    forall i :: 0 <= i < |ivs| ==> ivs[i] == FixedBin(column, start, step, i)
  }

  /** With a positive step the bins are non-empty and each starts where the
      previous ends, so `From` only appends: every bin is kept, in order. */
  lemma FixedBinsAccepted(ivs: seq<Interval>, column: string, start: int, step: int)
    requires |ivs| > 0 && step > 0 && IsFixedBins(ivs, column, start, step)
    ensures Chained(ivs)
    ensures AddAll([], ivs) == Some(Renumbered(ivs))
  {
    forall i | 0 <= i < |ivs| ensures ivs[i].start < ivs[i].end {
      assert ivs[i].end - ivs[i].start == step;
    }
    FromChainedAppends(ivs);
  }

  /** Fixed-width bins are labelled "0" to "n-1", all different (and, as
      decimal labels, left alone by the normalisation of `DecimalLabelNormal`). */
  lemma FixedBinsCategories(ivs: seq<Interval>, column: string, start: int, step: int)
    requires IsFixedBins(ivs, column, start, step)
    ensures forall i :: 0 <= i < |ivs| ==> ivs[i].category == NatToString(i)
    ensures forall i, j :: 0 <= i < j < |ivs| ==> ivs[i].category != ivs[j].category
  {
    forall i, j | 0 <= i < j < |ivs| ensures ivs[i].category != ivs[j].category {
      if ivs[i].category == ivs[j].category {
        NatToStringInjective(i, j);
      }
    }
  }

  /** A value in `[start, start + n*step)` lies in exactly one bin, number
      `(v - start) / step`. */
  lemma FixedBinOf(ivs: seq<Interval>, column: string, start: int, step: int, v: int)
    requires step > 0 && IsFixedBins(ivs, column, start, step)
    requires start <= v < start + |ivs| * step
    ensures (v - start) / step < |ivs|
    ensures InInterval(ivs[(v - start) / step], v)
    ensures forall j :: 0 <= j < |ivs| && InInterval(ivs[j], v) ==> j == (v - start) / step
  {
    var d := v - start;
    var k := d / step;
    QuotientBounds(d, step);
    if k >= |ivs| {
      MulLe(|ivs|, k, step);
    }
    assert ivs[k] == FixedBin(column, start, step, k);
    forall j | 0 <= j < |ivs| && InInterval(ivs[j], v) ensures j == k {
      assert ivs[j] == FixedBin(column, start, step, j);
      SameBin(d, step, j, k);
    }
  }

  /** The quotient's multiple of the step is at most the dividend and the
      next multiple exceeds it. */
  lemma QuotientBounds(d: int, step: int)
    requires step > 0
    ensures (d / step) * step <= d < (d / step + 1) * step
  {
    var k := d / step;
    assert d == k * step + d % step && 0 <= d % step < step;
    assert (k + 1) * step == k * step + step;
  }

  /** Two multiples of the step whose bins both hold `d` are the same. */
  lemma SameBin(d: int, step: int, j: int, k: int)
    requires step > 0
    requires j * step <= d < (j + 1) * step && k * step <= d < (k + 1) * step
    ensures j == k
  {
    if j < k { MulLe(j + 1, k, step); }
    if j > k { MulLe(k + 1, j, step); }
  }

  lemma MulLe(a: int, b: int, c: nat)
    requires a <= b
    ensures a * c <= b * c
  {
    var e: nat := b - a;
    assert b * c == a * c + e * c;
  }

  /** The truncated step leaves the top of the range uncovered: the bins end
      at or below `end`, less than `n` short of it. */
  lemma FixedBinsShortfall(start: int, end: int, n: nat)
    requires n > 0 && start <= end
    ensures start + n * Step(start, end, n) <= end < start + n * Step(start, end, n) + n
  {
  }

  /** The `ByQuantile` bins: from the minimum to the first quantile value
      (labelled "1"), then between consecutive quantile values (labelled
      `i + 1`). `None` when there are no quantile values: `quantiles[0]`
      panics. */
  method QuantileBins(column: string, min: int, qs: seq<real>) returns (r: Option<seq<Interval>>)
    ensures r.None? <==> |qs| == 0
    ensures r.Some? ==> |r.value| == |qs| && IsQuantileBins(r.value, column, min, qs)
  {
    if |qs| == 0 {
      return None;
    }
    var ivs := [Interval(column, min, TruncToI32(qs[0]), "1", 0)];
    var i := 1;
    while i < |qs|
      invariant 1 <= i <= |qs| && |ivs| == i
      invariant IsQuantileBins(ivs, column, min, qs)
    {
      ivs := ivs + [Interval(column, TruncToI32(qs[i - 1]), TruncToI32(qs[i]), NatToString(i + 1), i)];
      i := i + 1;
    }
    return Some(ivs);
  }

  function QuantileBin(column: string, min: int, qs: seq<real>, i: nat): Interval
    requires i < |qs|
  {
    if i == 0 then Interval(column, min, TruncToI32(qs[0]), "1", 0)
    else Interval(column, TruncToI32(qs[i - 1]), TruncToI32(qs[i]), NatToString(i + 1), i)
  }

  predicate IsQuantileBins(ivs: seq<Interval>, column: string, min: int, qs: seq<real>) {
    |ivs| <= |qs| && forall i :: 0 <= i < |ivs| ==> ivs[i] == QuantileBin(column, min, qs, i)
  }

  /** Quantile bins are labelled "1" to "n", all different, and each begins
      where the previous one ends. */
  lemma QuantileBinsShape(ivs: seq<Interval>, column: string, min: int, qs: seq<real>)
    requires IsQuantileBins(ivs, column, min, qs)
    ensures forall i :: 0 <= i < |ivs| ==> ivs[i].category == NatToString(i + 1)
    ensures forall i :: 0 < i < |ivs| ==> ivs[i - 1].end == ivs[i].start
    ensures forall i, j :: 0 <= i < j < |ivs| ==> ivs[i].category != ivs[j].category
  {
    assert NatToString(1) == "1";
    forall i, j | 0 <= i < j < |ivs| ensures ivs[i].category != ivs[j].category {
      if ivs[i].category == ivs[j].category {
        NatToStringInjective(i + 1, j + 1);
      }
    }
  }

  /** When the minimum and the truncated quantile values strictly increase,
      `From` appends every quantile bin in order. */
  lemma QuantileBinsAccepted(ivs: seq<Interval>, column: string, min: int, qs: seq<real>)
    requires |ivs| > 0 && IsQuantileBins(ivs, column, min, qs)
    requires min < TruncToI32(qs[0])
    requires forall i :: 0 < i < |ivs| ==> TruncToI32(qs[i - 1]) < TruncToI32(qs[i])
    ensures AddAll([], ivs) == Some(Renumbered(ivs))
  {
    QuantileBinsShape(ivs, column, min, qs);
    FromChainedAppends(ivs);
  }

  // ---------------------------------------------------------------------
  // calculate: labelling each value
  // ---------------------------------------------------------------------

  /** One `when(start <= v < end).then(label)` arm. */
  datatype Arm = Arm(start: int, end: int, category: string)

  /** The `otherwise` label: 1 for a single bin, 10 for several. */
  function Fallback(n: nat): string {
    if n == 1 then "1" else "10"
  }

  /** The arm an interval contributes. */
  function ArmOf(iv: Interval): Arm {
    Arm(iv.start, iv.end, iv.category)
  }

  /** The `when`/`then` chain, one arm per stored interval, in stored order. */
  method CaseChain(s: seq<Interval>) returns (arms: seq<Arm>, otherwise: string)
    requires |s| > 0
    ensures |arms| == |s| && forall k :: 0 <= k < |s| ==> arms[k] == ArmOf(s[k])
    ensures otherwise == Fallback(|s|)
  {
    if |s| == 1 {
      return [ArmOf(s[0])], "1";
    }
    arms := [ArmOf(s[0]), ArmOf(s[1])];
    var i := 2;
    while i < |s|
      invariant 2 <= i <= |s| && |arms| == i
      invariant forall k :: 0 <= k < i ==> arms[k] == ArmOf(s[k])
    {
      arms := arms + [ArmOf(s[i])];
      i := i + 1;
    }
    otherwise := "10";
  }

  /** A `when`/`then` chain. */
  function Evaluate(arms: seq<Arm>, otherwise: string, v: int): string
  {
    if |arms| == 0 then otherwise
    else if ArmHolds(arms[0], v) then arms[0].category
    else Evaluate(arms[1..], otherwise, v)
  }

  predicate InInterval(iv: Interval, v: int) {
    iv.start <= v < iv.end
  }

  /** The label a value receives from the stored intervals. */
  function Label(s: seq<Interval>, v: int): string {
    Evaluate(seq(|s|, k requires 0 <= k < |s| => ArmOf(s[k])), Fallback(|s|), v)
  }

  predicate ArmHolds(a: Arm, v: int) {
    a.start <= v < a.end
  }

  /** A chain answers with the first arm whose range holds the value ... */
  lemma {:induction false} EvaluateFirstMatch(arms: seq<Arm>, otherwise: string, v: int, k: nat)
    requires k < |arms| && ArmHolds(arms[k], v)
    requires forall j :: 0 <= j < k ==> !ArmHolds(arms[j], v)
    ensures Evaluate(arms, otherwise, v) == arms[k].category
  {
    if k > 0 {
      assert !ArmHolds(arms[0], v);
      assert arms[1..][k - 1] == arms[k];
      forall j | 0 <= j < k - 1 ensures !ArmHolds(arms[1..][j], v) {
        assert arms[1..][j] == arms[j + 1];
      }
      EvaluateFirstMatch(arms[1..], otherwise, v, k - 1);
    }
  }

  /** ... and with the fallback when no arm holds it. */
  lemma {:induction false} EvaluateNoMatch(arms: seq<Arm>, otherwise: string, v: int)
    requires forall j :: 0 <= j < |arms| ==> !ArmHolds(arms[j], v)
    ensures Evaluate(arms, otherwise, v) == otherwise
  {
    if |arms| > 0 {
      assert !ArmHolds(arms[0], v);
      forall j | 0 <= j < |arms| - 1 ensures !ArmHolds(arms[1..][j], v) {
        assert arms[1..][j] == arms[j + 1];
      }
      EvaluateNoMatch(arms[1..], otherwise, v);
    }
  }

  lemma LabelFirstMatch(s: seq<Interval>, v: int, k: nat)
    requires k < |s| && InInterval(s[k], v)
    requires forall j :: 0 <= j < k ==> !InInterval(s[j], v)
    ensures Label(s, v) == s[k].category
  {
    var arms := seq(|s|, k requires 0 <= k < |s| => ArmOf(s[k]));
    EvaluateFirstMatch(arms, Fallback(|s|), v, k);
  }

  lemma LabelNoMatch(s: seq<Interval>, v: int)
    requires forall j :: 0 <= j < |s| ==> !InInterval(s[j], v)
    ensures Label(s, v) == Fallback(|s|)
  {
    var arms := seq(|s|, k requires 0 <= k < |s| => ArmOf(s[k]));
    EvaluateNoMatch(arms, Fallback(|s|), v);
  }

  /** With eleven or more fixed-width bins the fallback "10" is also the
      label of bin 10, and the range maximum (admitted by the closed range
      filter, but never inside a half-open bin) is counted with bin 10. */
  lemma MaximumJoinsBinTen(ivs: seq<Interval>, column: string, start: int, step: int)
    requires |ivs| >= 11 && step > 0 && IsFixedBins(ivs, column, start, step)
    ensures Label(ivs, start + |ivs| * step) == ivs[10].category == "10"
  {
    var v := start + |ivs| * step;
    forall j | 0 <= j < |ivs| ensures !InInterval(ivs[j], v) {
      assert ivs[j] == FixedBin(column, start, step, j);
      StepsBelow(j + 1, |ivs|, step);
    }
    LabelNoMatch(ivs, v);
    assert ivs[10] == FixedBin(column, start, step, 10);
    assert NatToString(10) == "10" by { assert NatToString(1) == "1"; }
  }

  lemma StepsBelow(a: nat, b: nat, step: int)
    requires a <= b && step > 0
    ensures a * step <= b * step
  {
  }

  // ---------------------------------------------------------------------
  // calculate: the rows, the groups and the records
  // ---------------------------------------------------------------------

  /** The values of `column` in the rows that pass the search filter and lie
      in the closed range `[lo, hi]`, in table order (the engine's `filter`). */
  function Selected(table: seq<Row>, p: Pred, column: string, lo: int, hi: int): (vs: seq<int>)
    ensures |vs| <= |table|
    ensures forall k :: 0 <= k < |vs| ==> lo <= vs[k] <= hi
  {
    if |table| == 0 then []
    else
      var rest := Selected(table[..|table| - 1], p, column, lo, hi);
      var row := table[|table| - 1];
      if Passes(row, p, column, lo, hi) then rest + [row.num[column]]
      else rest
  }

  /** A row the filter keeps: it satisfies the search and its value lies in
      the closed range. */
  predicate Passes(row: Row, p: Pred, column: string, lo: int, hi: int) {
    Holds(p, row) && column in row.num && lo <= row.num[column] <= hi
  }

  /** Every passing row's value is selected, and every selected value is
      that of a passing row. */
  lemma {:induction false} SelectedMembers(table: seq<Row>, p: Pred, column: string, lo: int, hi: int)
    ensures forall k :: 0 <= k < |table| && Passes(table[k], p, column, lo, hi) ==>
      table[k].num[column] in Selected(table, p, column, lo, hi)
    ensures forall x :: x in Selected(table, p, column, lo, hi) ==>
      exists k :: 0 <= k < |table| && Passes(table[k], p, column, lo, hi) && table[k].num[column] == x
    decreases |table|
  {
    if |table| > 0 {
      var init := table[..|table| - 1];
      SelectedMembers(init, p, column, lo, hi);
      var vs := Selected(table, p, column, lo, hi);
      var rest := Selected(init, p, column, lo, hi);
      forall k | 0 <= k < |table| && Passes(table[k], p, column, lo, hi)
        ensures table[k].num[column] in vs
      {
        if k < |table| - 1 {
          assert init[k] == table[k];
        }
      }
      forall x | x in vs
        ensures exists k :: 0 <= k < |table| && Passes(table[k], p, column, lo, hi) && table[k].num[column] == x
      {
        if x in rest {
          var k :| 0 <= k < |init| && Passes(init[k], p, column, lo, hi) && init[k].num[column] == x;
          assert table[k] == init[k];
        } else {
          assert Passes(table[|table| - 1], p, column, lo, hi);
        }
      }
    }
  }

  /** The filter keeps table order: selecting from two tables one after the
      other selects from their concatenation. */
  lemma {:induction false} SelectedAppend(a: seq<Row>, b: seq<Row>, p: Pred, column: string, lo: int, hi: int)
    ensures Selected(a + b, p, column, lo, hi) == Selected(a, p, column, lo, hi) + Selected(b, p, column, lo, hi)
    decreases |b|
  {
    if |b| == 0 {
      assert a + b == a;
    } else {
      var init, row := b[..|b| - 1], b[|b| - 1];
      SelectedAppend(a, init, p, column, lo, hi);
      SplitLast(a, b);
      SelectedSnoc(init, row, p, column, lo, hi);
      SelectedSnoc(a + init, row, p, column, lo, hi);
      var last := if Passes(row, p, column, lo, hi) then [row.num[column]] else [];
      AppendAssoc(Selected(a, p, column, lo, hi), Selected(init, p, column, lo, hi), last);
    }
  }

  lemma SplitLast<T>(a: seq<T>, b: seq<T>)
    requires |b| > 0
    ensures b == b[..|b| - 1] + [b[|b| - 1]]
    ensures a + b == (a + b[..|b| - 1]) + [b[|b| - 1]]
  {
  }

  lemma AppendAssoc<T>(x: seq<T>, y: seq<T>, z: seq<T>)
    ensures (x + y) + z == x + (y + z)
  {
  }

  lemma SelectedSnoc(t: seq<Row>, row: Row, p: Pred, column: string, lo: int, hi: int)
    ensures Selected(t + [row], p, column, lo, hi)
      == Selected(t, p, column, lo, hi) + (if Passes(row, p, column, lo, hi) then [row.num[column]] else [])
  {
    assert (t + [row])[..|t|] == t;
  }

  /** The row order of a grouped result: each label once, where it first
      appears (the engine leaves this order unspecified). */
  function DistinctLabels(labels: seq<string>): (r: seq<string>)
    ensures forall x :: x in r <==> x in labels
    ensures forall i, j :: 0 <= i < j < |r| ==> r[i] != r[j]
  {
    if |labels| == 0 then []
    else
      var rest := DistinctLabels(labels[..|labels| - 1]);
      var last := labels[|labels| - 1];
      assert forall x :: x in labels <==> x in labels[..|labels| - 1] || x == last;
      if last in rest then rest else rest + [last]
  }

  /** The values labelled `tag`, in order. */
  function ValuesLabelled(vs: seq<int>, labels: seq<string>, tag: string): (r: seq<int>)
    requires |vs| == |labels|
    ensures |r| <= |vs|
    ensures tag in labels ==> |r| > 0
  {
    if |vs| == 0 then []
    else
      var rest := ValuesLabelled(vs[..|vs| - 1], labels[..|labels| - 1], tag);
      assert tag in labels ==> tag in labels[..|labels| - 1] || tag == labels[|labels| - 1];
      if labels[|labels| - 1] == tag then rest + [vs[|vs| - 1]] else rest
  }

  function SeqMin(vs: seq<int>): (m: int)
    requires |vs| > 0
    ensures m in vs && forall k :: 0 <= k < |vs| ==> m <= vs[k]
  {
    if |vs| == 1 then vs[0]
    else
      var m := SeqMin(vs[..|vs| - 1]);
      if vs[|vs| - 1] < m then vs[|vs| - 1] else m
  }

  function SeqMax(vs: seq<int>): (m: int)
    requires |vs| > 0
    ensures m in vs && forall k :: 0 <= k < |vs| ==> vs[k] <= m
  {
    if |vs| == 1 then vs[0]
    else
      var m := SeqMax(vs[..|vs| - 1]);
      if vs[|vs| - 1] > m then vs[|vs| - 1] else m
  }

  /** The floating-point aggregates of a group (mean, median, relative
      spread), supplied by the engine. */
  datatype Moments = Moments(mean: real, median: real, rsd: real)

  /** One row of the grouped result. */
  datatype GroupRow = GroupRow(category: string, min: int, max: int, count: nat, moments: Moments)

  /** The grouped row of one label. */
  function GroupOf(vs: seq<int>, labels: seq<string>, tag: string, moments: seq<int> -> Moments): (g: GroupRow)
    requires |vs| == |labels| && tag in labels
    ensures g.category == tag && g.count == |ValuesLabelled(vs, labels, tag)| > 0
  {
    var group := ValuesLabelled(vs, labels, tag);
    GroupRow(tag, SeqMin(group), SeqMax(group), |group|, moments(group))
  }

  /** The engine's `group_by(stat_category).agg(...)`. */
  function Grouped(vs: seq<int>, labels: seq<string>, moments: seq<int> -> Moments): (g: seq<GroupRow>)
    requires |vs| == |labels|
    ensures |g| == |DistinctLabels(labels)|
    ensures forall k :: 0 <= k < |g| ==> g[k] == GroupOf(vs, labels, DistinctLabels(labels)[k], moments)
  {
    var ls := DistinctLabels(labels);
    seq(|ls|, k requires 0 <= k < |ls| => GroupOf(vs, labels, ls[k], moments))
  }

  /** The record of one bin. */
  datatype IntervalData = IntervalData(
    column: string, category: string, min: int, max: int, median: int, count: int, mean: real, rsd: real)

  /** What the loop over the grouped rows makes of row `g`: the label lower-
      cased and trimmed, the median cast to `i32`. */
  function RecordOf(column: string, g: GroupRow): IntervalData {
    IntervalData(column, NormalizeLabel(g.category), g.min, g.max, TruncToI32(g.moments.median),
                 g.count, g.moments.mean, g.moments.rsd)
  }

  /** The records of the grouped rows, in the same order. */
  function Records(column: string, groups: seq<GroupRow>): (r: seq<IntervalData>)
    ensures |r| == |groups|
  {
    if |groups| == 0 then [] else Records(column, groups[..|groups| - 1]) + [RecordOf(column, groups[|groups| - 1])]
  }

  lemma {:induction false} RecordsAt(column: string, groups: seq<GroupRow>, k: nat)
    requires k < |groups|
    ensures Records(column, groups)[k] == RecordOf(column, groups[k])
    decreases |groups|
  {
    if k < |groups| - 1 {
      RecordsAt(column, groups[..|groups| - 1], k);
    }
  }

  /** A category has a record exactly when some selected value's label
      normalises to it; bins no value falls into have none. */
  lemma RecordFor(column: string, vs: seq<int>, labels: seq<string>, moments: seq<int> -> Moments, c: string)
    requires |vs| == |labels|
    ensures FirstWithCategory(Records(column, Grouped(vs, labels, moments)), c).Some?
      <==> exists k :: 0 <= k < |labels| && NormalizeLabel(labels[k]) == c
  {
    var groups := Grouped(vs, labels, moments);
    var records := Records(column, groups);
    var ls := DistinctLabels(labels);
    if f :| 0 <= f < |labels| && NormalizeLabel(labels[f]) == c {
      assert labels[f] in ls;
      var j :| 0 <= j < |ls| && ls[j] == labels[f];
      RecordsAt(column, groups, j);
      assert records[j].category == c;
    }
    var r := FirstWithCategory(records, c);
    if r.Some? {
      RecordsAt(column, groups, r.value);
      assert ls[r.value] in labels;
      var k :| 0 <= k < |labels| && labels[k] == ls[r.value];
      assert NormalizeLabel(labels[k]) == c;
    }
  }

  lemma RecordsStep(column: string, groups: seq<GroupRow>, i: nat)
    requires i < |groups|
    ensures Records(column, groups[..i + 1]) == Records(column, groups[..i]) + [RecordOf(column, groups[i])]
  {
    assert groups[..i + 1][..i] == groups[..i];
  }

  method ToRecords(column: string, groups: seq<GroupRow>) returns (records: seq<IntervalData>)
    ensures records == Records(column, groups)
  {
    records := [];
    var i := 0;
    while i < |groups|
      invariant 0 <= i <= |groups|
      invariant records == Records(column, groups[..i])
    {
      RecordsStep(column, groups, i);
      records := records + [RecordOf(column, groups[i])];
      i := i + 1;
    }
    assert groups[..i] == groups;
  }

  // ---------------------------------------------------------------------
  // calculate: back into interval order
  // ---------------------------------------------------------------------

  /** The first record with the given category, if any. */
  function FirstWithCategory(data: seq<IntervalData>, category: string): (r: Option<nat>)
    ensures r.None? <==> forall k :: 0 <= k < |data| ==> data[k].category != category
    ensures r.Some? ==> r.value < |data| && data[r.value].category == category
    ensures r.Some? ==> forall k :: 0 <= k < r.value ==> data[k].category != category
  {
    if |data| == 0 then None
    else if data[0].category == category then Some(0)
    else
      var r := FirstWithCategory(data[1..], category);
      if r.None? then None else Some(r.value + 1)
  }

  /** The categories of the stored intervals. */
  function Categories(s: seq<Interval>): (c: set<string>)
    ensures forall i :: 0 <= i < |s| ==> s[i].category in c
  {
    if |s| == 0 then {} else Categories(s[..|s| - 1]) + {s[|s| - 1].category}
  }

  /** For each stored interval in order, the first record of its category;
      intervals without one contribute nothing, and records whose category
      is no interval's (the fallback's, say) are dropped. */
  function InIntervalOrder(s: seq<Interval>, data: seq<IntervalData>): (r: seq<IntervalData>)
    ensures |r| <= |s|
    ensures forall k :: 0 <= k < |r| ==> r[k] in data && r[k].category in Categories(s)
  {
    if |s| == 0 then []
    else
      var rest := InIntervalOrder(s[..|s| - 1], data);
      var f := FirstWithCategory(data, s[|s| - 1].category);
      if f.Some? then rest + [data[f.value]] else rest
  }

  /** The nested loops with `break` that build `sorted_data`. */
  method Reorder(s: seq<Interval>, data: seq<IntervalData>) returns (sorted: seq<IntervalData>)
    ensures sorted == InIntervalOrder(s, data)
  {
    sorted := [];
    var i := 0;
    while i < |s|
      invariant 0 <= i <= |s|
      invariant sorted == InIntervalOrder(s[..i], data)
    {
      OrderStep(s, data, i);
      var j := 0;
      while j < |data|
        invariant 0 <= j <= |data| && sorted == InIntervalOrder(s[..i], data)
        invariant forall k :: 0 <= k < j ==> data[k].category != s[i].category
      {
        if s[i].category == data[j].category {
          assert FirstWithCategory(data, s[i].category) == Some(j);
          sorted := sorted + [data[j]];
          break;
        }
        j := j + 1;
      }
      i := i + 1;
    }
    assert s[..i] == s;
  }

  lemma OrderStep(s: seq<Interval>, data: seq<IntervalData>, i: nat)
    requires i < |s|
    ensures var f := FirstWithCategory(data, s[i].category);
      InIntervalOrder(s[..i + 1], data) == InIntervalOrder(s[..i], data) + (if f.Some? then [data[f.value]] else [])
  {
    assert s[..i + 1][..i] == s[..i];
  }

  /** Distinct categories: each record is the only one of its category. */
  predicate DistinctCategories(data: seq<IntervalData>) {
    forall i, j :: 0 <= i < j < |data| ==> data[i].category != data[j].category
  }

  /** With distinct categories the order the engine returns its groups in
      does not matter: any permutation gives the same chart records. */
  lemma {:induction false} ReorderIgnoresGroupOrder(s: seq<Interval>, d1: seq<IntervalData>, d2: seq<IntervalData>)
    requires DistinctCategories(d1) && multiset(d1) == multiset(d2)
    ensures InIntervalOrder(s, d1) == InIntervalOrder(s, d2)
  {
    if |s| > 0 {
      ReorderIgnoresGroupOrder(s[..|s| - 1], d1, d2);
      var c := s[|s| - 1].category;
      var f1, f2 := FirstWithCategory(d1, c), FirstWithCategory(d2, c);
      if f1.Some? {
        assert d1[f1.value] in multiset(d2);
        assert exists k :: 0 <= k < |d2| && d2[k] == d1[f1.value];
      }
      if f2.Some? {
        assert d2[f2.value] in multiset(d1);
        var k :| 0 <= k < |d1| && d1[k] == d2[f2.value];
        assert f1.Some?;
        if k != f1.value {
          assert d1[k].category == d1[f1.value].category;
        }
        assert d1[f1.value] == d2[f2.value];
      }
    }
  }

  /** A bin whose category has a record contributes exactly one: when every
      bin has one, the chart has one record per bin, in bin order. */
  lemma {:induction false} EveryBinReported(s: seq<Interval>, data: seq<IntervalData>)
    requires forall i :: 0 <= i < |s| ==> FirstWithCategory(data, s[i].category).Some?
    ensures |InIntervalOrder(s, data)| == |s|
    ensures forall i :: 0 <= i < |s| ==> InIntervalOrder(s, data)[i].category == s[i].category
  {
    if |s| > 0 {
      var init := s[..|s| - 1];
      assert forall i :: 0 <= i < |init| ==> init[i] == s[i];
      EveryBinReported(init, data);
      var rest := InIntervalOrder(init, data);
      var f := FirstWithCategory(data, s[|s| - 1].category);
      assert f.Some?;
      var r := rest + [data[f.value]];
      assert InIntervalOrder(s, data) == r;
      forall i | 0 <= i < |s|
        ensures r[i].category == s[i].category
      {
        if i < |init| {
          assert r[i] == rest[i];
        }
      }
    }
  }

  // ---------------------------------------------------------------------
  // calculate and data_to_bins
  // ---------------------------------------------------------------------

  /** The chart response. */
  datatype ChartData = ChartData(
    axisLabel: string, dataLabel: string, axisValues: seq<int>,
    min: int, max: int, median: int, count: int, mean: real, rsd: real,
    data: seq<IntervalData>)

  /** The labels of the selected values. */
  function Labels(s: seq<Interval>, vs: seq<int>): (r: seq<string>)
    ensures |r| == |vs| && forall k :: 0 <= k < |vs| ==> r[k] == Label(s, vs[k])
  {
    seq(|vs|, k requires 0 <= k < |vs| => Label(s, vs[k]))
  }

  /** The chart `calculate` produces for a non-empty interval set. */
  function ChartOf(column: string, s: seq<Interval>, p: Pred, table: seq<Row>, moments: seq<int> -> Moments): ChartData
    requires |s| > 0
  {
    var vs := Selected(table, p, column, s[MinStartIndex(s)].start, s[MaxEndIndex(s)].end);
    var groups := Grouped(vs, Labels(s, vs), moments);
    var records := Records(column, groups);
    ChartData(column, "stat_category", Boundaries(s), 0, 0, 0, |groups|, 0.0, 0.0, InIntervalOrder(s, records))
  }

  /** The row filter of a search: the sentinel when it has no criteria,
      otherwise one that a row passes exactly when it meets every present
      criterion. */
  ghost predicate SearchFilter(search: SearchPayload, today: int, p: Pred) {
    && (NoClauses(search) ==> p == MatchAll)
    && (!NoClauses(search) ==> forall row :: Holds(p, row) <==> Matches(search, today, row))
  }

  /** `calculate`: an error for an empty set; otherwise the rows that pass
      the search filter with the column in `[min start, max end]`, labelled,
      grouped and reported in interval order. */
  method Calculate(column: string, store: SortedIntervals, search: SearchPayload, today: int,
                   table: seq<Row>, moments: seq<int> -> Moments)
    returns (r: Result<ChartData, string>)
    ensures r.Err? <==> store.intervals == []
    ensures r.Ok? ==> exists p :: SearchFilter(search, today, p) && r.value == ChartOf(column, store.intervals, p, table, moments)
  {
    if store.IsEmpty() {
      return Err("Intervals are empty");
    }
    var s := store.intervals;
    var min := store.Min().value.start;
    var max := store.Max().value.end;
    var p := ToPredicate(search, today);
    var vs := Selected(table, p, column, min, max);
    var arms, otherwise := CaseChain(s);
    assert arms == seq(|s|, k requires 0 <= k < |s| => ArmOf(s[k]));
    var labels := seq(|vs|, k requires 0 <= k < |vs| => Evaluate(arms, otherwise, vs[k]));
    assert labels == Labels(s, vs);
    var groups := Grouped(vs, labels, moments);
    var records := ToRecords(column, groups);
    var sorted := Reorder(s, records);
    r := Ok(ChartData(column, "stat_category", store.Values(), 0, 0, 0, |groups|, 0.0, 0.0, sorted));
    assert r.value == ChartOf(column, s, p, table, moments);
    assert SearchFilter(search, today, p);
  }

  /** The per-column statistics `get_statistic_data` returns. */
  datatype Statistics = Statistics(count: nat, min: int, max: int, mean: real, median: real, rsd: real, quantiles: seq<real>)

  datatype DistributionType = ByInterval | ByQuantile

  /** How `data_to_bins` ends: a chart, an error message, or a panic (a bin
      `From` rejects). */
  datatype BinsOutcome = Chart(chart: ChartData) | Failure(message: string) | Panic

  /** The bins `data_to_bins` builds, `None` where building them panics. */
  function BinsFor(column: string, lo: int, hi: int, dist: DistributionType, n: nat, stats: Statistics): Option<seq<Interval>>
    requires n > 0
  {
    if dist == ByInterval then Some(seq(n, i requires 0 <= i < n => FixedBin(column, lo, Step(lo, hi, n), i)))
    else if |stats.quantiles| == 0 then None
    else Some(seq(|stats.quantiles|, i requires 0 <= i < |stats.quantiles| => QuantileBin(column, stats.min, stats.quantiles, i)))
  }

  /** The `match` on the distribution type in `data_to_bins`: fixed-width
      bins, or the quantile bins (none when the quantile list is empty). */
  method BuildBins(column: string, lo: int, hi: int, dist: DistributionType, n: nat, stats: Statistics)
    returns (bins: Option<seq<Interval>>)
    requires n > 0
    ensures bins == BinsFor(column, lo, hi, dist, n, stats)
  {
    if dist == ByInterval {
      var ivs := FixedBins(column, lo, hi, n);
      assert ivs == BinsFor(column, lo, hi, dist, n, stats).value;
      bins := Some(ivs);
    } else {
      bins := QuantileBins(column, stats.min, stats.quantiles);
      if bins.Some? {
        assert bins.value == BinsFor(column, lo, hi, dist, n, stats).value;
      }
    }
  }

  /** The overall statistics written over the chart. */
  function WithOverall(c: ChartData, stats: Statistics): (r: ChartData)
    requires stats.count < 0x1_0000_0000
    ensures r.axisLabel == c.axisLabel && r.dataLabel == c.dataLabel
    ensures r.axisValues == c.axisValues && r.data == c.data
    ensures r.min == stats.min && r.max == stats.max && r.mean == stats.mean && r.rsd == stats.rsd
    ensures I32Min <= r.count <= I32Max && r.count % 0x1_0000_0000 == stats.count
    ensures stats.count <= I32Max ==> r.count == stats.count
    ensures I32Min <= r.median <= I32Max
  {
    c.(count := WrapU32ToI32(stats.count), mean := stats.mean, rsd := stats.rsd,
       median := TruncToI32(stats.median), max := stats.max, min := stats.min)
  }

  /** The bins always number `n`: the quantile list holds one value per
      requested bin. Fixed bins are labelled "0".."n-1", quantile bins
      "1".."n". */
  lemma BinsForShape(column: string, lo: int, hi: int, dist: DistributionType, n: nat, stats: Statistics)
    requires n > 0 && (dist == ByQuantile ==> |stats.quantiles| == n)
    ensures BinsFor(column, lo, hi, dist, n, stats).Some?
    ensures |BinsFor(column, lo, hi, dist, n, stats).value| == n
    ensures dist == ByInterval ==>
      forall i :: 0 <= i < n ==> BinsFor(column, lo, hi, dist, n, stats).value[i].category == NatToString(i)
    ensures dist == ByQuantile ==>
      forall i :: 0 <= i < n ==> BinsFor(column, lo, hi, dist, n, stats).value[i].category == NatToString(i + 1)
  {
    var b := BinsFor(column, lo, hi, dist, n, stats).value;
    if dist == ByInterval {
      FixedBinsCategories(b, column, lo, Step(lo, hi, n));
    } else {
      QuantileBinsShape(b, column, stats.min, stats.quantiles);
    }
  }

  /** `data_to_bins`: fewer than two bins is an error; otherwise the `n` bins
      over the trimmed (`all`) or original range, the interval set built
      from them, and the chart of that set, over the rows the search
      selects, with the overall statistics written over it. The statistics
      come from the same request with `n` bins, so their quantile list has
      `n` entries. */
  method DataToBins(column: string, search: SearchPayload, today: int, all: bool, dist: DistributionType, n: nat,
                    summary: ColumnSummary, stats: Statistics, table: seq<Row>, moments: seq<int> -> Moments)
    returns (r: BinsOutcome)
    requires summary.count < 0x1_0000_0000 && stats.count < 0x1_0000_0000
    requires dist == ByQuantile ==> |stats.quantiles| == n
    ensures n < 2 ==> r == Failure("Number of bins must be greater than 2")
    ensures n >= 2 ==>
      var range := BinRange(CleanData(column, summary), all);
      var bins := BinsFor(column, range.0, range.1, dist, n, stats);
      && bins.Some? && |bins.value| == n
      && (dist == ByInterval ==> forall i :: 0 <= i < n ==> bins.value[i].category == NatToString(i))
      && (dist == ByQuantile ==> forall i :: 0 <= i < n ==> bins.value[i].category == NatToString(i + 1))
      && (r.Panic? <==> AddAll([], bins.value).None?)
      && (r.Chart? ==>
            && AddAll([], bins.value).Some? && |AddAll([], bins.value).value| > 0
            && exists p :: SearchFilter(search, today, p)
                 && r.chart == WithOverall(ChartOf(column, AddAll([], bins.value).value, p, table, moments), stats))
      && !r.Failure?
  {
    if n < 2 {
      return Failure("Number of bins must be greater than 2");
    }
    var si := CleanData(column, summary);
    var start := if all then si.start else si.origStart;
    var end := if all then si.end else si.origEnd;
    var bins := BuildBins(column, start, end, dist, n, stats);
    BinsForShape(column, start, end, dist, n, stats);
    r := ChartOfBins(column, bins.value, search, today, stats, table, moments);
  }

  /** The tail of `data_to_bins`: `From` over the bins (a panic when it
      rejects one), `calculate` over the set and the search, and the overall
      statistics written over the chart. `calculate` cannot fail on a
      non-empty set. */
  method ChartOfBins(column: string, intervals: seq<Interval>, search: SearchPayload, today: int, stats: Statistics,
                     table: seq<Row>, moments: seq<int> -> Moments)
    returns (r: BinsOutcome)
    requires |intervals| > 0 && stats.count < 0x1_0000_0000
    ensures r.Panic? <==> AddAll([], intervals).None?
    ensures r.Chart? ==>
      && AddAll([], intervals).Some? && |AddAll([], intervals).value| > 0
      && exists p :: SearchFilter(search, today, p)
           && r.chart == WithOverall(ChartOf(column, AddAll([], intervals).value, p, table, moments), stats)
    ensures !r.Failure?
  {
    var store := FromVec(intervals);
    if store.None? {
      return Panic;
    }
    AddAllLength([], intervals);
    var chart := Calculate(column, store.value, search, today, table, moments);
    if chart.Err? {
      return Failure("Error calculating data");
    }
    r := Chart(WithOverall(chart.value, stats));
  }
}
