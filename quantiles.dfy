/** The quantile specification generator: `n` evenly spaced fractions
    `1/n, 2/n, ..., n/n`, each with a `qNN` alias naming its percentage. */
module Quantiles {
  import opened Common

  /** One requested quantile; `value` is filled in by the dataset engine. */
  datatype Quantile = Quantile(column: string, quantile: real, value: real, bin: nat, alias: string)

  /** `(100 * bin / n).round()`: the nearest whole percentage, halves
      rounded up (the value is never negative). */
  function Percent(bin: nat, n: nat): (p: nat)
    requires n > 0
    ensures (p as real) - 0.5 <= 100.0 * (bin as real) / (n as real) < (p as real) + 0.5
  {
    var p := (200 * bin + n) / (2 * n);
    assert p * (2 * n) <= 200 * bin + n < (p + 1) * (2 * n);
    PercentBounds(bin, n, p);
    p
  }

  lemma PercentBounds(bin: nat, n: nat, p: nat)
    requires n > 0 && p * (2 * n) <= 200 * bin + n < (p + 1) * (2 * n)
    ensures (p as real) - 0.5 <= 100.0 * (bin as real) / (n as real) < (p as real) + 0.5
  {
    var c := n as real;
    var a := 100.0 * (bin as real);
    assert (2 * p * n - n) as real <= (200 * bin) as real;
    assert (200 * bin) as real < (2 * p * n + n) as real;
    assert ((p as real) - 0.5) * c * 2.0 == (2 * p * n - n) as real;
    assert ((p as real) + 0.5) * c * 2.0 == (2 * p * n + n) as real;
    assert a * 2.0 == (200 * bin) as real;
    ScaleBelow((p as real) - 0.5, a, c);
    ScaleAbove(a, (p as real) + 0.5, c);
  }

  /** Dividing by a positive number keeps the order. */
  lemma ScaleBelow(d: real, a: real, c: real)
    requires c > 0.0 && d * c * 2.0 <= a * 2.0
    ensures d <= a / c
  {
    var x := a / c;
    assert x * c == a;
    if d > x {
      assert (d - x) * c > 0.0;
    }
  }

  lemma ScaleAbove(a: real, d: real, c: real)
    requires c > 0.0 && a * 2.0 < d * c * 2.0
    ensures a / c < d
  {
    var x := a / c;
    assert x * c == a;
    if x >= d {
      assert false;
    }
  }

  lemma DivStrictMonotone(a: real, b: real, c: real)
    requires a < b && c > 0.0
    ensures a / c < b / c
  {
    ScaleAbove(a, b / c, c);
  }

  /** The alias of a bin: `q` and the percentage in decimal. */
  function Alias(bin: nat, n: nat): string
    requires n > 0
  {
    "q" + NatToString(Percent(bin, n))
  }

  /** The record the loop pushes for `bin` (from 1 to `n`). */
  function QuantileFor(column: string, bin: nat, n: nat): Quantile
    requires n > 0
  {
    Quantile(column, (bin as real) / (n as real), 0.0, bin, Alias(bin, n))
  }

  /** The comparator of the final `sort_by`: by fraction. */
  function ByFraction(): (Quantile, Quantile) -> bool {
    (a: Quantile, b: Quantile) => a.quantile <= b.quantile
  }

  /** `generate_quantiles`: the loop over `1..=n`, then the stable sort by
      fraction, which finds the list already in order. */
  method GenerateQuantiles(column: string, n: nat) returns (qs: seq<Quantile>)
    ensures n < 1 ==> qs == []
    ensures |qs| == n
    ensures forall k :: 0 <= k < |qs| ==> qs[k] == QuantileFor(column, k + 1, n)
  {
    if n < 1 {
      return [];
    }
    qs := [];
    var bin := 1;
    while bin <= n
      invariant 1 <= bin <= n + 1
      invariant |qs| == bin - 1
      invariant forall k :: 0 <= k < |qs| ==> qs[k] == QuantileFor(column, k + 1, n)
    {
      qs := qs + [QuantileFor(column, bin, n)];
      bin := bin + 1;
    }
    FractionsIncrease(column, n, qs);
    SortByIdentity(qs, ByFraction());
    qs := SortBy(qs, ByFraction());
  }

  /** The loop produces strictly increasing fractions, so the sort has
      nothing to do. */
  lemma FractionsIncrease(column: string, n: nat, qs: seq<Quantile>)
    requires n > 0
    requires forall k :: 0 <= k < |qs| ==> qs[k] == QuantileFor(column, k + 1, n)
    ensures forall i, j :: 0 <= i < j < |qs| ==> qs[i].quantile < qs[j].quantile
    ensures SortedBy(qs, ByFraction())
  {
    forall i, j | 0 <= i < j < |qs| ensures qs[i].quantile < qs[j].quantile {
      DivStrictMonotone((i + 1) as real, (j + 1) as real, n as real);
    }
  }

  /** Element `k` has bin `k + 1` and the fraction `(k + 1) / n`; the last
      fraction is exactly 1; every fraction lies in (0, 1]. */
  lemma QuantileShape(column: string, n: nat, k: nat)
    requires k < n
    ensures QuantileFor(column, k + 1, n).bin == k + 1
    ensures 0.0 < QuantileFor(column, k + 1, n).quantile <= 1.0
    ensures k == n - 1 ==> QuantileFor(column, k + 1, n).quantile == 1.0
    ensures k == n - 1 ==> QuantileFor(column, k + 1, n).alias == "q100"
    ensures QuantileFor(column, k + 1, n).value == 0.0 && QuantileFor(column, k + 1, n).column == column
  {
    FractionInUnit(k + 1, n);
    if k == n - 1 {
      FullPercent(n);
    }
  }

  /** `bin / n` lies in (0, 1], and is 1 for the last bin. */
  lemma FractionInUnit(bin: nat, n: nat)
    requires 0 < bin <= n
    ensures 0.0 < (bin as real) / (n as real) <= 1.0
    ensures bin == n ==> (bin as real) / (n as real) == 1.0
  {
    var c := n as real;
    DivStrictMonotone(0.0, bin as real, c);
    assert c / c == 1.0;
    if bin < n {
      DivStrictMonotone(bin as real, c, c);
    }
  }

  lemma Hundred()
    ensures NatToString(100) == "100"
  {
    assert NatToString(10) == NatToString(1) + [DigitChar(0)];
  }

  /** All of the column: the percentage is 100. */
  lemma FullPercent(n: nat)
    requires n > 0
    ensures Percent(n, n) == 100 && Alias(n, n) == "q100"
  {
    var c := n as real;
    assert 100.0 * c / c == 100.0;
    Hundred();
  }

  /** Aliases are distinct as long as the percentages are. */
  lemma AliasInjective(a: nat, b: nat, n: nat)
    requires n > 0 && Alias(a, n) == Alias(b, n)
    ensures Percent(a, n) == Percent(b, n)
  {
    assert Alias(a, n)[1..] == NatToString(Percent(a, n));
    assert Alias(b, n)[1..] == NatToString(Percent(b, n));
    NatToStringInjective(Percent(a, n), Percent(b, n));
  }

  /** The aliases the repository's quantile test expects for five and for
      seven bins. */
  lemma TestAliases()
    ensures Alias(1, 5) == "q20" && Alias(5, 5) == "q100"
    ensures Alias(1, 7) == "q14" && Alias(2, 7) == "q29" && Alias(3, 7) == "q43" && Alias(7, 7) == "q100"
  {
    assert Percent(1, 5) == 20 && Percent(5, 5) == 100;
    assert Percent(1, 7) == 14 && Percent(2, 7) == 29 && Percent(3, 7) == 43 && Percent(7, 7) == 100;
    assert NatToString(20) == "20" by { assert NatToString(2) == "2"; }
    assert NatToString(14) == "14" by { assert NatToString(1) == "1"; }
    assert NatToString(29) == "29" by { assert NatToString(2) == "2"; }
    assert NatToString(43) == "43" by { assert NatToString(4) == "4"; }
    assert NatToString(100) == "100" by {
      assert NatToString(10) == NatToString(1) + [DigitChar(0)];
    }
  }
}
