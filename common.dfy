/** Small shared vocabulary: results, Rust's numeric conversions, decimal
    rendering, the `str` helpers the services use, and the stable sort that
    stands for `Vec::sort_by`. */
module Common {

  datatype Option<T> = None | Some(value: T)

  datatype Result<T, E> = Ok(value: T) | Err(error: E)

  // ---------------------------------------------------------------------
  // Rust numeric conversions
  // ---------------------------------------------------------------------

  const I32Min: int := -0x8000_0000
  const I32Max: int := 0x7FFF_FFFF

  /** `x as i32` for an `f64` that is not NaN: truncation toward zero,
      saturating at the bounds of `i32`. */
  function TruncToI32(x: real): (r: int)
    ensures I32Min <= r <= I32Max
    ensures I32Min as real <= x <= I32Max as real ==> -1.0 < x - r as real < 1.0
    ensures I32Min as real <= x <= I32Max as real ==> (x >= 0.0 ==> 0.0 <= x - r as real) && (x <= 0.0 ==> x - r as real <= 0.0)
    ensures x < I32Min as real ==> r == I32Min
    ensures x > I32Max as real ==> r == I32Max
  {
    var t := if x >= 0.0 then x.Floor else -((-x).Floor);
    if t < I32Min then I32Min else if t > I32Max then I32Max else t
  }

  lemma TruncToI32Monotone(x: real, y: real)
    requires x <= y
    ensures TruncToI32(x) <= TruncToI32(y)
  {
    if x >= 0.0 {
      assert x.Floor <= y.Floor;
    } else if y <= 0.0 {
      assert (-y).Floor <= (-x).Floor;
    }
  }

  lemma TruncToI32OfInt(n: int)
    requires I32Min <= n <= I32Max
    ensures TruncToI32(n as real) == n
  {
    if n < 0 {
      assert (-(n as real)).Floor == -n;
    }
  }

  /** `n as i32` for a `u32`: the bit pattern is reinterpreted, so values
      from 2^31 on wrap to negative numbers. */
  function WrapU32ToI32(n: nat): (r: int)
    requires n < 0x1_0000_0000
    ensures I32Min <= r <= I32Max
    ensures r % 0x1_0000_0000 == n
    ensures n <= I32Max ==> r == n
  {
    if n <= I32Max then n else n - 0x1_0000_0000
  }

  /** Rust's `/` on signed integers: the quotient is truncated toward zero
      (Dafny's own `/` is Euclidean). */
  function RustDiv(a: int, b: int): (q: int)
    requires b > 0
    ensures a >= 0 ==> q * b <= a < q * b + b
    ensures a < 0 ==> q * b - b < a <= q * b
  {
    if a >= 0 then a / b else -((-a) / b)
  }

  // ---------------------------------------------------------------------
  // Decimal rendering (`to_string` of an unsigned integer)
  // ---------------------------------------------------------------------

  predicate IsDigit(c: char) { '0' <= c <= '9' }

  function DigitChar(d: nat): (c: char)
    requires d < 10
    ensures IsDigit(c) && c as int - '0' as int == d
  {
    (d + '0' as int) as char
  }

  /** The decimal digits of `n`, most significant first, without leading zeros. */
  function NatToString(n: nat): (s: string)
    ensures 1 <= |s|
    ensures forall i :: 0 <= i < |s| ==> IsDigit(s[i])
    ensures s[0] == '0' ==> n == 0
    ensures n < 10 <==> |s| == 1
    decreases n
  {
    if n < 10 then [DigitChar(n)] else NatToString(n / 10) + [DigitChar(n % 10)]
  }

  /** Distinct numbers render differently, so ordinal labels are distinct. */
  lemma {:induction false} NatToStringInjective(a: nat, b: nat)
    requires NatToString(a) == NatToString(b)
    ensures a == b
    decreases a
  {
    if a >= 10 && b >= 10 {
      var sa, sb := NatToString(a / 10), NatToString(b / 10);
      assert NatToString(a) == sa + [DigitChar(a % 10)];
      assert NatToString(b) == sb + [DigitChar(b % 10)];
      assert |sa| == |sb|;
      assert sa == NatToString(a)[..|sa|] == NatToString(b)[..|sb|] == sb;
      assert DigitChar(a % 10) == NatToString(a)[|sa|] == NatToString(b)[|sb|] == DigitChar(b % 10);
      NatToStringInjective(a / 10, b / 10);
    } else if a < 10 && b < 10 {
      assert DigitChar(a) == NatToString(a)[0];
    }
  }

  // ---------------------------------------------------------------------
  // Text helpers (`str::to_lowercase`, `str::trim`, `starts_with`, ...)
  // ---------------------------------------------------------------------

  /** Rust's `char::is_whitespace`: the Unicode White_Space property. */
  predicate IsWhitespace(c: char) {
    ('\U{9}' <= c <= '\U{D}') || c == ' ' || c == '\U{85}' || c == '\U{A0}'
    || c == '\U{1680}' || ('\U{2000}' <= c <= '\U{200A}') || c == '\U{2028}'
    || c == '\U{2029}' || c == '\U{202F}' || c == '\U{205F}' || c == '\U{3000}'
  }

  /** `str::trim_start`. */
  function TrimStart(s: string): (r: string)
    ensures |r| <= |s| && r == s[|s| - |r|..]
    ensures |r| > 0 ==> !IsWhitespace(r[0])
    ensures (|s| == 0 || !IsWhitespace(s[0])) ==> r == s
  {
    if |s| > 0 && IsWhitespace(s[0]) then TrimStart(s[1..]) else s
  }

  /** `str::trim_end`. */
  function TrimEnd(s: string): (r: string)
    ensures |r| <= |s| && r == s[..|r|]
    ensures |r| > 0 ==> !IsWhitespace(r[|r| - 1])
    ensures (|s| == 0 || !IsWhitespace(s[|s| - 1])) ==> r == s
  {
    if |s| > 0 && IsWhitespace(s[|s| - 1]) then TrimEnd(s[..|s| - 1]) else s
  }

  function LowerChar(c: char): char {
    if 'A' <= c <= 'Z' then (c as int - 'A' as int + 'a' as int) as char else c
  }

  /** `str::to_lowercase`, restricted to the ASCII letters. */
  function AsciiLower(s: string): (r: string)
    ensures |r| == |s|
    ensures forall i :: 0 <= i < |s| ==> r[i] == LowerChar(s[i])
  {
    seq(|s|, i requires 0 <= i < |s| => LowerChar(s[i]))
  }

  /** The normalisation applied to a category read back from a group: lower
      case, then `str::trim` (leading, then trailing whitespace removed). */
  function NormalizeLabel(s: string): string {
    TrimEnd(TrimStart(AsciiLower(s)))
  }

  /** Decimal labels are left alone by the normalisation. */
  lemma DecimalLabelNormal(n: nat)
    ensures NormalizeLabel(NatToString(n)) == NatToString(n)
  {
    var s := NatToString(n);
    var l := AsciiLower(s);
    forall i | 0 <= i < |s| ensures l[i] == s[i] {
      assert IsDigit(s[i]);
    }
    assert l == s;
    assert IsDigit(s[0]) && IsDigit(s[|s| - 1]);
    assert !IsWhitespace(s[0]) && !IsWhitespace(s[|s| - 1]);
  }

  predicate StartsWith(s: string, p: string) {
    |p| <= |s| && s[..|p|] == p
  }

  predicate EndsWith(s: string, p: string) {
    |p| <= |s| && s[|s| - |p|..] == p
  }

  predicate OccursAt(s: string, p: string, i: int) {
    0 <= i <= |s| - |p| && s[i..i + |p|] == p
  }

  predicate ContainsSubstring(s: string, p: string) {
    exists i :: 0 <= i <= |s| - |p| && OccursAt(s, p, i)
  }

  /** `str::replace(c, "")`: every occurrence of `c` removed. */
  function RemoveChar(s: string, c: char): (r: string)
    ensures c !in r
    ensures forall x :: x != c ==> (x in r <==> x in s)
  {
    if |s| == 0 then ""
    else if s[0] == c then RemoveChar(s[1..], c)
    else [s[0]] + RemoveChar(s[1..], c)
  }

  // ---------------------------------------------------------------------
  // Stable sort (`Vec::sort_by`), as insertion sort on sequences
  // ---------------------------------------------------------------------

  /** `leq(a, b)` means the comparator does NOT answer `Greater` for (a, b). */
  ghost predicate TotalPreorder<T(!new)>(leq: (T, T) -> bool) {
    (forall a, b :: leq(a, b) || leq(b, a))
    && (forall a, b, c :: leq(a, b) && leq(b, c) ==> leq(a, c))
  }

  ghost predicate SortedBy<T>(s: seq<T>, leq: (T, T) -> bool) {
    forall i, j :: 0 <= i < j < |s| ==> leq(s[i], s[j])
  }

  /** Insert `x` after every element it does not precede (the stable position). */
  function InsertBy<T>(s: seq<T>, x: T, leq: (T, T) -> bool): (r: seq<T>)
    ensures |r| == |s| + 1
    ensures multiset(r) == multiset(s) + multiset{x}
  {
    if |s| == 0 then [x]
    else if leq(s[|s| - 1], x) then s + [x]
    else
      assert s == s[..|s| - 1] + [s[|s| - 1]];
      InsertBy(s[..|s| - 1], x, leq) + [s[|s| - 1]]
  }

  function SortBy<T>(s: seq<T>, leq: (T, T) -> bool): (r: seq<T>)
    ensures |r| == |s|
    ensures multiset(r) == multiset(s)
  {
    if |s| == 0 then []
    else
      assert s == s[..|s| - 1] + [s[|s| - 1]];
      InsertBy(SortBy(s[..|s| - 1], leq), s[|s| - 1], leq)
  }

  lemma {:induction false} InsertBySorted<T(!new)>(s: seq<T>, x: T, leq: (T, T) -> bool)
    requires TotalPreorder(leq) && SortedBy(s, leq)
    ensures SortedBy(InsertBy(s, x, leq), leq)
  {
    if |s| > 0 && !leq(s[|s| - 1], x) {
      var init := s[..|s| - 1];
      InsertBySorted(init, x, leq);
      var r := InsertBy(init, x, leq);
      assert leq(x, s[|s| - 1]);
      assert forall i :: 0 <= i < |r| ==> leq(r[i], s[|s| - 1]) by {
        forall i | 0 <= i < |r| ensures leq(r[i], s[|s| - 1]) {
          assert r[i] in multiset(r);
          assert r[i] in multiset(init) + multiset{x};
          if r[i] in multiset(init) {
            assert r[i] in init;
            var k :| 0 <= k < |init| && init[k] == r[i];
            assert leq(s[k], s[|s| - 1]);
          }
        }
      }
    }
  }

  /** With a total preorder the result of the stable sort is sorted. */
  lemma {:induction false} SortBySorted<T(!new)>(s: seq<T>, leq: (T, T) -> bool)
    requires TotalPreorder(leq)
    ensures SortedBy(SortBy(s, leq), leq)
  {
    if |s| > 0 {
      SortBySorted(s[..|s| - 1], leq);
      InsertBySorted(SortBy(s[..|s| - 1], leq), s[|s| - 1], leq);
    }
  }

  /** A sequence that is already sorted comes back unchanged. */
  lemma {:induction false} SortByIdentity<T>(s: seq<T>, leq: (T, T) -> bool)
    requires SortedBy(s, leq)
    ensures SortBy(s, leq) == s
  {
    if |s| > 0 {
      var init := s[..|s| - 1];
      assert SortedBy(init, leq);
      SortByIdentity(init, leq);
      if |init| > 0 {
        assert leq(init[|init| - 1], s[|s| - 1]);
      }
      assert s == init + [s[|s| - 1]];
    }
  }
}
