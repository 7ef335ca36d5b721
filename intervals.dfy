/** The interval set behind the distribution charts: a vector of labelled
    half-open ranges `[start, end)` with a placement rule for new members.

    The placement rule compares a new interval only with its nearest lower and
    upper neighbours, trusts the stored `index` fields as positions and does
    not renumber after a front insertion, so no global "sorted and pairwise
    disjoint" invariant is kept. The model states the rule branch by branch
    (`Place`, `Apply`), proves what it does guarantee (`FittingInsertKeepsChain`)
    and exhibits where it falls short (the scenario lemmas at the end). */
module Intervals {
  import opened Common

  /** One labelled range. `index` is meant to be the position in the set. */
  datatype Interval = Interval(column: string, start: int, end: int, category: string, index: nat)

  /** Trimmed and original bounds of one column under one filter. */
  datatype StatInterval = StatInterval(
    column: string, origStart: int, origEnd: int, rsd: real, count: int, start: int, end: int)

  // ---------------------------------------------------------------------
  // The element choices made by the iterator adaptors
  // ---------------------------------------------------------------------

  /** `iter().min_by(start)`: a smallest start; of equal ones, the first. */
  function MinStartIndex(s: seq<Interval>): (k: nat)
    requires |s| > 0
    ensures k < |s|
    ensures forall j :: 0 <= j < |s| ==> s[k].start <= s[j].start
    ensures forall j :: 0 <= j < k ==> s[j].start > s[k].start
  {
    if |s| == 1 then 0
    else
      var k := MinStartIndex(s[..|s| - 1]);
      if s[|s| - 1].start < s[k].start then |s| - 1 else k
  }

  /** `iter().max_by(end)`: a largest end; of equal ones, the last. */
  function MaxEndIndex(s: seq<Interval>): (k: nat)
    requires |s| > 0
    ensures k < |s|
    ensures forall j :: 0 <= j < |s| ==> s[j].end <= s[k].end
    ensures forall j :: k < j < |s| ==> s[j].end < s[k].end
  {
    if |s| == 1 then 0
    else
      var k := MaxEndIndex(s[..|s| - 1]);
      if s[|s| - 1].end >= s[k].end then |s| - 1 else k
  }

  /** `filter(end <= x).max_by(end)`: the lower neighbour of a new interval
      starting at `x`. */
  function LowerNeighbour(s: seq<Interval>, x: int): (r: Option<nat>)
    ensures r.None? <==> forall j :: 0 <= j < |s| ==> s[j].end > x
    ensures r.Some? ==> r.value < |s| && s[r.value].end <= x
    ensures r.Some? ==> forall j :: 0 <= j < |s| && s[j].end <= x ==> s[j].end <= s[r.value].end
    ensures r.Some? ==> forall j :: r.value < j < |s| && s[j].end <= x ==> s[j].end < s[r.value].end
  {
    if |s| == 0 then None
    else
      var r := LowerNeighbour(s[..|s| - 1], x);
      if s[|s| - 1].end <= x && (r.None? || s[|s| - 1].end >= s[r.value].end) then Some(|s| - 1)
      else r
  }

  /** `filter(start >= y).min_by(start)`: the upper neighbour of a new
      interval ending at `y`. */
  function UpperNeighbour(s: seq<Interval>, y: int): (r: Option<nat>)
    ensures r.None? <==> forall j :: 0 <= j < |s| ==> s[j].start < y
    ensures r.Some? ==> r.value < |s| && s[r.value].start >= y
    ensures r.Some? ==> forall j :: 0 <= j < |s| && s[j].start >= y ==> s[r.value].start <= s[j].start
    ensures r.Some? ==> forall j :: 0 <= j < r.value && s[j].start >= y ==> s[j].start > s[r.value].start
  {
    if |s| == 0 then None
    else
      var r := UpperNeighbour(s[..|s| - 1], y);
      if s[|s| - 1].start >= y && (r.None? || s[|s| - 1].start < s[r.value].start) then Some(|s| - 1)
      else r
  }

  // ---------------------------------------------------------------------
  // add_interval, as a branch decision and the contents it leads to
  // ---------------------------------------------------------------------

  datatype AddError = InvalidInterval | Overlap

  /** What one `add_interval` call returns; `Panicked` is a Rust panic. */
  datatype AddOutcome = Added | Failed(error: AddError) | Panicked

  /** The branch `add_interval` takes. */
  datatype Placement =
    | Seed                          // empty set: stored as given
    | Rejected(error: AddError)     // an `Err` return, nothing stored
    | Front                         // ends at or before the smallest start
    | Back                          // starts at or after the largest end
    | CloneLower(lower: nat)        // no upper neighbour: the lower one is copied
    | Between(upper: nat, at: nat)  // inserted at the upper neighbour's `index`
    | NoNeighbourPanic              // neither neighbour: `unwrap` of `None`
    | InsertPastEndPanic            // `Vec::insert` at an index beyond the length

  function Place(s: seq<Interval>, iv: Interval): (p: Placement)
    ensures p.Seed? <==> |s| == 0
    ensures p == Rejected(InvalidInterval) <==> |s| > 0 && iv.start > iv.end
    ensures p.Front? ==> iv.start <= iv.end && forall k :: 0 <= k < |s| ==> iv.end <= s[k].start
    ensures p.Back? ==> iv.start <= iv.end && forall k :: 0 <= k < |s| ==> s[k].end <= iv.start
    ensures p.CloneLower? ==> p.lower < |s|
    ensures p.Between? ==> p.upper < |s| && p.at <= |s|
  {
    if |s| == 0 then Seed
    else if iv.start > iv.end then Rejected(InvalidInterval)
    else if iv.end <= s[MinStartIndex(s)].start then Front
    else if iv.start >= s[MaxEndIndex(s)].end then Back
    else
      var left := LowerNeighbour(s, iv.start);
      var right := UpperNeighbour(s, iv.end);
      if right.None? then
        (if left.None? then NoNeighbourPanic else CloneLower(left.value))
      else if left.None? then Rejected(Overlap)
      else if iv.start >= s[left.value].end && iv.end <= s[right.value].start then
        (if s[right.value].index <= |s| then Between(right.value, s[right.value].index)
         else InsertPastEndPanic)
      else Rejected(Overlap)
  }

  function OutcomeOf(p: Placement): AddOutcome {
    match p
    case Rejected(e) => Failed(e)
    case NoNeighbourPanic => Panicked
    case InsertPastEndPanic => Panicked
    case _ => Added
  }

  /** The `index` of every element after position `at` raised by one. */
  function Bumped(s: seq<Interval>, at: nat): (r: seq<Interval>)
    ensures |r| == |s|
    ensures forall i :: 0 <= i <= at && i < |s| ==> r[i] == s[i]
    ensures forall i :: at < i < |s| ==> r[i] == s[i].(index := s[i].index + 1)
  {
    seq(|s|, i requires 0 <= i < |s| => if i > at then s[i].(index := s[i].index + 1) else s[i])
  }

  /** The contents after the branch `p` was taken. */
  function Apply(s: seq<Interval>, iv: Interval, p: Placement): (r: seq<Interval>)
    requires p == Place(s, iv)
    ensures OutcomeOf(p) != Added ==> r == s
    ensures OutcomeOf(p) == Added ==> |r| == |s| + 1
  {
    match p
    case Seed => [iv]
    case Front => [iv.(index := 0)] + s
    case Back => s + [iv.(index := |s|)]
    case CloneLower(l) => s + [s[l].(index := |s|)]
    case Between(_, at) => Bumped(s[..at] + [iv.(index := at)] + s[at..], at)
    case _ => s
  }

  /** `SortedIntervals::from`: every element added in turn; `None` when a
      step does not succeed (the conversion panics). */
  function AddAll(s: seq<Interval>, ivs: seq<Interval>): Option<seq<Interval>>
    decreases |ivs|
  {
    if |ivs| == 0 then Some(s)
    else
      var p := Place(s, ivs[0]);
      if OutcomeOf(p) != Added then None else AddAll(Apply(s, ivs[0], p), ivs[1..])
  }

  /** Every successful step stores one more interval. */
  lemma {:induction false} AddAllLength(s: seq<Interval>, ivs: seq<Interval>)
    ensures AddAll(s, ivs).Some? ==> |AddAll(s, ivs).value| == |s| + |ivs|
    decreases |ivs|
  {
    if |ivs| > 0 {
      var p := Place(s, ivs[0]);
      if OutcomeOf(p) == Added {
        AddAllLength(Apply(s, ivs[0], p), ivs[1..]);
      }
    }
  }

  // ---------------------------------------------------------------------
  // `values()`: the distinct boundary values in ascending order
  // ---------------------------------------------------------------------

  predicate StrictlyIncreasing(t: seq<int>) {
    forall i, j :: 0 <= i < j < |t| ==> t[i] < t[j]
  }

  predicate IsBoundary(s: seq<Interval>, x: int) {
    exists j :: 0 <= j < |s| && (x == s[j].start || x == s[j].end)
  }

  function InsertSorted(t: seq<int>, x: int): (r: seq<int>)
    requires StrictlyIncreasing(t)
    ensures StrictlyIncreasing(r)
    ensures forall y :: y in r <==> y in t || y == x
  {
    if |t| == 0 then [x]
    else if x < t[0] then [x] + t
    else if x == t[0] then t
    else
      var tail := t[1..];
      assert forall i :: 0 <= i < |tail| ==> t[0] < tail[i] by {
        forall i | 0 <= i < |tail| ensures t[0] < tail[i] {
          assert tail[i] == t[i + 1];
        }
      }
      var rest := InsertSorted(tail, x);
      assert forall y :: y in tail ==> t[0] < y;
      assert forall y :: y in rest ==> t[0] < y;
      var r := [t[0]] + rest;
      assert forall i :: 0 < i < |r| ==> r[i] == rest[i - 1];
      assert forall i, j :: 0 <= i < j < |r| ==> r[i] < r[j] by {
        forall i, j | 0 <= i < j < |r| ensures r[i] < r[j] {
          if i == 0 { assert r[j] in rest; }
        }
      }
      r
  }

  /** The boundaries of a non-empty set: those of all but the last
      element, and the last element's two ends. */
  lemma BoundariesOfLast(s: seq<Interval>)
    requires |s| > 0
    ensures forall x :: IsBoundary(s, x) <==> IsBoundary(s[..|s| - 1], x) || x == s[|s| - 1].start || x == s[|s| - 1].end
  {
    var init := s[..|s| - 1];
    forall x ensures IsBoundary(s, x) <==> IsBoundary(init, x) || x == s[|s| - 1].start || x == s[|s| - 1].end {
      if IsBoundary(s, x) {
        var j :| 0 <= j < |s| && (x == s[j].start || x == s[j].end);
        if j < |s| - 1 { assert init[j] == s[j]; }
      }
      if IsBoundary(init, x) {
        var j :| 0 <= j < |init| && (x == init[j].start || x == init[j].end);
        assert s[j] == init[j];
      }
    }
  }

  function Boundaries(s: seq<Interval>): (r: seq<int>)
    ensures StrictlyIncreasing(r)
    ensures forall x :: x in r <==> IsBoundary(s, x)
  {
    if |s| == 0 then []
    else
      var init := s[..|s| - 1];
      var r := InsertSorted(InsertSorted(Boundaries(init), s[|s| - 1].start), s[|s| - 1].end);
      BoundariesOfLast(s);
      r
  }

  /** A strictly increasing sequence is determined by its elements, so the
      contract of `Boundaries` fixes its result. */
  lemma {:induction false} StrictlyIncreasingUnique(a: seq<int>, b: seq<int>)
    requires StrictlyIncreasing(a) && StrictlyIncreasing(b)
    requires forall x :: x in a <==> x in b
    ensures a == b
    decreases |a|
  {
    if |a| > 0 { assert a[0] in a; assert |b| > 0; }
    if |b| > 0 { assert b[0] in b; assert |a| > 0; }
    if |a| > 0 {
      assert a[0] in b && b[0] in a;
      assert a[0] == b[0];
      forall x ensures x in a[1..] <==> x in b[1..] {
        if x in a[1..] { assert x in a && x != a[0]; }
        if x in b[1..] { assert x in b && x != b[0]; }
      }
      StrictlyIncreasingUnique(a[1..], b[1..]);
      assert a == [a[0]] + a[1..] && b == [b[0]] + b[1..];
    }
  }

  // ---------------------------------------------------------------------
  // The interval set
  // ---------------------------------------------------------------------

  /** The comparator handed to `sort_intervals`, or the default: by start. */
  function Leq(cmp: Option<(Interval, Interval) -> bool>): (Interval, Interval) -> bool {
    match cmp
    case Some(f) => f
    case None => (a: Interval, b: Interval) => a.start <= b.start
  }

  lemma ByStartTotal()
    ensures TotalPreorder(Leq(None))
  {
  }

  /** One more element of the input, one more insertion. */
  lemma SortByStep(s: seq<Interval>, i: nat, leq: (Interval, Interval) -> bool)
    requires i < |s|
    ensures SortBy(s[..i + 1], leq) == InsertBy(SortBy(s[..i], leq), s[i], leq)
  {
    assert s[..i + 1][..i] == s[..i];
  }

  lemma SortIntervalsSorted(s: seq<Interval>, cmp: Option<(Interval, Interval) -> bool>)
    ensures (cmp.None? || TotalPreorder(cmp.value)) ==> SortedBy(SortBy(s, Leq(cmp)), Leq(cmp))
  {
    if cmp.None? {
      ByStartTotal();
      SortBySorted(s, Leq(cmp));
    } else if TotalPreorder(cmp.value) {
      SortBySorted(s, Leq(cmp));
    }
  }

  class SortedIntervals {
    var column: string
    var intervals: seq<Interval>

    constructor (column: string)
      ensures this.column == column && intervals == []
    {
      this.column := column;
      intervals := [];
    }

    /** `add_interval`, branch by branch as `Place` describes. */
    method AddInterval(iv: Interval) returns (outcome: AddOutcome)
      modifies this
      ensures column == old(column)
      ensures outcome == OutcomeOf(Place(old(intervals), iv))
      ensures intervals == Apply(old(intervals), iv, Place(old(intervals), iv))
    {
      if |intervals| == 0 {
        intervals := [iv];
        return Added;
      }
      if iv.start > iv.end {
        return Failed(InvalidInterval);
      }
      var min := intervals[MinStartIndex(intervals)].start;
      var max := intervals[MaxEndIndex(intervals)].end;
      if iv.end <= min {
        intervals := [iv.(index := 0)] + intervals;
      } else if iv.start >= max {
        intervals := intervals + [iv.(index := |intervals|)];
      } else {
        var left := LowerNeighbour(intervals, iv.start);
        var right := UpperNeighbour(intervals, iv.end);
        if right.None? {
          if left.None? {
            return Panicked;
          }
          intervals := intervals + [intervals[left.value].(index := |intervals|)];
          return Added;
        }
        if left.None? || right.None? {
          return Failed(Overlap);
        }
        var l, r := intervals[left.value], intervals[right.value];
        if iv.start >= l.end && iv.end <= r.start {
          var index := r.index;
          if index > |intervals| {
            return Panicked;
          }
          intervals := intervals[..index] + [iv.(index := index)] + intervals[index..];
          RenumberAfter(index);
        } else {
          return Failed(Overlap);
        }
      }
      return Added;
    }

    /** The loop that raises the `index` of every element after `at`. */
    method RenumberAfter(at: nat)
      modifies this
      ensures column == old(column)
      ensures intervals == Bumped(old(intervals), at)
    {
      ghost var before := intervals;
      var i := at + 1;
      while i < |intervals|
        invariant column == old(column) && |intervals| == |before|
        invariant forall k :: 0 <= k < i && k < |intervals| ==> intervals[k] == Bumped(before, at)[k]
        invariant forall k :: i <= k < |intervals| ==> intervals[k] == before[k]
      {
        intervals := intervals[i := intervals[i].(index := intervals[i].index + 1)];
        i := i + 1;
      }
    }

    /** `sort_intervals`: a stable sort by the given comparator, by start
        when none is given. */
    method SortIntervals(cmp: Option<(Interval, Interval) -> bool>)
      modifies this
      ensures column == old(column)
      ensures intervals == SortBy(old(intervals), Leq(cmp))
      ensures (cmp.None? || TotalPreorder(cmp.value)) ==> SortedBy(intervals, Leq(cmp))
      ensures multiset(intervals) == multiset(old(intervals))
    {
      var leq := Leq(cmp);
      var input := intervals;
      var sorted: seq<Interval> := [];
      var i := 0;
      while i < |input|
        invariant 0 <= i <= |input| && intervals == input && column == old(column)
        invariant sorted == SortBy(input[..i], leq)
      {
        SortByStep(input, i, leq);
        sorted := InsertBy(sorted, input[i], leq);
        i := i + 1;
      }
      assert input[..i] == input;
      intervals := sorted;
      SortIntervalsSorted(input, cmp);
    }

    function IsEmpty(): (b: bool)
      reads this
      ensures b <==> intervals == []
    {
      |intervals| == 0
    }

    function Len(): (n: nat)
      reads this
      ensures n == 0 <==> IsEmpty()
    {
      |intervals|
    }

    /** The first interval with the smallest start. */
    function Min(): (r: Option<Interval>)
      reads this
      ensures r.None? <==> intervals == []
      ensures r.Some? ==> r.value in intervals
      ensures r.Some? ==> forall iv :: iv in intervals ==> r.value.start <= iv.start
      ensures r.Some? ==> exists k :: 0 <= k < |intervals| && intervals[k] == r.value &&
                                      forall j :: 0 <= j < k ==> intervals[j].start > r.value.start
    {
      if |intervals| == 0 then None else Some(intervals[MinStartIndex(intervals)])
    }

    /** The last interval with the largest end. */
    function Max(): (r: Option<Interval>)
      reads this
      ensures r.None? <==> intervals == []
      ensures r.Some? ==> r.value in intervals
      ensures r.Some? ==> forall iv :: iv in intervals ==> iv.end <= r.value.end
      ensures r.Some? ==> exists k :: 0 <= k < |intervals| && intervals[k] == r.value &&
                                      forall j :: k < j < |intervals| ==> intervals[j].end < r.value.end
    {
      if |intervals| == 0 then None else Some(intervals[MaxEndIndex(intervals)])
    }

    function GetInterval(i: nat): (r: Option<Interval>)
      reads this
      ensures r.None? <==> i >= |intervals|
      ensures r.Some? ==> r.value == intervals[i]
    {
      if i < |intervals| then Some(intervals[i]) else None
    }

    function Values(): (r: seq<int>)
      reads this
      ensures StrictlyIncreasing(r)
      ensures forall x :: x in r <==> IsBoundary(intervals, x)
    {
      Boundaries(intervals)
    }
  }

  /** `SortedIntervals::from`: `None` stands for the panics (indexing an empty
      vector, or `unwrap` of a rejected add). */
  method FromVec(ivs: seq<Interval>) returns (r: Option<SortedIntervals>)
    ensures |ivs| == 0 ==> r.None?
    ensures |ivs| > 0 ==> (r.Some? <==> AddAll([], ivs).Some?)
    ensures r.Some? ==> fresh(r.value) && r.value.column == ivs[0].column
    ensures r.Some? ==> r.value.intervals == AddAll([], ivs).value
  {
    if |ivs| == 0 {
      return None;
    }
    var built := new SortedIntervals(ivs[0].column);
    var i := 0;
    while i < |ivs|
      invariant 0 <= i <= |ivs|
      invariant fresh(built) && built.column == ivs[0].column
      invariant AddAll([], ivs) == AddAll(built.intervals, ivs[i..])
    {
      assert ivs[i..][1..] == ivs[i + 1..];
      var outcome := built.AddInterval(ivs[i]);
      if outcome != Added {
        return None;
      }
      i := i + 1;
    }
    return Some(built);
  }

  // ---------------------------------------------------------------------
  // What the placement rule does guarantee
  // ---------------------------------------------------------------------

  /** Non-empty intervals, each ending at or before the next one starts. */
  predicate Chained(s: seq<Interval>) {
    (forall i :: 0 <= i < |s| ==> s[i].start < s[i].end)
    && (forall i :: 0 < i < |s| ==> s[i - 1].end <= s[i].start)
  }

  /** Every `index` field equals the position. */
  predicate Indexed(s: seq<Interval>) {
    forall i :: 0 <= i < |s| ==> s[i].index == i
  }

  predicate PairwiseDisjoint(s: seq<Interval>) {
    forall i, j :: 0 <= i < j < |s| ==> s[i].end <= s[j].start || s[j].end <= s[i].start
  }

  lemma {:induction false} ChainedOrdered(s: seq<Interval>, i: int, j: int)
    requires Chained(s) && 0 <= i < j < |s|
    ensures s[i].end <= s[j].start
    ensures s[i].start < s[j].start && s[i].end < s[j].end
    decreases j - i
  {
    if i + 1 < j {
      ChainedOrdered(s, i + 1, j);
    }
  }

  /** A chained set is sorted by start and pairwise disjoint. */
  lemma ChainedSortedDisjoint(s: seq<Interval>)
    requires Chained(s)
    ensures PairwiseDisjoint(s)
    ensures forall i, j :: 0 <= i < j < |s| ==> s[i].start < s[j].start
  {
    forall i, j | 0 <= i < j < |s| ensures s[i].end <= s[j].start && s[i].start < s[j].start {
      ChainedOrdered(s, i, j);
    }
  }

  /** `iv` is non-empty and fits the gap before position `p`. */
  predicate FitsAt(s: seq<Interval>, iv: Interval, p: nat) {
    iv.start < iv.end && p <= |s|
    && (forall j :: 0 <= j < p ==> s[j].end <= iv.start)
    && (forall j :: p <= j < |s| ==> iv.end <= s[j].start)
  }

  // The four searches, each pinned down by the one answer it can give.

  lemma MinStartIs(s: seq<Interval>, k: nat)
    requires k < |s|
    requires forall j :: 0 <= j < k ==> s[k].start < s[j].start
    requires forall j :: k < j < |s| ==> s[k].start <= s[j].start
    ensures MinStartIndex(s) == k
  {
    var m := MinStartIndex(s);
    assert s[m].start <= s[k].start;
  }

  lemma MaxEndIs(s: seq<Interval>, k: nat)
    requires k < |s|
    requires forall j :: 0 <= j < k ==> s[j].end <= s[k].end
    requires forall j :: k < j < |s| ==> s[j].end < s[k].end
    ensures MaxEndIndex(s) == k
  {
    var m := MaxEndIndex(s);
    assert s[k].end <= s[m].end;
  }

  lemma LowerNeighbourIs(s: seq<Interval>, x: int, k: nat)
    requires k < |s| && s[k].end <= x
    requires forall j :: 0 <= j < k && s[j].end <= x ==> s[j].end <= s[k].end
    requires forall j :: k < j < |s| && s[j].end <= x ==> s[j].end < s[k].end
    ensures LowerNeighbour(s, x) == Some(k)
  {
    var r := LowerNeighbour(s, x);
    assert r.Some?;
    assert s[k].end <= s[r.value].end;
  }

  lemma UpperNeighbourIs(s: seq<Interval>, y: int, k: nat)
    requires k < |s| && y <= s[k].start
    requires forall j :: 0 <= j < k && y <= s[j].start ==> s[k].start < s[j].start
    requires forall j :: k < j < |s| && y <= s[j].start ==> s[k].start <= s[j].start
    ensures UpperNeighbour(s, y) == Some(k)
  {
    var r := UpperNeighbour(s, y);
    assert r.Some?;
    assert s[r.value].start <= s[k].start;
  }

  lemma ChainedExtremes(s: seq<Interval>)
    requires Chained(s) && |s| > 0
    ensures MinStartIndex(s) == 0 && MaxEndIndex(s) == |s| - 1
  {
    ChainedMinStart(s);
    ChainedMaxEnd(s);
  }

  lemma ChainedMinStart(s: seq<Interval>)
    requires Chained(s) && |s| > 0
    ensures MinStartIndex(s) == 0
  {
    forall j | 0 < j < |s| ensures s[0].start < s[j].start {
      ChainedOrdered(s, 0, j);
    }
    MinStartIs(s, 0);
  }

  lemma ChainedMaxEnd(s: seq<Interval>)
    requires Chained(s) && |s| > 0
    ensures MaxEndIndex(s) == |s| - 1
  {
    forall j | 0 <= j < |s| - 1 ensures s[j].end < s[|s| - 1].end {
      ChainedOrdered(s, j, |s| - 1);
    }
    MaxEndIs(s, |s| - 1);
  }

  /** In a chain the lower neighbour of `x` is the last element ending at or
      before `x`. */
  lemma ChainedLower(s: seq<Interval>, x: int, k: nat)
    requires Chained(s) && k < |s| && s[k].end <= x && (k + 1 < |s| ==> x < s[k + 1].end)
    ensures LowerNeighbour(s, x) == Some(k)
  {
    forall j | 0 <= j < k ensures s[j].end <= s[k].end {
      ChainedOrdered(s, j, k);
    }
    forall j | k + 1 < j < |s| ensures s[k + 1].end < s[j].end {
      ChainedOrdered(s, k + 1, j);
    }
    LowerNeighbourIs(s, x, k);
  }

  /** In a chain the upper neighbour of `y` is the first element starting at or
      after `y`. */
  lemma ChainedUpper(s: seq<Interval>, y: int, k: nat)
    requires Chained(s) && k < |s| && y <= s[k].start && (0 < k ==> s[k - 1].start < y)
    ensures UpperNeighbour(s, y) == Some(k)
  {
    forall j | 0 <= j < k - 1 ensures s[j].start < s[k - 1].start {
      ChainedOrdered(s, j, k - 1);
    }
    forall j | k < j < |s| ensures s[k].start < s[j].start {
      ChainedOrdered(s, k, j);
    }
    UpperNeighbourIs(s, y, k);
  }

  lemma ChainedNoLower(s: seq<Interval>, x: int)
    requires Chained(s) && |s| > 0 && x < s[0].end
    ensures LowerNeighbour(s, x) == None
  {
    forall j | 0 < j < |s| ensures s[0].end < s[j].end {
      ChainedOrdered(s, 0, j);
    }
  }

  lemma ChainedNoUpper(s: seq<Interval>, y: int)
    requires Chained(s) && |s| > 0 && s[|s| - 1].start < y
    ensures UpperNeighbour(s, y) == None
  {
    forall j | 0 <= j < |s| - 1 ensures s[j].start < s[|s| - 1].start {
      ChainedOrdered(s, j, |s| - 1);
    }
  }

  /** The mid case once both neighbours are known: the fit test passes, and
      the upper neighbour's `index` decides between insertion and panic. */
  lemma PlaceMid(s: seq<Interval>, iv: Interval, l: nat, u: nat)
    requires |s| > 0 && iv.start <= iv.end
    requires s[MinStartIndex(s)].start < iv.end && iv.start < s[MaxEndIndex(s)].end
    requires LowerNeighbour(s, iv.start) == Some(l) && UpperNeighbour(s, iv.end) == Some(u)
    ensures s[u].index <= |s| ==> Place(s, iv) == Between(u, s[u].index)
    ensures |s| < s[u].index ==> Place(s, iv) == InsertPastEndPanic
  {
  }

  /** The contents of an insertion at position `at`, element by element. */
  lemma InsertedAt(s: seq<Interval>, x: Interval, at: nat)
    requires at <= |s|
    ensures var r := Bumped(s[..at] + [x] + s[at..], at);
      |r| == |s| + 1 && r[at] == x
      && (forall i :: 0 <= i < at ==> r[i] == s[i])
      && (forall i :: at < i < |r| ==> r[i] == s[i - 1].(index := s[i - 1].index + 1))
  {
    var ins := s[..at] + [x] + s[at..];
    assert forall i :: 0 <= i < at ==> ins[i] == s[i];
    assert ins[at] == x;
    assert forall i :: at < i < |ins| ==> ins[i] == s[i - 1];
  }

  lemma FitBetweenNeighbours(s: seq<Interval>, iv: Interval, p: nat)
    requires Chained(s) && Indexed(s) && FitsAt(s, iv, p) && 0 < p < |s|
    ensures Place(s, iv) == Between(p, p)
  {
    ChainedExtremes(s);
    assert s[0].start < s[0].end <= iv.start;
    assert iv.end <= s[|s| - 1].start < s[|s| - 1].end;
    assert iv.end <= s[p].start < s[p].end;
    assert s[p - 1].start < s[p - 1].end <= iv.start;
    ChainedLower(s, iv.start, p - 1);
    ChainedUpper(s, iv.end, p);
    PlaceMid(s, iv, p - 1, p);
  }

  lemma BetweenKeepsChain(s: seq<Interval>, iv: Interval, p: nat)
    requires Chained(s) && Indexed(s) && FitsAt(s, iv, p) && 0 < p < |s|
    ensures var r := Bumped(s[..p] + [iv.(index := p)] + s[p..], p);
      Chained(r) && Indexed(r) && r[..p] == s[..p] && r[p] == iv.(index := p)
  {
    InsertedAt(s, iv.(index := p), p);
    var r := Bumped(s[..p] + [iv.(index := p)] + s[p..], p);
    forall i | 0 <= i < |r| ensures r[i].start < r[i].end && r[i].index == i {
      if i > p {
        assert r[i] == s[i - 1].(index := s[i - 1].index + 1);
      }
    }
    forall i | 0 < i < |r| ensures r[i - 1].end <= r[i].start {
      if i < p {
        assert r[i - 1] == s[i - 1] && r[i] == s[i];
      } else if i == p {
        assert r[i - 1] == s[p - 1];
      } else if i == p + 1 {
        assert r[i].start == s[p].start;
      } else {
        assert r[i - 1].end == s[i - 2].end && r[i].start == s[i - 1].start;
      }
    }
    assert r[..p] == s[..p];
  }

  lemma FitFront(s: seq<Interval>, iv: Interval)
    requires Chained(s) && |s| > 0 && FitsAt(s, iv, 0)
    ensures Place(s, iv) == Front
    ensures Chained([iv.(index := 0)] + s)
  {
    ChainedExtremes(s);
    var r := [iv.(index := 0)] + s;
    assert forall i :: 0 < i < |r| ==> r[i] == s[i - 1];
  }

  lemma FitBack(s: seq<Interval>, iv: Interval)
    requires Chained(s) && |s| > 0 && FitsAt(s, iv, |s|)
    ensures Place(s, iv) == Back
    ensures Chained(s + [iv.(index := |s|)])
    ensures Indexed(s) ==> Indexed(s + [iv.(index := |s|)])
  {
    ChainedExtremes(s);
    assert s[0].start < s[0].end <= iv.start;
    var r := s + [iv.(index := |s|)];
    assert forall i :: 0 <= i < |s| ==> r[i] == s[i];
  }

  /** An interval that fits a gap of a chained, indexed set goes into that gap:
      to the front, to the back, or between the neighbours with the later
      elements renumbered. Only the front insertion leaves stale indices. */
  lemma FittingInsertKeepsChain(s: seq<Interval>, iv: Interval, p: nat)
    requires Chained(s) && Indexed(s) && |s| > 0 && FitsAt(s, iv, p)
    ensures p == 0 ==> Place(s, iv) == Front
    ensures p == |s| ==> Place(s, iv) == Back
    ensures 0 < p < |s| ==> Place(s, iv) == Between(p, p)
    ensures Chained(Apply(s, iv, Place(s, iv)))
    ensures Apply(s, iv, Place(s, iv))[..p] == s[..p]
    ensures Apply(s, iv, Place(s, iv))[p] == iv.(index := p)
    ensures 0 < p ==> Indexed(Apply(s, iv, Place(s, iv)))
  {
    if p == 0 {
      FitFrontApplied(s, iv);
    } else if p == |s| {
      FitBackApplied(s, iv);
    } else {
      FitBetweenApplied(s, iv, p);
    }
  }

  lemma FitFrontApplied(s: seq<Interval>, iv: Interval)
    requires Chained(s) && |s| > 0 && FitsAt(s, iv, 0)
    ensures Place(s, iv) == Front
    ensures var r := Apply(s, iv, Front); Chained(r) && r[0] == iv.(index := 0)
  {
    FitFront(s, iv);
  }

  lemma FitBackApplied(s: seq<Interval>, iv: Interval)
    requires Chained(s) && Indexed(s) && |s| > 0 && FitsAt(s, iv, |s|)
    ensures Place(s, iv) == Back
    ensures var r := Apply(s, iv, Back);
      Chained(r) && Indexed(r) && r[..|s|] == s && r[|s|] == iv.(index := |s|)
  {
    FitBack(s, iv);
    var r := s + [iv.(index := |s|)];
    assert r[..|s|] == s;
  }

  lemma FitBetweenApplied(s: seq<Interval>, iv: Interval, p: nat)
    requires Chained(s) && Indexed(s) && FitsAt(s, iv, p) && 0 < p < |s|
    ensures Place(s, iv) == Between(p, p)
    ensures var r := Apply(s, iv, Between(p, p));
      Chained(r) && Indexed(r) && r[..p] == s[..p] && r[p] == iv.(index := p)
  {
    FitBetweenNeighbours(s, iv, p);
    BetweenKeepsChain(s, iv, p);
  }

  /** A front insertion into a non-empty set keeps the old `index` fields, so
      the set is no longer indexed: two elements claim position 0. */
  lemma FrontInsertLeavesStaleIndex(s: seq<Interval>, iv: Interval)
    requires Indexed(s) && |s| > 0 && Place(s, iv) == Front
    ensures !Indexed(Apply(s, iv, Place(s, iv)))
    ensures Apply(s, iv, Place(s, iv))[0].index == Apply(s, iv, Place(s, iv))[1].index == 0
  {
    var r := [iv.(index := 0)] + s;
    assert r[1] == s[0];
  }

  /** The `Err` at the end of the mid case cannot be reached: the neighbour
      filters already imply the test that guards the insertion. */
  lemma MidOverlapErrUnreachable(s: seq<Interval>, iv: Interval)
    requires |s| > 0 && iv.start <= iv.end
    requires LowerNeighbour(s, iv.start).Some? && UpperNeighbour(s, iv.end).Some?
    ensures Place(s, iv) != Rejected(Overlap)
  {
  }

  /** `from` over intervals where each is non-empty and starts at or after the
      previous end only ever appends: the order is kept and every element
      after the first is numbered by its position. */
  lemma FromChainedAppends(ivs: seq<Interval>)
    requires |ivs| > 0 && Chained(ivs)
    ensures AddAll([], ivs) == Some(Renumbered(ivs))
  {
    assert ivs[1..] == ivs[1..];
    assert Renumbered(ivs[..1]) == [ivs[0]];
    AppendsFrom(ivs, 1);
  }

  /** The first element as given, the others with `index` = position. */
  function Renumbered(ivs: seq<Interval>): (r: seq<Interval>)
    ensures |r| == |ivs|
  {
    seq(|ivs|, k requires 0 <= k < |ivs| => if k == 0 then ivs[k] else ivs[k].(index := k))
  }

  lemma {:induction false} AppendsFrom(ivs: seq<Interval>, k: nat)
    requires 0 < k <= |ivs| && Chained(ivs)
    ensures AddAll(Renumbered(ivs[..k]), ivs[k..]) == Some(Renumbered(ivs))
    decreases |ivs| - k
  {
    if k == |ivs| {
      assert ivs[..k] == ivs;
    } else {
      AppendStep(ivs, k);
      AppendsFrom(ivs, k + 1);
    }
  }

  lemma AppendStep(ivs: seq<Interval>, k: nat)
    requires 0 < k < |ivs| && Chained(ivs)
    ensures AddAll(Renumbered(ivs[..k]), ivs[k..]) == AddAll(Renumbered(ivs[..k + 1]), ivs[k + 1..])
  {
    var s, rest := Renumbered(ivs[..k]), ivs[k..];
    assert rest[0] == ivs[k] && rest[1..] == ivs[k + 1..];
    PlacedAtBack(ivs, k);
    AddAllBackStep(s, rest);
    RenumberedSnoc(ivs, k);
    var next := s + [rest[0].(index := |s|)];
    assert next == Renumbered(ivs[..k + 1]);
    calc {
      AddAll(s, rest);
      AddAll(next, rest[1..]);
      AddAll(Renumbered(ivs[..k + 1]), ivs[k + 1..]);
    }
  }

  /** A step that appends at the back. */
  lemma AddAllBackStep(s: seq<Interval>, ivs: seq<Interval>)
    requires |ivs| > 0 && Place(s, ivs[0]) == Back
    ensures AddAll(s, ivs) == AddAll(s + [ivs[0].(index := |s|)], ivs[1..])
  {
  }

  /** The next interval of a chain lies past everything stored so far. */
  lemma PlacedAtBack(ivs: seq<Interval>, k: nat)
    requires 0 < k < |ivs| && Chained(ivs)
    ensures Place(Renumbered(ivs[..k]), ivs[k]) == Back
  {
    var s := Renumbered(ivs[..k]);
    var mi, ma := MinStartIndex(s), MaxEndIndex(s);
    assert s[mi].start == ivs[mi].start && s[ma].end == ivs[ma].end;
    if mi != 0 { ChainedOrdered(ivs, 0, mi); }
    ChainedOrdered(ivs, 0, k);
    ChainedOrdered(ivs, ma, k);
  }

  lemma RenumberedSnoc(ivs: seq<Interval>, k: nat)
    requires 0 < k < |ivs|
    ensures Renumbered(ivs[..k]) + [ivs[k].(index := k)] == Renumbered(ivs[..k + 1])
  {
  }

  // ---------------------------------------------------------------------
  // Where the placement rule falls short (concrete inputs)
  // ---------------------------------------------------------------------

  function I(start: int, end: int, index: nat): Interval {
    Interval("test", start, end, "test", index)
  }

  /** With [1,2), [3,6), [8,9) stored, [2,7) is accepted although it overlaps
      [3,6): only the nearest neighbours are compared. */
  lemma StraddlingIntervalAccepted()
    ensures var s := [I(1, 2, 0), I(3, 6, 1), I(8, 9, 2)];
      Place(s, I(2, 7, 0)) == Between(2, 2)
      && Apply(s, I(2, 7, 0), Place(s, I(2, 7, 0))) == [I(1, 2, 0), I(3, 6, 1), I(2, 7, 2), I(8, 9, 3)]
      && !PairwiseDisjoint(Apply(s, I(2, 7, 0), Place(s, I(2, 7, 0))))
  {
    var s := [I(1, 2, 0), I(3, 6, 1), I(8, 9, 2)];
    StraddlingPlacement(s, I(2, 7, 0));
    var r := Apply(s, I(2, 7, 0), Between(2, 2));
    assert !(r[1].end <= r[2].start || r[2].end <= r[1].start);
  }

  lemma StraddlingPlacement(s: seq<Interval>, iv: Interval)
    requires s == [I(1, 2, 0), I(3, 6, 1), I(8, 9, 2)] && iv == I(2, 7, 0)
    ensures Place(s, iv) == Between(2, 2)
    ensures Apply(s, iv, Between(2, 2)) == [I(1, 2, 0), I(3, 6, 1), I(2, 7, 2), I(8, 9, 3)]
  {
    assert Chained(s);
    ChainedExtremes(s);
    ChainedLower(s, 2, 0);
    ChainedUpper(s, 7, 2);
    PlaceMid(s, iv, 0, 2);
    InsertedAt(s, iv.(index := 2), 2);
  }

  /** After a front insertion the stale index of the old first element sends
      a later mid insertion to the wrong position: [5,6) seeded, [1,2) in
      front, then [3,4) lands before [1,2). */
  lemma StaleIndexMisplaces()
    ensures AddAll([], [I(5, 6, 0), I(1, 2, 0), I(3, 4, 0)])
         == Some([I(3, 4, 0), I(1, 2, 1), I(5, 6, 1)])
  {
    var ivs := [I(5, 6, 0), I(1, 2, 0), I(3, 4, 0)];
    var s1 := [I(5, 6, 0)];
    var s2 := [I(1, 2, 0), I(5, 6, 0)];
    var s3 := [I(3, 4, 0), I(1, 2, 1), I(5, 6, 1)];
    assert ivs[1..] == [I(1, 2, 0), I(3, 4, 0)] && ivs[1..][1..] == [I(3, 4, 0)];
    SeedThenFront();
    StaleMidPlacement();
    calc {
      AddAll([], ivs);
      AddAll(s1, ivs[1..]);
      AddAll(s2, ivs[1..][1..]);
      AddAll(s3, []);
    }
  }

  lemma SeedThenFront()
    ensures Place([], I(5, 6, 0)) == Seed
    ensures Place([I(5, 6, 0)], I(1, 2, 0)) == Front
    ensures Apply([I(5, 6, 0)], I(1, 2, 0), Front) == [I(1, 2, 0), I(5, 6, 0)]
  {
  }

  lemma StaleMidPlacement()
    ensures Place([I(1, 2, 0), I(5, 6, 0)], I(3, 4, 0)) == Between(1, 0)
    ensures Apply([I(1, 2, 0), I(5, 6, 0)], I(3, 4, 0), Between(1, 0))
         == [I(3, 4, 0), I(1, 2, 1), I(5, 6, 1)]
  {
    StaleMidSteps([I(1, 2, 0), I(5, 6, 0)], I(3, 4, 0));
  }

  lemma StaleMidSteps(s: seq<Interval>, iv: Interval)
    requires s == [I(1, 2, 0), I(5, 6, 0)] && iv == I(3, 4, 0)
    ensures Place(s, iv) == Between(1, 0)
    ensures Apply(s, iv, Between(1, 0)) == [I(3, 4, 0), I(1, 2, 1), I(5, 6, 1)]
  {
    assert Chained(s);
    ChainedExtremes(s);
    ChainedLower(s, 3, 0);
    ChainedUpper(s, 4, 1);
    PlaceMid(s, iv, 0, 1);
    InsertedAt(s, iv, 0);
  }

  /** With no upper neighbour the lower neighbour is copied to the end (its
      category, not the new interval's) and the call reports success. */
  lemma MissingUpperClonesLower()
    ensures var s := [I(1, 2, 0), I(3, 10, 1)];
      var iv := Interval("test", 2, 4, "new", 0);
      Place(s, iv) == CloneLower(0)
      && Apply(s, iv, Place(s, iv)) == [I(1, 2, 0), I(3, 10, 1), I(1, 2, 2)]
  {
    CloneSteps([I(1, 2, 0), I(3, 10, 1)], Interval("test", 2, 4, "new", 0));
  }

  lemma CloneSteps(s: seq<Interval>, iv: Interval)
    requires s == [I(1, 2, 0), I(3, 10, 1)] && iv == Interval("test", 2, 4, "new", 0)
    ensures Place(s, iv) == CloneLower(0)
  {
    assert Chained(s);
    ChainedExtremes(s);
    ChainedLower(s, 2, 0);
    ChainedNoUpper(s, 4);
  }

  /** Neither neighbour: `unwrap` of `None`. Re-adding the only element of
      a one-element set ends here too. */
  lemma NoNeighbourPanics()
    ensures OutcomeOf(Place([I(3, 10, 0)], I(1, 5, 0))) == Panicked
    ensures OutcomeOf(Place([I(1, 2, 0)], I(1, 2, 0))) == Panicked
  {
    assert LowerNeighbour([I(3, 10, 0)], 1) == None;
    assert UpperNeighbour([I(3, 10, 0)], 5) == None;
    assert LowerNeighbour([I(1, 2, 0)], 1) == None;
    assert UpperNeighbour([I(1, 2, 0)], 2) == None;
  }

  /** The seed keeps its `index`; if that exceeds the length, a later mid
      insertion asks `Vec::insert` for a position past the end. */
  lemma StaleSeedIndexPanics(ivs: seq<Interval>)
    requires ivs == [I(5, 6, 9), I(0, 1, 0), I(2, 3, 0)]
    ensures AddAll([], ivs) == None
  {
    var s1 := [I(5, 6, 9)];
    var s2 := [I(0, 1, 0), I(5, 6, 9)];
    StaleSeedSteps(s1, s2, ivs[1], ivs[2]);
    AddAllStep([], ivs);
    assert Apply([], ivs[0], Place([], ivs[0])) == s1;
    AddAllStep(s1, ivs[1..]);
    assert ivs[1..][1..] == ivs[2..];
    AddAllStops(s2, ivs[2..]);
  }

  /** One successful step of `From`. */
  lemma AddAllStep(s: seq<Interval>, ivs: seq<Interval>)
    requires |ivs| > 0 && OutcomeOf(Place(s, ivs[0])) == Added
    ensures AddAll(s, ivs) == AddAll(Apply(s, ivs[0], Place(s, ivs[0])), ivs[1..])
  {
  }

  /** A failed step ends `From` with nothing. */
  lemma AddAllStops(s: seq<Interval>, ivs: seq<Interval>)
    requires |ivs| > 0 && OutcomeOf(Place(s, ivs[0])) != Added
    ensures AddAll(s, ivs) == None
  {
  }

  lemma StaleSeedSteps(s1: seq<Interval>, s2: seq<Interval>, a: Interval, b: Interval)
    requires s1 == [I(5, 6, 9)] && s2 == [I(0, 1, 0), I(5, 6, 9)]
    requires a == I(0, 1, 0) && b == I(2, 3, 0)
    ensures Place(s1, a) == Front && Apply(s1, a, Front) == s2
    ensures Place(s2, b) == InsertPastEndPanic
  {
    assert MinStartIndex(s1) == 0;
    assert Chained(s2);
    ChainedExtremes(s2);
    ChainedLower(s2, 2, 0);
    ChainedUpper(s2, 3, 1);
    PlaceMid(s2, b, 0, 1);
  }

  /** The insertion sequence of the repository's first interval test: every
      call but the repeated [1,2) succeeds, and the five stored intervals end
      up non-empty and numbered by position. */
  method InsertionScenario() returns (outcomes: seq<AddOutcome>, stored: seq<Interval>)
    ensures outcomes == [Added, Added, Added, Failed(Overlap), Added, Added]
    ensures |stored| == 5
    ensures forall k :: 0 <= k < 5 ==> stored[k].index == k && stored[k].start <= stored[k].end
    ensures stored == [I(1, 2, 0), I(2, 3, 1), I(3, 4, 2), I(5, 10, 3), I(10, 15, 4)]
  {
    var built := new SortedIntervals("test");
    var o1 := built.AddInterval(I(1, 2, 0));
    ghost var s := built.intervals;
    var o2 := built.AddInterval(I(3, 4, 0));
    ScenarioSecond(s, I(3, 4, 0));
    s := built.intervals;
    var o3 := built.AddInterval(I(2, 3, 0));
    ScenarioThird(s, I(2, 3, 0));
    var rest := ScenarioTail(built);
    outcomes := [o1, o2, o3] + rest;
    stored := built.intervals;
  }

  /** The last three calls of the same test: the repeat is refused, then one
      interval goes to the back and one into the gap before it. */
  method ScenarioTail(built: SortedIntervals) returns (outcomes: seq<AddOutcome>)
    requires built.intervals == [I(1, 2, 0), I(2, 3, 1), I(3, 4, 2)]
    modifies built
    ensures outcomes == [Failed(Overlap), Added, Added]
    ensures built.intervals == [I(1, 2, 0), I(2, 3, 1), I(3, 4, 2), I(5, 10, 3), I(10, 15, 4)]
  {
    ghost var s := built.intervals;
    var o4 := built.AddInterval(I(1, 2, 0));
    ScenarioRepeat(s, I(1, 2, 0));
    var o5 := built.AddInterval(I(10, 15, 0));
    ScenarioFifth(s, I(10, 15, 0));
    s := built.intervals;
    var o6 := built.AddInterval(I(5, 10, 0));
    ScenarioSixth(s, I(5, 10, 0));
    outcomes := [o4, o5, o6];
  }

  lemma ScenarioSecond(s: seq<Interval>, iv: Interval)
    requires s == [I(1, 2, 0)] && iv == I(3, 4, 0)
    ensures Place(s, iv) == Back
    ensures Apply(s, iv, Back) == [I(1, 2, 0), I(3, 4, 1)]
  {
    assert MinStartIndex(s) == 0 && MaxEndIndex(s) == 0;
  }

  lemma ScenarioThird(s: seq<Interval>, iv: Interval)
    requires s == [I(1, 2, 0), I(3, 4, 1)] && iv == I(2, 3, 0)
    ensures Place(s, iv) == Between(1, 1)
    ensures Apply(s, iv, Between(1, 1)) == [I(1, 2, 0), I(2, 3, 1), I(3, 4, 2)]
  {
    assert Chained(s) && Indexed(s) && FitsAt(s, iv, 1);
    FitBetweenNeighbours(s, iv, 1);
    InsertedAt(s, iv.(index := 1), 1);
  }

  lemma ScenarioRepeat(s: seq<Interval>, iv: Interval)
    requires s == [I(1, 2, 0), I(2, 3, 1), I(3, 4, 2)] && iv == I(1, 2, 0)
    ensures Place(s, iv) == Rejected(Overlap)
  {
    assert Chained(s);
    ChainedExtremes(s);
    ChainedNoLower(s, 1);
    ChainedUpper(s, 2, 1);
  }

  lemma ScenarioFifth(s: seq<Interval>, iv: Interval)
    requires s == [I(1, 2, 0), I(2, 3, 1), I(3, 4, 2)] && iv == I(10, 15, 0)
    ensures Place(s, iv) == Back
    ensures Apply(s, iv, Back) == [I(1, 2, 0), I(2, 3, 1), I(3, 4, 2), I(10, 15, 3)]
  {
    assert Chained(s);
    ChainedExtremes(s);
  }

  lemma ScenarioSixth(s: seq<Interval>, iv: Interval)
    requires s == [I(1, 2, 0), I(2, 3, 1), I(3, 4, 2), I(10, 15, 3)] && iv == I(5, 10, 0)
    ensures Place(s, iv) == Between(3, 3)
    ensures Apply(s, iv, Between(3, 3)) == [I(1, 2, 0), I(2, 3, 1), I(3, 4, 2), I(5, 10, 3), I(10, 15, 4)]
  {
    SixthFits(s, iv);
    FitBetweenNeighbours(s, iv, 3);
    SixthInsert(s, iv);
  }

  lemma SixthFits(s: seq<Interval>, iv: Interval)
    requires s == [I(1, 2, 0), I(2, 3, 1), I(3, 4, 2), I(10, 15, 3)] && iv == I(5, 10, 0)
    ensures Chained(s) && Indexed(s) && FitsAt(s, iv, 3)
  {
  }

  lemma SixthInsert(s: seq<Interval>, iv: Interval)
    requires s == [I(1, 2, 0), I(2, 3, 1), I(3, 4, 2), I(10, 15, 3)] && iv == I(5, 10, 0)
    ensures Bumped(s[..3] + [iv.(index := 3)] + s[3..], 3) == [I(1, 2, 0), I(2, 3, 1), I(3, 4, 2), I(5, 10, 3), I(10, 15, 4)]
  {
    InsertedAt(s, iv.(index := 3), 3);
  }
}
