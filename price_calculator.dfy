/** The price estimator's record count: an exact mileage or power in the
    statistics request is widened to the bracket that holds it, the rows
    are counted, and when nothing matches the free-text search and the
    exact engine size are dropped and the rows counted again.

    Counting is the dataset engine's work and is given as a function from
    the request to the number of matching rows. */
module PriceCalculator {
  import opened Common
  import Utils

  /** The mileage brackets, in kilometres. */
  const Mileage: seq<(int, int)> := [
    (0, 20000), (20001, 40000), (40001, 60000), (60001, 80000),
    (80001, 100000), (100001, 120000), (120001, 150000), (150001, 999999)]

  /** The power brackets, in horsepower. */
  const Power: seq<(int, int)> := [
    (0, 90), (91, 130), (131, 150), (151, 200), (201, 252),
    (253, 303), (304, 358), (359, 404), (405, 454), (455, 9999)]

  /** Every bracket is non-empty and starts one past the end of the previous one. */
  predicate Contiguous(t: seq<(int, int)>) {
    (forall i :: 0 <= i < |t| ==> t[i].0 <= t[i].1)
    && (forall i :: 0 < i < |t| ==> t[i].0 == t[i - 1].1 + 1)
  }

  lemma TablesContiguous()
    ensures Contiguous(Mileage) && Mileage[0].0 == 0 && Mileage[|Mileage| - 1].1 == 999999
    ensures Contiguous(Power) && Power[0].0 == 0 && Power[|Power| - 1].1 == 9999
  {
  }

  /** In a contiguous table the brackets ascend and do not overlap. */
  lemma {:induction false} ContiguousAscending(t: seq<(int, int)>, i: nat, j: nat)
    requires Contiguous(t) && i < j < |t|
    ensures t[i].1 < t[j].0
    decreases j - i
  {
    if i + 1 < j {
      ContiguousAscending(t, i + 1, j);
    }
  }

  predicate InBracket(b: (int, int), v: int) {
    b.0 <= v <= b.1
  }

  /** The index of the first bracket holding `v`. */
  function Enclosing(t: seq<(int, int)>, v: int): (r: Option<nat>)
    ensures r.None? <==> forall k :: 0 <= k < |t| ==> !InBracket(t[k], v)
    ensures r.Some? ==> r.value < |t| && InBracket(t[r.value], v)
    ensures r.Some? ==> forall k :: 0 <= k < r.value ==> !InBracket(t[k], v)
  {
    if |t| == 0 then None
    else if InBracket(t[0], v) then Some(0)
    else
      var r := Enclosing(t[1..], v);
      if r.None? then None else Some(r.value + 1)
  }

  /** In a contiguous table the bracket holding a value is the only one. */
  lemma EnclosingUnique(t: seq<(int, int)>, v: int, k: nat)
    requires Contiguous(t) && k < |t| && InBracket(t[k], v)
    ensures Enclosing(t, v) == Some(k)
  {
    var r := Enclosing(t, v);
    assert r.Some?;
    if r.value < k {
      ContiguousAscending(t, r.value, k);
    }
  }

  /** A contiguous table holds exactly the values from its first start to
      its last end. */
  lemma {:induction false} EnclosingCovers(t: seq<(int, int)>, v: int)
    requires Contiguous(t) && |t| > 0
    ensures Enclosing(t, v).Some? <==> t[0].0 <= v <= t[|t| - 1].1
    decreases |t|
  {
    if |t| > 1 {
      var u := t[1..];
      assert Contiguous(u) by {
        forall i | 0 < i < |u| ensures u[i].0 == u[i - 1].1 + 1 {
          assert u[i] == t[i + 1] && u[i - 1] == t[i];
        }
      }
      EnclosingCovers(u, v);
      if v < t[0].0 {
        forall k | 0 <= k < |t| ensures !InBracket(t[k], v) {
          if k > 0 { ContiguousAscending(t, 0, k); }
        }
      }
      if v > t[|t| - 1].1 {
        forall k | 0 <= k < |t| ensures !InBracket(t[k], v) {
          if k < |t| - 1 { ContiguousAscending(t, k, |t| - 1); }
        }
      }
      if t[0].0 <= v <= t[|t| - 1].1 && !InBracket(t[0], v) {
        assert u[|u| - 1] == t[|t| - 1];
        var r := Enclosing(u, v).value;
        assert InBracket(t[r + 1], v);
        EnclosingUnique(t, v, r + 1);
      }
    }
  }

  /** The statistics request (`StatisticSearchPayload`), as a value. */
  datatype StatisticPayload = StatisticPayload(
    search: Option<string>, make: Option<string>, model: Option<string>,
    engine: Option<seq<string>>, gearbox: Option<string>,
    yearFrom: Option<int>, yearTo: Option<int>, year: Option<int>,
    powerFrom: Option<int>, powerTo: Option<int>, power: Option<int>,
    mileageFrom: Option<int>, mileageTo: Option<int>, mileage: Option<int>,
    ccFrom: Option<int>, ccTo: Option<int>, cc: Option<int>,
    saveDifference: Option<int>, discount: Option<int>,
    group: seq<string>, aggregators: seq<string>, order: seq<Utils.Order>,
    statColumn: string, estimatedPrice: Option<int>)

  /** The range an exact value is widened to: the first bracket holding it;
      the range given when there is no exact value or no bracket holds it. */
  function Widened(t: seq<(int, int)>, exact: Option<int>, from: Option<int>, to: Option<int>): (r: (Option<int>, Option<int>))
    ensures exact.None? || Enclosing(t, exact.value).None? ==> r == (from, to)
    ensures exact.Some? && Enclosing(t, exact.value).Some? ==>
      r.0.Some? && r.1.Some? && InBracket((r.0.value, r.1.value), exact.value) &&
      (r.0.value, r.1.value) in t
  {
    if exact.None? then (from, to)
    else
      var k := Enclosing(t, exact.value);
      if k.None? then (from, to) else (Some(t[k.value].0), Some(t[k.value].1))
  }

  /** A bracket holding `v` with none before it holding `v` is the enclosing one. */
  lemma EnclosingAtFirst(t: seq<(int, int)>, v: int, i: nat)
    requires i < |t| && InBracket(t[i], v)
    requires forall k :: 0 <= k < i ==> !InBracket(t[k], v)
    ensures Enclosing(t, v) == Some(i)
  {
  }

  /** The scan for the first bracket holding the exact value, stopping at
      the first hit; no exact value, or none of the brackets holding it,
      finds nothing. */
  method FindBracket(t: seq<(int, int)>, exact: Option<int>) returns (b: Option<(int, int)>)
    ensures b.None? <==> exact.None? || forall k :: 0 <= k < |t| ==> !InBracket(t[k], exact.value)
    ensures b.Some? ==> exact.Some? && b == Some(t[Enclosing(t, exact.value).value])
  {
    b := None;
    var i := 0;
    while i < |t|
      invariant 0 <= i <= |t| && b.None?
      invariant exact.Some? ==> forall k :: 0 <= k < i ==> !InBracket(t[k], exact.value)
    {
      var (from, to) := t[i];
      if exact.Some? && exact.value >= from && exact.value <= to {
        EnclosingAtFirst(t, exact.value, i);
        b := Some((from, to));
        break;
      }
      i := i + 1;
    }
  }

  /** The request after both snapping loops. */
  function Snapped(p: StatisticPayload): (r: StatisticPayload)
    ensures r.mileage.None? && r.power.None?
    ensures (r.mileageFrom, r.mileageTo) == Widened(Mileage, p.mileage, p.mileageFrom, p.mileageTo)
    ensures (r.powerFrom, r.powerTo) == Widened(Power, p.power, p.powerFrom, p.powerTo)
    ensures r == p.(mileageFrom := r.mileageFrom, mileageTo := r.mileageTo, mileage := None,
                    powerFrom := r.powerFrom, powerTo := r.powerTo, power := None)
  {
    var m := Widened(Mileage, p.mileage, p.mileageFrom, p.mileageTo);
    var w := Widened(Power, p.power, p.powerFrom, p.powerTo);
    p.(mileageFrom := m.0, mileageTo := m.1, mileage := None,
       powerFrom := w.0, powerTo := w.1, power := None)
  }

  /** The relaxation: with no matching rows, drop the search text and the
      exact engine size. */
  function Relaxed(p: StatisticPayload, count: StatisticPayload -> nat): (r: StatisticPayload)
    ensures count(p) == 0 ==> r.search.None? && r.cc.None?
    ensures count(p) != 0 ==> r == p
    ensures r == p.(search := r.search, cc := r.cc)
  {
    if count(p) == 0 then p.(search := None, cc := None) else p
  }

  /** An exact mileage from 0 to 999999 is replaced by the bracket holding it. */
  lemma MileageSnapsToBracket(p: StatisticPayload, k: nat)
    requires p.mileage.Some? && k < |Mileage| && InBracket(Mileage[k], p.mileage.value)
    ensures Snapped(p).mileageFrom == Some(Mileage[k].0) && Snapped(p).mileageTo == Some(Mileage[k].1)
  {
    TablesContiguous();
    EnclosingUnique(Mileage, p.mileage.value, k);
  }

  /** Without an exact mileage, or with one outside every bracket, the
      mileage range is left as it was. */
  lemma MileageOutsideKept(p: StatisticPayload)
    requires p.mileage.None? || p.mileage.value < 0 || p.mileage.value > 999999
    ensures Snapped(p).mileageFrom == p.mileageFrom && Snapped(p).mileageTo == p.mileageTo
  {
    if p.mileage.Some? {
      TablesContiguous();
      EnclosingCovers(Mileage, p.mileage.value);
    }
  }

  lemma PowerSnapsToBracket(p: StatisticPayload, k: nat)
    requires p.power.Some? && k < |Power| && InBracket(Power[k], p.power.value)
    ensures Snapped(p).powerFrom == Some(Power[k].0) && Snapped(p).powerTo == Some(Power[k].1)
  {
    TablesContiguous();
    EnclosingUnique(Power, p.power.value, k);
  }

  lemma PowerOutsideKept(p: StatisticPayload)
    requires p.power.None? || p.power.value < 0 || p.power.value > 9999
    ensures Snapped(p).powerFrom == p.powerFrom && Snapped(p).powerTo == p.powerTo
  {
    if p.power.Some? {
      TablesContiguous();
      EnclosingCovers(Power, p.power.value);
    }
  }

  /** After snapping there is no exact mileage or power, the other fields are
      as they were, and snapping again changes nothing. */
  lemma SnappedShape(p: StatisticPayload)
    ensures Snapped(p).mileage.None? && Snapped(p).power.None?
    ensures Snapped(p).(mileageFrom := p.mileageFrom, mileageTo := p.mileageTo, mileage := p.mileage,
                        powerFrom := p.powerFrom, powerTo := p.powerTo, power := p.power) == p
    ensures Snapped(Snapped(p)) == Snapped(p)
  {
  }

  /** The relaxation changes the search text and engine size only, and only
      when nothing matched. */
  lemma RelaxedShape(p: StatisticPayload, count: StatisticPayload -> nat)
    ensures count(p) > 0 ==> Relaxed(p, count) == p
    ensures count(p) == 0 ==> Relaxed(p, count).search.None? && Relaxed(p, count).cc.None?
    ensures Relaxed(p, count).(search := p.search, cc := p.cc) == p
  {
  }

  /** The mutable request `getCount` works on. */
  class StatisticSearch {
    var search: Option<string>
    var make: Option<string>
    var model: Option<string>
    var engine: Option<seq<string>>
    var gearbox: Option<string>
    var yearFrom: Option<int>
    var yearTo: Option<int>
    var year: Option<int>
    var powerFrom: Option<int>
    var powerTo: Option<int>
    var power: Option<int>
    var mileageFrom: Option<int>
    var mileageTo: Option<int>
    var mileage: Option<int>
    var ccFrom: Option<int>
    var ccTo: Option<int>
    var cc: Option<int>
    var saveDifference: Option<int>
    var discount: Option<int>
    var group: seq<string>
    var aggregators: seq<string>
    var order: seq<Utils.Order>
    var statColumn: string
    var estimatedPrice: Option<int>

    constructor (p: StatisticPayload)
      ensures Payload() == p
    {
      search, make, model, engine, gearbox := p.search, p.make, p.model, p.engine, p.gearbox;
      yearFrom, yearTo, year := p.yearFrom, p.yearTo, p.year;
      powerFrom, powerTo, power := p.powerFrom, p.powerTo, p.power;
      mileageFrom, mileageTo, mileage := p.mileageFrom, p.mileageTo, p.mileage;
      ccFrom, ccTo, cc := p.ccFrom, p.ccTo, p.cc;
      saveDifference, discount := p.saveDifference, p.discount;
      group, aggregators, order := p.group, p.aggregators, p.order;
      statColumn, estimatedPrice := p.statColumn, p.estimatedPrice;
    }

    /** `clone()`: the request as a value. */
    function Payload(): StatisticPayload
      reads this
    {
      StatisticPayload(search, make, model, engine, gearbox, yearFrom, yearTo, year,
                       powerFrom, powerTo, power, mileageFrom, mileageTo, mileage,
                       ccFrom, ccTo, cc, saveDifference, discount,
                       group, aggregators, order, statColumn, estimatedPrice)
    }

    /** The loop over `MILEAGE` and the reset of `mileage`. */
    method SnapMileage()
      modifies this
      ensures var w := Widened(Mileage, old(mileage), old(mileageFrom), old(mileageTo));
        Payload() == old(Payload()).(mileageFrom := w.0, mileageTo := w.1, mileage := None)
    {
      var b := FindBracket(Mileage, mileage);
      if b.Some? {
        mileageFrom := Some(b.value.0);
        mileageTo := Some(b.value.1);
      }
      mileage := None;
    }

    /** The loop over `POWER` and the reset of `power`. */
    method SnapPower()
      modifies this
      ensures var w := Widened(Power, old(power), old(powerFrom), old(powerTo));
        Payload() == old(Payload()).(powerFrom := w.0, powerTo := w.1, power := None)
    {
      var b := FindBracket(Power, power);
      if b.Some? {
        powerFrom := Some(b.value.0);
        powerTo := Some(b.value.1);
      }
      power := None;
    }

    /** `getCount`: snap, count, relax when nothing matched, and count the
        request the final filter is built from. That request is returned
        in place of the filter expression. */
    method GetCount(count: StatisticPayload -> nat) returns (filter: StatisticPayload, n: nat)
      modifies this
      ensures Payload() == Relaxed(Snapped(old(Payload())), count)
      ensures filter == Payload() && n == count(filter)
    {
      SnapMileage();
      SnapPower();
      var first := count(Payload());
      if first == 0 {
        search := None;
        cc := None;
      }
      filter := Payload();
      n := count(filter);
    }
  }
}
