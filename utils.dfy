/** The rule functions shared by the services: the chart colour palette, the
    aggregator names, and the row filters built from a search payload.

    A filter is modelled by meaning: `Pred` is the filter expression and
    `Holds` says whether a row passes it. A row maps column names to values;
    a missing key is a null, and a comparison with a null does not keep the
    row, which matches the engine's three-valued logic because the filters
    never negate a clause. */
module Utils {
  import opened Common

  // ---------------------------------------------------------------------
  // generate_colors
  // ---------------------------------------------------------------------

  const Palette: seq<string> := [
    "rgba(75, 192, 192, 0.8)",
    "rgba(255, 99, 132, 0.8)",
    "rgba(54, 162, 235, 0.8)",
    "rgba(255, 206, 86, 0.8)",
    "rgba(153, 102, 255, 0.8)",
    "rgba(255, 159, 64, 0.8)"
  ]

  /** Colour `i` is palette entry `i mod 6`. */
  function GenerateColors(count: nat): (r: seq<string>)
    ensures |r| == count
  {
    seq(count, i requires 0 <= i < count => Palette[i % |Palette|])
  }

  lemma {:induction false} PaletteDistinct()
    ensures forall i, j :: 0 <= i < j < |Palette| ==> Palette[i] != Palette[j]
  {
    forall i, j | 0 <= i < j < |Palette| ensures Palette[i] != Palette[j] {
      assert Palette[i][5] != Palette[j][5] || Palette[i][6] != Palette[j][6]
        || Palette[i][9] != Palette[j][9] || Palette[i][10] != Palette[j][10];
    }
  }

  /** The colours cycle with period 6, a shorter list is a prefix of a longer
      one, and any six consecutive colours are pairwise different. */
  lemma ColorsCycle(count: nat)
    ensures forall i :: 0 <= i < count ==> GenerateColors(count)[i] == Palette[i % 6]
    ensures forall i :: 0 <= i && i + 6 < count ==> GenerateColors(count)[i + 6] == GenerateColors(count)[i]
    ensures forall m :: 0 <= m <= count ==> GenerateColors(m) == GenerateColors(count)[..m]
    ensures forall i, j :: 0 <= i < j < count && j - i < 6 ==> GenerateColors(count)[i] != GenerateColors(count)[j]
  {
    var r := GenerateColors(count);
    forall i | 0 <= i && i + 6 < count ensures r[i + 6] == r[i] {
      assert (i + 6) % 6 == i % 6;
    }
    PaletteDistinct();
    forall i, j | 0 <= i < j < count && j - i < 6 ensures r[i] != r[j] {
      assert i % 6 != j % 6;
    }
  }

  // ---------------------------------------------------------------------
  // get_aggregator / to_aggregator
  // ---------------------------------------------------------------------

  /** The statistic an aggregator name selects. */
  datatype Aggregate = Count | Min | Max | Mean | Median | Sum | Avg | Std | Rsd | Quantile(percent: nat)

  /** One aggregation over `column`, output under `alias`. */
  datatype AggExpr = AggExpr(column: string, kind: Aggregate, alias: string)

  const QuantilePercents: seq<nat> := [60, 66, 70, 75, 80, 90]

  /** The name each statistic is requested by. */
  function AggregateName(a: Aggregate): string
    requires a.Quantile? ==> a.percent in QuantilePercents
  {
    match a
    case Count => "count"
    case Min => "min"
    case Max => "max"
    case Mean => "mean"
    case Median => "median"
    case Sum => "sum"
    case Avg => "avg"
    case Std => "std"
    case Rsd => "rsd"
    case Quantile(p) =>
      if p == 60 then "quantile_60" else if p == 66 then "quantile_66"
      else if p == 70 then "quantile_70" else if p == 75 then "quantile_75"
      else if p == 80 then "quantile_80" else "quantile_90"
  }

  const RecognisedNames: set<string> := {
    "count", "min", "max", "mean", "median", "sum", "avg", "std", "rsd",
    "quantile_60", "quantile_66", "quantile_70", "quantile_75", "quantile_80", "quantile_90"
  }

  /** `get_aggregator`: the statistic named, `None` for any other name. */
  function GetAggregator(name: string): (r: Option<Aggregate>)
    ensures r.Some? <==> name in RecognisedNames
    ensures r.Some? ==> (r.value.Quantile? ==> r.value.percent in QuantilePercents) && AggregateName(r.value) == name
  {
    match name
    case "count" => Some(Count)
    case "min" => Some(Min)
    case "max" => Some(Max)
    case "mean" => Some(Mean)
    case "median" => Some(Median)
    case "sum" => Some(Sum)
    case "avg" => Some(Avg)
    case "std" => Some(Std)
    case "rsd" => Some(Rsd)
    case "quantile_60" => Some(Quantile(60))
    case "quantile_66" => Some(Quantile(66))
    case "quantile_70" => Some(Quantile(70))
    case "quantile_75" => Some(Quantile(75))
    case "quantile_80" => Some(Quantile(80))
    case "quantile_90" => Some(Quantile(90))
    case _ => None
  }

  /** Every statistic is found again under its own name. */
  lemma AggregateRoundTrip(a: Aggregate)
    requires a.Quantile? ==> a.percent in QuantilePercents
    ensures GetAggregator(AggregateName(a)) == Some(a)
  {
  }

  /** The aggregations for the recognised names, in the order given. */
  function Recognised(column: string, names: seq<string>): seq<AggExpr> {
    if |names| == 0 then []
    else
      var rest := Recognised(column, names[..|names| - 1]);
      var last := names[|names| - 1];
      match GetAggregator(last)
      case Some(a) => rest + [AggExpr(column, a, last)]
      case None => rest
  }

  /** `to_aggregator`: one aggregation per recognised name, aliased by it. */
  method ToAggregator(names: seq<string>, column: string) returns (agg: seq<AggExpr>)
    ensures agg == Recognised(column, names)
  {
    agg := [];
    var i := 0;
    while i < |names|
      invariant 0 <= i <= |names|
      invariant agg == Recognised(column, names[..i])
    {
      assert names[..i + 1][..i] == names[..i];
      var func := GetAggregator(names[i]);
      if func.Some? {
        agg := agg + [AggExpr(column, func.value, names[i])];
      }
      i := i + 1;
    }
    assert names[..i] == names;
  }

  /** The aliases are exactly the recognised names, in input order; each
      aggregation reads the given column and computes what its alias names. */
  lemma {:induction false} RecognisedAliases(column: string, names: seq<string>)
    ensures |Recognised(column, names)| <= |names|
    ensures forall k :: 0 <= k < |Recognised(column, names)| ==>
      Recognised(column, names)[k].column == column
      && Recognised(column, names)[k].alias in RecognisedNames
      && GetAggregator(Recognised(column, names)[k].alias) == Some(Recognised(column, names)[k].kind)
    ensures Aliases(Recognised(column, names)) == KeepRecognised(names)
  {
    if |names| > 0 {
      RecognisedAliases(column, names[..|names| - 1]);
      var rest := Recognised(column, names[..|names| - 1]);
      match GetAggregator(names[|names| - 1])
      case Some(a) =>
        assert Aliases(rest + [AggExpr(column, a, names[|names| - 1])]) == Aliases(rest) + [names[|names| - 1]];
      case None =>
    }
  }

  function Aliases(agg: seq<AggExpr>): (r: seq<string>)
    ensures |r| == |agg|
  {
    if |agg| == 0 then [] else Aliases(agg[..|agg| - 1]) + [agg[|agg| - 1].alias]
  }

  /** The recognised names, in order, with repetitions: the reference for
      which names survive. */
  function KeepRecognised(names: seq<string>): (r: seq<string>)
    ensures forall x :: x in r <==> x in names && x in RecognisedNames
  {
    if |names| == 0 then []
    else if names[|names| - 1] in RecognisedNames then KeepRecognised(names[..|names| - 1]) + [names[|names| - 1]]
    else KeepRecognised(names[..|names| - 1])
  }

  /** Nothing is dropped when every name is known; an unknown name is
      skipped without trace. */
  lemma {:induction false} AllRecognisedKept(column: string, names: seq<string>)
    requires forall k :: 0 <= k < |names| ==> names[k] in RecognisedNames
    ensures |Recognised(column, names)| == |names|
    ensures forall k :: 0 <= k < |names| ==> Recognised(column, names)[k].alias == names[k]
  {
    if |names| > 0 {
      AllRecognisedKept(column, names[..|names| - 1]);
    }
  }

  lemma UnknownNameDropped(column: string, names: seq<string>, unknown: string)
    requires unknown !in RecognisedNames
    ensures Recognised(column, names + [unknown]) == Recognised(column, names)
  {
    assert (names + [unknown])[..|names|] == names;
  }

  // ---------------------------------------------------------------------
  // Rows and filter expressions
  // ---------------------------------------------------------------------

  /** A table row: its text columns and its whole-number columns (dates as
      day numbers). A column missing from the map is null. */
  datatype Row = Row(text: map<string, string>, num: map<string, int>)

  datatype Pred =
    | StrEq(column: string, s: string)
    | StrNeq(column: string, s: string)
    | StrEndsWith(column: string, s: string)
    | StrStartsWith(column: string, s: string)
    | StrContains(column: string, s: string)
    | NumEq(column: string, n: int)
    | NumGe(column: string, n: int)
    | NumLe(column: string, n: int)
    | And(left: Pred, right: Pred)
    | Or(left: Pred, right: Pred)

  /** The row is kept by the filter. */
  predicate Holds(p: Pred, row: Row) {
    match p
    case StrEq(c, s) => c in row.text && row.text[c] == s
    case StrNeq(c, s) => c in row.text && row.text[c] != s
    case StrEndsWith(c, s) => c in row.text && EndsWith(row.text[c], s)
    case StrStartsWith(c, s) => c in row.text && StartsWith(row.text[c], s)
    case StrContains(c, s) => c in row.text && ContainsSubstring(row.text[c], s)
    case NumEq(c, n) => c in row.num && row.num[c] == n
    case NumGe(c, n) => c in row.num && row.num[c] >= n
    case NumLe(c, n) => c in row.num && row.num[c] <= n
    case And(l, r) => Holds(l, row) && Holds(r, row)
    case Or(l, r) => Holds(l, row) || Holds(r, row)
  }

  predicate AllHold(ps: seq<Pred>, row: Row) {
    forall k :: 0 <= k < |ps| ==> Holds(ps[k], row)
  }

  predicate AnyHolds(ps: seq<Pred>, row: Row) {
    exists k :: 0 <= k < |ps| && Holds(ps[k], row)
  }

  /** `reduce(and)`: the left-nested conjunction of a non-empty list. */
  function Conj(ps: seq<Pred>): (p: Pred)
    requires |ps| > 0
  {
    if |ps| == 1 then ps[0] else And(Conj(ps[..|ps| - 1]), ps[|ps| - 1])
  }

  /** `reduce(or)`: the left-nested disjunction of a non-empty list. */
  function Disj(ps: seq<Pred>): (p: Pred)
    requires |ps| > 0
  {
    if |ps| == 1 then ps[0] else Or(Disj(ps[..|ps| - 1]), ps[|ps| - 1])
  }

  lemma {:induction false} ConjHolds(ps: seq<Pred>, row: Row)
    requires |ps| > 0
    ensures Holds(Conj(ps), row) <==> AllHold(ps, row)
  {
    if |ps| > 1 {
      var init := ps[..|ps| - 1];
      ConjHolds(init, row);
      assert forall k :: 0 <= k < |init| ==> init[k] == ps[k];
    }
  }

  lemma {:induction false} DisjHolds(ps: seq<Pred>, row: Row)
    requires |ps| > 0
    ensures Holds(Disj(ps), row) <==> AnyHolds(ps, row)
  {
    if |ps| > 1 {
      var init := ps[..|ps| - 1];
      DisjHolds(init, row);
      assert forall k :: 0 <= k < |init| ==> init[k] == ps[k];
      if AnyHolds(ps, row) {
        var k :| 0 <= k < |ps| && Holds(ps[k], row);
        if k < |init| { assert Holds(init[k], row); }
      }
    }
  }

  // ---------------------------------------------------------------------
  // to_like_predicate
  // ---------------------------------------------------------------------

  /** The pattern rule: a leading `*` asks for a suffix, a trailing `*` for a
      prefix (both with every `*` removed); anything else for a substring. */
  function LikeClause(c: string, v: string): Pred {
    if StartsWith(v, "*") then StrEndsWith(c, RemoveChar(v, '*'))
    else if EndsWith(v, "*") then StrStartsWith(c, RemoveChar(v, '*'))
    else StrContains(c, v)
  }

  predicate LikeMatches(text: string, v: string) {
    if |v| > 0 && v[0] == '*' then EndsWith(text, RemoveChar(v, '*'))
    else if |v| > 0 && v[|v| - 1] == '*' then StartsWith(text, RemoveChar(v, '*'))
    else ContainsSubstring(text, v)
  }

  lemma LikeClauseMeaning(c: string, v: string, row: Row)
    ensures Holds(LikeClause(c, v), row) <==> c in row.text && LikeMatches(row.text[c], v)
  {
    assert StartsWith(v, "*") <==> |v| > 0 && v[0] == '*';
    assert EndsWith(v, "*") <==> |v| > 0 && v[|v| - 1] == '*' by {
      if |v| > 0 { assert v[|v| - 1..] == [v[|v| - 1]]; }
    }
  }

  /** Some column of the filter matches its pattern. */
  ghost predicate LikeAny(filter: map<string, string>, row: Row) {
    exists c :: c in filter && c in row.text && LikeMatches(row.text[c], filter[c])
  }

  /** The keys of `filter`, each once: the order a hash map happens to
      iterate in. */
  ghost predicate Enumerates(keys: seq<string>, filter: map<string, string>) {
    (forall c :: c in filter <==> c in keys)
    && (forall i, j :: 0 <= i < j < |keys| ==> keys[i] != keys[j])
  }

  /** The column clauses in the order the keys are visited. */
  function LikeClauses(keys: seq<string>, filter: map<string, string>): (r: seq<Pred>)
    requires forall k :: 0 <= k < |keys| ==> keys[k] in filter
    ensures |r| == |keys|
  {
    seq(|keys|, k requires 0 <= k < |keys| => LikeClause(keys[k], filter[keys[k]]))
  }

  /** `to_like_predicate`: the column clauses OR-ed together, in whatever
      order the map yields its keys; `None` for an empty map, where the
      `unwrap` panics. The list the clauses are then combined from always has
      exactly one member, so `join_and` is never consulted. */
  method ToLikePredicate(filter: map<string, string>, keys: seq<string>, joinAnd: bool) returns (r: Option<Pred>)
    requires Enumerates(keys, filter)
    ensures r.None? <==> |filter| == 0
    ensures r.Some? ==> r.value == Disj(LikeClauses(keys, filter))
    ensures r.Some? ==> forall row :: Holds(r.value, row) <==> LikeAny(filter, row)
  {
    var columnPredicates: seq<Pred> := [];
    var i := 0;
    while i < |keys|
      invariant 0 <= i <= |keys| && |columnPredicates| == i
      invariant forall k :: 0 <= k < i ==> columnPredicates[k] == LikeClause(keys[k], filter[keys[k]])
    {
      var c := keys[i];
      var v := filter[c];
      var p: Pred;
      if StartsWith(v, "*") {
        p := StrEndsWith(c, RemoveChar(v, '*'));
      } else if EndsWith(v, "*") {
        p := StrStartsWith(c, RemoveChar(v, '*'));
      } else {
        p := StrContains(c, v);
      }
      columnPredicates := columnPredicates + [p];
      i := i + 1;
    }
    if |columnPredicates| == 0 {
      EmptyKeys(keys, filter);
      return None;
    }
    NonEmptyKeys(keys, filter);
    assert columnPredicates == LikeClauses(keys, filter);
    var predicates := [Disj(columnPredicates)];
    forall row ensures Holds(predicates[0], row) <==> LikeAny(filter, row) {
      LikeClausesMeaning(keys, filter, row);
    }
    return Some(predicates[0]);
  }

  /** The OR of the column clauses holds iff some column matches its pattern. */
  lemma LikeClausesMeaning(keys: seq<string>, filter: map<string, string>, row: Row)
    requires Enumerates(keys, filter) && |keys| > 0
    ensures Holds(Disj(LikeClauses(keys, filter)), row) <==> LikeAny(filter, row)
  {
    var ps := LikeClauses(keys, filter);
    DisjHolds(ps, row);
    if AnyHolds(ps, row) {
      var k :| 0 <= k < |ps| && Holds(ps[k], row);
      LikeClauseMeaning(keys[k], filter[keys[k]], row);
    }
    if LikeAny(filter, row) {
      var c :| c in filter && c in row.text && LikeMatches(row.text[c], filter[c]);
      var k :| 0 <= k < |keys| && keys[k] == c;
      LikeClauseMeaning(keys[k], filter[keys[k]], row);
      assert Holds(ps[k], row);
    }
  }

  lemma EmptyKeys(keys: seq<string>, filter: map<string, string>)
    requires Enumerates(keys, filter) && |keys| == 0
    ensures |filter| == 0
  {
    assert filter.Keys == {};
  }

  lemma NonEmptyKeys(keys: seq<string>, filter: map<string, string>)
    requires Enumerates(keys, filter) && |keys| > 0
    ensures |filter| > 0
  {
    assert keys[0] in filter;
  }

  // ---------------------------------------------------------------------
  // to_predicate
  // ---------------------------------------------------------------------

  datatype Order = Order(column: string, asc: bool)

  /** The search payload of the chart and statistics requests. */
  datatype SearchPayload = SearchPayload(
    search: Option<string>, make: Option<string>, model: Option<string>,
    engine: Option<seq<string>>, gearbox: Option<string>,
    yearFrom: Option<int>, yearTo: Option<int>, year: Option<int>,
    powerFrom: Option<int>, powerTo: Option<int>, power: Option<int>,
    mileageFrom: Option<int>, mileageTo: Option<int>, mileage: Option<int>,
    ccFrom: Option<int>, ccTo: Option<int>, cc: Option<int>,
    saveDiffFrom: Option<int>, saveDiffTo: Option<int>,
    discountFrom: Option<int>, discountTo: Option<int>,
    createdOnFrom: Option<int>, createdOnTo: Option<int>,
    group: seq<string>, aggregators: seq<string>, order: seq<Order>,
    statColumn: Option<string>, estimatedPrice: Option<int>, price: Option<int>,
    priceFrom: Option<int>, priceTo: Option<int>)

  predicate NumIs(row: Row, c: string, n: int) { c in row.num && row.num[c] == n }
  predicate NumAtLeast(row: Row, c: string, n: int) { c in row.num && row.num[c] >= n }
  predicate NumAtMost(row: Row, c: string, n: int) { c in row.num && row.num[c] <= n }
  predicate TextIs(row: Row, c: string, s: string) { c in row.text && row.text[c] == s }

  /** An exact value wins over the range; otherwise each present bound holds. */
  predicate ExactOrRange(row: Row, c: string, exact: Option<int>, from: Option<int>, to: Option<int>) {
    if exact.Some? then NumIs(row, c, exact.value)
    else (from.Some? ==> NumAtLeast(row, c, from.value)) && (to.Some? ==> NumAtMost(row, c, to.value))
  }

  /** The free-text search, lower-cased, matched in the title or the equipment. */
  predicate SearchMatches(s: SearchPayload, row: Row) {
    s.search.Some? ==>
      ("title" in row.text && LikeMatches(row.text["title"], AsciiLower(s.search.value)))
      || ("equipment" in row.text && LikeMatches(row.text["equipment"], AsciiLower(s.search.value)))
  }

  /** What the combined filter means, criterion by criterion. `today` is the
      current date as a day number; `createdOnFrom`/`To` count days back from it. */
  predicate Matches(s: SearchPayload, today: int, row: Row) {
    FrontMatches(s, row)
    && (s.discountFrom.Some? ==> NumAtLeast(row, "discount", s.discountFrom.value))
    && (s.discountTo.Some? ==> NumAtMost(row, "discount", s.discountTo.value))
    && (s.saveDiffFrom.Some? ==> NumAtLeast(row, "save_diff_in_eur", s.saveDiffFrom.value))
    && (s.saveDiffTo.Some? ==> NumAtMost(row, "save_diff_in_eur", s.saveDiffTo.value))
    && ExactOrRange(row, "power", s.power, s.powerFrom, s.powerTo)
    && ExactOrRange(row, "mileage", s.mileage, s.mileageFrom, s.mileageTo)
    && ExactOrRange(row, "cc", s.cc, s.ccFrom, s.ccTo)
    && (s.createdOnFrom.Some? ==> NumAtLeast(row, "created_on", today - s.createdOnFrom.value))
    && (s.createdOnTo.Some? ==> NumAtMost(row, "created_on", today - s.createdOnTo.value))
  }

  /** No criterion contributes a clause (an empty engine list contributes none). */
  predicate NoClauses(s: SearchPayload) {
    s.search.None? && s.make.None? && s.model.None?
    && (s.engine.None? || |s.engine.value| == 0) && s.gearbox.None?
    && s.estimatedPrice.None? && s.price.None?
    && s.year.None? && s.yearFrom.None? && s.yearTo.None?
    && s.discountFrom.None? && s.discountTo.None? && s.saveDiffFrom.None? && s.saveDiffTo.None?
    && s.power.None? && s.powerFrom.None? && s.powerTo.None?
    && s.mileage.None? && s.mileageFrom.None? && s.mileageTo.None?
    && s.cc.None? && s.ccFrom.None? && s.ccTo.None?
    && s.createdOnFrom.None? && s.createdOnTo.None?
  }

  // The clause lists each criterion contributes, in the order they are pushed.

  const SearchColumns: seq<string> := ["title", "equipment"]

  function SearchFilter(text: string): map<string, string> {
    map["title" := text, "equipment" := text]
  }

  function SearchClause(s: SearchPayload): seq<Pred> {
    if s.search.Some? then [Disj(LikeClauses(SearchColumns, SearchFilter(AsciiLower(s.search.value))))] else []
  }

  function TextClause(c: string, v: Option<string>): seq<Pred> {
    if v.Some? then [StrEq(c, v.value)] else []
  }

  function EngineClause(engine: Option<seq<string>>): seq<Pred> {
    if engine.Some? && |engine.value| > 0 then [Disj(EngineAlternatives(engine.value))] else []
  }

  function EngineAlternatives(engines: seq<string>): (r: seq<Pred>)
    ensures |r| == |engines|
  {
    seq(|engines|, k requires 0 <= k < |engines| => StrEq("engine", engines[k]))
  }

  function LowerClause(c: string, v: Option<int>): seq<Pred> {
    if v.Some? then [NumGe(c, v.value)] else []
  }

  function UpperClause(c: string, v: Option<int>): seq<Pred> {
    if v.Some? then [NumLe(c, v.value)] else []
  }

  function RangeClause(c: string, exact: Option<int>, from: Option<int>, to: Option<int>): seq<Pred> {
    if exact.Some? then [NumEq(c, exact.value)] else LowerClause(c, from) + UpperClause(c, to)
  }

  function DaysBack(today: int, days: Option<int>): Option<int> {
    if days.Some? then Some(today - days.value) else None
  }

  function Clauses(s: SearchPayload, today: int): seq<Pred> {
    FrontClauses(s)
    + LowerClause("discount", s.discountFrom) + UpperClause("discount", s.discountTo)
    + LowerClause("save_diff_in_eur", s.saveDiffFrom) + UpperClause("save_diff_in_eur", s.saveDiffTo)
    + RangeClause("power", s.power, s.powerFrom, s.powerTo)
    + RangeClause("mileage", s.mileage, s.mileageFrom, s.mileageTo)
    + RangeClause("cc", s.cc, s.ccFrom, s.ccTo)
    + LowerClause("created_on", DaysBack(today, s.createdOnFrom))
    + UpperClause("created_on", DaysBack(today, s.createdOnTo))
  }

  /** The sentinel used when there is nothing to filter on. */
  const MatchAll: Pred := StrNeq("make", "x")

  /** `to_predicate`: one clause per present criterion, AND-ed together; the
      sentinel `make != "x"` when there are none. */
  method ToPredicate(s: SearchPayload, today: int) returns (p: Pred)
    ensures NoClauses(s) ==> p == MatchAll
    ensures !NoClauses(s) ==> p == Conj(Clauses(s, today))
    ensures !NoClauses(s) ==> forall row :: Holds(p, row) <==> Matches(s, today, row)
  {
    var predicates: seq<Pred> := [];
    if s.search.Some? {
      var text := AsciiLower(s.search.value);
      var filter := map["title" := text, "equipment" := text];
      assert Enumerates(SearchColumns, filter);
      var like := ToLikePredicate(filter, SearchColumns, true);
      if like.Some? {
        predicates := predicates + [like.value];
      }
    }
    assert predicates == SearchClause(s);
    predicates := PushEq(predicates, "make", s.make);
    predicates := PushEq(predicates, "model", s.model);
    predicates := PushEngines(predicates, s.engine);
    predicates := PushEq(predicates, "gearbox", s.gearbox);
    predicates := PushLower(predicates, "estimated_price_in_eur", s.estimatedPrice);
    predicates := PushLower(predicates, "price_in_eur", s.price);
    predicates := PushExactOrRange(predicates, "year", s.year, s.yearFrom, s.yearTo);
    predicates := PushLower(predicates, "discount", s.discountFrom);
    predicates := PushUpper(predicates, "discount", s.discountTo);
    predicates := PushLower(predicates, "save_diff_in_eur", s.saveDiffFrom);
    predicates := PushUpper(predicates, "save_diff_in_eur", s.saveDiffTo);
    predicates := PushExactOrRange(predicates, "power", s.power, s.powerFrom, s.powerTo);
    predicates := PushExactOrRange(predicates, "mileage", s.mileage, s.mileageFrom, s.mileageTo);
    predicates := PushExactOrRange(predicates, "cc", s.cc, s.ccFrom, s.ccTo);
    predicates := PushLower(predicates, "created_on", DaysBack(today, s.createdOnFrom));
    predicates := PushUpper(predicates, "created_on", DaysBack(today, s.createdOnTo));
    assert predicates == Clauses(s, today);
    ClausesPresent(s, today);
    if |predicates| == 0 {
      return MatchAll;
    }
    p := Conj(predicates);
    forall row ensures Holds(p, row) <==> Matches(s, today, row) {
      ConjHolds(predicates, row);
      ClausesMeaning(s, today, row);
    }
  }

  /** An equality clause for a present text criterion. */
  method PushEq(ps: seq<Pred>, c: string, v: Option<string>) returns (r: seq<Pred>)
    ensures r == ps + TextClause(c, v)
  {
    r := ps;
    if v.Some? {
      r := r + [StrEq(c, v.value)];
    }
  }

  method PushLower(ps: seq<Pred>, c: string, v: Option<int>) returns (r: seq<Pred>)
    ensures r == ps + LowerClause(c, v)
  {
    r := ps;
    if v.Some? {
      r := r + [NumGe(c, v.value)];
    }
  }

  method PushUpper(ps: seq<Pred>, c: string, v: Option<int>) returns (r: seq<Pred>)
    ensures r == ps + UpperClause(c, v)
  {
    r := ps;
    if v.Some? {
      r := r + [NumLe(c, v.value)];
    }
  }

  /** The exact value when given, else the `From`/`To` bounds that are present. */
  method PushExactOrRange(ps: seq<Pred>, c: string, exact: Option<int>, from: Option<int>, to: Option<int>)
    returns (r: seq<Pred>)
    ensures r == ps + RangeClause(c, exact, from, to)
  {
    r := ps;
    if exact.Some? {
      r := r + [NumEq(c, exact.value)];
    } else {
      if from.Some? {
        r := r + [NumGe(c, from.value)];
      }
      if to.Some? {
        r := r + [NumLe(c, to.value)];
      }
    }
  }

  /** One equality per listed engine, OR-ed; nothing for an empty list. */
  method PushEngines(ps: seq<Pred>, engine: Option<seq<string>>) returns (r: seq<Pred>)
    ensures r == ps + EngineClause(engine)
  {
    r := ps;
    if engine.Some? {
      var enginePredicates: seq<Pred> := [];
      var i := 0;
      while i < |engine.value|
        invariant 0 <= i <= |engine.value| && |enginePredicates| == i
        invariant forall k :: 0 <= k < i ==> enginePredicates[k] == StrEq("engine", engine.value[k])
      {
        enginePredicates := enginePredicates + [StrEq("engine", engine.value[i])];
        i := i + 1;
      }
      if |enginePredicates| > 0 {
        assert enginePredicates == EngineAlternatives(engine.value);
        r := r + [Disj(enginePredicates)];
      }
    }
  }

  /** Some clause is produced exactly when some criterion is present. */
  lemma ClausesPresent(s: SearchPayload, today: int)
    ensures |Clauses(s, today)| == 0 <==> NoClauses(s)
  {
  }

  lemma AllHoldAppend(a: seq<Pred>, b: seq<Pred>, row: Row)
    ensures AllHold(a + b, row) <==> AllHold(a, row) && AllHold(b, row)
  {
    if AllHold(a, row) && AllHold(b, row) {
      forall k | 0 <= k < |a + b| ensures Holds((a + b)[k], row) {
        if k >= |a| { assert (a + b)[k] == b[k - |a|]; } else { assert (a + b)[k] == a[k]; }
      }
    }
    if AllHold(a + b, row) {
      forall k | 0 <= k < |a| ensures Holds(a[k], row) {
        assert (a + b)[k] == a[k];
      }
      forall k | 0 <= k < |b| ensures Holds(b[k], row) {
        assert (a + b)[|a| + k] == b[k];
      }
    }
  }

  lemma EngineMeaning(engines: seq<string>, row: Row)
    requires |engines| > 0
    ensures Holds(Disj(EngineAlternatives(engines)), row) <==> "engine" in row.text && row.text["engine"] in engines
  {
    var alts := EngineAlternatives(engines);
    DisjHolds(alts, row);
    if "engine" in row.text && row.text["engine"] in engines {
      var k :| 0 <= k < |engines| && engines[k] == row.text["engine"];
      assert Holds(alts[k], row);
    }
  }

  lemma SearchMeaning(s: SearchPayload, row: Row)
    ensures AllHold(SearchClause(s), row) <==> SearchMatches(s, row)
  {
    if s.search.Some? {
      var text := AsciiLower(s.search.value);
      var filter := SearchFilter(text);
      var cl := LikeClauses(SearchColumns, filter);
      DisjHolds(cl, row);
      LikeClauseMeaning("title", text, row);
      LikeClauseMeaning("equipment", text, row);
      assert cl == [LikeClause("title", text), LikeClause("equipment", text)];
      assert AllHold(SearchClause(s), row) <==> Holds(Disj(cl), row) by {
        assert SearchClause(s) == [Disj(cl)];
        assert SearchClause(s)[0] == Disj(cl);
        assert AllHold(SearchClause(s), row) ==> Holds(SearchClause(s)[0], row);
      }
      if AnyHolds(cl, row) {
        var k :| 0 <= k < |cl| && Holds(cl[k], row);
      }
    }
  }

  lemma EngineClauseMeaning(engine: Option<seq<string>>, row: Row)
    ensures AllHold(EngineClause(engine), row)
        <==> (engine.Some? && |engine.value| > 0 ==> "engine" in row.text && row.text["engine"] in engine.value)
  {
    if engine.Some? && |engine.value| > 0 {
      EngineMeaning(engine.value, row);
      assert AllHold(EngineClause(engine), row) <==> Holds(EngineClause(engine)[0], row);
    }
  }

  lemma TextClauseMeaning(c: string, v: Option<string>, row: Row)
    ensures AllHold(TextClause(c, v), row) <==> (v.Some? ==> TextIs(row, c, v.value))
  {
    if v.Some? { assert AllHold(TextClause(c, v), row) <==> Holds(TextClause(c, v)[0], row); }
  }

  lemma LowerClauseMeaning(c: string, v: Option<int>, row: Row)
    ensures AllHold(LowerClause(c, v), row) <==> (v.Some? ==> NumAtLeast(row, c, v.value))
  {
    if v.Some? { assert AllHold(LowerClause(c, v), row) <==> Holds(LowerClause(c, v)[0], row); }
  }

  lemma UpperClauseMeaning(c: string, v: Option<int>, row: Row)
    ensures AllHold(UpperClause(c, v), row) <==> (v.Some? ==> NumAtMost(row, c, v.value))
  {
    if v.Some? { assert AllHold(UpperClause(c, v), row) <==> Holds(UpperClause(c, v)[0], row); }
  }

  lemma RangeClauseMeaning(c: string, exact: Option<int>, from: Option<int>, to: Option<int>, row: Row)
    ensures AllHold(RangeClause(c, exact, from, to), row) <==> ExactOrRange(row, c, exact, from, to)
  {
    if exact.Some? {
      assert AllHold(RangeClause(c, exact, from, to), row) <==> Holds(RangeClause(c, exact, from, to)[0], row);
    } else {
      AllHoldAppend(LowerClause(c, from), UpperClause(c, to), row);
      LowerClauseMeaning(c, from, row);
      UpperClauseMeaning(c, to, row);
    }
  }

  /** The clauses up to the year criterion. */
  function FrontClauses(s: SearchPayload): seq<Pred> {
    SearchClause(s) + TextClause("make", s.make) + TextClause("model", s.model)
    + EngineClause(s.engine) + TextClause("gearbox", s.gearbox)
    + LowerClause("estimated_price_in_eur", s.estimatedPrice) + LowerClause("price_in_eur", s.price)
    + RangeClause("year", s.year, s.yearFrom, s.yearTo)
  }

  /** The criteria up to the year. */
  predicate FrontMatches(s: SearchPayload, row: Row) {
    SearchMatches(s, row)
    && (s.make.Some? ==> TextIs(row, "make", s.make.value))
    && (s.model.Some? ==> TextIs(row, "model", s.model.value))
    && (s.engine.Some? && |s.engine.value| > 0 ==> "engine" in row.text && row.text["engine"] in s.engine.value)
    && (s.gearbox.Some? ==> TextIs(row, "gearbox", s.gearbox.value))
    && (s.estimatedPrice.Some? ==> NumAtLeast(row, "estimated_price_in_eur", s.estimatedPrice.value))
    && (s.price.Some? ==> NumAtLeast(row, "price_in_eur", s.price.value))
    && ExactOrRange(row, "year", s.year, s.yearFrom, s.yearTo)
  }

  lemma FrontClausesMeaning(s: SearchPayload, row: Row)
    ensures AllHold(FrontClauses(s), row) <==> FrontMatches(s, row)
  {
    var c1 := SearchClause(s);
    SearchMeaning(s, row);
    var c2 := c1 + TextClause("make", s.make);
    AllHoldAppend(c1, TextClause("make", s.make), row);
    TextClauseMeaning("make", s.make, row);
    var c3 := c2 + TextClause("model", s.model);
    AllHoldAppend(c2, TextClause("model", s.model), row);
    TextClauseMeaning("model", s.model, row);
    var c4 := c3 + EngineClause(s.engine);
    AllHoldAppend(c3, EngineClause(s.engine), row);
    EngineClauseMeaning(s.engine, row);
    var c5 := c4 + TextClause("gearbox", s.gearbox);
    AllHoldAppend(c4, TextClause("gearbox", s.gearbox), row);
    TextClauseMeaning("gearbox", s.gearbox, row);
    var c6 := c5 + LowerClause("estimated_price_in_eur", s.estimatedPrice);
    AllHoldAppend(c5, LowerClause("estimated_price_in_eur", s.estimatedPrice), row);
    LowerClauseMeaning("estimated_price_in_eur", s.estimatedPrice, row);
    var c7 := c6 + LowerClause("price_in_eur", s.price);
    AllHoldAppend(c6, LowerClause("price_in_eur", s.price), row);
    LowerClauseMeaning("price_in_eur", s.price, row);
    var c8 := c7 + RangeClause("year", s.year, s.yearFrom, s.yearTo);
    AllHoldAppend(c7, RangeClause("year", s.year, s.yearFrom, s.yearTo), row);
    RangeClauseMeaning("year", s.year, s.yearFrom, s.yearTo, row);
    assert c8 == FrontClauses(s);
  }

  /** The clauses all hold exactly when the row satisfies every criterion. */
  lemma ClausesMeaning(s: SearchPayload, today: int, row: Row)
    ensures AllHold(Clauses(s, today), row) <==> Matches(s, today, row)
  {
    var c8 := FrontClauses(s);
    FrontClausesMeaning(s, row);
    var c9 := c8 + LowerClause("discount", s.discountFrom);
    AllHoldAppend(c8, LowerClause("discount", s.discountFrom), row);
    LowerClauseMeaning("discount", s.discountFrom, row);
    var c10 := c9 + UpperClause("discount", s.discountTo);
    AllHoldAppend(c9, UpperClause("discount", s.discountTo), row);
    UpperClauseMeaning("discount", s.discountTo, row);
    var c11 := c10 + LowerClause("save_diff_in_eur", s.saveDiffFrom);
    AllHoldAppend(c10, LowerClause("save_diff_in_eur", s.saveDiffFrom), row);
    LowerClauseMeaning("save_diff_in_eur", s.saveDiffFrom, row);
    var c12 := c11 + UpperClause("save_diff_in_eur", s.saveDiffTo);
    AllHoldAppend(c11, UpperClause("save_diff_in_eur", s.saveDiffTo), row);
    UpperClauseMeaning("save_diff_in_eur", s.saveDiffTo, row);
    var c13 := c12 + RangeClause("power", s.power, s.powerFrom, s.powerTo);
    AllHoldAppend(c12, RangeClause("power", s.power, s.powerFrom, s.powerTo), row);
    RangeClauseMeaning("power", s.power, s.powerFrom, s.powerTo, row);
    var c14 := c13 + RangeClause("mileage", s.mileage, s.mileageFrom, s.mileageTo);
    AllHoldAppend(c13, RangeClause("mileage", s.mileage, s.mileageFrom, s.mileageTo), row);
    RangeClauseMeaning("mileage", s.mileage, s.mileageFrom, s.mileageTo, row);
    var c15 := c14 + RangeClause("cc", s.cc, s.ccFrom, s.ccTo);
    AllHoldAppend(c14, RangeClause("cc", s.cc, s.ccFrom, s.ccTo), row);
    RangeClauseMeaning("cc", s.cc, s.ccFrom, s.ccTo, row);
    var c16 := c15 + LowerClause("created_on", DaysBack(today, s.createdOnFrom));
    AllHoldAppend(c15, LowerClause("created_on", DaysBack(today, s.createdOnFrom)), row);
    LowerClauseMeaning("created_on", DaysBack(today, s.createdOnFrom), row);
    var c17 := c16 + UpperClause("created_on", DaysBack(today, s.createdOnTo));
    AllHoldAppend(c16, UpperClause("created_on", DaysBack(today, s.createdOnTo)), row);
    UpperClauseMeaning("created_on", DaysBack(today, s.createdOnTo), row);
    assert c17 == Clauses(s, today);
  }
  /** An exact year, power, mileage or engine size makes the corresponding
      From/To bounds irrelevant: the filter built is the same whatever they are. */
  lemma ExactOverridesRange(s: SearchPayload, today: int, from: Option<int>, to: Option<int>)
    ensures s.year.Some? ==> Clauses(s.(yearFrom := from, yearTo := to), today) == Clauses(s, today)
    ensures s.power.Some? ==> Clauses(s.(powerFrom := from, powerTo := to), today) == Clauses(s, today)
    ensures s.mileage.Some? ==> Clauses(s.(mileageFrom := from, mileageTo := to), today) == Clauses(s, today)
    ensures s.cc.Some? ==> Clauses(s.(ccFrom := from, ccTo := to), today) == Clauses(s, today)
  {
    if s.year.Some? { YearOverridesRange(s, today, from, to); }
    if s.power.Some? { PowerOverridesRange(s, today, from, to); }
    if s.mileage.Some? { MileageOverridesRange(s, today, from, to); }
    if s.cc.Some? { CcOverridesRange(s, today, from, to); }
  }

  lemma YearOverridesRange(s: SearchPayload, today: int, from: Option<int>, to: Option<int>)
    requires s.year.Some?
    ensures Clauses(s.(yearFrom := from, yearTo := to), today) == Clauses(s, today)
  {
  }

  lemma PowerOverridesRange(s: SearchPayload, today: int, from: Option<int>, to: Option<int>)
    requires s.power.Some?
    ensures Clauses(s.(powerFrom := from, powerTo := to), today) == Clauses(s, today)
  {
  }

  lemma MileageOverridesRange(s: SearchPayload, today: int, from: Option<int>, to: Option<int>)
    requires s.mileage.Some?
    ensures Clauses(s.(mileageFrom := from, mileageTo := to), today) == Clauses(s, today)
  {
  }

  lemma CcOverridesRange(s: SearchPayload, today: int, from: Option<int>, to: Option<int>)
    requires s.cc.Some?
    ensures Clauses(s.(ccFrom := from, ccTo := to), today) == Clauses(s, today)
  {
  }

  /** The price range of the request is never read. */
  lemma PriceRangeIgnored(s: SearchPayload, today: int, from: Option<int>, to: Option<int>)
    ensures Clauses(s.(priceFrom := from, priceTo := to), today) == Clauses(s, today)
    ensures NoClauses(s.(priceFrom := from, priceTo := to)) == NoClauses(s)
  {
  }

  /** An empty engine list adds no clause: it filters like no list at all. */
  lemma EmptyEngineListIgnored(s: SearchPayload, today: int)
    ensures Clauses(s.(engine := Some([])), today) == Clauses(s.(engine := None), today)
    ensures NoClauses(s.(engine := Some([]))) == NoClauses(s.(engine := None))
  {
  }

  /** With no criteria every row meets the request, but the sentinel filter
      keeps only the rows whose make is present and not "x". */
  lemma SentinelKeepsMakeNotX(s: SearchPayload, today: int, row: Row)
    requires NoClauses(s)
    ensures Matches(s, today, row)
    ensures Holds(MatchAll, row) <==> "make" in row.text && row.text["make"] != "x"
  {
  }
}
