/**
 * What the listing statement built by `getAllProperties` looks like, for
 * every options record and limit: where each clause sits, which placeholder
 * each parameter fills, how often WHERE, GROUP BY and HAVING occur, and
 * what the text starts and ends with. Since `GetAllPropertiesQuery` is
 * proved to return exactly `Render(PlannedClauses(o, limit))` and
 * `PlannedParams(o)`, and `ParseRender` shows the text determines its
 * clauses, each lemma here is a statement about what the builder returns.
 */
module QueryProperties {
  import opened Wrappers
  import opened Database
  import Decimal

  // ---------------------------------------------------------------------
  // Reference definitions, independent of the builder
  // ---------------------------------------------------------------------

  /** How many of the five options are truthy. */
  function TruthyCount(o: PropertyOptions): nat {
    (if TruthyText(o.city) then 1 else 0)
    + (if TruthyNumber(o.ownerId) then 1 else 0)
    + (if TruthyNumber(o.minimumPricePerNight) then 1 else 0)
    + (if TruthyNumber(o.maximumPricePerNight) then 1 else 0)
    + (if TruthyNumber(o.minimumRating) then 1 else 0)
  }

  /** Whether any of the four options that filter rows is truthy. */
  predicate AnyRowFilter(o: PropertyOptions) {
    TruthyText(o.city) || TruthyNumber(o.ownerId)
    || TruthyNumber(o.minimumPricePerNight) || TruthyNumber(o.maximumPricePerNight)
  }

  /** The placeholder numbers 1, 2, ..., n. */
  function Upto(n: nat): (r: seq<nat>)
    ensures |r| == n
    ensures forall i :: 0 <= i < n ==> r[i] == i + 1
  {
    if n == 0 then [] else Upto(n - 1) + [n]
  }

  /** How many clauses of cs satisfy p. */
  function CountOf(p: Clause -> bool, cs: seq<Clause>): nat {
    if cs == [] then 0 else (if p(cs[0]) then 1 else 0) + CountOf(p, cs[1..])
  }

  predicate IsWhere(c: Clause) {
    c.Filter? && c.conj == Where
  }

  predicate IsGroupBy(c: Clause) {
    c.GroupBy?
  }

  predicate IsHaving(c: Clause) {
    c.HavingAverageRating?
  }

  /** The placeholder a clause carries, if any. */
  function SlotOf(c: Clause): seq<nat> {
    match c
    case Filter(_, _, k) => [k]
    case HavingAverageRating(k) => [k]
    case _ => []
  }

  /** The placeholder numbers in the order they occur in the text. */
  function Slots(cs: seq<Clause>): seq<nat> {
    if cs == [] then [] else SlotOf(cs[0]) + Slots(cs[1..])
  }

  // ---------------------------------------------------------------------
  // Indexing and counting over the pieces of a statement
  // ---------------------------------------------------------------------

  /** The i-th filter opens with WHERE exactly when it is the first, and uses placeholder i + 1. */
  lemma {:induction false} FilterClauseAt(conds: seq<Condition>, i: nat)
    requires i < |conds|
    ensures FilterClauses(conds)[i] == Filter(if i == 0 then Where else And, conds[i], i + 1)
  {
    var n := |conds|;
    if i < n - 1 {
      FilterClauseAt(conds[..n - 1], i);
    }
  }

  /** The i-th filter value is the argument of the i-th condition. */
  lemma {:induction false} ArgumentAt(o: PropertyOptions, conds: seq<Condition>, i: nat)
    requires forall j :: 0 <= j < |conds| ==> Applies(o, conds[j])
    requires i < |conds|
    ensures Arguments(o, conds)[i] == Argument(o, conds[i])
  {
    var n := |conds|;
    if i < n - 1 {
      ArgumentAt(o, conds[..n - 1], i);
    }
  }

  lemma {:induction false} CountOfConcat(p: Clause -> bool, a: seq<Clause>, b: seq<Clause>)
    ensures CountOf(p, a + b) == CountOf(p, a) + CountOf(p, b)
  {
    if a == [] {
      assert a + b == b;
    } else {
      assert (a + b)[1..] == a[1..] + b;
      CountOfConcat(p, a[1..], b);
    }
  }

  lemma {:induction false} SlotsConcat(a: seq<Clause>, b: seq<Clause>)
    ensures Slots(a + b) == Slots(a) + Slots(b)
  {
    if a == [] {
      assert a + b == b;
    } else {
      assert (a + b)[1..] == a[1..] + b;
      SlotsConcat(a[1..], b);
    }
  }

  /** Exactly one of the filters opens with WHERE, when there is any filter. */
  lemma {:induction false} WhereInFilters(conds: seq<Condition>)
    ensures CountOf(IsWhere, FilterClauses(conds)) == if conds == [] then 0 else 1
  {
    if conds != [] {
      var n := |conds|;
      var f := Filter(if n == 1 then Where else And, conds[n - 1], n);
      WhereInFilters(conds[..n - 1]);
      CountOfConcat(IsWhere, FilterClauses(conds[..n - 1]), [f]);
      assert CountOf(IsWhere, [f]) == (if n == 1 then 1 else 0);
    }
  }

  /** A property no filter has is counted nowhere among the filters. */
  lemma {:induction false} NoneInFilters(p: Clause -> bool, conds: seq<Condition>)
    requires forall c: Clause :: c.Filter? ==> !p(c)
    ensures CountOf(p, FilterClauses(conds)) == 0
  {
    if conds != [] {
      var n := |conds|;
      var f := Filter(if n == 1 then Where else And, conds[n - 1], n);
      NoneInFilters(p, conds[..n - 1]);
      CountOfConcat(p, FilterClauses(conds[..n - 1]), [f]);
      assert CountOf(p, [f]) == 0;
    }
  }

  /** The filters carry the placeholders 1 to n, in that order. */
  lemma {:induction false} SlotsOfFilters(conds: seq<Condition>)
    ensures Slots(FilterClauses(conds)) == Upto(|conds|)
  {
    if conds != [] {
      var n := |conds|;
      var f := Filter(if n == 1 then Where else And, conds[n - 1], n);
      SlotsOfFilters(conds[..n - 1]);
      SlotsConcat(FilterClauses(conds[..n - 1]), [f]);
      assert Slots([f]) == [n];
    }
  }

  /** The grouping and the rating condition: one GROUP BY, and a HAVING with its placeholder only when rated. */
  lemma AggregateFacts(rated: bool, slot: nat)
    ensures var agg := AggregateClauses(rated, slot);
            && CountOf(IsWhere, agg) == 0
            && CountOf(IsGroupBy, agg) == 1
            && CountOf(IsHaving, agg) == (if rated then 1 else 0)
            && Slots(agg) == (if rated then [slot] else [])
  {
    if rated {
      var g, h := GroupBy(true), HavingAverageRating(slot);
      assert AggregateClauses(rated, slot) == [g] + [h];
      CountOfConcat(IsWhere, [g], [h]);
      CountOfConcat(IsGroupBy, [g], [h]);
      CountOfConcat(IsHaving, [g], [h]);
      SlotsConcat([g], [h]);
    }
  }

  /** Counting over a statement is counting over its select, filters, grouping and ordering. */
  lemma CountOfStatement(p: Clause -> bool, conds: seq<Condition>, rated: bool, limit: int)
    ensures CountOf(p, StatementClauses(conds, rated, limit))
            == CountOf(p, [SelectJoin]) + CountOf(p, FilterClauses(conds))
               + CountOf(p, AggregateClauses(rated, |conds| + 1)) + CountOf(p, [OrderByCostLimit(limit)])
  {
    var rows := [SelectJoin] + FilterClauses(conds);
    var agg := AggregateClauses(rated, |conds| + 1);
    CountOfConcat(p, [SelectJoin], FilterClauses(conds));
    CountOfConcat(p, rows, agg);
    CountOfConcat(p, rows + agg, [OrderByCostLimit(limit)]);
  }

  /** The placeholders of a statement are those of its filters, then that of its rating condition. */
  lemma SlotsOfStatement(conds: seq<Condition>, rated: bool, limit: int)
    ensures Slots(StatementClauses(conds, rated, limit))
            == Slots(FilterClauses(conds)) + Slots(AggregateClauses(rated, |conds| + 1))
  {
    SlotsBetween(FilterClauses(conds), AggregateClauses(rated, |conds| + 1), OrderByCostLimit(limit));
  }

  /** The select and the ordering hold no placeholder. */
  lemma SlotsBetween(filters: seq<Clause>, agg: seq<Clause>, order: Clause)
    requires order.OrderByCostLimit?
    ensures Slots([SelectJoin] + filters + agg + [order]) == Slots(filters) + Slots(agg)
  {
    var rows := [SelectJoin] + filters;
    var t := rows + agg;
    calc {
      Slots(t + [order]);
    == { SlotsConcat(t, [order]); NoSlot(order); }
      Slots(t) + [];
    == { assert Slots(t) + [] == Slots(t); }
      Slots(t);
    == { SlotsConcat(rows, agg); SlotsConcat([SelectJoin], filters); NoSlot(SelectJoin); }
      [] + Slots(filters) + Slots(agg);
    == { assert [] + Slots(filters) == Slots(filters); }
      Slots(filters) + Slots(agg);
    }
  }

  lemma NoSlot(c: Clause)
    requires c.SelectJoin? || c.GroupBy? || c.OrderByCostLimit?
    ensures Slots([c]) == []
  {
    assert [c][1..] == [];
  }

  lemma Framed(head: string, middle: string, tail: string)
    ensures var t := head + middle + tail;
            |head| + |tail| <= |t| && t[..|head|] == head && t[|t| - |tail|..] == tail
  {
    var t := head + middle + tail;
    assert t[..|head|] == head;
    assert t[|t| - |tail|..] == tail;
  }

  // ---------------------------------------------------------------------
  // Any statement of the builder's form
  // ---------------------------------------------------------------------

  /**
   * The clauses of a statement position by position: the select first; then
   * the n filters, the first opened by WHERE and the others by AND, the j-th
   * using `$j`; then the one grouping, by review as well when rated; then,
   * only in that case, the rating condition on groups with `$(n+1)`; and the
   * ordering with the limit last.
   */
  lemma StatementShape(conds: seq<Condition>, rated: bool, limit: int)
    ensures var cs, n := StatementClauses(conds, rated, limit), |conds|;
            && |cs| == n + (if rated then 4 else 3)
            && cs[0] == SelectJoin
            && (forall j :: 1 <= j <= n ==> cs[j] == Filter(if j == 1 then Where else And, conds[j - 1], j))
            && cs[n + 1] == GroupBy(rated)
            && (rated ==> cs[n + 2] == HavingAverageRating(n + 1))
            && cs[|cs| - 1] == OrderByCostLimit(limit)
  {
    var cs, filters := StatementClauses(conds, rated, limit), FilterClauses(conds);
    forall j | 1 <= j <= |conds|
      ensures cs[j] == Filter(if j == 1 then Where else And, conds[j - 1], j)
    {
      assert cs[j] == filters[j - 1];
      FilterClauseAt(conds, j - 1);
    }
  }

  /** WHERE opens the first filter and no other clause; without filters there is none. */
  lemma WhereInStatement(conds: seq<Condition>, rated: bool, limit: int)
    ensures CountOf(IsWhere, StatementClauses(conds, rated, limit)) == if conds == [] then 0 else 1
  {
    CountOfStatement(IsWhere, conds, rated, limit);
    WhereInFilters(conds);
    AggregateFacts(rated, |conds| + 1);
  }

  lemma GroupByInStatement(conds: seq<Condition>, rated: bool, limit: int)
    ensures CountOf(IsGroupBy, StatementClauses(conds, rated, limit)) == 1
  {
    CountOfStatement(IsGroupBy, conds, rated, limit);
    NoneInFilters(IsGroupBy, conds);
    AggregateFacts(rated, |conds| + 1);
  }

  lemma HavingInStatement(conds: seq<Condition>, rated: bool, limit: int)
    ensures CountOf(IsHaving, StatementClauses(conds, rated, limit)) == if rated then 1 else 0
  {
    CountOfStatement(IsHaving, conds, rated, limit);
    NoneInFilters(IsHaving, conds);
    AggregateFacts(rated, |conds| + 1);
  }

  /** The placeholders run `$1` to `$n` for the filters, then `$(n+1)` for the rating when rated. */
  lemma SlotsNumbered(conds: seq<Condition>, rated: bool, limit: int)
    ensures Slots(StatementClauses(conds, rated, limit)) == Upto(|conds| + if rated then 1 else 0)
  {
    var n := |conds|;
    SlotsOfStatement(conds, rated, limit);
    SlotsOfFilters(conds);
    AggregateFacts(rated, n + 1);
    if rated {
      assert Upto(n + 1) == Upto(n) + [n + 1];
    }
  }

  // ---------------------------------------------------------------------
  // Properties of the statement `getAllProperties` builds
  // ---------------------------------------------------------------------

  /** One parameter per truthy option; the limit is never one of them. */
  lemma ParameterCount(o: PropertyOptions)
    ensures |PlannedParams(o)| == TruthyCount(o)
  {
  }

  /** A row filter is written exactly when its option is truthy. */
  lemma FilterPresence(o: PropertyOptions, cond: Condition)
    ensures cond in AppliedConditions(o) <==> Applies(o, cond)
  {
  }

  /** The filters follow the fixed order city, owner, minimum price, maximum price, each at most once. */
  lemma FilterOrder(o: PropertyOptions)
    ensures var conds := AppliedConditions(o);
            forall i, j :: 0 <= i < j < |conds| ==> Rank(conds[i]) < Rank(conds[j])
  {
  }

  /** WHERE opens the first filter and no other clause; with no truthy row filter there is no WHERE. */
  lemma WhereOnce(o: PropertyOptions, limit: Option<int>)
    ensures CountOf(IsWhere, PlannedClauses(o, limit)) == if AnyRowFilter(o) then 1 else 0
  {
    WhereInStatement(AppliedConditions(o), TruthyNumber(o.minimumRating), EffectiveLimit(limit));
    assert (AppliedConditions(o) == []) == !AnyRowFilter(o);
  }

  /** There is exactly one GROUP BY. */
  lemma GroupByOnce(o: PropertyOptions, limit: Option<int>)
    ensures CountOf(IsGroupBy, PlannedClauses(o, limit)) == 1
  {
    GroupByInStatement(AppliedConditions(o), TruthyNumber(o.minimumRating), EffectiveLimit(limit));
  }

  /** There is a HAVING exactly when a minimum rating is given, and then only one. */
  lemma HavingIffRating(o: PropertyOptions, limit: Option<int>)
    ensures CountOf(IsHaving, PlannedClauses(o, limit)) == if TruthyNumber(o.minimumRating) then 1 else 0
  {
    HavingInStatement(AppliedConditions(o), TruthyNumber(o.minimumRating), EffectiveLimit(limit));
  }

  /**
   * The clauses in order: the select, the applied filters (WHERE first, AND
   * after), the grouping right after the last filter and by review exactly
   * when a minimum rating is given, the HAVING right after the grouping in
   * that case, and the ordering with the limit last.
   */
  lemma PlannedShape(o: PropertyOptions, limit: Option<int>)
    ensures var cs, conds := PlannedClauses(o, limit), AppliedConditions(o);
            var n, rated := |conds|, TruthyNumber(o.minimumRating);
            && |cs| == n + (if rated then 4 else 3)
            && cs[0] == SelectJoin
            && (forall j :: 1 <= j <= n ==> cs[j] == Filter(if j == 1 then Where else And, conds[j - 1], j))
            && cs[n + 1] == GroupBy(rated)
            && (rated ==> cs[n + 2] == HavingAverageRating(n + 1))
            && cs[|cs| - 1] == OrderByCostLimit(EffectiveLimit(limit))
  {
    StatementShape(AppliedConditions(o), TruthyNumber(o.minimumRating), EffectiveLimit(limit));
  }

  /** The placeholders in the text are `$1`, `$2`, ..., `$n` in that order, n being the number of parameters. */
  lemma PlaceholdersNumbered(o: PropertyOptions, limit: Option<int>)
    ensures Slots(PlannedClauses(o, limit)) == Upto(|PlannedParams(o)|)
  {
    SlotsNumbered(AppliedConditions(o), TruthyNumber(o.minimumRating), EffectiveLimit(limit));
  }

  /**
   * Each placeholder refers to the right value: `$k` in a filter is bound to
   * that filter's argument (the city between `%` wildcards, the owner, a
   * price times 100), and the HAVING placeholder is the last parameter,
   * bound to the minimum rating.
   */
  lemma PlaceholderBinding(o: PropertyOptions, limit: Option<int>, j: nat)
    requires j < |PlannedClauses(o, limit)|
    ensures var c, ps := PlannedClauses(o, limit)[j], PlannedParams(o);
            && (c.Filter? ==> 1 <= c.slot <= |ps| && Applies(o, c.cond) && ps[c.slot - 1] == Argument(o, c.cond))
            && (c.HavingAverageRating? ==>
                  c.slot == |ps| && TruthyNumber(o.minimumRating) && ps[c.slot - 1] == Number(o.minimumRating.value))
  {
    BindingFor(o, AppliedConditions(o), EffectiveLimit(limit), j);
  }

  /** PlaceholderBinding for any list of applicable conditions. */
  lemma BindingFor(o: PropertyOptions, conds: seq<Condition>, limit: int, j: nat)
    requires forall i :: 0 <= i < |conds| ==> Applies(o, conds[i])
    requires j < |StatementClauses(conds, TruthyNumber(o.minimumRating), limit)|
    ensures var c := StatementClauses(conds, TruthyNumber(o.minimumRating), limit)[j];
            var ps := Arguments(o, conds) + RatingParams(o);
            && (c.Filter? ==> 1 <= c.slot <= |ps| && Applies(o, c.cond) && ps[c.slot - 1] == Argument(o, c.cond))
            && (c.HavingAverageRating? ==>
                  c.slot == |ps| && TruthyNumber(o.minimumRating) && ps[c.slot - 1] == Number(o.minimumRating.value))
  {
    var rated := TruthyNumber(o.minimumRating);
    var c := StatementClauses(conds, rated, limit)[j];
    var args := Arguments(o, conds);
    var n := |conds|;
    StatementShape(conds, rated, limit);
    if 1 <= j <= n {
      assert c == Filter(if j == 1 then Where else And, conds[j - 1], j);
      ArgumentAt(o, conds, j - 1);
      assert (args + RatingParams(o))[j - 1] == args[j - 1];
    } else if rated && j == n + 2 {
      assert c == HavingAverageRating(n + 1);
      assert (args + RatingParams(o))[n] == Number(o.minimumRating.value);
    } else {
      assert !c.Filter? && !c.HavingAverageRating?;
    }
  }

  /** The text begins with the select and ends with the ordering and `LIMIT` followed by the limit (10 when absent). */
  lemma TextFraming(o: PropertyOptions, limit: Option<int>)
    ensures var t, head := Render(PlannedClauses(o, limit)), WordingText(SelectFromJoin);
            var tail := WordingText(OrderByCost) + Decimal.IntText(EffectiveLimit(limit)) + STATEMENT_END;
            && |head| + |tail| <= |t|
            && t[..|head|] == head
            && t[|t| - |tail|..] == tail
  {
    var conds := AppliedConditions(o);
    var middle := FilterClauses(conds) + AggregateClauses(TruthyNumber(o.minimumRating), |conds| + 1);
    var order := OrderByCostLimit(EffectiveLimit(limit));
    assert PlannedClauses(o, limit) == [SelectJoin] + middle + [order];
    RenderConcat([SelectJoin], middle);
    RenderAppend([SelectJoin] + middle, order);
    assert Render([SelectJoin]) == ClauseText(SelectJoin) + Render([]);
    Framed(ClauseText(SelectJoin), Render(middle), ClauseText(order));
    FixedClauseTexts(EffectiveLimit(limit));
  }

  /** The limit changes only the last clause: it never reaches the parameters or any other clause. */
  lemma LimitOnlyInOrder(o: PropertyOptions, a: Option<int>, b: Option<int>)
    ensures |PlannedClauses(o, a)| == |PlannedClauses(o, b)|
    ensures var n := |PlannedClauses(o, a)|;
            PlannedClauses(o, a)[..n - 1] == PlannedClauses(o, b)[..n - 1]
  {
    var conds, rated := AppliedConditions(o), TruthyNumber(o.minimumRating);
    var rows := [SelectJoin] + FilterClauses(conds) + AggregateClauses(rated, |conds| + 1);
    assert PlannedClauses(o, a)[..|rows|] == rows;
    assert PlannedClauses(o, b)[..|rows|] == rows;
  }

  /** A search for one city from 100 a night: two parameters, the price in hundredths, and the default limit. */
  lemma CityAndMinimumPriceExample()
    ensures var o := PropertyOptions(Some("Vancouver"), None, Some(100), None, None);
            && PlannedClauses(o, None)
               == [SelectJoin, Filter(Where, CityLike, 1), Filter(And, CostAtLeast, 2), GroupBy(false),
                   OrderByCostLimit(10)]
            && PlannedParams(o) == [Text("%Vancouver%"), Number(10000)]
  {
    var o := PropertyOptions(Some("Vancouver"), None, Some(100), None, None);
    assert AppliedConditions(o) == [CityLike, CostAtLeast];
    assert [CityLike, CostAtLeast][..1] == [CityLike];
    assert FilterClauses([CityLike, CostAtLeast])
           == FilterClauses([CityLike]) + [Filter(And, CostAtLeast, 2)];
    assert Arguments(o, [CityLike, CostAtLeast])
           == Arguments(o, [CityLike]) + [Argument(o, CostAtLeast)];
    assert "%" + "Vancouver" + "%" == "%Vancouver%";
  }
}
