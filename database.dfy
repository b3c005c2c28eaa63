/**
 * The listing query of the property-rental data layer: `getAllProperties`
 * assembles, from an options record and a result limit, the SQL text of one
 * statement and the positional parameters bound to its `$n` placeholders.
 *
 * The text is modelled twice: as the exact characters the builder appends,
 * and as the sequence of clauses those characters spell (`Clause`).
 * `Render` writes clauses out as text and `ParseQuery` reads them back, so
 * every statement made here about clauses is a statement about the text.
 */
module Database {
  import opened Wrappers
  import Decimal

  // ---------------------------------------------------------------------
  // Inputs
  // ---------------------------------------------------------------------

  /**
   * The `options` argument. Each field is absent or holds the value that
   * `Number(...)` produced for it (the city stays a string); prices are whole
   * currency units.
   */
  datatype PropertyOptions = PropertyOptions(
    city: Option<string>,
    ownerId: Option<int>,
    minimumPricePerNight: Option<int>,
    maximumPricePerNight: Option<int>,
    minimumRating: Option<int>)

  /** JavaScript truthiness of a string option: present and not empty. */
  predicate TruthyText(v: Option<string>) {
    v.Some? && v.value != ""
  }

  /** JavaScript truthiness of a numeric option: present and not zero. */
  predicate TruthyNumber(v: Option<int>) {
    v.Some? && v.value != 0
  }

  /**
   * The falsy values among the options: an absent option (`undefined`), the
   * empty string and the number 0. Every other string or number is truthy.
   */
  lemma FalsyOptions(s: Option<string>, n: Option<int>)
    ensures !TruthyText(None) && !TruthyText(Some(""))
    ensures !TruthyNumber(None) && !TruthyNumber(Some(0))
    ensures s.Some? && |s.value| > 0 ==> TruthyText(s)
    ensures n.Some? && (n.value < 0 || n.value > 0) ==> TruthyNumber(n)
  {
  }

  /** The limit a call without a `limit` argument gets. */
  const DEFAULT_LIMIT := 10

  function EffectiveLimit(limit: Option<int>): (l: int)
    ensures limit.None? ==> l == DEFAULT_LIMIT
    ensures limit.Some? ==> l == limit.value
  {
    match limit
    case None => DEFAULT_LIMIT
    case Some(l) => l
  }

  // ---------------------------------------------------------------------
  // Outputs: parameters and clauses
  // ---------------------------------------------------------------------

  /** A positional parameter: the city pattern is text, the others numbers. */
  datatype Param = Text(text: string) | Number(number: int)

  /** The word that opens a filter on individual rows. */
  datatype Conjunction = Where | And

  /** The four filters applied before aggregation, in the order they are tried. */
  datatype Condition = CityLike | OwnerIdLike | CostAtLeast | CostAtMost

  /** One piece of the statement, each appended by one `+=` of the builder. */
  datatype Clause =
    | SelectJoin
    | Filter(conj: Conjunction, cond: Condition, slot: nat)
    | GroupBy(withReviewId: bool)
    | HavingAverageRating(slot: nat)
    | OrderByCostLimit(limit: int)

  /** Position of a condition in the builder's fixed order. */
  function Rank(c: Condition): (k: nat)
    ensures k < 4
  {
    match c
    case CityLike => 0
    case OwnerIdLike => 1
    case CostAtLeast => 2
    case CostAtMost => 3
  }

  // ---------------------------------------------------------------------
  // The text of each clause, character for character
  // ---------------------------------------------------------------------

  /**
   * The fixed wording of the statement outside the row filters: the select
   * with its join, the grouping up to the point where its two forms part,
   * the rating condition on groups up to its `$`, and the ordering up to the
   * limit.
   */
  datatype Wording = SelectFromJoin | GroupByProperty | HavingAverage | OrderByCost

  function WordingText(w: Wording): (s: string)
    ensures |s| > 0
    ensures s[0] == match w
                    case SelectFromJoin => 'S'
                    case GroupByProperty => 'G'
                    case HavingAverage => 'H'
                    case OrderByCost => 'O'
  {
    match w
    case SelectFromJoin =>
      "SELECT " + "properties.*, avg(property_reviews.rating) AS average_rating\n"
      + "FROM properties \n"
      + "JOIN property_reviews ON properties.id = property_id \n"
    case GroupByProperty => "GROUP BY " + "properties.id"
    case HavingAverage => "HAVING " + "avg(property_reviews.rating) >= $"
    case OrderByCost => "ORDER BY " + "cost_per_night\nLIMIT "
  }

  function ConjunctionText(conj: Conjunction): (s: string)
    ensures |s| > 0 && s[0] == (if conj == Where then 'W' else 'A')
  {
    match conj
    case Where => "WHERE "
    case And => "AND "
  }

  /** A condition up to and including the `$` of its placeholder. */
  function ConditionText(cond: Condition): (s: string)
    ensures |s| > 0 && s[|s| - 1] == '$'
  {
    match cond
    case CityLike => "city LIKE $"
    case OwnerIdLike => "owner_id LIKE $"
    case CostAtLeast => "cost_per_night >= $"
    case CostAtMost => "cost_per_night <= $"
  }

  /** The end of the grouping: with or without the review id. */
  function GroupKeyText(withReviewId: bool): (s: string)
    ensures |s| > 0 && s[0] == (if withReviewId then ',' else ' ')
  {
    if withReviewId then ", property_reviews.id \n" else " \n"
  }

  function GroupByText(withReviewId: bool): (s: string)
    ensures |s| > 0 && s[0] == 'G'
  {
    WordingText(GroupByProperty) + GroupKeyText(withReviewId)
  }

  /** A placeholder number ends its line with a space and a newline. */
  const LINE_END: string := " \n"

  const STATEMENT_END: string := ";\n"

  /** The text one `+=` of the builder appends for clause c. */
  function ClauseText(c: Clause): (s: string)
    ensures |s| > 0
  {
    match c
    case SelectJoin => WordingText(SelectFromJoin)
    case Filter(conj, cond, n) => ConjunctionText(conj) + ConditionText(cond) + Decimal.NatText(n) + LINE_END
    case GroupBy(b) => GroupByText(b)
    case HavingAverageRating(n) => WordingText(HavingAverage) + Decimal.NatText(n) + LINE_END
    case OrderByCostLimit(l) => WordingText(OrderByCost) + Decimal.IntText(l) + STATEMENT_END
  }

  /** The statement text: the clause texts one after the other. */
  function Render(cs: seq<Clause>): (s: string)
    ensures |s| >= |cs|
  {
    if cs == [] then "" else ClauseText(cs[0]) + Render(cs[1..])
  }

  lemma {:induction false} RenderConcat(a: seq<Clause>, b: seq<Clause>)
    ensures Render(a + b) == Render(a) + Render(b)
  {
    if a == [] {
      assert a + b == b;
    } else {
      assert (a + b)[0] == a[0];
      assert (a + b)[1..] == a[1..] + b;
      RenderConcat(a[1..], b);
      SplitFirstOfThree(ClauseText(a[0]), Render(a[1..]), Render(b));
    }
  }

  lemma RenderAppend(cs: seq<Clause>, c: Clause)
    ensures Render(cs + [c]) == Render(cs) + ClauseText(c)
  {
    RenderConcat(cs, [c]);
    assert Render([c]) == ClauseText(c) + Render([]);
    assert ClauseText(c) + "" == ClauseText(c);
  }

  // Regrouping of concatenations, stated once for any strings so that no
  // proof below has to compare the characters of the fixed texts. Each
  // splits a chain of three, four or five pieces into its first piece and
  // the rest, which is how a clause text is read: keyword first, then the
  // remainder.

  lemma SplitFirstOfThree(a: string, b: string, c: string)
    ensures a + b + c == a + (b + c)
  {
  }

  lemma SplitFirstOfFour(a: string, b: string, c: string, d: string)
    ensures a + b + c + d == a + (b + c + d)
  {
  }

  lemma SplitFirstOfFive(a: string, b: string, c: string, d: string, e: string)
    ensures a + b + c + d + e == a + (b + c + d + e)
  {
  }

  lemma HeadOfAppend(a: string, b: string)
    requires |a| > 0
    ensures |a + b| > 0 && (a + b)[0] == a[0]
  {
  }

  // ---------------------------------------------------------------------
  // Reading the text back
  // ---------------------------------------------------------------------

  /** The text after p when s starts with p. */
  function AfterPrefix(p: string, s: string): (r: Option<string>)
    ensures r.Some? ==> |p| + |r.value| == |s|
  {
    if p <= s then Some(s[|p|..]) else None
  }

  lemma AfterPrefixMatch(p: string, rest: string)
    ensures AfterPrefix(p, p + rest) == Some(rest)
  {
    assert (p + rest)[|p|..] == rest;
  }

  lemma AfterPrefixMismatch(p: string, s: string, k: nat)
    requires k < |p| && k < |s| && p[k] != s[k]
    ensures AfterPrefix(p, s) == None
  {
  }

  /** Reads a placeholder number and the line end that follows it. */
  function ReadSlot(s: string): (r: Option<(nat, string)>)
    ensures r.Some? ==> |r.value.1| < |s|
  {
    match Decimal.ReadNat(s)
    case None => None
    case Some((n, rest)) =>
      match AfterPrefix(LINE_END, rest)
      case None => None
      case Some(after) => Some((n, after))
  }

  /** Which condition the text starts with, and the text after it. */
  function ConditionAt(s: string): (r: Option<(Condition, string)>)
    ensures r.Some? ==> |r.value.1| < |s|
  {
    match AfterPrefix(ConditionText(CityLike), s)
    case Some(rest) => Some((CityLike, rest))
    case None =>
      match AfterPrefix(ConditionText(OwnerIdLike), s)
      case Some(rest) => Some((OwnerIdLike, rest))
      case None =>
        match AfterPrefix(ConditionText(CostAtLeast), s)
        case Some(rest) => Some((CostAtLeast, rest))
        case None =>
          match AfterPrefix(ConditionText(CostAtMost), s)
          case Some(rest) => Some((CostAtMost, rest))
          case None => None
  }

  /** Reads a filter after its opening word. */
  function ParseFilter(conj: Conjunction, s: string): (r: Option<(Clause, string)>)
    ensures r.Some? ==> |r.value.1| < |s|
  {
    match ConditionAt(s)
    case None => None
    case Some((cond, after)) =>
      match ReadSlot(after)
      case None => None
      case Some((n, rest)) => Some((Filter(conj, cond, n), rest))
  }

  function ParseSelect(s: string): (r: Option<(Clause, string)>)
    ensures r.Some? ==> |r.value.1| < |s|
  {
    match AfterPrefix(WordingText(SelectFromJoin), s)
    case None => None
    case Some(rest) => Some((SelectJoin, rest))
  }

  /** Reads a filter together with its opening word. */
  function ParseOpenedFilter(conj: Conjunction, s: string): (r: Option<(Clause, string)>)
    ensures r.Some? ==> |r.value.1| < |s|
  {
    match AfterPrefix(ConjunctionText(conj), s)
    case None => None
    case Some(rest) => ParseFilter(conj, rest)
  }

  /** Reads the end of a grouping, chosen by its first character. */
  function ParseGroupKey(s: string): (r: Option<(bool, string)>)
    ensures r.Some? ==> |r.value.1| < |s|
  {
    var withReviewId := s != [] && s[0] == ',';
    match AfterPrefix(GroupKeyText(withReviewId), s)
    case None => None
    case Some(rest) => Some((withReviewId, rest))
  }

  function ParseGroupBy(s: string): (r: Option<(Clause, string)>)
    ensures r.Some? ==> |r.value.1| < |s|
  {
    match AfterPrefix(WordingText(GroupByProperty), s)
    case None => None
    case Some(after) =>
      match ParseGroupKey(after)
      case None => None
      case Some((b, rest)) => Some((GroupBy(b), rest))
  }

  function ParseHaving(s: string): (r: Option<(Clause, string)>)
    ensures r.Some? ==> |r.value.1| < |s|
  {
    match AfterPrefix(WordingText(HavingAverage), s)
    case None => None
    case Some(after) =>
      match ReadSlot(after)
      case None => None
      case Some((n, rest)) => Some((HavingAverageRating(n), rest))
  }

  function ParseOrder(s: string): (r: Option<(Clause, string)>)
    ensures r.Some? ==> |r.value.1| < |s|
  {
    match AfterPrefix(WordingText(OrderByCost), s)
    case None => None
    case Some(after) =>
      match Decimal.ReadInt(after)
      case None => None
      case Some((l, rest)) =>
        match AfterPrefix(STATEMENT_END, rest)
        case None => None
        case Some(tail) => Some((OrderByCostLimit(l), tail))
  }

  /** Reads the first clause of s, chosen by its first character, and returns it with the text after it. */
  function ParseClause(s: string): (r: Option<(Clause, string)>)
    ensures r.Some? ==> |r.value.1| < |s|
  {
    if s == [] then None
    else if s[0] == 'S' then ParseSelect(s)
    else if s[0] == 'W' then ParseOpenedFilter(Where, s)
    else if s[0] == 'A' then ParseOpenedFilter(And, s)
    else if s[0] == 'G' then ParseGroupBy(s)
    else if s[0] == 'H' then ParseHaving(s)
    else if s[0] == 'O' then ParseOrder(s)
    else None
  }

  /** Reads a whole text as a sequence of clauses; None when it is not one. */
  function ParseQuery(s: string): (r: Option<seq<Clause>>)
    decreases |s|
  {
    if s == [] then Some([])
    else
      match ParseClause(s)
      case None => None
      case Some((c, rest)) =>
        match ParseQuery(rest)
        case None => None
        case Some(cs) => Some([c] + cs)
  }

  lemma ReadSlotText(n: nat, rest: string)
    ensures ReadSlot(Decimal.NatText(n) + LINE_END + rest) == Some((n, rest))
  {
    SplitFirstOfThree(Decimal.NatText(n), LINE_END, rest);
    Decimal.ReadNatText(n, LINE_END + rest);
    AfterPrefixMatch(LINE_END, rest);
  }

  lemma ConditionAtText(cond: Condition, rest: string)
    ensures ConditionAt(ConditionText(cond) + rest) == Some((cond, rest))
  {
    var s := ConditionText(cond) + rest;
    AfterPrefixMatch(ConditionText(cond), rest);
    match cond
    case CityLike =>
    case OwnerIdLike =>
      AfterPrefixMismatch(ConditionText(CityLike), s, 0);
    case CostAtLeast =>
      AfterPrefixMismatch(ConditionText(CityLike), s, 1);
      AfterPrefixMismatch(ConditionText(OwnerIdLike), s, 0);
    case CostAtMost =>
      AfterPrefixMismatch(ConditionText(CityLike), s, 1);
      AfterPrefixMismatch(ConditionText(OwnerIdLike), s, 0);
      AfterPrefixMismatch(ConditionText(CostAtLeast), s, 15);
  }

  lemma ParseFilterText(conj: Conjunction, cond: Condition, n: nat, rest: string)
    ensures ParseFilter(conj, ConditionText(cond) + Decimal.NatText(n) + LINE_END + rest)
            == Some((Filter(conj, cond, n), rest))
  {
    SplitFirstOfFour(ConditionText(cond), Decimal.NatText(n), LINE_END, rest);
    ConditionAtText(cond, Decimal.NatText(n) + LINE_END + rest);
    ReadSlotText(n, rest);
  }

  lemma ParseOpenedFilterOf(conj: Conjunction, cond: Condition, n: nat, rest: string)
    ensures ParseOpenedFilter(conj, ConjunctionText(conj) + (ConditionText(cond) + Decimal.NatText(n) + LINE_END + rest))
            == Some((Filter(conj, cond, n), rest))
  {
    AfterPrefixMatch(ConjunctionText(conj), ConditionText(cond) + Decimal.NatText(n) + LINE_END + rest);
    ParseFilterText(conj, cond, n, rest);
  }

  lemma ParseClauseOpened(conj: Conjunction, s: string)
    requires s != [] && s[0] == ConjunctionText(conj)[0]
    ensures ParseClause(s) == ParseOpenedFilter(conj, s)
  {
  }

  lemma ParseFilterClauseText(conj: Conjunction, cond: Condition, n: nat, rest: string)
    ensures ParseClause(ClauseText(Filter(conj, cond, n)) + rest) == Some((Filter(conj, cond, n), rest))
  {
    var head := ConjunctionText(conj);
    var tail := ConditionText(cond) + Decimal.NatText(n) + LINE_END + rest;
    SplitFirstOfFive(head, ConditionText(cond), Decimal.NatText(n), LINE_END, rest);
    HeadOfAppend(head, tail);
    ParseClauseOpened(conj, head + tail);
    ParseOpenedFilterOf(conj, cond, n, rest);
  }

  lemma ParseGroupKeyText(b: bool, rest: string)
    ensures ParseGroupKey(GroupKeyText(b) + rest) == Some((b, rest))
  {
    HeadOfAppend(GroupKeyText(b), rest);
    AfterPrefixMatch(GroupKeyText(b), rest);
  }

  lemma ParseGroupByOf(b: bool, rest: string)
    ensures ParseGroupBy(WordingText(GroupByProperty) + (GroupKeyText(b) + rest)) == Some((GroupBy(b), rest))
  {
    AfterPrefixMatch(WordingText(GroupByProperty), GroupKeyText(b) + rest);
    ParseGroupKeyText(b, rest);
  }

  lemma ParseClauseGroupBy(s: string)
    requires s != [] && s[0] == 'G'
    ensures ParseClause(s) == ParseGroupBy(s)
  {
  }

  lemma ParseGroupByText(b: bool, rest: string)
    ensures ParseClause(GroupByText(b) + rest) == Some((GroupBy(b), rest))
  {
    SplitFirstOfThree(WordingText(GroupByProperty), GroupKeyText(b), rest);
    HeadOfAppend(GroupByText(b), rest);
    ParseClauseGroupBy(GroupByText(b) + rest);
    ParseGroupByOf(b, rest);
  }

  lemma ParseHavingOf(n: nat, rest: string)
    ensures ParseHaving(WordingText(HavingAverage) + (Decimal.NatText(n) + LINE_END + rest)) == Some((HavingAverageRating(n), rest))
  {
    AfterPrefixMatch(WordingText(HavingAverage), Decimal.NatText(n) + LINE_END + rest);
    ReadSlotText(n, rest);
  }

  lemma ParseClauseHaving(s: string)
    requires s != [] && s[0] == 'H'
    ensures ParseClause(s) == ParseHaving(s)
  {
  }

  lemma ParseHavingText(n: nat, rest: string)
    ensures ParseClause(ClauseText(HavingAverageRating(n)) + rest) == Some((HavingAverageRating(n), rest))
  {
    var tail := Decimal.NatText(n) + LINE_END + rest;
    SplitFirstOfFour(WordingText(HavingAverage), Decimal.NatText(n), LINE_END, rest);
    HeadOfAppend(WordingText(HavingAverage), tail);
    ParseClauseHaving(WordingText(HavingAverage) + tail);
    ParseHavingOf(n, rest);
  }

  lemma ParseOrderOf(l: int, rest: string)
    ensures ParseOrder(WordingText(OrderByCost) + (Decimal.IntText(l) + STATEMENT_END + rest)) == Some((OrderByCostLimit(l), rest))
  {
    AfterPrefixMatch(WordingText(OrderByCost), Decimal.IntText(l) + STATEMENT_END + rest);
    SplitFirstOfThree(Decimal.IntText(l), STATEMENT_END, rest);
    Decimal.ReadIntText(l, STATEMENT_END + rest);
    AfterPrefixMatch(STATEMENT_END, rest);
  }

  lemma ParseClauseOrder(s: string)
    requires s != [] && s[0] == 'O'
    ensures ParseClause(s) == ParseOrder(s)
  {
  }

  lemma ParseOrderText(l: int, rest: string)
    ensures ParseClause(ClauseText(OrderByCostLimit(l)) + rest) == Some((OrderByCostLimit(l), rest))
  {
    var tail := Decimal.IntText(l) + STATEMENT_END + rest;
    SplitFirstOfFour(WordingText(OrderByCost), Decimal.IntText(l), STATEMENT_END, rest);
    HeadOfAppend(WordingText(OrderByCost), tail);
    ParseClauseOrder(WordingText(OrderByCost) + tail);
    ParseOrderOf(l, rest);
  }

  lemma ParseSelectText(rest: string)
    ensures ParseClause(WordingText(SelectFromJoin) + rest) == Some((SelectJoin, rest))
  {
    HeadOfAppend(WordingText(SelectFromJoin), rest);
    AfterPrefixMatch(WordingText(SelectFromJoin), rest);
  }

  /** Each clause's text is read back as that clause, whatever follows it. */
  lemma ParseClauseText(c: Clause, rest: string)
    ensures ParseClause(ClauseText(c) + rest) == Some((c, rest))
  {
    match c
    case SelectJoin => ParseSelectText(rest);
    case Filter(conj, cond, n) => ParseFilterClauseText(conj, cond, n, rest);
    case GroupBy(b) => ParseGroupByText(b, rest);
    case HavingAverageRating(n) => ParseHavingText(n, rest);
    case OrderByCostLimit(l) => ParseOrderText(l, rest);
  }

  /** Reading a text that starts with a clause's text yields that clause, then whatever the rest reads as. */
  lemma ParseQueryClause(c: Clause, rest: string)
    ensures ParseQuery(ClauseText(c) + rest)
            == match ParseQuery(rest)
               case None => None
               case Some(cs) => Some([c] + cs)
  {
    ParseClauseText(c, rest);
  }

  /** The text of any clause sequence reads back as that sequence: `Render` loses nothing. */
  lemma {:induction false} ParseRender(cs: seq<Clause>)
    ensures ParseQuery(Render(cs)) == Some(cs)
  {
    if cs != [] {
      var c, rest := cs[0], cs[1..];
      assert Render(cs) == ClauseText(c) + Render(rest);
      ParseQueryClause(c, Render(rest));
      ParseRender(rest);
      assert [c] + rest == cs;
    }
  }

  // ---------------------------------------------------------------------
  // What the builder produces, stated declaratively
  // ---------------------------------------------------------------------

  /** Whether the builder applies the filter for cond: its option is truthy. */
  predicate Applies(o: PropertyOptions, cond: Condition) {
    match cond
    case CityLike => TruthyText(o.city)
    case OwnerIdLike => TruthyNumber(o.ownerId)
    case CostAtLeast => TruthyNumber(o.minimumPricePerNight)
    case CostAtMost => TruthyNumber(o.maximumPricePerNight)
  }

  /**
   * The value bound to the placeholder of cond: the city wrapped in `%`
   * wildcards, the owner as given, a price in hundredths of a currency unit.
   */
  function Argument(o: PropertyOptions, cond: Condition): (p: Param)
    requires Applies(o, cond)
    ensures p.Text? <==> cond == CityLike
    ensures p.Text? ==> |p.text| == |o.city.value| + 2 && p.text[0] == '%' && p.text[|p.text| - 1] == '%'
                        && p.text[1..|p.text| - 1] == o.city.value
    ensures cond == OwnerIdLike ==> p.number == o.ownerId.value
    ensures cond == CostAtLeast ==> p.number == o.minimumPricePerNight.value * 100
    ensures cond == CostAtMost ==> p.number == o.maximumPricePerNight.value * 100
    ensures p.Number? ==> p.number != 0
  {
    match cond
    case CityLike => Text("%" + o.city.value + "%")
    case OwnerIdLike => Number(o.ownerId.value)
    case CostAtLeast => Number(o.minimumPricePerNight.value * 100)
    case CostAtMost => Number(o.maximumPricePerNight.value * 100)
  }

  function IfApplies(o: PropertyOptions, c: Condition): seq<Condition> {
    if Applies(o, c) then [c] else []
  }

  /** The row filters the builder emits, in its fixed order. */
  function AppliedConditions(o: PropertyOptions): (r: seq<Condition>)
    ensures |r| <= 4
    ensures forall i :: 0 <= i < |r| ==> Applies(o, r[i])
  {
    IfApplies(o, CityLike) + IfApplies(o, OwnerIdLike) + IfApplies(o, CostAtLeast) + IfApplies(o, CostAtMost)
  }

  /** Filter clauses for conds: the first opens with WHERE, every later one with AND; the k-th uses `$k`. */
  function FilterClauses(conds: seq<Condition>): (r: seq<Clause>)
    ensures |r| == |conds|
  {
    if conds == [] then []
    else
      var n := |conds|;
      FilterClauses(conds[..n - 1]) + [Filter(if n == 1 then Where else And, conds[n - 1], n)]
  }

  /** The values bound to the placeholders of the filters conds, in the same order. */
  function Arguments(o: PropertyOptions, conds: seq<Condition>): (r: seq<Param>)
    requires forall i :: 0 <= i < |conds| ==> Applies(o, conds[i])
    ensures |r| == |conds|
  {
    if conds == [] then [] else Arguments(o, conds[..|conds| - 1]) + [Argument(o, conds[|conds| - 1])]
  }

  /** The grouping, and the rating condition on groups when a minimum rating is given (rated). */
  function AggregateClauses(rated: bool, slot: nat): seq<Clause> {
    if rated then [GroupBy(true), HavingAverageRating(slot)] else [GroupBy(false)]
  }

  /** The rating pushed for the HAVING placeholder, when a minimum rating is given. */
  function RatingParams(o: PropertyOptions): (ps: seq<Param>)
    ensures |ps| == if TruthyNumber(o.minimumRating) then 1 else 0
    ensures forall i :: 0 <= i < |ps| ==> ps[i] == Number(o.minimumRating.value) && ps[i].number != 0
  {
    if TruthyNumber(o.minimumRating) then [Number(o.minimumRating.value)] else []
  }

  /** A listing statement with the filters conds, grouped as rated says, ordered and cut at limit. */
  function StatementClauses(conds: seq<Condition>, rated: bool, limit: int): seq<Clause> {
    [SelectJoin] + FilterClauses(conds) + AggregateClauses(rated, |conds| + 1) + [OrderByCostLimit(limit)]
  }

  /** The clauses of the listing statement for options o and limit. */
  function PlannedClauses(o: PropertyOptions, limit: Option<int>): (cs: seq<Clause>)
    ensures |cs| == |AppliedConditions(o)| + if TruthyNumber(o.minimumRating) then 4 else 3
    ensures cs[0] == SelectJoin && cs[|cs| - 1] == OrderByCostLimit(EffectiveLimit(limit))
  {
    StatementClauses(AppliedConditions(o), TruthyNumber(o.minimumRating), EffectiveLimit(limit))
  }

  /** The positional parameters of the listing statement for options o. */
  function PlannedParams(o: PropertyOptions): (ps: seq<Param>)
    ensures |ps| == |AppliedConditions(o)| + if TruthyNumber(o.minimumRating) then 1 else 0
    ensures |ps| <= 5
  {
    Arguments(o, AppliedConditions(o)) + RatingParams(o)
  }

  // ---------------------------------------------------------------------
  // The builder
  // ---------------------------------------------------------------------

  lemma FilterClausesAppend(conds: seq<Condition>, c: Condition)
    ensures FilterClauses(conds + [c])
            == FilterClauses(conds) + [Filter(if conds == [] then Where else And, c, |conds| + 1)]
  {
    assert (conds + [c])[..|conds|] == conds;
  }

  lemma ArgumentsAppend(o: PropertyOptions, conds: seq<Condition>, c: Condition)
    requires forall i :: 0 <= i < |conds| ==> Applies(o, conds[i])
    requires Applies(o, c)
    ensures Arguments(o, conds + [c]) == Arguments(o, conds) + [Argument(o, c)]
  {
    assert (conds + [c])[..|conds|] == conds;
  }

  /**
   * The builder's state after it has tried some row filters and applied
   * conds: the text is the select and those filters, the parameters are
   * their values, and the flag records whether a WHERE has been written.
   */
  ghost predicate RowFiltersBuilt(o: PropertyOptions, queryString: string, queryParams: seq<Param>,
                                  wherePassed: bool, conds: seq<Condition>)
  {
    && (forall i :: 0 <= i < |conds| ==> Applies(o, conds[i]))
    && queryString == Render([SelectJoin] + FilterClauses(conds))
    && queryParams == Arguments(o, conds)
    && wherePassed == (conds != [])
  }

  /**
   * One of the four row-filter blocks: push the value, then append the
   * condition with `$` and the new parameter count, opened by WHERE if no
   * filter was written yet and by AND otherwise.
   */
  method AppendRowFilter(o: PropertyOptions, queryString: string, queryParams: seq<Param>, wherePassed: bool,
                         cond: Condition, value: Param, ghost conds: seq<Condition>)
    returns (queryString': string, queryParams': seq<Param>, wherePassed': bool)
    requires Applies(o, cond) && value == Argument(o, cond)
    requires RowFiltersBuilt(o, queryString, queryParams, wherePassed, conds)
    ensures RowFiltersBuilt(o, queryString', queryParams', wherePassed', conds + IfApplies(o, cond))
    ensures queryParams' == queryParams + [value] && wherePassed'
  {
    queryParams' := queryParams + [value];
    var conj;
    if !wherePassed {
      conj := Where;
      wherePassed' := true;
    } else {
      conj := And;
      wherePassed' := wherePassed;
    }
    queryString' := queryString + (ConjunctionText(conj) + ConditionText(cond) + Decimal.NatText(|queryParams'|) + LINE_END);
    RowFilterStep(o, queryString, queryParams, wherePassed, cond, conds);
  }

  lemma RowFilterStep(o: PropertyOptions, queryString: string, queryParams: seq<Param>, wherePassed: bool,
                      cond: Condition, conds: seq<Condition>)
    requires Applies(o, cond)
    requires RowFiltersBuilt(o, queryString, queryParams, wherePassed, conds)
    ensures RowFiltersBuilt(o, queryString + ClauseText(Filter(if wherePassed then And else Where, cond, |conds| + 1)),
                            queryParams + [Argument(o, cond)], true, conds + [cond])
  {
    var f := Filter(if wherePassed then And else Where, cond, |conds| + 1);
    var before := [SelectJoin] + FilterClauses(conds);
    FilterClausesAppend(conds, cond);
    assert [SelectJoin] + FilterClauses(conds + [cond]) == before + [f];
    RenderAppend(before, f);
    ArgumentsAppend(o, conds, cond);
  }

  /**
   * The first half of `getAllProperties`: the select, then each of the four
   * row filters whose option is truthy, in the fixed order city, owner,
   * minimum price, maximum price.
   */
  method StartWithRowFilters(options: PropertyOptions)
    returns (queryString: string, queryParams: seq<Param>, wherePassed: bool)
    ensures RowFiltersBuilt(options, queryString, queryParams, wherePassed, AppliedConditions(options))
  {
    queryParams := [];
    wherePassed := false;
    queryString := WordingText(SelectFromJoin);
    // The row filters applied so far.
    ghost var conds: seq<Condition> := [];
    assert Render([SelectJoin] + FilterClauses(conds)) == WordingText(SelectFromJoin) + Render([]);

    if TruthyText(options.city) {
      queryString, queryParams, wherePassed :=
        AppendRowFilter(options, queryString, queryParams, wherePassed, CityLike, Text("%" + options.city.value + "%"), conds);
    } else {
      SkipRowFilter(options, queryString, queryParams, wherePassed, CityLike, conds);
    }
    conds := conds + IfApplies(options, CityLike);

    if TruthyNumber(options.ownerId) {
      queryString, queryParams, wherePassed :=
        AppendRowFilter(options, queryString, queryParams, wherePassed, OwnerIdLike, Number(options.ownerId.value), conds);
    } else {
      SkipRowFilter(options, queryString, queryParams, wherePassed, OwnerIdLike, conds);
    }
    conds := conds + IfApplies(options, OwnerIdLike);

    if TruthyNumber(options.minimumPricePerNight) {
      queryString, queryParams, wherePassed :=
        AppendRowFilter(options, queryString, queryParams, wherePassed, CostAtLeast,
                        Number(options.minimumPricePerNight.value * 100), conds);
    } else {
      SkipRowFilter(options, queryString, queryParams, wherePassed, CostAtLeast, conds);
    }
    conds := conds + IfApplies(options, CostAtLeast);

    if TruthyNumber(options.maximumPricePerNight) {
      queryString, queryParams, wherePassed :=
        AppendRowFilter(options, queryString, queryParams, wherePassed, CostAtMost,
                        Number(options.maximumPricePerNight.value * 100), conds);
    } else {
      SkipRowFilter(options, queryString, queryParams, wherePassed, CostAtMost, conds);
    }
    conds := conds + IfApplies(options, CostAtMost);
  }

  /** A row filter whose option is falsy leaves the builder's state as it was. */
  lemma SkipRowFilter(o: PropertyOptions, queryString: string, queryParams: seq<Param>, wherePassed: bool,
                      cond: Condition, conds: seq<Condition>)
    requires !Applies(o, cond)
    requires RowFiltersBuilt(o, queryString, queryParams, wherePassed, conds)
    ensures RowFiltersBuilt(o, queryString, queryParams, wherePassed, conds + IfApplies(o, cond))
  {
    assert conds + IfApplies(o, cond) == conds;
  }

  /**
   * The grouping block of `getAllProperties`: with a truthy minimum rating,
   * group by property and review, push the rating and add the HAVING
   * condition on the average rating; otherwise group by property only.
   */
  method AppendGrouping(options: PropertyOptions, queryString: string, queryParams: seq<Param>, wherePassed: bool)
    returns (queryString': string, queryParams': seq<Param>, wherePassed': bool)
    ensures queryString' == queryString + Render(AggregateClauses(TruthyNumber(options.minimumRating), |queryParams| + 1))
    ensures queryParams' == queryParams + RatingParams(options)
  {
    queryString', queryParams', wherePassed' := queryString, queryParams, wherePassed;
    if TruthyNumber(options.minimumRating) {
      queryString' := queryString' + GroupByText(true);
      queryParams' := queryParams' + [Number(options.minimumRating.value)];
      // Both branches append the same text; the flag is not read again.
      if !wherePassed' {
        queryString' := queryString' + (WordingText(HavingAverage) + Decimal.NatText(|queryParams'|) + LINE_END);
        wherePassed' := true;
      } else {
        queryString' := queryString' + (WordingText(HavingAverage) + Decimal.NatText(|queryParams'|) + LINE_END);
      }
      SplitFirstOfThree(queryString, GroupByText(true), ClauseText(HavingAverageRating(|queryParams| + 1)));
    } else {
      queryString' := queryString' + GroupByText(false);
    }
    AggregateText(TruthyNumber(options.minimumRating), |queryParams| + 1);
  }

  /**
   * `getAllProperties` up to the point where it hands the statement to the
   * driver: the text and the parameters, built as the source builds them.
   * `limit` is None when the caller leaves the argument out.
   */
  method GetAllPropertiesQuery(options: PropertyOptions, limit: Option<int>)
    returns (queryString: string, queryParams: seq<Param>)
    ensures queryString == Render(PlannedClauses(options, limit))
    ensures queryParams == PlannedParams(options)
  {
    var wherePassed;
    queryString, queryParams, wherePassed := StartWithRowFilters(options);
    ghost var conds, rated := AppliedConditions(options), TruthyNumber(options.minimumRating);
    ghost var rows := Render([SelectJoin] + FilterClauses(conds));
    ghost var grouping := Render(AggregateClauses(rated, |conds| + 1));
    assert queryString == rows && |queryParams| == |conds|;
    queryString, queryParams, wherePassed := AppendGrouping(options, queryString, queryParams, wherePassed);
    assert queryString == rows + grouping;
    var l := EffectiveLimit(limit);
    queryString := queryString + (WordingText(OrderByCost) + Decimal.IntText(l) + STATEMENT_END);
    FixedClauseTexts(l);
    StatementText(conds, rated, l);
  }

  /** The select and the ordering are written with their fixed wording. */
  lemma FixedClauseTexts(l: int)
    ensures ClauseText(SelectJoin) == WordingText(SelectFromJoin)
    ensures ClauseText(OrderByCostLimit(l)) == WordingText(OrderByCost) + Decimal.IntText(l) + STATEMENT_END
  {
  }

  /**
   * The text of a statement is the row-filter text followed by the grouping,
   * the rating condition when there is one, and the ordering with the limit.
   */
  lemma StatementText(conds: seq<Condition>, rated: bool, limit: int)
    ensures Render(StatementClauses(conds, rated, limit))
            == Render([SelectJoin] + FilterClauses(conds)) + Render(AggregateClauses(rated, |conds| + 1))
               + ClauseText(OrderByCostLimit(limit))
  {
    var rows := [SelectJoin] + FilterClauses(conds);
    var agg := AggregateClauses(rated, |conds| + 1);
    RenderConcat(rows, agg);
    RenderAppend(rows + agg, OrderByCostLimit(limit));
  }

  lemma AggregateText(rated: bool, slot: nat)
    ensures rated ==> Render(AggregateClauses(rated, slot)) == GroupByText(true) + ClauseText(HavingAverageRating(slot))
    ensures !rated ==> Render(AggregateClauses(rated, slot)) == GroupByText(false)
  {
    if rated {
      var h := HavingAverageRating(slot);
      var g := GroupBy(true);
      assert AggregateClauses(rated, slot) == [g, h];
      assert [g, h][1..] == [h];
      assert Render([h]) == ClauseText(h);
    } else {
      assert AggregateClauses(rated, slot) == [GroupBy(false)];
    }
  }
}
