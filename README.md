# LightBnB property search: the listing query builder

LightBnB is a small property-rental web application. Its data layer answers the
property search with `getAllProperties(options, limit = 10)`. The function builds
one parameterised SQL statement and hands it to the PostgreSQL driver. Each
truthy option adds a placeholder `$k` to the text and a value to the
parameter list:

- a city adds a `LIKE` filter with `%city%`;
- an owner id adds a `LIKE` filter on `owner_id`;
- a minimum or maximum nightly price adds a range filter, with the price in cents;
- a minimum rating changes the grouping and adds a `HAVING` on the average
  review rating.

The first row filter is opened by `WHERE`, every later one by `AND`. The limit
is written into the text, not passed as a parameter.

The model has three modules.

- `Database` (`database.dfy`) holds the builder and two descriptions of its
  output.
  - **The builder.** `GetAllPropertiesQuery` is the function up to the driver
    call, written step by step as the source writes it. Its pieces are
    `StartWithRowFilters`, `AppendRowFilter` and `AppendGrouping`. Each one
    appends to the text, pushes onto the parameter list and updates the
    `wherePassed` flag.
  - **The clauses.** The statement is also described as a sequence of clauses
    (`Clause`). `Render` turns clauses into the exact characters the source
    writes. `ParseQuery` reads them back, and `ParseRender` proves the round trip.
  - **The reference plan.** `PlannedClauses` and `PlannedParams` describe
    declaratively which clauses and parameters the options call for. The
    builder's contract says it returns exactly `Render(PlannedClauses(..))` and
    `PlannedParams(..)`.
- `Decimal` (`decimal.dfy`) formats placeholder numbers and the limit in
  decimal, and reads them back.
- `QueryProperties` (`properties.dfy`) proves what the plan promises:
  - the parameter count;
  - the filter order;
  - a single WHERE;
  - a single GROUP BY;
  - HAVING exactly when a rating is given;
  - the placeholders are numbered `$1..$n` and each is bound to the right value;
  - how the text begins and ends.

Because the builder returns exactly the plan, and the text determines the
clauses, all of these facts hold for what the builder returns.

Quirks of the source that the model keeps as written:

- `owner_id` is compared with `LIKE`.
- With a rating, the grouping also includes `property_reviews.id`.
- The two branches of the rating block append the same `HAVING` text. The
  `wherePassed` flag they set is never read again.
- `limit` is spliced into the text. An absent argument becomes 10, but an
  explicit `0` is kept, because a JavaScript default parameter replaces only
  `undefined`.
- An option that is an empty string or the number 0 adds nothing.

Options are taken as already converted by `Number(...)`: integer prices,
owner id and rating, and a string city. Nothing outside `getAllProperties` is
modelled.

## Model

| member | source | states |
|---|---|---|
| Database.GetAllPropertiesQuery | LightBnB_WebApp-master/server/database.js:94-171 | The text built is exactly the rendering of `PlannedClauses(options, limit)`. The parameter list is exactly `PlannedParams(options)`. |
| Database.StartWithRowFilters | LightBnB_WebApp-master/server/database.js:95-149 | After the four row-filter blocks: the text is the select followed by one filter per truthy option, in the order city, owner, minimum price, maximum price. The parameters are those filters' values. `wherePassed` is true exactly when some filter was written. |
| Database.AppendRowFilter | LightBnB_WebApp-master/server/database.js:103-113 | One row-filter block (the city block, and the same shape at 115-125, 127-137 and 139-149): pushes the value and appends the condition with `$` and the new parameter count. The condition is opened by WHERE when no filter was written yet and by AND otherwise. It keeps the builder invariant and leaves `wherePassed` true. |
| Database.SkipRowFilter | LightBnB_WebApp-master/server/database.js:103 | A row filter whose option is falsy leaves text, parameters and flag unchanged. |
| Database.RowFilterStep | LightBnB_WebApp-master/server/database.js:104-111 | Appending the next filter clause, opened by AND exactly when `wherePassed`, and pushing its argument keeps the builder invariant for the extended condition list. |
| Database.AppendGrouping | LightBnB_WebApp-master/server/database.js:152-167 | With a truthy minimum rating: appends the grouping by property and review, then HAVING with the placeholder for the rating, and pushes the rating. Otherwise it appends only the grouping by property and pushes nothing. |
| Database.EffectiveLimit | LightBnB_WebApp-master/server/database.js:94 | An absent limit is 10. A given limit, including 0, is used as is. |
| Database.FalsyOptions | LightBnB_WebApp-master/server/database.js:103-152 | The truthiness tests of the five option blocks (lines 103, 115, 127, 139 and 152): an absent option, the empty string and the number 0 are falsy, and every other string or number is truthy. |
| Database.Argument | LightBnB_WebApp-master/server/database.js:104-140 | The value pushed for a row filter (lines 104, 116, 128 and 140). It is text only for the city, and then it is the city with one `%` before and one after. The owner id is pushed as given. A price is multiplied by 100. A pushed number is never 0. |
| Database.RatingParams | LightBnB_WebApp-master/server/database.js:152-155 | The rating block pushes one value exactly when the minimum rating is truthy: that rating, which is never 0. |
| Database.AppliedConditions | LightBnB_WebApp-master/server/database.js:103-149 | The row filters the options call for: at most four, each one for an option that is truthy. FilterPresence and FilterOrder state which ones and in what order. |
| Database.PlannedClauses | LightBnB_WebApp-master/server/database.js:98-171 | The clauses of the statement: one per applied row filter, plus three (select, grouping, ordering), plus a fourth, HAVING, when the rating is truthy. The select comes first and the ordering with the effective limit last. PlannedShape gives the full layout. |
| Database.PlannedParams | LightBnB_WebApp-master/server/database.js:103-155 | The parameters: one per applied row filter, plus one when the rating is truthy, so at most five. |
| Database.Render | LightBnB_WebApp-master/server/database.js:98-171 | The statement text: the clause texts one after another, at least one character per clause. ParseRender shows it loses nothing. |
| Database.ClauseText | LightBnB_WebApp-master/server/database.js:98-170 | The text that one `+=` of the builder appends for each clause: the select at 98-101, a filter line as at 106-147, a GROUP BY line at 153 or 165, the HAVING line at 157 or 161, the ORDER BY/LIMIT tail at 169-171. It is never empty. ParseClauseText reads each one back. |
| Database.WordingText | LightBnB_WebApp-master/server/database.js:98-170 | The fixed wording outside the row filters: the select with its join (98-101), `GROUP BY properties.id` (153, 165), `HAVING avg(property_reviews.rating) >= $` (157, 161), and `ORDER BY cost_per_night` with `LIMIT ` (169-170). Each starts with its keyword's first letter, which is what the reader dispatches on. |
| Database.ConjunctionText | LightBnB_WebApp-master/server/database.js:106-146 | `WHERE ` for the first row filter and `AND ` for the later ones, told apart by their first letter. |
| Database.ConditionText | LightBnB_WebApp-master/server/database.js:106-146 | The four conditions up to their placeholder: `city LIKE $`, `owner_id LIKE $`, `cost_per_night >= $` and `cost_per_night <= $`. Each ends with the `$` that the placeholder number follows. |
| Database.GroupKeyText | LightBnB_WebApp-master/server/database.js:153-165 | The end of the GROUP BY line: `, property_reviews.id` when rated, nothing extra otherwise. Its first character tells the two apart. |
| Database.GroupByText | LightBnB_WebApp-master/server/database.js:153-165 | The whole GROUP BY line in either form, starting with `G`. |
| Database.ParseRender | LightBnB_WebApp-master/server/database.js:98-171 | Reading back the text of any clause sequence yields that sequence, so the text determines its clauses. |
| Database.ParseQueryClause | LightBnB_WebApp-master/server/database.js:98-171 | Reading the text of one clause followed by more text yields that clause followed by whatever the rest reads as. |
| Database.ParseClauseText | LightBnB_WebApp-master/server/database.js:98-170 | Each clause's text is read back as that clause, however the text continues after it. |
| Database.ParseFilterClauseText | LightBnB_WebApp-master/server/database.js:106-147 | A WHERE/AND filter line, with its column, operator and placeholder number, is read back as that filter. |
| Database.ParseGroupByText | LightBnB_WebApp-master/server/database.js:153-165 | Both GROUP BY lines are read back, and the form tells whether reviews were grouped too. |
| Database.ParseHavingText | LightBnB_WebApp-master/server/database.js:157-162 | The HAVING line is read back with its placeholder number. |
| Database.ParseOrderText | LightBnB_WebApp-master/server/database.js:169-170 | The ORDER BY/LIMIT tail is read back with the limit that was spliced in. |
| Database.StatementText | LightBnB_WebApp-master/server/database.js:98-171 | The statement's text is the row-filter part, then the grouping part, then the ordering with the limit. |
| Database.AggregateText | LightBnB_WebApp-master/server/database.js:152-167 | The grouping part is GROUP BY with reviews followed by HAVING when rated, and GROUP BY properties only otherwise. |
| Database.FilterClausesAppend | LightBnB_WebApp-master/server/database.js:105-111 | One more condition adds one filter at the end. That filter is opened by AND exactly when filters already exist, and its placeholder number is the new count. |
| Database.ArgumentsAppend | LightBnB_WebApp-master/server/database.js:104 | One more applicable condition adds its argument at the end of the parameters. |
| Decimal.ReadIntText | LightBnB_WebApp-master/server/database.js:170 | The plain decimal text of an integer limit, negative ones included, is read back as that integer when no digit follows it. For limits below 10^21 in magnitude this is the text JavaScript splices. |
| Decimal.ReadNatText | LightBnB_WebApp-master/server/database.js:106 | The decimal text of a placeholder number is read back as that number when no digit follows it. |
| Decimal.ParseNatText | LightBnB_WebApp-master/server/database.js:106 | The digits of a number evaluate back to the number. |
| Decimal.DigitRunStopsAfter | LightBnB_WebApp-master/server/database.js:106-107 | The run of digits in a placeholder ends where the number's text ends, because the next character is a space. |
| Decimal.NatText | LightBnB_WebApp-master/server/database.js:106 | The decimal text of a number is non-empty and all digits, and it starts with 0 only for zero. |
| Decimal.IntText | LightBnB_WebApp-master/server/database.js:170 | The plain decimal text of an integer is non-empty, and it starts with `-` exactly when the integer is negative. This is how the limit is spliced when its magnitude is below 10^21. |
| QueryProperties.ParameterCount | LightBnB_WebApp-master/server/database.js:103-167 | There is one parameter per truthy option. The limit is never a parameter. |
| QueryProperties.FilterPresence | LightBnB_WebApp-master/server/database.js:103-149 | A row filter is written if and only if its option is truthy. |
| QueryProperties.FilterOrder | LightBnB_WebApp-master/server/database.js:103-149 | The row filters appear in the fixed order city, owner, minimum price, maximum price, each at most once. |
| QueryProperties.WhereOnce | LightBnB_WebApp-master/server/database.js:105-147 | WHERE appears once when some row filter is truthy, and not at all otherwise. |
| QueryProperties.GroupByOnce | LightBnB_WebApp-master/server/database.js:152-167 | There is exactly one GROUP BY. |
| QueryProperties.HavingIffRating | LightBnB_WebApp-master/server/database.js:152-163 | HAVING appears once when a minimum rating is truthy, and never otherwise. |
| QueryProperties.PlannedShape | LightBnB_WebApp-master/server/database.js:98-171 | The clauses, position by position: first the select. Then the filters, the first opened by WHERE, the rest by AND, and the j-th using `$j`. Then GROUP BY right after the last filter, with reviews exactly when rated. Then HAVING with `$(n+1)` right after it when rated. The ordering with the limit comes last. |
| QueryProperties.PlaceholdersNumbered | LightBnB_WebApp-master/server/database.js:104-162 | The placeholders in the text are `$1, $2, ..., $n` in that order, where n is the number of parameters. |
| QueryProperties.PlaceholderBinding | LightBnB_WebApp-master/server/database.js:104-162 | Every filter placeholder is bound to its option's value: the city between `%` wildcards, the owner id, or a price times 100. The HAVING placeholder is the last parameter, the minimum rating. |
| QueryProperties.BindingFor | LightBnB_WebApp-master/server/database.js:104-162 | The same binding, for any list of applicable conditions. |
| QueryProperties.TextFraming | LightBnB_WebApp-master/server/database.js:98-171 | The text starts with the SELECT/FROM/JOIN prefix. It ends with `ORDER BY cost_per_night`, a newline, `LIMIT` and the limit (10 when absent), then `;` and a newline. |
| QueryProperties.LimitOnlyInOrder | LightBnB_WebApp-master/server/database.js:169-170 | The limit changes only the last clause. The number of clauses and everything before the last one do not depend on it. |
| QueryProperties.CityAndMinimumPriceExample | LightBnB_WebApp-master/server/database.js:103-170 | Example: city `Vancouver` and minimum price 100 give a WHERE city filter with `$1` and an AND price filter with `$2`. They are followed by GROUP BY properties only and LIMIT 10. The parameters are `%Vancouver%` and 10000. |
| QueryProperties.StatementShape | LightBnB_WebApp-master/server/database.js:98-171 | The positional layout of PlannedShape, for any condition list, rating flag and limit. |
| QueryProperties.WhereInStatement | LightBnB_WebApp-master/server/database.js:105-147 | For any condition list, WHERE occurs once when there are conditions and never otherwise. |
| QueryProperties.GroupByInStatement | LightBnB_WebApp-master/server/database.js:152-167 | For any condition list, GROUP BY occurs exactly once. |
| QueryProperties.HavingInStatement | LightBnB_WebApp-master/server/database.js:152-163 | For any condition list, HAVING occurs once exactly when rated. |
| QueryProperties.SlotsNumbered | LightBnB_WebApp-master/server/database.js:104-162 | For any condition list, the placeholders are `$1..$n`, followed by `$(n+1)` when rated. |
| QueryProperties.AggregateFacts | LightBnB_WebApp-master/server/database.js:152-167 | The grouping part holds no WHERE and one GROUP BY. It holds one HAVING, with the next placeholder, only when rated. |
| QueryProperties.WhereInFilters | LightBnB_WebApp-master/server/database.js:105-147 | Among the row filters, only the first is opened by WHERE. |
| QueryProperties.SlotsOfFilters | LightBnB_WebApp-master/server/database.js:104-147 | The row filters use the placeholders `$1..$n` in order. |
| QueryProperties.FilterClauseAt | LightBnB_WebApp-master/server/database.js:105-111 | The i-th filter is opened by WHERE exactly when i is the first position, and it uses `$(i+1)`. |
| QueryProperties.ArgumentAt | LightBnB_WebApp-master/server/database.js:104-140 | The i-th row parameter is the argument of the i-th applied condition. |

## Left out

- The connection pool, its credentials, and the `pool.query` call with its promise handling are not modelled (database.js:3-10, 175-178). They are I/O. The model ends with the text and the parameters handed to the driver.
- The `console.log` of the statement (database.js:173) is output only.
- The JSON fixtures loaded at database.js:1-2 are not used by `getAllProperties`.
- `getUserWithEmail`, `getUserWithId`, `addUser`, `getAllReservations` and `addProperty` are not modelled. They are not part of the query builder.
- Database.PropertyOptions: `Number(...)` coercion is not modelled. Numeric options are integers that have already been converted, so `NaN`, fractional prices and floating-point results of `* 100` are outside the model. Truthiness is checked on those converted values. The source checks the raw option, so a string such as `"0"` counts as truthy there, yet pushes 0.
- Decimal.IntText: writes every integer in plain decimal. JavaScript writes a number of magnitude 10^21 or more in exponent form, so `limit = 1e21` gives `LIMIT 1e+21;`. The model would write all 22 digits. Limits that large are not modelled.
- Database.GetAllPropertiesQuery: a call with `options` left out throws a TypeError at line 103, where `options.city` is read. `PropertyOptions` always holds a record, so that failing call is not modelled.
- Database.EffectiveLimit: the limit is an integer or absent. A limit passed as a non-integer value (a string, `null`, a fraction) is not modelled.
- What the database does with the statement (SQL semantics, the meaning of `LIKE` on a number) is not modelled.
