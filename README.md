# Cost manager: a Dafny model of its report, user summary and cost schema

The cost manager is a small Express/Mongoose expense tracker. Clients add
cost records (description, category, user id, amount, optional date) and ask
for a per-user monthly report grouped by category, or for a user's summary
with the total of all their costs. This project models the logic behind those
three requests and proves what they promise:

- **Cost schema** (`CostModel`, models/cost.js): five categories (food,
  health, housing, sport, education); description, category, userid and sum
  are required; the date defaults to the creation time. `Create` validates
  an add request and fills in the default. `FailingFields` lists the schema
  paths that fail, including a given date that is no calendar instant (the
  date cast's failure).
- **Add** (`AddRoute.AddCost`, `POST /add`): a valid request stores the
  document and returns it. A validation or save failure is a 400 and
  leaves the collection as it was.
- **Report** (`Report`, `GET /report`):
  - `WindowStart` and `WindowEnd` build the month's inclusive window with
    `new Date(year, month - 1, 1)` and `new Date(year, month, 0, 23, 59, 59)`.
  - `Fetch` models the store query.
  - `GroupCosts` is the grouping loop, which pushes into a `grouped`
    dictionary of five arrays. It is proved against the specification
    function `Bucket`.
  - `Layout` is the reshaping into five single-key objects in a fixed order.
  - `BuildReport` is the whole handler with the intended grouping, and
    `ReportAsWritten` the handler as written, whose grouping throws on an
    inherited Object.prototype name.
- **User summary** (`Users`, `GET /users/:id`):
  - `FindUser` is the first user whose id equals the path text or its
    integer.
  - `MatchUser`, `SumOf`, `Aggregate` and `TotalOrZero` are the aggregate
    pipeline with its `|| 0` default. They are proved equal to the one-pass
    reference `UserTotal`.
  - `UserSummary` is the whole handler, with 404 and 500.
- **Dates** (`Dates`): calendar instants in local time, Gregorian month
  lengths, the order in which the store compares dates, and the Date
  constructor of section 21.4.2.1 of ECMA-262. That includes month-index
  normalisation, day 0 as the last day of the month before, and the rule
  that maps years 0..99 to 1900..1999.
- **Parsing** (`Numbers`): `parseInt` of request text as an `Option<int>`,
  with a round-trip lemma against the decimal text of an integer.
- **Flows** (`Flows`): properties that span handlers. Every document the
  schema accepts lands in a report bucket. After an add, the month's report
  and the user's total include the new cost. The add-then-report flow for
  user 123123 in May 2025 is worked through as an example.

Two points where the code's behaviour is subtler than its comments:
- Costs whose category is not one of the five are meant to be dropped from
  a report. The loop at routes/api.js:58-67 drops them only when the name
  is not inherited by every plain object (see the "## Findings" row for
  routes/api.js:60-61). `BuildReport` drops every unknown category, on
  purpose.
- models/user.js:8,16 declares a user's `id` a String, while
  routes/api.js:94 also compares it with `parseInt(userId)` (a
  "string/number safe match"), so `Users.UserId` keeps both forms.

Store calls are modelled as functions over sequences in collection order.
A failing store call is an explicit `Option<string>` parameter (`findFault`,
`aggregateFault`, `saveFault`). The server clock is the parameter `now`.

## Model

| member | source | states |
|---|---|---|
| `Dates.DaysInMonth` | routes/api.js:42 | the Gregorian length of a month: 28..31, 29 exactly for February of a leap year, 30 exactly for April, June, September and November |
| `Dates.MonthsFillYear` | routes/api.js:42 | the twelve month lengths add up to 366 in a leap year and 365 otherwise |
| `Dates.AtOrBeforeIsTotalOrder` | routes/api.js:46 | the date comparison the `$gte`/`$lte` bounds use is reflexive, total, antisymmetric and transitive |
| `Dates.MakeDate` | routes/api.js:41-42 | `new Date(y, monthIndex, day, h, m, s)` with day 0..28 always yields a well-formed calendar instant, whatever the month index |
| `Dates.DayZeroPrecedesDayOne` | routes/api.js:42 | day 0 of a month index is the calendar day immediately before day 1 of that month index |
| `Dates.DayZeroIsLastDay` | routes/api.js:41-42 | day 0 of month index `m` is the last day (by month length) of the month whose day 1 is day 1 of month index `m - 1`, including across year ends |
| `Numbers.ParseInt` | routes/api.js:45 | parsing succeeds exactly on decimal text (optional minus, at least one digit), and unsigned text gives a non-negative value |
| `Numbers.ParseShowRoundTrip` | routes/api.js:45 | parsing the decimal text of any integer gives back that integer |
| `CostModel.CategoryOf` | models/cost.js:24 | a string is accepted as a category only if it is the name of one of the five, and it then maps to that category |
| `CostModel.CategoriesListed` | models/cost.js:24 | every category is in the declared list, and its name reads back as itself |
| `CostModel.IsValid` | models/cost.js:19-31 | a stored document is valid iff its description is non-empty and its category is one of "food", "health", "housing", "sport", "education" |
| `CostModel.FailingFields` | models/cost.js:20-29 | description is reported iff absent or empty, category iff absent or outside the enum, userid iff absent, sum iff absent, date iff given but no calendar instant (the `Date` cast fails) |
| `CostModel.Create` | models/cost.js:19-31 | a document is accepted iff description is non-empty, the category is one of five, userid and sum are present, and a given date is a calendar instant. It then keeps the four given fields, is valid, and takes the given date or else `now` (the clock, always a calendar instant), so its date is a calendar instant. A rejection lists the failing paths |
| `CostModel.TransportIsRejected` | models/cost.js:21-26 | an add with category "transport" is rejected on the category path |
| `CostModel.ImpossibleDateIsRejected` | models/cost.js:29 | an add dated 30 February at 25:00 is rejected on the date path |
| `AddRoute.AddCost` | routes/api.js:19-28 | a request succeeds iff no schema path fails and the save does not fail. The answer then echoes description, category, userid and sum, applies the date default and appends the document, whose date is a calendar instant, to the collection. Every failure is a 400, carries the failing paths when validation failed, and stores nothing. A collection whose dates are all calendar instants keeps that property |
| `Report.WindowSpansMonth` | routes/api.js:41-42 | the window starts at day 1, 00:00:00.000 of the normalised month and ends on that same month's last day at 23:59:59.000 |
| `Report.WindowMembership` | routes/api.js:41-47 | a well-formed date is in the window iff it is in the window's month and is not after 23:59:59.000 on the last day |
| `Report.MonthBoundaries` | routes/api.js:41-47 | for months 1..12, the 1st at 00:00 and the last day at 23:59:59.000 are in the window; 23:59:59.001 on the last day and the 1st of the next month are not |
| `Report.WindowStart` | routes/api.js:41 | the lower bound is a well-formed instant on day 1 at 00:00:00.000 |
| `Report.WindowEnd` | routes/api.js:42 | the upper bound is a well-formed instant at 23:59:59.000 on the last day (by month length) of the lower bound's year and month |
| `Report.InWindow` | routes/api.js:46 | defined as lower bound `<=` date `<=` upper bound; a well-formed date inside lies in the lower bound's year and month |
| `Report.Fetch` | routes/api.js:44-47 | the fetched costs are exactly the stored costs with the requested userid and a date inside the window |
| `Report.FetchAppend` | routes/api.js:44-47 | a newly stored cost is appended to the query's result iff it matches the userid and the window |
| `Report.FetchedDaysInMonth` | routes/api.js:44-47 | every fetched cost with a well-formed date lies in the window's year and month. Its entry's day is between 1 and that month's length |
| `Report.EntryOf` | routes/api.js:59-65 | defined as `{sum, description, day}` copied from the cost, with `day` the day of the month of its date; for a well-formed date that day lies between 1 and the month's length |
| `Report.Bucket` | routes/api.js:58-67 | a bucket never holds more entries than there are fetched costs |
| `Report.Positions` | routes/api.js:58-61 | the positions of a category's costs are ascending, in range, name that category, and include every such cost |
| `Report.BucketFollowsPositions` | routes/api.js:58-67 | each bucket lists `{sum, description, day}` of exactly the costs named by that category, in their fetched order. Other costs, including unknown categories, add nothing |
| `Report.BucketAppend` | routes/api.js:58-67 | one more cost extends the bucket whose name it carries by its entry and no other bucket |
| `Report.BucketSizesAddUp` | routes/api.js:49-67 | the five bucket sizes add up to the number of fetched costs with a known category |
| `Report.EmptyGroups` | routes/api.js:49-55 | the initial `grouped` object has the five categories, each with an empty array |
| `Report.PushKeepsGroups` | routes/api.js:58-67 | one iteration of the loop keeps `grouped` equal to the buckets of the costs seen so far; an unknown category leaves it unchanged |
| `Report.GroupCosts` | routes/api.js:49-67 | after the loop `grouped` has all five categories, each mapped to its bucket over the whole fetched sequence |
| `Report.Layout` | routes/api.js:70 | `costs` has exactly five single-key entries named food, health, housing, sport, education in that order, each wrapping its bucket |
| `Report.ReportCountsKnownCosts` | routes/api.js:49-70 | the entries across the five rows number the fetched costs with a known category. With none, all five rows are present and empty |
| `Report.BuildReport` | routes/api.js:38-82 | the answer is a 400 iff id, year or month does not parse or the query fails. Otherwise it echoes the parsed id, year and month, and its five rows, in fixed order, hold the buckets of that user's costs in the month's window |
| `Report.LookupAsWritten` | routes/api.js:60 | `grouped[name]` is an own bucket iff the name is one of the five categories, and an inherited member iff it is an Object.prototype property name |
| `Report.GroupAsWritten` | routes/api.js:58-67 | the loop as written, when it completes, leaves all five categories in `grouped`; when it throws, the category it stopped at is an Object.prototype property name |
| `Report.ThrowsIffInherited` | routes/api.js:58-67 | the loop as written throws iff some fetched cost's category is an Object.prototype property name |
| `Report.AsWrittenOutcome` | routes/api.js:58-67 | the loop as written throws iff an Object.prototype property name is among the costs, and otherwise completes with exactly the intended buckets |
| `Report.ReportAsWritten` | routes/api.js:38-82 | the handler as written answers 400 iff id, year or month does not parse, the query fails, or a fetched cost's category is an Object.prototype property name (the TypeError caught at :79-80). Otherwise it answers as `BuildReport` does: the parsed values and the five buckets in fixed order |
| `Report.AsWrittenAgreesOffPrototype` | routes/api.js:58-67 | when no category is an Object.prototype property name, the loop as written completes with exactly the intended buckets |
| `Report.PrototypeCategoryThrows` | routes/api.js:60-61 | a single cost with category "toString" makes the loop as written throw, while the intended grouping gives five empty buckets |
| `Users.FindUser` | routes/api.js:94 | no user is found iff no stored user's id equals the text or its parsed integer. A found user is the first one that does |
| `Users.Matches` | routes/api.js:94 | a text id matches iff it equals the path text; a numeric id matches iff it equals the parsed integer, so only decimal text can match a numeric id |
| `Users.MatchUser` | routes/api.js:99-102 | the matched costs are exactly those whose userid equals the parsed id; a failed parse matches none |
| `Users.SumOf` | routes/api.js:101 | the `$sum` of `sum` over a run of costs; it is non-negative when every amount is |
| `Users.Aggregate` | routes/api.js:99-102 | the pipeline yields at most one group, and none iff no cost has the parsed userid |
| `Users.TotalOrZero` | routes/api.js:109 | with no group the total is 0, and with a group it is that group's total (the fallback to 0 never changes a total) |
| `Users.SumOfMatchedIsUserTotal` | routes/api.js:99-102 | summing `sum` over the matched costs equals the one-pass total of that user's costs |
| `Users.UserTotal` | routes/api.js:99-110 | the reference total: the sum of `sum` over the costs whose userid equals the parsed id, in one pass. It is 0 when no cost has that userid and non-negative when every amount is |
| `Users.PipelineComputesUserTotal` | routes/api.js:99-110 | the aggregate with its fallback to 0 equals the sum of `sum` over the user's costs, and is 0 when the user has none |
| `Users.UserTotalAppend` | routes/api.js:99-102 | one more cost raises its own user's total by its `sum` and leaves every other user's total unchanged |
| `Users.UserSummary` | routes/api.js:90-114 | 404 iff the users query succeeds and no user matches. 500 iff a store call fails. Otherwise it echoes the first matching user's id and names, with the total of the costs whose userid is the parsed id. Never a 400 |
| `Flows.ValidCostLandsInBucket` | routes/api.js:58-67 | a cost the schema accepts extends exactly the bucket of its category and raises the known-category count by one; it is never dropped |
| `Flows.AddThenReport` | routes/api.js:19-67 | after a successful add, the report of the month holding the new date ends the new cost's bucket with its entry, whose day lies between 1 and the month's length, and the other buckets are unchanged |
| `Flows.AddThenSummary` | routes/api.js:99-110 | after a successful add, that user's total grows by the new `sum` and every other user's total is unchanged |
| `Flows.MilkTestExample` | test/api.test.js:27-48 | adding {123123, "milk test", food, 10} without a date during May 2025 succeeds. The report for id=123123, year=2025, month=5 then ends its food bucket with {10, "milk test", day of creation}, unless the creation is in the last 999 ms of May 31 |

## Findings

| source | as written | input that shows it | evidently intended | confidence | as-written member | corrected member |
|---|---|---|---|---|---|---|
| routes/api.js:60-61 | `if (grouped[cost.category])` is also true for names that every plain object inherits from Object.prototype (`toString`, `constructor`, `__proto__`, ...). `.push` is not a function there, so the forEach throws a TypeError and the report becomes a 400 | one stored cost of the requested user and month with category "toString" (only possible for a document not written through the schema) | drop the cost like any other unknown category and answer with the five buckets | high; not executed | `Report.ReportAsWritten` (with `Report.GroupAsWritten`, `Report.ThrowsIffInherited`, `Report.PrototypeCategoryThrows`) | `Report.GroupCosts` (with `Report.BucketFollowsPositions`, `Report.AsWrittenAgreesOffPrototype`) |

`BuildReport` uses the corrected grouping; `ReportAsWritten` keeps the written one for comparison.

## Left out

- app.js (server start-up, CORS, the database connection, the port) is not part of this model: it is I/O set-up with no logic.
- The `/about` endpoint (routes/api.js:121-126) returns a hard-coded list and has no behaviour to state.
- Store queries are modelled as filters and folds over sequences in collection order. Indexes, the unique index on user ids (models/user.js) and query planning are not modelled; `FindUser` returns the first match whatever the store holds.
- A failing store call is an `Option<string>` parameter, not a real connection. Message texts are replaced by the `Failure` datatype, not Mongoose's strings.
- The `_id` and `__v` of a saved document are left out. Mongoose assigns `_id` when `new Cost(...)` runs (routes/api.js:22), as an ObjectId built from a timestamp, a random value and a counter. `__v` is the version key, set to 0 on save. `AddCost` returns the document without either.
- Request values are taken after Mongoose's casting. A request date is the calendar instant the cast produced; one that names no calendar instant stands for date text the cast cannot read and fails on the date path. The following are not modelled: cast failures of a non-numeric userid or sum, a non-integral userid, and a `null` date.
- A userid is a JavaScript Number (a double), so `parseInt` at routes/api.js:45 and :100 rounds ids beyond 2^53 and distinct large ids compare equal in the source. The model's `int` compares them exactly.
- Report.BuildReport: years outside the Date range (beyond about ±275,760, where a time value passes ±8.64e15 ms) are not modelled. In the source `new Date(...)` is then an Invalid Date, the store's cast of the `$gte`/`$lte` bounds fails and the handler answers 400; the model builds an ordinary window and answers Ok when the query does not fail.
- Numbers.ParseInt: reads only plain decimal text. Leading spaces, a leading '+', trailing garbage (which `parseInt` ignores) and non-decimal forms are not modelled, and neither is the difference between `parseInt` and the implicit Number conversion the Date constructor applies to year and month. On plain decimal text the two agree.
- Amounts are `real`: floating-point rounding of `sum` and `total`, and a NaN total falling back to 0 through `|| 0`, are not modelled.
- Dates are calendar fields in one local time zone: time-zone offsets, daylight-saving gaps and the epoch-millisecond representation are not modelled. `MakeDate` takes a day of 0..28, the only days the handler passes.
- Concurrent requests and their interleaving against the store are not modelled; each handler is one function of the store's contents.
