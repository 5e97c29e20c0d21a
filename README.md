# Finance controller model

This is a Dafny model of the finance controller of a personal-finance REST backend
(`src/controllers/financeController.js`). Users record income and expense entries. The
controller creates, updates and deletes those entries. It lists and searches them with
optional filters. It also computes three kinds of report: per-category sums and counts, a
twelve-month table for one year, and income/expense/balance totals, either overall or for a
period.

The document store is a sequence of records in insertion order.

- `Finance.find(q)` is `Query.Find`. It returns the subsequence of records that match the
  filter `q`. It fails with a server error when a date bound of the filter is an Invalid
  Date, which is what the object-document mapper does when it cannot cast such a value.
- A handler takes the caller's user id and its request parameters.
- A handler that writes returns its reply together with the store as it leaves it
  (`FinanceController.Step`).

The files are:

| file | module | contents |
|---|---|---|
| `wrappers.dfy` | `Wrappers` | `Option` and `Result` |
| `time.dfy` | `Time` | UTC instants and how the controller builds dates |
| `records.dfy` | `Records` | the record, the type and category allow-lists, the error replies, filters and sums over records |
| `stats.dfy` | `Stats` | report totals, category statistics, the monthly table (an in-place loop over a 12-slot array) |
| `query.dfy` | `Query` | the filter object, matching, `find`, the year and month windows, the newest-first sort |
| `controller.dfy` | `FinanceController` | the nine handlers |

Two handlers build their filter by successive assignments, and both are imperative methods:
`GetFinancesQuery` and `FilterQuery`. Each is proved equal to a filter stated by outcome
(`ListQuery`, `SearchQuery`). The model then proves which records that filter keeps.

`getMonthlyStats` fills a twelve-slot array in a loop (`Stats.MonthlyTable`). The
handlers `GetMonthlyStats`, `GetFinances` and `FilterFinance` are methods, because they
call those methods. Every other handler is a function.

Behaviour of the code worth knowing:

- `filterFinance` does not validate its dates. An unparseable `startDate` or `endDate`
  becomes an Invalid Date, and the store then fails with a server error. No validation
  error is returned before the query.
- In `filterFinance`, explicit dates do not merge with a year or month window. They replace
  the whole `createdAt` bound, because that assignment runs last.
- An update passes its body through without checks. A stored record may therefore carry any
  type or category string, so the model keeps them as strings. Creation alone uses the
  closed allow-lists.
- `getFinances` lists a year only up to the first instant of December 31, because its upper
  bound is `new Date(y, 11, 31)` (`LastDayCutOff`).
- In `getFinances`, a sent year's bound replaces the month bound. With no year at all, both
  month dates are Invalid and the store fails. With the year sent empty (`?month=3&year=`),
  the empty string converts to 0, which the `Date` constructor reads as 1900. The month bound
  of 1900 is then used and the year block is skipped (`NumberParam.Blank`,
  `BlankYearMonth`).

## Model

| member | source | states |
|---|---|---|
| Time.IsoMonthStart | src/controllers/financeController.js:177-178 | a "YYYY-MM-01T00:00:00.000Z" string is a date exactly when the year has four digits and the month is 1..12, and it is then the first instant of that month (offset 0 in month m of year y) |
| Time.AddMonths | src/controllers/financeController.js:36-37 | a month index outside 0..11 moves into the year before or after, keeping the absolute month count |
| Time.DayStart | src/controllers/financeController.js:36-44 | the constructed day is a real moment at midnight; day 0 is the start of the last day of the month before, and a day within the month is the start of that day of the normalised month |
| Time.LocalDate | src/controllers/financeController.js:36-44 | `new Date(year, m, d)` is an Invalid Date exactly when the year is missing (its value is then a real moment by its type) |
| Time.FirstOfJanuary | src/controllers/financeController.js:43 | `new Date(y, 0, 1)` is the first instant of the year |
| Time.LastOfDecember | src/controllers/financeController.js:44 | `new Date(y, 11, 31)` is midnight at the start of December 31 |
| Time.LastDayOfMonth | src/controllers/financeController.js:37 | `new Date(y, m, 0)` is the start of the last day of month m, December included |
| Time.DaysInMonth | src/controllers/financeController.js:36-37 | months have 28 to 31 days, and 29 only for February of a leap year |
| Records.StoredTypeOf | src/controllers/financeController.js:92 | a type string has one stored form, which reads back as that string and is an allow-listed type exactly when the string is one |
| Records.StoredTypeRoundTrip | src/controllers/financeController.js:113 | the stored form of a stored type's text is that stored type |
| Records.ParseType | src/controllers/financeController.js:65-67 | a type is accepted exactly when it is "income" or "expense", and it names the accepted type |
| Records.ParseCategory | src/controllers/financeController.js:69-85 | a category is accepted exactly when it is one of the eight names, and it names the accepted category |
| Records.TypeNameRoundTrip | src/controllers/financeController.js:65 | each type's name is on the allow-list and parses back to that type |
| Records.CategoryNameRoundTrip | src/controllers/financeController.js:70-79 | each category's name is on the allow-list and parses back to that category |
| Records.OfKindMembers | src/controllers/financeController.js:149 | the type filter keeps exactly the records of that type |
| Records.InCategoryMembers | src/controllers/financeController.js:10-17 | the category filter keeps exactly the records of that category |
| Records.InMonthMembers | src/controllers/financeController.js:194 | the month filter keeps exactly the records created in that UTC month |
| Records.TotalAppend | src/controllers/financeController.js:150 | the sum of two lists joined is the sum of their sums |
| Stats.ReportTotals | src/controllers/financeController.js:148-156 | the two filter-then-reduce passes equal one pass that sorts each amount into income or expense, and the balance is their difference |
| Stats.ReportTotalsSnoc | src/controllers/financeController.js:148-156 | an appended record moves the report's income or expense by its amount, as its type says |
| Stats.SumsAppend | src/controllers/financeController.js:148-154 | the income and expense sums are additive over joined lists |
| Stats.ReportTotalsAppend | src/controllers/financeController.js:148-156 | income, expense and balance of joined lists are the sums of their parts |
| Stats.BalanceIsSignedTotal | src/controllers/financeController.js:156 | the balance is the sum of the amounts with expenses negated and other types ignored |
| Stats.CategoryStats | src/controllers/financeController.js:10-17 | every entry counts at least one and at most all of the records |
| Stats.CategoryStatsEntry | src/controllers/financeController.js:10-17 | a category is a key exactly when it has records, and its entry is their amount sum and count |
| Stats.CategoryStatsKeys | src/controllers/financeController.js:11-13 | a category is a key exactly when some record has that category |
| Stats.SumStatsRemove | src/controllers/financeController.js:10-17 | the total over the entries is one entry plus the total over the others |
| Stats.CategoryStatsSum | src/controllers/financeController.js:10-17 | the entries' totals add up to the sum of all amounts, and their counts add up to the number of records |
| Stats.MonthWithoutRecords | src/controllers/financeController.js:186-191 | a month no record falls in keeps zero income and zero expense |
| Stats.MonthlyTable | src/controllers/financeController.js:186-203 | the table has twelve entries, entry i is for month i+1, and each holds that month's income and expense with balance their difference; a month with no records stays all zero |
| Stats.MonthSumsStep | src/controllers/financeController.js:194-199 | a record adds its amount to the sums of the month list only when it falls in that month |
| Stats.InMonthPrefix | src/controllers/financeController.js:193-194 | extending the walked prefix by one record extends its month list by that record exactly when it falls in that month |
| Stats.MonthTotalsAreMonthSums | src/controllers/financeController.js:193-203 | after the first k records, a month's running income and expense are the sums over those of its records |
| Stats.MonthEntryIsMonthReport | src/controllers/financeController.js:193-203 | the finished entry of a month is the income/expense/balance report over that month's records |
| Stats.MonthsStep | src/controllers/financeController.js:193-203 | one further record adds its amount to the months up to n exactly when its month is among them |
| Stats.MonthsBeforeAny | src/controllers/financeController.js:186-191 | before any record is walked, every month is zero |
| Stats.SumsPrefix | src/controllers/financeController.js:193-199 | extending the walked prefix by one record adds its income or expense amount |
| Stats.MonthsPartition | src/controllers/financeController.js:193-203 | the twelve months together account for every walked record's amount exactly once |
| Stats.MonthsPartitionReport | src/controllers/financeController.js:193-203 | the months' income and expense add up to the report totals over the year's records |
| Query.Find | src/controllers/financeController.js:49 | the store answers exactly when no date bound of the filter is an Invalid Date, and otherwise fails with a server error |
| Query.SelectMembers | src/controllers/financeController.js:49 | the records found are exactly the stored records that match the filter |
| Query.SelectIsSubsequence | src/controllers/financeController.js:49 | each stored record is found at most as often as it is stored |
| Query.SelectCount | src/controllers/financeController.js:49 | each matching record is found exactly as often as it is stored, and a record that does not match never |
| Query.SelectSameMatches | src/controllers/financeController.js:325-328 | two filters that agree on every stored record find the same records in the same order |
| Query.OwnerQuerySelects | src/controllers/financeController.js:8 | the owner filter finds exactly the caller's records |
| Query.YearWindowCastable | src/controllers/financeController.js:177-182 | the year window bounds are both dates exactly for the years 1000..9998 |
| Query.YearWindowSelects | src/controllers/financeController.js:235-237 | the year window admits exactly the instants of that UTC year |
| Query.MonthWindowCastable | src/controllers/financeController.js:245-260 | the month window bounds are both dates exactly for four-digit years and months 1..12, with December needing a next year of four digits |
| Query.MonthWindowSelects | src/controllers/financeController.js:246-260 | the month window runs from the first instant of the month to the first instant of the next, December rolling into January of the next year |
| Query.InsertNewestPerm | src/controllers/financeController.js:291 | inserting a record adds exactly that record |
| Query.SortedTail | src/controllers/financeController.js:291 | the rest of a newest-first list is newest-first and no newer than its head |
| Query.SortedCons | src/controllers/financeController.js:291 | a record no older than a newest-first list can be put in front of it |
| Query.InsertNewestSorted | src/controllers/financeController.js:291 | inserting into a newest-first list keeps it newest-first |
| Query.SortNewestCorrect | src/controllers/financeController.js:291 | the sort orders newest first and is a permutation of its input |
| FinanceController.OwnedMembers | src/controllers/financeController.js:8 | the caller's records are exactly the stored records the caller owns |
| FinanceController.ValidateInput | src/controllers/financeController.js:61-85 | missing or falsy fields (a numeric amount of zero among them) are refused first, then a type off the allow-list, then a category off the allow-list; every other body is accepted with its own values |
| FinanceController.ValidateAcceptsOwnFields | src/controllers/financeController.js:61-85 | a body spelling out a valid record's fields is accepted and yields that record |
| FinanceController.CreateFinance | src/controllers/financeController.js:57-100 | a refused body leaves the store unchanged; an accepted one appends one record of the caller, with the given id and instant and the body's values |
| FinanceController.IndexOfId | src/controllers/financeController.js:107 | the lookup gives the first position holding the id, or reports that none does |
| FinanceController.ApplyPatch | src/controllers/financeController.js:113-115 | fields in the body replace the record's, the others are kept, and id, owner and creation instant never change |
| FinanceController.ApplyPatchIdempotent | src/controllers/financeController.js:113-115 | applying the same body twice changes nothing more, and an empty body changes nothing |
| FinanceController.UpdateFinance | src/controllers/financeController.js:103-121 | a missing record or another user's is not found and the store is unchanged; otherwise only that record is replaced, by its merge with the body |
| FinanceController.DeleteFinance | src/controllers/financeController.js:124-141 | a missing record or another user's is not found and the store is unchanged; otherwise exactly that record is removed and the rest keep their order |
| FinanceController.DeleteRemovesOne | src/controllers/financeController.js:129-136 | a deletion removes one occurrence of the record and keeps every other record |
| FinanceController.DeletedIsGone | src/controllers/financeController.js:129-136 | when ids are unique, the deleted id can no longer be found |
| FinanceController.GetFinanceReport | src/controllers/financeController.js:144-162 | the report's balance is its income minus its expense |
| FinanceController.FinanceReportOnePass | src/controllers/financeController.js:146-156 | the report sums the caller's income and expense amounts, and its balance is their signed sum |
| FinanceController.ReportAfterCreate | src/controllers/financeController.js:88-94 | a created record moves its owner's report by its amount, in the column its type names, and leaves every other user's report alone |
| FinanceController.GetCategoryStats | src/controllers/financeController.js:4-23 | over the caller's records, the entries' totals add up to the sum of the amounts and their counts to the number of records |
| FinanceController.CategoryStatsOfUser | src/controllers/financeController.js:4-23 | a category is a key exactly when one of the caller's records has it, and its entry is that category's sum and count |
| FinanceController.YearRecordsMembers | src/controllers/financeController.js:177-183 | for years 1000..9998 the year filter finds exactly the caller's records of that UTC year |
| FinanceController.GetMonthlyStats | src/controllers/financeController.js:165-209 | a missing year is refused; a year the ISO strings cannot carry makes the store fail; otherwise twelve entries for months 1..12, each the report over the caller's records of that month of the year |
| FinanceController.DateYear | src/controllers/financeController.js:36-44 | the year the `Date` constructor receives is NaN exactly when the parameter was not sent |
| FinanceController.GetFinancesQuery | src/controllers/financeController.js:27-46 | the filter built step by step always holds the owner, holds the type when given, and holds the year bound whenever a non-empty year is sent, replacing any month bound |
| FinanceController.LastDayCutOff | src/controllers/financeController.js:43-45 | a listed year ends at the first instant of December 31; anything later that day is not listed |
| FinanceController.TwoDigitYear | src/controllers/financeController.js:43-45 | a year 0..99 lists the year 1900 + y: `?year=24` lists the records of 1924 up to the first instant of December 31 |
| FinanceController.BlankYearMonth | src/controllers/financeController.js:34-39 | with the year sent empty, month m lists the records of month m of 1900 up to the first instant of its last day |
| FinanceController.ListQueryMatches | src/controllers/financeController.js:28-46 | on a castable listing filter, a record matches exactly when it is the caller's, of the given type, and inside the listed year, or for an empty year the listed month of 1900 |
| FinanceController.GetFinances | src/controllers/financeController.js:26-54 | a month with no year sent makes the store fail; otherwise the result holds exactly the caller's records of the given type in the listed year (for an empty year, the listed month of 1900), each exactly as often as it is stored |
| FinanceController.CalendarWindow | src/controllers/financeController.js:233-261 | a month gives the month window, replacing a year window; a year alone gives the year window; with neither there is no date bound |
| FinanceController.FilterQuery | src/controllers/financeController.js:226-288 | the filter built assignment by assignment equals the filter stated by outcome: owner always; type, category and keyword when given; amount bounds independently; explicit dates over a month window over a year window |
| FinanceController.SearchQueryCastable | src/controllers/financeController.js:234-288 | the search filter can be cast exactly under the conditions stated on the parameters |
| FinanceController.SearchWindowMatches | src/controllers/financeController.js:234-288 | the date bound admits exactly the instants inside the explicit dates, or else the month, or else the year |
| FinanceController.SearchQueryMatches | src/controllers/financeController.js:226-288 | on a castable search, the filter matches exactly the wanted records: the caller's, with inclusive amount bounds, exact type and category, the keyword in title or category, and the date condition |
| FinanceController.FilterFinance | src/controllers/financeController.js:211-297 | the search fails exactly when its filter holds an Invalid Date; otherwise the result is the wanted stored records, each exactly as often as it is stored, newest first |
| FinanceController.PeriodRecordsMembers | src/controllers/financeController.js:325-328 | the period filter finds exactly the caller's records from start to end, both inclusive |
| FinanceController.GetFinanceReportByPeriod | src/controllers/financeController.js:300-339 | missing dates, then unparseable dates, then a start after the end are refused, in that order; every other request is answered, with the dates as sent and the totals over the caller's records in the period |
| FinanceController.PeriodChecksIgnoreStore | src/controllers/financeController.js:305-322 | whether and how the period report is refused does not depend on the store |
| FinanceController.PeriodSpanningAll | src/controllers/financeController.js:325-339 | a period spanning all of the caller's records reports the same totals as the overall report |

## Left out

- HTTP status codes, JSON bodies and message strings are left out. Each error reply is a
  constructor of `Records.Error`, with its status in a comment.
- Storage failures other than an Invalid Date cast are left out, as are the messages that
  `getMonthlyStats` and `filterFinance` echo. The store is a sequence that always answers.
- Time zones are not modelled: the local-time `new Date(y, m, d)` of `getFinances` is taken
  in UTC.
- The clock is a parameter: `new Date().getFullYear()` in `filterFinance` is the
  `currentYear` argument.
- Date-string parsing is a parameter: `new Date(string)` in `getFinanceReportByPeriod` is
  the `parse` argument. In `filterFinance` the parameters are already `Date` values.
- Year strings are not modelled. A year is an integer written in canonical decimal.
  Strings such as "024" or "+002024" are not modelled.
- Time.IsoMonthStart: the ISO strings that `getMonthlyStats` and `filterFinance` build are read
  in the strict Date Time String Format of ECMA-262. A year without four digits
  is therefore taken as an Invalid Date, and the model then answers with a server error, as
  for `?year=999` or `?year=9999`. An engine may instead apply its own fallback parse to such
  strings, and that fallback is not modelled.
- Query-string typing is left out. Month, year and amount parameters are integers when
  present. Non-numeric strings, which give NaN, are not modelled. An empty string is
  modelled as absent, which is what the truthiness tests make of it. The one exception is
  the year of `getFinances`, where an empty year reaches the `Date` constructor as 0
  (`NumberParam`).
- ValidateInput: a JSON body may send the amount as a string. `"0"` is a truthy string, so
  it passes the missing-field check. The model's amount is a number only, so this case is not
  modelled, and the refusal of a zero amount holds only for a numeric zero.
- Floating-point amounts are left out: amounts are integers, so float rounding in the sums
  is not modelled.
- The `$regex` keyword match is a caller-supplied predicate (`KeywordMatch`), because regex
  semantics and case folding are library behaviour.
- Sort ties are not modelled: the order among records with equal `createdAt` is left open.
  Only the newest-first order and the permutation are stated.
- Mongoose schema validation and defaults are left out. src/models/financeModel.js is not
  part of this model. Creation uses the controller's own checks only.
- Only four update-body fields are modelled: title, amount, type and category. Other body
  fields, such as `user` or `createdAt`, are not, and neither is the update that
  `findByIdAndUpdate` would apply to them.
- Ids are natural numbers. A malformed ObjectId, which makes the lookup throw (500), is not
  modelled.
- The `req.user.id` versus `req.user._id` difference is left out: every handler takes one
  caller id.
- The first, dead `module.exports` at the end of the controller is left out, along with
  route wiring, route shadowing, the database connection and the reminder controller,
  because they hold no logic.
- Prototype-named category keys are left out: `getCategoryStats` accumulates into a plain
  object, and a category named like an `Object.prototype` member is not modelled.
- The ECMAScript time-value bound (±8.64e15 ms) is not modelled, so far-off years do not
  become Invalid Dates.
- FinanceController.GetFinanceReport: its own contract states only the balance. The rest of
  the report is stated by `FinanceReportOnePass`, `ReportAfterCreate` and
  `PeriodSpanningAll`.
