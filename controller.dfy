/**
 * The handlers of the finance controller, over a store of records held as a sequence in
 * insertion order. Each handler takes the caller's user id and its request parameters
 * and returns its reply; the handlers that write also return the store afterwards.
 */
module FinanceController {
  import opened Wrappers
  import opened Time
  import opened Records
  import opened Stats
  import opened Query

  /** The reply of a handler that may write, with the store as that handler leaves it. */
  datatype Step<T> = Step(reply: Result<T, Error>, store: seq<Record>)

  /** The keyword test of the handlers that never search by keyword: it is never consulted. */
  const NoKeyword: KeywordMatch := (pattern, text) => false

  /** The records of one user. */
  function Owned(store: seq<Record>, user: UserId): seq<Record>
  {
    Select(store, OwnerQuery(user), NoKeyword)
  }

  lemma {:induction false} OwnedMembers(store: seq<Record>, user: UserId)
    ensures forall x :: x in Owned(store, user) <==> x in store && x.owner == user
  {
    OwnerQuerySelects(store, user, NoKeyword);
  }

  // ---------------------------------------------------------------------------------------
  // createFinance

  /** The body of a creation request: each field absent or as sent. */
  datatype FinanceInput = FinanceInput(title: Option<string>, amount: Option<int>, kind: Option<string>, category: Option<string>)

  /** The fields of a record that passed validation. */
  datatype NewFinance = NewFinance(title: string, amount: int, kind: TxType, category: Category)

  /** An amount is truthy when it is present and not zero. */
  predicate AmountGiven(a: Option<int>)
  {
    a.Some? && a.value != 0
  }

  predicate AllGiven(b: FinanceInput)
  {
    Given(b.title) && AmountGiven(b.amount) && Given(b.kind) && Given(b.category)
  }

  /**
   * The creation checks, in order: every field present and truthy (so an amount of zero is
   * refused), the type one of the two type names, the category one of the eight names.
   */
  function ValidateInput(b: FinanceInput): (r: Result<NewFinance, Error>)
    ensures r == Err(MissingFields) <==> !AllGiven(b)
    ensures r == Err(BadType) <==> AllGiven(b) && b.kind.value !in TypeNames
    ensures r == Err(BadCategory) <==> AllGiven(b) && b.kind.value in TypeNames && b.category.value !in CategoryNames
    ensures r.Ok? <==> AllGiven(b) && b.kind.value in TypeNames && b.category.value in CategoryNames
    ensures r.Ok? ==>
      && r.value.title == b.title.value && r.value.amount == b.amount.value
      && r.value.kind.Name() == b.kind.value && r.value.category.Name() == b.category.value
  {
    if !AllGiven(b) then Err(MissingFields)
    else match ParseType(b.kind.value)
      case None => Err(BadType)
      case Some(t) =>
        match ParseCategory(b.category.value)
        case None => Err(BadCategory)
        case Some(c) => Ok(NewFinance(b.title.value, b.amount.value, t, c))
  }

  /** The body that spells out a valid record's own fields is accepted and gives that record back. */
  lemma ValidateAcceptsOwnFields(n: NewFinance)
    requires n.title != "" && n.amount != 0
    ensures ValidateInput(FinanceInput(Some(n.title), Some(n.amount), Some(n.kind.Name()), Some(n.category.Name()))) == Ok(n)
  {
    TypeNameRoundTrip(n.kind);
    CategoryNameRoundTrip(n.category);
  }

  /**
   * `createFinance`: a validated body is stored as a new record of the caller, with the id and
   * the creation instant the store assigns; a refused body leaves the store as it was.
   */
  function CreateFinance(store: seq<Record>, user: UserId, b: FinanceInput, id: RecordId, now: Moment): (s: Step<Record>)
    ensures s.reply.Ok? <==> ValidateInput(b).Ok?
    ensures s.reply.Err? ==> s.reply.error == ValidateInput(b).error && s.store == store
    ensures s.reply.Ok? ==> s.store == store + [s.reply.value]
    ensures s.reply.Ok? ==>
      var x := s.reply.value;
      && x.id == id && x.owner == user && x.createdAt == now
      && x.title == b.title.value && x.amount == b.amount.value
      && TypeText(x.kind) == b.kind.value && x.category == b.category.value
  {
    match ValidateInput(b)
    case Err(e) => Step(Err(e), store)
    case Ok(n) =>
      var x := Record(id, user, n.title, n.amount, Listed(n.kind), n.category.Name(), now);
      Step(Ok(x), store + [x])
  }

  // ---------------------------------------------------------------------------------------
  // updateFinance and deleteFinance

  /** `findById`: the position of the first record with the id, if any. */
  function IndexOfId(store: seq<Record>, id: RecordId): (i: Option<nat>)
    ensures i.Some? ==> i.value < |store| && store[i.value].id == id
    ensures i.Some? ==> forall j :: 0 <= j < i.value ==> store[j].id != id
    ensures i.None? ==> forall j :: 0 <= j < |store| ==> store[j].id != id
    decreases |store|
  {
    if store == [] then None
    else if store[0].id == id then Some(0)
    else match IndexOfId(store[1..], id)
      case None => None
      case Some(k) => Some(k + 1)
  }

  /** The ownership guard: the record exists and belongs to the caller. */
  predicate Accessible(store: seq<Record>, user: UserId, id: RecordId)
  {
    IndexOfId(store, id).Some? && store[IndexOfId(store, id).value].owner == user
  }

  /** The fields an update body sets, each either absent or the new value. */
  datatype Patch = Patch(title: Option<string>, amount: Option<int>, kind: Option<string>, category: Option<string>)

  /** The record with the body's fields merged in; its identity, owner and creation instant stay. */
  function ApplyPatch(x: Record, p: Patch): (u: Record)
    ensures u.id == x.id && u.owner == x.owner && u.createdAt == x.createdAt
    ensures u.title == if p.title.Some? then p.title.value else x.title
    ensures u.amount == if p.amount.Some? then p.amount.value else x.amount
    ensures TypeText(u.kind) == if p.kind.Some? then p.kind.value else TypeText(x.kind)
    ensures u.category == if p.category.Some? then p.category.value else x.category
  {
    x.(title := if p.title.Some? then p.title.value else x.title,
       amount := if p.amount.Some? then p.amount.value else x.amount,
       kind := if p.kind.Some? then StoredTypeOf(p.kind.value) else x.kind,
       category := if p.category.Some? then p.category.value else x.category)
  }

  /** Merging the same body twice changes nothing more, and an empty body changes nothing. */
  lemma ApplyPatchIdempotent(x: Record, p: Patch)
    ensures ApplyPatch(ApplyPatch(x, p), p) == ApplyPatch(x, p)
    ensures ApplyPatch(x, Patch(None, None, None, None)) == x
  {
  }

  /**
   * `updateFinance`: a missing record or one of another user is not found and nothing
   * changes; otherwise the record is replaced, in place, by its merge with the body.
   */
  function UpdateFinance(store: seq<Record>, user: UserId, id: RecordId, p: Patch): (s: Step<Record>)
    ensures s.reply.Ok? <==> Accessible(store, user, id)
    ensures s.reply.Err? ==> s.reply.error == NotFound && s.store == store
    ensures s.reply.Ok? ==>
      var i := IndexOfId(store, id).value;
      && s.reply.value == ApplyPatch(store[i], p)
      && |s.store| == |store| && s.store[i] == s.reply.value
      && forall j :: 0 <= j < |store| && j != i ==> s.store[j] == store[j]
  {
    match IndexOfId(store, id)
    case None => Step(Err(NotFound), store)
    case Some(i) =>
      if store[i].owner != user then Step(Err(NotFound), store)
      else
        var u := ApplyPatch(store[i], p);
        Step(Ok(u), store[i := u])
  }

  /**
   * `deleteFinance`: a missing record or one of another user is not found and nothing
   * changes; otherwise exactly that record is removed and the others keep their order.
   */
  function DeleteFinance(store: seq<Record>, user: UserId, id: RecordId): (s: Step<()>)
    ensures s.reply.Ok? <==> Accessible(store, user, id)
    ensures s.reply.Err? ==> s.reply.error == NotFound && s.store == store
    ensures s.reply.Ok? ==>
      var i := IndexOfId(store, id).value;
      s.store == store[..i] + store[i + 1..]
  {
    match IndexOfId(store, id)
    case None => Step(Err(NotFound), store)
    case Some(i) =>
      if store[i].owner != user then Step(Err(NotFound), store)
      else Step(Ok(()), store[..i] + store[i + 1..])
  }

  /** A deletion takes out the one record and leaves every other record stored. */
  lemma {:induction false} DeleteRemovesOne(store: seq<Record>, user: UserId, id: RecordId)
    requires Accessible(store, user, id)
    ensures multiset(DeleteFinance(store, user, id).store) + multiset{store[IndexOfId(store, id).value]} == multiset(store)
  {
    var i := IndexOfId(store, id).value;
    assert store == store[..i] + [store[i]] + store[i + 1..];
  }

  /** When ids are unique, a deleted record can no longer be found. */
  lemma {:induction false} DeletedIsGone(store: seq<Record>, user: UserId, id: RecordId)
    requires forall i, j :: 0 <= i < j < |store| ==> store[i].id != store[j].id
    requires Accessible(store, user, id)
    ensures IndexOfId(DeleteFinance(store, user, id).store, id).None?
  {
    var i := IndexOfId(store, id).value;
    var after := DeleteFinance(store, user, id).store;
    forall j | 0 <= j < |after|
      ensures after[j].id != id
    {
      if j < i {
        assert after[j] == store[j];
      } else {
        assert after[j] == store[j + 1];
      }
    }
  }

  // ---------------------------------------------------------------------------------------
  // getFinanceReport, getCategoryStats

  /** `getFinanceReport`: the totals over the caller's records. */
  function GetFinanceReport(store: seq<Record>, user: UserId): (t: Totals)
    ensures t.balance == t.income - t.expense
  {
    ReportTotals(Owned(store, user))
  }

  /** The report equals the one pass over the caller's records, and its balance is their signed sum. */
  lemma {:induction false} FinanceReportOnePass(store: seq<Record>, user: UserId)
    ensures GetFinanceReport(store, user)
         == Totals(IncomeSum(Owned(store, user)), ExpenseSum(Owned(store, user)),
                   IncomeSum(Owned(store, user)) - ExpenseSum(Owned(store, user)))
    ensures GetFinanceReport(store, user).balance == SignedTotal(Owned(store, user))
  {
    BalanceIsSignedTotal(Owned(store, user));
  }

  /**
   * A created record moves its owner's report by its amount, in the income or the expense
   * column as its type says, and leaves every other user's report alone.
   */
  lemma {:induction false} ReportAfterCreate(store: seq<Record>, user: UserId, b: FinanceInput, id: RecordId, now: Moment, other: UserId)
    requires CreateFinance(store, user, b, id, now).reply.Ok?
    requires other != user
    ensures var x := CreateFinance(store, user, b, id, now).reply.value;
            var after := CreateFinance(store, user, b, id, now).store;
            && GetFinanceReport(after, user).income == GetFinanceReport(store, user).income + IncomeAmount(x)
            && GetFinanceReport(after, user).expense == GetFinanceReport(store, user).expense + ExpenseAmount(x)
            && GetFinanceReport(after, other) == GetFinanceReport(store, other)
  {
    var x := CreateFinance(store, user, b, id, now).reply.value;
    SelectSnoc(store, x, OwnerQuery(user), NoKeyword);
    SelectSnoc(store, x, OwnerQuery(other), NoKeyword);
    ReportTotalsSnoc(Owned(store, user), x);
    AppendNothing(Owned(store, other));
  }

  /**
   * `getCategoryStats`: sum and count per category over the caller's records; the entries'
   * totals add up to the sum of the caller's amounts and their counts to the caller's record count.
   */
  function GetCategoryStats(store: seq<Record>, user: UserId): (m: map<string, CategoryStat>)
    ensures SumStats(m) == CategoryStat(Total(Owned(store, user)), |Owned(store, user)|)
  {
    CategoryStatsSum(Owned(store, user));
    CategoryStats(Owned(store, user))
  }

  /**
   * A category is a key exactly when one of the caller's records has it, and its entry holds
   * that category's amount sum and record count.
   */
  lemma {:induction false} CategoryStatsOfUser(store: seq<Record>, user: UserId, c: string)
    ensures c in GetCategoryStats(store, user) <==> exists x :: x in store && x.owner == user && x.category == c
    ensures c in GetCategoryStats(store, user) ==>
      GetCategoryStats(store, user)[c]
        == CategoryStat(Total(InCategory(Owned(store, user), c)), |InCategory(Owned(store, user), c)|)
  {
    CategoryStatsKeys(Owned(store, user), c);
    CategoryStatsEntry(Owned(store, user), c);
    OwnedMembers(store, user);
  }

  // ---------------------------------------------------------------------------------------
  // getMonthlyStats

  /** The filter of the monthly statistics: the caller's records in the UTC year y. */
  function YearQuery(user: UserId, y: int): Query
  {
    Query(user, None, None, None, None, Some(YearWindow(y)))
  }

  function YearRecords(store: seq<Record>, user: UserId, y: int): seq<Record>
  {
    Select(store, YearQuery(user, y), NoKeyword)
  }

  /** For a year the store can cast, the year filter keeps the caller's records created in that UTC year. */
  lemma {:induction false} YearRecordsMembers(store: seq<Record>, user: UserId, y: int)
    requires 1000 <= y <= 9998
    ensures forall x :: x in YearRecords(store, user, y) <==> x in store && x.owner == user && x.createdAt.year == y
  {
    SelectMembers(store, YearQuery(user, y), NoKeyword);
    forall x: Record
      ensures InDateRange(x.createdAt, YearWindow(y)) <==> x.createdAt.year == y
    {
      YearWindowSelects(y, x.createdAt);
    }
  }

  /**
   * `getMonthlyStats`: refused without a year; a year the ISO strings cannot carry makes the
   * store fail; otherwise the twelve-slot table over the caller's records of that year.
   */
  method GetMonthlyStats(store: seq<Record>, user: UserId, year: Option<int>) returns (r: Result<seq<MonthStat>, Error>)
    ensures year.None? ==> r == Err(MissingYear)
    ensures year.Some? ==> (r.Ok? <==> 1000 <= year.value <= 9998)
    ensures year.Some? && r.Err? ==> r.error == ServerError
    ensures r.Ok? ==> |r.value| == 12
    ensures r.Ok? ==> forall i :: 0 <= i < 12 ==>
      var rs := InMonth(YearRecords(store, user, year.value), i + 1);
      r.value[i] == MonthStat(i + 1, ReportTotals(rs).income, ReportTotals(rs).expense, ReportTotals(rs).balance)
  {
    if year.None? {
      return Err(MissingYear);
    }
    var y := year.value;
    YearWindowCastable(y);
    var found := Find(store, YearQuery(user, y), NoKeyword);
    if found.Err? {
      return Err(found.error);
    }
    var table := MonthlyTable(found.value);
    forall i | 0 <= i < 12
      ensures var rs := InMonth(found.value, i + 1);
        table[i] == MonthStat(i + 1, ReportTotals(rs).income, ReportTotals(rs).expense, ReportTotals(rs).balance)
    {
      MonthEntryIsMonthReport(found.value, i + 1);
    }
    return Ok(table);
  }

  // ---------------------------------------------------------------------------------------
  // getFinances

  /**
   * A numeric query parameter as `getFinances` sees it: not sent, sent as the empty string,
   * or sent as a number. Only the last is truthy; the empty string is falsy.
   */
  datatype NumberParam = Absent | Blank | Sent(n: int)

  /** The year the `Date` constructor receives: `undefined` converts to NaN and `""` to 0. */
  function DateYear(y: NumberParam): (r: Option<int>)
    ensures r.None? <==> y.Absent?
  {
    match y
    case Absent => None
    case Blank => Some(0)
    case Sent(n) => Some(n)
  }

  /** The query parameters of the listing: the type and the month absent (or empty), or as sent. */
  datatype ListParams = ListParams(kind: Option<string>, month: Option<int>, year: NumberParam)

  /**
   * The filter `getFinances` builds, field by field: the owner; the type when given; for a
   * month, the local days from its first to its last; for a year, which is handled after
   * the month and so replaces its bound, the local days January 1 to December 31.
   */
  method GetFinancesQuery(user: UserId, p: ListParams) returns (filters: Query)
    ensures filters == ListQuery(user, p)
  {
    filters := OwnerQuery(user);
    if Given(p.kind) {
      filters := filters.(kind := p.kind);
    }
    if p.month.Some? {
      var startDate := LocalDate(DateYear(p.year), p.month.value - 1, 1);
      var endDate := LocalDate(DateYear(p.year), p.month.value, 0);
      filters := filters.(createdAt := Some(DateRange(Some(startDate), None, Some(endDate))));
    }
    if p.year.Sent? {
      var startDate := LocalDate(DateYear(p.year), 0, 1);
      var endDate := LocalDate(DateYear(p.year), 11, 31);
      filters := filters.(createdAt := Some(DateRange(Some(startDate), None, Some(endDate))));
    }
  }

  /**
   * The filter of the listing, stated by outcome: a sent year bounds the year and wins over a
   * month; a month with an empty year bounds that month of 1900; a month with no year at all
   * gets two Invalid Dates.
   */
  function ListQuery(user: UserId, p: ListParams): Query
  {
    var kind := if Given(p.kind) then p.kind else None;
    var createdAt :=
      if p.year.Sent? then Some(DateRange(Some(LocalDate(Some(p.year.n), 0, 1)), None, Some(LocalDate(Some(p.year.n), 11, 31))))
      else if p.month.Some? && p.year.Blank? then
        Some(DateRange(Some(At(DayStart(1900, p.month.value - 1, 1))), None, Some(At(DayStart(1900, p.month.value, 0)))))
      else if p.month.Some? then Some(DateRange(Some(Invalid), None, Some(Invalid)))
      else None;
    Query(user, kind, None, None, None, createdAt)
  }

  /**
   * The instants the year listing admits: from the first instant of January 1 up to and
   * including the first instant of December 31 of the year the constructor reads.
   */
  predicate InListedYear(t: Instant, y: int)
  {
    Le(Instant(FullYear(y), 1, 0), t) && Le(t, Instant(FullYear(y), 12, 30 * MsPerDay))
  }

  /**
   * The instants a month listing with an empty year admits: from the first day of month m
   * of 1900 up to and including the first instant of that month's last day.
   */
  predicate InListedMonth(t: Instant, m: int)
  {
    Le(DayStart(1900, m - 1, 1), t) && Le(t, DayStart(1900, m, 0))
  }

  /** The records the listing returns, stated without the filter. */
  predicate InListing(x: Record, user: UserId, p: ListParams)
  {
    && x.owner == user
    && (Given(p.kind) ==> TypeText(x.kind) == p.kind.value)
    && (p.year.Sent? ==> InListedYear(x.createdAt, p.year.n))
    && (p.year.Blank? && p.month.Some? ==> InListedMonth(x.createdAt, p.month.value))
  }

  /** A record created after midnight on December 31 is not listed under its own year. */
  lemma LastDayCutOff(y: int, ms: nat)
    requires 30 * MsPerDay < ms
    ensures !InListedYear(Instant(FullYear(y), 12, ms), y)
    ensures InListedYear(Instant(FullYear(y), 12, 30 * MsPerDay), y)
  {
  }

  /** A two-digit year lists the year 1900 + y: `?year=24` lists the records of 1924. */
  lemma TwoDigitYear(y: int, t: Moment)
    requires 0 <= y <= 99
    ensures InListedYear(t, y) <==> t.year == 1900 + y && (t.month < 12 || t.ms <= 30 * MsPerDay)
  {
  }

  /**
   * With the year sent empty, month m (1..12) lists the records of that month of 1900, up to
   * the first instant of its last day.
   */
  lemma BlankYearMonth(m: MonthNumber, t: Moment)
    ensures InListedMonth(t, m) <==> t.year == 1900 && t.month == m && t.ms <= (DaysInMonth(1900, m) - 1) * MsPerDay
  {
    LastDayOfMonth(0, m);
    assert DayStart(1900, m - 1, 1) == Instant(1900, m, 0);
  }

  lemma ListQueryMatches(user: UserId, p: ListParams, x: Record)
    requires Castable(ListQuery(user, p))
    ensures Matches(x, ListQuery(user, p), NoKeyword) <==> InListing(x, user, p)
  {
    if p.year.Sent? {
      FirstOfJanuary(p.year.n);
      LastOfDecember(p.year.n);
    }
  }

  /**
   * `getFinances`: a month with no year builds Invalid Dates and the store fails; otherwise
   * the caller's records of the given type in the listed year (or, for an empty year, the
   * listed month of 1900), each as often as it is stored.
   */
  method GetFinances(store: seq<Record>, user: UserId, p: ListParams) returns (r: Result<seq<Record>, Error>)
    ensures r.Err? <==> p.month.Some? && p.year.Absent?
    ensures r.Err? ==> r.error == ServerError
    ensures r.Ok? ==> forall x :: x in r.value <==> x in store && InListing(x, user, p)
    ensures r.Ok? ==> forall x :: multiset(r.value)[x] == if InListing(x, user, p) then multiset(store)[x] else 0
  {
    var filters := GetFinancesQuery(user, p);
    r := Find(store, filters, NoKeyword);
    if r.Ok? {
      SelectMembers(store, filters, NoKeyword);
      SelectCount(store, filters, NoKeyword);
      forall x: Record
        ensures Matches(x, filters, NoKeyword) <==> InListing(x, user, p)
      {
        ListQueryMatches(user, p, x);
      }
    }
  }

  // ---------------------------------------------------------------------------------------
  // filterFinance

  /**
   * The query parameters of the search, each absent or as sent; the two dates are the values
   * `new Date` gives for non-empty strings.
   */
  datatype FilterParams = FilterParams(
    kind: Option<string>,
    month: Option<int>,
    year: Option<int>,
    keyword: Option<string>,
    category: Option<string>,
    minAmount: Option<int>,
    maxAmount: Option<int>,
    startDate: Option<DateValue>,
    endDate: Option<DateValue>)

  /** The year a month refers to: the given year, or else the current one. */
  function YearValue(p: FilterParams, currentYear: int): int
  {
    if p.year.Some? then p.year.value else currentYear
  }

  /**
   * The `createdAt` bound of the search, stated by outcome: explicit dates replace any
   * window; a month window replaces a year window; a year window stands alone.
   */
  function SearchWindow(p: FilterParams, currentYear: int): Option<DateRange>
  {
    if p.startDate.Some? || p.endDate.Some? then Some(DateRange(p.startDate, None, p.endDate))
    else if p.month.Some? then Some(MonthWindow(YearValue(p, currentYear), p.month.value))
    else if p.year.Some? then Some(YearWindow(p.year.value))
    else None
  }

  /** The filter of the search, stated by outcome. */
  function SearchQuery(user: UserId, p: FilterParams, currentYear: int): Query
  {
    Query(user,
          if Given(p.kind) then p.kind else None,
          if Given(p.category) then p.category else None,
          if Given(p.keyword) then p.keyword else None,
          if p.minAmount.Some? || p.maxAmount.Some? then Some(AmountRange(p.minAmount, p.maxAmount)) else None,
          SearchWindow(p, currentYear))
  }

  /**
   * The year and month blocks of `filterFinance`: a year sets a year window; a month then sets
   * both bounds of the window to its own first instant and the first instant of the month
   * after, whether or not a year window was there.
   */
  method CalendarWindow(p: FilterParams, currentYear: int) returns (createdAt: Option<DateRange>)
    ensures p.month.Some? ==> createdAt == Some(MonthWindow(YearValue(p, currentYear), p.month.value))
    ensures p.month.None? && p.year.Some? ==> createdAt == Some(YearWindow(p.year.value))
    ensures p.month.None? && p.year.None? ==> createdAt.None?
  {
    createdAt := None;
    if p.year.Some? {
      var startOfYear := IsoMonthStart(p.year.value, 1);
      var endOfYear := IsoMonthStart(p.year.value + 1, 1);
      createdAt := Some(DateRange(Some(startOfYear), Some(endOfYear), None));
    }
    if p.month.Some? {
      var range := if createdAt.Some? then createdAt.value else DateRange(None, None, None);
      var yearValue := if p.year.Some? then p.year.value else currentYear;
      var monthStart := IsoMonthStart(yearValue, p.month.value);
      var nextMonth := p.month.value + 1;
      var monthEnd := if nextMonth > 12 then IsoMonthStart(yearValue + 1, 1) else IsoMonthStart(yearValue, nextMonth);
      range := range.(gte := Some(monthStart));
      range := range.(lt := Some(monthEnd));
      createdAt := Some(range);
    }
  }

  /**
   * The filter `filterFinance` builds, in the handler's order: type, year and month window,
   * amount bounds, keyword, category, and last the explicit dates, which start the
   * `createdAt` bound afresh. Each field of the filter object is a local variable here,
   * written by the same blocks in the same order, and the object is assembled at the end.
   */
  method FilterQuery(user: UserId, p: FilterParams, currentYear: int) returns (query: Query)
    ensures query == SearchQuery(user, p, currentYear)
  {
    var kind, category, keyword := None, None, None;
    var amount: Option<AmountRange> := None;
    if Given(p.kind) {
      kind := p.kind;
    }
    var createdAt := CalendarWindow(p, currentYear);
    if p.minAmount.Some? || p.maxAmount.Some? {
      var bounds := AmountRange(None, None);
      if p.minAmount.Some? {
        bounds := bounds.(gte := p.minAmount);
      }
      if p.maxAmount.Some? {
        bounds := bounds.(lte := p.maxAmount);
      }
      amount := Some(bounds);
    }
    if Given(p.keyword) {
      keyword := p.keyword;
    }
    if Given(p.category) {
      category := p.category;
    }
    if p.startDate.Some? || p.endDate.Some? {
      var range := DateRange(None, None, None);
      if p.startDate.Some? {
        range := range.(gte := p.startDate);
      }
      if p.endDate.Some? {
        range := range.(lte := p.endDate);
      }
      createdAt := Some(range);
    }
    query := Query(user, kind, category, keyword, amount, createdAt);
  }

  /** When the store can cast the search's filter, stated on the parameters. */
  predicate SearchCastable(p: FilterParams, currentYear: int)
  {
    if p.startDate.Some? || p.endDate.Some? then ValidBound(p.startDate) && ValidBound(p.endDate)
    else if p.month.Some? then
      var y, m := YearValue(p, currentYear), p.month.value;
      1000 <= y <= 9999 && 1 <= m <= 12 && (m < 12 || y <= 9998)
    else if p.year.Some? then 1000 <= p.year.value <= 9998
    else true
  }

  /** The date condition of the search, stated on the parameters. */
  predicate WantedDate(t: Instant, p: FilterParams, currentYear: int)
  {
    if p.startDate.Some? || p.endDate.Some? then
      && (p.startDate.Some? ==> p.startDate.value.At? && Le(p.startDate.value.instant, t))
      && (p.endDate.Some? ==> p.endDate.value.At? && Le(t, p.endDate.value.instant))
    else if p.month.Some? then t.year == YearValue(p, currentYear) && t.month == p.month.value
    else if p.year.Some? then t.year == p.year.value
    else true
  }

  /** The records the search returns, stated on the parameters. */
  predicate Wanted(x: Record, user: UserId, p: FilterParams, currentYear: int, kw: KeywordMatch)
  {
    && x.owner == user
    && (Given(p.kind) ==> TypeText(x.kind) == p.kind.value)
    && (Given(p.category) ==> x.category == p.category.value)
    && (Given(p.keyword) ==> kw(p.keyword.value, x.title) || kw(p.keyword.value, x.category))
    && (p.minAmount.Some? ==> p.minAmount.value <= x.amount)
    && (p.maxAmount.Some? ==> x.amount <= p.maxAmount.value)
    && WantedDate(x.createdAt, p, currentYear)
  }

  lemma SearchQueryCastable(user: UserId, p: FilterParams, currentYear: int)
    ensures Castable(SearchQuery(user, p, currentYear)) <==> SearchCastable(p, currentYear)
  {
    if !(p.startDate.Some? || p.endDate.Some?) {
      if p.month.Some? {
        MonthWindowCastable(YearValue(p, currentYear), p.month.value);
      } else if p.year.Some? {
        YearWindowCastable(p.year.value);
      }
    }
  }

  lemma SearchWindowMatches(p: FilterParams, currentYear: int, t: Instant)
    requires SearchCastable(p, currentYear)
    requires SearchWindow(p, currentYear).Some?
    ensures InDateRange(t, SearchWindow(p, currentYear).value) <==> WantedDate(t, p, currentYear)
  {
    if !(p.startDate.Some? || p.endDate.Some?) {
      if p.month.Some? {
        MonthWindowSelects(YearValue(p, currentYear), p.month.value, t);
      } else if p.year.Some? {
        YearWindowSelects(p.year.value, t);
      }
    }
  }

  /** On a castable search, the filter matches exactly the wanted records. */
  lemma SearchQueryMatches(user: UserId, p: FilterParams, currentYear: int, kw: KeywordMatch, x: Record)
    requires SearchCastable(p, currentYear)
    ensures Matches(x, SearchQuery(user, p, currentYear), kw) <==> Wanted(x, user, p, currentYear, kw)
  {
    if SearchWindow(p, currentYear).Some? {
      SearchWindowMatches(p, currentYear, x.createdAt);
    }
  }

  /**
   * `filterFinance`: the store fails on a filter holding an Invalid Date; otherwise the wanted
   * records of the caller, each as often as it is stored, newest first.
   */
  method FilterFinance(store: seq<Record>, user: UserId, p: FilterParams, currentYear: int, kw: KeywordMatch)
    returns (r: Result<seq<Record>, Error>)
    ensures r.Ok? <==> SearchCastable(p, currentYear)
    ensures r.Err? ==> r.error == ServerError
    ensures r.Ok? ==> forall x :: x in r.value <==> x in store && Wanted(x, user, p, currentYear, kw)
    ensures r.Ok? ==> forall x :: multiset(r.value)[x] == if Wanted(x, user, p, currentYear, kw) then multiset(store)[x] else 0
    ensures r.Ok? ==> NewestFirst(r.value)
  {
    var query := FilterQuery(user, p, currentYear);
    SearchQueryCastable(user, p, currentYear);
    var found := Find(store, query, kw);
    if found.Err? {
      return Err(found.error);
    }
    var sorted := SortNewest(found.value);
    SortNewestCorrect(found.value);
    SelectMembers(store, query, kw);
    SelectCount(store, query, kw);
    forall x: Record
      ensures x in sorted <==> x in store && Wanted(x, user, p, currentYear, kw)
      ensures multiset(sorted)[x] == if Wanted(x, user, p, currentYear, kw) then multiset(store)[x] else 0
    {
      SearchQueryMatches(user, p, currentYear, kw, x);
      assert x in sorted <==> x in multiset(sorted);
      assert x in found.value <==> x in multiset(found.value);
    }
    return Ok(sorted);
  }

  // ---------------------------------------------------------------------------------------
  // getFinanceReportByPeriod

  /** The period report: the two dates as sent, and the totals over the period. */
  datatype PeriodReport = PeriodReport(startDate: string, endDate: string, totals: Totals)

  /** The filter of the period report: the caller's records from start to end, both inclusive. */
  function PeriodQuery(user: UserId, start: Moment, end: Moment): Query
  {
    Query(user, None, None, None, None, Some(DateRange(Some(At(start)), None, Some(At(end)))))
  }

  function PeriodRecords(store: seq<Record>, user: UserId, start: Moment, end: Moment): seq<Record>
  {
    Select(store, PeriodQuery(user, start, end), NoKeyword)
  }

  lemma {:induction false} PeriodRecordsMembers(store: seq<Record>, user: UserId, start: Moment, end: Moment)
    ensures forall x :: x in PeriodRecords(store, user, start, end) <==>
      x in store && x.owner == user && Le(start, x.createdAt) && Le(x.createdAt, end)
  {
    SelectMembers(store, PeriodQuery(user, start, end), NoKeyword);
  }

  /**
   * `getFinanceReportByPeriod`, with `parse` standing for `new Date(string)`: refused when a
   * date is missing, when one does not parse, or when the start is after the end, in that
   * order; every other request is answered, with the dates as sent and the totals over the
   * caller's records in the period.
   */
  function GetFinanceReportByPeriod(store: seq<Record>, user: UserId, startDate: Option<string>, endDate: Option<string>,
                                    parse: string -> DateValue): (r: Result<PeriodReport, Error>)
    ensures r == Err(MissingDates) <==> !Given(startDate) || !Given(endDate)
    ensures r == Err(BadDateFormat) <==>
      Given(startDate) && Given(endDate) && (parse(startDate.value).Invalid? || parse(endDate.value).Invalid?)
    ensures r == Err(StartAfterEnd) <==>
      Given(startDate) && Given(endDate) && parse(startDate.value).At? && parse(endDate.value).At?
      && Lt(parse(endDate.value).instant, parse(startDate.value).instant)
    ensures r.Ok? <==>
      Given(startDate) && Given(endDate) && parse(startDate.value).At? && parse(endDate.value).At?
      && Le(parse(startDate.value).instant, parse(endDate.value).instant)
    ensures r.Ok? ==>
      var start, end := parse(startDate.value).instant, parse(endDate.value).instant;
      && Le(start, end)
      && r.value.startDate == startDate.value && r.value.endDate == endDate.value
      && r.value.totals == ReportTotals(PeriodRecords(store, user, start, end))
  {
    if !Given(startDate) || !Given(endDate) then Err(MissingDates)
    else
      var start := parse(startDate.value);
      var end := parse(endDate.value);
      if start.Invalid? || end.Invalid? then Err(BadDateFormat)
      else if Lt(end.instant, start.instant) then Err(StartAfterEnd)
      else match Find(store, PeriodQuery(user, start.instant, end.instant), NoKeyword)
        case Err(e) => Err(e)
        case Ok(rs) => Ok(PeriodReport(startDate.value, endDate.value, ReportTotals(rs)))
  }

  /** The checks come before the store is read: whether and how the request is refused does not depend on the store. */
  lemma {:induction false} PeriodChecksIgnoreStore(s1: seq<Record>, s2: seq<Record>, user: UserId, startDate: Option<string>,
                                endDate: Option<string>, parse: string -> DateValue)
    ensures GetFinanceReportByPeriod(s1, user, startDate, endDate, parse).Err?
        <==> GetFinanceReportByPeriod(s2, user, startDate, endDate, parse).Err?
    ensures GetFinanceReportByPeriod(s1, user, startDate, endDate, parse).Err? ==>
      GetFinanceReportByPeriod(s1, user, startDate, endDate, parse) == GetFinanceReportByPeriod(s2, user, startDate, endDate, parse)
  {
  }

  /** A period that spans all of the caller's records reports the same totals as the overall report. */
  lemma {:induction false} PeriodSpanningAll(store: seq<Record>, user: UserId, start: Moment, end: Moment)
    requires forall x :: x in store && x.owner == user ==> Le(start, x.createdAt) && Le(x.createdAt, end)
    ensures ReportTotals(PeriodRecords(store, user, start, end)) == GetFinanceReport(store, user)
  {
    SelectSameMatches(store, PeriodQuery(user, start, end), OwnerQuery(user), NoKeyword);
  }
}
