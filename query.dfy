/**
 * The filter documents the listing handlers hand to the store, and what the store does with
 * them: `find` with a filter keeps, in stored order, the records the filter matches, and
 * refuses a filter holding an Invalid Date; `sort({ createdAt: -1 })` orders newest first.
 */
module Query {
  import opened Wrappers
  import opened Time
  import opened Records

  /** The `createdAt` operators of a filter: `$gte`, `$lt` and `$lte`, each either set or not. */
  datatype DateRange = DateRange(gte: Option<DateValue>, lt: Option<DateValue>, lte: Option<DateValue>)

  /** The `amount` operators of a filter: `$gte` and `$lte`. */
  datatype AmountRange = AmountRange(gte: Option<int>, lte: Option<int>)

  /**
   * The case-insensitive `$regex` test: whether the text matches the pattern. Regular
   * expressions are not modelled; the caller supplies the test.
   */
  type KeywordMatch = (string, string) -> bool

  /**
   * A filter document. The owner is always present; every other field is either absent
   * or holds what an exact match, a keyword search or a range needs.
   */
  datatype Query = Query(
    owner: UserId,
    kind: Option<string>,
    category: Option<string>,
    keyword: Option<string>,
    amount: Option<AmountRange>,
    createdAt: Option<DateRange>)

  /** The filter that only constrains the owner. */
  function OwnerQuery(owner: UserId): Query
  {
    Query(owner, None, None, None, None, None)
  }

  /** A query-string value is truthy when it is present and not empty. */
  predicate Given(s: Option<string>)
  {
    s.Some? && s.value != ""
  }

  predicate ValidBound(b: Option<DateValue>)
  {
    b.None? || b.value.At?
  }

  /** No bound of the range is an Invalid Date. */
  predicate RangeCastable(r: DateRange)
  {
    ValidBound(r.gte) && ValidBound(r.lt) && ValidBound(r.lte)
  }

  /** The store can cast the filter: no `createdAt` bound is an Invalid Date. */
  predicate Castable(q: Query)
  {
    q.createdAt.None? || RangeCastable(q.createdAt.value)
  }

  predicate AtOrAfter(t: Instant, b: Option<DateValue>)
  {
    b.None? || (b.value.At? && Le(b.value.instant, t))
  }

  predicate Before(t: Instant, b: Option<DateValue>)
  {
    b.None? || (b.value.At? && Lt(t, b.value.instant))
  }

  predicate AtOrBefore(t: Instant, b: Option<DateValue>)
  {
    b.None? || (b.value.At? && Le(t, b.value.instant))
  }

  predicate InDateRange(t: Instant, r: DateRange)
  {
    AtOrAfter(t, r.gte) && Before(t, r.lt) && AtOrBefore(t, r.lte)
  }

  predicate InAmountRange(a: int, r: AmountRange)
  {
    (r.gte.None? || r.gte.value <= a) && (r.lte.None? || a <= r.lte.value)
  }

  /** Whether a record satisfies every condition the filter holds. */
  predicate Matches(x: Record, q: Query, kw: KeywordMatch)
  {
    && x.owner == q.owner
    && (q.kind.Some? ==> TypeText(x.kind) == q.kind.value)
    && (q.category.Some? ==> x.category == q.category.value)
    && (q.keyword.Some? ==> kw(q.keyword.value, x.title) || kw(q.keyword.value, x.category))
    && (q.amount.Some? ==> InAmountRange(x.amount, q.amount.value))
    && (q.createdAt.Some? ==> InDateRange(x.createdAt, q.createdAt.value))
  }

  /** The records of the store the filter matches, in stored order. */
  function Select(store: seq<Record>, q: Query, kw: KeywordMatch): seq<Record>
  {
    if store == [] then []
    else Select(store[..|store| - 1], q, kw)
         + (if Matches(store[|store| - 1], q, kw) then [store[|store| - 1]] else [])
  }

  /** `find(q)`: the matching records, or a server error when the filter cannot be cast. */
  function Find(store: seq<Record>, q: Query, kw: KeywordMatch): (r: Result<seq<Record>, Error>)
    ensures r.Ok? <==> Castable(q)
    ensures r.Err? ==> r.error == ServerError
  {
    if Castable(q) then Ok(Select(store, q, kw)) else Err(ServerError)
  }

  /** A record is selected exactly when it is in the store and the filter matches it. */
  lemma {:induction false} SelectMembers(store: seq<Record>, q: Query, kw: KeywordMatch)
    ensures forall x :: x in Select(store, q, kw) <==> x in store && Matches(x, q, kw)
    decreases |store|
  {
    if store != [] {
      assert store == store[..|store| - 1] + [store[|store| - 1]];
      SelectMembers(store[..|store| - 1], q, kw);
    }
  }

  /** Selection never returns a record more often than the store holds it. */
  lemma {:induction false} SelectIsSubsequence(store: seq<Record>, q: Query, kw: KeywordMatch)
    ensures multiset(Select(store, q, kw)) <= multiset(store)
    decreases |store|
  {
    if store != [] {
      var prefix, x := store[..|store| - 1], store[|store| - 1];
      assert store == prefix + [x];
      SelectIsSubsequence(prefix, q, kw);
    }
  }

  /** Each matching record is selected as often as it is stored, and any other record never. */
  lemma {:induction false} SelectCount(store: seq<Record>, q: Query, kw: KeywordMatch)
    ensures forall x :: multiset(Select(store, q, kw))[x] == if Matches(x, q, kw) then multiset(store)[x] else 0
    decreases |store|
  {
    if store != [] {
      var prefix, y := store[..|store| - 1], store[|store| - 1];
      assert store == prefix + [y];
      SelectCount(prefix, q, kw);
    }
  }

  /** Two filters that match the same records select the same records. */
  lemma {:induction false} SelectSameMatches(store: seq<Record>, q1: Query, q2: Query, kw: KeywordMatch)
    requires forall x :: x in store ==> (Matches(x, q1, kw) <==> Matches(x, q2, kw))
    ensures Select(store, q1, kw) == Select(store, q2, kw)
    decreases |store|
  {
    if store != [] {
      var prefix := store[..|store| - 1];
      forall x | x in prefix
        ensures Matches(x, q1, kw) <==> Matches(x, q2, kw)
      {
        assert x in store;
      }
      assert store[|store| - 1] in store;
      SelectSameMatches(prefix, q1, q2, kw);
    }
  }

  /** Selecting from a store with one more record at the end selects that record last, if it matches. */
  lemma {:induction false} SelectSnoc(store: seq<Record>, x: Record, q: Query, kw: KeywordMatch)
    ensures Select(store + [x], q, kw) == Select(store, q, kw) + (if Matches(x, q, kw) then [x] else [])
  {
    assert (store + [x])[..|store|] == store;
  }

  /** A filter that only names the owner selects all and only the owner's records. */
  lemma {:induction false} OwnerQuerySelects(store: seq<Record>, owner: UserId, kw: KeywordMatch)
    ensures forall x :: x in Select(store, OwnerQuery(owner), kw) <==> x in store && x.owner == owner
  {
    SelectMembers(store, OwnerQuery(owner), kw);
  }

  // ---------------------------------------------------------------------------------------
  // Calendar windows built from ISO strings

  /** `{ $gte: "<y>-01-01T00:00:00.000Z", $lt: "<y+1>-01-01T00:00:00.000Z" }`. */
  function YearWindow(y: int): DateRange
  {
    DateRange(Some(IsoMonthStart(y, 1)), Some(IsoMonthStart(y + 1, 1)), None)
  }

  /**
   * `{ $gte: first instant of month m of y, $lt: first instant of the month after }`, where
   * a month number past 12 is followed by January of the next year.
   */
  function MonthWindow(y: int, m: int): DateRange
  {
    var next := m + 1;
    DateRange(Some(IsoMonthStart(y, m)), Some(if next > 12 then IsoMonthStart(y + 1, 1) else IsoMonthStart(y, next)), None)
  }

  /** The year window can be cast exactly when both years are written with four digits. */
  lemma YearWindowCastable(y: int)
    ensures RangeCastable(YearWindow(y)) <==> 1000 <= y <= 9998
  {
  }

  /** A cast year window holds exactly the instants of that UTC year. */
  lemma YearWindowSelects(y: int, t: Instant)
    requires 1000 <= y <= 9998
    ensures InDateRange(t, YearWindow(y)) <==> t.year == y
  {
  }

  /**
   * The month window can be cast exactly when the month is 1..12 and the year has four
   * digits, and, for December, so does the year after.
   */
  lemma MonthWindowCastable(y: int, m: int)
    ensures RangeCastable(MonthWindow(y, m)) <==> 1000 <= y <= 9999 && 1 <= m <= 12 && (m < 12 || y <= 9998)
  {
  }

  /** A cast month window holds exactly the instants of that UTC month; December runs up to January 1 of the next year. */
  lemma MonthWindowSelects(y: int, m: int, t: Instant)
    requires 1000 <= y <= 9999 && 1 <= m <= 12 && (m < 12 || y <= 9998)
    ensures InDateRange(t, MonthWindow(y, m)) <==> t.year == y && t.month == m
  {
  }

  // ---------------------------------------------------------------------------------------
  // Sorting newest first

  /** Every record comes no earlier than the ones after it. */
  predicate NewestFirst(s: seq<Record>)
  {
    forall i, j :: 0 <= i < j < |s| ==> Le(s[j].createdAt, s[i].createdAt)
  }

  /** Inserts a record before the first record that is not newer than it. */
  function InsertNewest(x: Record, s: seq<Record>): seq<Record>
  {
    if s == [] then [x]
    else if Le(s[0].createdAt, x.createdAt) then [x] + s
    else [s[0]] + InsertNewest(x, s[1..])
  }

  /** `sort({ createdAt: -1 })`, as an insertion sort. */
  function SortNewest(rs: seq<Record>): seq<Record>
  {
    if rs == [] then [] else InsertNewest(rs[0], SortNewest(rs[1..]))
  }

  /** Insertion adds exactly the one record. */
  lemma {:induction false} InsertNewestPerm(x: Record, s: seq<Record>)
    ensures multiset(InsertNewest(x, s)) == multiset(s) + multiset{x}
    decreases |s|
  {
    if s != [] && !Le(s[0].createdAt, x.createdAt) {
      InsertNewestPerm(x, s[1..]);
      assert s == [s[0]] + s[1..];
    }
  }

  lemma {:induction false} SortedTail(s: seq<Record>)
    requires s != [] && NewestFirst(s)
    ensures NewestFirst(s[1..])
    ensures forall y :: y in s[1..] ==> Le(y.createdAt, s[0].createdAt)
  {
    forall i, j | 0 <= i < j < |s[1..]|
      ensures Le(s[1..][j].createdAt, s[1..][i].createdAt)
    {
      assert s[1..][j] == s[j + 1] && s[1..][i] == s[i + 1];
    }
    forall y | y in s[1..]
      ensures Le(y.createdAt, s[0].createdAt)
    {
      var k :| 0 <= k < |s[1..]| && s[1..][k] == y;
      assert s[k + 1] == y;
    }
  }

  lemma {:induction false} SortedCons(h: Record, rest: seq<Record>)
    requires NewestFirst(rest)
    requires forall y :: y in rest ==> Le(y.createdAt, h.createdAt)
    ensures NewestFirst([h] + rest)
  {
    var r := [h] + rest;
    forall i, j | 0 <= i < j < |r|
      ensures Le(r[j].createdAt, r[i].createdAt)
    {
      assert r[j] == rest[j - 1];
      assert rest[j - 1] in rest;
      if i > 0 {
        assert r[i] == rest[i - 1];
      }
    }
  }

  /** Insertion into a list ordered newest first keeps it ordered. */
  lemma {:induction false} InsertNewestSorted(x: Record, s: seq<Record>)
    requires NewestFirst(s)
    ensures NewestFirst(InsertNewest(x, s))
    decreases |s|
  {
    if s == [] {
    } else if Le(s[0].createdAt, x.createdAt) {
      forall y | y in s
        ensures Le(y.createdAt, x.createdAt)
      {
        var k :| 0 <= k < |s| && s[k] == y;
        if k > 0 {
          assert Le(s[k].createdAt, s[0].createdAt);
        }
      }
      SortedCons(x, s);
    } else {
      SortedTail(s);
      InsertNewestSorted(x, s[1..]);
      var rest := InsertNewest(x, s[1..]);
      InsertNewestPerm(x, s[1..]);
      forall y | y in rest
        ensures Le(y.createdAt, s[0].createdAt)
      {
        assert y in multiset(rest);
        if y != x {
          assert y in multiset(s[1..]);
        }
      }
      SortedCons(s[0], rest);
    }
  }

  /** The sort returns the same records, newest first. */
  lemma {:induction false} SortNewestCorrect(rs: seq<Record>)
    ensures NewestFirst(SortNewest(rs))
    ensures multiset(SortNewest(rs)) == multiset(rs)
    decreases |rs|
  {
    if rs != [] {
      SortNewestCorrect(rs[1..]);
      InsertNewestSorted(rs[0], SortNewest(rs[1..]));
      InsertNewestPerm(rs[0], SortNewest(rs[1..]));
      assert rs == [rs[0]] + rs[1..];
    }
  }
}
