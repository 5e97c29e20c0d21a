/**
 * The aggregates the report handlers compute from a list of records: income, expense and
 * balance totals, per-category sums and counts, and the twelve-slot monthly table.
 */
module Stats {
  import opened Time
  import opened Records

  /** Income, expense and balance over some records. */
  datatype Totals = Totals(income: int, expense: int, balance: int)

  /** The income amount of a record: its amount if it is an income, and zero otherwise. */
  function IncomeAmount(x: Record): int
  {
    if x.kind == Listed(Income) then x.amount else 0
  }

  /** The expense amount of a record: its amount if it is an expense, and zero otherwise. */
  function ExpenseAmount(x: Record): int
  {
    if x.kind == Listed(Expense) then x.amount else 0
  }

  /**
   * The totals as the report handlers compute them: the sum of the amounts of the income
   * records, the sum of those of the expense records, and their difference.
   */
  function ReportTotals(rs: seq<Record>): (t: Totals)
    ensures t == Totals(IncomeSum(rs), ExpenseSum(rs), IncomeSum(rs) - ExpenseSum(rs))
  {
    KindTotals(rs);
    var income := Total(OfKind(rs, Income));
    var expense := Total(OfKind(rs, Expense));
    Totals(income, expense, income - expense)
  }

  /** The income of some records, accumulated in one pass over them. */
  function IncomeSum(rs: seq<Record>): int
  {
    if rs == [] then 0 else IncomeSum(rs[..|rs| - 1]) + IncomeAmount(rs[|rs| - 1])
  }

  /** The expense of some records, accumulated in one pass over them. */
  function ExpenseSum(rs: seq<Record>): int
  {
    if rs == [] then 0 else ExpenseSum(rs[..|rs| - 1]) + ExpenseAmount(rs[|rs| - 1])
  }

  /** An independent definition of the balance: income counted up and expense counted down, walked from the front. */
  function SignedTotal(rs: seq<Record>): int
  {
    if rs == [] then 0
    else (if rs[0].kind == Listed(Income) then rs[0].amount else if rs[0].kind == Listed(Expense) then -rs[0].amount else 0)
         + SignedTotal(rs[1..])
  }

  lemma {:induction false} IncomeSumSnoc(rs: seq<Record>, x: Record)
    ensures IncomeSum(rs + [x]) == IncomeSum(rs) + IncomeAmount(x)
    ensures ExpenseSum(rs + [x]) == ExpenseSum(rs) + ExpenseAmount(x)
  {
    assert (rs + [x])[..|rs|] == rs;
  }

  /** Adding one record to a list adds its amount to the income filter's sum or to the expense filter's sum. */
  lemma {:induction false} KindTotalsSnoc(rs: seq<Record>, x: Record)
    ensures Total(OfKind(rs + [x], Income)) == Total(OfKind(rs, Income)) + IncomeAmount(x)
    ensures Total(OfKind(rs + [x], Expense)) == Total(OfKind(rs, Expense)) + ExpenseAmount(x)
  {
    OfKindSnoc(rs, x, Income);
    OfKindSnoc(rs, x, Expense);
    var income, expense := OfKind(rs, Income), OfKind(rs, Expense);
    if x.kind == Listed(Income) {
      TotalSnoc(income, x);
      AppendNothing(expense);
    } else if x.kind == Listed(Expense) {
      TotalSnoc(expense, x);
      AppendNothing(income);
    } else {
      AppendNothing(income);
      AppendNothing(expense);
    }
  }

  /** Adding one record to a list adds its income and expense amounts to the reported totals. */
  lemma {:induction false} ReportTotalsSnoc(rs: seq<Record>, x: Record)
    ensures ReportTotals(rs + [x]).income == ReportTotals(rs).income + IncomeAmount(x)
    ensures ReportTotals(rs + [x]).expense == ReportTotals(rs).expense + ExpenseAmount(x)
  {
    KindTotalsSnoc(rs, x);
  }

  /** Filtering by type and summing each part gives the one-pass sums. */
  lemma {:induction false} KindTotals(rs: seq<Record>)
    ensures Total(OfKind(rs, Income)) == IncomeSum(rs)
    ensures Total(OfKind(rs, Expense)) == ExpenseSum(rs)
    decreases |rs|
  {
    if rs != [] {
      var rs', x := rs[..|rs| - 1], rs[|rs| - 1];
      SplitLast(rs);
      KindTotals(rs');
      KindTotalsSnoc(rs', x);
      IncomeSumSnoc(rs', x);
    }
  }

  /** The one-pass sums are additive: those of two lists appended are the sums of theirs. */
  lemma {:induction false} SumsAppend(a: seq<Record>, b: seq<Record>)
    ensures IncomeSum(a + b) == IncomeSum(a) + IncomeSum(b)
    ensures ExpenseSum(a + b) == ExpenseSum(a) + ExpenseSum(b)
    decreases |b|
  {
    if b == [] {
      AppendNothing(a);
    } else {
      var b', x := b[..|b| - 1], b[|b| - 1];
      AppendSplitLast(a, b);
      SplitLast(b);
      SumsAppend(a, b');
      IncomeSumSnoc(a + b', x);
      IncomeSumSnoc(b', x);
    }
  }

  /** The reported totals of two lists appended are the sums of their reported totals. */
  lemma ReportTotalsAppend(a: seq<Record>, b: seq<Record>)
    ensures ReportTotals(a + b).income == ReportTotals(a).income + ReportTotals(b).income
    ensures ReportTotals(a + b).expense == ReportTotals(a).expense + ReportTotals(b).expense
    ensures ReportTotals(a + b).balance == ReportTotals(a).balance + ReportTotals(b).balance
  {
    SumsAppend(a, b);
  }

  lemma SingleSums(x: Record)
    ensures IncomeSum([x]) == IncomeAmount(x) && ExpenseSum([x]) == ExpenseAmount(x)
  {
    assert [x][..0] == [];
  }

  /** The reported balance equals the signed sum of the amounts: incomes up, expenses down, other types ignored. */
  lemma {:induction false} BalanceIsSignedTotal(rs: seq<Record>)
    ensures ReportTotals(rs).balance == SignedTotal(rs)
    decreases |rs|
  {
    if rs != [] {
      assert rs == [rs[0]] + rs[1..];
      ReportTotalsAppend([rs[0]], rs[1..]);
      BalanceIsSignedTotal(rs[1..]);
      SingleSums(rs[0]);
    }
  }

  // ---------------------------------------------------------------------------------------
  // Per-category statistics

  datatype CategoryStat = CategoryStat(total: int, count: nat)

  /**
   * The accumulator map of the category statistics, folded over the records in order:
   * a category seen for the first time starts at zero, then gets the amount and one more count.
   */
  function CategoryStats(rs: seq<Record>): (m: map<string, CategoryStat>)
    ensures forall c :: c in m ==> 1 <= m[c].count <= |rs|
  {
    if rs == [] then map[]
    else
      var acc := CategoryStats(rs[..|rs| - 1]);
      var cur := rs[|rs| - 1];
      var entry := if cur.category in acc then acc[cur.category] else CategoryStat(0, 0);
      acc[cur.category := CategoryStat(entry.total + cur.amount, entry.count + 1)]
  }

  /**
   * The entry of category c, if any, holds the sum of that category's amounts and the number
   * of its records; there is one exactly when some record has that category.
   */
  lemma {:induction false} CategoryStatsEntry(rs: seq<Record>, c: string)
    ensures c in CategoryStats(rs) <==> InCategory(rs, c) != []
    ensures c in CategoryStats(rs) ==>
      CategoryStats(rs)[c] == CategoryStat(Total(InCategory(rs, c)), |InCategory(rs, c)|)
    decreases |rs|
  {
    if rs != [] {
      var rs', x := rs[..|rs| - 1], rs[|rs| - 1];
      SplitLast(rs);
      CategoryStatsEntry(rs', c);
      CategoryStatsStep(rs, c);
      InCategorySnoc(rs', x, c);
      if x.category == c {
        TotalSnoc(InCategory(rs', c), x);
      } else {
        AppendNothing(InCategory(rs', c));
      }
    }
  }

  /** The last record adds its amount and one to its own category's entry and leaves the others alone. */
  lemma CategoryStatsStep(rs: seq<Record>, c: string)
    requires rs != []
    ensures var acc, x := CategoryStats(rs[..|rs| - 1]), rs[|rs| - 1];
      (c in CategoryStats(rs) <==> c in acc || x.category == c) &&
      (c in CategoryStats(rs) ==>
        CategoryStats(rs)[c] == (if x.category != c then acc[c]
          else if c in acc then CategoryStat(acc[c].total + x.amount, acc[c].count + 1)
          else CategoryStat(x.amount, 1)))
  {
  }

  /** Categories with no records are absent from the statistics; every category that occurs is present. */
  lemma {:induction false} CategoryStatsKeys(rs: seq<Record>, c: string)
    ensures c in CategoryStats(rs) <==> exists x :: x in rs && x.category == c
  {
    CategoryStatsEntry(rs, c);
    InCategoryMembers(rs, c);
    var cs := InCategory(rs, c);
    if cs != [] {
      assert cs[0] in cs;
    }
  }

  /** The sum of the totals and of the counts over all entries of a category map. */
  ghost function SumStats(m: map<string, CategoryStat>): CategoryStat
    decreases |m|
  {
    if m == map[] then CategoryStat(0, 0)
    else
      var k :| k in m;
      var rest := SumStats(m - {k});
      CategoryStat(m[k].total + rest.total, m[k].count + rest.count)
  }

  /** Any entry may be taken out first: the sum does not depend on the order of the keys. */
  lemma {:induction false} SumStatsRemove(m: map<string, CategoryStat>, k: string)
    requires k in m
    ensures SumStats(m) == CategoryStat(m[k].total + SumStats(m - {k}).total, m[k].count + SumStats(m - {k}).count)
    decreases |m|
  {
    var j :| j in m && SumStats(m) == CategoryStat(m[j].total + SumStats(m - {j}).total, m[j].count + SumStats(m - {j}).count);
    if j != k {
      SumStatsRemove(m - {j}, k);
      SumStatsRemove(m - {k}, j);
      assert m - {j} - {k} == m - {k} - {j};
    }
  }

  /** The counts of the category statistics add up to the number of records, and the totals to the sum of all amounts. */
  lemma {:induction false} CategoryStatsSum(rs: seq<Record>)
    ensures SumStats(CategoryStats(rs)) == CategoryStat(Total(rs), |rs|)
    decreases |rs|
  {
    if rs != [] {
      var rs', x := rs[..|rs| - 1], rs[|rs| - 1];
      assert rs == rs' + [x];
      TotalSnoc(rs', x);
      CategoryStatsSum(rs');
      var acc := CategoryStats(rs');
      var entry := if x.category in acc then acc[x.category] else CategoryStat(0, 0);
      var upd := acc[x.category := CategoryStat(entry.total + x.amount, entry.count + 1)];
      assert upd == CategoryStats(rs);
      SumStatsRemove(upd, x.category);
      assert upd - {x.category} == acc - {x.category};
      if x.category in acc {
        SumStatsRemove(acc, x.category);
      } else {
        assert acc - {x.category} == acc;
      }
    }
  }

  // ---------------------------------------------------------------------------------------
  // Monthly statistics

  /** One slot of the monthly table. */
  datatype MonthStat = MonthStat(month: int, totalIncome: int, totalExpense: int, balance: int)

  /** The income of those of the first k records that were created in UTC month m. */
  function MonthIncome(rs: seq<Record>, k: nat, m: MonthNumber): int
    requires k <= |rs|
  {
    if k == 0 then 0
    else MonthIncome(rs, k - 1, m) + (if rs[k - 1].createdAt.month == m then IncomeAmount(rs[k - 1]) else 0)
  }

  /** The expense of those of the first k records that were created in UTC month m. */
  function MonthExpense(rs: seq<Record>, k: nat, m: MonthNumber): int
    requires k <= |rs|
  {
    if k == 0 then 0
    else MonthExpense(rs, k - 1, m) + (if rs[k - 1].createdAt.month == m then ExpenseAmount(rs[k - 1]) else 0)
  }

  /** What the slot of month m must hold once the first k records have been counted. */
  function MonthEntry(rs: seq<Record>, k: nat, m: MonthNumber): MonthStat
    requires k <= |rs|
  {
    var income := MonthIncome(rs, k, m);
    var expense := MonthExpense(rs, k, m);
    MonthStat(m, income, expense, income - expense)
  }

  /** The update one record makes to the slot of its month. */
  function Bump(e: MonthStat, x: Record): MonthStat
  {
    var income := e.totalIncome + IncomeAmount(x);
    var expense := e.totalExpense + ExpenseAmount(x);
    MonthStat(e.month, income, expense, income - expense)
  }

  /** Counting record k bumps the slot of its own month and leaves the other slots as they are. */
  lemma MonthEntryStep(rs: seq<Record>, k: nat, m: MonthNumber)
    requires k < |rs|
    ensures MonthEntry(rs, k + 1, m) == if rs[k].createdAt.month == m then Bump(MonthEntry(rs, k, m), rs[k]) else MonthEntry(rs, k, m)
  {
  }

  /** A month none of whose records were counted has an all-zero slot. */
  lemma {:induction false} MonthWithoutRecords(rs: seq<Record>, k: nat, m: MonthNumber)
    requires k <= |rs|
    requires forall j :: 0 <= j < k ==> rs[j].createdAt.month != m
    ensures MonthIncome(rs, k, m) == 0 && MonthExpense(rs, k, m) == 0
    decreases k
  {
    if k > 0 {
      MonthWithoutRecords(rs, k - 1, m);
    }
  }

  /**
   * The monthly table: twelve slots for months 1..12, all zero at first; each record in
   * turn adds its amount to the income or expense of the slot of its UTC month, and that
   * slot's balance is recomputed. Records of any other type leave the sums as they are.
   */
  method MonthlyTable(rs: seq<Record>) returns (table: seq<MonthStat>)
    ensures |table| == 12
    ensures forall i :: 0 <= i < 12 ==> table[i] == MonthEntry(rs, |rs|, i + 1)
    ensures forall i :: 0 <= i < 12 ==> table[i].month == i + 1
    ensures forall i :: 0 <= i < 12 ==> table[i].balance == table[i].totalIncome - table[i].totalExpense
    ensures forall i :: 0 <= i < 12 && (forall x :: x in rs ==> x.createdAt.month != i + 1) ==>
      table[i] == MonthStat(i + 1, 0, 0, 0)
  {
    var stats := new MonthStat[12](i => MonthStat(i + 1, 0, 0, 0));
    var k := 0;
    while k < |rs|
      invariant 0 <= k <= |rs|
      invariant forall j :: 0 <= j < 12 ==> stats[j] == MonthEntry(rs, k, j + 1)
    {
      var item := rs[k];
      var idx := item.createdAt.month - 1;
      if item.kind == Listed(Income) {
        stats[idx] := stats[idx].(totalIncome := stats[idx].totalIncome + item.amount);
      } else if item.kind == Listed(Expense) {
        stats[idx] := stats[idx].(totalExpense := stats[idx].totalExpense + item.amount);
      }
      stats[idx] := stats[idx].(balance := stats[idx].totalIncome - stats[idx].totalExpense);
      forall j | 0 <= j < 12
        ensures stats[j] == MonthEntry(rs, k + 1, j + 1)
      {
        MonthEntryStep(rs, k, j + 1);
      }
      k := k + 1;
    }
    table := stats[..];
    forall i | 0 <= i < 12 && (forall x :: x in rs ==> x.createdAt.month != i + 1)
      ensures table[i] == MonthStat(i + 1, 0, 0, 0)
    {
      forall j | 0 <= j < |rs|
        ensures rs[j].createdAt.month != i + 1
      {
        assert rs[j] in rs;
      }
      MonthWithoutRecords(rs, |rs|, i + 1);
    }
  }

  lemma MonthSumsStep(a: seq<Record>, b: seq<Record>, x: Record, m: MonthNumber)
    requires b == a + (if x.createdAt.month == m then [x] else [])
    ensures IncomeSum(b) == IncomeSum(a) + (if x.createdAt.month == m then IncomeAmount(x) else 0)
    ensures ExpenseSum(b) == ExpenseSum(a) + (if x.createdAt.month == m then ExpenseAmount(x) else 0)
  {
    if x.createdAt.month == m {
      IncomeSumSnoc(a, x);
    } else {
      AppendNothing(a);
    }
  }

  lemma InMonthPrefix(rs: seq<Record>, k: nat, m: MonthNumber)
    requires 0 < k <= |rs|
    ensures InMonth(rs[..k], m) == InMonth(rs[..k - 1], m) + (if rs[k - 1].createdAt.month == m then [rs[k - 1]] else [])
  {
    assert rs[..k][..k - 1] == rs[..k - 1];
  }

  /** A slot holds the sums of exactly the counted records created in its month. */
  lemma {:induction false} MonthTotalsAreMonthSums(rs: seq<Record>, k: nat, m: MonthNumber)
    requires k <= |rs|
    ensures MonthIncome(rs, k, m) == IncomeSum(InMonth(rs[..k], m))
    ensures MonthExpense(rs, k, m) == ExpenseSum(InMonth(rs[..k], m))
    decreases k
  {
    if k == 0 {
      assert rs[..k] == [];
    } else {
      MonthTotalsAreMonthSums(rs, k - 1, m);
      InMonthPrefix(rs, k, m);
      MonthSumsStep(InMonth(rs[..k - 1], m), InMonth(rs[..k], m), rs[k - 1], m);
    }
  }

  /** The slot of month m holds the report totals of the records created in that month. */
  lemma MonthEntryIsMonthReport(rs: seq<Record>, m: MonthNumber)
    ensures MonthEntry(rs, |rs|, m) == MonthStat(m, ReportTotals(InMonth(rs, m)).income,
      ReportTotals(InMonth(rs, m)).expense, ReportTotals(InMonth(rs, m)).balance)
  {
    MonthTotalsAreMonthSums(rs, |rs|, m);
    assert rs[..|rs|] == rs;
  }

  /** The income of the first n slots after k records. */
  function MonthsIncome(rs: seq<Record>, k: nat, n: nat): int
    requires k <= |rs| && n <= 12
  {
    if n == 0 then 0 else MonthsIncome(rs, k, n - 1) + MonthIncome(rs, k, n)
  }

  /** The expense of the first n slots after k records. */
  function MonthsExpense(rs: seq<Record>, k: nat, n: nat): int
    requires k <= |rs| && n <= 12
  {
    if n == 0 then 0 else MonthsExpense(rs, k, n - 1) + MonthExpense(rs, k, n)
  }

  /** Counting record k adds its amounts to the first n slots exactly when its month is among them. */
  lemma {:induction false} MonthsStep(rs: seq<Record>, k: nat, n: nat)
    requires k < |rs| && n <= 12
    ensures MonthsIncome(rs, k + 1, n) == MonthsIncome(rs, k, n) + (if rs[k].createdAt.month <= n then IncomeAmount(rs[k]) else 0)
    ensures MonthsExpense(rs, k + 1, n) == MonthsExpense(rs, k, n) + (if rs[k].createdAt.month <= n then ExpenseAmount(rs[k]) else 0)
    decreases n
  {
    if n > 0 {
      MonthsStep(rs, k, n - 1);
    }
  }

  lemma {:induction false} MonthsBeforeAny(rs: seq<Record>, n: nat)
    requires n <= 12
    ensures MonthsIncome(rs, 0, n) == 0 && MonthsExpense(rs, 0, n) == 0
    decreases n
  {
    if n > 0 {
      MonthsBeforeAny(rs, n - 1);
    }
  }

  lemma SumsPrefix(rs: seq<Record>, k: nat)
    requires 0 < k <= |rs|
    ensures IncomeSum(rs[..k]) == IncomeSum(rs[..k - 1]) + IncomeAmount(rs[k - 1])
    ensures ExpenseSum(rs[..k]) == ExpenseSum(rs[..k - 1]) + ExpenseAmount(rs[k - 1])
  {
    assert rs[..k][..k - 1] == rs[..k - 1];
  }

  /** The twelve months partition the records: the slot sums add up to the sums over all records. */
  lemma {:induction false} MonthsPartition(rs: seq<Record>, k: nat)
    requires k <= |rs|
    ensures MonthsIncome(rs, k, 12) == IncomeSum(rs[..k])
    ensures MonthsExpense(rs, k, 12) == ExpenseSum(rs[..k])
    decreases k
  {
    if k == 0 {
      assert rs[..k] == [];
      MonthsBeforeAny(rs, 12);
    } else {
      MonthsPartition(rs, k - 1);
      MonthsStep(rs, k - 1, 12);
      assert rs[k - 1].createdAt.month <= 12;
      SumsPrefix(rs, k);
    }
  }

  /** Summed over the twelve slots, the monthly table gives the overall report totals. */
  lemma MonthsPartitionReport(rs: seq<Record>)
    ensures MonthsIncome(rs, |rs|, 12) == ReportTotals(rs).income
    ensures MonthsExpense(rs, |rs|, 12) == ReportTotals(rs).expense
  {
    MonthsPartition(rs, |rs|);
    assert rs[..|rs|] == rs;
  }
}
