/**
 * The finance record, the closed allow-lists for its type and category, the controller's
 * error replies, and the filters and sums the report handlers apply to a list of records.
 */
module Records {
  import opened Wrappers
  import opened Time

  type UserId = string
  type RecordId = nat

  /**
   * A stored finance entry. Creation only admits the allow-listed type and category names,
   * but an update passes its body through, so a stored record may carry any string in
   * either field: the category is kept as that string, the type as a `StoredType`.
   */
  datatype Record = Record(
    id: RecordId,
    owner: UserId,
    title: string,
    amount: int,
    kind: StoredType,
    category: string,
    createdAt: Moment)

  /** The error replies of the controller, each with its HTTP status in a comment. */
  datatype Error =
    | MissingFields     // 400: a field of the new record is missing or falsy
    | BadType           // 400: type is not income or expense
    | BadCategory       // 400: category is outside the allow-list
    | MissingYear       // 400: monthly statistics without a year
    | MissingDates      // 400: period report without both dates
    | BadDateFormat     // 400: a period date does not parse
    | StartAfterEnd     // 400: period starts after it ends
    | NotFound          // 404: no such record, or not the caller's
    | ServerError       // 500: the store refused or failed the operation

  datatype TxType = Income | Expense
  {
    function Name(): string
    {
      match this
      case Income => "income"
      case Expense => "expense"
    }
  }

  datatype Category = Salary | Education | Health | Food | Transportation | Entertainment | Utilities | Others
  {
    function Name(): string
    {
      match this
      case Salary => "salary"
      case Education => "education"
      case Health => "health"
      case Food => "food"
      case Transportation => "transportation"
      case Entertainment => "entertainment"
      case Utilities => "utilities"
      case Others => "others"
    }
  }

  /** The stored `type` field: one of the two allow-listed types, or any other string. */
  datatype TypeField = Listed(t: TxType) | Unlisted(text: string)

  type StoredType = k: TypeField | k.Unlisted? ==> k.text != "income" && k.text != "expense"
    witness Listed(Income)

  /** The string the store holds in the `type` field. */
  function TypeText(k: StoredType): string
  {
    match k
    case Listed(t) => t.Name()
    case Unlisted(s) => s
  }

  /** The stored form of a `type` string; the two forms are in one-to-one correspondence. */
  function StoredTypeOf(s: string): (k: StoredType)
    ensures TypeText(k) == s
    ensures k.Listed? <==> s in TypeNames
  {
    if s == "income" then Listed(Income)
    else if s == "expense" then Listed(Expense)
    else Unlisted(s)
  }

  lemma StoredTypeRoundTrip(k: StoredType)
    ensures StoredTypeOf(TypeText(k)) == k
  {
  }

  const TypeNames: seq<string> := ["income", "expense"]

  const CategoryNames: seq<string> :=
    ["salary", "education", "health", "food", "transportation", "entertainment", "utilities", "others"]

  /** The type allow-list check: a name is accepted exactly when it is one of the two type names. */
  function ParseType(s: string): (t: Option<TxType>)
    ensures t.Some? <==> s in TypeNames
    ensures t.Some? ==> t.value.Name() == s
  {
    if s == "income" then Some(Income)
    else if s == "expense" then Some(Expense)
    else None
  }

  /** The category allow-list check: a name is accepted exactly when it is one of the eight names. */
  function ParseCategory(s: string): (c: Option<Category>)
    ensures c.Some? <==> s in CategoryNames
    ensures c.Some? ==> c.value.Name() == s
  {
    if s == "salary" then Some(Salary)
    else if s == "education" then Some(Education)
    else if s == "health" then Some(Health)
    else if s == "food" then Some(Food)
    else if s == "transportation" then Some(Transportation)
    else if s == "entertainment" then Some(Entertainment)
    else if s == "utilities" then Some(Utilities)
    else if s == "others" then Some(Others)
    else None
  }

  /** Every type has an allow-listed name that parses back to it. */
  lemma TypeNameRoundTrip(t: TxType)
    ensures t.Name() in TypeNames && ParseType(t.Name()) == Some(t)
  {
  }

  /** Every category has an allow-listed name that parses back to it, so the eight names are distinct. */
  lemma CategoryNameRoundTrip(c: Category)
    ensures c.Name() in CategoryNames && ParseCategory(c.Name()) == Some(c)
  {
  }

  // Filters and sums over a list of records. Each one is written as a left fold, the way
  // `filter` and `reduce` walk the list.

  /** The sum of the amounts (`reduce((sum, f) => sum + f.amount, 0)`). */
  function Total(rs: seq<Record>): int
  {
    if rs == [] then 0 else Total(rs[..|rs| - 1]) + rs[|rs| - 1].amount
  }

  /** The records whose type is exactly `kind` (`filter(f => f.type === kind)`). */
  function OfKind(rs: seq<Record>, kind: TxType): (r: seq<Record>)
  {
    if rs == [] then []
    else OfKind(rs[..|rs| - 1], kind) + (if rs[|rs| - 1].kind == Listed(kind) then [rs[|rs| - 1]] else [])
  }

  /** The records in category `c`. */
  function InCategory(rs: seq<Record>, c: string): (r: seq<Record>)
  {
    if rs == [] then []
    else InCategory(rs[..|rs| - 1], c) + (if rs[|rs| - 1].category == c then [rs[|rs| - 1]] else [])
  }

  /** The records created in UTC month m (whatever their year). */
  function InMonth(rs: seq<Record>, m: MonthNumber): (r: seq<Record>)
  {
    if rs == [] then []
    else InMonth(rs[..|rs| - 1], m) + (if rs[|rs| - 1].createdAt.month == m then [rs[|rs| - 1]] else [])
  }

  lemma {:induction false} OfKindMembers(rs: seq<Record>, kind: TxType)
    ensures forall x :: x in OfKind(rs, kind) <==> x in rs && x.kind == Listed(kind)
    decreases |rs|
  {
    if rs != [] {
      assert rs == rs[..|rs| - 1] + [rs[|rs| - 1]];
      OfKindMembers(rs[..|rs| - 1], kind);
    }
  }

  lemma {:induction false} InCategoryMembers(rs: seq<Record>, c: string)
    ensures forall x :: x in InCategory(rs, c) <==> x in rs && x.category == c
    decreases |rs|
  {
    if rs != [] {
      assert rs == rs[..|rs| - 1] + [rs[|rs| - 1]];
      InCategoryMembers(rs[..|rs| - 1], c);
    }
  }

  lemma {:induction false} InMonthMembers(rs: seq<Record>, m: MonthNumber)
    ensures forall x :: x in InMonth(rs, m) <==> x in rs && x.createdAt.month == m
    decreases |rs|
  {
    if rs != [] {
      assert rs == rs[..|rs| - 1] + [rs[|rs| - 1]];
      InMonthMembers(rs[..|rs| - 1], m);
    }
  }

  /** A non-empty list is its prefix followed by its last record. */
  lemma {:induction false} SplitLast(s: seq<Record>)
    requires s != []
    ensures s == s[..|s| - 1] + [s[|s| - 1]]
  {
  }

  /** Appending to a non-empty list is appending to its prefix and then adding the last record. */
  lemma {:induction false} AppendSplitLast(a: seq<Record>, b: seq<Record>)
    requires b != []
    ensures a + b == (a + b[..|b| - 1]) + [b[|b| - 1]]
  {
  }

  lemma {:induction false} AppendNothing(a: seq<Record>)
    ensures a + [] == a
  {
  }

  /** Appending one record adds its amount to the total. */
  lemma {:induction false} TotalSnoc(rs: seq<Record>, x: Record)
    ensures Total(rs + [x]) == Total(rs) + x.amount
  {
    assert (rs + [x])[..|rs|] == rs;
  }

  /** The total of a concatenation is the sum of the totals. */
  lemma {:induction false} TotalAppend(a: seq<Record>, b: seq<Record>)
    ensures Total(a + b) == Total(a) + Total(b)
    decreases |b|
  {
    if b == [] {
      assert a + b == a;
    } else {
      var b' := b[..|b| - 1];
      assert a + b == (a + b') + [b[|b| - 1]];
      assert b == b' + [b[|b| - 1]];
      TotalSnoc(a + b', b[|b| - 1]);
      TotalSnoc(b', b[|b| - 1]);
      TotalAppend(a, b');
    }
  }

  lemma {:induction false} OfKindSnoc(rs: seq<Record>, x: Record, kind: TxType)
    ensures OfKind(rs + [x], kind) == OfKind(rs, kind) + (if x.kind == Listed(kind) then [x] else [])
  {
    assert (rs + [x])[..|rs|] == rs;
  }

  lemma {:induction false} InMonthSnoc(rs: seq<Record>, x: Record, m: MonthNumber)
    ensures InMonth(rs + [x], m) == InMonth(rs, m) + (if x.createdAt.month == m then [x] else [])
  {
    assert (rs + [x])[..|rs|] == rs;
  }

  lemma {:induction false} InCategorySnoc(rs: seq<Record>, x: Record, c: string)
    ensures InCategory(rs + [x], c) == InCategory(rs, c) + (if x.category == c then [x] else [])
  {
    assert (rs + [x])[..|rs|] == rs;
  }
}
