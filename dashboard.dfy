/** The signed-in dashboard pages (routes/dashboard.js): the Net Worth view and
    the filtered, paginated transaction list. The list handler builds its SQL
    text and its positional parameters filter by filter; the database itself is
    outside the model and appears only as the `Pool` of answers in the corrected
    handler. */
module Dashboard {
  import opened Common
  import opened JsText
  import opened Sessions

  // ---------------------------------------------------------------------------
  // GET /dashboard/
  // ---------------------------------------------------------------------------

  datatype View =
    | DashboardView(title: string, country: string, userEmail: Option<string>)
    | TransactionsView(title: string, transactions: seq<TransactionRow>, categories: seq<string>,
                       currentCategory: string, fromDate: string, toDate: string,
                       minAmount: string, maxAmount: string, page: Option<int>,
                       totalPages: nat, totalCount: nat)
    | ErrorView(title: string, message: string)

  const DefaultCountry := "UK"

  /** The Net Worth view: the `country` query field picks the country, and a
      missing or empty one falls back to the United Kingdom. Nothing in the
      handler can throw, so its error page is never rendered. */
  function Overview(country: Option<string>, userEmail: Option<string>): (v: View)
    ensures v.DashboardView? && v.title == "Mission Control Dashboard" && v.userEmail == userEmail
    ensures Truthy(country) ==> v.country == country.value
    ensures !Truthy(country) ==> v.country == DefaultCountry
  {
    DashboardView("Mission Control Dashboard", OrElse(country, DefaultCountry), userEmail)
  }

  // ---------------------------------------------------------------------------
  // JavaScript numbers met by the filters and the pagination
  // ---------------------------------------------------------------------------

  /** What `parseFloat` and `parseInt` can give back: a number or NaN. */
  datatype Number = Finite(value: real) | NaN

  /** `Math.abs`. */
  function Abs(n: Number): (r: Number)
    ensures r.NaN? <==> n.NaN?
    ensures r.Finite? ==> r.value >= 0.0 && (r.value == n.value || r.value == -n.value)
  {
    match n
    case NaN => NaN
    case Finite(x) => if x < 0.0 then Finite(-x) else Finite(x)
  }

  /** The decimal text a template literal gives an integer (or NaN). */
  function IntText(n: Option<int>): (s: string)
    ensures n.None? ==> s == "NaN"
    ensures n.Some? && n.value >= 0 ==> s == NatToString(n.value)
    ensures n.Some? && n.value < 0 ==> s == "-" + NatToString(-n.value)
  {
    match n
    case None => "NaN"
    case Some(k) => if k >= 0 then NatToString(k) else "-" + NatToString(-k)
  }

  // ---------------------------------------------------------------------------
  // The listing query
  // ---------------------------------------------------------------------------

  /** The query string of GET /dashboard/transactions; an absent field is `None`. */
  datatype Query = Query(category: Option<string>, fromDate: Option<string>, toDate: Option<string>,
                         minAmount: Option<string>, maxAmount: Option<string>, page: Option<string>)

  /** A positional parameter bound to the query: the signed-in user's id, a
      text taken from the query string, or an amount. */
  datatype Param = UserId(id: int) | Text(text: string) | Amount(amount: Number)

  /** The five filters, in the order the handler tries them. */
  datatype FilterKind = Category | FromDate | ToDate | MinAmount | MaxAmount

  /** One filter that applies: the condition it adds and the value bound to it. */
  datatype Filter = Filter(kind: FilterKind, value: Param)

  const Kinds: seq<FilterKind> := [Category, FromDate, ToDate, MinAmount, MaxAmount]

  /** The position of a filter kind in `Kinds`. */
  function Rank(k: FilterKind): nat {
    match k
    case Category => 0
    case FromDate => 1
    case ToDate => 2
    case MinAmount => 3
    case MaxAmount => 4
  }

  /** The SQL condition a filter appends, up to its placeholder. */
  function Condition(k: FilterKind): string {
    match k
    case Category => " AND tc.name = "
    case FromDate => " AND t.transaction_date >= "
    case ToDate => " AND t.transaction_date <= "
    case MinAmount => " AND ABS(t.amount) >= "
    case MaxAmount => " AND ABS(t.amount) <= "
  }

  /** Whether a filter applies: its field is truthy, and a category of `all`
      means "every category". */
  predicate Active(k: FilterKind, q: Query) {
    match k
    case Category => Truthy(q.category) && q.category.value != "all"
    case FromDate => Truthy(q.fromDate)
    case ToDate => Truthy(q.toDate)
    case MinAmount => Truthy(q.minAmount)
    case MaxAmount => Truthy(q.maxAmount)
  }

  /** The value an active filter binds: the text itself, or the absolute value
      of the amount `parseFloat` reads from it. */
  function ValueOf(k: FilterKind, q: Query, parseFloat: string -> Number): Param
    requires Active(k, q)
  {
    match k
    case Category => Text(q.category.value)
    case FromDate => Text(q.fromDate.value)
    case ToDate => Text(q.toDate.value)
    case MinAmount => Amount(Abs(parseFloat(q.minAmount.value)))
    case MaxAmount => Amount(Abs(parseFloat(q.maxAmount.value)))
  }

  /** The filters among `ks` that apply, in the order of `ks`. */
  function ActiveAmong(q: Query, parseFloat: string -> Number, ks: seq<FilterKind>): seq<Filter> {
    if ks == [] then []
    else
      (if Active(ks[0], q) then [Filter(ks[0], ValueOf(ks[0], q, parseFloat))] else [])
      + ActiveAmong(q, parseFloat, ks[1..])
  }

  /** What one filter step adds. */
  function Step(k: FilterKind, q: Query, parseFloat: string -> Number): seq<Filter> {
    if Active(k, q) then [Filter(k, ValueOf(k, q, parseFloat))] else []
  }

  /** The filters of a request that apply: the five filter steps, one after
      the other. */
  function ActiveFilters(q: Query, parseFloat: string -> Number): seq<Filter> {
    Step(Category, q, parseFloat) + Step(FromDate, q, parseFloat) + Step(ToDate, q, parseFloat)
      + Step(MinAmount, q, parseFloat) + Step(MaxAmount, q, parseFloat)
  }

  predicate RankSorted(ks: seq<FilterKind>) {
    forall i, j :: 0 <= i < j < |ks| ==> Rank(ks[i]) < Rank(ks[j])
  }

  predicate FiltersSorted(fs: seq<Filter>) {
    forall i, j :: 0 <= i < j < |fs| ==> Rank(fs[i].kind) < Rank(fs[j].kind)
  }

  lemma RankSortedTail(ks: seq<FilterKind>)
    requires ks != [] && RankSorted(ks)
    ensures RankSorted(ks[1..]) && forall k :: k in ks[1..] ==> Rank(ks[0]) < Rank(k)
  {
    forall i, j | 0 <= i < j < |ks[1..]| ensures Rank(ks[1..][i]) < Rank(ks[1..][j]) {
      assert ks[1..][i] == ks[i + 1] && ks[1..][j] == ks[j + 1];
    }
    forall k | k in ks[1..] ensures Rank(ks[0]) < Rank(k) {
      var j :| 0 <= j < |ks[1..]| && ks[1..][j] == k;
      assert ks[1..][j] == ks[j + 1];
    }
  }

  /** Every kept filter is an active kind of `ks`, bound to its value. */
  lemma {:induction false} ActiveAmongSound(q: Query, parseFloat: string -> Number, ks: seq<FilterKind>)
    ensures forall f :: f in ActiveAmong(q, parseFloat, ks) ==>
      f.kind in ks && Active(f.kind, q) && f.value == ValueOf(f.kind, q, parseFloat)
  {
    if ks != [] {
      ActiveAmongSound(q, parseFloat, ks[1..]);
    }
  }

  lemma SortedAppend(a: seq<Filter>, b: seq<Filter>)
    requires FiltersSorted(a) && FiltersSorted(b)
    requires forall x, y :: x in a && y in b ==> Rank(x.kind) < Rank(y.kind)
    ensures FiltersSorted(a + b)
  {
    forall i, j | 0 <= i < j < |a + b| ensures Rank((a + b)[i].kind) < Rank((a + b)[j].kind) {
      if j < |a| {
        assert (a + b)[i] == a[i] && (a + b)[j] == a[j];
      } else if i < |a| {
        assert (a + b)[i] == a[i] && (a + b)[j] == b[j - |a|];
        assert a[i] in a && b[j - |a|] in b;
      } else {
        assert (a + b)[i] == b[i - |a|] && (a + b)[j] == b[j - |a|];
      }
    }
  }

  /** The kept filters follow the order of `ks`. */
  lemma {:induction false} ActiveAmongSorted(q: Query, parseFloat: string -> Number, ks: seq<FilterKind>)
    requires RankSorted(ks)
    ensures FiltersSorted(ActiveAmong(q, parseFloat, ks))
  {
    if ks != [] {
      RankSortedTail(ks);
      ActiveAmongSorted(q, parseFloat, ks[1..]);
      ActiveAmongSound(q, parseFloat, ks[1..]);
      var head := if Active(ks[0], q) then [Filter(ks[0], ValueOf(ks[0], q, parseFloat))] else [];
      SortedAppend(head, ActiveAmong(q, parseFloat, ks[1..]));
    }
  }

  /** Every active kind of `ks` is kept. */
  lemma {:induction false} ActiveAmongComplete(q: Query, parseFloat: string -> Number, ks: seq<FilterKind>, k: FilterKind)
    requires k in ks && Active(k, q)
    ensures exists i :: 0 <= i < |ActiveAmong(q, parseFloat, ks)| && ActiveAmong(q, parseFloat, ks)[i].kind == k
  {
    var rest := ActiveAmong(q, parseFloat, ks[1..]);
    var head := if Active(ks[0], q) then [Filter(ks[0], ValueOf(ks[0], q, parseFloat))] else [];
    var r := head + rest;
    assert r == ActiveAmong(q, parseFloat, ks);
    if k == ks[0] {
      assert r[0].kind == k;
    } else {
      assert k in ks[1..];
      ActiveAmongComplete(q, parseFloat, ks[1..], k);
      var i :| 0 <= i < |rest| && rest[i].kind == k;
      assert r[i + |head|] == rest[i];
    }
  }

  lemma KindsInOrder()
    ensures RankSorted(Kinds) && forall k :: k in Kinds
  {
    forall k ensures k in Kinds {
      assert Kinds[Rank(k)] == k;
    }
  }

  /** The filters the five kinds keep: sorted, exactly the active ones, each
      with its value. */
  lemma AmongKinds(q: Query, parseFloat: string -> Number)
    ensures FiltersSorted(ActiveAmong(q, parseFloat, Kinds))
    ensures forall k :: Active(k, q) <==>
      exists i :: 0 <= i < |ActiveAmong(q, parseFloat, Kinds)| && ActiveAmong(q, parseFloat, Kinds)[i].kind == k
    ensures forall f :: f in ActiveAmong(q, parseFloat, Kinds) ==>
      Active(f.kind, q) && f.value == ValueOf(f.kind, q, parseFloat)
  {
    var fs := ActiveAmong(q, parseFloat, Kinds);
    KindsInOrder();
    ActiveAmongSorted(q, parseFloat, Kinds);
    ActiveAmongSound(q, parseFloat, Kinds);
    forall k | Active(k, q) ensures exists i :: 0 <= i < |fs| && fs[i].kind == k {
      ActiveAmongComplete(q, parseFloat, Kinds, k);
    }
    forall k | (exists i :: 0 <= i < |fs| && fs[i].kind == k) ensures Active(k, q) {
      var i :| 0 <= i < |fs| && fs[i].kind == k;
      assert fs[i] in fs;
    }
  }

  /** The listing query filters on a field exactly when that field is active,
      at most once per field, in the order category, from-date, to-date,
      minimum amount, maximum amount; a category of `all` or an empty one adds
      nothing, and every bound amount is an absolute value (or NaN). */
  lemma FiltersInOrder(q: Query, parseFloat: string -> Number)
    ensures FiltersSorted(ActiveFilters(q, parseFloat))
    ensures forall k :: Active(k, q) <==>
      exists i :: 0 <= i < |ActiveFilters(q, parseFloat)| && ActiveFilters(q, parseFloat)[i].kind == k
    ensures forall f :: f in ActiveFilters(q, parseFloat) ==> f.value == ValueOf(f.kind, q, parseFloat)
    ensures !Truthy(q.category) || q.category.value == "all" ==>
      forall f :: f in ActiveFilters(q, parseFloat) ==> f.kind != Category
    ensures forall f :: f in ActiveFilters(q, parseFloat) && (f.kind == MinAmount || f.kind == MaxAmount) ==>
      f.value.Amount? && (f.value.amount.NaN? || f.value.amount.value >= 0.0)
  {
    ActiveFiltersAmong(q, parseFloat);
    AmongKinds(q, parseFloat);
  }

  /** The text a filter appends when its value is the `k`-th parameter. */
  function Clause(kind: FilterKind, k: nat): string {
    Condition(kind) + "$" + NatToString(k)
  }

  /** The clauses of the filters `fs` when the first takes parameter `first`. */
  function ClauseList(fs: seq<Filter>, first: nat): (r: seq<string>)
    ensures |r| == |fs|
    ensures forall j :: 0 <= j < |fs| ==> r[j] == Clause(fs[j].kind, first + j)
  {
    seq(|fs|, j requires 0 <= j < |fs| => Clause(fs[j].kind, first + j))
  }

  /** The values bound to the filters `fs`, in order. */
  function Values(fs: seq<Filter>): (r: seq<Param>)
    ensures |r| == |fs| && forall j :: 0 <= j < |fs| ==> r[j] == fs[j].value
  {
    seq(|fs|, j requires 0 <= j < |fs| => fs[j].value)
  }

  /** String concatenation of a list of pieces. */
  function Concat(ss: seq<string>): string {
    if ss == [] then "" else Concat(ss[..|ss| - 1]) + ss[|ss| - 1]
  }

  // The listing query's text, line by line as the handler's template literal
  // lays it out.
  const Indent := "\n      "
  const ColumnsLine1 := "\n        t.id, " + "t.transaction_date, t.amount, " + "t.currency,"
  const ColumnsLine2 := "\n        t.description, " + "t.merchant, " + "t.transaction_type,"
  const ColumnsLine3 := "\n        tc.name as category,"
  const ColumnsLine4 := "\n        ba.bank_name, ba.id " + "as bank_id\n      "
  const Columns := ColumnsLine1 + ColumnsLine2 + ColumnsLine3 + ColumnsLine4
  const FromLine1 := "FROM transactions t"
  const FromLine2 := "\n      LEFT JOIN " + "transaction_categories tc ON " + "t.category_id = tc.id"
  const FromLine3 := "\n      JOIN bank_accounts ba " + "ON t.bank_account_id = ba.id"
  const FromLine4 := "\n      WHERE t.user_id = $1\n    "
  const FromWhere := FromLine1 + FromLine2 + FromLine3 + FromLine4

  /** The listing query before any filter: the user's transactions, with the
      category and bank of each, the user id being parameter 1. */
  const BaseQuery := Indent + "SELECT" + Columns + FromWhere

  /** The clauses the active filters append to the listing query. */
  function FilterText(q: Query, parseFloat: string -> Number): string {
    Concat(ClauseList(ActiveFilters(q, parseFloat), 2))
  }

  lemma AppendParts(a: string, b: string)
    ensures StartsWith(a + b, a) && EndsWith(a + b, b)
  {
    assert (a + b)[..|a|] == a;
    assert (a + b)[|a + b| - |b|..] == b;
  }

  /** A clause reads its condition, then the placeholder `$k`. */
  lemma ClauseShape(kind: FilterKind, k: nat)
    ensures StartsWith(Clause(kind, k), Condition(kind))
    ensures EndsWith(Clause(kind, k), "$" + NatToString(k))
  {
    AppendParts(Condition(kind), "$" + NatToString(k));
  }

  /** Placeholder `$k` of every clause names parameter `k`: parameter 1 is the
      user id and the `j`-th filter (from 0) reads parameter `j + 2`, which
      holds that filter's value. */
  lemma PlaceholdersMatchParams(userId: int, fs: seq<Filter>)
    ensures var params := [UserId(userId)] + Values(fs);
      var clauses := ClauseList(fs, 2);
      params[0] == UserId(userId) &&
      forall j :: 0 <= j < |fs| ==>
        var k := j + 2;
        EndsWith(clauses[j], "$" + NatToString(k)) && StartsWith(clauses[j], Condition(fs[j].kind)) &&
        1 <= k <= |params| && params[k - 1] == fs[j].value
  {
    var params := [UserId(userId)] + Values(fs);
    var clauses := ClauseList(fs, 2);
    forall j | 0 <= j < |fs|
      ensures EndsWith(clauses[j], "$" + NatToString(j + 2)) && StartsWith(clauses[j], Condition(fs[j].kind))
      ensures params[j + 1] == fs[j].value
    {
      ClauseShape(fs[j].kind, j + 2);
      assert clauses[j] == Clause(fs[j].kind, j + 2);
      assert params[j + 1] == Values(fs)[j];
    }
  }

  lemma AppendAssoc(a: string, b: string, c: string)
    ensures (a + b) + c == a + (b + c)
  {
  }

  lemma ClauseListSnoc(fs: seq<Filter>, f: Filter, first: nat)
    ensures ClauseList(fs + [f], first) == ClauseList(fs, first) + [Clause(f.kind, first + |fs|)]
  {
  }

  lemma ConcatSnoc(ss: seq<string>, s: string)
    ensures Concat(ss + [s]) == Concat(ss) + s
  {
    assert (ss + [s])[..|ss|] == ss;
  }

  lemma ValuesSnoc(fs: seq<Filter>, f: Filter)
    ensures Values(fs + [f]) == Values(fs) + [f.value]
  {
  }

  /** The invariant of the handler's filter steps: `query` holds `base` and a
      clause per filter of `fs`, `params` the user id and a value per filter,
      and `paramIndex` is the next placeholder. */
  ghost predicate Built(query: string, params: seq<Param>, paramIndex: nat, base: string, userId: int, fs: seq<Filter>) {
    query == base + Concat(ClauseList(fs, 2)) &&
    params == [UserId(userId)] + Values(fs) &&
    paramIndex == |params| + 1
  }

  lemma QueryStep(query: string, base: string, fs: seq<Filter>, f: Filter)
    requires query == base + Concat(ClauseList(fs, 2))
    ensures query + Clause(f.kind, 2 + |fs|) == base + Concat(ClauseList(fs + [f], 2))
  {
    var cs := ClauseList(fs, 2);
    var c := Clause(f.kind, 2 + |fs|);
    ClauseListSnoc(fs, f, 2);
    ConcatSnoc(cs, c);
    AppendAssoc(base, Concat(cs), c);
  }

  /** One filter step keeps the invariant. */
  lemma BuiltStep(query: string, params: seq<Param>, paramIndex: nat, base: string, userId: int,
                  fs: seq<Filter>, f: Filter)
    requires Built(query, params, paramIndex, base, userId, fs)
    ensures Built(query + Clause(f.kind, paramIndex), params + [f.value], paramIndex + 1, base, userId, fs + [f])
  {
    assert |Values(fs)| == |fs|;
    assert paramIndex == 2 + |fs|;
    QueryStep(query, base, fs, f);
    ValuesSnoc(fs, f);
  }

  lemma ActiveAmongPrepend(q: Query, parseFloat: string -> Number, k: FilterKind, ks: seq<FilterKind>)
    ensures ActiveAmong(q, parseFloat, [k] + ks) == Step(k, q, parseFloat) + ActiveAmong(q, parseFloat, ks)
  {
    assert ([k] + ks)[1..] == ks;
  }

  lemma FiltersAssoc(a: seq<Filter>, b: seq<Filter>, c: seq<Filter>)
    ensures a + (b + c) == (a + b) + c
  {
  }

  /** The handler's five steps keep exactly the active kinds of `Kinds`, in order. */
  lemma ActiveFiltersAmong(q: Query, parseFloat: string -> Number)
    ensures ActiveFilters(q, parseFloat) == ActiveAmong(q, parseFloat, Kinds)
  {
    var s1, s2, s3, s4, s5 := Step(Category, q, parseFloat), Step(FromDate, q, parseFloat),
      Step(ToDate, q, parseFloat), Step(MinAmount, q, parseFloat), Step(MaxAmount, q, parseFloat);
    var none: seq<FilterKind> := [];
    var k4 := [MaxAmount] + none;
    var k3 := [MinAmount] + k4;
    var k2 := [ToDate] + k3;
    var k1 := [FromDate] + k2;
    assert Kinds == [Category] + k1;
    ActiveAmongPrepend(q, parseFloat, MaxAmount, none);
    assert ActiveAmong(q, parseFloat, k4) == s5;
    ActiveAmongPrepend(q, parseFloat, MinAmount, k4);
    ActiveAmongPrepend(q, parseFloat, ToDate, k3);
    FiltersAssoc(s3, s4, s5);
    ActiveAmongPrepend(q, parseFloat, FromDate, k2);
    FiltersAssoc(s2, s3 + s4, s5);
    FiltersAssoc(s2, s3, s4);
    ActiveAmongPrepend(q, parseFloat, Category, k1);
    FiltersAssoc(s1, s2 + s3 + s4, s5);
    FiltersAssoc(s1, s2 + s3, s4);
    FiltersAssoc(s1, s2, s3);
  }

  /** One filter step of the handler: when the filter applies, append its
      condition with the next placeholder, push its value, and move on to the
      next placeholder. */
  method ApplyFilter(k: FilterKind, q: Query, parseFloat: string -> Number,
                     query: string, params: seq<Param>, paramIndex: nat,
                     ghost base: string, ghost userId: int, ghost fs: seq<Filter>)
    returns (query': string, params': seq<Param>, paramIndex': nat)
    requires Built(query, params, paramIndex, base, userId, fs)
    ensures Built(query', params', paramIndex', base, userId, fs + Step(k, q, parseFloat))
  {
    if Active(k, q) {
      var f := Filter(k, ValueOf(k, q, parseFloat));
      BuiltStep(query, params, paramIndex, base, userId, fs, f);
      query' := query + Clause(k, paramIndex);
      params' := params + [f.value];
      paramIndex' := paramIndex + 1;
    } else {
      query', params', paramIndex' := query, params, paramIndex;
      assert fs + Step(k, q, parseFloat) == fs;
    }
  }

  /** The filter part of the handler: the query text with one numbered clause
      per active filter, and the parameters, the user id first. */
  method BuildListQuery(userId: int, q: Query, parseFloat: string -> Number)
    returns (query: string, params: seq<Param>, paramIndex: nat)
    ensures query == BaseQuery + FilterText(q, parseFloat)
    ensures params == [UserId(userId)] + Values(ActiveFilters(q, parseFloat))
    ensures paramIndex == |params| + 1
  {
    query := BaseQuery;
    params := [UserId(userId)];
    paramIndex := 2;
    assert Concat(ClauseList([], 2)) == [] && Values([]) == [];
    ghost var fs: seq<Filter> := [];
    query, params, paramIndex := ApplyFilter(Category, q, parseFloat, query, params, paramIndex, BaseQuery, userId, fs);
    fs := fs + Step(Category, q, parseFloat);
    query, params, paramIndex := ApplyFilter(FromDate, q, parseFloat, query, params, paramIndex, BaseQuery, userId, fs);
    fs := fs + Step(FromDate, q, parseFloat);
    query, params, paramIndex := ApplyFilter(ToDate, q, parseFloat, query, params, paramIndex, BaseQuery, userId, fs);
    fs := fs + Step(ToDate, q, parseFloat);
    query, params, paramIndex := ApplyFilter(MinAmount, q, parseFloat, query, params, paramIndex, BaseQuery, userId, fs);
    fs := fs + Step(MinAmount, q, parseFloat);
    query, params, paramIndex := ApplyFilter(MaxAmount, q, parseFloat, query, params, paramIndex, BaseQuery, userId, fs);
    fs := fs + Step(MaxAmount, q, parseFloat);
    assert [] + Step(Category, q, parseFloat) == Step(Category, q, parseFloat);
  }

  // ---------------------------------------------------------------------------
  // Pagination
  // ---------------------------------------------------------------------------

  const PageSize := 50

  /** `parseInt(page)`, the page defaulting to 1 when the field is absent;
      `None` stands for NaN. */
  function PageNumber(page: Option<string>, parseInt: string -> Option<int>): Option<int> {
    if page.None? then Some(1) else parseInt(page.value)
  }

  /** `(parseInt(page) - 1) * pageSize`: the number of rows before the page. */
  function Offset(n: Option<int>): (r: Option<int>)
    ensures r.Some? <==> n.Some?
  {
    if n.None? then None else Some((n.value - 1) * PageSize)
  }

  /** Pages tile the listing: page 1 starts at the first row, and each page
      starts one page size after the one before it. */
  lemma PagesAdjacent(n: int)
    ensures Offset(Some(1)) == Some(0)
    ensures Offset(Some(n + 1)).value == Offset(Some(n)).value + PageSize
    ensures n >= 1 ==> Offset(Some(n)).value >= 0 && Offset(Some(n)).value % PageSize == 0
  {
  }

  /** The ordering and window appended to the listing query. */
  function OrderClause(offset: Option<int>): string {
    " ORDER BY t.transaction_date DESC LIMIT " + NatToString(PageSize) + " OFFSET " + IntText(offset)
  }

  /** The listing is ordered newest first and limited to 50 rows, starting at
      the page's offset. */
  lemma OrderClauseText(offset: Option<int>)
    ensures OrderClause(offset) == " ORDER BY t.transaction_date DESC LIMIT " + "50" + " OFFSET " + IntText(offset)
  {
    assert NatToString(5) == "5";
    assert NatToString(PageSize) == NatToString(5) + [DigitChar(0)];
  }

  /** `Math.ceil(totalCount / pageSize)`: the fewest pages of 50 that hold
      every row. */
  function TotalPages(count: nat): (pages: nat)
    ensures count == 0 ==> pages == 0
    ensures count > 0 ==> (pages - 1) * PageSize < count <= pages * PageSize
  {
    (count + PageSize - 1) / PageSize
  }

  // ---------------------------------------------------------------------------
  // GET /dashboard/transactions
  // ---------------------------------------------------------------------------

  /** A row of the listing: a transaction with its category and bank. Amounts
      are kept in minor units. */
  datatype TransactionRow = TransactionRow(
    id: int, transactionDate: string, amount: int, currency: string,
    description: Option<string>, merchant: Option<string>, transactionType: string,
    category: Option<string>, bankName: string, bankId: int)

  const TransactionsError := "Could not load transactions"

  /** The handler as written: the query and its parameters are built, but the
      count query is sent through `pool`, a name the module never defines, so
      a ReferenceError reaches the handler's catch on every request. */
  method ListTransactions(session: Session, q: Query, parseFloat: string -> Number, parseInt: string -> Option<int>)
    returns (view: View)
    requires session.SignedIn()
    ensures view == ErrorView("Error", TransactionsError)
  {
    var offset := Offset(PageNumber(q.page, parseInt));
    var query, params, paramIndex := BuildListQuery(session.userId.value, q, parseFloat);
    // `pool.query(...)` throws before its arguments are evaluated.
    view := ErrorView("Error", TransactionsError);
  }

  // ---------------------------------------------------------------------------
  // The count query
  // ---------------------------------------------------------------------------

  /** The count query the handler evidently intends: the listing query with
      its select list swapped for `COUNT(*)`, so that it reads the same tables
      under the same conditions, filters included. */
  function CountQuery(q: Query, parseFloat: string -> Number): string {
    Indent + "SELECT COUNT(*) as count " + FromWhere + FilterText(q, parseFloat)
  }

  /** The select list the handler's `replace` looks for, all on one line. */
  const CountReplaceTarget := "SELECT t.id, " + "t.transaction_date, t.amount, " + "t.currency, t.description, "
    + "t.merchant, t.transaction_type, " + "tc.name as category, " + "ba.bank_name, ba.id as bank_id " + "FROM"

  /** `t` occurs in `s` from position `p`. */
  predicate OccursAt(s: string, t: string, p: int) {
    0 <= p <= |s| - |t| && s[p..p + |t|] == t
  }

  /** `t` occurs in `s`. */
  ghost predicate Occurs(s: string, t: string) {
    exists p :: OccursAt(s, t, p)
  }

  lemma OccursInTail(s: string, t: string)
    requires |s| >= 1
    ensures Occurs(s[1..], t) ==> Occurs(s, t)
  {
    var tail := s[1..];
    if Occurs(tail, t) {
      var p :| OccursAt(tail, t, p);
      assert s[p + 1..p + 1 + |t|] == tail[p..p + |t|];
      assert OccursAt(s, t, p + 1);
    }
  }

  /** `s.replace(t, replacement)` with a string pattern: the first occurrence of `t`
      is replaced; without one, `s` comes back as it is. */
  function ReplaceFirst(s: string, t: string, replacement: string): (r: string)
    ensures !Occurs(s, t) ==> r == s
    decreases |s|
  {
    if |s| < |t| then s
    else if s[..|t|] == t then
      assert OccursAt(s, t, 0);
      replacement + s[|t|..]
    else
      OccursInTail(s, t);
      assert [s[0]] + s[1..] == s;
      [s[0]] + ReplaceFirst(s[1..], t, replacement)
  }

  /** The count query as the handler writes it. */
  function CountQueryAsWritten(q: Query, parseFloat: string -> Number): string {
    ReplaceFirst(BaseQuery + FilterText(q, parseFloat), CountReplaceTarget, "SELECT COUNT(*) as count FROM")
  }

  predicate Lacks(s: string, c: char) {
    forall i :: 0 <= i < |s| ==> s[i] != c
  }

  lemma LacksAppend(a: string, b: string, c: char)
    requires Lacks(a, c) && Lacks(b, c)
    ensures Lacks(a + b, c)
  {
  }

  lemma {:induction false} ConcatLacks(ss: seq<string>, c: char)
    requires forall j :: 0 <= j < |ss| ==> Lacks(ss[j], c)
    ensures Lacks(Concat(ss), c)
    decreases |ss|
  {
    if ss != [] {
      ConcatLacks(ss[..|ss| - 1], c);
      LacksAppend(Concat(ss[..|ss| - 1]), ss[|ss| - 1], c);
    }
  }

  lemma ConditionLacksC(kind: FilterKind)
    ensures Lacks(Condition(kind), 'C')
  {
    var cond := Condition(kind);
    forall i | 0 <= i < |cond| ensures cond[i] != 'C' {}
  }

  lemma ClauseLacksC(kind: FilterKind, k: nat)
    ensures Lacks(Clause(kind, k), 'C')
  {
    ConditionLacksC(kind);
    var digits := NatToString(k);
    assert Lacks(digits, 'C');
    LacksAppend(Condition(kind), "$", 'C');
    LacksAppend(Condition(kind) + "$", digits, 'C');
  }

  /** No clause of a filter has an upper-case C. */
  lemma FilterTextLacksC(q: Query, parseFloat: string -> Number)
    ensures Lacks(FilterText(q, parseFloat), 'C')
  {
    var fs := ActiveFilters(q, parseFloat);
    var clauses := ClauseList(fs, 2);
    forall j | 0 <= j < |clauses| ensures Lacks(clauses[j], 'C') {
      ClauseLacksC(fs[j].kind, 2 + j);
    }
    ConcatLacks(clauses, 'C');
  }

  lemma ColumnLinesLackC()
    ensures Lacks(ColumnsLine1, 'C') && Lacks(ColumnsLine2, 'C')
    ensures Lacks(ColumnsLine3, 'C') && Lacks(ColumnsLine4, 'C')
  {
  }

  lemma ColumnsLackC()
    ensures Lacks(Columns, 'C')
  {
    ColumnLinesLackC();
    LacksAppend(ColumnsLine1, ColumnsLine2, 'C');
    LacksAppend(ColumnsLine1 + ColumnsLine2, ColumnsLine3, 'C');
    LacksAppend(ColumnsLine1 + ColumnsLine2 + ColumnsLine3, ColumnsLine4, 'C');
  }

  lemma FromLinesLackC()
    ensures Lacks(FromLine1, 'C') && Lacks(FromLine2, 'C')
    ensures Lacks(FromLine3, 'C') && Lacks(FromLine4, 'C')
  {
  }

  lemma FromWhereLacksC()
    ensures Lacks(FromWhere, 'C')
  {
    FromLinesLackC();
    LacksAppend(FromLine1, FromLine2, 'C');
    LacksAppend(FromLine1 + FromLine2, FromLine3, 'C');
    LacksAppend(FromLine1 + FromLine2 + FromLine3, FromLine4, 'C');
  }

  /** A text whose only upper-case C is that of a leading SELECT, which a newline
      follows, holds no text that has a C at 4 and a space at 6. */
  lemma NoMatchAfterSelect(query: string, rest: string, target: string)
    requires query == Indent + "SELECT" + rest
    requires Lacks(rest, 'C') && |rest| > 0 && rest[0] == '\n'
    requires |target| >= 7 && target[4] == 'C' && target[6] == ' '
    ensures !Occurs(query, target)
  {
    forall p | 0 <= p <= |query| - |target| ensures !OccursAt(query, target, p) {
      if p + 4 < 7 {
        assert query[p + 4] == Indent[p + 4] != 'C';
        assert query[p..p + |target|][4] != target[4];
      } else if p + 4 >= 13 {
        assert query[p + 4] == rest[p + 4 - 13] != 'C';
        assert query[p..p + |target|][4] != target[4];
      } else if p != 7 {
        assert query[p + 4] == "SELECT"[p + 4 - 7] != 'C';
        assert query[p..p + |target|][4] != target[4];
      } else {
        assert query[13] == rest[0] != ' ';
        assert query[p..p + |target|][6] != target[6];
      }
    }
  }

  /** The select list of the replace target is written on one line, but the
      listing query breaks it over several: the only upper-case C of the query is
      the one of its SELECT, which a newline follows and not a space. So the
      replace finds nothing, and the count query as written is the listing query
      itself, whose first row has no `count` column. */
  lemma CountReplaceFindsNothing(q: Query, parseFloat: string -> Number)
    ensures !Occurs(BaseQuery + FilterText(q, parseFloat), CountReplaceTarget)
    ensures CountQueryAsWritten(q, parseFloat) == BaseQuery + FilterText(q, parseFloat)
  {
    var filters := FilterText(q, parseFloat);
    FilterTextLacksC(q, parseFloat);
    var rest := QueryAfterSelect(filters);
    TargetShape();
    NoMatchAfterSelect(BaseQuery + filters, rest, CountReplaceTarget);
  }

  lemma TargetShape()
    ensures |CountReplaceTarget| >= 7 && CountReplaceTarget[4] == 'C' && CountReplaceTarget[6] == ' '
  {
    assert CountReplaceTarget[..13] == "SELECT t.id, ";
  }

  lemma Regroup(indent: string, select: string, columns: string, fromWhere: string, filters: string)
    ensures indent + select + columns + fromWhere + filters == indent + select + (columns + fromWhere + filters)
    ensures |columns| > 0 ==> (columns + fromWhere + filters)[0] == columns[0]
  {
  }

  lemma ColumnsStartLine()
    ensures |Columns| > 0 && Columns[0] == '\n'
  {
    assert Columns[0] == ColumnsLine1[0];
  }

  /** The listing query with `filters` is its SELECT keyword, then a text that starts
      on a new line and has no upper-case C when the filters have none. */
  lemma QueryAfterSelect(filters: string) returns (rest: string)
    requires Lacks(filters, 'C')
    ensures BaseQuery + filters == Indent + "SELECT" + rest
    ensures Lacks(rest, 'C') && |rest| > 0 && rest[0] == '\n'
  {
    rest := Columns + FromWhere + filters;
    ColumnsLackC();
    FromWhereLacksC();
    LacksAppend(Columns, FromWhere, 'C');
    LacksAppend(Columns + FromWhere, filters, 'C');
    ColumnsStartLine();
    Regroup(Indent, "SELECT", Columns, FromWhere, filters);
  }

  // ---------------------------------------------------------------------------
  // The listing handler with a connection pool
  // ---------------------------------------------------------------------------

  /** The answers of the database: the rows of a listing query, the number a
      count query reports, and the category names in alphabetical order. */
  datatype Pool = Pool(
    rows: (string, seq<Param>) -> seq<TransactionRow>,
    count: (string, seq<Param>) -> nat,
    categoryNames: seq<string>)

  /** The listing handler as evidently intended, with a pool to send its
      queries to and the intended count query: the page of rows selected by
      the filters and the page number, with a page count that covers every
      matching row, and the filters echoed back for the form. */
  method ListTransactionsWithPool(session: Session, q: Query, parseFloat: string -> Number,
                                  parseInt: string -> Option<int>, pool: Pool)
    returns (view: View)
    requires session.SignedIn()
    ensures view.TransactionsView? && view.title == "All Transactions"
    ensures var params := [UserId(session.userId.value)] + Values(ActiveFilters(q, parseFloat));
      view.totalCount == pool.count(CountQuery(q, parseFloat), params) &&
      view.transactions == pool.rows(BaseQuery + FilterText(q, parseFloat)
                                     + OrderClause(Offset(PageNumber(q.page, parseInt))), params)
    ensures view.totalCount == 0 ==> view.totalPages == 0
    ensures view.totalCount > 0 ==>
      (view.totalPages - 1) * PageSize < view.totalCount <= view.totalPages * PageSize
    ensures view.categories == pool.categoryNames && view.page == PageNumber(q.page, parseInt)
    ensures view.currentCategory == OrElse(q.category, "all")
    ensures view.fromDate == OrElse(q.fromDate, "") && view.toDate == OrElse(q.toDate, "")
    ensures view.minAmount == OrElse(q.minAmount, "") && view.maxAmount == OrElse(q.maxAmount, "")
  {
    var pageNumber := PageNumber(q.page, parseInt);
    var offset := Offset(pageNumber);
    var query, params, paramIndex := BuildListQuery(session.userId.value, q, parseFloat);
    var totalCount := pool.count(CountQuery(q, parseFloat), params);
    var totalPages := TotalPages(totalCount);
    query := query + OrderClause(offset);
    var rows := pool.rows(query, params);
    view := TransactionsView("All Transactions", rows, pool.categoryNames,
                             OrElse(q.category, "all"), OrElse(q.fromDate, ""), OrElse(q.toDate, ""),
                             OrElse(q.minAmount, ""), OrElse(q.maxAmount, ""), pageNumber,
                             totalPages, totalCount);
  }
}
