/** `transformToSankey` of routes/analytics.js: the rows of the monthly aggregate
    query become the nodes and links of a Sankey diagram (month -> category ->
    Total Income / Total Expenses) and a summary of the totals. Amounts are whole
    numbers of minor units; the `toFixed(2)` roundings are not part of the model. */
module Analytics {
  import opened Common
  import opened JsText

  const Uncategorized := "Uncategorized"
  const DefaultColor := "#b0b0b0"
  const MonthColor := "#252525"
  const MonthIcon := "\U{1F4C5}"
  const IncomeName := "Total Income"
  const IncomeColor := "#22c55e"
  const IncomeIcon := "\U{1F4B0}"
  const ExpenseName := "Total Expenses"
  const ExpenseColor := "#ef4444"
  const ExpenseIcon := "\U{1F4B8}"

  /** One row of the aggregate query. `month` is the month's date rendered as
      `YYYY-MM-DD` (missing when the query yields no month), `category` the category name (missing for uncategorised
      transactions), `isIncome` is `is_income === true`, `totalAmount` is
      `parseFloat(total_amount || 0)`. */
  datatype SankeyRow = SankeyRow(month: Option<string>, category: Option<string>, isIncome: bool,
                                 color: Option<string>, icon: Option<string>, totalAmount: int)

  /** An entry of a month's `categories` map. */
  datatype CategoryData = CategoryData(name: Option<string>, amount: int, isIncome: bool, color: string, icon: string)

  /** An entry of `monthlyData`; the maps are kept in insertion order. */
  datatype MonthData = MonthData(month: string, income: int, expenses: int, categories: seq<CategoryData>)

  /** The key a row is grouped under: a row without a month goes under 'Uncategorized'. */
  function MonthKey(row: SankeyRow): string {
    match row.month
    case Some(m) => m
    case None => Uncategorized
  }

  /** `Map.prototype.get` on a map kept in insertion order, as the position of the key
      among the keys. */
  function Position<K(==)>(keys: seq<K>, key: K): (r: Option<nat>)
    ensures r.Some? ==> r.value < |keys| && keys[r.value] == key
    ensures r.None? <==> forall k :: 0 <= k < |keys| ==> keys[k] != key
  {
    if keys == [] then None
    else if keys[|keys| - 1] == key then Some(|keys| - 1)
    else Position(keys[..|keys| - 1], key)
  }

  /** `monthlyData.get(month)`, as a position. */
  function FindMonth(groups: seq<MonthData>, month: string): (r: Option<nat>)
    ensures r.Some? ==> r.value < |groups| && groups[r.value].month == month
    ensures r.None? <==> forall k :: 0 <= k < |groups| ==> groups[k].month != month
  {
    var keys := seq(|groups|, k requires 0 <= k < |groups| => groups[k].month);
    assert forall k :: 0 <= k < |groups| ==> keys[k] == groups[k].month;
    Position(keys, month)
  }

  /** `monthData.categories.get(category)`, as a position. */
  function FindCategory(cats: seq<CategoryData>, name: Option<string>): (r: Option<nat>)
    ensures r.Some? ==> r.value < |cats| && cats[r.value].name == name
    ensures r.None? <==> forall k :: 0 <= k < |cats| ==> cats[k].name != name
  {
    var keys := seq(|cats|, k requires 0 <= k < |cats| => cats[k].name);
    assert forall k :: 0 <= k < |cats| ==> keys[k] == cats[k].name;
    Position(keys, name)
  }

  /** A row added to a month's category map: a new entry takes the row's flag,
      colour and icon; an existing one only gains the amount. */
  function AddToCategories(cats: seq<CategoryData>, row: SankeyRow): seq<CategoryData> {
    match FindCategory(cats, row.category)
    case None =>
      cats + [CategoryData(row.category, row.totalAmount, row.isIncome, OrElse(row.color, DefaultColor), OrElse(row.icon, ""))]
    case Some(k) => cats[k := cats[k].(amount := cats[k].amount + row.totalAmount)]
  }

  /** The body of `rows.forEach` for a month that is already present. */
  function Record(g: MonthData, row: SankeyRow): MonthData {
    g.(income := if row.isIncome then g.income + row.totalAmount else g.income,
       expenses := if row.isIncome then g.expenses else g.expenses + row.totalAmount,
       categories := AddToCategories(g.categories, row))
  }

  function AddRow(groups: seq<MonthData>, row: SankeyRow): seq<MonthData> {
    match FindMonth(groups, MonthKey(row))
    case None => groups + [Record(MonthData(MonthKey(row), 0, 0, []), row)]
    case Some(k) => groups[k := Record(groups[k], row)]
  }

  /** `monthlyData` after the first `n` rows: one entry per month and, in each, one
      entry per category, exactly for the (month, category) pairs that occur in those
      rows; the months' income and expenses add up to the rows' totals. */
  function Group(rows: seq<SankeyRow>, n: nat): (groups: seq<MonthData>)
    requires n <= |rows|
    ensures KeysDistinct(groups)
    ensures forall m, c :: HasPair(groups, m, c) <==> RowIn(rows, n, m, c)
    ensures MonthTotal(groups, true) == RowTotal(rows, n, true)
    ensures MonthTotal(groups, false) == RowTotal(rows, n, false)
  {
    if n == 0 then [] else
      var g := Group(rows, n - 1);
      AddRowFacts(g, rows[n - 1]);
      RowInStep(rows, n);
      AddRowTotal(g, rows[n - 1], true);
      AddRowTotal(g, rows[n - 1], false);
      AddRow(g, rows[n - 1])
  }

  /** Months are keys of a map, and so are the categories of each month. */
  predicate KeysDistinct(groups: seq<MonthData>) {
    (forall j, k :: 0 <= j < k < |groups| ==> groups[j].month != groups[k].month)
    && (forall k :: 0 <= k < |groups| ==> CategoriesDistinct(groups[k].categories))
  }

  predicate CategoriesDistinct(cats: seq<CategoryData>) {
    forall i, j :: 0 <= i < j < |cats| ==> cats[i].name != cats[j].name
  }

  /** Month `m` has an entry for category `c`. */
  predicate HasPair(groups: seq<MonthData>, m: string, c: Option<string>) {
    exists k :: 0 <= k < |groups| && groups[k].month == m && HasCategory(groups[k].categories, c)
  }

  predicate HasCategory(cats: seq<CategoryData>, c: Option<string>) {
    exists j :: 0 <= j < |cats| && cats[j].name == c
  }

  /** Some of the first `n` rows falls in month `m` and category `c`. */
  predicate RowIn(rows: seq<SankeyRow>, n: nat, m: string, c: Option<string>)
    requires n <= |rows|
  {
    exists i :: 0 <= i < n && MonthKey(rows[i]) == m && rows[i].category == c
  }

  lemma AddToCategoriesFacts(cats: seq<CategoryData>, row: SankeyRow)
    requires CategoriesDistinct(cats)
    ensures CategoriesDistinct(AddToCategories(cats, row))
    ensures forall c :: HasCategory(AddToCategories(cats, row), c) <==> HasCategory(cats, c) || c == row.category
  {
    var r := AddToCategories(cats, row);
    match FindCategory(cats, row.category)
    case None =>
      assert r[|cats|].name == row.category;
      forall c | HasCategory(cats, c) ensures HasCategory(r, c) {
        var j :| 0 <= j < |cats| && cats[j].name == c;
        assert r[j].name == c;
      }
      forall c | HasCategory(r, c) ensures HasCategory(cats, c) || c == row.category {
        var j :| 0 <= j < |r| && r[j].name == c;
        if j < |cats| { assert cats[j].name == c; }
      }
    case Some(k) =>
      assert forall j :: 0 <= j < |cats| ==> r[j].name == cats[j].name;
      forall c | HasCategory(r, c) ensures HasCategory(cats, c) {
        var j :| 0 <= j < |r| && r[j].name == c;
        assert cats[j].name == c;
      }
      forall c | HasCategory(cats, c) ensures HasCategory(r, c) {
        var j :| 0 <= j < |cats| && cats[j].name == c;
        assert r[j].name == c;
      }
  }

  /** Adding a row keeps every key unique and adds exactly the row's
      (month, category) pair. */
  lemma AddRowFacts(groups: seq<MonthData>, row: SankeyRow)
    requires KeysDistinct(groups)
    ensures KeysDistinct(AddRow(groups, row))
    ensures forall m, c :: HasPair(AddRow(groups, row), m, c) <==> HasPair(groups, m, c) || (m == MonthKey(row) && c == row.category)
  {
    match FindMonth(groups, MonthKey(row))
    case None => AddRowNewMonth(groups, row);
    case Some(k) => AddRowKnownMonth(groups, row, k);
  }

  lemma AddRowNewMonth(groups: seq<MonthData>, row: SankeyRow)
    requires KeysDistinct(groups) && FindMonth(groups, MonthKey(row)).None?
    ensures KeysDistinct(AddRow(groups, row))
    ensures forall m, c :: HasPair(AddRow(groups, row), m, c) <==> HasPair(groups, m, c) || (m == MonthKey(row) && c == row.category)
  {
    var r := AddRow(groups, row);
    var key := MonthKey(row);
    var blank := MonthData(key, 0, 0, []);
    AddToCategoriesFacts(blank.categories, row);
    assert r == groups + [Record(blank, row)];
    assert HasCategory(r[|groups|].categories, row.category);
    forall m, c | HasPair(groups, m, c) ensures HasPair(r, m, c) {
      var k :| 0 <= k < |groups| && groups[k].month == m && HasCategory(groups[k].categories, c);
      assert r[k] == groups[k];
    }
    forall m, c | HasPair(r, m, c) ensures HasPair(groups, m, c) || (m == key && c == row.category) {
      var k :| 0 <= k < |r| && r[k].month == m && HasCategory(r[k].categories, c);
      if k < |groups| { assert r[k] == groups[k]; }
    }
  }

  lemma AddRowKnownMonth(groups: seq<MonthData>, row: SankeyRow, k: nat)
    requires KeysDistinct(groups) && FindMonth(groups, MonthKey(row)) == Some(k)
    ensures KeysDistinct(AddRow(groups, row))
    ensures forall m, c :: HasPair(AddRow(groups, row), m, c) <==> HasPair(groups, m, c) || (m == MonthKey(row) && c == row.category)
  {
    var r := AddRow(groups, row);
    var key := MonthKey(row);
    AddToCategoriesFacts(groups[k].categories, row);
    assert forall j :: 0 <= j < |groups| ==> r[j].month == groups[j].month;
    forall m, c | HasPair(groups, m, c) ensures HasPair(r, m, c) {
      var j :| 0 <= j < |groups| && groups[j].month == m && HasCategory(groups[j].categories, c);
      assert r[j].month == m && HasCategory(r[j].categories, c);
    }
    forall m, c | HasPair(r, m, c) ensures HasPair(groups, m, c) || (m == key && c == row.category) {
      var j :| 0 <= j < |r| && r[j].month == m && HasCategory(r[j].categories, c);
      if j != k { assert r[j] == groups[j]; }
    }
  }

  lemma RowInStep(rows: seq<SankeyRow>, n: nat)
    requires 0 < n <= |rows|
    ensures forall m, c :: RowIn(rows, n, m, c) <==> RowIn(rows, n - 1, m, c) || (m == MonthKey(rows[n - 1]) && c == rows[n - 1].category)
  {
    forall m, c | RowIn(rows, n, m, c) && !(m == MonthKey(rows[n - 1]) && c == rows[n - 1].category)
      ensures RowIn(rows, n - 1, m, c)
    {
      var i :| 0 <= i < n && MonthKey(rows[i]) == m && rows[i].category == c;
    }
  }

  /** Sum of the amounts of the first `n` rows that are (or are not) income. */
  function RowTotal(rows: seq<SankeyRow>, n: nat, income: bool): int
    requires n <= |rows|
  {
    if n == 0 then 0
    else RowTotal(rows, n - 1, income) + (if rows[n - 1].isIncome == income then rows[n - 1].totalAmount else 0)
  }

  /** Sum of the months' `income` (or `expenses`) fields, in map order. */
  function MonthTotal(groups: seq<MonthData>, income: bool): int {
    if groups == [] then 0
    else MonthTotal(groups[..|groups| - 1], income) + Field(groups[|groups| - 1], income)
  }

  function Field(g: MonthData, income: bool): int {
    if income then g.income else g.expenses
  }

  lemma {:induction false} MonthTotalUpdate(groups: seq<MonthData>, k: nat, g: MonthData, income: bool)
    requires k < |groups|
    ensures MonthTotal(groups[k := g], income) == MonthTotal(groups, income) - Field(groups[k], income) + Field(g, income)
    decreases |groups|
  {
    var n := |groups| - 1;
    var r := groups[k := g];
    if k < n {
      assert r[..n] == groups[..n][k := g];
      MonthTotalUpdate(groups[..n], k, g, income);
    } else {
      assert r[..n] == groups[..n];
    }
  }

  lemma MonthTotalSnoc(groups: seq<MonthData>, g: MonthData, income: bool)
    ensures MonthTotal(groups + [g], income) == MonthTotal(groups, income) + Field(g, income)
  {
    assert (groups + [g])[..|groups|] == groups;
  }

  /** Adding a row to the grouping adds its amount to exactly one of the totals. */
  lemma AddRowTotal(groups: seq<MonthData>, row: SankeyRow, income: bool)
    ensures MonthTotal(AddRow(groups, row), income)
            == MonthTotal(groups, income) + (if row.isIncome == income then row.totalAmount else 0)
  {
    match FindMonth(groups, MonthKey(row))
    case None =>
      MonthTotalSnoc(groups, Record(MonthData(MonthKey(row), 0, 0, []), row), income);
    case Some(k) =>
      MonthTotalUpdate(groups, k, Record(groups[k], row), income);
  }

  // ---------------------------------------------------------------------------
  // Nodes and links

  datatype NodeKind = MonthNode | CategoryNode | SummaryNode

  /** An entry of `nodeMap`; its `id` is its position, since nodes are only ever
      appended. Month nodes are named by their key, category nodes by the category
      (missing for uncategorised rows), summary nodes by their title. */
  datatype Node = Node(name: Option<string>, kind: NodeKind, color: string, icon: string, value: int)

  datatype Link = Link(source: nat, target: nat, value: int)

  datatype Graph = Graph(nodes: seq<Node>, links: seq<Link>)

  /** `nodeMap.get(name)`, as a position. */
  function FindNode(nodes: seq<Node>, name: Option<string>): (r: Option<nat>)
    ensures r.Some? ==> r.value < |nodes| && nodes[r.value].name == name
    ensures r.None? <==> forall k :: 0 <= k < |nodes| ==> nodes[k].name != name
  {
    var keys := seq(|nodes|, k requires 0 <= k < |nodes| => nodes[k].name);
    assert forall k :: 0 <= k < |nodes| ==> keys[k] == nodes[k].name;
    Position(keys, name)
  }

  /** No two nodes share a name: the names are the keys of `nodeMap`. */
  predicate NamesDistinct(nodes: seq<Node>) {
    forall j, k :: 0 <= j < k < |nodes| ==> nodes[j].name != nodes[k].name
  }

  predicate Named(nodes: seq<Node>, name: Option<string>) {
    exists k :: 0 <= k < |nodes| && nodes[k].name == name
  }

  /** `addNode(name, type, color, icon)`: the id of the node called `name`, created
      with value 0 at the end when there is none; an existing node keeps its type,
      colour and icon. */
  function AddNode(nodes: seq<Node>, name: Option<string>, kind: NodeKind, color: string, icon: string): (r: (seq<Node>, nat))
    ensures r.1 < |r.0| && r.0[r.1].name == name && |nodes| <= |r.0| && r.0[..|nodes|] == nodes
    ensures Named(nodes, name) ==> r.0 == nodes
    ensures !Named(nodes, name) ==> r.0 == nodes + [Node(name, kind, color, icon, 0)] && r.1 == |nodes|
    ensures NamesDistinct(nodes) ==> NamesDistinct(r.0)
  {
    match FindNode(nodes, name)
    case Some(k) => (nodes, k)
    case None => (nodes + [Node(name, kind, color, icon, 0)], |nodes|)
  }

  /** Node names are unique and every link joins two existing nodes. */
  predicate GraphOk(g: Graph) {
    NamesDistinct(g.nodes)
    && forall l :: 0 <= l < |g.links| ==> g.links[l].source < |g.nodes| && g.links[l].target < |g.nodes|
  }

  /** `r` extends `g`: the old nodes keep their names and the old links stay in front. */
  predicate Grows(g: Graph, r: Graph) {
    |r.nodes| >= |g.nodes| && (forall k :: 0 <= k < |g.nodes| ==> r.nodes[k].name == g.nodes[k].name)
    && |r.links| >= |g.links| && r.links[..|g.links|] == g.links
  }

  lemma GrowsTrans(a: Graph, b: Graph, c: Graph)
    requires Grows(a, b) && Grows(b, c)
    ensures Grows(a, c)
  {
    assert c.links[..|a.links|] == c.links[..|b.links|][..|a.links|];
  }

  /** The body of `monthData.categories.forEach`: the category's node gains the
      amount and a link month -> category carries it. */
  function CategoryStep(g: Graph, monthId: nat, c: CategoryData): (r: Graph)
    ensures Grows(g, r) && |r.links| == |g.links| + 1
    ensures r.links[|g.links|].source == monthId && r.links[|g.links|].target < |r.nodes|
    ensures r.nodes[r.links[|g.links|].target].name == c.name
    ensures GraphOk(g) && monthId < |g.nodes| ==> GraphOk(r)
  {
    var p := AddNode(g.nodes, c.name, CategoryNode, c.color, c.icon);
    var nodes := p.0;
    var id := p.1;
    var r := Graph(nodes[id := nodes[id].(value := nodes[id].value + c.amount)], g.links + [Link(monthId, id, c.amount)]);
    PrefixNames(g.nodes, nodes);
    assert r.links[..|g.links|] == g.links;
    r
  }

  lemma PrefixNames(before: seq<Node>, after: seq<Node>)
    requires |before| <= |after| && after[..|before|] == before
    ensures forall k :: 0 <= k < |before| ==> after[k].name == before[k].name
  {
    forall k | 0 <= k < |before|
      ensures after[k].name == before[k].name
    {
      assert after[k] == after[..|before|][k];
    }
  }

  /** The graph after the first `n` categories of a month whose node is `monthId`:
      one more link per category, from the month's node to the category's node. */
  function CategoriesGraph(g: Graph, monthId: nat, cats: seq<CategoryData>, n: nat): (r: Graph)
    requires n <= |cats|
    ensures GraphOk(g) && monthId < |g.nodes| ==> GraphOk(r)
    ensures Grows(g, r) && |r.links| == |g.links| + n
    ensures forall t :: |g.links| <= t < |r.links| ==>
      r.links[t].source == monthId && r.links[t].target < |r.nodes| && r.nodes[r.links[t].target].name == cats[t - |g.links|].name
  {
    if n == 0 then g else
      var prev := CategoriesGraph(g, monthId, cats, n - 1);
      var r := CategoryStep(prev, monthId, cats[n - 1]);
      CategoriesStep(g, prev, r, monthId, cats, n);
      r
  }

  lemma CategoriesStep(g: Graph, prev: Graph, r: Graph, monthId: nat, cats: seq<CategoryData>, n: nat)
    requires 0 < n <= |cats|
    requires Grows(g, prev) && |prev.links| == |g.links| + n - 1
    requires forall t :: |g.links| <= t < |prev.links| ==>
      prev.links[t].source == monthId && prev.links[t].target < |prev.nodes| && prev.nodes[prev.links[t].target].name == cats[t - |g.links|].name
    requires Grows(prev, r) && |r.links| == |prev.links| + 1
    requires r.links[|prev.links|].source == monthId && r.links[|prev.links|].target < |r.nodes|
    requires r.nodes[r.links[|prev.links|].target].name == cats[n - 1].name
    ensures Grows(g, r)
    ensures forall t :: |g.links| <= t < |r.links| ==>
      r.links[t].source == monthId && r.links[t].target < |r.nodes| && r.nodes[r.links[t].target].name == cats[t - |g.links|].name
  {
    GrowsTrans(g, prev, r);
    forall t | |g.links| <= t < |prev.links|
      ensures r.links[t] == prev.links[t]
    {
      assert r.links[t] == r.links[..|prev.links|][t];
    }
  }

  /** The (month, category) entries of the first `n` months, in map order. */
  function Pairs(groups: seq<MonthData>, n: nat): (ps: seq<(string, Option<string>)>)
    requires n <= |groups|
  {
    if n == 0 then [] else Pairs(groups, n - 1) + MonthPairs(groups[n - 1].month, groups[n - 1].categories)
  }

  function MonthPairs(month: string, cats: seq<CategoryData>): (ps: seq<(string, Option<string>)>)
    ensures |ps| == |cats| && forall t :: 0 <= t < |cats| ==> ps[t] == (month, cats[t].name)
  {
    if cats == [] then [] else MonthPairs(month, cats[..|cats| - 1]) + [(month, cats[|cats| - 1].name)]
  }

  predicate PairsDistinct(ps: seq<(string, Option<string>)>) {
    forall i, j :: 0 <= i < j < |ps| ==> ps[i] != ps[j]
  }

  /** One of the first `n` months is `m` and has an entry for category `c`. */
  predicate HasPairBefore(groups: seq<MonthData>, n: nat, m: string, c: Option<string>)
    requires n <= |groups|
  {
    exists k :: 0 <= k < n && groups[k].month == m && HasCategory(groups[k].categories, c)
  }

  lemma MonthPairsIn(month: string, cats: seq<CategoryData>, p: (string, Option<string>))
    ensures p in MonthPairs(month, cats) <==> p.0 == month && HasCategory(cats, p.1)
  {
    var ps := MonthPairs(month, cats);
    if p in ps {
      var t :| 0 <= t < |ps| && ps[t] == p;
      assert cats[t].name == p.1;
    }
    if p.0 == month && HasCategory(cats, p.1) {
      var t :| 0 <= t < |cats| && cats[t].name == p.1;
      assert ps[t] == p;
    }
  }

  /** The entries listed are exactly the (month, category) pairs held by the first `n` months. */
  lemma {:induction false} PairsIn(groups: seq<MonthData>, n: nat, p: (string, Option<string>))
    requires n <= |groups|
    ensures p in Pairs(groups, n) <==> HasPairBefore(groups, n, p.0, p.1)
  {
    if n > 0 {
      PairsIn(groups, n - 1, p);
      var g := groups[n - 1];
      MonthPairsIn(g.month, g.categories, p);
      if HasPairBefore(groups, n, p.0, p.1) && !(p.0 == g.month && HasCategory(g.categories, p.1)) {
        var k :| 0 <= k < n && groups[k].month == p.0 && HasCategory(groups[k].categories, p.1);
        assert k < n - 1;
      }
      assert p in Pairs(groups, n) <==> p in Pairs(groups, n - 1) || p in MonthPairs(g.month, g.categories);
    }
  }

  /** With unique months and unique categories per month, no entry is listed twice. */
  lemma {:induction false} PairsUnique(groups: seq<MonthData>, n: nat)
    requires n <= |groups| && KeysDistinct(groups)
    ensures PairsDistinct(Pairs(groups, n))
  {
    if n > 0 {
      PairsUnique(groups, n - 1);
      var g := groups[n - 1];
      var front := Pairs(groups, n - 1);
      var back := MonthPairs(g.month, g.categories);
      assert CategoriesDistinct(g.categories);
      forall i | 0 <= i < |front|
        ensures front[i].0 != g.month
      {
        PairsIn(groups, n - 1, front[i]);
        var k :| 0 <= k < n - 1 && groups[k].month == front[i].0 && HasCategory(groups[k].categories, front[i].1);
      }
      PairsJoin(front, back, g.month);
    }
  }

  lemma PairsJoin(front: seq<(string, Option<string>)>, back: seq<(string, Option<string>)>, month: string)
    requires PairsDistinct(front) && PairsDistinct(back)
    requires forall i :: 0 <= i < |front| ==> front[i].0 != month
    requires forall j :: 0 <= j < |back| ==> back[j].0 == month
    ensures PairsDistinct(front + back)
  {
    var all := front + back;
    forall i, j | 0 <= i < j < |all|
      ensures all[i] != all[j]
    {
      if j >= |front| {
        assert all[j] == back[j - |front|];
        if i >= |front| {
          assert all[i] == back[i - |front|];
        }
      }
    }
  }

  /** The grouping of the rows lists each (month, category) pair of the rows once,
      and no other pair. */
  lemma GroupPairs(rows: seq<SankeyRow>)
    ensures var groups := Group(rows, |rows|);
      PairsDistinct(Pairs(groups, |groups|))
      && forall m, c :: (m, c) in Pairs(groups, |groups|) <==> RowIn(rows, |rows|, m, c)
  {
    var groups := Group(rows, |rows|);
    PairsUnique(groups, |groups|);
    forall m, c
      ensures (m, c) in Pairs(groups, |groups|) <==> RowIn(rows, |rows|, m, c)
    {
      PairsIn(groups, |groups|, (m, c));
      assert HasPairBefore(groups, |groups|, m, c) <==> HasPair(groups, m, c);
    }
  }

  /** Link `t` runs from the node of month `pairs[t].0` to the node of category
      `pairs[t].1`, for every `t`, and there are no other links. */
  predicate LinksNamed(g: Graph, pairs: seq<(string, Option<string>)>) {
    |g.links| == |pairs|
    && forall t :: 0 <= t < |pairs| ==>
      g.links[t].source < |g.nodes| && g.links[t].target < |g.nodes|
      && g.nodes[g.links[t].source].name == Some(pairs[t].0) && g.nodes[g.links[t].target].name == pairs[t].1
  }

  /** `r` is `g` plus one link per category of `month`, in order, each from the
      month's node to the category's node. */
  predicate MonthLinks(g: Graph, r: Graph, month: string, cats: seq<CategoryData>) {
    Grows(g, r) && |r.links| == |g.links| + |cats|
    && forall t :: |g.links| <= t < |r.links| ==>
      r.links[t].source < |r.nodes| && r.nodes[r.links[t].source].name == Some(month)
      && r.links[t].target < |r.nodes| && r.nodes[r.links[t].target].name == cats[t - |g.links|].name
  }

  /** The body of `Object.values(monthlyData).forEach`: the month's node, then its categories. */
  function MonthStep(g: Graph, m: MonthData): (r: Graph)
    requires GraphOk(g)
    ensures GraphOk(r) && MonthLinks(g, r, m.month, m.categories)
  {
    var p := AddNode(g.nodes, Some(m.month), MonthNode, MonthColor, MonthIcon);
    var start := Graph(p.0, g.links);
    StartOk(g, start);
    var r := CategoriesGraph(start, p.1, m.categories, |m.categories|);
    MonthStepLinks(g, start, r, p.1, m.month, m.categories);
    r
  }

  lemma StartOk(prev: Graph, start: Graph)
    requires GraphOk(prev) && NamesDistinct(start.nodes) && start.links == prev.links
    requires |prev.nodes| <= |start.nodes|
    ensures GraphOk(start)
  {
  }

  lemma MonthStepLinks(g: Graph, start: Graph, r: Graph, monthId: nat, month: string, cats: seq<CategoryData>)
    requires |g.nodes| <= |start.nodes| && start.nodes[..|g.nodes|] == g.nodes && start.links == g.links
    requires monthId < |start.nodes| && start.nodes[monthId].name == Some(month)
    requires Grows(start, r) && |r.links| == |start.links| + |cats|
    requires forall t :: |start.links| <= t < |r.links| ==>
      r.links[t].source == monthId && r.links[t].target < |r.nodes| && r.nodes[r.links[t].target].name == cats[t - |start.links|].name
    ensures MonthLinks(g, r, month, cats)
  {
    PrefixNames(g.nodes, start.nodes);
    assert start.links[..|g.links|] == g.links;
    GrowsTrans(g, start, r);
  }

  /** The graph after the first `n` months: unique names, links between existing
      nodes, and one month -> category link per (month, category) entry, in order. */
  function MonthsGraph(groups: seq<MonthData>, n: nat): (r: Graph)
    requires n <= |groups|
    ensures GraphOk(r) && LinksNamed(r, Pairs(groups, n))
  {
    if n == 0 then Graph([], []) else
      var prev := MonthsGraph(groups, n - 1);
      var r := MonthStep(prev, groups[n - 1]);
      MonthNamed(prev, r, groups[n - 1].month, groups[n - 1].categories, Pairs(groups, n - 1));
      r
  }

  lemma MonthNamed(prev: Graph, r: Graph, month: string, cats: seq<CategoryData>, ps: seq<(string, Option<string>)>)
    requires LinksNamed(prev, ps) && MonthLinks(prev, r, month, cats)
    ensures LinksNamed(r, ps + MonthPairs(month, cats))
  {
    var all := ps + MonthPairs(month, cats);
    forall t | 0 <= t < |all|
      ensures r.links[t].source < |r.nodes| && r.links[t].target < |r.nodes|
      ensures r.nodes[r.links[t].source].name == Some(all[t].0) && r.nodes[r.links[t].target].name == all[t].1
    {
      if t < |ps| {
        assert r.links[t] == r.links[..|prev.links|][t];
      }
    }
  }

  // ---------------------------------------------------------------------------
  // Summary links and the result

  /** `rows.some(r => r.category === name && r.is_income === true)`. */
  predicate AnyIncome(rows: seq<SankeyRow>, name: Option<string>) {
    exists i :: 0 <= i < |rows| && rows[i].category == name && rows[i].isIncome
  }

  /** The summary links contributed by the first `n` nodes of `nodeMap`: one per
      category node, in node order, carrying the node's value to 'Total Income' when
      some income row has that category and to 'Total Expenses' otherwise. */
  function SummaryLinks(nodes: seq<Node>, n: nat, rows: seq<SankeyRow>, incomeId: nat, expenseId: nat): (links: seq<Link>)
    requires n <= |nodes|
    ensures SummaryLinksOk(nodes, n, rows, incomeId, expenseId, links)
  {
    if n == 0 then [] else
      var prev := SummaryLinks(nodes, n - 1, rows, incomeId, expenseId);
      var node := nodes[n - 1];
      if node.kind == CategoryNode then
        var link := Link(n - 1, if AnyIncome(rows, node.name) then incomeId else expenseId, node.value);
        SummaryLinksSnoc(nodes, n, rows, incomeId, expenseId, prev, link);
        prev + [link]
      else
        SummaryLinksSkip(nodes, n, rows, incomeId, expenseId, prev);
        prev
  }

  /** What the summary links over the first `n` nodes are: each comes from a
      category node and carries its value to the summary node its rows call for,
      sources strictly increase, and every category node is a source. */
  predicate SummaryLinksOk(nodes: seq<Node>, n: nat, rows: seq<SankeyRow>, incomeId: nat, expenseId: nat, links: seq<Link>)
    requires n <= |nodes|
  {
    (forall j :: 0 <= j < |links| ==> SummaryLinkOf(nodes, rows, incomeId, expenseId, links[j]) && links[j].source < n)
    && (forall j, k :: 0 <= j < k < |links| ==> links[j].source < links[k].source)
    && (forall k :: 0 <= k < n && nodes[k].kind == CategoryNode ==> exists j :: 0 <= j < |links| && links[j].source == k)
  }

  predicate SummaryLinkOf(nodes: seq<Node>, rows: seq<SankeyRow>, incomeId: nat, expenseId: nat, link: Link) {
    link.source < |nodes| && nodes[link.source].kind == CategoryNode
    && link.value == nodes[link.source].value
    && link.target == (if AnyIncome(rows, nodes[link.source].name) then incomeId else expenseId)
  }

  lemma SummaryLinksSnoc(nodes: seq<Node>, n: nat, rows: seq<SankeyRow>, incomeId: nat, expenseId: nat, prev: seq<Link>, link: Link)
    requires 0 < n <= |nodes| && SummaryLinksOk(nodes, n - 1, rows, incomeId, expenseId, prev)
    requires link.source == n - 1 && SummaryLinkOf(nodes, rows, incomeId, expenseId, link)
    ensures SummaryLinksOk(nodes, n, rows, incomeId, expenseId, prev + [link])
  {
    var links := prev + [link];
    assert links[|prev|] == link;
    forall k | 0 <= k < n && nodes[k].kind == CategoryNode
      ensures exists j :: 0 <= j < |links| && links[j].source == k
    {
      if k < n - 1 {
        var j :| 0 <= j < |prev| && prev[j].source == k;
        assert links[j] == prev[j];
      }
    }
  }

  lemma SummaryLinksSkip(nodes: seq<Node>, n: nat, rows: seq<SankeyRow>, incomeId: nat, expenseId: nat, prev: seq<Link>)
    requires 0 < n <= |nodes| && SummaryLinksOk(nodes, n - 1, rows, incomeId, expenseId, prev)
    requires nodes[n - 1].kind != CategoryNode
    ensures SummaryLinksOk(nodes, n, rows, incomeId, expenseId, prev)
  {
  }

  /** A node as the response shows it: a value that is not positive is left out. */
  datatype OutNode = OutNode(name: Option<string>, kind: NodeKind, color: string, icon: string, value: Option<int>)

  datatype Summary = Summary(totalIncome: int, totalExpense: int, netFlow: int)

  datatype Sankey = Sankey(nodes: seq<OutNode>, links: seq<Link>, summary: Option<Summary>)

  function Shown(node: Node): (r: OutNode)
    ensures r.name == node.name && r.kind == node.kind && r.color == node.color && r.icon == node.icon
    ensures r.value.Some? <==> node.value > 0
    ensures r.value.Some? ==> r.value.value == node.value
  {
    OutNode(node.name, node.kind, node.color, node.icon, if node.value > 0 then Some(node.value) else None)
  }

  /** `Array.from(nodeMap.values()).map(...)`. */
  function ShownAll(nodes: seq<Node>): (r: seq<OutNode>)
    ensures |r| == |nodes| && forall k :: 0 <= k < |nodes| ==> r[k] == Shown(nodes[k])
  {
    if nodes == [] then [] else ShownAll(nodes[..|nodes| - 1]) + [Shown(nodes[|nodes| - 1])]
  }

  /** The summary nodes are added after all month and category nodes; a category
      that carries one of their names is reused instead. */
  function WithSummaryNodes(nodes: seq<Node>): (r: (seq<Node>, nat, nat))
    ensures |r.0| >= |nodes| && r.0[..|nodes|] == nodes && r.1 < |r.0| && r.2 < |r.0|
    ensures r.0[r.1].name == Some(IncomeName) && r.0[r.2].name == Some(ExpenseName)
    ensures NamesDistinct(nodes) ==> NamesDistinct(r.0)
  {
    var (withIncome, incomeId) := AddNode(nodes, Some(IncomeName), SummaryNode, IncomeColor, IncomeIcon);
    var (all, expenseId) := AddNode(withIncome, Some(ExpenseName), SummaryNode, ExpenseColor, ExpenseIcon);
    assert all[..|nodes|] == all[..|withIncome|][..|nodes|];
    (all, incomeId, expenseId)
  }

  /** The summary of the rows: income over the rows flagged as income, expenses over
      all others, and the net flow as their difference. */
  function Totals(rows: seq<SankeyRow>): Summary {
    var income := RowTotal(rows, |rows|, true);
    var expense := RowTotal(rows, |rows|, false);
    Summary(income, expense, income - expense)
  }

  /** Node names are unique and every link joins two nodes of the diagram. */
  predicate SankeyOk(r: Sankey) {
    (forall j, k :: 0 <= j < k < |r.nodes| ==> r.nodes[j].name != r.nodes[k].name)
    && forall l :: 0 <= l < |r.links| ==> r.links[l].source < |r.nodes| && r.links[l].target < |r.nodes|
  }

  /** `transformToSankey(rows)`. No rows give an empty diagram without a summary;
      otherwise the summary adds up the rows. The diagram's node names are unique and
      its links join its nodes. */
  function SankeyOf(rows: seq<SankeyRow>): (r: Sankey)
    ensures rows == [] ==> r == Sankey([], [], None)
    ensures rows != [] ==> r.summary == Some(Totals(rows))
    ensures SankeyOk(r)
  {
    if rows == [] then Sankey([], [], None) else
      var groups := Group(rows, |rows|);
      Diagram(MonthsGraph(groups, |groups|), rows, Totals(rows))
  }

  /** The rest of `transformToSankey` once the month and category nodes and links
      are built: the summary nodes and links, the totals, and the output mapping. */
  function Diagram(g: Graph, rows: seq<SankeyRow>, totals: Summary): (r: Sankey)
    requires GraphOk(g)
    ensures r.summary == Some(totals)
    ensures SankeyOk(r)
  {
    var (nodes, incomeId, expenseId) := WithSummaryNodes(g.nodes);
    var links := SummaryLinks(nodes, |nodes|, rows, incomeId, expenseId);
    var shown := ShownAll(nodes);
    DiagramOk(g, nodes, links, shown);
    Sankey(shown, g.links + links, Some(totals))
  }

  lemma DiagramOk(g: Graph, nodes: seq<Node>, links: seq<Link>, shown: seq<OutNode>)
    requires GraphOk(g) && |nodes| >= |g.nodes| && NamesDistinct(nodes)
    requires forall j :: 0 <= j < |links| ==> links[j].source < |nodes| && links[j].target < |nodes|
    requires |shown| == |nodes| && forall k :: 0 <= k < |nodes| ==> shown[k].name == nodes[k].name
    ensures SankeyOk(Sankey(shown, g.links + links, None))
  {
    var all := g.links + links;
    forall l | 0 <= l < |all|
      ensures all[l].source < |shown| && all[l].target < |shown|
    {
      if l >= |g.links| {
        assert all[l] == links[l - |g.links|];
      }
    }
  }

  /** The first `|pairs|` links of the diagram run, in order, from the node named
      after the month of each entry to the node named after its category. */
  predicate OutLinksNamed(r: Sankey, pairs: seq<(string, Option<string>)>) {
    |pairs| <= |r.links|
    && forall t :: 0 <= t < |pairs| ==>
      r.links[t].source < |r.nodes| && r.links[t].target < |r.nodes|
      && r.nodes[r.links[t].source].name == Some(pairs[t].0) && r.nodes[r.links[t].target].name == pairs[t].1
  }

  /** The month -> category links of the graph come first in the diagram and keep
      their endpoints' names. */
  lemma DiagramLinks(g: Graph, rows: seq<SankeyRow>, totals: Summary, ps: seq<(string, Option<string>)>)
    requires GraphOk(g) && LinksNamed(g, ps)
    ensures OutLinksNamed(Diagram(g, rows, totals), ps)
  {
    var w := WithSummaryNodes(g.nodes);
    var links := SummaryLinks(w.0, |w.0|, rows, w.1, w.2);
    PrefixNames(g.nodes, w.0);
    OutNamed(g, w.0, ShownAll(w.0), links, ps, totals);
  }

  lemma OutNamed(g: Graph, nodes: seq<Node>, shown: seq<OutNode>, links: seq<Link>, ps: seq<(string, Option<string>)>, totals: Summary)
    requires LinksNamed(g, ps) && |g.nodes| <= |nodes|
    requires forall k :: 0 <= k < |g.nodes| ==> nodes[k].name == g.nodes[k].name
    requires |shown| == |nodes| && forall k :: 0 <= k < |nodes| ==> shown[k] == Shown(nodes[k])
    ensures OutLinksNamed(Sankey(shown, g.links + links, Some(totals)), ps)
  {
    var all := g.links + links;
    forall t | 0 <= t < |ps|
      ensures all[t] == g.links[t]
    {
    }
  }

  /** Exactly one link per distinct (month, category) pair of the rows: the
      diagram starts with one link for each entry of the grouping, from the month's
      node to the category's node, and those entries are the rows' pairs, each once. */
  lemma SankeyMonthLinks(rows: seq<SankeyRow>)
    requires rows != []
    ensures var groups := Group(rows, |rows|);
      var ps := Pairs(groups, |groups|);
      OutLinksNamed(SankeyOf(rows), ps) && PairsDistinct(ps)
      && forall m, c :: (m, c) in ps <==> RowIn(rows, |rows|, m, c)
  {
    var groups := Group(rows, |rows|);
    SankeyOfRows(rows);
    DiagramLinks(MonthsGraph(groups, |groups|), rows, Totals(rows), Pairs(groups, |groups|));
    GroupPairs(rows);
  }

  // ---------------------------------------------------------------------------
  // The procedure

  /** `transformToSankey(rows)`, step by step as the route does it. */
  method TransformToSankey(rows: seq<SankeyRow>) returns (r: Sankey)
    ensures r == SankeyOf(rows)
  {
    if |rows| == 0 {
      return Sankey([], [], None);
    }
    var groups := GroupRows(rows);
    var g := BuildMonths(groups);
    var totals := SumAll(rows, groups);
    r := Finish(g, rows, totals);
    SankeyOfRows(rows);
  }

  /** The totals of the summary, added up over the months. */
  method SumAll(rows: seq<SankeyRow>, groups: seq<MonthData>) returns (totals: Summary)
    requires groups == Group(rows, |rows|)
    ensures totals == Totals(rows)
  {
    var totalIncome, totalExpense := SumMonths(groups);
    totals := Summary(totalIncome, totalExpense, totalIncome - totalExpense);
  }

  lemma SankeyOfRows(rows: seq<SankeyRow>)
    requires rows != []
    ensures var groups := Group(rows, |rows|);
      SankeyOf(rows) == Diagram(MonthsGraph(groups, |groups|), rows, Totals(rows))
  {
  }

  /** The summary nodes, the links to them and the output mapping. */
  method Finish(g: Graph, rows: seq<SankeyRow>, totals: Summary) returns (r: Sankey)
    requires GraphOk(g)
    ensures r == Diagram(g, rows, totals)
  {
    var a := AddNode(g.nodes, Some(IncomeName), SummaryNode, IncomeColor, IncomeIcon);
    var b := AddNode(a.0, Some(ExpenseName), SummaryNode, ExpenseColor, ExpenseIcon);
    var nodes := b.0;
    var summaryLinks := LinkCategories(nodes, rows, a.1, b.1);
    var shown := ShownAll(nodes);
    r := Sankey(shown, g.links + summaryLinks, Some(totals));
  }

  /** `rows.forEach(...)` filling `monthlyData`. */
  method GroupRows(rows: seq<SankeyRow>) returns (groups: seq<MonthData>)
    ensures groups == Group(rows, |rows|)
  {
    groups := [];
    for i := 0 to |rows|
      invariant groups == Group(rows, i)
    {
      groups := AddRow(groups, rows[i]);
    }
  }

  /** `monthlyData.forEach(...)` adding the month and category nodes and links. */
  method BuildMonths(groups: seq<MonthData>) returns (g: Graph)
    ensures g == MonthsGraph(groups, |groups|)
  {
    g := Graph([], []);
    for m := 0 to |groups|
      invariant g == MonthsGraph(groups, m)
    {
      var month := groups[m];
      var p := AddNode(g.nodes, Some(month.month), MonthNode, MonthColor, MonthIcon);
      g := AddCategories(Graph(p.0, g.links), p.1, month.categories);
    }
  }

  /** `monthData.categories.forEach(...)` for the month whose node is `monthId`. */
  method AddCategories(start: Graph, monthId: nat, cats: seq<CategoryData>) returns (g: Graph)
    ensures g == CategoriesGraph(start, monthId, cats, |cats|)
  {
    g := start;
    for j := 0 to |cats|
      invariant g == CategoriesGraph(start, monthId, cats, j)
    {
      g := CategoryStep(g, monthId, cats[j]);
    }
  }

  /** The loop adding up `totalIncome` and `totalExpense` over `monthlyData`. */
  method SumMonths(groups: seq<MonthData>) returns (totalIncome: int, totalExpense: int)
    ensures totalIncome == MonthTotal(groups, true) && totalExpense == MonthTotal(groups, false)
  {
    totalIncome, totalExpense := 0, 0;
    for k := 0 to |groups|
      invariant totalIncome == MonthTotal(groups[..k], true) && totalExpense == MonthTotal(groups[..k], false)
    {
      assert groups[..k + 1][..k] == groups[..k];
      totalIncome := totalIncome + groups[k].income;
      totalExpense := totalExpense + groups[k].expenses;
    }
    assert groups[..|groups|] == groups;
  }

  /** `nodeMap.forEach(...)` linking each category node to a summary node. */
  method LinkCategories(nodes: seq<Node>, rows: seq<SankeyRow>, incomeId: nat, expenseId: nat) returns (links: seq<Link>)
    ensures links == SummaryLinks(nodes, |nodes|, rows, incomeId, expenseId)
  {
    links := [];
    for n := 0 to |nodes|
      invariant links == SummaryLinks(nodes, n, rows, incomeId, expenseId)
    {
      var node := nodes[n];
      if node.kind == CategoryNode {
        var isIncome := AnyIncome(rows, node.name);
        if isIncome {
          links := links + [Link(n, incomeId, node.value)];
        } else {
          links := links + [Link(n, expenseId, node.value)];
        }
      }
    }
  }
}
