/** lib/ai/tools.js: the five read-only tools the assistant may call, their parameter
    schemas, and `runTool`, which sanitises the model's arguments and dispatches. The
    SQL behind each tool is a parameter: a `Queries` value answering each query from
    the user id and the sanitised arguments. */
module Tools {
  import opened Common
  import opened JsText

  /** One property of a tool's JSON-schema `parameters`. */
  datatype ParamSpec = ParamSpec(name: string, kind: string, enumValues: seq<string>,
                                 minimum: Option<int>, maximum: Option<int>, defaultValue: Option<int>,
                                 description: Option<string>)

  datatype ToolDefinition = ToolDefinition(name: string, description: string, properties: seq<ParamSpec>,
                                           required: seq<string>, additionalProperties: bool)

  const CountryParam := ParamSpec("countryCode", "string", ["UK", "IN"], None, None, None, None)
  const DaysParam := ParamSpec("days", "integer", [], Some(7), Some(90), Some(30), None)
  const LimitParam := ParamSpec("limit", "integer", [], Some(1), Some(25), Some(10), None)

  const SpendSummary := "get_spend_summary"
  const IncomeSummary := "get_income_summary"
  const RecentTransactions := "get_recent_transactions"
  const CategoryBreakdown := "get_category_breakdown"
  const Accounts := "get_accounts"

  /** `toolDefinitions`. */
  const ToolDefinitions: seq<ToolDefinition> := [
    ToolDefinition(SpendSummary,
      "Return total debit spend for the last N days for the given country code (UK or IN).",
      [CountryParam, DaysParam], ["countryCode"], false),
    ToolDefinition(IncomeSummary,
      "Return total credit income for the last N days for the given country code (UK or IN).",
      [CountryParam, DaysParam], ["countryCode"], false),
    ToolDefinition(RecentTransactions,
      "Fetch the most recent transactions for a country code.",
      [CountryParam, LimitParam], ["countryCode"], false),
    ToolDefinition(CategoryBreakdown,
      "Return spend by category for a country within a date range.",
      [CountryParam,
       ParamSpec("fromDate", "string", [], None, None, None, Some("YYYY-MM-DD")),
       ParamSpec("toDate", "string", [], None, None, None, Some("YYYY-MM-DD"))],
      ["countryCode"], false),
    ToolDefinition(Accounts,
      "List bank accounts for the user filtered by country code.",
      [CountryParam], ["countryCode"], false)
  ]

  const ToolNames: seq<string> := [SpendSummary, IncomeSummary, RecentTransactions, CategoryBreakdown, Accounts]

  /** Exactly five tools, with distinct names in the order `runTool` lists them; each
      requires only `countryCode`, restricted to UK and IN, and admits no other
      properties. */
  lemma ToolSchemas()
    ensures |ToolDefinitions| == 5
    ensures forall i :: 0 <= i < 5 ==> ToolDefinitions[i].name == ToolNames[i]
    ensures forall i, j :: 0 <= i < j < 5 ==> ToolNames[i] != ToolNames[j]
    ensures forall i :: 0 <= i < 5 ==>
      ToolDefinitions[i].required == ["countryCode"] && !ToolDefinitions[i].additionalProperties
      && ToolDefinitions[i].properties[0] == CountryParam && CountryParam.enumValues == ["UK", "IN"]
  {
    assert SpendSummary[4] == 's' && IncomeSummary[4] == 'i' && RecentTransactions[4] == 'r';
    assert CategoryBreakdown[4] == 'c' && Accounts[4] == 'a';
  }

  /** The arguments the model sent, after `JSON.parse`; only integer `days` and `limit`
      are modelled. */
  datatype ToolArgs = ToolArgs(countryCode: Option<string>, days: Option<int>, limit: Option<int>,
                               fromDate: Option<string>, toDate: Option<string>)

  /** The `{}` that `safeParseArgs` falls back to. */
  const NoArgs := ToolArgs(None, None, None, None, None)

  /** `sanitizeCountry`: 'IN' only for 'IN'. */
  function SanitizeCountry(countryCode: Option<string>): (r: string)
    ensures r == "IN" <==> countryCode == Some("IN")
    ensures r == "IN" || r == "UK"
  {
    if countryCode == Some("IN") then "IN" else "UK"
  }

  /** `Math.min(Math.max(value || fallback, low), high)`. */
  function ClampOr(value: Option<int>, fallback: int, low: int, high: int): (r: int)
    requires low <= fallback <= high
    ensures low <= r <= high
    ensures value.None? || value.value == 0 ==> r == fallback
    ensures value.Some? && value.value != 0 && low <= value.value <= high ==> r == value.value
    ensures value.Some? && value.value != 0 && value.value < low ==> r == low
    ensures value.Some? && value.value != 0 && value.value > high ==> r == high
  {
    var v := if value.Some? && value.value != 0 then value.value else fallback;
    if v < low then low else if v > high then high else v
  }

  function Days(args: ToolArgs): (r: int)
    ensures 7 <= r <= 90
  {
    ClampOr(args.days, 30, 7, 90)
  }

  function Limit(args: ToolArgs): (r: int)
    ensures 1 <= r <= 25
  {
    ClampOr(args.limit, 10, 1, 25)
  }

  /** A row of a query result, as column name and rendered value pairs. */
  datatype QueryRow = QueryRow(columns: seq<(string, string)>)

  /** The read-only queries behind the tools, each given the user id first. */
  datatype Queries = Queries(
    spendTotal: (int, string, int) -> int,
    incomeTotal: (int, string, int) -> int,
    recentTransactions: (int, string, int) -> seq<QueryRow>,
    categoryBreakdown: (int, string, Option<string>, Option<string>) -> seq<QueryRow>,
    accounts: (int, string) -> seq<QueryRow>)

  datatype ToolResult =
    | Spend(countryCode: string, days: int, total: int)
    | Income(countryCode: string, days: int, total: int)
    | Recent(countryCode: string, limit: int, transactions: seq<QueryRow>)
    | Breakdown(countryCode: string, fromDate: Option<string>, toDate: Option<string>, categories: seq<QueryRow>)
    | AccountList(countryCode: string, accounts: seq<QueryRow>)

  /** How a template string shows a tool name that may be missing. */
  function NameText(name: Option<string>): string {
    if name.Some? then name.value else "undefined"
  }

  /** What V8 throws when a tool reads `args.countryCode` and `args` is `null`. */
  const NullArgsRead := "Cannot read properties of null (reading 'countryCode')"

  /** `runTool(name, args, userId)`; a rejected promise is a `Failure`. `args` is `None`
      when it is `null`, which every tool dereferences before anything else. */
  function RunTool(name: Option<string>, args: Option<ToolArgs>, userId: int, queries: Queries)
    : (r: Result<ToolResult, string>)
    ensures r.Failure? <==> name.None? || name.value !in ToolNames || args.None?
    ensures (name.None? || name.value !in ToolNames) ==> r == Failure("Unknown tool: " + NameText(name))
    ensures name.Some? && name.value in ToolNames && args.None? ==> r == Failure(NullArgsRead)
    ensures name == Some(SpendSummary) && args.Some? ==>
      var country := SanitizeCountry(args.value.countryCode);
      r == Success(Spend(country, Days(args.value), queries.spendTotal(userId, country, Days(args.value))))
    ensures name == Some(IncomeSummary) && args.Some? ==>
      var country := SanitizeCountry(args.value.countryCode);
      r == Success(Income(country, Days(args.value), queries.incomeTotal(userId, country, Days(args.value))))
    ensures name == Some(RecentTransactions) && args.Some? ==>
      var country := SanitizeCountry(args.value.countryCode);
      r == Success(Recent(country, Limit(args.value), queries.recentTransactions(userId, country, Limit(args.value))))
    ensures name == Some(CategoryBreakdown) && args.Some? ==>
      var country := SanitizeCountry(args.value.countryCode);
      var from := OrNull(args.value.fromDate);
      var to := OrNull(args.value.toDate);
      r == Success(Breakdown(country, from, to, queries.categoryBreakdown(userId, country, from, to)))
    ensures name == Some(Accounts) && args.Some? ==>
      var country := SanitizeCountry(args.value.countryCode);
      r == Success(AccountList(country, queries.accounts(userId, country)))
    ensures r.Success? ==> r.value.countryCode == SanitizeCountry(args.value.countryCode)
    ensures r.Success? && (r.value.Spend? || r.value.Income?) ==> 7 <= r.value.days <= 90
    ensures r.Success? && r.value.Recent? ==> 1 <= r.value.limit <= 25
  {
    if name.None? || name.value !in ToolNames then Failure("Unknown tool: " + NameText(name))
    else if args.None? then Failure(NullArgsRead)
    else
      var a := args.value;
      var country := SanitizeCountry(a.countryCode);
      if name.value == SpendSummary then
        Success(Spend(country, Days(a), queries.spendTotal(userId, country, Days(a))))
      else if name.value == IncomeSummary then
        Success(Income(country, Days(a), queries.incomeTotal(userId, country, Days(a))))
      else if name.value == RecentTransactions then
        Success(Recent(country, Limit(a), queries.recentTransactions(userId, country, Limit(a))))
      else if name.value == CategoryBreakdown then
        Success(Breakdown(country, OrNull(a.fromDate), OrNull(a.toDate),
                          queries.categoryBreakdown(userId, country, OrNull(a.fromDate), OrNull(a.toDate))))
      else
        Success(AccountList(country, queries.accounts(userId, country)))
  }

  /** Every query is asked about the `userId` of the call and nothing else: two sets of
      queries that agree on that user give the same result, whatever the arguments. */
  lemma RunToolScopedToUser(name: Option<string>, args: Option<ToolArgs>, userId: int, q1: Queries, q2: Queries)
    requires forall c, d :: q1.spendTotal(userId, c, d) == q2.spendTotal(userId, c, d)
    requires forall c, d :: q1.incomeTotal(userId, c, d) == q2.incomeTotal(userId, c, d)
    requires forall c, d :: q1.recentTransactions(userId, c, d) == q2.recentTransactions(userId, c, d)
    requires forall c, f, t :: q1.categoryBreakdown(userId, c, f, t) == q2.categoryBreakdown(userId, c, f, t)
    requires forall c :: q1.accounts(userId, c) == q2.accounts(userId, c)
    ensures RunTool(name, args, userId, q1) == RunTool(name, args, userId, q2)
  {
  }
}
