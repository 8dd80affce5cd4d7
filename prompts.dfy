/** lib/ai/prompts.js: the system prompt of the assistant, five fixed instruction lines
    and one page-context line built from what the browser reports about the page. */
module Prompts {
  import opened Common
  import opened JsText

  /** The page context the browser sends; `summary` lists the visible metrics as
      (key, rendered value) pairs in entry order. */
  datatype PageContext = PageContext(route: Option<string>, country: Option<string>, summary: Option<seq<(string, string)>>)

  /** The `{}` a missing page context stands for. */
  const EmptyContext := PageContext(None, None, None)

  const Instructions: seq<string> := [
    "You are the household personal-finance copilot for Tanveer and spouse.",
    "Rules: do not fabricate balances; always ask clarifying questions if data is missing; keep responses concise and actionable.",
    "Use tools whenever the user requests specific numbers, balances, categories, or transaction details.",
    "Never execute raw SQL; only call provided tools. All data is scoped to the authenticated user.",
    "Mark any inferred estimates clearly; prefer sourced numbers."
  ]

  const RoutePrefix := "Current route: "
  const CountryPrefix := "Active country: "
  const MetricsHeader := "Visible metrics:"
  const NoContext := "Page context: none provided."
  const ContextHeader := "Page context:\n"

  function MetricLine(entry: (string, string)): string {
    "- " + entry.0 + ": " + entry.1
  }

  function MetricLines(entries: seq<(string, string)>): (r: seq<string>)
    ensures |r| == |entries|
    ensures forall i :: 0 <= i < |entries| ==> r[i] == MetricLine(entries[i])
  {
    seq(|entries|, i requires 0 <= i < |entries| => MetricLine(entries[i]))
  }

  function RouteLines(ctx: PageContext): seq<string> {
    if Truthy(ctx.route) then [RoutePrefix + ctx.route.value] else []
  }

  function CountryLines(ctx: PageContext): seq<string> {
    if Truthy(ctx.country) then [CountryPrefix + ctx.country.value] else []
  }

  function SummaryLines(ctx: PageContext): seq<string> {
    if ctx.summary.Some? && |ctx.summary.value| > 0 then [MetricsHeader] + MetricLines(ctx.summary.value) else []
  }

  /** `contextLines` once the three `if`s have run. */
  function ContextLines(ctx: PageContext): seq<string> {
    RouteLines(ctx) + CountryLines(ctx) + SummaryLines(ctx)
  }

  /** The last line of the prompt. */
  function PageContextLine(lines: seq<string>): (r: string)
    ensures lines == [] ==> r == NoContext
    ensures lines != [] ==> r == ContextHeader + Join(lines, "\n")
  {
    if |lines| > 0 then ContextHeader + Join(lines, "\n") else NoContext
  }

  /** `buildSystemPrompt(pageContext)`, a missing context read as `{}`. */
  function SystemPrompt(pageContext: Option<PageContext>): string {
    var ctx := pageContext.GetOr(EmptyContext);
    Join(Instructions + [PageContextLine(ContextLines(ctx))], "\n")
  }

  /** `buildSystemPrompt` collecting the context lines. */
  method BuildContextLines(ctx: PageContext) returns (lines: seq<string>)
    ensures lines == ContextLines(ctx)
  {
    lines := [];
    if Truthy(ctx.route) {
      lines := lines + [RoutePrefix + ctx.route.value];
    }
    if Truthy(ctx.country) {
      lines := lines + [CountryPrefix + ctx.country.value];
    }
    assert lines == RouteLines(ctx) + CountryLines(ctx);
    if ctx.summary.Some? && |ctx.summary.value| > 0 {
      lines := lines + [MetricsHeader];
      lines := PushMetricLines(lines, ctx.summary.value);
    }
  }

  /** The `for` loop over the summary entries, pushing one line per entry. */
  method PushMetricLines(head: seq<string>, entries: seq<(string, string)>) returns (lines: seq<string>)
    ensures lines == head + MetricLines(entries)
  {
    lines := head;
    for i := 0 to |entries|
      invariant lines == head + MetricLines(entries[..i])
    {
      MetricLinesSnoc(entries[..i], entries[i]);
      assert entries[..i + 1] == entries[..i] + [entries[i]];
      lines := lines + [MetricLine(entries[i])];
    }
    assert entries[..|entries|] == entries;
  }

  lemma MetricLinesSnoc(entries: seq<(string, string)>, e: (string, string))
    ensures MetricLines(entries + [e]) == MetricLines(entries) + [MetricLine(e)]
  {
    assert forall i :: 0 <= i < |entries| ==> (entries + [e])[i] == entries[i];
  }

  /** `buildSystemPrompt(pageContext)`. */
  method BuildSystemPrompt(pageContext: Option<PageContext>) returns (prompt: string)
    ensures prompt == SystemPrompt(pageContext)
    ensures prompt == Join(Instructions, "\n") + "\n" + PageContextLine(ContextLines(pageContext.GetOr(EmptyContext)))
  {
    var ctx := pageContext.GetOr(EmptyContext);
    var lines := BuildContextLines(ctx);
    prompt := Join(Instructions + [PageContextLine(lines)], "\n");
    PromptLayout(pageContext);
  }

  lemma {:induction false} JoinSnoc(parts: seq<string>, last: string, sep: string)
    requires parts != []
    ensures Join(parts + [last], sep) == Join(parts, sep) + sep + last
    decreases |parts|
  {
    if |parts| == 1 {
      assert parts + [last] == [parts[0]] + [last];
      JoinCons(parts[0], [last], sep);
    } else {
      assert parts + [last] == [parts[0]] + (parts[1..] + [last]);
      JoinCons(parts[0], parts[1..] + [last], sep);
      JoinSnoc(parts[1..], last, sep);
      JoinCons(parts[0], parts[1..], sep);
      assert [parts[0]] + parts[1..] == parts;
    }
  }

  /** The prompt is the five instruction lines, always the same and in the same order,
      then the page-context line, joined with line breaks. */
  lemma PromptLayout(pageContext: Option<PageContext>)
    ensures SystemPrompt(pageContext)
      == Join(Instructions, "\n") + "\n" + PageContextLine(ContextLines(pageContext.GetOr(EmptyContext)))
  {
    JoinSnoc(Instructions, PageContextLine(ContextLines(pageContext.GetOr(EmptyContext))), "\n");
  }

  /** A 'Current route:' line is present iff the route is non-empty, and likewise an
      'Active country:' line iff the country is. */
  lemma {:induction false} RouteAndCountryLines(ctx: PageContext)
    ensures Truthy(ctx.route) <==> exists i :: 0 <= i < |ContextLines(ctx)| && StartsWith(ContextLines(ctx)[i], RoutePrefix)
    ensures Truthy(ctx.country) <==> exists i :: 0 <= i < |ContextLines(ctx)| && StartsWith(ContextLines(ctx)[i], CountryPrefix)
  {
    var lines := ContextLines(ctx);
    var r := |RouteLines(ctx)|;
    var c := |CountryLines(ctx)|;
    forall i | 0 <= i < |lines|
      ensures StartsWith(lines[i], RoutePrefix) ==> i < r
      ensures StartsWith(lines[i], CountryPrefix) ==> r <= i < r + c
    {
      if i < r {
        assert lines[i] == RoutePrefix + ctx.route.value;
        assert lines[i][0] == 'C';
      } else if i < r + c {
        assert lines[i] == CountryPrefix + ctx.country.value;
        assert lines[i][0] == 'A';
      } else {
        var s := SummaryLines(ctx);
        assert lines[i] == s[i - r - c];
        assert lines[i][0] == 'V' || lines[i][0] == '-' by {
          if i - r - c > 0 {
            assert lines[i] == MetricLine(ctx.summary.value[i - r - c - 1]);
          }
        }
      }
    }
    if Truthy(ctx.route) {
      assert lines[0] == RoutePrefix + ctx.route.value;
      assert StartsWith(lines[0], RoutePrefix);
    }
    if Truthy(ctx.country) {
      assert lines[r] == CountryPrefix + ctx.country.value;
      assert StartsWith(lines[r], CountryPrefix);
    }
  }

  /** 'Visible metrics:' is followed by one line per summary entry, in entry order, and
      appears only when the summary has entries. */
  lemma MetricsSection(ctx: PageContext)
    ensures ctx.summary.None? || ctx.summary.value == [] ==> MetricsHeader !in ContextLines(ctx)
    ensures ctx.summary.Some? && ctx.summary.value != [] ==>
      var lines := ContextLines(ctx);
      var n := |ctx.summary.value|;
      |lines| > n && lines[|lines| - n - 1] == MetricsHeader
      && forall i :: 0 <= i < n ==> lines[|lines| - n + i] == MetricLine(ctx.summary.value[i])
  {
    var lines := ContextLines(ctx);
    if ctx.summary.None? || ctx.summary.value == [] {
      forall i | 0 <= i < |lines| ensures lines[i] != MetricsHeader {
        if i < |RouteLines(ctx)| {
          assert lines[i][0] == 'C';
        } else {
          assert lines[i][0] == 'A';
        }
      }
    }
  }
}
