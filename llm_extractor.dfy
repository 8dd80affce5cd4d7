/** Transaction extraction through a hosted language model (lib/llm-extractor.js):
    a credential guard, one chat request, the removal of a Markdown code fence around
    the reply, and `JSON.parse`. The HTTP call and the JSON parser are parameters. */
module LlmExtractor {
  import opened Common
  import opened JsText

  const OpenRouterUrl := "https://openrouter.ai/api/v1/chat/completions"
  const ExtractionModel := "mistralai/mistral-7b-instruct"
  const Temperature: real := 0.3

  const MissingKeyMessage := "OPENROUTER_API_KEY not configured"
  /** What the `catch` block throws: it reads `content`, which was declared inside `try`. */
  const ContentNotDefined := "content is not defined"

  const Fence := "```"

  /** The prompt: fixed instructions with the statement text in their one slot. */
  datatype Prompt = ExtractionPrompt(statementText: string)

  /** The prompt text before and after the statement text. */
  const PromptHead := "You are a bank statement parser. Extract all transactions from the following bank statement text and return as JSON.\n\nBank Statement:\n"
  const PromptTail := "\n\nReturn ONLY valid JSON (no markdown, no extra text) in this format:\n{\n  \"transactions\": [\n    {\n      \"date\": \"YYYY-MM-DD\",\n      \"amount\": number (positive for credit, negative for debit),\n      \"merchant\": \"merchant name\",\n      \"description\": \"transaction description\",\n      \"transaction_type\": \"debit\" or \"credit\"\n    }\n  ],\n  \"bank_detected\": \"bank name\",\n  \"account_type\": \"checking/savings/investment\",\n  \"confidence\": 0.0 to 1.0\n}"

  /** The text the template literal produces: the whole statement sits right after
      the fixed head, unchanged, and is followed by the fixed format description. */
  function PromptText(p: Prompt): (r: string)
    ensures |r| == |PromptHead| + |p.statementText| + |PromptTail|
    ensures r[..|PromptHead|] == PromptHead
    ensures r[|PromptHead|..|PromptHead| + |p.statementText|] == p.statementText
    ensures r[|PromptHead| + |p.statementText|..] == PromptTail
  {
    var r := PromptHead + p.statementText + PromptTail;
    assert r[..|PromptHead|] == PromptHead;
    assert r[|PromptHead|..|PromptHead| + |p.statementText|] == p.statementText;
    assert r[|PromptHead| + |p.statementText|..] == PromptTail;
    r
  }

  datatype ChatMessage = ChatMessage(role: string, content: Prompt)

  /** The body and the authorisation header of the POST. */
  datatype Request = Request(url: string, model: string, messages: seq<ChatMessage>,
                             temperature: real, authorization: string)

  /** The single request `extractTransactionsFromText` sends: one user message whose
      prompt carries the statement text, a fixed model and temperature, and the key as
      a bearer token. */
  function BuildRequest(apiKey: string, statementText: string): (r: Request)
    ensures r.url == OpenRouterUrl && r.model == "mistralai/mistral-7b-instruct" && r.temperature == 0.3
    ensures |r.messages| == 1 && r.messages[0] == ChatMessage("user", ExtractionPrompt(statementText))
    ensures r.authorization == "Bearer " + apiKey
  {
    Request(OpenRouterUrl, ExtractionModel, [ChatMessage("user", ExtractionPrompt(statementText))],
            Temperature, "Bearer " + apiKey)
  }

  // ---------------------------------------------------------------------------
  // Fence stripping

  /** `s.replace(/^```(?:json)?\s*\n?/, '')`: one leading fence, the word `json` right
      after it when present, and all white space after that. The pattern has no `i`
      flag, and `\s` is the set of characters `trim` removes. */
  function StripOpening(s: string): (r: string)
    ensures !StartsWith(s, Fence) ==> r == s
    ensures StartsWith(s, Fence) ==> |r| <= |s| - 3 && r == s[|s| - |r|..] && (r == [] || !IsSpace(r[0]))
    ensures StartsWith(s, Fence + "json") ==> |r| <= |s| - 7 && AllSpace(s[7..|s| - |r|])
    ensures StartsWith(s, Fence) && !StartsWith(s, Fence + "json") ==> AllSpace(s[3..|s| - |r|])
  {
    if StartsWith(s, Fence) then
      var rest := s[3..];
      assert StartsWith(rest, "json") <==> StartsWith(s, Fence + "json") by {
        if StartsWith(s, Fence + "json") {
          assert rest[..4] == s[..7][3..];
        }
        if StartsWith(rest, "json") {
          assert s[..7] == s[..3] + rest[..4];
        }
      }
      var afterWord := if StartsWith(rest, "json") then rest[4..] else rest;
      var r := TrimStart(afterWord);
      assert r == s[|s| - |r|..];
      assert afterWord[..|afterWord| - |r|] == s[|s| - |afterWord|..|s| - |r|];
      r
    else s
  }

  /** Does `/\n?```\s*$/` match at position `p`? The pattern reaches the end of the
      string, so a match at `p` removes all of `s[p..]`. */
  predicate ClosingAt(s: string, p: nat) {
    (p < |s| && s[p] == '\n' && FenceAt(s, p + 1) && SpaceFrom(s, p + 4))
    || (FenceAt(s, p) && SpaceFrom(s, p + 3))
  }

  /** Three backquotes at position `p`. */
  predicate FenceAt(s: string, p: nat) {
    p + 3 <= |s| && s[p] == '`' && s[p + 1] == '`' && s[p + 2] == '`'
  }

  /** Only white space from position `p` on. */
  predicate SpaceFrom(s: string, p: nat) {
    forall i :: p <= i < |s| ==> IsSpace(s[i])
  }

  /** The leftmost position at or after `p` where the closing pattern matches. */
  function FirstClosing(s: string, p: nat): (r: Option<nat>)
    decreases |s| - p
    ensures r.Some? ==> (p <= r.value <= |s| && ClosingAt(s, r.value)
      && forall q :: p <= q < r.value ==> !ClosingAt(s, q))
    ensures r.None? ==> forall q :: p <= q ==> !ClosingAt(s, q)
  {
    if p + 3 > |s| then None
    else if ClosingAt(s, p) then Some(p)
    else FirstClosing(s, p + 1)
  }

  /** `s.replace(/\n?```\s*$/, '')`: everything from the leftmost match on is removed. */
  function StripClosing(s: string): (r: string)
    ensures r <= s
  {
    match FirstClosing(s, 0)
    case Some(p) => s[..p]
    case None => s
  }

  /** The cleaning pipeline applied to the model's reply before `JSON.parse`. */
  function StripFences(content: string): (r: string)
    ensures IsTrimmed(r)
  {
    Trim(StripClosing(StripOpening(Trim(content))))
  }

  /** In a string that ends in a non-space character the closing pattern can only match
      at the very end: the white space it allows after the fence must be empty. */
  lemma ClosingOnlyAtEnd(s: string, p: nat)
    requires s != [] && !IsSpace(s[|s| - 1]) && ClosingAt(s, p)
    ensures (p + 4 == |s| && EndsWith(s, "\n" + Fence)) || (p + 3 == |s| && EndsWith(s, Fence))
  {
    if p < |s| && s[p] == '\n' && FenceAt(s, p + 1) && SpaceFrom(s, p + 4) {
      assert p + 4 == |s|;
      assert s[|s| - 4..] == "\n" + Fence;
    } else {
      assert p + 3 == |s|;
      assert s[|s| - 3..] == Fence;
    }
  }

  /** On a string that ends in a non-space character, removing the closing fence takes
      off a final newline-and-fence, else a final fence, else nothing. */
  lemma StripClosingOfEnded(s: string)
    requires s != [] && !IsSpace(s[|s| - 1])
    ensures EndsWith(s, "\n" + Fence) ==> StripClosing(s) == s[..|s| - 4]
    ensures !EndsWith(s, "\n" + Fence) && EndsWith(s, Fence) ==> StripClosing(s) == s[..|s| - 3]
    ensures !EndsWith(s, Fence) ==> StripClosing(s) == s
  {
    if EndsWith(s, "\n" + Fence) {
      StripClosingOfNewlineFence(s);
    } else if EndsWith(s, Fence) {
      StripClosingOfFence(s);
    } else {
      StripClosingOfUnfenced(s);
    }
  }

  lemma StripClosingOfNewlineFence(s: string)
    requires s != [] && !IsSpace(s[|s| - 1]) && EndsWith(s, "\n" + Fence)
    ensures StripClosing(s) == s[..|s| - 4]
  {
    assert s[|s| - 4..][0] == '\n' && s[|s| - 4..][1] == '`' && s[|s| - 4..][2] == '`' && s[|s| - 4..][3] == '`';
    assert ClosingAt(s, |s| - 4);
    var r := FirstClosing(s, 0);
    ClosingOnlyAtEnd(s, r.value);
  }

  lemma StripClosingOfFence(s: string)
    requires s != [] && !IsSpace(s[|s| - 1]) && !EndsWith(s, "\n" + Fence) && EndsWith(s, Fence)
    ensures StripClosing(s) == s[..|s| - 3]
  {
    assert s[|s| - 3..][0] == '`' && s[|s| - 3..][1] == '`' && s[|s| - 3..][2] == '`';
    assert ClosingAt(s, |s| - 3);
    var r := FirstClosing(s, 0);
    ClosingOnlyAtEnd(s, r.value);
  }

  lemma StripClosingOfUnfenced(s: string)
    requires s != [] && !IsSpace(s[|s| - 1]) && !EndsWith(s, Fence)
    ensures StripClosing(s) == s
  {
    var r := FirstClosing(s, 0);
    if r.Some? {
      ClosingOnlyAtEnd(s, r.value);
    }
  }

  /** A reply that is already trimmed and carries no fence at either end reaches
      `JSON.parse` unchanged. */
  lemma UnfencedUnchanged(s: string)
    requires IsTrimmed(s) && !StartsWith(s, Fence) && !EndsWith(s, Fence)
    ensures StripFences(s) == s
  {
    TrimOfTrimmed(s);
    if s != [] {
      StripClosingOfEnded(s);
    } else {
      assert FirstClosing(s, 0).None?;
    }
  }

  /** The reply shape the prompt is meant to prevent but which models produce anyway:
      a body in a `json` code block comes out exactly as the body. */
  lemma FencedBodyRecovered(b: string)
    requires IsTrimmed(b)
    ensures StripFences("```json\n" + b + "\n```") == b
  {
    if b == [] {
      EmptyFencedRecovered("```json\n" + b + "\n```");
    } else {
      NonEmptyFencedRecovered(b);
    }
  }

  /** The same for a bare ```` ``` ```` block without the word `json`. */
  lemma BareFencedBodyRecovered(b: string)
    requires IsTrimmed(b)
    ensures StripFences("```\n" + b + "\n```") == b
  {
    if b == [] {
      EmptyBareRecovered("```\n" + b + "\n```");
    } else {
      NonEmptyBareRecovered(b);
    }
  }

  lemma NonEmptyBareRecovered(b: string)
    requires IsTrimmed(b) && b != []
    ensures StripFences("```\n" + b + "\n```") == b
  {
    var c := "```\n" + b + "\n```";
    BareIsTrimmed(c, b);
    BareOpeningOfFenced(b);
    ClosingOfBody(b);
    TrimOfTrimmed(b);
    StripSteps(c, b + "\n```", b, b);
  }

  lemma BareIsTrimmed(c: string, b: string)
    requires c == "```\n" + b + "\n```"
    ensures Trim(c) == c
  {
    assert c[0] == '`' && c[|c| - 1] == '`';
    TrimOfTrimmed(c);
  }

  /** The opening step removes the bare fence and the newline. */
  lemma BareOpeningOfFenced(b: string)
    requires IsTrimmed(b) && b != []
    ensures StripOpening("```\n" + b + "\n```") == b + "\n```"
  {
    var t := b + "\n```";
    assert "```\n" + b + "\n```" == Fence + ("\n" + t);
    OpeningAfterNewline(t);
    assert t[0] == b[0];
    TrimStartOfTrimmed(t);
  }

  lemma EmptyBareRecovered(c: string)
    requires c == Fence + ("\n" + ("\n" + Fence))
    ensures StripFences(c) == []
  {
    assert c[0] == '`' && c[|c| - 1] == '`';
    TrimOfTrimmed(c);
    OpeningAfterNewline("\n" + Fence);
    TrimStartOfSpace('\n', Fence);
    TrimStartOfTrimmed(Fence);
    FenceOnlyRemoved(c);
  }

  /** After a bare fence and a newline the opening step removes exactly the leading
      white space. */
  lemma OpeningAfterNewline(t: string)
    ensures StripOpening(Fence + ("\n" + t)) == TrimStart(t)
  {
    var s := Fence + ("\n" + t);
    var rest := "\n" + t;
    assert s[..3] == Fence && StartsWith(s, Fence);
    assert s[3..] == rest;
    assert !StartsWith(rest, "json") by {
      if |rest| >= 4 {
        assert rest[..4][0] == '\n' != "json"[0];
      }
    }
    assert StripOpening(s) == TrimStart(rest);
    TrimStartOfSpace('\n', t);
  }

  lemma NonEmptyFencedRecovered(b: string)
    requires IsTrimmed(b) && b != []
    ensures StripFences("```json\n" + b + "\n```") == b
  {
    var c := "```json\n" + b + "\n```";
    FencedIsTrimmed(c, b);
    OpeningOfFenced(b);
    ClosingOfBody(b);
    TrimOfTrimmed(b);
    StripSteps(c, b + "\n```", b, b);
  }

  lemma ClosingOfBody(b: string)
    requires IsTrimmed(b) && b != []
    ensures StripClosing(b + "\n```") == b
  {
    var s := b + "\n```";
    assert s[|s| - 4..] == "\n" + Fence;
    StripClosingOfEnded(s);
    assert s[..|s| - 4] == b;
  }

  lemma ClosingOfFence(f: string)
    requires f == Fence
    ensures StripClosing(f) == []
  {
    StripClosingOfEnded(f);
  }

  /** The four steps of the pipeline, one at a time. */
  lemma StripSteps(c: string, afterOpening: string, afterClosing: string, r: string)
    requires Trim(c) == c && StripOpening(c) == afterOpening && StripClosing(afterOpening) == afterClosing && Trim(afterClosing) == r
    ensures StripFences(c) == r
  {
  }

  lemma EmptyFencedRecovered(c: string)
    requires c == Fence + "json" + ("\n" + ("\n" + Fence))
    ensures StripFences(c) == []
  {
    EmptyFencedOpened(c);
    FenceOnlyRemoved(c);
  }

  lemma EmptyFencedOpened(c: string)
    requires c == Fence + "json" + ("\n" + ("\n" + Fence))
    ensures Trim(c) == c && StripOpening(c) == Fence
  {
    FencedIsTrimmed(c, []);
    OpeningOfEmptyFenced(c);
  }

  /** A trimmed reply whose opening step leaves only a fence cleans to nothing. */
  lemma FenceOnlyRemoved(c: string)
    requires Trim(c) == c && StripOpening(c) == Fence
    ensures StripFences(c) == []
  {
    ClosingOfFence(Fence);
    assert Trim([]) == [];
    StripSteps(c, Fence, [], []);
  }

  lemma FencedIsTrimmed(c: string, b: string)
    requires c == "```json\n" + b + "\n```"
    ensures Trim(c) == c
  {
    assert c[0] == '`' && c[|c| - 1] == '`';
    TrimOfTrimmed(c);
  }

  /** The opening step removes the fence, the word `json` and the newline. */
  lemma OpeningOfFenced(b: string)
    requires IsTrimmed(b) && b != []
    ensures StripOpening("```json\n" + b + "\n```") == b + "\n```"
  {
    var t := b + "\n```";
    assert "```json\n" + b + "\n```" == Fence + "json" + ("\n" + t);
    OpeningWithWord("\n" + t);
    TrimStartOfSpace('\n', t);
    assert t[0] == b[0];
    TrimStartOfTrimmed(t);
  }

  /** With an empty body the opening step also removes the newline that ends the body. */
  lemma OpeningOfEmptyFenced(c: string)
    requires c == Fence + "json" + ("\n" + ("\n" + Fence))
    ensures StripOpening(c) == Fence
  {
    OpeningWithWord("\n" + ("\n" + Fence));
    TrimStartOfSpace('\n', "\n" + Fence);
    TrimStartOfSpace('\n', Fence);
    TrimStartOfTrimmed(Fence);
  }

  /** After ```` ```json ```` the opening step removes exactly the leading white space. */
  lemma OpeningWithWord(t: string)
    ensures StripOpening(Fence + "json" + t) == TrimStart(t)
  {
    var s := Fence + "json" + t;
    assert s[..3] == Fence;
    assert s[3..] == "json" + t;
    assert s[3..][..4] == "json";
    assert s[3..][4..] == t;
  }

  lemma TrimStartOfSpace(c: char, t: string)
    requires IsSpace(c)
    ensures TrimStart([c] + t) == TrimStart(t)
  {
    assert ([c] + t)[1..] == t;
  }

  // ---------------------------------------------------------------------------
  // The extraction call

  /** What one call leaves behind: the request sent, if any, and the settled promise. */
  datatype Outcome<J> = Outcome(sent: Option<Request>, result: Result<J, string>)

  /** `extractTransactionsFromText(statementText)`. `apiKey` is the environment
      variable, `post` the reply text the HTTP call yields for a request (`None` for a
      failed call or a reply without `choices[0].message.content`), and `parse` is
      `JSON.parse` (`None` for text that is not JSON). */
  function ExtractTransactions<J>(apiKey: Option<string>, statementText: string,
                                  post: Request -> Option<string>, parse: string -> Option<J>): (o: Outcome<J>)
    ensures !Truthy(apiKey) ==> o == Outcome(None, Failure(MissingKeyMessage))
    ensures Truthy(apiKey) ==> o.sent == Some(BuildRequest(apiKey.value, statementText))
    ensures Truthy(apiKey) ==>
      var reply := post(BuildRequest(apiKey.value, statementText));
      (o.result.Success? <==> reply.Some? && parse(StripFences(reply.value)).Some?)
      && (o.result.Success? ==> o.result.value == parse(StripFences(reply.value)).value)
    ensures Truthy(apiKey) && o.result.Failure? ==> o.result.error == ContentNotDefined
  {
    if !Truthy(apiKey) then Outcome(None, Failure(MissingKeyMessage))
    else
      var request := BuildRequest(apiKey.value, statementText);
      match post(request)
      case None => Outcome(Some(request), Failure(ContentNotDefined))
      case Some(content) =>
        match parse(StripFences(content))
        case None => Outcome(Some(request), Failure(ContentNotDefined))
        case Some(result) => Outcome(Some(request), Success(result))
  }

  /** With a key, a reply that cleaning leaves unchanged is parsed as it came. */
  lemma ResultOfCleanReply<J>(apiKey: string, statementText: string,
                              post: Request -> Option<string>, parse: string -> Option<J>, reply: string)
    requires apiKey != [] && post(BuildRequest(apiKey, statementText)) == Some(reply)
    requires StripFences(reply) == reply
    ensures ExtractTransactions(Some(apiKey), statementText, post, parse).result
      == (match parse(reply) case Some(v) => Success(v) case None => Failure(ContentNotDefined))
  {
  }

  /** A reply that is plain JSON text, as the prompt asks for, is parsed as it came,
      and the parsed value is returned without any check of its fields. */
  lemma PlainReplyParsed<J>(apiKey: string, statementText: string,
                            post: Request -> Option<string>, parse: string -> Option<J>, reply: string)
    requires apiKey != [] && post(BuildRequest(apiKey, statementText)) == Some(reply)
    requires IsTrimmed(reply) && !StartsWith(reply, Fence) && !EndsWith(reply, Fence)
    ensures ExtractTransactions(Some(apiKey), statementText, post, parse).result
      == (match parse(reply) case Some(v) => Success(v) case None => Failure(ContentNotDefined))
  {
    UnfencedUnchanged(reply);
    ResultOfCleanReply(apiKey, statementText, post, parse, reply);
  }
}
