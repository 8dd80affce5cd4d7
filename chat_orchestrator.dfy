/** lib/ai/chat-orchestrator.js: one turn of the assistant. The message is validated,
    the conversation found or created, the recent history replayed, and the model is
    asked at most three times; each time it asks for tools, the tools run and their
    results are stored and sent back. The model (`chatCompletion`), the parsing of tool
    arguments, the tool queries and `JSON.stringify` are parameters. */
module ChatOrchestrator {
  import opened Common
  import opened JsText
  import opened Prompts
  import opened Tools
  import opened AiConversations
  import opened AiMessages

  const MaxHistoryMessages: nat := 20
  const MaxInputChars: nat := 4000
  const MaxRounds: nat := 3

  const MessageRequired := "Message is required"
  const MessageTooLong := "Message too long (max 4000 chars)"
  const ConversationNotFound := "Conversation not found"
  const ToolCallsIssued := "[tool calls issued]"
  const Sorry := "Sorry, I could not generate a response."
  const NewConversation := "New Conversation"

  /** A tool call the model asks for; each field may be missing. */
  datatype ToolCall = ToolCall(id: Option<string>, name: Option<string>, arguments: Option<string>)

  /** A reply of the model: optional content and the tool calls (none when absent). */
  datatype Reply = Reply(content: Option<string>, toolCalls: seq<ToolCall>)

  /** A message as sent to the model. */
  datatype Wire =
    | Plain(role: string, content: string)
    | AssistantCalls(maybeContent: Option<string>, toolCalls: seq<ToolCall>)
    | ToolReply(name: Option<string>, toolCallId: Option<string>, content: string)

  /** What `JSON.parse` makes of a tool call's arguments: it throws, it gives `null`, or
      it gives a value whose properties are read as the tool arguments (a number, string,
      boolean or array has none of them and reads like `{}`). */
  datatype Parsed = Unparsable | ParsedNull | ParsedValue(args: ToolArgs)

  /** Everything outside the orchestrator that a turn consults. */
  datatype Env = Env(
    userId: int,
    complete: seq<Wire> -> Result<Reply, string>,
    parseArgs: string -> Parsed,
    queries: Queries,
    execute: (Option<string>, Option<ToolArgs>) -> Result<ToolResult, string>,
    stringify: ToolResult -> string)

  /** `execute` is `executeTool` of lib/ai/tools.js bound to the signed-in user and
      the tool queries of the environment. */
  ghost predicate ExecutesTools(env: Env) {
    forall name, args :: env.execute(name, args) == RunTool(name, args, env.userId, env.queries)
  }

  datatype ChatReply = ChatReply(conversationId: int, message: string)

  /** `trimHistory`: the last `MAX_HISTORY_MESSAGES` messages, in order. */
  function TrimHistory<T>(history: seq<T>): (r: seq<T>)
    ensures |r| == if |history| <= MaxHistoryMessages then |history| else MaxHistoryMessages
    ensures r == history[|history| - |r|..]
  {
    if |history| <= MaxHistoryMessages then history else history[|history| - MaxHistoryMessages..]
  }

  /** `toOpenAIMessages`: one output per stored message, in order. A tool message
      carries its tool name and a tool-call id, which is always missing because no
      column stores it; any other message carries only role and content. */
  function ToOpenAIMessages(history: seq<Message>): (r: seq<Wire>)
    ensures |r| == |history|
    ensures forall i :: 0 <= i < |r| ==> (r[i].ToolReply? <==> history[i].role == "tool")
    ensures forall i :: 0 <= i < |r| && r[i].ToolReply? ==>
      r[i].toolCallId.None? && r[i].name == OrNull(history[i].toolName) && r[i].content == history[i].content
    ensures forall i :: 0 <= i < |r| && !r[i].ToolReply? ==>
      r[i] == Plain(history[i].role, history[i].content)
  {
    seq(|history|, i requires 0 <= i < |history| =>
      if history[i].role == "tool" then ToolReply(OrNull(history[i].toolName), None, history[i].content)
      else Plain(history[i].role, history[i].content))
  }

  /** `safeParseArgs`: missing, empty or unparsable arguments become `{}`; otherwise the
      parsed value, which is `null` (`None`) when the arguments are the text `null`. */
  function SafeParseArgs(arguments: Option<string>, parse: string -> Parsed): (r: Option<ToolArgs>)
    ensures !Truthy(arguments) ==> r == Some(NoArgs)
    ensures Truthy(arguments) && parse(arguments.value).Unparsable? ==> r == Some(NoArgs)
    ensures r.None? <==> Truthy(arguments) && parse(arguments.value).ParsedNull?
    ensures Truthy(arguments) && parse(arguments.value).ParsedValue? ==> r == Some(parse(arguments.value).args)
  {
    if !Truthy(arguments) then Some(NoArgs)
    else match parse(arguments.value)
      case Unparsable => Some(NoArgs)
      case ParsedNull => None
      case ParsedValue(args) => Some(args)
  }

  /** The refusal of the two checks that run before anything is read or written. */
  function Refusal(message: Option<string>): (r: Option<string>)
    ensures message.None? || Trim(message.value) == [] ==> r == Some(MessageRequired)
    ensures message.Some? && Trim(message.value) != [] && |message.value| > MaxInputChars ==> r == Some(MessageTooLong)
    ensures r.None? <==> message.Some? && Trim(message.value) != [] && |message.value| <= MaxInputChars
  {
    if message.None? || Trim(message.value) == [] then Some(MessageRequired)
    else if |message.value| > MaxInputChars then Some(MessageTooLong)
    else None
  }

  /** `if (conversationId)`. */
  predicate IdGiven(conversationId: Option<int>) {
    conversationId.Some? && conversationId.value != 0
  }

  /** The title of a new conversation: `(message || '').slice(0, 60) || 'New Conversation'`. */
  function Title(message: string): (t: string)
    ensures message != [] ==> |t| == (if |message| <= 60 then |message| else 60) && t == message[..|t|]
    ensures message == [] ==> t == NewConversation
  {
    if message == [] then NewConversation else Prefix(message, 60)
  }

  function RouteOf(pageContext: Option<PageContext>): Option<string> {
    pageContext.GetOr(EmptyContext).route
  }

  /** The messages of the first request: system prompt, replayed history, new message. */
  function InitialWire(systemPrompt: string, history: seq<Wire>, userText: string): (w: seq<Wire>)
    ensures |w| == |history| + 2 && w[0] == Plain("system", systemPrompt) && w[|w| - 1] == Plain("user", userText)
    ensures w[1..|w| - 1] == history
  {
    [Plain("system", systemPrompt)] + history + [Plain("user", userText)]
  }

  /** A stored message without its id, conversation and time. */
  datatype Entry = Entry(role: string, content: string, toolName: Option<string>, toolPayload: Option<string>)

  function EntryOf(m: Message): Entry {
    Entry(m.role, m.content, m.toolName, m.toolPayload)
  }

  function Entries(ms: seq<Message>): (r: seq<Entry>)
    ensures |r| == |ms|
  {
    if ms == [] then [] else Entries(ms[..|ms| - 1]) + [EntryOf(ms[|ms| - 1])]
  }

  lemma EntriesSnoc(ms: seq<Message>, m: Message)
    ensures Entries(ms + [m]) == Entries(ms) + [EntryOf(m)]
  {
    assert (ms + [m])[..|ms|] == ms;
  }

  lemma {:induction false} EntriesAppend(xs: seq<Message>, ys: seq<Message>)
    ensures Entries(xs + ys) == Entries(xs) + Entries(ys)
    decreases |ys|
  {
    if ys == [] {
      assert xs + ys == xs;
    } else {
      var n := |ys| - 1;
      assert xs + ys == (xs + ys[..n]) + [ys[n]];
      EntriesAppend(xs, ys[..n]);
      EntriesSnoc(xs + ys[..n], ys[n]);
    }
  }

  function CallTool(call: ToolCall, env: Env): Result<ToolResult, string> {
    env.execute(call.name, SafeParseArgs(call.arguments, env.parseArgs))
  }

  /** `runTool` rejects a call whose function name is missing or not one of the tools. */
  predicate UnknownTool(name: Option<string>) {
    name.None? || name.value !in ToolNames
  }

  /** `runTool` throws for a call: its tool is unknown, or its arguments parse to `null`. */
  predicate RejectedCall(call: ToolCall, env: Env) {
    UnknownTool(call.name) || SafeParseArgs(call.arguments, env.parseArgs).None?
  }

  /** The message of the error `runTool` throws for a rejected call. */
  function RejectionOf(call: ToolCall): string {
    if UnknownTool(call.name) then "Unknown tool: " + NameText(call.name) else NullArgsRead
  }

  /** With the real `executeTool`, one call fails exactly when `runTool` rejects it. */
  lemma CallToolRejects(call: ToolCall, env: Env)
    requires ExecutesTools(env)
    ensures CallTool(call, env).Failure? <==> RejectedCall(call, env)
    ensures CallTool(call, env).Failure? ==> CallTool(call, env).error == RejectionOf(call)
  {
    assert CallTool(call, env) == RunTool(call.name, SafeParseArgs(call.arguments, env.parseArgs), env.userId, env.queries);
  }

  /** With the real `executeTool`, a round fails exactly when one of its calls names an
      unknown tool or has `null` arguments, and then with that call's error, which
      nothing in the loop catches. */
  lemma {:induction false} ToolRoundFailsOnRejectedCall(calls: seq<ToolCall>, env: Env)
    requires ExecutesTools(env)
    ensures var r := ToolRound(calls, env);
      (r.error.None? <==> forall i :: 0 <= i < |calls| ==> !RejectedCall(calls[i], env))
      && (r.error.Some? ==> exists i :: 0 <= i < |calls| && RejectedCall(calls[i], env)
                                        && r.error.value == RejectionOf(calls[i]))
    decreases |calls|
  {
    if calls != [] {
      var n := |calls| - 1;
      var front := calls[..n];
      ToolRoundFailsOnRejectedCall(front, env);
      assert forall i :: 0 <= i < n ==> front[i] == calls[i];
      if ToolRound(front, env).error.Some? {
        var i :| 0 <= i < n && RejectedCall(front[i], env)
                 && ToolRound(front, env).error.value == RejectionOf(front[i]);
        assert RejectedCall(calls[i], env);
      } else {
        CallToolRejects(calls[n], env);
      }
    }
  }

  /** What one round of tool calls sends back and stores, and the error that ends it. */
  datatype RoundOut = RoundOut(wire: seq<Wire>, entries: seq<Entry>, error: Option<string>)

  /** The `for` loop over the tool calls of one reply: each call's result is stored
      as a tool message and sent back; the first unknown tool ends the turn. */
  function ToolRound(calls: seq<ToolCall>, env: Env): RoundOut
    decreases |calls|
  {
    if calls == [] then RoundOut([], [], None)
    else
      var n := |calls| - 1;
      var p := ToolRound(calls[..n], env);
      if p.error.Some? then p
      else match CallTool(calls[n], env)
        case Failure(e) => RoundOut(p.wire, p.entries, Some(e))
        case Success(res) =>
          var content := env.stringify(res);
          RoundOut(p.wire + [ToolReply(calls[n].name, calls[n].id, content)],
                   p.entries + [Entry("tool", content, calls[n].name, Some(content))], None)
  }

  /** A round stores and sends one tool message per call, in call order, up to the
      first call whose tool is unknown; that call's error ends the round. */
  lemma {:induction false} ToolRoundShape(calls: seq<ToolCall>, env: Env)
    ensures var r := ToolRound(calls, env);
      |r.entries| == |r.wire| <= |calls|
      && (r.error.None? <==> |r.entries| == |calls|)
      && (r.error.Some? ==> CallTool(calls[|r.entries|], env).Failure? && r.error == Some(CallTool(calls[|r.entries|], env).error))
      && forall k :: 0 <= k < |r.entries| ==>
           CallTool(calls[k], env).Success?
           && r.entries[k] == Entry("tool", env.stringify(CallTool(calls[k], env).value), calls[k].name,
                                    Some(env.stringify(CallTool(calls[k], env).value)))
           && r.wire[k] == ToolReply(calls[k].name, calls[k].id, env.stringify(CallTool(calls[k], env).value))
    decreases |calls|
  {
    if calls != [] {
      var n := |calls| - 1;
      ToolRoundShape(calls[..n], env);
      var p := ToolRound(calls[..n], env);
      assert forall k :: 0 <= k < n ==> calls[..n][k] == calls[k];
    }
  }

  /** Once a prefix of the calls has failed, the later calls change nothing. */
  lemma {:induction false} ToolRoundStops(calls: seq<ToolCall>, j: nat, env: Env)
    requires j <= |calls| && ToolRound(calls[..j], env).error.Some?
    ensures ToolRound(calls, env) == ToolRound(calls[..j], env)
    decreases |calls| - j
  {
    if j < |calls| {
      assert calls[..j + 1][..j] == calls[..j];
      ToolRoundStops(calls, j + 1, env);
    } else {
      assert calls[..j] == calls;
    }
  }

  /** The requests made, the messages stored, the plain answer (if any) and the error
      that ended the turn (if any). */
  datatype ChatRun = ChatRun(requests: seq<seq<Wire>>, entries: seq<Entry>, answer: Option<Reply>, error: Option<string>)

  /** The `while (iterations < 3)` loop from `iterations` on, the model being sent
      `working`. A reply with tool calls stores an assistant message, runs the round
      and asks again; a reply without ends the loop as the answer. */
  function Rounds(working: seq<Wire>, iterations: nat, env: Env): ChatRun
    requires iterations <= MaxRounds
    decreases MaxRounds - iterations
  {
    if iterations == MaxRounds then ChatRun([], [], None, None)
    else match env.complete(working)
      case Failure(e) => ChatRun([working], [], None, Some(e))
      case Success(reply) =>
        if |reply.toolCalls| == 0 then ChatRun([working], [], Some(reply), None)
        else
          var issued := Entry("assistant", OrElse(reply.content, ToolCallsIssued), None, None);
          var round := ToolRound(reply.toolCalls, env);
          if round.error.Some? then ChatRun([working], [issued] + round.entries, None, round.error)
          else
            var rest := Rounds(working + [AssistantCalls(reply.content, reply.toolCalls)] + round.wire, iterations + 1, env);
            ChatRun([working] + rest.requests, [issued] + round.entries + rest.entries, rest.answer, rest.error)
  }

  /** The model is asked at least once and at most three times; the first request is
      `working` itself and every later one extends the one before it, so each request
      begins with the system prompt, the history and the new message. */
  lemma {:induction false} RoundsRequests(working: seq<Wire>, iterations: nat, env: Env)
    requires iterations < MaxRounds
    ensures var r := Rounds(working, iterations, env);
      1 <= |r.requests| <= MaxRounds - iterations && r.requests[0] == working
      && forall j :: 0 <= j < |r.requests| ==> working <= r.requests[j]
    decreases MaxRounds - iterations
  {
    var r := Rounds(working, iterations, env);
    var reply := env.complete(working);
    if reply.Success? && |reply.value.toolCalls| > 0 && ToolRound(reply.value.toolCalls, env).error.None? {
      var next := working + [AssistantCalls(reply.value.content, reply.value.toolCalls)] + ToolRound(reply.value.toolCalls, env).wire;
      if iterations + 1 < MaxRounds {
        RoundsRequests(next, iterations + 1, env);
        var rest := Rounds(next, iterations + 1, env);
        assert r.requests == [working] + rest.requests;
        forall j | 0 <= j < |r.requests| ensures working <= r.requests[j] {
          if j > 0 {
            assert r.requests[j] == rest.requests[j - 1];
            assert working <= next;
          }
        }
      }
    }
  }

  /** The answer, when there is one, is a reply without tool calls; a model that asks
      for tools every time leaves the turn without an answer. */
  lemma {:induction false} RoundsAnswer(working: seq<Wire>, iterations: nat, env: Env)
    requires iterations <= MaxRounds
    ensures var r := Rounds(working, iterations, env);
      (r.answer.Some? ==> r.error.None? && |r.answer.value.toolCalls| == 0)
      && ((forall w :: env.complete(w).Success? ==> |env.complete(w).value.toolCalls| > 0) ==> r.answer.None?)
    decreases MaxRounds - iterations
  {
    if iterations < MaxRounds {
      var reply := env.complete(working);
      if reply.Success? && |reply.value.toolCalls| > 0 && ToolRound(reply.value.toolCalls, env).error.None? {
        RoundsAnswer(working + [AssistantCalls(reply.value.content, reply.value.toolCalls)] + ToolRound(reply.value.toolCalls, env).wire, iterations + 1, env);
      }
    }
  }

  /** `assistantMessage?.content || 'Sorry, I could not generate a response.'`. */
  function FinalContent(answer: Option<Reply>): (r: string)
    ensures answer.Some? && Truthy(answer.value.content) ==> r == answer.value.content.value
    ensures answer.None? || !Truthy(answer.value.content) ==> r == Sorry
    ensures r != []
  {
    if answer.Some? && Truthy(answer.value.content) then answer.value.content.value else Sorry
  }

  /** What a turn that gets past validation and the conversation lookup stores in the
      messages table: the trimmed user message, the rounds, then the final reply unless
      an error ended the turn. */
  function StoredEntries(userText: string, run: ChatRun): seq<Entry> {
    [Entry("user", userText, None, None)] + run.entries
      + (if run.error.None? then [Entry("assistant", FinalContent(run.answer), None, None)] else [])
  }

  /** The conversation a turn uses: the given one, or the next id of the table. */
  function ConversationIdFor(conversationId: Option<int>, nextId: int): int {
    if IdGiven(conversationId) then conversationId.value else nextId
  }

  /** Messages of one conversation. */
  predicate InConversation(ms: seq<Message>, conversationId: int) {
    forall i :: 0 <= i < |ms| ==> ms[i].conversationId == conversationId
  }

  /** `rows` is `base` followed by messages of the conversation. */
  predicate Extends(base: seq<Message>, rows: seq<Message>, conversationId: int) {
    |base| <= |rows| && rows[..|base|] == base && InConversation(rows[|base|..], conversationId)
  }

  lemma ExtendsSnoc(base: seq<Message>, rows: seq<Message>, m: Message, conversationId: int)
    requires Extends(base, rows, conversationId) && m.conversationId == conversationId
    ensures Extends(base, rows + [m], conversationId)
    ensures Entries((rows + [m])[|base|..]) == Entries(rows[|base|..]) + [EntryOf(m)]
  {
    assert (rows + [m])[|base|..] == rows[|base|..] + [m];
    assert (rows + [m])[..|base|] == rows[..|base|];
    EntriesSnoc(rows[|base|..], m);
  }

  lemma ExtendsTrans(a: seq<Message>, b: seq<Message>, c: seq<Message>, conversationId: int)
    requires Extends(a, b, conversationId) && Extends(b, c, conversationId)
    ensures Extends(a, c, conversationId)
    ensures Entries(c[|a|..]) == Entries(b[|a|..]) + Entries(c[|b|..])
  {
    assert c[..|a|] == c[..|b|][..|a|];
    assert c[|a|..] == b[|a|..] + c[|b|..];
    EntriesAppend(b[|a|..], c[|b|..]);
  }

  /** One more call of a round whose earlier calls all succeeded. */
  lemma ToolRoundNext(calls: seq<ToolCall>, i: nat, env: Env)
    requires i < |calls| && ToolRound(calls[..i], env).error.None?
    ensures var p := ToolRound(calls[..i], env); var r := ToolRound(calls[..i + 1], env);
      (CallTool(calls[i], env).Failure? ==> r == RoundOut(p.wire, p.entries, Some(CallTool(calls[i], env).error)))
      && (CallTool(calls[i], env).Success? ==>
            var content := env.stringify(CallTool(calls[i], env).value);
            r == RoundOut(p.wire + [ToolReply(calls[i].name, calls[i].id, content)],
                          p.entries + [Entry("tool", content, calls[i].name, Some(content))], None))
  {
    assert calls[..i + 1][..i] == calls[..i];
  }

  /** One round of `Rounds` in which the model asked for tools. */
  lemma RoundsToolStep(working: seq<Wire>, k: nat, env: Env, reply: Reply)
    requires k < MaxRounds && env.complete(working) == Success(reply) && |reply.toolCalls| > 0
    ensures var round := ToolRound(reply.toolCalls, env); var r := Rounds(working, k, env);
      var issued := Entry("assistant", OrElse(reply.content, ToolCallsIssued), None, None);
      (round.error.Some? ==> r == ChatRun([working], [issued] + round.entries, None, round.error))
      && (round.error.None? ==>
            var rest := Rounds(working + [AssistantCalls(reply.content, reply.toolCalls)] + round.wire, k + 1, env);
            r == ChatRun([working] + rest.requests, [issued] + round.entries + rest.entries, rest.answer, rest.error))
  {
  }

  /** The messages `rest` stores after `stored`, with the same answer and error. */
  predicate ResumesWith(full: ChatRun, stored: seq<Entry>, rest: ChatRun) {
    full.entries == stored + rest.entries && full.answer == rest.answer && full.error == rest.error
  }

  lemma ResumesTrans(full: ChatRun, stored: seq<Entry>, run: ChatRun, more: seq<Entry>, rest: ChatRun)
    requires ResumesWith(full, stored, run) && ResumesWith(run, more, rest)
    ensures ResumesWith(full, stored + more, rest)
  {
    assert stored + (more + rest.entries) == (stored + more) + rest.entries;
  }

  /** The whole loop, run from `handleChat`. */
  method RunRounds(msgs: MessageTable, conversationId: int, env: Env, initial: seq<Wire>)
    returns (answer: Option<Reply>, error: Option<string>)
    requires msgs.Valid()
    modifies msgs
    ensures msgs.Valid()
    ensures var run := Rounds(initial, 0, env);
      answer == run.answer && error == run.error
      && Extends(old(msgs.rows), msgs.rows, conversationId)
      && Entries(msgs.rows[|old(msgs.rows)|..]) == run.entries
  {
    ghost var base := msgs.rows;
    ghost var full := Rounds(initial, 0, env);
    var working := initial;
    var iterations := 0;
    answer := None;
    error := None;
    assert msgs.rows[|base|..] == [];
    while iterations < MaxRounds
      invariant 0 <= iterations <= MaxRounds
      invariant msgs.Valid()
      invariant Extends(base, msgs.rows, conversationId)
      invariant ResumesWith(full, Entries(msgs.rows[|base|..]), Rounds(working, iterations, env))
      invariant answer.None? && error.None?
      decreases MaxRounds - iterations
    {
      var done;
      done, answer, error, working := RunRound(msgs, conversationId, env, working, iterations, base, full);
      if done {
        return;
      }
      iterations := iterations + 1;
    }
    FinishRounds(full, Entries(msgs.rows[|base|..]), working, iterations, env);
  }

  /** Past the last round nothing more happens. */
  lemma FinishRounds(full: ChatRun, stored: seq<Entry>, working: seq<Wire>, iterations: nat, env: Env)
    requires iterations == MaxRounds && ResumesWith(full, stored, Rounds(working, iterations, env))
    ensures full.entries == stored && full.answer.None? && full.error.None?
  {
    assert stored + [] == stored;
  }

  /** One pass of the `while` loop: ask the model, and either finish the turn
      (`done`) or store the round and go on with `next`. */
  method RunRound(msgs: MessageTable, conversationId: int, env: Env, working: seq<Wire>, iterations: nat,
                  ghost base: seq<Message>, ghost full: ChatRun)
    returns (done: bool, answer: Option<Reply>, error: Option<string>, next: seq<Wire>)
    requires msgs.Valid() && iterations < MaxRounds
    requires Extends(base, msgs.rows, conversationId)
    requires ResumesWith(full, Entries(msgs.rows[|base|..]), Rounds(working, iterations, env))
    modifies msgs
    ensures msgs.Valid()
    ensures Extends(base, msgs.rows, conversationId)
    ensures done ==> full.entries == Entries(msgs.rows[|base|..]) && full.answer == answer && full.error == error
    ensures !done ==> (answer.None? && error.None?
      && ResumesWith(full, Entries(msgs.rows[|base|..]), Rounds(next, iterations + 1, env)))
  {
    ghost var before := msgs.rows;
    ghost var earlier := Entries(before[|base|..]);
    next := working;
    answer, error := None, None;
    var outcome := env.complete(working);
    if outcome.Failure? {
      done, error := true, Some(outcome.error);
      assert earlier + [] == earlier;
      return;
    }
    var reply := outcome.value;
    if |reply.toolCalls| == 0 {
      done, answer := true, Some(reply);
      assert earlier + [] == earlier;
      return;
    }
    RoundsToolStep(working, iterations, env, reply);
    var failed;
    failed, next := RunToolRound(msgs, conversationId, env, working, reply);
    ExtendsTrans(base, before, msgs.rows, conversationId);
    ghost var stored := Entries(msgs.rows[|before|..]);
    done, error := failed.Some?, failed;
    if done {
      assert earlier + stored + [] == earlier + stored;
    } else {
      ResumesTrans(full, earlier, Rounds(working, iterations, env), stored, Rounds(next, iterations + 1, env));
    }
  }

  /** A reply with tool calls: the assistant message is stored, then the calls run. */
  method RunToolRound(msgs: MessageTable, conversationId: int, env: Env, working: seq<Wire>, reply: Reply)
    returns (failed: Option<string>, next: seq<Wire>)
    requires msgs.Valid()
    modifies msgs
    ensures msgs.Valid()
    ensures Extends(old(msgs.rows), msgs.rows, conversationId)
    ensures var round := ToolRound(reply.toolCalls, env);
      Entries(msgs.rows[|old(msgs.rows)|..])
        == [Entry("assistant", OrElse(reply.content, ToolCallsIssued), None, None)] + round.entries
      && failed == round.error
      && (failed.None? ==> next == working + [AssistantCalls(reply.content, reply.toolCalls)] + round.wire)
  {
    ghost var base := msgs.rows;
    assert msgs.rows[|base|..] == [];
    var issued := msgs.AddMessage(conversationId, "assistant", OrElse(reply.content, ToolCallsIssued), None, None);
    ExtendsSnoc(base, base, issued, conversationId);
    ghost var afterIssued := msgs.rows;
    failed, next := RunToolCalls(msgs, conversationId, env, reply.toolCalls, working + [AssistantCalls(reply.content, reply.toolCalls)]);
    ExtendsTrans(base, afterIssued, msgs.rows, conversationId);
  }

  /** The `for` loop over one reply's tool calls: each result is stored and sent back;
      a call that `runTool` rejects ends the turn with its error. */
  method RunToolCalls(msgs: MessageTable, conversationId: int, env: Env, calls: seq<ToolCall>, working: seq<Wire>)
    returns (failed: Option<string>, pushed: seq<Wire>)
    requires msgs.Valid()
    modifies msgs
    ensures msgs.Valid()
    ensures var round := ToolRound(calls, env);
      failed == round.error && (failed.None? ==> pushed == working + round.wire)
      && Extends(old(msgs.rows), msgs.rows, conversationId)
      && Entries(msgs.rows[|old(msgs.rows)|..]) == round.entries
  {
    ghost var base := msgs.rows;
    pushed := working;
    assert msgs.rows[|base|..] == [];
    for i := 0 to |calls|
      invariant msgs.Valid()
      invariant ToolRound(calls[..i], env).error.None?
      invariant pushed == working + ToolRound(calls[..i], env).wire
      invariant Extends(base, msgs.rows, conversationId)
      invariant Entries(msgs.rows[|base|..]) == ToolRound(calls[..i], env).entries
    {
      ToolRoundNext(calls, i, env);
      var args := SafeParseArgs(calls[i].arguments, env.parseArgs);
      var toolResult := env.execute(calls[i].name, args);
      if toolResult.Failure? {
        ToolRoundStops(calls, i + 1, env);
        return Some(toolResult.error), pushed;
      }
      var content := env.stringify(toolResult.value);
      ghost var before := msgs.rows;
      var stored := msgs.AddMessage(conversationId, "tool", content, calls[i].name, Some(content));
      ExtendsSnoc(base, before, stored, conversationId);
      pushed := pushed + [ToolReply(calls[i].name, calls[i].id, content)];
    }
    assert calls[..|calls|] == calls;
    failed := None;
  }
  /** The first request of a turn in conversation `conversationId`, the messages table
      being `rows` before the user message is stored. */
  function FirstRequest(rows: seq<Message>, conversationId: int, pageContext: Option<PageContext>, userText: string): seq<Wire> {
    var history := TrimHistory(GetRecentMessages(rows, conversationId, Some(MaxHistoryMessages)));
    InitialWire(SystemPrompt(pageContext), ToOpenAIMessages(history), userText)
  }

  /** The conversation a turn adds when no id is given. */
  function NewConversationRow(userId: int, id: int, message: string, pageContext: Option<PageContext>, now: int): Conversation {
    Conversation(id, userId, OrNull(Some(Title(message))), OrNull(RouteOf(pageContext)), now, now)
  }

  /** `handleChat({ userId, message, pageContext, conversationId })`. A rejected
      promise is a `Failure` carrying the error message. */
  method HandleChat(convs: ConversationTable, msgs: MessageTable, env: Env, message: Option<string>,
                    pageContext: Option<PageContext>, conversationId: Option<int>)
    returns (result: Result<ChatReply, string>)
    requires convs.Valid() && msgs.Valid()
    modifies convs, msgs
    ensures convs.Valid() && msgs.Valid()
    ensures Refusal(message).Some? ==>
      result == Failure(Refusal(message).value) && unchanged(convs) && unchanged(msgs)
    ensures Refusal(message).None? && IdGiven(conversationId)
            && GetConversation(old(convs.rows), env.userId, conversationId.value).None? ==>
      result == Failure(ConversationNotFound) && unchanged(convs) && unchanged(msgs)
    ensures Refusal(message).None? && !IdGiven(conversationId) ==>
      var created := NewConversationRow(env.userId, old(convs.nextId), message.value, pageContext, old(convs.clock));
      var text := Trim(message.value);
      var run := Rounds(FirstRequest(old(msgs.rows), created.id, pageContext, text), 0, env);
      Extends(old(msgs.rows), msgs.rows, created.id)
      && Entries(msgs.rows[|old(msgs.rows)|..]) == StoredEntries(text, run)
      && (run.error.Some? ==> result == Failure(run.error.value) && convs.rows == old(convs.rows) + [created])
      && (run.error.None? ==>
            result == Success(ChatReply(created.id, FinalContent(run.answer)))
            && convs.rows == Touched(old(convs.rows) + [created], created.id, old(convs.clock) + 1))
    ensures Refusal(message).None? && IdGiven(conversationId)
            && GetConversation(old(convs.rows), env.userId, conversationId.value).Some? ==>
      var cid := conversationId.value;
      var text := Trim(message.value);
      var run := Rounds(FirstRequest(old(msgs.rows), cid, pageContext, text), 0, env);
      Extends(old(msgs.rows), msgs.rows, cid)
      && Entries(msgs.rows[|old(msgs.rows)|..]) == StoredEntries(text, run)
      && (run.error.Some? ==> result == Failure(run.error.value) && convs.rows == old(convs.rows))
      && (run.error.None? ==>
            result == Success(ChatReply(cid, FinalContent(run.answer)))
            && convs.rows == Touched(old(convs.rows), cid, old(convs.clock)))
  {
    var refusal := Refusal(message);
    if refusal.Some? {
      return Failure(refusal.value);
    }
    var cid: int;
    if IdGiven(conversationId) {
      var existing := GetConversation(convs.rows, env.userId, conversationId.value);
      if existing.None? {
        return Failure(ConversationNotFound);
      }
      cid := existing.value.id;
    } else {
      var created := convs.CreateConversation(env.userId, Some(Title(message.value)), RouteOf(pageContext));
      cid := created.id;
    }
    result := RunTurn(convs, msgs, env, cid, Trim(message.value), pageContext);
  }

  /** The turn once the conversation is known: the history is read, the user message
      stored, the model asked, and on success the reply stored and the conversation
      touched. */
  method RunTurn(convs: ConversationTable, msgs: MessageTable, env: Env, cid: int, text: string,
                 pageContext: Option<PageContext>)
    returns (result: Result<ChatReply, string>)
    requires convs.Valid() && msgs.Valid()
    modifies convs, msgs
    ensures convs.Valid() && msgs.Valid()
    ensures var run := Rounds(FirstRequest(old(msgs.rows), cid, pageContext, text), 0, env);
      Extends(old(msgs.rows), msgs.rows, cid)
      && Entries(msgs.rows[|old(msgs.rows)|..]) == StoredEntries(text, run)
      && (run.error.Some? ==> result == Failure(run.error.value) && convs.rows == old(convs.rows))
      && (run.error.None? ==>
            result == Success(ChatReply(cid, FinalContent(run.answer)))
            && convs.rows == Touched(old(convs.rows), cid, old(convs.clock)))
  {
    ghost var before := msgs.rows;
    var working := StartTurn(msgs, cid, text, pageContext);
    ghost var afterUser := msgs.rows;
    ghost var run := Rounds(working, 0, env);
    var answer, error := RunRounds(msgs, cid, env, working);
    ExtendsTrans(before, afterUser, msgs.rows, cid);
    ghost var stored := [Entry("user", text, None, None)] + run.entries;
    assert Entries(msgs.rows[|before|..]) == stored;
    if error.Some? {
      assert StoredEntries(text, run) == stored + [];
      return Failure(error.value);
    }
    var finalContent := FinalContent(answer);
    ghost var afterRounds := msgs.rows;
    var reply := msgs.AddMessage(cid, "assistant", finalContent, None, None);
    ExtendsSnoc(before, afterRounds, reply, cid);
    assert StoredEntries(text, run) == stored + [EntryOf(reply)];
    convs.TouchConversation(cid);
    result := Success(ChatReply(cid, finalContent));
  }

  /** The history is read before the user message is stored, then the first request
      is put together. */
  method StartTurn(msgs: MessageTable, cid: int, text: string, pageContext: Option<PageContext>)
    returns (working: seq<Wire>)
    requires msgs.Valid()
    modifies msgs
    ensures msgs.Valid()
    ensures working == FirstRequest(old(msgs.rows), cid, pageContext, text)
    ensures Extends(old(msgs.rows), msgs.rows, cid)
    ensures Entries(msgs.rows[|old(msgs.rows)|..]) == [Entry("user", text, None, None)]
  {
    var history := TrimHistory(GetRecentMessages(msgs.rows, cid, Some(MaxHistoryMessages)));
    ghost var before := msgs.rows;
    assert before[|before|..] == [];
    var user := msgs.AddMessage(cid, "user", text, None, None);
    ExtendsSnoc(before, before, user, cid);
    var prompt := BuildSystemPrompt(pageContext);
    working := InitialWire(prompt, ToOpenAIMessages(history), text);
  }
}
