# Personal finance app: statement ingestion and chat assistant, modelled in Dafny

This project models the core of a Node.js personal-finance application in Dafny.

- **Statement ingestion.** A signed-in user uploads a PDF bank statement. The
  app recognises the bank from the statement text (`detectBank`) and asks a
  hosted language model to extract the transactions (`extractTransactionsFromText`).
  A four-step wizard (upload, confirm bank, extract or skip, confirm) keeps its
  progress in the session. The final step stores the transactions with
  duplicate detection (`insertTransactions`).
- **Ops pages.** The category and bank-account pages check their form input
  and redirect with a status banner.
- **Chat assistant.** `handleChat` validates a message, finds or creates a
  conversation, and replays recent history to the model. It runs at most three
  model rounds, in which the model may call five read-only tools. It stores
  every message in a fixed order. The assistant's system prompt, its model
  choice and its settings table are modelled too.
- **Smaller pieces.** The Sankey-diagram builder of the analytics page, the
  filtered and paginated transaction listing, and the login, register and
  logout handlers.

Layout:

- Each source file becomes one module.
- routes/ops.js is split into `OpsUpload` (the wizard) and `OpsAdmin` (the
  category and bank pages).
- `Common`, `JsText`, `RegexLite`, `Sessions` and `Tables` hold what several
  modules share:
  - `Option` and `Result`;
  - JavaScript's `trim`, truthiness and ASCII case folding;
  - the small regular-expression subset the bank patterns use;
  - the express session;
  - the PostgreSQL tables as sequences of rows.

How state and the outside world are modelled:

- Tables and sessions the source updates are classes with `modifies` clauses.
- The source's loops (`for`, `while` and `forEach`) are `for` loops with
  invariants, except the chat orchestrator's round loop, which stays a `while`
  loop as in the source. Each is proved against a specification function.
  Searches through `find`, `some` and `Map.get` are recursive functions.
- Everything outside the program is a parameter:
  - the HTTP calls;
  - `JSON.parse` and `JSON.stringify`;
  - the PDF text;
  - bcrypt;
  - the SQL aggregates;
  - `parseInt` and `parseFloat`;
  - the clock.

## Model

| member | source | states |
|---|---|---|
| GlobalSettings.SettingsStore.SetSetting | db/global-settings.js:8-16 | upsert: the key is inserted or overwritten, every other key keeps its value, and the given value is returned |
| GlobalSettings.GetSetting | db/global-settings.js:3-6 | a value comes back iff the key is stored with a truthy value, and then it is that value; otherwise null |
| GlobalSettings.SetThenGet | db/global-settings.js:3-16 | after a set with a truthy value, a get of that key gives the value, and gets of other keys are unaffected |
| ModelConfig.FallbackModel | lib/ai/model-config.js:4 | the environment override when it is set, the built-in 'openai/gpt-oss-20b' otherwise |
| ModelConfig.GetModel | lib/ai/model-config.js:7-18 | the override wins without reading the setting; otherwise a truthy stored setting; otherwise (null, empty or a failing lookup) the fallback; never empty |
| ModelConfig.SetModel | lib/ai/model-config.js:20-22 | writes under 'openrouter_model' and nothing else |
| ModelConfig.SetThenGetModel | lib/ai/model-config.js:7-22 | without the override, the model last set is the one in use when truthy, and the default otherwise |
| Prompts.MetricLines | lib/ai/prompts.js:8-10 | one '- key: value' line per summary entry, in entry order |
| Prompts.PageContextLine | lib/ai/prompts.js:19 | 'Page context: none provided.' for no lines, else the header followed by the lines joined with newlines |
| Prompts.BuildContextLines | lib/ai/prompts.js:3-11 | the pushes of the three ifs and the summary loop yield exactly the specified context lines |
| Prompts.PushMetricLines | lib/ai/prompts.js:8-10 | the loop appends one metric line per entry after what was there |
| Prompts.BuildSystemPrompt | lib/ai/prompts.js:1-21 | the five instruction lines joined by newlines, then the page-context line; a missing context acts as {} |
| Prompts.PromptLayout | lib/ai/prompts.js:13-20 | every prompt begins with the same five instruction lines in the same order |
| Prompts.RouteAndCountryLines | lib/ai/prompts.js:4-5 | a 'Current route:' line is present iff the route is non-empty, and an 'Active country:' line iff the country is |
| Prompts.MetricsSection | lib/ai/prompts.js:6-11 | 'Visible metrics:' is present only for a non-empty summary, and is then followed by its entry lines in order |
| AiMessages.MessageTable.AddMessage | db/ai-messages.js:3-11 | appends exactly one row (tool name and payload default to null) with the next id and the current time, and returns it |
| AiMessages.GetMessages | db/ai-messages.js:13-22 | exactly that conversation's rows, oldest first |
| AiMessages.GetRecentMessages | db/ai-messages.js:24-35 | the last min(limit, count) messages of the conversation (limit 20 by default), oldest first, as a suffix of GetMessages |
| AiConversations.ConversationTable.CreateConversation | db/ai-conversations.js:3-11 | appends one row with a falsy title or route stored as null, which the owner can then look up |
| AiConversations.ConversationTable.TouchConversation | db/ai-conversations.js:35-40 | only `updatedAt` of the rows with that id changes |
| AiConversations.ConversationTable.RenameConversation | db/ai-conversations.js:42-51 | an owned row gets the new title and time and is returned; for a row the user does not own, nothing changes and null is returned |
| AiConversations.GetConversation | db/ai-conversations.js:13-21 | a row comes back only when both id and user match, and null iff no row matches both |
| AiConversations.GetConversationFindsUnique | db/ai-conversations.js:13-21 | with distinct ids, a lookup by a row's own id and owner finds that row |
| AiConversations.Touched | db/ai-conversations.js:35-40 | the same rows, with `updatedAt` replaced on the rows with that id only |
| AiConversations.Renamed | db/ai-conversations.js:42-51 | the same rows, with title and time replaced on the rows with that id and owner only |
| AiConversations.RenameNothing | db/ai-conversations.js:42-51 | renaming a conversation the user does not own leaves the table as it was |
| AiConversations.OwnedBy | db/ai-conversations.js:27 | exactly the user's rows |
| AiConversations.InsertByUpdated | db/ai-conversations.js:28 | inserting one row into a newest-first list keeps it newest first and adds exactly that row |
| AiConversations.SortNewestFirst | db/ai-conversations.js:28 | a newest-first permutation of the rows |
| AiConversations.Take | db/ai-conversations.js:29 | a prefix of length min(n, length) |
| AiConversations.ListConversations | db/ai-conversations.js:23-33 | at most `limit` rows (20 by default), all the user's, newest first; all of the user's rows when they fit |
| BankDetector.InferCountry | lib/bank-detector.js:36-43 | one listed country is returned as is; otherwise UK signals are checked before India signals, and with neither the first listed country is returned |
| BankDetector.FirstPattern | lib/bank-detector.js:21-23 | true iff some pattern of the list matches |
| BankDetector.DetectIn | lib/bank-detector.js:20-34 | null iff no institution's pattern matches; on a match, the first matching institution's key, its country and confidence 0.95 |
| BankDetector.DetectBankMatch | lib/bank-detector.js:1-34 | over the real table, a result exists iff some institution wins, and the winner is the first in table order |
| BankDetector.FirstWinner | lib/bank-detector.js:20-23 | when any institution matches, the first matching one is at or before it, so later institutions are never consulted |
| BankDetector.DetectedCountryListed | lib/bank-detector.js:2-24 | the reported country is always one of the matched institution's countries |
| BankDetector.SingleCountryIgnoresText | lib/bank-detector.js:24 | Revolut, AMEX and ICICI report their one country whatever the text says |
| BankDetectorExamples.HsbcUk | tests/lib/bank-detector.test.js:9-16 | the HSBC statement text is detected as HSBC in the UK with confidence 0.95 |
| BankDetectorExamples.IciciIndia | tests/lib/bank-detector.test.js:18-25 | the ICICI statement text is detected as ICICI in India |
| BankDetectorExamples.RevolutUk | tests/lib/bank-detector.test.js:27-32 | 'Revolut Statement' is detected as Revolut |
| BankDetectorExamples.UnknownIsNull | tests/lib/bank-detector.test.js:34-39 | 'Unknown Bank Statement' gives null, not an error |
| BankDetectorExamples.NoneWithoutHRXI | lib/bank-detector.js:1-34 | a text with none of the letters h, r, x and i matches no institution |
| RegexLite.MatchGivesTest | lib/bank-detector.js:22 | a match of one alternative at one position makes `test` succeed |
| RegexLite.NoTestWhenExcluded | lib/bank-detector.js:22 | a pattern each of whose alternatives needs a character the text lacks never matches |
| LlmExtractor.PromptText | lib/llm-extractor.js:12-31 | the statement text sits unchanged between the fixed instructions and the fixed format description |
| LlmExtractor.BuildRequest | lib/llm-extractor.js:34-48 | one user message with the prompt, model 'mistralai/mistral-7b-instruct', temperature 0.3 and the key as a bearer token |
| LlmExtractor.StripOpening | lib/llm-extractor.js:56 | text without a leading fence is unchanged; otherwise what is removed is the fence, the word `json` when it follows the fence, and then all white space, so the rest starts with no white space |
| LlmExtractor.FirstClosing | lib/llm-extractor.js:58 | the leftmost position where the closing-fence pattern matches, or none |
| LlmExtractor.StripClosing | lib/llm-extractor.js:58 | a prefix of its input |
| LlmExtractor.StripFences | lib/llm-extractor.js:53-60 | the cleaned text is trimmed |
| LlmExtractor.StripClosingOfEnded | lib/llm-extractor.js:58 | on text ending in a non-space, a final newline and fence is removed, else a final fence, else nothing |
| LlmExtractor.UnfencedUnchanged | lib/llm-extractor.js:53-60 | trimmed text that neither starts nor ends with a fence reaches `JSON.parse` unchanged |
| LlmExtractor.FencedBodyRecovered | lib/llm-extractor.js:53-60 | a trimmed body b wrapped as "```json\n" + b + "\n```" cleans to exactly b |
| LlmExtractor.BareFencedBodyRecovered | lib/llm-extractor.js:53-60 | a trimmed body b wrapped in a bare fence, "```\n" + b + "\n```", also cleans to exactly b |
| LlmExtractor.ExtractTransactions | lib/llm-extractor.js:5-72 | no key fails with 'OPENROUTER_API_KEY not configured' before any request; with a key exactly one request is sent; success iff a reply came and parsed, and then the parsed value as is; every other failure is the reference error of the catch block |
| LlmExtractor.PlainReplyParsed | lib/llm-extractor.js:53-67 | a plain JSON reply is parsed as it came, and the parsed value is returned unchecked |
| JsText.Trim | lib/llm-extractor.js:53 | the result is trimmed and is the input with leading and trailing white space removed |
| JsText.TrimOfTrimmed | lib/llm-extractor.js:60 | trimming trimmed text changes nothing |
| JsText.TrimOpt | routes/ops.js:338 | `x?.trim()`: a missing value stays missing, and a present one becomes a trimmed string no longer than it |
| JsText.OrNull | routes/ops.js:339 | `x \|\| null`: a falsy string becomes null and a truthy one is kept |
| TransactionsDb.CategoryOrNull | db/transactions.js:56 | a missing or zero category id becomes null, and any other is kept |
| TransactionsDb.NewRow | db/transactions.js:47-57 | the inserted row: currency defaults to 'GBP', the category to null, and description and merchant are stored as given |
| TransactionsDb.TransactionTable.InsertTransactions | db/transactions.js:3-67 | null or empty input returns [] and leaves the table unchanged; otherwise the table and the results are exactly those of the dedup-then-insert loop over the candidates |
| TransactionsDb.ProcessAppends | db/transactions.js:26-66 | the loop only appends: old rows stay, at most one row is added per candidate, and the results are exactly the added rows, in order |
| TransactionsDb.PickedRows | db/transactions.js:29-59 | the indices the loop picks name the added rows one for one: the k-th added row is the k-th picked candidate's row with id next id + k, indices strictly increasing and none of them a throwing one |
| TransactionsDb.PickedIffInserted | db/transactions.js:30-62 | an index is picked iff its candidate did not throw and the table as the loop had left it held no duplicate of it |
| TransactionsDb.AddedRowsFromCandidates | db/transactions.js:29-59 | every added row is the row of a candidate that did not throw, taken in input order; a candidate is picked iff it did not throw and had no duplicate when its turn came |
| TransactionsDb.ProcessedAreDuplicates | db/transactions.js:29-59 | after the loop, every candidate that did not throw and has a description or merchant has a duplicate in the table |
| TransactionsDb.SecondCopySkipped | db/transactions.js:29-59 | the second of two equal candidates in one batch (with a description or merchant) inserts nothing, because the check sees the first |
| TransactionsDb.AllDuplicatesInsertNothing | db/transactions.js:29-44 | when every candidate already has a duplicate, the loop changes nothing |
| TransactionsDb.ReimportInsertsNothing | db/transactions.js:36-54 | re-importing a batch whose candidates all have a description or merchant inserts nothing the second time |
| TransactionsDb.NullTextNotDuplicate | db/transactions.js:36-54 | a candidate with neither description nor merchant never matches a row, because a NULL column never equals '' |
| TransactionsDb.NullTextImportedTwice | db/transactions.js:36-54 | such a candidate imported twice is stored twice |
| TransactionsDb.SkipIgnoresUser | db/transactions.js:8-14 | whether a candidate is skipped does not depend on the user id |
| TransactionsDb.GetCategoryByName | db/transactions.js:69-75 | null iff no category's lower-cased name equals the lower-cased name; otherwise the id of the first that does |
| TransactionsDb.CategoryLookupIgnoresCase | db/transactions.js:71 | names equal up to ASCII case find the same category |
| Auth.UserByEmail | db/users.js:17-24 | the first user whose e-mail equals the given one exactly, or none iff there is no such user |
| Auth.LoginForm | routes/auth.js:7-12 | a signed-in visitor is redirected to /dashboard iff signed in; otherwise the empty login page |
| Auth.RegisterForm | routes/auth.js:47-52 | the same for the register page |
| Auth.DecideLogin | routes/auth.js:15-44 | missing fields give 'Email and password are required'; a failing lookup the generic error; a user is signed in iff the e-mail exists and the password verifies |
| Auth.FailedLoginRevealsNothing | routes/auth.js:25-33 | an unknown e-mail and a wrong password render the same page |
| Auth.Login | routes/auth.js:15-44 | the session gets the user's id and e-mail exactly when DecideLogin signs in, and is otherwise untouched |
| Auth.RegisterRefusal | routes/auth.js:58-87 | checks in order, each with its own message: all fields present, passwords match, length at least 6, then a failing lookup gives the generic error and a used e-mail gives 'Email already in use'; no refusal iff all pass |
| Auth.Register | routes/auth.js:55-88 | a refusal renders its message and changes neither table nor session; otherwise one user is added and the session set to them |
| Auth.Logout | routes/auth.js:91-99 | the session is destroyed and the browser sent to /login; a failing destroy shows the error and keeps the session |
| Tools.ToolSchemas | lib/ai/tools.js:4-85 | exactly five tools with distinct names, each requiring `countryCode` in {UK, IN} and forbidding other properties |
| Tools.SanitizeCountry | lib/ai/tools.js:87-89 | 'IN' only for 'IN', and 'UK' for everything else including a missing value |
| Tools.ClampOr | lib/ai/tools.js:95 | a missing or zero value gives the default; otherwise the value clamped into [low, high] |
| Tools.Days | lib/ai/tools.js:95 | `days` always lies in [7, 90] |
| Tools.Limit | lib/ai/tools.js:127 | `limit` always lies in [1, 25] |
| Tools.RunTool | lib/ai/tools.js:91-165 | fails with 'Unknown tool: <name>' iff the name is not a tool; for a tool with null arguments, fails with the TypeError of reading `countryCode`; otherwise each tool name runs its own query with the user id, the sanitised country and the clamped days or limit (missing dates as null), and returns that query's answer |
| Tools.RunToolScopedToUser | lib/ai/tools.js:91-160 | the result depends on the queries only through their answers for the caller's user id |
| ChatOrchestrator.TrimHistory | lib/ai/chat-orchestrator.js:10-13 | the last min(20, length) messages, in order |
| ChatOrchestrator.ToOpenAIMessages | lib/ai/chat-orchestrator.js:15-27 | one message per stored message, in order; tool messages carry name, call id and content, and the others only role and content |
| ChatOrchestrator.SafeParseArgs | lib/ai/chat-orchestrator.js:127-134 | missing, empty or unparsable arguments become {}; text that parses to null gives null; otherwise the parsed value |
| ChatOrchestrator.Refusal | lib/ai/chat-orchestrator.js:57-62 | a missing or all-blank message is refused as required, then one longer than 4000 characters (untrimmed) as too long; no refusal iff neither |
| ChatOrchestrator.Title | lib/ai/chat-orchestrator.js:35 | the first 60 characters of the message, or 'New Conversation' for an empty one |
| ChatOrchestrator.InitialWire | lib/ai/chat-orchestrator.js:72-76 | the system prompt first, then the history unchanged, then the new message, once and last |
| ChatOrchestrator.ToolRoundFailsOnRejectedCall | lib/ai/chat-orchestrator.js:98-101 | with the real `runTool`, a round fails iff some call names an unknown tool or has arguments that parse to null, and then with that call's error, which the loop does not catch |
| ChatOrchestrator.ToolRoundShape | lib/ai/chat-orchestrator.js:98-109 | one stored and one sent tool message per call, in call order, up to the first failing call, whose error ends the round |
| ChatOrchestrator.ToolRoundStops | lib/ai/chat-orchestrator.js:98-101 | once a call has failed, the later calls change nothing |
| ChatOrchestrator.RoundsRequests | lib/ai/chat-orchestrator.js:78-115 | the model is asked at least once and at most three times, and each request extends the first |
| ChatOrchestrator.RoundsAnswer | lib/ai/chat-orchestrator.js:82-115 | an answer is always a reply without tool calls; a model that always asks for tools leaves the turn without an answer |
| ChatOrchestrator.FinalContent | lib/ai/chat-orchestrator.js:117 | the answer's content when truthy, else 'Sorry, I could not generate a response.'; never empty |
| ChatOrchestrator.RunRounds | lib/ai/chat-orchestrator.js:78-115 | the loop stores exactly the messages of the specified rounds in the conversation, and yields their answer and error |
| ChatOrchestrator.RunRound | lib/ai/chat-orchestrator.js:82-115 | one pass of the loop either ends the turn with the specified outcome or leaves the rest of the rounds to do |
| ChatOrchestrator.RunToolRound | lib/ai/chat-orchestrator.js:87-110 | stores the assistant message (content or '[tool calls issued]') and then the round's tool messages |
| ChatOrchestrator.RunToolCalls | lib/ai/chat-orchestrator.js:98-109 | the loop over the calls stores and sends exactly what the specified round does |
| ChatOrchestrator.HandleChat | lib/ai/chat-orchestrator.js:56-125 | a refused message or a conversation the user does not own fails and changes nothing; otherwise the user message, the rounds' messages and the final reply are stored in that order, and the conversation is created (when no id was given) and touched |
| ChatOrchestrator.RunTurn | lib/ai/chat-orchestrator.js:66-124 | once the conversation is known: the stored messages are those of the specified run; on success the final reply is returned and the conversation touched |
| ChatOrchestrator.StartTurn | lib/ai/chat-orchestrator.js:66-76 | history is read before the user message is stored, so the first request holds the new message exactly once, last |
| Dashboard.Overview | routes/dashboard.js:6-19 | the dashboard view for the requested country, 'UK' by default |
| Dashboard.Abs | routes/dashboard.js:65 | `Math.abs`: NaN stays NaN, and otherwise the non-negative value with the same magnitude |
| Dashboard.IntText | routes/dashboard.js:85 | the decimal text of an integer, or 'NaN' |
| Dashboard.FiltersInOrder | routes/dashboard.js:44-73 | filters are appended in the order category, fromDate, toDate, minAmount, maxAmount; exactly the truthy ones (category not 'all'), each with its value, amounts as absolute values |
| Dashboard.AmongKinds | routes/dashboard.js:44-73 | the kept filters are sorted, exactly the active kinds, each bound to its value |
| Dashboard.ActiveAmongSound | routes/dashboard.js:44-73 | every kept filter is an active kind bound to its value |
| Dashboard.ActiveAmongSorted | routes/dashboard.js:44-73 | the kept filters follow the order of the kinds |
| Dashboard.ActiveAmongComplete | routes/dashboard.js:44-73 | every active kind is kept |
| Dashboard.ClauseShape | routes/dashboard.js:46 | a clause reads its condition followed by the placeholder `$k` |
| Dashboard.PlaceholdersMatchParams | routes/dashboard.js:41-73 | parameter 1 is the user id, and the clause of the j-th filter names placeholder j + 2, bound to that filter's value |
| Dashboard.ClauseList | routes/dashboard.js:44-73 | the j-th clause carries placeholder first + j |
| Dashboard.BuildListQuery | routes/dashboard.js:28-73 | the query is the base plus the active filters' numbered clauses; the parameters are the user id followed by their values; the next index is one more than their count |
| Dashboard.ApplyFilter | routes/dashboard.js:45-49 | one filter step keeps the query, parameters and index in step |
| Dashboard.BuiltStep | routes/dashboard.js:45-49 | appending one filter's clause and value keeps the placeholder numbering |
| Dashboard.ActiveFiltersAmong | routes/dashboard.js:44-73 | the handler's five steps keep exactly the active kinds, in order |
| Dashboard.Offset | routes/dashboard.js:26 | `(page - 1) * 50`; NaN for an unparsable page |
| Dashboard.PagesAdjacent | routes/dashboard.js:24-26 | page 1 starts at row 0, each page starts 50 rows after the one before it, and every page start is a multiple of 50 |
| Dashboard.OrderClauseText | routes/dashboard.js:85 | newest first, at most 50 rows, from the offset |
| Dashboard.TotalPages | routes/dashboard.js:82 | the fewest pages of 50 rows that hold every row (0 for none) |
| Dashboard.CountReplaceFindsNothing | routes/dashboard.js:75-79 | whatever the filters, the `replace` target of the count query never occurs in the listing query, so the count query as written is the listing query unchanged |
| Dashboard.ListTransactions | routes/dashboard.js:22-111 | as written, every request renders 'Could not load transactions' |
| Dashboard.ListTransactionsWithPool | routes/dashboard.js:76-106 | with a connection pool: the page of rows the filters and page number select, a page count covering every matching row, and the filters echoed back |
| Analytics.Position | routes/analytics.js:120-131 | `Map.get` over keys kept in insertion order: the index of the key, or none iff the key is absent |
| Analytics.FindMonth | routes/analytics.js:139 | the index of the month's entry, or none iff the month has none |
| Analytics.FindCategory | routes/analytics.js:157 | the index of the category's entry, or none iff it has none |
| Analytics.Group | routes/analytics.js:136-170 | one entry per month and per category within it, exactly for the (month, category) pairs of the rows; income and expense totals equal the rows' totals |
| Analytics.GroupRows | routes/analytics.js:137-170 | the `forEach` over the rows builds that grouping |
| Analytics.FindNode | routes/analytics.js:121 | the index of the node with that name, or none iff there is none |
| Analytics.AddNode | routes/analytics.js:120-133 | an existing name returns its node unchanged; a new name appends a node with id = its index; names stay unique |
| Analytics.CategoryStep | routes/analytics.js:184-201 | adds one link from the month node to the node named after the category |
| Analytics.CategoriesGraph | routes/analytics.js:184-202 | one month-to-category link per category of the month, in order, each joining existing nodes |
| Analytics.AddCategories | routes/analytics.js:184-202 | the loop over one month's categories builds that graph |
| Analytics.MonthStep | routes/analytics.js:175-203 | one month's node and its links |
| Analytics.MonthsGraph | routes/analytics.js:175-203 | every link joins existing nodes and runs from its month's node to its category's node |
| Analytics.BuildMonths | routes/analytics.js:175-203 | the loop over the months builds that graph |
| Analytics.SumMonths | routes/analytics.js:206-212 | the loop's totals are the months' income and expense totals |
| Analytics.SumAll | routes/analytics.js:206-212 | the summary's totals equal the rows' income and expense totals |
| Analytics.WithSummaryNodes | routes/analytics.js:214-215 | the two summary nodes are added after the existing nodes, named 'Total Income' and 'Total Expenses' |
| Analytics.SummaryLinks | routes/analytics.js:218-239 | exactly one link per category node, in node order, carrying its value to 'Total Income' iff some row of that category is income, else to 'Total Expenses' |
| Analytics.LinkCategories | routes/analytics.js:218-239 | the loop over the nodes builds exactly those links |
| Analytics.Shown | routes/analytics.js:243-249 | an output node keeps name, type, colour and icon, and shows its value only when it is greater than 0 |
| Analytics.ShownAll | routes/analytics.js:243-249 | one output node per node, in order |
| Analytics.Diagram | routes/analytics.js:205-263 | the summary is the given totals, node names are unique, and every link joins two nodes |
| Analytics.SankeyOf | routes/analytics.js:110-264 | no rows give an empty diagram with no summary; otherwise the summary adds up the rows with netFlow = income - expenses, names are unique, and every link's ends are valid indices |
| Analytics.SankeyMonthLinks | routes/analytics.js:175-203 | exactly one month-to-category link per distinct (month, category) pair of the rows |
| Analytics.TransformToSankey | routes/analytics.js:110-264 | the step-by-step procedure computes SankeyOf of the rows |
| Tables.Database.AddAccount | routes/ops.js:457-470 | appends the row with the next serial id, and no other table changes |
| Tables.Database.UpdateAccount | routes/ops.js:510-515 | the UPDATE applied to the accounts, and no other table changes |
| Tables.Database.AddCategory | routes/ops.js:345-350 | appends the row with the next serial id, and no other table changes |
| Tables.UpdateAccounts | routes/ops.js:510-515 | rows with another id are unchanged; rows with that id get the new fields and keep their id and owner |
| Tables.CountryByCode | routes/ops.js:448-451 | a country iff some country has that code, and then one with that code |
| OpsAdmin.BuildFeedback | routes/ops.js:107-115 | a banner iff both status and message are present, carrying both |
| OpsAdmin.AccountsOf | routes/ops.js:400-427 | exactly the user's accounts |
| OpsAdmin.AccountsOfCounts | routes/ops.js:121-127 | the user's account list has exactly one entry per bank_accounts row with the user's id |
| OpsAdmin.OpsHome | routes/ops.js:118-139 | the number of categories, and the number of bank_accounts rows with the user's id |
| OpsAdmin.CategoryCreation | routes/ops.js:336-359 | name required first, then a failing insert, then a name taken; created iff a name is given, the insert works and the name is free |
| OpsAdmin.CreateCategory | routes/ops.js:336-359 | the redirect of CategoryCreation; a category is appended exactly when it is created |
| OpsAdmin.CategoryUsage | routes/ops.js:383-386 | zero iff no transaction has that category |
| OpsAdmin.WithoutCategory | routes/ops.js:391 | exactly the categories with another id |
| OpsAdmin.CategoryById | routes/ops.js:370-373 | a category with that id, or none iff there is none |
| OpsAdmin.DeleteCategory | routes/ops.js:362-395 | refused in order for an invalid id, an unknown id, a system category and a category in use; deleted iff none applies and the delete works |
| OpsAdmin.ManualAccount | routes/ops.js:457-470 | the new account has the country's currency, the trimmed masked number or null, and is confirmed iff the box says 'on' |
| OpsAdmin.BankCreation | routes/ops.js:430-476 | name and country code first, then account type in {checking, savings, investment}, then a known country, then a failing insert; added iff all pass |
| OpsAdmin.CreateBank | routes/ops.js:430-476 | the redirect of BankCreation; the ManualAccount row is appended exactly when it is added |
| OpsAdmin.BankUpdate | routes/ops.js:479-521 | invalid id, then name, then account type, then ownership, then a failing update; updated iff all pass |
| OpsAdmin.UpdateBank | routes/ops.js:479-521 | the redirect of BankUpdate; the accounts change exactly when it is updated |
| OpsAdmin.AccountUsage | routes/ops.js:532-535 | zero iff the user has no transaction on that account |
| OpsAdmin.WithoutAccount | routes/ops.js:541-544 | exactly the accounts other than that id for that user |
| OpsAdmin.DeleteBank | routes/ops.js:524-550 | refused for an invalid id or an account with the user's transactions; deleted iff neither applies and the delete works |
| OpsUpload.Reported | routes/ops.js:66 | the detection, or {bank: null, confidence: 0} when there is none |
| OpsUpload.FreshUpload | routes/ops.js:52-61 | step 2, country 'UK', the detection of the text, and nothing from an earlier upload |
| OpsUpload.Upload | routes/ops.js:37-72 | no file gives 400 'No file uploaded'; a failing PDF gives 500; both leave the state untouched; otherwise the state is replaced by FreshUpload and step 2 is reported |
| OpsUpload.CurrentStep | routes/ops.js:99 | the stored step, or 1 when there is no upload |
| OpsUpload.ConfirmBank | routes/ops.js:75-92 | 400 'No upload in progress' without an upload; otherwise exactly bank, country and step 3 are set |
| OpsUpload.ExtractStatement | routes/ops.js:142-163 | without an upload, 400 with nothing changed; an extraction error, or a reply that parses to `null` (whose `.transactions` throws), gives 500 and keeps the state; otherwise `transactions \|\| []` is stored with step 3 and its count reported |
| OpsUpload.StoreExtraction | routes/ops.js:150-163 | a reply that parsed to `null` is a 500 TypeError that keeps the state; otherwise the stored list, the response list and the count agree |
| OpsUpload.Preview | routes/ops.js:166-185 | back to the upload page iff nothing was extracted; otherwise the extracted list with its length |
| OpsUpload.SkipTransactions | routes/ops.js:188-203 | without an upload, 400 with nothing changed; otherwise `skippedIds \|\| []` and step 4 are stored |
| OpsUpload.CategoriesReview | routes/ops.js:206-229 | the same guard as the preview, then the extracted list beside every category at step 4 |
| OpsUpload.CurrencyFor | routes/ops.js:271 | 'GBP' iff the country is 'UK', 'INR' otherwise |
| OpsUpload.CategoryAt | routes/ops.js:283-286 | the category id of the element at that index when it exists and is truthy, else null |
| OpsUpload.TransactionsToSave | routes/ops.js:282-289 | same length and order as the extracted list; only category and currency are replaced, so the skipped ids play no part |
| OpsUpload.SavedCurrency | routes/ops.js:287 | every saved transaction carries 'GBP' for 'UK' and 'INR' otherwise, whatever the model reported |
| OpsUpload.FindAccount | routes/ops.js:249-256 | an account id only for an account of the user whose name equals the bank up to case and whose country has the code; none iff no account matches |
| OpsUpload.SaveExtracted | routes/ops.js:281-306 | a missing extraction or a missing categorization of a non-empty list is a 500 that changes nothing; otherwise the rows added are exactly those of the dedup-then-insert loop over the merged transactions, the upload row records user, account, file name, bank and the number imported, the wizard state is deleted and the reply carries that number and the dashboard address; no other table changes |
| OpsUpload.Confirm | routes/ops.js:232-313 | 400 without an upload or without a country, keeping the state; 'Country not found' changes no table; the account is the user's matching one, or else a new 'checking' account in the wizard's country and currency; the rows added are exactly those of the dedup-then-insert loop over the merged transactions; one 'processed' upload row records user, account, file name, bank and the number imported; the state is deleted only on success |

## Left out

- Express wiring is not modelled: routing, middleware, rendering templates and `res.json` are left out. Handlers return the view, redirect or JSON body as a value.
- The following oracles become parameters:
  - the PDF text extraction;
  - the HTTP calls to OpenRouter;
  - `JSON.parse` and `JSON.stringify`;
  - bcrypt;
  - `parseInt` and `parseFloat`;
  - the SQL aggregates behind the chat tools;
  - `NOW()` (a counter in each table).
- A failure of any other database query is not modelled. The exceptions are those the handlers report through a flag (a failing insert, update, delete or lookup) or through `faults` in `insertTransactions`.
- Floating-point amounts and `toFixed(2)` are left out. Amounts are whole numbers of minor units, and the Sankey totals are exact sums.
- `parseDateFilter` and the `/sankey` and `/` routes of routes/analytics.js are left out, because they depend on the clock and on `Date` and `toISOString`. Only `transformToSankey` is modelled. Its month key is given as text.
- Strings are sequences of UTF-16-agnostic characters. `LOWER` and `toLowerCase` are modelled for ASCII letters only. The `i` flag of the bank patterns is modelled the same way.
- The bank patterns are modelled in a small regular-expression subset of literal text and `\s+`, which covers every pattern the table uses.
- Tools.RunTool: only integer `days` and `limit` arguments are modelled. A string or fractional value, which `Math.max` would coerce, is not.
- Query, body and header fields are `Option<string>`. Arrays and objects sent where a string is expected are not modelled.
- ChatOrchestrator: `MAX_HISTORY_MESSAGES` and `MAX_INPUT_CHARS` are fixed at their defaults of 20 and 4000. The environment overrides are not modelled.
- ChatOrchestrator.ToOpenAIMessages: stored messages have no tool-call-id column, so the id of a replayed tool message is always missing.
- AiConversations.ListConversations: when the user has more than `limit` conversations, the contract does not state that the kept ones are the newest. It states only that they are the user's and are in newest-first order.
- OpsAdmin.Url has no contract. It maps each redirect to its literal address.
- The category and bank handlers are modelled as a decision function plus a method that applies it. The decision function gives the redirect, and the method performs the one table change.
- OpsUpload.Confirm: the 500 'Failed to create bank account' branch (routes/ops.js:274-276) is not modelled, because an `INSERT ... RETURNING` that does not throw always yields a row.
- OpsUpload.CategoriesReview: the categories are taken in the order the query returns them. The `ORDER BY name` of routes/ops.js:216 is not modelled.
- OpsAdmin.AccountsOf: the `JOIN countries c ON ba.country_id = c.id` of routes/ops.js:403-405 is not modelled. An account whose country id names no country would be listed by the model but not by the source.
- The GET `/ops/categories` and `/ops/banks` pages are modelled only through BuildFeedback and AccountsOf. Their sorting (`ORDER BY`) is not modelled.
- The count query of routes/dashboard.js:77 is modelled as the count query evidently intended, `CountQuery`. As written, its `replace` target never occurs in the query (`Dashboard.CountReplaceFindsNothing`), so the count would be sent the listing query itself. In the handler as written, that call is never reached, because `pool` throws first.
- The bank detector reports 'India', while the rest of the application uses the code 'IN'. The model keeps 'India' as written.
- Multer's file filter (PDF only, 5 MB) and the file-name scheme are not modelled. A request either has a file or not.

## Findings

| source | as written | input that shows it | evidently intended | confidence | as-written member | corrected member |
|---|---|---|---|---|---|---|
| routes/dashboard.js:76 | `pool.query(...)` is called, but the module never requires `pool`, so a ReferenceError reaches the catch block | any GET /dashboard/transactions from a signed-in user | run the count and listing queries on the connection pool and render the page of transactions | not executed | Dashboard.ListTransactions | Dashboard.ListTransactionsWithPool |
