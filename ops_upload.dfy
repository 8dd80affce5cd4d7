/** The statement-upload wizard of routes/ops.js: upload (step 1 to 2), bank
    confirmation (to 3), extraction through the language model (3), skipping (4),
    the preview pages, and the final confirm that stores the transactions and ends
    the wizard. Each handler is a method on the session and the tables, returning
    the response it sends. */
module OpsUpload {
  import opened Common
  import opened JsText
  import opened BankDetector
  import opened LlmExtractor
  import opened Tables
  import opened TransactionsDb
  import opened Sessions

  /** `req.file` as multer leaves it. */
  datatype UploadedFile = UploadedFile(path: string, originalName: string, size: nat)

  /** The `bankDetection` of the upload response. */
  datatype DetectionBody = DetectionBody(bank: Option<string>, country: Option<string>, confidence: real)

  /** What `JSON.parse` gives for the model's reply, as far as the wizard reads it: the
      value `null`, or any other value with its `transactions` property, if any (a
      number, string, boolean or array reads like an object without one). */
  datatype ExtractedJson =
    | ExtractedNull
    | ExtractedValue(transactions: Option<seq<Candidate>>)

  /** The TypeError that `extracted.transactions` throws when the reply parsed to `null`. */
  const NullTransactionsRead := "Cannot read properties of null (reading 'transactions')"

  datatype Response =
    | JsonError(status: nat, error: string)
    | UploadAccepted(step: nat, bankDetection: DetectionBody)
    | StepDone(step: nat)
    | TransactionsExtracted(step: nat, transactions: seq<Candidate>, count: nat)
    | Imported(transactionsImported: nat, redirect: string)
    | Redirect(location: string)
    | PreviewPage(transactions: seq<Candidate>, bank: Option<string>, country: Option<string>, count: nat)
    | CategoriesReviewPage(transactions: seq<Candidate>, categories: seq<CategoryRow>, currentStep: nat)

  const NoUpload := "No upload in progress"

  /** `bankDetection || { bank: null, confidence: 0 }`. */
  function Reported(d: Option<Detection>): (r: DetectionBody)
    ensures d.Some? ==> r == DetectionBody(Some(d.value.bank), Some(d.value.country), d.value.confidence)
    ensures d.None? ==> r.bank.None? && r.confidence == 0.0
  {
    match d
    case Some(x) => DetectionBody(Some(x.bank), Some(x.country), x.confidence)
    case None => DetectionBody(None, None, 0.0)
  }

  /** The record a successful upload stores: step 2, country 'UK', and the detection. */
  function FreshUpload(file: UploadedFile, text: string, userId: int): (s: UploadState)
    ensures s.step == 2 && s.country == Some("UK") && s.bankDetection == DetectBank(text)
    ensures s.statementText == text && s.fileName == file.originalName && s.userId == userId
    ensures s.bank.None? && s.extractedTransactions.None? && s.skippedTransactionIds.None?
  {
    UploadState(file.path, file.originalName, file.size, text, DetectBank(text), userId,
                Some("UK"), 2, None, None, None)
  }

  /** POST /ops/upload. `pdfText` is what `extractTextFromPDF` settles with. A new
      upload replaces any record of an earlier one. */
  method Upload(session: Session, file: Option<UploadedFile>, pdfText: Result<string, string>)
    returns (response: Response)
    requires session.SignedIn()
    modifies session
    ensures file.None? ==> response == JsonError(400, "No file uploaded")
    ensures file.Some? && pdfText.Failure? ==> response == JsonError(500, pdfText.error)
    ensures file.None? || pdfText.Failure? ==> session.uploadState == old(session.uploadState)
    ensures file.Some? && pdfText.Success? ==>
      session.uploadState == Some(FreshUpload(file.value, pdfText.value, old(session.userId.value)))
      && response == UploadAccepted(2, Reported(DetectBank(pdfText.value)))
    ensures session.userId == old(session.userId) && session.userEmail == old(session.userEmail)
    ensures session.destroyed == old(session.destroyed)
  {
    if file.None? {
      return JsonError(400, "No file uploaded");
    }
    match pdfText
    case Failure(message) =>
      response := JsonError(500, message);
    case Success(text) =>
      var detection := DetectBank(text);
      session.uploadState := Some(FreshUpload(file.value, text, session.userId.value));
      response := UploadAccepted(2, Reported(detection));
  }

  /** GET /ops/upload: `uploadState?.step || 1`. */
  function CurrentStep(state: Option<UploadState>): (step: int)
    ensures state.None? ==> step == 1
    ensures state.Some? && state.value.step != 0 ==> step == state.value.step
    ensures step != 0
  {
    if state.Some? && state.value.step != 0 then state.value.step else 1
  }

  /** POST /ops/upload/confirm-bank: sets exactly bank, country and step 3. */
  method ConfirmBank(session: Session, selectedBank: Option<string>, selectedCountry: Option<string>)
    returns (response: Response)
    modifies session
    ensures old(session.uploadState).None? ==>
      response == JsonError(400, NoUpload) && session.uploadState == None
    ensures old(session.uploadState).Some? ==>
      session.uploadState == Some(old(session.uploadState).value.(bank := selectedBank, country := selectedCountry, step := 3))
      && response == StepDone(3)
    ensures session.userId == old(session.userId) && session.userEmail == old(session.userEmail)
    ensures session.destroyed == old(session.destroyed)
  {
    if session.uploadState.None? {
      return JsonError(400, NoUpload);
    }
    session.uploadState := Some(session.uploadState.value.(bank := selectedBank, country := selectedCountry, step := 3));
    response := StepDone(3);
  }

  /** `x || []` for an array. */
  function OrEmpty<T>(xs: Option<seq<T>>): (r: seq<T>)
    ensures xs.Some? ==> r == xs.value
    ensures xs.None? ==> r == []
  {
    if xs.Some? then xs.value else []
  }

  /** POST /ops/upload/extract-transactions. The language-model call is the one of
      module LlmExtractor, with its key, reply and parser as parameters. */
  method ExtractStatement(session: Session, apiKey: Option<string>,
                          post: Request -> Option<string>, parse: string -> Option<ExtractedJson>)
    returns (response: Response)
    modifies session
    ensures old(session.uploadState).None? ==>
      response == JsonError(400, NoUpload) && session.uploadState == None
    ensures old(session.uploadState).Some? ==>
      var outcome := ExtractTransactions(apiKey, old(session.uploadState).value.statementText, post, parse).result;
      (outcome.Failure? ==> response == JsonError(500, outcome.error) && session.uploadState == old(session.uploadState))
      && (outcome.Success? && outcome.value.ExtractedNull? ==>
            response == JsonError(500, NullTransactionsRead) && session.uploadState == old(session.uploadState))
      && (outcome.Success? && outcome.value.ExtractedValue? ==>
            var txs := OrEmpty(outcome.value.transactions);
            session.uploadState == Some(old(session.uploadState).value.(extractedTransactions := Some(txs), step := 3))
            && response == TransactionsExtracted(3, txs, |txs|))
    ensures session.userId == old(session.userId) && session.userEmail == old(session.userEmail)
    ensures session.destroyed == old(session.destroyed)
  {
    if session.uploadState.None? {
      return JsonError(400, NoUpload);
    }
    var outcome := ExtractTransactions(apiKey, session.uploadState.value.statementText, post, parse).result;
    response := StoreExtraction(session, outcome);
  }

  /** The end of POST /ops/upload/extract-transactions once the extractor has answered:
      an error, or a reply that parsed to `null`, is reported as a 500 and the state
      kept; otherwise the transactions (`|| []`) are stored with step 3. */
  method StoreExtraction(session: Session, outcome: Result<ExtractedJson, string>) returns (response: Response)
    requires session.uploadState.Some?
    modifies session
    ensures outcome.Failure? ==> response == JsonError(500, outcome.error) && session.uploadState == old(session.uploadState)
    ensures outcome.Success? && outcome.value.ExtractedNull? ==>
      response == JsonError(500, NullTransactionsRead) && session.uploadState == old(session.uploadState)
    ensures outcome.Success? && outcome.value.ExtractedValue? ==>
      var txs := OrEmpty(outcome.value.transactions);
      session.uploadState == Some(old(session.uploadState).value.(extractedTransactions := Some(txs), step := 3))
      && response == TransactionsExtracted(3, txs, |txs|)
    ensures session.userId == old(session.userId) && session.userEmail == old(session.userEmail)
    ensures session.destroyed == old(session.destroyed)
  {
    var state := session.uploadState.value;
    match outcome
    case Failure(message) =>
      response := JsonError(500, message);
    case Success(ExtractedNull) =>
      response := JsonError(500, NullTransactionsRead);
    case Success(extracted) =>
      var txs := OrEmpty(extracted.transactions);
      session.uploadState := Some(state.(extractedTransactions := Some(txs), step := 3));
      response := TransactionsExtracted(3, txs, |txs|);
  }

  /** GET /ops/preview: back to the upload page until transactions have been extracted. */
  function Preview(state: Option<UploadState>): (r: Response)
    ensures (state.None? || state.value.extractedTransactions.None?) <==> r == Redirect("/ops/upload")
    ensures r.PreviewPage? ==>
      (r.count == |r.transactions| && Some(r.transactions) == state.value.extractedTransactions)
  {
    if state.None? || state.value.extractedTransactions.None? then Redirect("/ops/upload")
    else
      var txs := state.value.extractedTransactions.value;
      PreviewPage(txs, state.value.bank, state.value.country, |txs|)
  }

  /** POST /ops/upload/skip-transactions: stores `skippedIds || []` and step 4. */
  method SkipTransactions(session: Session, skippedIds: Option<seq<int>>)
    returns (response: Response)
    modifies session
    ensures old(session.uploadState).None? ==>
      response == JsonError(400, NoUpload) && session.uploadState == None
    ensures old(session.uploadState).Some? ==>
      session.uploadState == Some(old(session.uploadState).value.(skippedTransactionIds := Some(OrEmpty(skippedIds)), step := 4))
      && response == StepDone(4)
    ensures session.userId == old(session.userId) && session.userEmail == old(session.userEmail)
    ensures session.destroyed == old(session.destroyed)
  {
    if session.uploadState.None? {
      return JsonError(400, NoUpload);
    }
    session.uploadState := Some(session.uploadState.value.(skippedTransactionIds := Some(OrEmpty(skippedIds)), step := 4));
    response := StepDone(4);
  }

  /** GET /ops/categories-review: the same guard as the preview, then the extracted
      transactions beside every category, at step 4. */
  function CategoriesReview(state: Option<UploadState>, categories: seq<CategoryRow>): (r: Response)
    ensures (state.None? || state.value.extractedTransactions.None?) <==> r == Redirect("/ops/upload")
    ensures r.CategoriesReviewPage? ==>
      (r.currentStep == 4 && r.categories == categories && Some(r.transactions) == state.value.extractedTransactions)
  {
    if state.None? || state.value.extractedTransactions.None? then Redirect("/ops/upload")
    else CategoriesReviewPage(state.value.extractedTransactions.value, categories, 4)
  }

  /** `country === 'UK' ? 'GBP' : 'INR'`. */
  function CurrencyFor(country: string): (c: string)
    ensures country == "UK" <==> c == "GBP"
    ensures country != "UK" <==> c == "INR"
  {
    if country == "UK" then "GBP" else "INR"
  }

  /** The category id of `categorizedTransactions[idx]?.category_id || null`, where each
      entry of `categorized` is the `category_id` of that element (`None` for a missing
      element or property). */
  function CategoryAt(categorized: seq<Option<int>>, idx: nat): (r: Option<int>)
    ensures idx >= |categorized| ==> r.None?
    ensures idx < |categorized| ==> r == CategoryOrNull(categorized[idx])
  {
    if idx < |categorized| then CategoryOrNull(categorized[idx]) else None
  }

  /** `transactionsToSave`: one output per extracted transaction, in the same order;
      only the category and the currency are replaced. */
  function TransactionsToSave(extracted: seq<Candidate>, categorized: seq<Option<int>>, country: string)
    : (r: seq<Candidate>)
    ensures |r| == |extracted|
    ensures forall i :: 0 <= i < |r| ==>
      r[i] == extracted[i].(categoryId := CategoryAt(categorized, i), currency := Some(CurrencyFor(country)))
  {
    seq(|extracted|, i requires 0 <= i < |extracted| =>
      extracted[i].(categoryId := CategoryAt(categorized, i), currency := Some(CurrencyFor(country))))
  }

  /** Every saved transaction carries the wizard's currency, 'GBP' for 'UK' and 'INR'
      otherwise, whatever currency the model reported. */
  lemma SavedCurrency(extracted: seq<Candidate>, categorized: seq<Option<int>>, country: string, i: nat)
    requires i < |extracted|
    ensures TransactionsToSave(extracted, categorized, country)[i].currency
      == Some(if country == "UK" then "GBP" else "INR")
  {
  }

  /** The bank-account query of the confirm step: the user's account whose lower-cased
      name equals the lower-cased bank and whose country has the wizard's code. A
      missing bank, or a code no country has, matches nothing. */
  function FindAccount(accounts: seq<BankAccountRow>, countries: seq<Country>, userId: int,
                       bank: Option<string>, code: string): (r: Option<int>)
    ensures r.Some? ==>
      (bank.Some? && CountryByCode(countries, Some(code)).Some?
       && exists k :: 0 <= k < |accounts| && accounts[k].id == r.value && AccountMatches(accounts[k], countries, userId, bank, code))
    ensures r.None? ==> forall k :: 0 <= k < |accounts| ==> !AccountMatches(accounts[k], countries, userId, bank, code)
  {
    if accounts == [] then None
    else if AccountMatches(accounts[0], countries, userId, bank, code) then Some(accounts[0].id)
    else
      var r := FindAccount(accounts[1..], countries, userId, bank, code);
      assert forall k :: 1 <= k < |accounts| ==> accounts[1..][k - 1] == accounts[k];
      r
  }

  predicate AccountMatches(a: BankAccountRow, countries: seq<Country>, userId: int, bank: Option<string>, code: string) {
    var country := CountryByCode(countries, Some(code));
    a.userId == userId && bank.Some? && a.bankName.Some? && LowerString(a.bankName.value) == LowerString(bank.value)
    && country.Some? && a.countryId == country.value.id
  }

  /** The account the confirm step creates when none matches. */
  function NewAccount(id: int, userId: int, country: Country, bank: Option<string>, code: string): BankAccountRow {
    BankAccountRow(id, userId, country.id, bank, "checking", None, CurrencyFor(code), true)
  }

  /** The message V8 gives when the wizard maps a missing transaction list. */
  const MapOfUndefined := "Cannot read properties of undefined (reading 'map')"
  /** The message V8 gives when `categorizedTransactions` is missing and there is something to map. */
  const IndexOfUndefined := "Cannot read properties of undefined (reading '0')"

  /** The second half of POST /ops/upload/confirm, once the account is known: merge the
      extracted and categorized transactions, run the dedup-then-insert loop, record the
      upload and end the wizard. */
  method SaveExtracted(session: Session, db: Database, table: TransactionTable, st: UploadState,
                       accountId: int, code: string, categorized: Option<seq<Option<int>>>, faults: set<nat>)
    returns (response: Response)
    requires session.uploadState == Some(st)
    modifies session, db, table
    ensures db.categories == old(db.categories) && db.countries == old(db.countries) && db.accounts == old(db.accounts)
    ensures db.nextCategoryId == old(db.nextCategoryId) && db.nextAccountId == old(db.nextAccountId)
    ensures session.userId == old(session.userId) && session.userEmail == old(session.userEmail)
    ensures session.destroyed == old(session.destroyed)
    ensures response.JsonError? ==>
      session.uploadState == old(session.uploadState) && unchanged(table) && db.uploads == old(db.uploads)
    ensures st.extractedTransactions.None? ==> response == JsonError(500, MapOfUndefined)
    ensures st.extractedTransactions.Some? && categorized.None? && st.extractedTransactions.value != [] ==>
      response == JsonError(500, IndexOfUndefined)
    ensures st.extractedTransactions.Some? && (categorized.Some? || st.extractedTransactions.value == []) ==>
      var saved := Process(Batch(old(table.rows), old(table.nextId), []), st.userId, accountId,
                           TransactionsToSave(st.extractedTransactions.value, OrEmpty(categorized), code), faults);
      response == Imported(|saved.results|, "/dashboard?imported=" + NatToString(|saved.results|))
      && table.rows == saved.rows && table.nextId == saved.nextId
      && |table.rows| - |old(table.rows)| == |saved.results|
      && db.uploads == old(db.uploads) + [PdfUploadRow(st.userId, accountId, st.fileName, st.bank, |saved.results|, "processed")]
      && session.uploadState == None
    ensures response.JsonError? || response.Imported?
  {
    if st.extractedTransactions.None? {
      return JsonError(500, MapOfUndefined);
    }
    var extracted := st.extractedTransactions.value;
    if categorized.None? && extracted != [] {
      return JsonError(500, IndexOfUndefined);
    }
    var toSave := TransactionsToSave(extracted, OrEmpty(categorized), code);
    ghost var before := Batch(table.rows, table.nextId, []);
    var inserted := table.InsertTransactions(st.userId, Some(toSave), accountId, faults);
    ProcessAppends(before, st.userId, accountId, toSave, faults);
    db.uploads := db.uploads + [PdfUploadRow(st.userId, accountId, st.fileName, st.bank, |inserted|, "processed")];
    session.uploadState := None;
    response := Imported(|inserted|, "/dashboard?imported=" + NatToString(|inserted|));
  }

  /** POST /upload/confirm. `categorized` is the body's `categorizedTransactions`, reduced
      to each element's `category_id`; `faults` are the candidates whose queries throw
      inside `insertTransactions`. */
  method Confirm(session: Session, db: Database, table: TransactionTable,
                 categorized: Option<seq<Option<int>>>, faults: set<nat>)
    returns (response: Response)
    requires db.Valid()
    modifies session, db, table
    ensures db.Valid()
    ensures old(session.uploadState).None? ==>
      response == JsonError(400, NoUpload) && unchanged(db) && unchanged(table) && session.uploadState == None
    ensures old(session.uploadState).Some? && !Truthy(old(session.uploadState).value.country) ==>
      response == JsonError(400, "Country not specified")
      && unchanged(db) && unchanged(table) && session.uploadState == old(session.uploadState)
    ensures response.JsonError? ==>
      (session.uploadState == old(session.uploadState) && unchanged(table)
       && db.categories == old(db.categories) && db.uploads == old(db.uploads))
    ensures response.Imported? ==>
      var st := old(session.uploadState).value;
      session.uploadState == None
      && st.extractedTransactions.Some?
      && |table.rows| - |old(table.rows)| == response.transactionsImported
      && response.redirect == "/dashboard?imported=" + NatToString(response.transactionsImported)
      && |db.uploads| == |old(db.uploads)| + 1 && db.uploads[..|old(db.uploads)|] == old(db.uploads)
      && db.uploads[|old(db.uploads)|].transactionCount == response.transactionsImported
    ensures old(session.uploadState).Some? && Truthy(old(session.uploadState).value.country) ==>
      var st := old(session.uploadState).value;
      var code := st.country.value;
      var found := FindAccount(old(db.accounts), old(db.countries), st.userId, st.bank, code);
      var country := CountryByCode(old(db.countries), Some(code));
      (found.None? && country.None? ==>
         response == JsonError(400, "Country not found") && unchanged(db) && unchanged(table))
      && (found.Some? ==> db.accounts == old(db.accounts))
      && (found.None? && country.Some? ==>
            db.accounts == old(db.accounts) + [NewAccount(old(db.nextAccountId), st.userId, country.value, st.bank, code)])
      && (found.Some? || country.Some? ==>
            var accountId := if found.Some? then found.value else old(db.nextAccountId);
            (st.extractedTransactions.None? ==> response == JsonError(500, MapOfUndefined))
            && (st.extractedTransactions.Some? && categorized.None? && st.extractedTransactions.value != [] ==>
                  response == JsonError(500, IndexOfUndefined))
            && (st.extractedTransactions.Some? && (categorized.Some? || st.extractedTransactions.value == []) ==>
                  var saved := Process(Batch(old(table.rows), old(table.nextId), []), st.userId, accountId,
                                       TransactionsToSave(st.extractedTransactions.value, OrEmpty(categorized), code), faults);
                  response == Imported(|saved.results|, "/dashboard?imported=" + NatToString(|saved.results|))
                  && table.rows == saved.rows && table.nextId == saved.nextId
                  && db.uploads == old(db.uploads)
                       + [PdfUploadRow(st.userId, accountId, st.fileName, st.bank, |saved.results|, "processed")]))
    ensures response.JsonError? || response.Imported?
    ensures session.userId == old(session.userId) && session.userEmail == old(session.userEmail)
    ensures session.destroyed == old(session.destroyed)
  {
    if session.uploadState.None? {
      return JsonError(400, NoUpload);
    }
    var st := session.uploadState.value;
    if !Truthy(st.country) {
      return JsonError(400, "Country not specified");
    }
    var code := st.country.value;
    var bankAccountId;
    var found := FindAccount(db.accounts, db.countries, st.userId, st.bank, code);
    if found.Some? {
      bankAccountId := found.value;
    } else {
      var country := CountryByCode(db.countries, Some(code));
      if country.None? {
        return JsonError(400, "Country not found");
      }
      bankAccountId := db.nextAccountId;
      db.AddAccount(NewAccount(bankAccountId, st.userId, country.value, st.bank, code));
    }
    response := SaveExtracted(session, db, table, st, bankAccountId, code, categorized, faults);
  }
}
