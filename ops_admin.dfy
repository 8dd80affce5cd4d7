/** The category and bank-account pages of routes/ops.js: the feedback banner, the
    landing-page counts, and the create, update and delete handlers with their
    validation rules. Each handler is a method on the tables returning the address
    it redirects to. */
module OpsAdmin {
  import opened Common
  import opened JsText
  import opened Tables
  import opened TransactionsDb
  import opened Sessions

  datatype Feedback = Feedback(status: string, message: string)

  /** `buildFeedback(req.query)`: a banner only when both status and message are present
      and non-empty. */
  function BuildFeedback(status: Option<string>, message: Option<string>): (r: Option<Feedback>)
    ensures r.Some? <==> Truthy(status) && Truthy(message)
    ensures r.Some? ==> r.value.status == status.value && r.value.message == message.value
  {
    if !Truthy(status) || !Truthy(message) then None
    else Some(Feedback(status.value, message.value))
  }

  /** The accounts of one user, in table order. */
  function AccountsOf(accounts: seq<BankAccountRow>, userId: int): (r: seq<BankAccountRow>)
    ensures forall a :: a in r <==> a in accounts && a.userId == userId
    ensures |r| <= |accounts|
  {
    if accounts == [] then []
    else (if accounts[0].userId == userId then [accounts[0]] else []) + AccountsOf(accounts[1..], userId)
  }

  /** The positions of the user's rows in bank_accounts: what `COUNT(*) ... WHERE
      user_id = $1` counts. */
  function OwnedRows(accounts: seq<BankAccountRow>, userId: int): set<int> {
    set k | 0 <= k < |accounts| && accounts[k].userId == userId
  }

  lemma {:induction false} AccountsOfSnoc(accounts: seq<BankAccountRow>, a: BankAccountRow, userId: int)
    ensures AccountsOf(accounts + [a], userId) == AccountsOf(accounts, userId) + (if a.userId == userId then [a] else [])
    decreases |accounts|
  {
    if accounts == [] {
      assert AccountsOf([a][1..], userId) == [];
    } else {
      var head := if accounts[0].userId == userId then [accounts[0]] else [];
      var tail := if a.userId == userId then [a] else [];
      assert (accounts + [a])[0] == accounts[0];
      assert (accounts + [a])[1..] == accounts[1..] + [a];
      AccountsOfSnoc(accounts[1..], a, userId);
      calc {
        AccountsOf(accounts + [a], userId);
        head + AccountsOf(accounts[1..] + [a], userId);
        head + (AccountsOf(accounts[1..], userId) + tail);
        { assert head + (AccountsOf(accounts[1..], userId) + tail) == (head + AccountsOf(accounts[1..], userId)) + tail; }
        AccountsOf(accounts, userId) + tail;
      }
    }
  }

  lemma OwnedRowsSnoc(accounts: seq<BankAccountRow>, a: BankAccountRow, userId: int)
    ensures |OwnedRows(accounts + [a], userId)|
      == |OwnedRows(accounts, userId)| + (if a.userId == userId then 1 else 0)
  {
    var n := |accounts|;
    var added: set<int> := if a.userId == userId then {n} else {};
    forall k ensures k in OwnedRows(accounts + [a], userId) <==> k in OwnedRows(accounts, userId) + added {
      if 0 <= k < n {
        assert (accounts + [a])[k] == accounts[k];
      }
    }
    assert OwnedRows(accounts + [a], userId) == OwnedRows(accounts, userId) + added;
    assert OwnedRows(accounts, userId) !! added;
  }

  /** `AccountsOf` keeps one entry per row of the user, so its length is the count. */
  lemma {:induction false} AccountsOfCounts(accounts: seq<BankAccountRow>, userId: int)
    ensures |AccountsOf(accounts, userId)| == |OwnedRows(accounts, userId)|
    decreases |accounts|
  {
    if accounts != [] {
      var n := |accounts| - 1;
      var front := accounts[..n];
      assert accounts == front + [accounts[n]];
      AccountsOfSnoc(front, accounts[n], userId);
      AccountsOfCounts(front, userId);
      OwnedRowsSnoc(front, accounts[n], userId);
    }
  }

  /** GET /ops: the number of categories, and the number of the signed-in user's
      accounts. */
  function OpsHome(categories: seq<CategoryRow>, accounts: seq<BankAccountRow>, userId: int)
    : (counts: (nat, nat))
    ensures counts.0 == |categories|
    ensures counts.1 == |AccountsOf(accounts, userId)| == |OwnedRows(accounts, userId)|
    ensures counts.1 <= |accounts|
    ensures counts.1 == 0 <==> forall k :: 0 <= k < |accounts| ==> accounts[k].userId != userId
  {
    var mine := AccountsOf(accounts, userId);
    AccountsOfCounts(accounts, userId);
    if |mine| == 0 then
      assert forall k :: 0 <= k < |accounts| ==> accounts[k] !in mine;
      (|categories|, 0)
    else
      assert mine[0] in mine;
      (|categories|, |mine|)
  }

  /** Where each handler of this page sends the browser: the list page with a status
      and a URL-encoded message for the feedback banner. */
  datatype Redirect =
      CategoryNameRequired
    | CategoryCreated
    | CategoryExists
    | CategoryCreateFailed
    | InvalidCategory
    | CategoryNotFound
    | SystemCategory
    | CategoryInUse
    | CategoryDeleted
    | CategoryDeleteFailed
    | BankFieldsRequired
    | InvalidAccountType
    | InvalidCountry
    | BankAdded
    | BankAddFailed
    | InvalidBankAccount
    | BankNameRequired
    | BankNotFound
    | BankUpdated
    | BankUpdateFailed
    | BankInUse
    | BankDeleted
    | BankDeleteFailed

  /** The address written in the `Location` header of each redirect. */
  function Url(r: Redirect): string {
    match r
    case CategoryNameRequired => "/ops/categories?status=error&message=Category%20name%20is%20required"
    case CategoryCreated => "/ops/categories?status=success&message=Category%20created"
    case CategoryExists => "/ops/categories?status=error&message=Category%20already%20exists"
    case CategoryCreateFailed => "/ops/categories?status=error&message=Failed%20to%20create%20category"
    case InvalidCategory => "/ops/categories?status=error&message=Invalid%20category"
    case CategoryNotFound => "/ops/categories?status=error&message=Category%20not%20found"
    case SystemCategory => "/ops/categories?status=error&message=System%20categories%20cannot%20be%20deleted"
    case CategoryInUse => "/ops/categories?status=error&message=Category%20is%20in%20use"
    case CategoryDeleted => "/ops/categories?status=success&message=Category%20deleted"
    case CategoryDeleteFailed => "/ops/categories?status=error&message=Failed%20to%20delete%20category"
    case BankFieldsRequired => "/ops/banks?status=error&message=Bank%20name%20and%20country%20are%20required"
    case InvalidAccountType => "/ops/banks?status=error&message=Invalid%20account%20type"
    case InvalidCountry => "/ops/banks?status=error&message=Invalid%20country"
    case BankAdded => "/ops/banks?status=success&message=Bank%20account%20added"
    case BankAddFailed => "/ops/banks?status=error&message=Failed%20to%20add%20bank%20account"
    case InvalidBankAccount => "/ops/banks?status=error&message=Invalid%20bank%20account"
    case BankNameRequired => "/ops/banks?status=error&message=Bank%20name%20is%20required"
    case BankNotFound => "/ops/banks?status=error&message=Bank%20account%20not%20found"
    case BankUpdated => "/ops/banks?status=success&message=Bank%20account%20updated"
    case BankUpdateFailed => "/ops/banks?status=error&message=Failed%20to%20update%20bank%20account"
    case BankInUse => "/ops/banks?status=error&message=Cannot%20delete%20account%20with%20transactions"
    case BankDeleted => "/ops/banks?status=success&message=Bank%20account%20deleted"
    case BankDeleteFailed => "/ops/banks?status=error&message=Failed%20to%20delete%20bank%20account"
  }

  /** The unique constraint on category names, compared without regard to case. */
  predicate NameTaken(categories: seq<CategoryRow>, name: string) {
    exists k :: 0 <= k < |categories| && LowerString(categories[k].name) == LowerString(name)
  }

  /** The redirect of POST /ops/categories for the trimmed name: a missing name first,
      then the outcome of the INSERT, whose unique-constraint violation (`err.code ===
      '23505'`) is reported apart from any other failure. */
  function CategoryCreation(name: Option<string>, taken: bool, insertFails: bool): (r: Redirect)
    ensures r == CategoryNameRequired <==> !Truthy(name)
    ensures r == CategoryCreateFailed <==> Truthy(name) && insertFails
    ensures r == CategoryExists <==> Truthy(name) && !insertFails && taken
    ensures r == CategoryCreated <==> Truthy(name) && !insertFails && !taken
  {
    if !Truthy(name) then CategoryNameRequired
    else if insertFails then CategoryCreateFailed
    else if taken then CategoryExists
    else CategoryCreated
  }

  /** POST /ops/categories. `insertFails` stands for an INSERT that throws for a reason
      other than the unique constraint. */
  method CreateCategory(db: Database, name: Option<string>, description: Option<string>, insertFails: bool)
    returns (location: Redirect)
    requires db.Valid()
    modifies db
    ensures db.Valid()
    ensures db.countries == old(db.countries) && db.accounts == old(db.accounts) && db.uploads == old(db.uploads)
    ensures location == CategoryCreation(TrimOpt(name),
      TrimOpt(name).Some? && NameTaken(old(db.categories), TrimOpt(name).value), insertFails)
    ensures location != CategoryCreated ==> db.categories == old(db.categories)
    ensures location == CategoryCreated ==> TrimOpt(name).Some?
    ensures location == CategoryCreated ==>
      db.categories == old(db.categories)
        + [CategoryRow(old(db.nextCategoryId), TrimOpt(name).value, OrNull(TrimOpt(description)), false)]
  {
    var trimmed := TrimOpt(name);
    location := CategoryCreation(trimmed, trimmed.Some? && NameTaken(db.categories, trimmed.value), insertFails);
    if location == CategoryCreated {
      db.AddCategory(CategoryRow(db.nextCategoryId, trimmed.value, OrNull(TrimOpt(description)), false));
    }
  }

  /** `SELECT COUNT(*) FROM transactions WHERE category_id = $1`. */
  function CategoryUsage(rows: seq<TxRow>, id: int): (n: nat)
    ensures n <= |rows|
    ensures n == 0 <==> forall i :: 0 <= i < |rows| ==> rows[i].categoryId != Some(id)
  {
    if rows == [] then 0
    else
      var rest := CategoryUsage(rows[1..], id);
      assert forall i :: 1 <= i < |rows| ==> rows[i] == rows[1..][i - 1];
      (if rows[0].categoryId == Some(id) then 1 else 0) + rest
  }

  /** `DELETE FROM transaction_categories WHERE id = $1`. */
  function WithoutCategory(categories: seq<CategoryRow>, id: int): (r: seq<CategoryRow>)
    ensures forall c :: c in r <==> c in categories && c.id != id
    ensures |r| <= |categories|
  {
    if categories == [] then []
    else (if categories[0].id != id then [categories[0]] else []) + WithoutCategory(categories[1..], id)
  }

  /** The first category with this id, as `SELECT ... WHERE id = $1` returns it. */
  function CategoryById(categories: seq<CategoryRow>, id: int): (r: Option<CategoryRow>)
    ensures r.Some? ==> r.value in categories && r.value.id == id
    ensures r.None? <==> forall k :: 0 <= k < |categories| ==> categories[k].id != id
  {
    if categories == [] then None
    else if categories[0].id == id then Some(categories[0])
    else
      var r := CategoryById(categories[1..], id);
      assert forall k :: 1 <= k < |categories| ==> categories[k] == categories[1..][k - 1];
      r
  }

  /** POST /ops/categories/:id/delete. `id` is `Number(req.params.id)` when that is an
      integer; `deleteFails` stands for a DELETE that throws. Refusals come in the order
      invalid id, unknown id, system category, category in use. */
  method DeleteCategory(db: Database, table: TransactionTable, id: Option<int>, deleteFails: bool)
    returns (location: Redirect)
    requires db.Valid()
    modifies db
    ensures db.Valid()
    ensures db.countries == old(db.countries) && db.accounts == old(db.accounts) && db.uploads == old(db.uploads)
    ensures id.None? ==> location == InvalidCategory
    ensures id.Some? && CategoryById(old(db.categories), id.value).None? ==> location == CategoryNotFound
    ensures (id.Some? && CategoryById(old(db.categories), id.value).Some?
             && CategoryById(old(db.categories), id.value).value.systemDefined) ==> location == SystemCategory
    ensures (id.Some? && CategoryById(old(db.categories), id.value).Some?
             && !CategoryById(old(db.categories), id.value).value.systemDefined
             && CategoryUsage(table.rows, id.value) > 0) ==> location == CategoryInUse
    ensures location == CategoryDeleted <==>
      id.Some? && CategoryById(old(db.categories), id.value).Some?
      && !CategoryById(old(db.categories), id.value).value.systemDefined
      && CategoryUsage(table.rows, id.value) == 0 && !deleteFails
    ensures location == CategoryDeleted ==> db.categories == WithoutCategory(old(db.categories), id.value)
    ensures location != CategoryDeleted ==> db.categories == old(db.categories)
  {
    if id.None? {
      return InvalidCategory;
    }
    var found := CategoryById(db.categories, id.value);
    if found.None? {
      return CategoryNotFound;
    }
    if found.value.systemDefined {
      return SystemCategory;
    }
    if CategoryUsage(table.rows, id.value) > 0 {
      return CategoryInUse;
    }
    if deleteFails {
      return CategoryDeleteFailed;
    }
    db.categories := WithoutCategory(db.categories, id.value);
    location := CategoryDeleted;
  }


  /** `['checking', 'savings', 'investment'].includes(accountType)`. */
  predicate ValidAccountType(accountType: Option<string>) {
    accountType == Some("checking") || accountType == Some("savings") || accountType == Some("investment")
  }

  /** The row POST /ops/banks inserts: the country's currency, `confirmed === 'on'`. */
  function ManualAccount(id: int, userId: int, country: Country, bankName: string, accountType: string,
                         masked: Option<string>, confirmed: Option<string>): (a: BankAccountRow)
    ensures a.currency == country.currencyCode && a.countryId == country.id
    ensures a.confirmed <==> confirmed == Some("on")
    ensures a.bankName == Some(bankName) && a.userId == userId && a.id == id
    ensures a.accountNumberMasked == OrNull(TrimOpt(masked))
  {
    BankAccountRow(id, userId, country.id, Some(bankName), accountType, OrNull(TrimOpt(masked)),
                   country.currencyCode, confirmed == Some("on"))
  }

  /** The redirect of POST /ops/banks for the trimmed name and the country the code
      selects. Refusals come in the order missing name or country code, invalid type,
      unknown country; then the INSERT succeeds or fails. */
  function BankCreation(name: Option<string>, accountType: Option<string>, countryCode: Option<string>,
                        country: Option<Country>, insertFails: bool): (r: Redirect)
    ensures r == BankFieldsRequired <==> !Truthy(name) || !Truthy(countryCode)
    ensures r == InvalidAccountType <==> Truthy(name) && Truthy(countryCode) && !ValidAccountType(accountType)
    ensures r == InvalidCountry <==>
      Truthy(name) && Truthy(countryCode) && ValidAccountType(accountType) && country.None?
    ensures r == BankAddFailed <==>
      Truthy(name) && Truthy(countryCode) && ValidAccountType(accountType) && country.Some? && insertFails
    ensures r == BankAdded <==>
      Truthy(name) && Truthy(countryCode) && ValidAccountType(accountType) && country.Some? && !insertFails
  {
    if !Truthy(name) || !Truthy(countryCode) then BankFieldsRequired
    else if !ValidAccountType(accountType) then InvalidAccountType
    else if country.None? then InvalidCountry
    else if insertFails then BankAddFailed
    else BankAdded
  }

  /** POST /ops/banks. `insertFails` stands for an INSERT that throws. */
  method CreateBank(session: Session, db: Database, bankName: Option<string>, accountType: Option<string>,
                    countryCode: Option<string>, masked: Option<string>, confirmed: Option<string>,
                    insertFails: bool)
    returns (location: Redirect)
    requires session.SignedIn() && db.Valid()
    modifies db
    ensures db.Valid()
    ensures db.countries == old(db.countries) && db.categories == old(db.categories) && db.uploads == old(db.uploads)
    ensures location == BankCreation(TrimOpt(bankName), accountType, countryCode,
                                     CountryByCode(db.countries, countryCode), insertFails)
    ensures location == BankAdded ==>
      TrimOpt(bankName).Some? && accountType.Some? && CountryByCode(db.countries, countryCode).Some?
    ensures location == BankAdded ==>
      db.accounts == old(db.accounts) + [ManualAccount(old(db.nextAccountId), session.userId.value,
        CountryByCode(db.countries, countryCode).value, TrimOpt(bankName).value, accountType.value, masked, confirmed)]
    ensures location != BankAdded ==> db.accounts == old(db.accounts)
  {
    var name := TrimOpt(bankName);
    var country := CountryByCode(db.countries, countryCode);
    location := BankCreation(name, accountType, countryCode, country, insertFails);
    if location == BankAdded {
      var row := ManualAccount(db.nextAccountId, session.userId.value, country.value, name.value,
                               accountType.value, masked, confirmed);
      assert row == ManualAccount(old(db.nextAccountId), session.userId.value, CountryByCode(db.countries, countryCode).value,
                                  TrimOpt(bankName).value, accountType.value, masked, confirmed);
      db.AddAccount(row);
    }
  }

  /** Whether the user owns an account with this id (`SELECT id ... WHERE id = $1 AND user_id = $2`). */
  predicate Owns(accounts: seq<BankAccountRow>, id: int, userId: int) {
    exists k :: 0 <= k < |accounts| && accounts[k].id == id && accounts[k].userId == userId
  }

  /** The redirect of POST /ops/banks/:id/update for the trimmed name and whether the
      user owns the account. Refusals come in the order invalid id, missing name, invalid
      type, account not owned; then the UPDATE succeeds or fails. */
  function BankUpdate(id: Option<int>, name: Option<string>, accountType: Option<string>, owned: bool,
                      updateFails: bool): (r: Redirect)
    ensures r == InvalidBankAccount <==> id.None?
    ensures r == BankNameRequired <==> id.Some? && !Truthy(name)
    ensures r == InvalidAccountType <==> id.Some? && Truthy(name) && !ValidAccountType(accountType)
    ensures r == BankNotFound <==> id.Some? && Truthy(name) && ValidAccountType(accountType) && !owned
    ensures r == BankUpdateFailed <==>
      id.Some? && Truthy(name) && ValidAccountType(accountType) && owned && updateFails
    ensures r == BankUpdated <==>
      id.Some? && Truthy(name) && ValidAccountType(accountType) && owned && !updateFails
  {
    if id.None? then InvalidBankAccount
    else if !Truthy(name) then BankNameRequired
    else if !ValidAccountType(accountType) then InvalidAccountType
    else if !owned then BankNotFound
    else if updateFails then BankUpdateFailed
    else BankUpdated
  }

  /** POST /ops/banks/:id/update. The UPDATE matches on the id alone, the ownership
      check having been made before it. */
  method UpdateBank(session: Session, db: Database, id: Option<int>, bankName: Option<string>,
                    accountType: Option<string>, masked: Option<string>, confirmed: Option<string>,
                    updateFails: bool)
    returns (location: Redirect)
    requires session.SignedIn() && db.Valid()
    modifies db
    ensures db.Valid()
    ensures db.countries == old(db.countries) && db.categories == old(db.categories) && db.uploads == old(db.uploads)
    ensures location == BankUpdate(id, TrimOpt(bankName), accountType,
                                   id.Some? && Owns(old(db.accounts), id.value, session.userId.value), updateFails)
    ensures location == BankUpdated ==> id.Some? && TrimOpt(bankName).Some? && accountType.Some?
    ensures location == BankUpdated ==>
      db.accounts == UpdateAccounts(old(db.accounts), id.value, TrimOpt(bankName).value, accountType.value,
                                    OrNull(TrimOpt(masked)), confirmed == Some("on"))
    ensures location != BankUpdated ==> db.accounts == old(db.accounts)
  {
    var name := TrimOpt(bankName);
    location := BankUpdate(id, name, accountType,
                           id.Some? && Owns(db.accounts, id.value, session.userId.value), updateFails);
    if location == BankUpdated {
      db.UpdateAccount(id.value, name.value, accountType.value, OrNull(TrimOpt(masked)), confirmed == Some("on"));
    }
  }

  /** `SELECT COUNT(*) FROM transactions WHERE bank_account_id = $1 AND user_id = $2`. */
  function AccountUsage(rows: seq<TxRow>, id: int, userId: int): (n: nat)
    ensures n <= |rows|
    ensures n == 0 <==> forall i :: 0 <= i < |rows| ==> !(rows[i].bankAccountId == id && rows[i].userId == userId)
  {
    if rows == [] then 0
    else
      var rest := AccountUsage(rows[1..], id, userId);
      assert forall i :: 1 <= i < |rows| ==> rows[i] == rows[1..][i - 1];
      (if rows[0].bankAccountId == id && rows[0].userId == userId then 1 else 0) + rest
  }

  /** `DELETE FROM bank_accounts WHERE id = $1 AND user_id = $2`. */
  function WithoutAccount(accounts: seq<BankAccountRow>, id: int, userId: int): (r: seq<BankAccountRow>)
    ensures forall a :: a in r <==> a in accounts && !(a.id == id && a.userId == userId)
    ensures |r| <= |accounts|
  {
    if accounts == [] then []
    else
      var head := if accounts[0].id == id && accounts[0].userId == userId then [] else [accounts[0]];
      head + WithoutAccount(accounts[1..], id, userId)
  }

  /** POST /ops/banks/:id/delete. Only the user's own transactions on that account block
      the deletion; the success message is given even when the user owns no such account. */
  method DeleteBank(session: Session, db: Database, table: TransactionTable, id: Option<int>, deleteFails: bool)
    returns (location: Redirect)
    requires session.SignedIn() && db.Valid()
    modifies db
    ensures db.Valid()
    ensures db.countries == old(db.countries) && db.categories == old(db.categories) && db.uploads == old(db.uploads)
    ensures id.None? ==> location == InvalidBankAccount
    ensures id.Some? && AccountUsage(table.rows, id.value, session.userId.value) > 0 ==> location == BankInUse
    ensures location == BankDeleted <==>
      id.Some? && AccountUsage(table.rows, id.value, session.userId.value) == 0 && !deleteFails
    ensures location == BankDeleted ==> db.accounts == WithoutAccount(old(db.accounts), id.value, session.userId.value)
    ensures location != BankDeleted ==> db.accounts == old(db.accounts)
  {
    if id.None? {
      return InvalidBankAccount;
    }
    if AccountUsage(table.rows, id.value, session.userId.value) > 0 {
      return BankInUse;
    }
    if deleteFails {
      return BankDeleteFailed;
    }
    db.accounts := WithoutAccount(db.accounts, id.value, session.userId.value);
    location := BankDeleted;
  }
}
