/** The rows of the PostgreSQL tables that the upload wizard and the category and
    bank-account pages read and write (transaction_categories, countries,
    bank_accounts, pdf_uploads), held as sequences in table order. The transactions
    table lives with its own operations in module TransactionsDb. */
module Tables {
  import opened Common

  datatype CategoryRow = CategoryRow(id: int, name: string, description: Option<string>, systemDefined: bool)

  datatype Country = Country(id: int, code: string, name: string, currencyCode: string)

  datatype BankAccountRow = BankAccountRow(
    id: int, userId: int, countryId: int, bankName: Option<string>, accountType: string,
    accountNumberMasked: Option<string>, currency: string, confirmed: bool)

  datatype PdfUploadRow = PdfUploadRow(
    userId: int, bankAccountId: int, fileName: string, bankDetected: Option<string>,
    transactionCount: nat, uploadStatus: string)

  /** The tables other than `transactions`, with the next value of each serial column. */
  class Database {
    var categories: seq<CategoryRow>
    var countries: seq<Country>
    var accounts: seq<BankAccountRow>
    var uploads: seq<PdfUploadRow>
    var nextCategoryId: int
    var nextAccountId: int

    /** Ids of the serial columns are never reused. */
    predicate Valid()
      reads this
    {
      (forall k :: 0 <= k < |categories| ==> categories[k].id < nextCategoryId)
      && (forall k :: 0 <= k < |accounts| ==> accounts[k].id < nextAccountId)
    }

    constructor (countries: seq<Country>)
      ensures Valid()
      ensures this.countries == countries && categories == [] && accounts == [] && uploads == []
    {
      this.countries := countries;
      categories := [];
      accounts := [];
      uploads := [];
      nextCategoryId := 1;
      nextAccountId := 1;
    }

    /** An INSERT into bank_accounts: the row takes the next serial id. */
    method AddAccount(row: BankAccountRow)
      requires Valid() && row.id == nextAccountId
      modifies this
      ensures Valid()
      ensures accounts == old(accounts) + [row] && nextAccountId == old(nextAccountId) + 1
      ensures categories == old(categories) && countries == old(countries) && uploads == old(uploads)
      ensures nextCategoryId == old(nextCategoryId)
    {
      accounts := accounts + [row];
      nextAccountId := nextAccountId + 1;
    }

    /** `UPDATE bank_accounts SET ... WHERE id = $5`. */
    method UpdateAccount(id: int, bankName: string, accountType: string, masked: Option<string>, confirmed: bool)
      requires Valid()
      modifies this
      ensures Valid() && accounts == UpdateAccounts(old(accounts), id, bankName, accountType, masked, confirmed)
      ensures categories == old(categories) && countries == old(countries) && uploads == old(uploads)
      ensures nextCategoryId == old(nextCategoryId) && nextAccountId == old(nextAccountId)
    {
      accounts := UpdateAccounts(accounts, id, bankName, accountType, masked, confirmed);
    }

    /** An INSERT into categories: the row takes the next serial id. */
    method AddCategory(row: CategoryRow)
      requires Valid() && row.id == nextCategoryId
      modifies this
      ensures Valid()
      ensures categories == old(categories) + [row] && nextCategoryId == old(nextCategoryId) + 1
      ensures accounts == old(accounts) && countries == old(countries) && uploads == old(uploads)
      ensures nextAccountId == old(nextAccountId)
    {
      categories := categories + [row];
      nextCategoryId := nextCategoryId + 1;
    }
  }

  /** The UPDATE of POST /ops/banks/:id/update, applied to every row with that id. */
  function UpdateAccounts(accounts: seq<BankAccountRow>, id: int, bankName: string, accountType: string,
                          masked: Option<string>, confirmed: bool): (r: seq<BankAccountRow>)
    ensures |r| == |accounts|
    ensures forall k :: 0 <= k < |r| ==> r[k].id == accounts[k].id && r[k].userId == accounts[k].userId
    ensures forall k :: 0 <= k < |r| && accounts[k].id != id ==> r[k] == accounts[k]
    ensures forall k :: 0 <= k < |r| && accounts[k].id == id ==>
      r[k] == accounts[k].(bankName := Some(bankName), accountType := accountType,
                           accountNumberMasked := masked, confirmed := confirmed)
  {
    seq(|accounts|, k requires 0 <= k < |accounts| =>
      if accounts[k].id == id
      then accounts[k].(bankName := Some(bankName), accountType := accountType,
                        accountNumberMasked := masked, confirmed := confirmed)
      else accounts[k])
  }

  /** `SELECT id FROM countries WHERE code = $1`, first row. */
  function CountryByCode(countries: seq<Country>, code: Option<string>): (r: Option<Country>)
    ensures r.Some? <==> code.Some? && exists k :: 0 <= k < |countries| && countries[k].code == code.value
    ensures r.Some? ==> r.value in countries && r.value.code == code.value
  {
    if code.None? || countries == [] then None
    else if countries[0].code == code.value then Some(countries[0])
    else
      var r := CountryByCode(countries[1..], code);
      assert forall k :: 1 <= k < |countries| ==> countries[k] == countries[1..][k - 1];
      r
  }
}
