/** The transactions table and its two operations (db/transactions.js): the
    check-then-insert loop of `insertTransactions` and `getCategoryByName`. */
module TransactionsDb {
  import opened Common
  import opened JsText
  import opened Tables

  /** One transaction object handed to `insertTransactions`. Absent properties are `None`. */
  datatype Candidate = Candidate(
    date: string, amount: int, currency: Option<string>, description: Option<string>,
    merchant: Option<string>, transactionType: Option<string>, categoryId: Option<int>)

  /** A row of `transactions`; SQL NULL is `None`. */
  datatype TxRow = TxRow(
    id: nat, userId: int, bankAccountId: int, date: string, amount: int, currency: string,
    description: Option<string>, merchant: Option<string>, transactionType: Option<string>,
    categoryId: Option<int>)

  /** The columns of `RETURNING id, transaction_date, amount, merchant, category_id`. */
  datatype Inserted = Inserted(id: nat, date: string, amount: int, merchant: Option<string>, categoryId: Option<int>)

  /** `category_id || null`: a missing or zero id is stored as NULL. */
  function CategoryOrNull(c: Option<int>): (r: Option<int>)
    ensures r.Some? <==> c.Some? && c.value != 0
    ensures r.Some? ==> r == c
  {
    if c.Some? && c.value != 0 then c else None
  }

  /** SQL `column = $k` for a string parameter: a NULL column is never equal. */
  predicate SqlEquals(column: Option<string>, param: string) {
    column == Some(param)
  }

  /** The WHERE clause of the duplicate check. It names the account, the date and the
      amount, and compares description and merchant with `|| ''` substituted, but not
      the user. */
  predicate IsDuplicateOf(row: TxRow, bankAccountId: int, c: Candidate) {
    row.bankAccountId == bankAccountId && row.date == c.date && row.amount == c.amount
    && (SqlEquals(row.description, OrElse(c.description, "")) || SqlEquals(row.merchant, OrElse(c.merchant, "")))
  }

  /** The duplicate-check query returns a row. */
  predicate HasDuplicate(rows: seq<TxRow>, bankAccountId: int, c: Candidate) {
    exists i :: 0 <= i < |rows| && IsDuplicateOf(rows[i], bankAccountId, c)
  }

  /** The row the INSERT stores for a candidate: currency defaults to 'GBP', a falsy
      category becomes NULL, and description, merchant and type are stored as given. */
  function NewRow(id: nat, userId: int, bankAccountId: int, c: Candidate): (r: TxRow)
    ensures r.id == id && r.userId == userId && r.bankAccountId == bankAccountId
    ensures r.date == c.date && r.amount == c.amount
    ensures Truthy(c.currency) ==> r.currency == c.currency.value
    ensures !Truthy(c.currency) ==> r.currency == "GBP"
    ensures r.description == c.description && r.merchant == c.merchant && r.transactionType == c.transactionType
    ensures r.categoryId != Some(0) && (r.categoryId.Some? ==> r.categoryId == c.categoryId)
  {
    TxRow(id, userId, bankAccountId, c.date, c.amount, OrElse(c.currency, "GBP"),
          c.description, c.merchant, c.transactionType, CategoryOrNull(c.categoryId))
  }

  function Returned(r: TxRow): Inserted {
    Inserted(r.id, r.date, r.amount, r.merchant, r.categoryId)
  }

  /** The table and the results list while the loop runs. */
  datatype Batch = Batch(rows: seq<TxRow>, nextId: nat, results: seq<Inserted>)

  /** One iteration: a candidate whose queries throw (`fails`) or that has a duplicate
      is skipped; otherwise one row is inserted and returned. */
  function Step(b: Batch, userId: int, bankAccountId: int, c: Candidate, fails: bool): Batch {
    if fails || HasDuplicate(b.rows, bankAccountId, c) then b
    else
      var row := NewRow(b.nextId, userId, bankAccountId, c);
      Batch(b.rows + [row], b.nextId + 1, b.results + [Returned(row)])
  }

  /** The loop over `cands`, candidates at the indices in `faults` throwing. */
  function Process(b: Batch, userId: int, bankAccountId: int, cands: seq<Candidate>, faults: set<nat>): Batch
    decreases |cands|
  {
    if cands == [] then b
    else
      var n := |cands| - 1;
      Step(Process(b, userId, bankAccountId, cands[..n], faults), userId, bankAccountId, cands[n], n in faults)
  }

  class TransactionTable {
    var rows: seq<TxRow>
    var nextId: nat

    constructor ()
      ensures rows == [] && nextId == 1
    {
      rows := [];
      nextId := 1;
    }

    /** `insertTransactions(userId, transactions, bankAccountId)`. `faults` holds the
        indices of the candidates whose queries throw; each is logged and dropped. */
    method InsertTransactions(userId: int, transactions: Option<seq<Candidate>>, bankAccountId: int, faults: set<nat>)
      returns (results: seq<Inserted>)
      modifies this
      ensures transactions.None? || transactions.value == [] ==>
        results == [] && rows == old(rows) && nextId == old(nextId)
      ensures transactions.Some? ==>
        Batch(rows, nextId, results)
        == Process(Batch(old(rows), old(nextId), []), userId, bankAccountId, transactions.value, faults)
    {
      if transactions.None? || |transactions.value| == 0 {
        return [];
      }
      var txs := transactions.value;
      results := [];
      var skippedDuplicates := 0;
      for i := 0 to |txs|
        invariant Batch(rows, nextId, results)
          == Process(Batch(old(rows), old(nextId), []), userId, bankAccountId, txs[..i], faults)
      {
        assert txs[..i + 1][..i] == txs[..i];
        if i in faults {
          continue;
        }
        if HasDuplicate(rows, bankAccountId, txs[i]) {
          skippedDuplicates := skippedDuplicates + 1;
          continue;
        }
        var row := NewRow(nextId, userId, bankAccountId, txs[i]);
        rows := rows + [row];
        nextId := nextId + 1;
        results := results + [Returned(row)];
      }
      assert txs[..|txs|] == txs;
    }
  }

  /** The loop only appends: the old rows stay as they were, at most one row per
      candidate is added, every added row is returned in insertion order, and ids are
      consecutive from the old next id. */
  lemma {:induction false} ProcessAppends(b: Batch, userId: int, bankAccountId: int, cands: seq<Candidate>, faults: set<nat>)
    ensures var r := Process(b, userId, bankAccountId, cands, faults);
      |b.rows| <= |r.rows| <= |b.rows| + |cands| && r.rows[..|b.rows|] == b.rows
      && |r.results| == |b.results| + (|r.rows| - |b.rows|) && r.results[..|b.results|] == b.results
      && r.nextId == b.nextId + (|r.rows| - |b.rows|)
      && (forall i :: |b.rows| <= i < |r.rows| ==>
            r.rows[i].id == b.nextId + (i - |b.rows|) && r.results[|b.results| + (i - |b.rows|)] == Returned(r.rows[i]))
    decreases |cands|
  {
    if cands != [] {
      var n := |cands| - 1;
      var p := Process(b, userId, bankAccountId, cands[..n], faults);
      ProcessAppends(b, userId, bankAccountId, cands[..n], faults);
      var r := Step(p, userId, bankAccountId, cands[n], n in faults);
      if r != p {
        assert r.rows == p.rows + [r.rows[|p.rows|]];
        assert r.rows[..|b.rows|] == p.rows[..|b.rows|];
        assert r.results[..|b.results|] == p.results[..|b.results|];
        assert forall i :: 0 <= i < |p.rows| ==> r.rows[i] == p.rows[i];
        assert forall i :: 0 <= i < |p.results| ==> r.results[i] == p.results[i];
      }
    }
  }

  /** Whether the loop inserts candidate `j`: its queries do not throw and the table as
      the loop has left it after the earlier candidates holds no duplicate of it. */
  predicate InsertedAtTurn(b: Batch, userId: int, bankAccountId: int, cands: seq<Candidate>, faults: set<nat>, j: nat)
    requires j < |cands|
  {
    j !in faults && !HasDuplicate(Process(b, userId, bankAccountId, cands[..j], faults).rows, bankAccountId, cands[j])
  }

  /** Whether a candidate was inserted does not depend on the candidates after it. */
  lemma InsertedAtTurnInPrefix(b: Batch, userId: int, bankAccountId: int, cands: seq<Candidate>, faults: set<nat>, n: nat, j: nat)
    requires j < n <= |cands|
    ensures InsertedAtTurn(b, userId, bankAccountId, cands[..n], faults, j)
      == InsertedAtTurn(b, userId, bankAccountId, cands, faults, j)
  {
    assert cands[..n][..j] == cands[..j];
  }

  /** The indices of the candidates the loop inserts, in input order. */
  function Picked(b: Batch, userId: int, bankAccountId: int, cands: seq<Candidate>, faults: set<nat>): seq<nat>
    decreases |cands|
  {
    if cands == [] then []
    else
      var n := |cands| - 1;
      Picked(b, userId, bankAccountId, cands[..n], faults)
        + (if InsertedAtTurn(b, userId, bankAccountId, cands, faults, n) then [n] else [])
  }

  /** The picked indices name the added rows one for one, in order. */
  lemma {:induction false} PickedRows(b: Batch, userId: int, bankAccountId: int, cands: seq<Candidate>, faults: set<nat>)
    ensures var r := Process(b, userId, bankAccountId, cands, faults);
      var picked := Picked(b, userId, bankAccountId, cands, faults);
      |picked| == |r.rows| - |b.rows|
      && (forall k :: 0 <= k < |picked| ==> (picked[k] < |cands| && picked[k] !in faults
            && r.rows[|b.rows| + k] == NewRow(b.nextId + k, userId, bankAccountId, cands[picked[k]])))
      && (forall k, m :: 0 <= k < m < |picked| ==> picked[k] < picked[m])
    decreases |cands|
  {
    if cands != [] {
      var n := |cands| - 1;
      var p := Process(b, userId, bankAccountId, cands[..n], faults);
      PickedRows(b, userId, bankAccountId, cands[..n], faults);
      ProcessAppends(b, userId, bankAccountId, cands[..n], faults);
      var r := Step(p, userId, bankAccountId, cands[n], n in faults);
      if r != p {
        assert r.rows[..|p.rows|] == p.rows;
      }
    }
  }

  /** A candidate is picked exactly when its turn inserted it. */
  lemma {:induction false} PickedIffInserted(b: Batch, userId: int, bankAccountId: int, cands: seq<Candidate>, faults: set<nat>)
    ensures forall j :: 0 <= j < |cands| ==>
      (j in Picked(b, userId, bankAccountId, cands, faults) <==> InsertedAtTurn(b, userId, bankAccountId, cands, faults, j))
    decreases |cands|
  {
    if cands != [] {
      var n := |cands| - 1;
      PickedIffInserted(b, userId, bankAccountId, cands[..n], faults);
      PickedBelow(b, userId, bankAccountId, cands[..n], faults);
      forall j | 0 <= j < n {
        InsertedAtTurnInPrefix(b, userId, bankAccountId, cands, faults, n, j);
      }
    }
  }

  lemma {:induction false} PickedBelow(b: Batch, userId: int, bankAccountId: int, cands: seq<Candidate>, faults: set<nat>)
    ensures forall k :: 0 <= k < |Picked(b, userId, bankAccountId, cands, faults)| ==>
      Picked(b, userId, bankAccountId, cands, faults)[k] < |cands|
    decreases |cands|
  {
    if cands != [] {
      PickedBelow(b, userId, bankAccountId, cands[..|cands| - 1], faults);
    }
  }

  /** Every added row is a candidate's row, candidates taken in input order; the
      candidates picked are exactly those that did not throw and had no duplicate when
      their turn came. */
  lemma AddedRowsFromCandidates(b: Batch, userId: int, bankAccountId: int, cands: seq<Candidate>, faults: set<nat>)
    returns (picked: seq<nat>)
    ensures var r := Process(b, userId, bankAccountId, cands, faults);
      |picked| == |r.rows| - |b.rows|
      && (forall k :: 0 <= k < |picked| ==> (picked[k] < |cands| && picked[k] !in faults
            && r.rows[|b.rows| + k] == NewRow(b.nextId + k, userId, bankAccountId, cands[picked[k]])))
      && (forall k, m :: 0 <= k < m < |picked| ==> picked[k] < picked[m])
    ensures forall j :: 0 <= j < |cands| ==>
      (j in picked <==> InsertedAtTurn(b, userId, bankAccountId, cands, faults, j))
  {
    picked := Picked(b, userId, bankAccountId, cands, faults);
    PickedRows(b, userId, bankAccountId, cands, faults);
    PickedIffInserted(b, userId, bankAccountId, cands, faults);
  }

  /** A candidate with a description or a merchant matches the row stored for it. */
  predicate MatchesOwnRow(c: Candidate) {
    c.description.Some? || c.merchant.Some?
  }

  /** Rows stay, so a duplicate stays a duplicate. */
  lemma DuplicateKept(rows: seq<TxRow>, more: seq<TxRow>, bankAccountId: int, c: Candidate)
    requires HasDuplicate(rows, bankAccountId, c)
    ensures HasDuplicate(rows + more, bankAccountId, c)
  {
    var i :| 0 <= i < |rows| && IsDuplicateOf(rows[i], bankAccountId, c);
    assert (rows + more)[i] == rows[i];
  }

  /** After the loop every candidate that did not throw and has a description or a
      merchant has a duplicate in the table: it was inserted, or it was skipped because
      of one. The check sees rows inserted earlier in the same call. */
  lemma {:induction false} ProcessedAreDuplicates(b: Batch, userId: int, bankAccountId: int, cands: seq<Candidate>, faults: set<nat>)
    ensures forall j :: 0 <= j < |cands| && j !in faults && MatchesOwnRow(cands[j]) ==>
      HasDuplicate(Process(b, userId, bankAccountId, cands, faults).rows, bankAccountId, cands[j])
    decreases |cands|
  {
    if cands != [] {
      var n := |cands| - 1;
      var p := Process(b, userId, bankAccountId, cands[..n], faults);
      ProcessedAreDuplicates(b, userId, bankAccountId, cands[..n], faults);
      var r := Step(p, userId, bankAccountId, cands[n], n in faults);
      forall j | 0 <= j < |cands| && j !in faults && MatchesOwnRow(cands[j])
        ensures HasDuplicate(r.rows, bankAccountId, cands[j])
      {
        if r != p {
          var row := r.rows[|p.rows|];
          assert r.rows == p.rows + [row];
          if j < n {
            assert cands[..n][j] == cands[j];
            DuplicateKept(p.rows, [row], bankAccountId, cands[j]);
          } else {
            assert IsDuplicateOf(row, bankAccountId, cands[j]);
          }
        } else if j < n {
          assert cands[..n][j] == cands[j];
        }
      }
    }
  }

  /** Two equal candidates in one batch, the second with a description or merchant:
      the second is skipped. */
  lemma SecondCopySkipped(b: Batch, userId: int, bankAccountId: int, cands: seq<Candidate>, faults: set<nat>, i: nat, j: nat)
    requires i < j < |cands| && cands[i] == cands[j] && i !in faults && MatchesOwnRow(cands[j])
    ensures Process(b, userId, bankAccountId, cands[..j + 1], faults) == Process(b, userId, bankAccountId, cands[..j], faults)
  {
    ProcessedAreDuplicates(b, userId, bankAccountId, cands[..j], faults);
    assert cands[..j][i] == cands[i];
    assert cands[..j + 1][..j] == cands[..j];
  }

  /** Re-running the loop on a table where every candidate already has a duplicate
      inserts nothing. */
  lemma {:induction false} AllDuplicatesInsertNothing(b: Batch, userId: int, bankAccountId: int, cands: seq<Candidate>, faults: set<nat>)
    requires forall j :: 0 <= j < |cands| ==> HasDuplicate(b.rows, bankAccountId, cands[j])
    ensures Process(b, userId, bankAccountId, cands, faults) == b
    decreases |cands|
  {
    if cands != [] {
      var n := |cands| - 1;
      assert forall j :: 0 <= j < n ==> cands[..n][j] == cands[j];
      AllDuplicatesInsertNothing(b, userId, bankAccountId, cands[..n], faults);
    }
  }

  /** Importing the same batch twice: when the first import had no failures and every
      candidate has a description or a merchant, the second import inserts and returns
      nothing. */
  lemma ReimportInsertsNothing(rows: seq<TxRow>, nextId: nat, userId: int, bankAccountId: int, cands: seq<Candidate>)
    requires forall j :: 0 <= j < |cands| ==> MatchesOwnRow(cands[j])
    ensures var first := Process(Batch(rows, nextId, []), userId, bankAccountId, cands, {});
      Process(Batch(first.rows, first.nextId, []), userId, bankAccountId, cands, {})
      == Batch(first.rows, first.nextId, [])
  {
    var first := Process(Batch(rows, nextId, []), userId, bankAccountId, cands, {});
    ProcessedAreDuplicates(Batch(rows, nextId, []), userId, bankAccountId, cands, {});
    AllDuplicatesInsertNothing(Batch(first.rows, first.nextId, []), userId, bankAccountId, cands, {});
  }

  /** The other side: a candidate with neither description nor merchant is compared
      with '' on both columns, which never equals the NULLs stored for it, so it is
      inserted again on every import unless some row stores an empty string there. */
  lemma NullTextNotDuplicate(rows: seq<TxRow>, bankAccountId: int, c: Candidate)
    requires c.description.None? && c.merchant.None?
    requires forall i :: 0 <= i < |rows| ==> rows[i].description != Some("") && rows[i].merchant != Some("")
    ensures !HasDuplicate(rows, bankAccountId, c)
  {
  }

  /** The concrete case: one candidate without description or merchant, imported twice,
      gives two rows. */
  lemma NullTextImportedTwice(userId: int, bankAccountId: int, c: Candidate)
    requires c.description.None? && c.merchant.None?
    ensures var first := Process(Batch([], 1, []), userId, bankAccountId, [c], {});
      |Process(Batch(first.rows, first.nextId, []), userId, bankAccountId, [c], {}).rows| == 2
  {
    var first := Process(Batch([], 1, []), userId, bankAccountId, [c], {});
    assert [c][..0] == [];
    assert Process(Batch([], 1, []), userId, bankAccountId, [c][..0], {}) == Batch([], 1, []);
    assert !HasDuplicate([], bankAccountId, c);
    assert first.rows == [NewRow(1, userId, bankAccountId, c)];
    NullTextNotDuplicate(first.rows, bankAccountId, c);
  }

  /** The duplicate check never looks at the user: whether a candidate is skipped is the
      same for every `userId`. */
  lemma SkipIgnoresUser(b: Batch, u1: int, u2: int, bankAccountId: int, c: Candidate, fails: bool)
    ensures (Step(b, u1, bankAccountId, c, fails) == b) <==> (Step(b, u2, bankAccountId, c, fails) == b)
  {
    if !fails && !HasDuplicate(b.rows, bankAccountId, c) {
      assert |Step(b, u1, bankAccountId, c, fails).rows| == |b.rows| + 1;
      assert |Step(b, u2, bankAccountId, c, fails).rows| == |b.rows| + 1;
    }
  }

  /** The position of the first category whose lower-cased name equals the lower-cased
      argument, or the length of the table when there is none. */
  function FirstNameMatch(categories: seq<CategoryRow>, name: string): (k: nat)
    ensures k <= |categories|
    ensures forall j :: 0 <= j < k ==> LowerString(categories[j].name) != LowerString(name)
    ensures k < |categories| ==> LowerString(categories[k].name) == LowerString(name)
  {
    if categories == [] then 0
    else if LowerString(categories[0].name) == LowerString(name) then 0
    else
      var k := FirstNameMatch(categories[1..], name);
      assert forall j :: 1 <= j < |categories| ==> categories[1..][j - 1] == categories[j];
      k + 1
  }

  /** `getCategoryByName(name)`: the first category whose lower-cased name equals the
      lower-cased argument, or `undefined`. */
  function GetCategoryByName(categories: seq<CategoryRow>, name: string): (r: Option<int>)
    ensures r.None? <==> forall k :: 0 <= k < |categories| ==> LowerString(categories[k].name) != LowerString(name)
    ensures r.Some? ==> exists k :: (0 <= k < |categories| && categories[k].id == r.value
      && LowerString(categories[k].name) == LowerString(name)
      && forall j :: 0 <= j < k ==> LowerString(categories[j].name) != LowerString(name))
  {
    var k := FirstNameMatch(categories, name);
    if k == |categories| then None else Some(categories[k].id)
  }

  /** Name lookup ignores ASCII case. */
  lemma CategoryLookupIgnoresCase(categories: seq<CategoryRow>, a: string, b: string)
    requires LowerString(a) == LowerString(b)
    ensures GetCategoryByName(categories, a) == GetCategoryByName(categories, b)
  {
    if categories != [] {
      CategoryLookupIgnoresCase(categories[1..], a, b);
    }
  }
}
