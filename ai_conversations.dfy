/** db/ai-conversations.js: the assistant's conversations table. `NOW()` is the table's
    own clock, which every write reads and then advances. */
module AiConversations {
  import opened Common
  import opened JsText

  datatype Conversation = Conversation(id: int, userId: int, title: Option<string>, pageRoute: Option<string>,
                                       createdAt: int, updatedAt: int)

  class ConversationTable {
    var rows: seq<Conversation>
    var nextId: int
    var clock: int

    /** Serial ids start at 1 and are never reused. */
    predicate Valid()
      reads this
    {
      1 <= nextId
      && (forall k :: 0 <= k < |rows| ==> 1 <= rows[k].id < nextId)
      && (forall j, k :: 0 <= j < k < |rows| ==> rows[j].id != rows[k].id)
    }

    constructor ()
      ensures Valid() && rows == []
    {
      rows := [];
      nextId := 1;
      clock := 0;
    }

    /** `createConversation(userId, { title, pageRoute })`: falsy title or route stored as null. */
    method CreateConversation(userId: int, title: Option<string>, pageRoute: Option<string>)
      returns (c: Conversation)
      requires Valid()
      modifies this
      ensures Valid()
      ensures c == Conversation(old(nextId), userId, OrNull(title), OrNull(pageRoute), old(clock), old(clock))
      ensures rows == old(rows) + [c]
      ensures c.id >= 1 && GetConversation(rows, userId, c.id) == Some(c)
      ensures clock == old(clock) + 1
    {
      c := Conversation(nextId, userId, OrNull(title), OrNull(pageRoute), clock, clock);
      rows := rows + [c];
      nextId := nextId + 1;
      clock := clock + 1;
      assert forall k :: 0 <= k < |rows| - 1 ==> rows[k].id != c.id;
      GetConversationFindsUnique(rows, userId, |rows| - 1);
    }

    /** `touchConversation(id)`: only `updatedAt` of the rows with that id changes. */
    method TouchConversation(id: int)
      requires Valid()
      modifies this
      ensures Valid()
      ensures rows == Touched(old(rows), id, old(clock))
      ensures nextId == old(nextId) && clock == old(clock) + 1
    {
      rows := Touched(rows, id, clock);
      clock := clock + 1;
    }

    /** `renameConversation(id, userId, title)`: the owned row gets the new title and
        `updatedAt`; nothing changes and null comes back when the user owns no such row. */
    method RenameConversation(id: int, userId: int, title: Option<string>) returns (r: Option<Conversation>)
      requires Valid()
      modifies this
      ensures Valid()
      ensures rows == Renamed(old(rows), id, userId, title, old(clock))
      ensures r.None? <==> GetConversation(old(rows), userId, id).None?
      ensures r.None? ==> rows == old(rows)
      ensures r.Some? ==> r == Some(GetConversation(old(rows), userId, id).value.(title := title, updatedAt := old(clock)))
      ensures nextId == old(nextId) && clock == old(clock) + 1
    {
      var before := rows;
      rows := Renamed(rows, id, userId, title, clock);
      var found := GetConversation(before, userId, id);
      if found.None? {
        RenameNothing(before, id, userId, title, clock);
        r := None;
      } else {
        r := Some(found.value.(title := title, updatedAt := clock));
      }
      clock := clock + 1;
    }
  }

  /** `getConversation(userId, id)`: a row only when both id and user match. */
  function GetConversation(rows: seq<Conversation>, userId: int, id: int): (r: Option<Conversation>)
    ensures r.Some? ==> r.value in rows && r.value.id == id && r.value.userId == userId
    ensures r.None? <==> forall k :: 0 <= k < |rows| ==> !(rows[k].id == id && rows[k].userId == userId)
  {
    if rows == [] then None
    else if rows[0].id == id && rows[0].userId == userId then Some(rows[0])
    else
      var r := GetConversation(rows[1..], userId, id);
      assert forall k :: 1 <= k < |rows| ==> rows[k] == rows[1..][k - 1];
      r
  }

  /** With distinct ids, the row a lookup finds is the one that has that id. */
  lemma {:induction false} GetConversationFindsUnique(rows: seq<Conversation>, userId: int, k: nat)
    requires k < |rows| && rows[k].userId == userId
    requires forall j :: 0 <= j < |rows| && j != k ==> rows[j].id != rows[k].id
    ensures GetConversation(rows, userId, rows[k].id) == Some(rows[k])
  {
    if k > 0 {
      assert rows[1..][k - 1] == rows[k];
      forall j | 0 <= j < |rows[1..]| && j != k - 1 ensures rows[1..][j].id != rows[1..][k - 1].id {
        assert rows[1..][j] == rows[j + 1];
      }
      GetConversationFindsUnique(rows[1..], userId, k - 1);
    }
  }

  function Touched(rows: seq<Conversation>, id: int, now: int): (r: seq<Conversation>)
    ensures |r| == |rows|
    ensures forall k :: 0 <= k < |rows| ==> r[k] == (if rows[k].id == id then rows[k].(updatedAt := now) else rows[k])
  {
    seq(|rows|, k requires 0 <= k < |rows| => if rows[k].id == id then rows[k].(updatedAt := now) else rows[k])
  }

  function Renamed(rows: seq<Conversation>, id: int, userId: int, title: Option<string>, now: int): (r: seq<Conversation>)
    ensures |r| == |rows|
    ensures forall k :: 0 <= k < |rows| ==>
      r[k] == (if rows[k].id == id && rows[k].userId == userId then rows[k].(title := title, updatedAt := now) else rows[k])
  {
    seq(|rows|, k requires 0 <= k < |rows| =>
      if rows[k].id == id && rows[k].userId == userId then rows[k].(title := title, updatedAt := now) else rows[k])
  }

  lemma RenameNothing(rows: seq<Conversation>, id: int, userId: int, title: Option<string>, now: int)
    requires GetConversation(rows, userId, id).None?
    ensures Renamed(rows, id, userId, title, now) == rows
  {
  }

  /** The rows of one user, in table order. */
  function OwnedBy(rows: seq<Conversation>, userId: int): (r: seq<Conversation>)
    ensures forall c :: c in r <==> c in rows && c.userId == userId
    ensures |r| <= |rows|
  {
    if rows == [] then []
    else (if rows[0].userId == userId then [rows[0]] else []) + OwnedBy(rows[1..], userId)
  }

  predicate NewestFirst(s: seq<Conversation>) {
    forall i, j :: 0 <= i < j < |s| ==> s[i].updatedAt >= s[j].updatedAt
  }

  lemma NewestFirstCons(c: Conversation, s: seq<Conversation>)
    requires NewestFirst(s)
    requires forall x :: x in s ==> x.updatedAt <= c.updatedAt
    ensures NewestFirst([c] + s)
  {
    forall i, j | 0 <= i < j < |[c] + s| ensures ([c] + s)[i].updatedAt >= ([c] + s)[j].updatedAt {
      if i == 0 {
        assert ([c] + s)[j] == s[j - 1] && s[j - 1] in s;
      } else {
        assert ([c] + s)[i] == s[i - 1] && ([c] + s)[j] == s[j - 1];
      }
    }
  }

  /** Inserting behind a newer head keeps the order: every row of the
      recursive result is the inserted one or a row behind the head. */
  lemma InsertBehindHead(c: Conversation, s: seq<Conversation>, rest: seq<Conversation>)
    requires s != [] && NewestFirst(s) && c.updatedAt < s[0].updatedAt
    requires NewestFirst(rest) && multiset(rest) == multiset(s[1..]) + multiset{c}
    ensures NewestFirst([s[0]] + rest) && multiset([s[0]] + rest) == multiset(s) + multiset{c}
  {
    assert s == [s[0]] + s[1..];
    forall x | x in rest ensures x.updatedAt <= s[0].updatedAt {
      assert x in multiset(rest);
      if x != c {
        assert x in multiset(s[1..]);
        var j :| 0 <= j < |s[1..]| && s[1..][j] == x;
        assert s[1..][j] == s[j + 1];
      }
    }
    NewestFirstCons(s[0], rest);
  }

  function InsertByUpdated(c: Conversation, s: seq<Conversation>): (r: seq<Conversation>)
    requires NewestFirst(s)
    ensures NewestFirst(r) && multiset(r) == multiset(s) + multiset{c}
    decreases |s|
  {
    if s == [] || c.updatedAt >= s[0].updatedAt then
      NewestFirstCons(c, s);
      [c] + s
    else
      var rest := InsertByUpdated(c, s[1..]);
      InsertBehindHead(c, s, rest);
      [s[0]] + rest
  }

  /** `ORDER BY updated_at DESC`. */
  function SortNewestFirst(s: seq<Conversation>): (r: seq<Conversation>)
    ensures NewestFirst(r) && multiset(r) == multiset(s)
  {
    if s == [] then []
    else
      assert s == [s[0]] + s[1..];
      InsertByUpdated(s[0], SortNewestFirst(s[1..]))
  }

  /** `LIMIT n`. */
  function Take<T>(s: seq<T>, n: nat): (r: seq<T>)
    ensures |r| == if |s| <= n then |s| else n
    ensures r == s[..|r|]
  {
    if |s| <= n then s else s[..n]
  }

  /** `listConversations(userId, limit = 20)`. */
  function ListConversations(rows: seq<Conversation>, userId: int, limit: Option<nat>): (r: seq<Conversation>)
    ensures |r| <= limit.GetOr(20)
    ensures forall c :: c in r ==> c in rows && c.userId == userId
    ensures NewestFirst(r)
    ensures |OwnedBy(rows, userId)| <= limit.GetOr(20) ==> multiset(r) == multiset(OwnedBy(rows, userId))
  {
    var sorted := SortNewestFirst(OwnedBy(rows, userId));
    var r := Take(sorted, limit.GetOr(20));
    forall c | c in r ensures c in rows && c.userId == userId {
      assert c in multiset(sorted);
    }
    assert |sorted| == |OwnedBy(rows, userId)| by {
      assert |multiset(sorted)| == |multiset(OwnedBy(rows, userId))|;
    }
    r
  }
}
