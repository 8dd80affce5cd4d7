/** db/ai-messages.js: the messages of the assistant's conversations. `NOW()` is the
    table's own clock, which every insert reads and then advances, so creation times
    grow along the table. */
module AiMessages {
  import opened Common
  import opened AiConversations

  /** A stored message. There is no column for a tool-call id. */
  datatype Message = Message(id: int, conversationId: int, role: string, content: string,
                             toolName: Option<string>, toolPayload: Option<string>, createdAt: int)

  /** Rows listed by strictly increasing creation time. */
  predicate Chronological(s: seq<Message>) {
    forall i, j :: 0 <= i < j < |s| ==> s[i].createdAt < s[j].createdAt
  }

  class MessageTable {
    var rows: seq<Message>
    var nextId: int
    var clock: int

    predicate Valid()
      reads this
    {
      Chronological(rows) && (forall k :: 0 <= k < |rows| ==> rows[k].id < nextId && rows[k].createdAt < clock)
    }

    constructor ()
      ensures Valid() && rows == []
    {
      rows := [];
      nextId := 1;
      clock := 0;
    }

    /** `addMessage(conversationId, role, content, toolName = null, toolPayload = null)`:
        appends one row and returns it. */
    method AddMessage(conversationId: int, role: string, content: string,
                      toolName: Option<string>, toolPayload: Option<string>)
      returns (m: Message)
      requires Valid()
      modifies this
      ensures Valid()
      ensures m == Message(old(nextId), conversationId, role, content, toolName, toolPayload, old(clock))
      ensures rows == old(rows) + [m]
    {
      m := Message(nextId, conversationId, role, content, toolName, toolPayload, clock);
      rows := rows + [m];
      nextId := nextId + 1;
      clock := clock + 1;
    }
  }

  /** `getMessages(conversationId)`: that conversation's rows, oldest first. */
  function GetMessages(rows: seq<Message>, conversationId: int): (r: seq<Message>)
    ensures forall m :: m in r <==> m in rows && m.conversationId == conversationId
    ensures |r| <= |rows|
    ensures Chronological(rows) ==> Chronological(r)
  {
    if rows == [] then []
    else
      var rest := GetMessages(rows[1..], conversationId);
      assert forall k :: 1 <= k < |rows| ==> rows[1..][k - 1] == rows[k];
      assert forall m :: m in rest ==> m in rows[1..];
      (if rows[0].conversationId == conversationId then [rows[0]] else []) + rest
  }

  function Reverse<T>(s: seq<T>): (r: seq<T>)
    ensures |r| == |s|
    ensures forall i :: 0 <= i < |s| ==> r[i] == s[|s| - 1 - i]
  {
    if s == [] then [] else Reverse(s[1..]) + [s[0]]
  }

  /** `getRecentMessages(conversationId, limit = 20)`: newest first, `LIMIT`, then
      reversed; that is the last `limit` messages of the conversation, oldest first. */
  function GetRecentMessages(rows: seq<Message>, conversationId: int, limit: Option<nat>): (r: seq<Message>)
    ensures var all := GetMessages(rows, conversationId);
      |r| == (if |all| <= limit.GetOr(20) then |all| else limit.GetOr(20)) && r == all[|all| - |r|..]
  {
    var all := GetMessages(rows, conversationId);
    var r := Reverse(Take(Reverse(all), limit.GetOr(20)));
    assert r == all[|all| - |r|..];
    r
  }
}
