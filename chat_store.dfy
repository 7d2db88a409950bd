/**
 * lib/types/chat.ts and lib/stores/chatStore.ts: the chat message list. As
 * with the other stores, the store object is a class whose one field is the
 * list every action replaces; the message id and the clock are parameters.
 * The ISO timestamp string is modelled by the instant it prints, in ms.
 */
module ChatStore {
  import opened Wrappers
  import opened Seqs

  datatype MessageRole = User | Assistant | System

  datatype ChatMessage = ChatMessage(id: string, role: MessageRole, content: string, timestamp: int)

  /** updateMessage's list: the messages carrying `id` get the new content and timestamp. */
  function UpdateIn(messages: seq<ChatMessage>, id: string, content: string, nowMs: int): (r: seq<ChatMessage>)
    ensures |r| == |messages|
    ensures forall i :: 0 <= i < |r| ==> r[i].id == messages[i].id && r[i].role == messages[i].role
    ensures forall i :: 0 <= i < |r| && messages[i].id != id ==> r[i] == messages[i]
    ensures forall i :: 0 <= i < |r| && messages[i].id == id ==>
      r[i].content == content && r[i].timestamp == nowMs
  {
    seq(|messages|, i requires 0 <= i < |messages| =>
      if messages[i].id == id then messages[i].(content := content, timestamp := nowMs)
      else messages[i])
  }

  /** Updating twice with the same content at the same instant is updating once. */
  lemma UpdateIdempotent(messages: seq<ChatMessage>, id: string, content: string, nowMs: int)
    ensures UpdateIn(UpdateIn(messages, id, content, nowMs), id, content, nowMs)
         == UpdateIn(messages, id, content, nowMs)
  {
  }

  function HasOtherId(id: string): ChatMessage -> bool
  {
    (m: ChatMessage) => m.id != id
  }

  /** deleteMessage's list: the messages whose id differs, in their order. */
  function DeleteIn(messages: seq<ChatMessage>, id: string): (r: seq<ChatMessage>)
    ensures |r| <= |messages|
    ensures forall i :: 0 <= i < |r| ==> r[i] in messages && r[i].id != id
    ensures forall i {:trigger messages[i] in r} :: 0 <= i < |messages| && messages[i].id != id ==> messages[i] in r
    ensures PicksAt(r, messages, Kept(messages, HasOtherId(id)))
  {
    FilterPicks(messages, HasOtherId(id));
    Filter(messages, HasOtherId(id))
  }

  /** Deleting an id no message carries changes nothing. */
  lemma DeleteAbsent(messages: seq<ChatMessage>, id: string)
    requires forall i :: 0 <= i < |messages| ==> messages[i].id != id
    ensures DeleteIn(messages, id) == messages
  {
    FilterAll(messages, HasOtherId(id));
  }

  /** getLastMessage: `messages[messages.length - 1]`, undefined for the empty list. */
  function LastMessage(messages: seq<ChatMessage>): (r: Option<ChatMessage>)
    ensures r.None? <==> messages == []
    ensures r.Some? ==> r.value == messages[|messages| - 1]
  {
    At(messages, |messages| - 1)
  }

  function HasRole(role: MessageRole): ChatMessage -> bool
  {
    (m: ChatMessage) => m.role == role
  }

  /** getMessagesByRole: exactly the messages with that role, in order. */
  function MessagesByRole(messages: seq<ChatMessage>, role: MessageRole): (r: seq<ChatMessage>)
    ensures forall i :: 0 <= i < |r| ==> r[i] in messages && r[i].role == role
    ensures forall i {:trigger messages[i] in r} :: 0 <= i < |messages| && messages[i].role == role ==> messages[i] in r
    ensures PicksAt(r, messages, Kept(messages, HasRole(role)))
  {
    FilterPicks(messages, HasRole(role));
    Filter(messages, HasRole(role))
  }

  /** Every message has exactly one role: the three role lists together are as long as the list. */
  lemma {:induction false} RolesPartition(messages: seq<ChatMessage>)
    ensures |MessagesByRole(messages, User)| + |MessagesByRole(messages, Assistant)|
          + |MessagesByRole(messages, System)| == |messages|
  {
    if messages != [] {
      RolesPartition(messages[..|messages| - 1]);
    }
  }

  /** selectConversationHistory: `slice(-10)`, the last min(10, n) messages. */
  function ConversationHistory(messages: seq<ChatMessage>): (r: seq<ChatMessage>)
    ensures |r| == if |messages| < 10 then |messages| else 10
    ensures messages == messages[..|messages| - |r|] + r
  {
    var start := if |messages| < 10 then 0 else |messages| - 10;
    messages[start..]
  }

  /** The window slides: after a new message the oldest of a full window drops out. */
  lemma HistoryAfterAdd(messages: seq<ChatMessage>, m: ChatMessage)
    ensures ConversationHistory(messages + [m])
         == (if |messages| < 10 then messages else ConversationHistory(messages)[1..]) + [m]
  {
  }

  /** selectHasUnreadAssistantMessage: the last message exists and came from the assistant. */
  function HasUnreadAssistantMessage(messages: seq<ChatMessage>): (r: bool)
    ensures r <==> |messages| > 0 && messages[|messages| - 1].role == Assistant
  {
    var last := LastMessage(messages);
    last.Some? && last.value.role == Assistant
  }

  class Store {
    var messages: seq<ChatMessage>

    /** `initialMessages` is empty. */
    constructor()
      ensures messages == []
    {
      messages := [];
    }

    /** addMessage: appends one message with the fresh id and the current instant. */
    method AddMessage(role: MessageRole, content: string, freshId: string, nowMs: int) returns (id: string)
      modifies this
      ensures id == freshId
      ensures messages == old(messages) + [ChatMessage(freshId, role, content, nowMs)]
    {
      var newMessage := ChatMessage(freshId, role, content, nowMs);
      messages := messages + [newMessage];
      id := newMessage.id;
    }

    method UpdateMessage(id: string, content: string, nowMs: int)
      modifies this
      ensures messages == UpdateIn(old(messages), id, content, nowMs)
    {
      messages := UpdateIn(messages, id, content, nowMs);
    }

    method DeleteMessage(id: string)
      modifies this
      ensures messages == DeleteIn(old(messages), id)
    {
      messages := DeleteIn(messages, id);
    }

    method ClearMessages()
      modifies this
      ensures messages == []
    {
      messages := [];
    }

    function GetLastMessage(): (r: Option<ChatMessage>)
      reads this
      ensures r.None? <==> messages == []
      ensures r.Some? ==> r.value == messages[|messages| - 1]
    {
      LastMessage(messages)
    }

    function GetMessagesByRole(role: MessageRole): (r: seq<ChatMessage>)
      reads this
      ensures forall i :: 0 <= i < |r| ==> r[i] in messages && r[i].role == role
      ensures forall i {:trigger messages[i] in r} :: 0 <= i < |messages| && messages[i].role == role ==> messages[i] in r
      ensures PicksAt(r, messages, Kept(messages, HasRole(role)))
    {
      MessagesByRole(messages, role)
    }

    method ResetStore()
      modifies this
      ensures messages == []
    {
      messages := [];
    }

    function SelectConversationHistory(): (r: seq<ChatMessage>)
      reads this
      ensures |r| == if |messages| < 10 then |messages| else 10
      ensures messages == messages[..|messages| - |r|] + r
    {
      ConversationHistory(messages)
    }

    function SelectHasUnreadAssistantMessage(): (r: bool)
      reads this
      ensures r <==> |messages| > 0 && messages[|messages| - 1].role == Assistant
    {
      HasUnreadAssistantMessage(messages)
    }
  }

  /** After addMessage the new message is the last one, and unread iff the assistant sent it. */
  lemma LastAfterAdd(messages: seq<ChatMessage>, m: ChatMessage)
    ensures LastMessage(messages + [m]) == Some(m)
    ensures HasUnreadAssistantMessage(messages + [m]) <==> m.role == Assistant
  {
  }
}
