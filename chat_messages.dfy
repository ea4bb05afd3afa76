/**
 * The message view the report and export services build: each message joined
 * with its chat (a `$lookup` on `chat_id` followed by `$unwind`), and the
 * window query every one of them runs on it.
 *
 * The view's sort on the timestamp is not modelled: a query keeps the
 * collection's order.
 */
module ChatMessages {
  import opened Text

  /** The fields of a chat document the reports read; any may be missing. */
  datatype Chat = Chat(
    workspaceId: string,
    customerPhone: Option<string>,
    phoneNumber: Option<string>,
    customerName: Option<string>,
    status: Option<string>)

  /** A message joined with its chat. `timestamp` is in seconds. */
  datatype ChatMessage = ChatMessage(
    chatId: string,
    chat: Chat,
    direction: Option<string>,
    isAi: Option<bool>,
    content: Option<string>,
    messageType: Option<string>,
    timestamp: int)

  /** `d.get(key, default)`. */
  function Or(o: Option<string>, default: string): (r: string)
    ensures o.None? ==> r == default
  {
    if o.Some? then o.value else default
  }

  predicate Incoming(m: ChatMessage)
  {
    m.direction == Some("incoming")
  }

  /** `message.get("is_ai_generated")` is truthy. */
  predicate AiFlag(m: ChatMessage)
  {
    m.isAi == Some(true)
  }

  /**
   * Sender and receiver of a message: the customer sends what comes in, the
   * workspace's number sends the rest; a missing number reads "Unknown".
   */
  function Parties(m: ChatMessage): (string, string)
  {
    if Incoming(m) then (Or(m.chat.customerPhone, "Unknown"), Or(m.chat.phoneNumber, "Unknown"))
    else (Or(m.chat.phoneNumber, "Unknown"), Or(m.chat.customerPhone, "Unknown"))
  }

  /**
   * On one chat, an incoming and an outgoing message have sender and receiver
   * swapped, and either way the pair is the customer's number and the
   * workspace's.
   */
  lemma PartiesSwap(m: ChatMessage, n: ChatMessage)
    requires m.chat == n.chat && Incoming(m) && !Incoming(n)
    ensures Parties(m).0 == Parties(n).1 && Parties(m).1 == Parties(n).0
    ensures Parties(m).0 == Or(m.chat.customerPhone, "Unknown")
    ensures Parties(n).0 == Or(n.chat.phoneNumber, "Unknown")
    ensures multiset{Parties(m).0, Parties(m).1} ==
      multiset{Or(m.chat.customerPhone, "Unknown"), Or(m.chat.phoneNumber, "Unknown")}
  {
  }

  /** The window query: the workspace's messages from `since` on (`$gte`). */
  function Since(messages: seq<ChatMessage>, workspaceId: string, since: int): (r: seq<ChatMessage>)
    ensures |r| <= |messages|
    ensures forall m :: m in r <==> m in messages && m.chat.workspaceId == workspaceId && m.timestamp >= since
  {
    if messages == [] then []
    else
      var m := messages[0];
      (if m.chat.workspaceId == workspaceId && m.timestamp >= since then [m] else []) +
      Since(messages[1..], workspaceId, since)
  }

  /** A later start of the window never finds more messages. */
  lemma {:induction false} SinceMonotone(messages: seq<ChatMessage>, workspaceId: string, a: int, b: int)
    requires a <= b
    ensures |Since(messages, workspaceId, b)| <= |Since(messages, workspaceId, a)|
  {
    if messages != [] {
      SinceMonotone(messages[1..], workspaceId, a, b);
    }
  }
}
