/**
 * The dashboard's message list and the chat history derived from it for a follow-up question.
 * Both dashboard pages declare the same message type.
 */
module Chat {

  /** Who a message on the dashboard is from. */
  datatype Role = User | Assistant | System

  /** A message body: markdown text, or a rendered element (the loading skeleton). */
  datatype Content = Text(text: string) | Skeleton

  datatype Message = Message(role: Role, content: Content)

  /** The two roles the follow-up flow accepts. */
  datatype ChatRole = UserTurn | AssistantTurn

  /** One entry of the chat history sent with a follow-up question. */
  datatype ChatTurn = ChatTurn(role: ChatRole, content: string)

  /** What stands in for a message body that is not text. */
  const Elided := "..."

  /** One message as a turn of the chat history. */
  function ToTurn(m: Message): ChatTurn {
    ChatTurn(if m.role == User then UserTurn else AssistantTurn,
             if m.content.Text? then m.content.text else Elided)
  }

  /**
   * `messages.map(...)` into the chat history: one turn per message, in order, users kept as
   * users, every other role sent as the assistant, non-text bodies replaced by `"..."`.
   */
  function ChatHistory(messages: seq<Message>): (h: seq<ChatTurn>)
    ensures |h| == |messages|
    ensures forall k :: 0 <= k < |h| ==> (h[k].role == UserTurn <==> messages[k].role == User)
    ensures forall k :: 0 <= k < |h| ==>
              h[k].content == (if messages[k].content.Text? then messages[k].content.text else Elided)
    decreases |messages|
  {
    if messages == [] then [] else [ToTurn(messages[0])] + ChatHistory(messages[1..])
  }

  /** The history of a concatenation is the concatenation of the histories. */
  lemma {:induction false} ChatHistoryAppend(a: seq<Message>, b: seq<Message>)
    ensures ChatHistory(a + b) == ChatHistory(a) + ChatHistory(b)
    decreases |a|
  {
    if a != [] {
      assert (a + b)[1..] == a[1..] + b;
      ChatHistoryAppend(a[1..], b);
    }
  }
}
