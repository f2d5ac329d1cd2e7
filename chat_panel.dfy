/** The chat panel: which chat it shows, sending a message from its input
    box, and the simulated reply that follows a second later. The chat
    history is the dashboard's, updated through its setter; the panel's own
    state is the input text. Message ids and the timer are inputs: the reply
    is a separate step, `DeliverSimulatedReply`, taking what `SendMessage`
    scheduled. */
module ChatPanel {
  import opened Wrappers
  import opened JsStrings
  import opened JsArrays
  import opened ChatList
  import FileProcessing

  const UserSender := "user"
  const AiSender := "ai"

  /** The simulated reply's text, quoting the user's message. */
  function SimulatedReplyText(text: string): (reply: string)
    ensures Contains(reply, "\"" + text + "\"")
    ensures StartsWith(reply, "I received your message about ")
    ensures EndsWith(reply, "\". This is a simulated response.")
  {
    var quoted := "\"" + text + "\"";
    var reply := "I received your message about " + quoted + ". This is a simulated response.";
    assert reply[30..30 + |quoted|] == quoted;
    assert OccursAt(reply, quoted, 30);
    assert reply == "I received your message about \"" + text + ("\". This is a simulated response.");
    reply
  }

  /** `currentChat`: the chat with the active id, else the first chat, else none. */
  function CurrentChat(chats: seq<Chat>, activeChat: Option<ChatId>): (current: Option<Chat>)
    ensures activeChat.Some? && FindChat(chats, activeChat.value).Some? ==> current == FindChat(chats, activeChat.value)
    ensures (activeChat.None? || FindChat(chats, activeChat.value).None?) ==>
              current == if |chats| > 0 then Some(chats[0]) else None
    ensures current.Some? <==> |chats| > 0
  {
    var found := if activeChat.Some? then FindChat(chats, activeChat.value) else None;
    if found.Some? then found else if |chats| > 0 then Some(chats[0]) else None
  }

  /** With unique ids the panel shows the active chat whenever it exists. */
  lemma ShowsActiveChat(chats: seq<Chat>, k: nat)
    requires UniqueIds(chats) && k < |chats|
    ensures CurrentChat(chats, Some(chats[k].id)) == Some(chats[k])
  {
  }

  /** `startNewChat`: the title asked of the dashboard. */
  function NewChatTitleFor(file: Option<FileProcessing.File>): (title: string)
    ensures file.Some? ==> title == UploadTitle(file.value.name)
    ensures file.None? ==> title == NewChatTitle
  {
    if file.Some? then UploadTitle(file.value.name) else NewChatTitle
  }

  /** What `SendMessage` left for the timer: the chat id the reply goes to
      (none when the message went to no chat id) and the user's message. */
  datatype PendingReply = PendingReply(target: Option<ChatId>, userMessage: Message)

  class ChatPanelState {
    /** The input box. */
    var message: string
    /** The dashboard's chat history, as this panel updates it. */
    var chatHistory: seq<Chat>

    constructor(chats: seq<Chat>)
      ensures message == "" && chatHistory == chats
    {
      message := "";
      chatHistory := chats;
    }

    /** `handleSendMessage`. Blank input does nothing. Otherwise the message
        is appended to the chat with the active id and the input is cleared.
        With no active chat and no chats at all a "New Chat" is requested from
        the dashboard (`requested`), and the message goes to an id taken from
        the clock (`stamp`), which no chat held when the message was sent. */
    method SendMessage(activeChat: Option<ChatId>, messageId: nat, stamp: nat)
      returns (pending: Option<PendingReply>, requested: Option<string>)
      modifies this
      ensures IsBlank(old(message)) ==>
                pending == None && requested == None && message == old(message) && chatHistory == old(chatHistory)
      ensures !IsBlank(old(message)) ==>
                var userMessage := Message(messageId, old(message), UserSender);
                var target := if activeChat.None? && |old(chatHistory)| == 0 then Some(NumericId(stamp)) else activeChat;
                pending == Some(PendingReply(target, userMessage)) && message == "" &&
                requested == (if activeChat.None? && |old(chatHistory)| == 0 then Some(NewChatTitle) else None) &&
                chatHistory == (if target.Some? then AppendMessage(old(chatHistory), target.value, userMessage)
                                else old(chatHistory))
    {
      if IsBlank(message) {
        return None, None;
      }
      var targetChatId := activeChat;
      requested := None;
      if activeChat.None? && |chatHistory| == 0 {
        requested := Some(NewChatTitle);
        targetChatId := Some(NumericId(stamp));
      }
      var newMessage := Message(messageId, message, UserSender);
      if targetChatId.Some? {
        chatHistory := AppendMessage(chatHistory, targetChatId.value, newMessage);
      }
      message := "";
      pending := Some(PendingReply(targetChatId, newMessage));
    }

    /** The timer callback: the reply is appended to the same chat id. */
    method DeliverSimulatedReply(pending: PendingReply, replyId: nat)
      modifies this
      ensures message == old(message)
      ensures pending.target.Some? ==>
                chatHistory == AppendMessage(old(chatHistory), pending.target.value,
                                             Message(replyId, SimulatedReplyText(pending.userMessage.text), AiSender))
      ensures pending.target.None? ==> chatHistory == old(chatHistory)
    {
      var aiResponse := Message(replyId, SimulatedReplyText(pending.userMessage.text), AiSender);
      if pending.target.Some? {
        chatHistory := AppendMessage(chatHistory, pending.target.value, aiResponse);
      }
    }
  }

  /** Sending to an existing chat and delivering the reply adds exactly the
      user's message and then the reply, quoting it, at the end of that chat;
      every other chat is unchanged. */
  lemma ExchangeAppendsMessageThenReply(chats: seq<Chat>, k: nat, userMessage: Message, replyId: nat)
    requires UniqueIds(chats) && k < |chats|
    ensures var id := chats[k].id;
            var reply := Message(replyId, SimulatedReplyText(userMessage.text), AiSender);
            var after := AppendMessage(AppendMessage(chats, id, userMessage), id, reply);
            |after| == |chats| &&
            after[k].messages == chats[k].messages + [userMessage, reply] &&
            (forall j :: 0 <= j < |chats| && j != k ==> after[j] == chats[j]) &&
            Contains(after[k].messages[|after[k].messages| - 1].text, "\"" + userMessage.text + "\"")
  {
  }
}
