/** The chat objects the dashboard, the sidebar and the chat panel share, and
    the list transforms the components apply to the chat history: `find` by
    id, retitle by id, remove by id, append a message to the chat with an id,
    and the first chat without messages. */
module ChatList {
  import opened Wrappers
  import opened JsStrings
  import opened JsArrays
  import FileProcessing

  /** Chat ids: the clock value `Date.now()` (the plain dashboard), the
      temporary `temp-<clock>` id, and an id assigned by the database. */
  datatype ChatId = NumericId(stamp: nat) | TempId(tempStamp: nat) | SavedId(key: string)

  /** The text the application uses for an id. */
  function IdText(id: ChatId): string
  {
    match id
    case NumericId(n) => NatToString(n)
    case TempId(n) => "temp-" + NatToString(n)
    case SavedId(k) => k
  }

  /** Distinct clock values give distinct temporary ids, so temporary ids can
      be modelled by their clock value. */
  lemma TempIdTextInjective(m: nat, n: nat)
    requires IdText(TempId(m)) == IdText(TempId(n))
    ensures m == n
  {
    assert NatToString(m) == IdText(TempId(m))[5..];
    assert NatToString(n) == IdText(TempId(n))[5..];
    NatToStringInjective(m, n);
  }

  /** A chat message; its time-of-day text is not modelled. */
  datatype Message = Message(id: nat, text: string, sender: string)

  /** A chat as the components hold it. `isTemporary` is absent (false) in the
      plain dashboard, and `file` is the document the chat is about. */
  datatype Chat = Chat(id: ChatId, title: string, messages: seq<Message>, isTemporary: bool,
                       file: Option<FileProcessing.File>)

  const WelcomeTitle := "Welcome Chat"
  const NewChatTitle := "New Chat"
  const UploadTitlePrefix := "Chat about "

  /** `Chat about ${file.name}` */
  function UploadTitle(fileName: string): (title: string)
    ensures StartsWith(title, UploadTitlePrefix) && title[|UploadTitlePrefix|..] == fileName
  {
    UploadTitlePrefix + fileName
  }

  /** `title || \`Chat ${chatHistory.length + 1}\``: an absent or empty title
      falls back to the numbered default. */
  function TitleOrDefault(title: Option<string>, historyLength: nat): (chosen: string)
    ensures title.Some? && title.value != "" ==> chosen == title.value
    ensures title.None? || title.value == "" ==>
              StartsWith(chosen, "Chat ") && chosen[5..] == NatToString(historyLength + 1)
  {
    if title.Some? && title.value != "" then title.value else "Chat " + NatToString(historyLength + 1)
  }

  function HasId(id: ChatId): Chat -> bool
  {
    (c: Chat) => c.id == id
  }

  function LacksId(id: ChatId): Chat -> bool
  {
    (c: Chat) => c.id != id
  }

  /** `chat.messages.length === 0` */
  function HasNoMessages(): Chat -> bool
  {
    (c: Chat) => |c.messages| == 0
  }

  function WithTitle(title: string): Chat -> Chat
  {
    (c: Chat) => c.(title := title)
  }

  function WithMessage(m: Message): Chat -> Chat
  {
    (c: Chat) => c.(messages := c.messages + [m])
  }

  predicate UniqueIds(chats: seq<Chat>)
  {
    forall i, j :: 0 <= i < j < |chats| ==> chats[i].id != chats[j].id
  }

  /** No chat of the list has the id. */
  predicate IdUnused(chats: seq<Chat>, id: ChatId)
  {
    forall i :: 0 <= i < |chats| ==> chats[i].id != id
  }

  /** `chatHistory.find(chat => chat.id === id)` */
  function FindChat(chats: seq<Chat>, id: ChatId): Option<Chat>
  {
    Find(chats, HasId(id))
  }

  /** `chatHistory.map(chat => chat.id === id ? { ...chat, title } : chat)` */
  function Retitle(chats: seq<Chat>, id: ChatId, title: string): seq<Chat>
  {
    UpdateWhere(chats, HasId(id), WithTitle(title))
  }

  /** `chatHistory.filter(chat => chat.id !== id)` */
  function RemoveChat(chats: seq<Chat>, id: ChatId): seq<Chat>
  {
    Filter(chats, LacksId(id))
  }

  /** `chatHistory.map(chat => chat.id === id ? { ...chat, messages: [...chat.messages, m] } : chat)` */
  function AppendMessage(chats: seq<Chat>, id: ChatId, m: Message): seq<Chat>
  {
    UpdateWhere(chats, HasId(id), WithMessage(m))
  }

  /** The position of the chat with an id in a list of unique ids. */
  lemma FindChatAt(chats: seq<Chat>, k: nat)
    requires UniqueIds(chats) && k < |chats|
    ensures FindChat(chats, chats[k].id) == Some(chats[k])
    ensures FindIndex(chats, HasId(chats[k].id)) == Some(k)
  {
  }

  /** Retitling changes the title of the chat with that id and nothing else. */
  lemma RetitleChangesOnlyThatTitle(chats: seq<Chat>, k: nat, title: string)
    requires UniqueIds(chats) && k < |chats|
    ensures Retitle(chats, chats[k].id, title) == chats[k := chats[k].(title := title)]
  {
  }

  /** Retitling an id no chat has changes nothing. */
  lemma RetitleUnknownKeepsAll(chats: seq<Chat>, id: ChatId, title: string)
    requires IdUnused(chats, id)
    ensures Retitle(chats, id, title) == chats
  {
  }

  /** Appending puts the message last in the chat with that id; every other
      chat, and every other field of that chat, is unchanged. */
  lemma AppendGoesToThatChatOnly(chats: seq<Chat>, k: nat, m: Message)
    requires UniqueIds(chats) && k < |chats|
    ensures AppendMessage(chats, chats[k].id, m) == chats[k := chats[k].(messages := chats[k].messages + [m])]
  {
  }

  /** Removing the chat with an id takes out exactly that chat and keeps the
      others in order. */
  lemma RemoveTakesOutThatChat(chats: seq<Chat>, k: nat)
    requires UniqueIds(chats) && k < |chats|
    ensures RemoveChat(chats, chats[k].id) == chats[..k] + chats[k + 1..]
  {
    FilterDropsOne(chats, LacksId(chats[k].id), k);
  }

  /** Removing an id no chat has changes nothing. */
  lemma RemoveUnknownKeepsAll(chats: seq<Chat>, id: ChatId)
    requires IdUnused(chats, id)
    ensures RemoveChat(chats, id) == chats
  {
    FilterKeepsAll(chats, LacksId(id));
  }

  /** The transforms keep ids unique. */
  lemma TransformsKeepIdsUnique(chats: seq<Chat>, id: ChatId, title: string, m: Message)
    requires UniqueIds(chats)
    ensures UniqueIds(Retitle(chats, id, title))
    ensures UniqueIds(AppendMessage(chats, id, m))
    ensures UniqueIds(RemoveChat(chats, id))
  {
    match FindIndex(chats, HasId(id))
    case None =>
      RemoveUnknownKeepsAll(chats, id);
    case Some(k) =>
      RemoveTakesOutThatChat(chats, k);
      var rest := chats[..k] + chats[k + 1..];
      forall i | 0 <= i < |rest|
        ensures rest[i] == chats[if i < k then i else i + 1]
      {
      }
  }
}
