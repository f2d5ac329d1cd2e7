/** The browser-storage chat service: each user's chats are one entry of the
    key-value store under `cognichats_history_<userId>`. An entry holds the
    chats as they were last written (JSON encoding and decoding are taken to
    round-trip) or text that does not parse. Chat and message ids, the
    timestamps and the signed-in user are inputs. */
module ChatStore {
  import opened Wrappers
  import opened JsStrings
  import opened JsArrays

  const KeyPrefix := "cognichats_history"

  /** `${this.localStorageKey}_${userId}` */
  function StorageKey(userId: string): (key: string)
    ensures StartsWith(key, KeyPrefix + "_") && key[|KeyPrefix| + 1..] == userId
  {
    KeyPrefix + "_" + userId
  }

  /** Different users never share an entry. */
  lemma StorageKeyInjective(u: string, v: string)
    requires StorageKey(u) == StorageKey(v)
    ensures u == v
  {
  }

  /** A message as stored and as returned to the caller; the time-of-day
      text is not modelled. */
  datatype StoredMessage = StoredMessage(id: string, text: string, sender: string, model: Option<string>, error: bool)

  /** A stored chat. `messages` is absent for a chat written without them. */
  datatype StoredChat = StoredChat(id: string, userId: string, title: string, fileId: Option<string>,
                                   messages: Option<seq<StoredMessage>>)

  /** An entry of the store: chats, or text that `JSON.parse` rejects
      (including the empty string, which reads as missing). */
  datatype Entry = Chats(chats: seq<StoredChat>) | Unparseable(text: string)

  /** The optional `metadata` of `saveMessage`. */
  datatype Metadata = Metadata(model: Option<string>, error: Option<bool>)

  /** `metadata.model || null`: an empty model name counts as absent. */
  function ModelOrNull(metadata: Metadata): (model: Option<string>)
    ensures model.Some? <==> metadata.model.Some? && metadata.model.value != ""
    ensures model.Some? ==> model == metadata.model
  {
    if metadata.model.Some? && metadata.model.value != "" then metadata.model else None
  }

  /** `metadata.error || false` */
  function ErrorOrFalse(metadata: Metadata): (error: bool)
    ensures error <==> metadata.error == Some(true)
  {
    metadata.error == Some(true)
  }

  /** `getUserChats(userId)` on a given store: the stored chats, or none when
      the entry is missing or does not parse. */
  function ChatsIn(storage: map<string, Entry>, userId: string): (chats: seq<StoredChat>)
    ensures StorageKey(userId) !in storage ==> chats == []
    ensures StorageKey(userId) in storage && storage[StorageKey(userId)].Unparseable? ==> chats == []
    ensures StorageKey(userId) in storage && storage[StorageKey(userId)].Chats? ==>
              chats == storage[StorageKey(userId)].chats
  {
    var key := StorageKey(userId);
    if key in storage && storage[key].Chats? then storage[key].chats else []
  }

  /** Writing one user's entry leaves every other user's chats as they were. */
  lemma WritesStayWithTheirUser(storage: map<string, Entry>, u: string, v: string, e: Entry)
    requires u != v
    ensures ChatsIn(storage[StorageKey(u) := e], v) == ChatsIn(storage, v)
    ensures ChatsIn(storage - {StorageKey(u)}, v) == ChatsIn(storage, v)
  {
  }

  /** `chat.messages || []` */
  function MessagesOf(c: StoredChat): seq<StoredMessage>
  {
    if c.messages.Some? then c.messages.value else []
  }

  function HasId(id: string): StoredChat -> bool
  {
    (c: StoredChat) => c.id == id
  }

  function LacksId(id: string): StoredChat -> bool
  {
    (c: StoredChat) => c.id != id
  }

  function WithMessage(m: StoredMessage): StoredChat -> StoredChat
  {
    (c: StoredChat) => c.(messages := Some(MessagesOf(c) + [m]))
  }

  function WithTitle(title: string): StoredChat -> StoredChat
  {
    (c: StoredChat) => c.(title := title)
  }

  /** The list written back by `saveMessage`. */
  function AppendStored(chats: seq<StoredChat>, chatId: string, m: StoredMessage): seq<StoredChat>
  {
    UpdateWhere(chats, HasId(chatId), WithMessage(m))
  }

  /** The list written back by `updateChatTitle`. */
  function RetitleStored(chats: seq<StoredChat>, chatId: string, title: string): seq<StoredChat>
  {
    UpdateWhere(chats, HasId(chatId), WithTitle(title))
  }

  /** The list written back by `deleteChat`. */
  function RemoveStored(chats: seq<StoredChat>, chatId: string): seq<StoredChat>
  {
    Filter(chats, LacksId(chatId))
  }

  /** `formatChatsForUI(chats)`: every chat is kept, in order, with missing
      messages replaced by an empty list. */
  function FormatChatsForUI(chats: seq<StoredChat>): (shown: seq<StoredChat>)
    ensures |shown| == |chats|
    ensures forall i :: 0 <= i < |chats| ==>
              shown[i].messages == Some(MessagesOf(chats[i])) && shown[i].(messages := chats[i].messages) == chats[i]
  {
    seq(|chats|, i requires 0 <= i < |chats| => chats[i].(messages := Some(MessagesOf(chats[i]))))
  }

  /** Formatting twice is formatting once. */
  lemma FormatIsIdempotent(chats: seq<StoredChat>)
    ensures FormatChatsForUI(FormatChatsForUI(chats)) == FormatChatsForUI(chats)
  {
  }

  /** A saved message is the last message of every chat with that id, after
      the messages it had; chats with other ids are unchanged, and an
      unknown id changes nothing. */
  lemma SavedMessageGoesLast(chats: seq<StoredChat>, chatId: string, m: StoredMessage)
    ensures |AppendStored(chats, chatId, m)| == |chats|
    ensures forall i :: 0 <= i < |chats| && chats[i].id == chatId ==>
              MessagesOf(AppendStored(chats, chatId, m)[i]) == MessagesOf(chats[i]) + [m] &&
              AppendStored(chats, chatId, m)[i].title == chats[i].title
    ensures forall i :: 0 <= i < |chats| && chats[i].id != chatId ==> AppendStored(chats, chatId, m)[i] == chats[i]
    ensures (forall i :: 0 <= i < |chats| ==> chats[i].id != chatId) ==> AppendStored(chats, chatId, m) == chats
  {
  }

  /** Deleting keeps exactly the chats with other ids, in order: around any
      position the list splits into the part before, that chat (kept exactly
      when its id differs), and the part after, each filtered in place. */
  lemma DeleteKeepsTheOthers(chats: seq<StoredChat>, chatId: string)
    ensures forall k :: 0 <= k < |chats| ==>
              RemoveStored(chats, chatId) ==
              RemoveStored(chats[..k], chatId) + (if chats[k].id != chatId then [chats[k]] else []) +
              RemoveStored(chats[k + 1..], chatId)
    ensures forall c :: c in RemoveStored(chats, chatId) <==> c in chats && c.id != chatId
    ensures (forall i :: 0 <= i < |chats| ==> chats[i].id != chatId) ==> RemoveStored(chats, chatId) == chats
  {
    forall k | 0 <= k < |chats|
      ensures RemoveStored(chats, chatId) ==
              RemoveStored(chats[..k], chatId) + (if chats[k].id != chatId then [chats[k]] else []) +
              RemoveStored(chats[k + 1..], chatId)
    {
      assert chats == chats[..k] + ([chats[k]] + chats[k + 1..]);
      FilterAppend(chats[..k], [chats[k]] + chats[k + 1..], LacksId(chatId));
      FilterAppend([chats[k]], chats[k + 1..], LacksId(chatId));
      FilterSingleton(chats[k], LacksId(chatId));
    }
    if forall i :: 0 <= i < |chats| ==> chats[i].id != chatId {
      FilterKeepsAll(chats, LacksId(chatId));
    }
  }

  class ChatService {
    /** The browser's key-value store. */
    var storage: map<string, Entry>

    constructor(initial: map<string, Entry>)
      ensures storage == initial
    {
      storage := initial;
    }

    /** `getUserChats(userId)` */
    function GetUserChats(userId: string): (chats: seq<StoredChat>)
      reads this
      ensures chats == ChatsIn(storage, userId)
      ensures StorageKey(userId) !in storage ==> chats == []
    {
      ChatsIn(storage, userId)
    }

    /** `createChat(userId, title, fileId)`: a chat with no messages is put in
        front of the user's chats, which keep their order. */
    method CreateChat(userId: string, title: string, fileId: Option<string>, freshId: string)
      returns (chat: StoredChat)
      modifies this
      ensures chat == StoredChat(freshId, userId, title, fileId, Some([]))
      ensures storage == old(storage)[StorageKey(userId) := Chats([chat] + ChatsIn(old(storage), userId))]
      ensures GetUserChats(userId) == [chat] + ChatsIn(old(storage), userId)
    {
      chat := StoredChat(freshId, userId, title, fileId, Some([]));
      var existingChats := GetUserChats(userId);
      storage := storage[StorageKey(userId) := Chats([chat] + existingChats)];
    }

    /** `saveMessage(chatId, userId, content, role, metadata)`: the message is
        appended to the user's chat with that id and the same message is
        returned. The list is written back even when no chat has the id. */
    method SaveMessage(chatId: string, userId: string, content: string, role: string, metadata: Metadata,
                       freshId: string)
      returns (saved: StoredMessage)
      modifies this
      ensures saved == StoredMessage(freshId, content, role, ModelOrNull(metadata), ErrorOrFalse(metadata))
      ensures storage == old(storage)[StorageKey(userId) := Chats(AppendStored(ChatsIn(old(storage), userId), chatId, saved))]
    {
      saved := StoredMessage(freshId, content, role, ModelOrNull(metadata), ErrorOrFalse(metadata));
      var existingChats := GetUserChats(userId);
      storage := storage[StorageKey(userId) := Chats(AppendStored(existingChats, chatId, saved))];
    }

    /** `updateChatTitle(chatId, newTitle)` for the signed-in user, if any. */
    method UpdateChatTitle(chatId: string, newTitle: string, currentUser: Option<string>)
      returns (ok: bool)
      modifies this
      ensures ok <==> currentUser.Some?
      ensures currentUser.None? ==> storage == old(storage)
      ensures currentUser.Some? ==>
                storage == old(storage)[StorageKey(currentUser.value) :=
                             Chats(RetitleStored(ChatsIn(old(storage), currentUser.value), chatId, newTitle))]
    {
      if currentUser.None? {
        return false;
      }
      var existingChats := GetUserChats(currentUser.value);
      storage := storage[StorageKey(currentUser.value) := Chats(RetitleStored(existingChats, chatId, newTitle))];
      ok := true;
    }

    /** `deleteChat(chatId)` for the signed-in user, if any. */
    method DeleteChat(chatId: string, currentUser: Option<string>) returns (ok: bool)
      modifies this
      ensures ok <==> currentUser.Some?
      ensures currentUser.None? ==> storage == old(storage)
      ensures currentUser.Some? ==>
                storage == old(storage)[StorageKey(currentUser.value) :=
                             Chats(RemoveStored(ChatsIn(old(storage), currentUser.value), chatId))]
    {
      if currentUser.None? {
        return false;
      }
      var existingChats := GetUserChats(currentUser.value);
      storage := storage[StorageKey(currentUser.value) := Chats(RemoveStored(existingChats, chatId))];
      ok := true;
    }

    /** `clearLocalData(userId)`: the user's entry is removed, so the user has
        no chats afterwards; other users' entries stay. */
    method ClearLocalData(userId: string)
      modifies this
      ensures storage == old(storage) - {StorageKey(userId)}
      ensures GetUserChats(userId) == []
    {
      storage := storage - {StorageKey(userId)};
    }
  }
}
