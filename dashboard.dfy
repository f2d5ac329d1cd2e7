/** The plain dashboard: a chat history kept in memory, the active chat id and
    the active file. Chat ids are clock values, supplied here as fresh stamps. */
module Dashboard {
  import opened Wrappers
  import opened JsArrays
  import opened ChatList
  import FileProcessing

  class DashboardState {
    var chatHistory: seq<Chat>
    var activeChat: Option<ChatId>
    var activeFile: Option<FileProcessing.File>

    ghost predicate Valid()
      reads this
    {
      UniqueIds(chatHistory)
    }

    /** The initial state, before the mount effect has run. */
    constructor()
      ensures Valid() && chatHistory == [] && activeChat == None && activeFile == None
    {
      chatHistory := [];
      activeChat := None;
      activeFile := None;
    }

    /** A clock value no chat uses as its id yet. */
    predicate IsFreshStamp(stamp: nat)
      reads this
    {
      IdUnused(chatHistory, NumericId(stamp))
    }

    /** The effect on an empty history: a single "Welcome Chat" without
        messages, which becomes active. A non-empty history is left alone. */
    method EnsureDefaultChat(stamp: nat)
      requires Valid()
      modifies this
      ensures Valid() && activeFile == old(activeFile)
      ensures old(chatHistory) == [] ==>
                chatHistory == [Chat(NumericId(stamp), WelcomeTitle, [], false, None)] &&
                activeChat == Some(NumericId(stamp))
      ensures old(chatHistory) != [] ==> chatHistory == old(chatHistory) && activeChat == old(activeChat)
    {
      if |chatHistory| == 0 {
        var defaultChat := Chat(NumericId(stamp), WelcomeTitle, [], false, None);
        chatHistory := [defaultChat];
        activeChat := Some(defaultChat.id);
      }
    }

    /** `addToChatHistory(title)`: a chat without messages is put in front of
        the others, which keep their order, and becomes active. */
    method AddToChatHistory(title: Option<string>, stamp: nat)
      requires Valid() && IsFreshStamp(stamp)
      modifies this
      ensures Valid() && activeFile == old(activeFile)
      ensures chatHistory ==
                [Chat(NumericId(stamp), TitleOrDefault(title, |old(chatHistory)|), [], false, None)] + old(chatHistory)
      ensures activeChat == Some(NumericId(stamp))
    {
      var newChat := Chat(NumericId(stamp), TitleOrDefault(title, |chatHistory|), [], false, None);
      chatHistory := [newChat] + chatHistory;
      activeChat := Some(newChat.id);
    }

    /** `handleFileUpload(file)`: the file becomes active; the first chat
        without messages is renamed after the file and activated, or, when
        every chat has messages, a new chat named after the file is added. */
    method HandleFileUpload(file: FileProcessing.File, stamp: nat)
      requires Valid() && IsFreshStamp(stamp)
      modifies this
      ensures Valid() && activeFile == Some(file)
      ensures FindIndex(old(chatHistory), HasNoMessages()).Some? ==>
                var k := FindIndex(old(chatHistory), HasNoMessages()).value;
                chatHistory == old(chatHistory)[k := old(chatHistory)[k].(title := UploadTitle(file.name))] &&
                activeChat == Some(old(chatHistory)[k].id)
      ensures FindIndex(old(chatHistory), HasNoMessages()).None? ==>
                chatHistory == [Chat(NumericId(stamp), UploadTitle(file.name), [], false, None)] + old(chatHistory) &&
                activeChat == Some(NumericId(stamp))
    {
      activeFile := Some(file);
      var empty := FindIndex(chatHistory, HasNoMessages());
      if empty.Some? {
        var emptyChat := chatHistory[empty.value];
        RetitleChangesOnlyThatTitle(chatHistory, empty.value, UploadTitle(file.name));
        TransformsKeepIdsUnique(chatHistory, emptyChat.id, UploadTitle(file.name), Message(0, "", ""));
        chatHistory := Retitle(chatHistory, emptyChat.id, UploadTitle(file.name));
        activeChat := Some(emptyChat.id);
      } else {
        AddToChatHistory(Some(UploadTitle(file.name)), stamp);
      }
    }

    /** `updateChatTitle(chatId, newTitle)` */
    method UpdateChatTitle(chatId: ChatId, newTitle: string)
      requires Valid()
      modifies this
      ensures Valid() && activeChat == old(activeChat) && activeFile == old(activeFile)
      ensures chatHistory == Retitle(old(chatHistory), chatId, newTitle)
    {
      TransformsKeepIdsUnique(chatHistory, chatId, newTitle, Message(0, "", ""));
      chatHistory := Retitle(chatHistory, chatId, newTitle);
    }
  }

  /** An upload that reuses an empty chat keeps the history's length, and the
      renamed chat is the first one without messages. */
  lemma UploadReusesFirstEmptyChat(chats: seq<Chat>, fileName: string)
    requires UniqueIds(chats) && FindIndex(chats, HasNoMessages()).Some?
    ensures var k := FindIndex(chats, HasNoMessages()).value;
            var after := Retitle(chats, chats[k].id, UploadTitle(fileName));
            |after| == |chats| && after[k].title == UploadTitle(fileName) && |after[k].messages| == 0 &&
            forall j :: 0 <= j < k ==> |after[j].messages| > 0
  {
  }
}
