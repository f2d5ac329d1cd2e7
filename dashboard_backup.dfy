/** The dashboard that keeps chats in a database: the chat history, the
    active chat and file, and the requests it sends to the chat service.
    New chats start with a temporary id, are saved in the background and then
    carry the id the database assigned. The signed-in user, the clock and the
    database's replies are inputs; every request sent is appended to
    `requests`, so what was and was not sent can be stated. */
module DashboardBackup {
  import opened Wrappers
  import opened JsStrings
  import opened JsArrays
  import opened ChatList
  import FileProcessing

  /** A request to the chat service or to the document pipeline. */
  datatype Request =
    | LoadUserChats(userId: string)
    | SaveChat(owner: string, title: string, chatFile: Option<FileProcessing.File>)
    | UpdateTitle(chatId: ChatId, title: string)
    | DeleteRemote(chatId: ChatId)
    | ProcessDocument(document: FileProcessing.File)

  const DeleteFailedAlert := "Failed to delete chat. Please try again."

  /** A temporary chat is kept out of the database's requests. */
  function IsStored(c: Option<Chat>): bool
  {
    c.Some? && !c.value.isTemporary
  }

  /** `title?.includes('Chat about')` */
  predicate MentionsUpload(title: Option<string>)
  {
    title.Some? && Contains(title.value, "Chat about")
  }

  /** `{ ...chat, id: savedId, isTemporary: false }` */
  function Reconciled(savedId: string): Chat -> Chat
  {
    (c: Chat) => c.(id := SavedId(savedId), isTemporary := false)
  }

  /** Gives the chat with the temporary id the saved id. */
  function Reconcile(chats: seq<Chat>, tempId: ChatId, savedId: string): seq<Chat>
  {
    UpdateWhere(chats, HasId(tempId), Reconciled(savedId))
  }

  /** Reconciliation changes only the chat with the temporary id: its id
      becomes the saved one and it is no longer temporary, while its title,
      messages and file stay as they were. */
  lemma ReconcileChangesOnlyThatChat(chats: seq<Chat>, k: nat, savedId: string)
    requires UniqueIds(chats) && k < |chats| && IdUnused(chats, SavedId(savedId))
    ensures var after := Reconcile(chats, chats[k].id, savedId);
            after == chats[k := chats[k].(id := SavedId(savedId), isTemporary := false)] &&
            after[k].title == chats[k].title && after[k].messages == chats[k].messages &&
            after[k].file == chats[k].file && UniqueIds(after)
  {
  }

  class BackupDashboard {
    /** The signed-in user's id, when there is one. */
    const user: Option<string>
    var chatHistory: seq<Chat>
    var activeChat: Option<ChatId>
    var activeFile: Option<FileProcessing.File>
    var isLoadingChats: bool
    var requests: seq<Request>
    var alerts: seq<string>

    ghost predicate Valid()
      reads this
    {
      UniqueIds(chatHistory)
    }

    constructor(user: Option<string>)
      ensures Valid() && this.user == user
      ensures chatHistory == [] && activeChat == None && activeFile == None && isLoadingChats
      ensures requests == [] && alerts == []
    {
      this.user := user;
      chatHistory := [];
      activeChat := None;
      activeFile := None;
      isLoadingChats := true;
      requests := [];
      alerts := [];
    }

    /** A clock value whose temporary id no chat uses yet. */
    predicate IsFreshStamp(stamp: nat)
      reads this
    {
      IdUnused(chatHistory, TempId(stamp))
    }

    /** `loadChats()`, given what loading the user's chats returned (a
        failure is a rejected load). Without a user nothing happens. A load
        with chats activates the first one and its file; an empty or failed
        load leaves exactly one temporary "Welcome Chat", which is active. */
    method LoadChats(loaded: Result<seq<Chat>, string>, stamp: nat)
      requires Valid()
      requires loaded.Success? ==> UniqueIds(loaded.value)
      modifies this
      ensures Valid() && alerts == old(alerts)
      ensures user.None? ==>
                chatHistory == old(chatHistory) && activeChat == old(activeChat) &&
                activeFile == old(activeFile) && isLoadingChats == old(isLoadingChats) && requests == old(requests)
      ensures user.Some? ==> !isLoadingChats && requests == old(requests) + [LoadUserChats(user.value)]
      ensures user.Some? && loaded.Success? && |loaded.value| > 0 ==>
                chatHistory == loaded.value && activeChat == Some(loaded.value[0].id) &&
                activeFile == (if loaded.value[0].file.Some? then loaded.value[0].file else old(activeFile))
      ensures user.Some? && (loaded.Failure? || |loaded.value| == 0) ==>
                chatHistory == [Chat(TempId(stamp), WelcomeTitle, [], true, None)] &&
                activeChat == Some(TempId(stamp)) && activeFile == old(activeFile)
    {
      if user.Some? {
        isLoadingChats := true;
        requests := requests + [LoadUserChats(user.value)];
        if loaded.Success? && |loaded.value| > 0 {
          var userChats := loaded.value;
          chatHistory := userChats;
          activeChat := Some(userChats[0].id);
          if userChats[0].file.Some? {
            activeFile := userChats[0].file;
          }
        } else {
          var defaultChat := Chat(TempId(stamp), WelcomeTitle, [], true, None);
          chatHistory := [defaultChat];
          activeChat := Some(defaultChat.id);
        }
        isLoadingChats := false;
      }
    }

    /** The effect run when the active chat changes: the active file follows
        the active chat's file, and is cleared when that chat has none. */
    method SyncActiveFile()
      requires Valid()
      modifies this
      ensures Valid() && chatHistory == old(chatHistory) && activeChat == old(activeChat)
      ensures requests == old(requests) && alerts == old(alerts) && isLoadingChats == old(isLoadingChats)
      ensures activeChat.None? || chatHistory == [] ==> activeFile == old(activeFile)
      ensures activeChat.Some? && chatHistory != [] ==>
                var current := FindChat(chatHistory, activeChat.value);
                activeFile == if current.Some? && current.value.file.Some? then current.value.file else None
    {
      if activeChat.Some? && |chatHistory| > 0 {
        var current := FindChat(chatHistory, activeChat.value);
        if current.Some? && current.value.file.Some? {
          activeFile := current.value.file;
        } else if activeFile.Some? {
          activeFile := None;
        }
      }
    }

    /** `addToChatHistory(title, shouldClearFile)`, given the database's reply
        to the save (the saved id, or a failure). Without a user nothing
        happens and the result is `None` (null). Otherwise a temporary chat is
        put in front and activated, the active file is cleared for a chat
        that is not about a file, the save is requested, and a successful save
        gives the chat the saved id; the result is the chat's final id. */
    method AddToChatHistory(title: Option<string>, shouldClearFile: bool, stamp: nat,
                            saveReply: Result<string, string>)
      returns (r: Option<ChatId>)
      requires Valid() && IsFreshStamp(stamp)
      requires saveReply.Success? ==> IdUnused(chatHistory, SavedId(saveReply.value))
      modifies this
      ensures Valid() && isLoadingChats == old(isLoadingChats) && alerts == old(alerts)
      ensures user.None? ==>
                r == None && chatHistory == old(chatHistory) && activeChat == old(activeChat) &&
                activeFile == old(activeFile) && requests == old(requests)
      ensures user.Some? ==>
                var newChat := Chat(TempId(stamp), TitleOrDefault(title, |old(chatHistory)|), [], true, None);
                requests == old(requests) +
                  [SaveChat(user.value, newChat.title, if shouldClearFile then None else old(activeFile))] &&
                activeFile == (if shouldClearFile && !MentionsUpload(title) then None else old(activeFile)) &&
                match saveReply
                case Success(savedId) =>
                  chatHistory == [newChat.(id := SavedId(savedId), isTemporary := false)] + old(chatHistory) &&
                  activeChat == Some(SavedId(savedId)) && r == Some(SavedId(savedId))
                case Failure(_) =>
                  chatHistory == [newChat] + old(chatHistory) && activeChat == Some(TempId(stamp)) &&
                  r == Some(TempId(stamp))
    {
      if user.None? {
        return None;
      }
      var newChat := Chat(TempId(stamp), TitleOrDefault(title, |chatHistory|), [], true, None);
      chatHistory := [newChat] + chatHistory;
      activeChat := Some(newChat.id);
      var chatFile := if shouldClearFile then None else activeFile;
      if shouldClearFile && !MentionsUpload(title) {
        activeFile := None;
      }
      requests := requests + [SaveChat(user.value, newChat.title, chatFile)];
      if saveReply.Success? {
        var savedId := saveReply.value;
        ReconcileChangesOnlyThatChat(chatHistory, 0, savedId);
        chatHistory := Reconcile(chatHistory, newChat.id, savedId);
        activeChat := Some(SavedId(savedId));
        r := Some(SavedId(savedId));
      } else {
        r := Some(newChat.id);
      }
    }

    /** `handleFileUpload(file)`: the file becomes active and is sent to the
        document pipeline (its outcome is only logged); then the first chat
        without messages is renamed after the file and activated, or a new
        chat named after the file is added. */
    method HandleFileUpload(file: FileProcessing.File, stamp: nat, saveReply: Result<string, string>)
      requires Valid() && IsFreshStamp(stamp)
      requires saveReply.Success? ==> IdUnused(chatHistory, SavedId(saveReply.value))
      modifies this
      ensures Valid() && isLoadingChats == old(isLoadingChats) && alerts == old(alerts)
      ensures |requests| > |old(requests)| && requests[|old(requests)|] == ProcessDocument(file)
      ensures FindIndex(old(chatHistory), HasNoMessages()).Some? ==>
                var k := FindIndex(old(chatHistory), HasNoMessages()).value;
                chatHistory == old(chatHistory)[k := old(chatHistory)[k].(title := UploadTitle(file.name))] &&
                activeChat == Some(old(chatHistory)[k].id) && activeFile == Some(file) &&
                requests == old(requests) + [ProcessDocument(file)]
      ensures FindIndex(old(chatHistory), HasNoMessages()).None? && user.Some? ==>
                requests == old(requests) + [ProcessDocument(file), SaveChat(user.value, UploadTitle(file.name), None)] &&
                |chatHistory| == |old(chatHistory)| + 1 && chatHistory[1..] == old(chatHistory) &&
                chatHistory[0].title == UploadTitle(file.name) && chatHistory[0].messages == [] &&
                chatHistory[0].file == None &&
                activeChat == Some(chatHistory[0].id) && activeFile == Some(file)
      ensures FindIndex(old(chatHistory), HasNoMessages()).None? && user.None? ==>
                chatHistory == old(chatHistory) && activeChat == old(activeChat) && activeFile == Some(file) &&
                requests == old(requests) + [ProcessDocument(file)]
    {
      activeFile := Some(file);
      requests := requests + [ProcessDocument(file)];
      var empty := FindIndex(chatHistory, HasNoMessages());
      if empty.Some? {
        var emptyChat := chatHistory[empty.value];
        RetitleChangesOnlyThatTitle(chatHistory, empty.value, UploadTitle(file.name));
        TransformsKeepIdsUnique(chatHistory, emptyChat.id, UploadTitle(file.name), Message(0, "", ""));
        chatHistory := Retitle(chatHistory, emptyChat.id, UploadTitle(file.name));
        activeChat := Some(emptyChat.id);
      } else {
        assert StartsWith(UploadTitle(file.name), "Chat about");
        assert OccursAt(UploadTitle(file.name), "Chat about", 0);
        var _ := AddToChatHistory(Some(UploadTitle(file.name)), true, stamp, saveReply);
      }
    }

    /** `handleFileUpload(file)` followed by the re-run of the active-file
        effect that the changed chat list and active chat trigger. The chat
        the upload lands in carries no file of its own (a new chat never
        does), so the effect replaces the uploaded file by that chat's file,
        which for a new chat means no file at all. */
    method HandleFileUploadThenSync(file: FileProcessing.File, stamp: nat, saveReply: Result<string, string>)
      requires Valid() && IsFreshStamp(stamp)
      requires saveReply.Success? ==> IdUnused(chatHistory, SavedId(saveReply.value))
      modifies this
      ensures Valid()
      ensures FindIndex(old(chatHistory), HasNoMessages()).Some? ==>
                activeFile == old(chatHistory)[FindIndex(old(chatHistory), HasNoMessages()).value].file
      ensures FindIndex(old(chatHistory), HasNoMessages()).None? && user.Some? ==> activeFile == None
    {
      ghost var before := chatHistory;
      ghost var empty := FindIndex(chatHistory, HasNoMessages());
      HandleFileUpload(file, stamp, saveReply);
      if empty.Some? {
        RetitleChangesOnlyThatTitle(before, empty.value, UploadTitle(file.name));
        FindChatAt(chatHistory, empty.value);
      } else if user.Some? {
        FindChatAt(chatHistory, 0);
      }
      SyncActiveFile();
    }

    /** `updateChatTitle(chatId, newTitle)`: the title changes locally at
        once; the database is asked to change it only for a stored chat of a
        signed-in user (its failure is only logged). */
    method UpdateChatTitle(chatId: ChatId, newTitle: string)
      requires Valid()
      modifies this
      ensures Valid() && activeChat == old(activeChat) && activeFile == old(activeFile)
      ensures isLoadingChats == old(isLoadingChats) && alerts == old(alerts)
      ensures chatHistory == Retitle(old(chatHistory), chatId, newTitle)
      ensures requests == old(requests) +
                (if IsStored(FindChat(old(chatHistory), chatId)) && user.Some? then [UpdateTitle(chatId, newTitle)] else [])
    {
      var chat := FindChat(chatHistory, chatId);
      TransformsKeepIdsUnique(chatHistory, chatId, newTitle, Message(0, "", ""));
      chatHistory := Retitle(chatHistory, chatId, newTitle);
      if IsStored(chat) && user.Some? {
        requests := requests + [UpdateTitle(chatId, newTitle)];
      }
    }

    /** `deleteChat(chatId)`, given whether the database's delete throws. A
        stored chat of a signed-in user is deleted remotely first; if that
        throws, the user is alerted and nothing changes locally. Otherwise the
        chat is removed; if it was active, the first remaining chat and its
        file become active, and when none remains a new "Welcome Chat" is
        added. */
    method DeleteChat(chatId: ChatId, remoteThrows: bool, stamp: nat, saveReply: Result<string, string>)
      requires Valid() && IsFreshStamp(stamp)
      requires saveReply.Success? ==> IdUnused(chatHistory, SavedId(saveReply.value))
      modifies this
      ensures Valid() && isLoadingChats == old(isLoadingChats)
      ensures var remote := IsStored(FindChat(old(chatHistory), chatId)) && user.Some?;
              var sent := if remote then [DeleteRemote(chatId)] else [];
              var rest := RemoveChat(old(chatHistory), chatId);
              if remote && remoteThrows then
                chatHistory == old(chatHistory) && activeChat == old(activeChat) && activeFile == old(activeFile) &&
                requests == old(requests) + sent && alerts == old(alerts) + [DeleteFailedAlert]
              else
                alerts == old(alerts) &&
                (old(activeChat) != Some(chatId) ==>
                   chatHistory == rest && activeChat == old(activeChat) && activeFile == old(activeFile) &&
                   requests == old(requests) + sent) &&
                (old(activeChat) == Some(chatId) && |rest| > 0 ==>
                   chatHistory == rest && activeChat == Some(rest[0].id) && activeFile == rest[0].file &&
                   requests == old(requests) + sent) &&
                (old(activeChat) == Some(chatId) && |rest| == 0 && user.None? ==>
                   chatHistory == [] && activeChat == None && activeFile == None && requests == old(requests) + sent) &&
                (old(activeChat) == Some(chatId) && |rest| == 0 && user.Some? ==>
                   |chatHistory| == 1 && chatHistory[0].title == WelcomeTitle && chatHistory[0].messages == [] &&
                   activeChat == Some(chatHistory[0].id) && activeFile == None &&
                   requests == old(requests) + sent + [SaveChat(user.value, WelcomeTitle, None)])
    {
      var chat := FindChat(chatHistory, chatId);
      if IsStored(chat) && user.Some? {
        requests := requests + [DeleteRemote(chatId)];
        if remoteThrows {
          alerts := alerts + [DeleteFailedAlert];
          return;
        }
      }
      var newChatHistory := RemoveChat(chatHistory, chatId);
      TransformsKeepIdsUnique(chatHistory, chatId, "", Message(0, "", ""));
      chatHistory := newChatHistory;
      if activeChat == Some(chatId) {
        if |newChatHistory| > 0 {
          activeChat := Some(newChatHistory[0].id);
          activeFile := newChatHistory[0].file;
        } else {
          activeChat := None;
          activeFile := None;
          var _ := AddToChatHistory(Some(WelcomeTitle), true, stamp, saveReply);
        }
      }
    }
  }

  /** A chat that a successful save reconciled is no longer temporary, so a
      later retitle of it reaches the database. */
  lemma ReconciledChatIsStored(chats: seq<Chat>, k: nat, savedId: string)
    requires UniqueIds(chats) && k < |chats| && IdUnused(chats, SavedId(savedId))
    ensures IsStored(FindChat(Reconcile(chats, chats[k].id, savedId), SavedId(savedId)))
  {
  }
}
