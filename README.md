# CogniChat core, modelled in Dafny

CogniChat is a React chat application that answers questions about an
uploaded document using retrieval-augmented generation (RAG). This project
models its core logic and proves properties of it:

- **The RAG service** (`rag_service.dfy`, `prompts.dfy`).
  - Ingestion: extract the text, chunk it, batch-embed the chunks and pair
    chunk *i* with embedding *i*. Then delete the stored corpus and insert
    the new rows.
  - Answering: check that the service is configured, embed the question,
    search for similar passages, build a grounded or an ungrounded prompt,
    generate an answer and strip every `**` from it.
  - The embedding model, the generative model, the chunker and the
    similarity search are function values in `Providers`. Each of them
    answers or fails. The store's replies are inputs.
  - Every request the service makes is returned as a `Call` trace, so the
    contracts can say which requests were *not* made.
- **File processing** (`file_processing.dfy`).
  - Routing by MIME type, including the error cases and the support
    predicate.
  - The page-by-page PDF text loop. The page texts are an input.
  - The file-information record with its extension, and the preview with
    truncation.
- **The file viewer's tab strip** (`file_viewer.dfy`).
  - The file name of every open tab is unique.
  - Closing the active tab activates the previous tab, else the new first
    tab, else none.
  - Switching tabs, the icon chosen by extension, PDF detection and the
    shortened tab names.
- **The chat lists** (`chat_list.dfy`, `dashboard.dfy`,
  `dashboard_backup.dfy`, `chat_panel.dfy`).
  - The plain dashboard.
  - The database-backed dashboard, which reconciles temporary ids with
    saved ids and logs the requests it sends.
  - The chat panel: sending a message and the simulated reply.
- **The browser-storage chat service** (`chat_store.dfy`): a key-value store
  with one entry per user.
- **Sign-up validation** (`signup.dfy`).
- **API-key masking and the save instruction** (`settings.dfy`).

Shared helpers:

- `js_strings.dfy` models the JavaScript string behaviour the code relies
  on: `trim()` emptiness over the ECMAScript white-space set, `join`,
  `substring` clamping, `split(sep).pop()` and number printing.
- `js_arrays.dfy` models `find`, `findIndex`, `filter` and the
  map-where-id-matches idiom.
- `gemini_key.dfy` holds the "usable key" test that the AI service and the
  settings panel share.

Conventions of the model:

- Ids that the application draws from `Date.now()` or `Math.random()` are
  fresh values supplied by the caller.
- Asynchronous steps run to completion in program order.

## Model

| member | source | states |
|---|---|---|
| Prompts.HistoryLines | src/services/aiService.js:102 | one line `sender: text` per turn of the history, in order |
| Prompts.HistoryStringSplitsIntoTurns | src/services/aiService.js:112 | when no turn contains a newline, splitting the serialised history at `\n` gives back exactly the per-turn lines: serialisation loses no turn and merges none |
| Prompts.UngroundedPromptMentions | src/services/aiService.js:102-103 | the no-match prompt opens with "Conversation History:", ends with the "Answer:" cue, and contains the serialised history and the question |
| Prompts.GroundedPromptMentions | src/services/aiService.js:111-143 | the grounded prompt opens with the instructions and the context heading, ends with the "EXPERT ANSWER" heading, and contains the "DOCUMENT CONTEXT" heading, the contexts joined by `\n\n---\n\n`, the serialised history and the question |
| Prompts.GroundedPromptMentionsEachMatch | src/services/aiService.js:111-128 | every retrieved passage occurs in the grounded prompt |
| Prompts.UngroundedPromptOmitsContextMarker | src/services/aiService.js:102-103 | the no-match prompt contains no "DOCUMENT CONTEXT" unless the question or a history turn supplied it |
| Prompts.StripDoubleStars | src/services/aiService.js:151 | the cleanup never lengthens the text and removes an even number of characters (whole `**` pairs) |
| Prompts.CleanedAnswerHasNoDoubleStar | src/services/aiService.js:151 | after `replace(/\*\*/g, '')` no `**` is left anywhere in the answer |
| Prompts.StripRun | src/services/aiService.js:151 | a run of *k* asterisks becomes *k mod 2* asterisks |
| Prompts.StripIsIdempotent | src/services/aiService.js:151 | cleaning a cleaned answer changes nothing |
| Prompts.StripKeepsTextWithoutDoubleStar | src/services/aiService.js:151 | text without `**` is returned unchanged |
| Prompts.StripDeletesOnlyStars | src/services/aiService.js:151 | the cleanup only deletes asterisks: every other character survives, in order |
| RagService.PairChunks | src/services/aiService.js:47-53 | one row per chunk, in chunk order; row *i* holds chunk *i* and embedding *i*, with no embedding where the batch returned too few |
| RagService.MatchContents | src/services/aiService.js:111 | the contents of the matches, one per match, in the order the search returned them |
| RagService.DocumentTable.DeleteAll | src/services/aiService.js:58-62 | a delete the store accepts empties the table; a delete it rejects leaves it as it was |
| RagService.DocumentTable.Insert | src/services/aiService.js:65-69 | an accepted insert appends the rows; a rejected one leaves the table as it was |
| RagService.AIService.constructor | src/services/aiService.js:8-28 | the service is initialised exactly when the key is present, is not the placeholder, and the client could be created |
| RagService.AIService.IsConfigured | src/services/aiService.js:30-32 | configured iff the key is usable and the client was created |
| RagService.AIService.GetModelInfo | src/services/aiService.js:156-161 | "Simulated Mode" exactly when not configured, otherwise "Gemini (RAG/Supabase)" |
| RagService.AIService.ProcessAndEmbedDocument | src/services/aiService.js:35-76 | uninitialised: fails with "AI Service not initialized..." before any request. The steps run in order extract, chunk, batch-embed, delete, insert, and each failure ends the run with its message. A failed delete leaves the table unchanged and no insert is requested. On success the table holds exactly the paired rows, and the result has `chunks` equal to the row count and `fileSize` equal to `file.size` |
| RagService.AIService.GetRAGAnswer | src/services/aiService.js:79-154 | uninitialised: the fixed "AI is not configured..." reply with no request. Otherwise it embeds the query, then searches with threshold 0.70 and count 5. A search error gives the fixed apology and generates nothing. No match: generates from the ungrounded prompt and returns the raw text. Matches: generates from the grounded prompt over the match contents and returns the text with every `**` removed, so the answer contains no `**` |
| RagService.AnswerPromptsMatchTheirMode | src/services/aiService.js:99-143 | the grounded prompt carries the context heading and every retrieved passage; the ungrounded one lacks the heading unless the user wrote it |
| FileProcessing.Route | src/services/fileProcessingService.js:10-33 | `text/*` and `application/json` go to the text reader, `application/pdf` to the PDF extractor, the DOCX type to the DOCX extractor, anything else to none. A type is routed to a reader or the PDF extractor iff it is supported for text extraction |
| FileProcessing.IsTextExtractionSupported | src/services/fileProcessingService.js:112-124 | a type is supported iff it starts with `text/` or is `application/json` or `application/pdf`: the listed `text/` types add nothing to the prefix test |
| FileProcessing.ExtractText | src/services/fileProcessingService.js:10-38 | DOCX always fails with "Failed to extract text from DOCX: ...". An "Unsupported file type: <type>" failure happens exactly for the types no extractor takes. A text type yields what the reader read, or "Failed to read text file". A readable PDF yields its page text; an unreadable one fails with "Failed to extract text from PDF: " + the loader's message |
| FileProcessing.ExtractTextFromFile | src/services/fileProcessingService.js:10-38 | the dispatch, running the PDF page loop, gives exactly the result described by `ExtractText` |
| FileProcessing.ExtractTextFromPdf | src/services/fileProcessingService.js:49-66 | the loop's text is the concatenation over pages 1..n, in order, of "Page i:\n" + the page's items joined by a space + "\n\n" |
| FileProcessing.PdfTextGrowsInPageOrder | src/services/fileProcessingService.js:55-60 | the text after *k* pages is a prefix of the text after any later page |
| FileProcessing.PdfTextPlacesEachPage | src/services/fileProcessingService.js:55-60 | page *i*'s block directly follows the text of pages 1..i-1 |
| FileProcessing.GetFileExtension | src/services/fileProcessingService.js:99 | the extension has no dot, is a suffix of the lower-cased name, and is preceded by a dot whenever it is shorter than the name |
| FileProcessing.GetFileInfo | src/services/fileProcessingService.js:92-101 | name, type and size are copied; the extension is the lower-cased last dot-separated segment; the timestamp is kept when present and non-zero, and is null otherwise (0 is falsy) |
| FileProcessing.GetFilePreview | src/services/fileProcessingService.js:127-142 | unsupported types get the fixed "not available" text. An extraction failure gives "Preview unavailable: " + the message. Otherwise the preview is the full text when it is short enough, else the first `maxLength` characters + "..." |
| FileViewer.TabStrip.ShowFile | src/components/FileViewer.js:11-21 | the effect on `[file, tabs]`: a file whose name has no tab gets a new tab at the end, which becomes active; otherwise nothing changes; names stay unique |
| FileViewer.ClosedFileHasNoTab | src/components/FileViewer.js:70-73 | after its tab is closed, no tab shows that file's name |
| FileViewer.TabStrip.CloseTabThenShowFile | src/components/FileViewer.js:11-21 | closing the tab of the file the viewer is showing, followed by the effect's re-run on the new tabs, brings the file straight back as a new, active last tab; the other tabs keep their order |
| FileViewer.TabStrip.AddNewTab | src/components/FileViewer.js:39-67 | a picked file whose name is open only activates that tab: nothing is added and the parent is not notified. A new file is appended, activated and handed to the parent |
| FileViewer.TabStrip.CloseTab | src/components/FileViewer.js:70-85 | the tabs with that id are removed; the active tab changes only when it was the one closed, following `ActiveAfterClose` |
| FileViewer.CloseRemovesOnlyThatTab | src/components/FileViewer.js:72 | closing removes exactly that tab and keeps the others in order |
| FileViewer.ClosingActivatesPrevious | src/components/FileViewer.js:75-84 | closing the active tab activates the previous tab; if it was first, the new first tab; if none remain, nothing |
| FileViewer.TabStrip.SwitchTab | src/components/FileViewer.js:88-94 | the id always becomes active; the parent gets the tab's file iff such a tab exists |
| FileViewer.TabStrip.CurrentFile | src/components/FileViewer.js:112-113 | the file of the tab with the active id, if there is one |
| FileViewer.ExtensionIcon | src/components/FileViewer.js:99-109 | the default document icon is returned exactly for extensions outside txt, js, json, csv, md, html and css (pdf shares it) |
| FileViewer.GetFileIcon | src/components/FileViewer.js:97-110 | the icon is the one for the extension the file-information record reports (the lower-cased last dot-separated segment) |
| FileViewer.IconOfExtension | src/components/FileViewer.js:97-98 | the icon of `base.ext` depends only on the lower-cased `ext` |
| FileViewer.IconIgnoresCase | src/components/FileViewer.js:98 | letter case in the file name never changes the icon |
| FileViewer.IsPdf | src/components/FileViewer.js:115-117 | a file is shown as a PDF iff there is a current file and it is routed to the PDF extractor (type `application/pdf`) or its lower-cased name ends in `.pdf` |
| FileViewer.PdfDetection | src/components/FileViewer.js:115-117 | every file routed to the PDF extractor, and every file named `*.pdf` or `*.PDF`, is shown as a PDF; a file with another type and another extension is not, a plain-text `*.txt` file is not, and no file is none |
| FileViewer.TabLabel | src/components/FileViewer.js:134 | names of at most 15 characters are shown whole; longer names show their first 15 characters + "..." |
| ChatList.TempIdTextInjective | src/components/Dashboard_backup.js:89 | distinct clock values give distinct `temp-` ids |
| ChatList.TitleOrDefault | src/components/Dashboard.js:36 | a given non-empty title is kept; otherwise "Chat <n+1>" |
| ChatList.RetitleChangesOnlyThatTitle | src/components/Dashboard.js:64-72 | only the chat with the id gets the new title; nothing else changes |
| ChatList.AppendGoesToThatChatOnly | src/components/Chat.js:40-50 | the message is appended at the end of that chat; all other chats are unchanged |
| ChatList.RemoveTakesOutThatChat | src/components/Dashboard_backup.js:188 | deleting removes exactly that chat and keeps the others in order |
| ChatList.TransformsKeepIdsUnique | src/components/Dashboard_backup.js:113-120 | retitling, appending and removing keep chat ids unique |
| Dashboard.DashboardState.EnsureDefaultChat | src/components/Dashboard.js:17-27 | an empty history gets one "Welcome Chat" without messages, which becomes active |
| Dashboard.DashboardState.AddToChatHistory | src/components/Dashboard.js:33-41 | a chat without messages is put first, titled by `TitleOrDefault`, and activated; the others keep their order |
| Dashboard.DashboardState.HandleFileUpload | src/components/Dashboard.js:43-62 | the file becomes active. The first chat without messages is renamed "Chat about <name>" and activated, with the length unchanged; when there is none, a "Chat about <name>" chat is put first |
| Dashboard.DashboardState.UpdateChatTitle | src/components/Dashboard.js:64-72 | only the title of the chat with that id changes |
| Dashboard.UploadReusesFirstEmptyChat | src/components/Dashboard.js:47-57 | the renamed chat is the first chat without messages, and every chat before it has messages |
| DashboardBackup.ReconcileChangesOnlyThatChat | src/components/Dashboard_backup.js:113-119 | only the temporary chat gets the saved id and stops being temporary; its title, messages and file are unchanged |
| DashboardBackup.ReconciledChatIsStored | src/components/Dashboard_backup.js:113-120 | a reconciled chat counts as stored, so later retitles reach the database |
| DashboardBackup.BackupDashboard.LoadChats | src/components/Dashboard_backup.js:23-65 | no user: nothing happens. Loaded chats: the first chat and its file become active. An empty or failed load leaves exactly one temporary "Welcome Chat", which is active. Loading ends |
| DashboardBackup.BackupDashboard.SyncActiveFile | src/components/Dashboard_backup.js:68-79 | the active file follows the active chat's file, and is cleared when that chat has none |
| DashboardBackup.BackupDashboard.AddToChatHistory | src/components/Dashboard_backup.js:85-127 | no user: returns null and changes nothing. Otherwise a temporary chat is put first and activated, and the file is cleared unless the title mentions "Chat about". The save is requested with the file only when it is kept. A successful save gives the chat the saved id, which stays active and is returned; a failed save returns the temporary id and the chat stays temporary |
| DashboardBackup.BackupDashboard.HandleFileUpload | src/components/Dashboard_backup.js:129-156 | the file becomes active and is sent to the document pipeline. Then the first empty chat is renamed and activated, or a "Chat about <name>" chat without a file is added |
| DashboardBackup.BackupDashboard.HandleFileUploadThenSync | src/components/Dashboard_backup.js:68-79 | after an upload, the active-file effect re-runs and sets the active file to the file of the chat the upload landed in: the reused empty chat's own file, or none for a newly added chat. The uploaded file does not stay active |
| DashboardBackup.BackupDashboard.UpdateChatTitle | src/components/Dashboard_backup.js:158-177 | the title changes locally; the database is asked to change it only for a non-temporary chat when a user is present |
| DashboardBackup.BackupDashboard.DeleteChat | src/components/Dashboard_backup.js:179-212 | only a stored chat of a signed-in user is deleted remotely; if that throws, the user is alerted and nothing changes. Otherwise the chat is removed. If it was active, the first remaining chat and its file become active; when none remains, a "Welcome Chat" is added |
| ChatPanel.CurrentChat | src/components/Chat.js:8-9 | the chat with the active id, else the first chat, else none |
| ChatPanel.ShowsActiveChat | src/components/Chat.js:8 | with unique ids, the active chat is the one shown |
| ChatPanel.NewChatTitleFor | src/components/Chat.js:77-79 | "Chat about <file name>" with a file, else "New Chat" |
| ChatPanel.SimulatedReplyText | src/components/Chat.js:58 | the reply opens with "I received your message about ", quotes the user's message in double quotes, and closes with ". This is a simulated response." |
| ChatPanel.ChatPanelState.SendMessage | src/components/Chat.js:19-53 | blank input changes nothing. Otherwise the message is appended to the chat with the target id and the input is cleared. With no active chat and no chats, a "New Chat" is requested |
| ChatPanel.ChatPanelState.DeliverSimulatedReply | src/components/Chat.js:55-74 | the reply, from sender "ai", is appended to the same chat id as the message |
| ChatPanel.ExchangeAppendsMessageThenReply | src/components/Chat.js:40-73 | a send followed by its reply adds exactly the user's message and then the quoting reply to the end of that chat; every other chat is unchanged |
| ChatStore.StorageKey | src/services/chatService_localStorage.js:5-11 | the key is `cognichats_history_` followed by the user id |
| ChatStore.StorageKeyInjective | src/services/chatService_localStorage.js:11 | different users never share an entry |
| ChatStore.ChatService.GetUserChats | src/services/chatService_localStorage.js:9-20 | the user's chats as stored; none when the user has no entry |
| ChatStore.ChatsIn | src/services/chatService_localStorage.js:9-20 | a missing or unparseable entry reads as no chats; otherwise the stored chats |
| ChatStore.WritesStayWithTheirUser | src/services/chatService_localStorage.js:11 | writing or removing one user's entry leaves every other user's chats unchanged |
| ChatStore.ChatService.CreateChat | src/services/chatService_localStorage.js:29-53 | a chat with the given title and file id and no messages is put first; the user's other chats keep their order |
| ChatStore.ModelOrNull | src/services/chatService_localStorage.js:81 | an absent or empty model name is stored as null |
| ChatStore.ErrorOrFalse | src/services/chatService_localStorage.js:82 | the error flag is true only when the metadata says true; otherwise false |
| ChatStore.ChatService.SaveMessage | src/services/chatService_localStorage.js:56-105 | the returned message is the one appended to the chat with that id, with the same text, sender, model and error |
| ChatStore.SavedMessageGoesLast | src/services/chatService_localStorage.js:72-88 | the saved message is last in the matching chat. Other chats are unchanged, and an unknown id changes no chat |
| ChatStore.ChatService.UpdateChatTitle | src/services/chatService_localStorage.js:114-133 | no user: returns false and writes nothing. Otherwise the matching chat is retitled and it returns true |
| ChatStore.ChatService.DeleteChat | src/services/chatService_localStorage.js:136-150 | no user: returns false and writes nothing. Otherwise every chat with the id is removed and it returns true |
| ChatStore.DeleteKeepsTheOthers | src/services/chatService_localStorage.js:142 | deletion keeps exactly the chats with other ids, in their order and multiplicity: around every position the result is the filtered part before, that chat if its id differs, and the filtered part after |
| ChatStore.ChatService.ClearLocalData | src/services/chatService_localStorage.js:186-188 | afterwards the user has no chats |
| ChatStore.FormatChatsForUI | src/services/chatService_localStorage.js:178-183 | every chat is kept, in order, and a missing message list becomes empty |
| ChatStore.FormatIsIdempotent | src/services/chatService_localStorage.js:178-183 | formatting formatted chats changes nothing |
| Signup.ValidatePasswords | src/components/auth/Signup.js:23-33 | no error iff the passwords match and are at least 6 UTF-16 code units long (JavaScript's `length`); a mismatch is reported as "Passwords don't match", a short password as "Password must be at least 6 characters" |
| Signup.LongEnoughPasswords | src/components/auth/Signup.js:29-32 | six characters always pass the length check, and so do three emoji or other astral characters, which count twice |
| Signup.MismatchReportedFirst | src/components/auth/Signup.js:23-33 | a mismatched short password reports the mismatch |
| Signup.SignupForm.HandleSubmit | src/components/auth/Signup.js:17-46 | a failed check sets its error and sends no request. Otherwise `signUp` is requested with the email, password and full name, and sets either its error or the confirmation. When `signUp` resolves, loading ends false |
| Settings.MaskKey | src/components/Settings.js:15 | the first up-to-8 characters, "...", then the last up-to-8 characters; length min(8,len)+3+min(8,len) |
| Settings.LongKeyShowsOnlyItsEnds | src/components/Settings.js:15 | a key of 16 or more characters shows only its first and last 8 characters |
| Settings.MaskedKey | src/components/Settings.js:13-16 | a masked key exists iff the key is present, non-empty and not the placeholder |
| Settings.SettingsPanel.LoadCurrentKey | src/components/Settings.js:11-17 | on mount, a usable configured key is shown masked; otherwise the shown key is left as it was. The typed key and the status are untouched |
| Settings.SettingsPanel.SaveApiKey | src/components/Settings.js:19-26 | blank input changes nothing; otherwise the status is the `.env` instruction followed by the input as typed |
| Settings.SettingsPanel.AiResponsesStatus | src/components/Settings.js:137-139 | "Enabled" iff a masked key is shown, else "Disabled" |

## Left out

- Network I/O: the Gemini and Supabase calls, and the similarity search's
  ranking. They are the `Providers` function values and the store's replies.
  The remote chat service that the database-backed dashboard calls is
  represented only by the requests it is sent and the replies it gives.
  A call that rejects with a thrown error, where the source has no
  `catch`, is not modelled: `signUp` in the sign-up form is assumed to
  resolve, so its `loading` reset is not shown for a rejection.
- `fileProcessingService.chunkText` is not defined in
  src/services/fileProcessingService.js. It is an uninterpreted function of
  `Providers`.
- The model cascade and model registry are not part of this model:
  src/services/aiService.js defines no such methods.
- `formatFileSize` (src/services/fileProcessingService.js:103-109) is not
  modelled: it is floating-point arithmetic with `Math.log` and `toFixed`.
  `GetFileInfo` omits the formatted size and keeps `lastModified` as an
  optional number instead of a `Date`.
- FileReader, pdf.js, `URL.createObjectURL` and DOM work are not modelled.
  - A file carries what the text reader returns, or its failure, and the
    PDF's page item texts, or the loader's failure message.
  - The viewer's file-content effect (src/components/FileViewer.js:24-36)
    only feeds the reader and is not modelled.
- Timers and clock-based ids:
  - Ids and timestamps are fresh inputs, and time-of-day texts are not
    modelled.
  - The reply timer in Chat.js is the separate step `DeliverSimulatedReply`.
  - The status reset in Settings.js (after 5 seconds) is not modelled.
  - The redirect after sign-up (after 3 seconds) is not modelled.
- React batching and the interleaving of awaited calls with other events are
  not modelled: each handler runs to completion in program order.
- `ChatPanel.ChatPanelState.SendMessage` does not model the parent's chat
  being created in the branch with no active chat and no chats. The message
  goes to a clock-derived id, and whether the parent's new chat has that id
  depends on timing.
- String lengths count characters, where JavaScript's `length` and
  `substring` count UTF-16 code units. `Signup.ValidatePasswords` counts code
  units. The three members below cut strings, and a cut by code units can
  split an astral character's surrogate pair, which a Dafny string cannot
  hold. They agree with JavaScript only on text without astral characters
  (emoji and other characters beyond U+FFFF):
- TabLabel (`FileViewer.TabLabel`): the 15-unit limit and cut are counted in
  characters.
- GetFilePreview (`FileProcessing.GetFilePreview`): the `maxLength` limit
  and cut are counted in characters.
- MaskKey (`Settings.MaskKey`): the 8-unit ends are counted in characters.
- ShowFile (`FileViewer.TabStrip.ShowFile`): React re-runs this effect
  whenever `file` or `tabs` change; the model runs it only where a method
  calls it. `CloseTabThenShowFile` states the re-run after a tab is closed.
  Other re-runs are not modelled.
- SyncActiveFile (`DashboardBackup.BackupDashboard.SyncActiveFile`): React
  re-runs this effect whenever the active chat, the chat list or the active
  file change; the model runs it only where a method calls it.
  `HandleFileUploadThenSync` states the re-run after an upload. Other re-runs
  are not modelled.
- `LowerChar`/`ToLower` lower-case ASCII letters only. JavaScript's
  `toLowerCase` also maps non-ASCII letters, which affects the extension,
  icon and `.pdf` tests only for non-ASCII names.
- `FileProcessing.GetFilePreview` takes `maxLength` as a natural number. A
  negative `maxLength` in JavaScript, where `substring` clamps it to 0, is
  not modelled.
- `ChatStore`: JSON encoding and decoding are assumed to round-trip. The
  creation and update timestamps are not stored. A failure to write to
  browser storage (the `catch` returning null or false) is not modelled.
- `RagService.AIService.ProcessAndEmbedDocument`: an insert failure after a
  successful delete leaves the table empty. The contract states this
  outcome; it is not treated as an error of the model.
- `DashboardBackup.BackupDashboard.LoadChats` requires the loaded chats to
  have unique ids, as the database's primary keys guarantee. The saved id
  that a save replies with is likewise required to be new.
- Messages from `console.log` and `console.error` are not modelled.
