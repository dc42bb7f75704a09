# ai-chat core, modelled in Dafny

ai-chat is a small chat application. A React frontend keeps a list of chat
sessions, shows one of them, and sends the user's messages to a FastAPI
backend. The backend stores chats, messages and uploaded context files in
three tables. It forwards the conversation to OpenAI or xAI and stores the
reply.

This project models that core and proves properties of it. There is one
module per source file:

- `FileService` (backend/app/services/file_service.py):
  - the extension test of `os.path.splitext`, including its leading-dot rule;
  - the allow-list and the file type;
  - the validation order, each with its exact error;
  - the routing to a text extractor, and the context block built from files.
- `AiService` (backend/app/services/ai_service.py):
  - routing by `provider.lower()`;
  - the API-key checks;
  - `max_tokens` and `temperature` chosen from the two mode flags;
  - the text of every error the service raises.
- `Models` (backend/app/models/chat.py):
  - the three tables as sequences in insertion order;
  - a `Database` class whose methods insert, update and delete rows. Its
    invariant says that ids are fresh and unique, that every message belongs
    to an existing chat, and that messages are in creation order. Files are
    not checked against chats, because `upload_file` does not check them.
- `Schemas`: the request and response records.
- `ChatApi` (backend/app/api/chat.py): every endpoint.
  - `send_message` has three stages: get-or-create the chat, save the user's
    message, then either save the reply and touch the chat, or roll the
    message back.
  - It is specified by one outcome function, `SendOutcome`. Lemmas about that
    function cover creation, rollback, the added pair and the untouched other
    chats.
- `FilesApi` (backend/app/api/files.py): upload, list and delete.
- `App` (frontend/src/App.js): the application state as a class. Each handler
  equals a pure transition function, and the lemmas are about those functions.
- `ChatList` (frontend/src/components/ChatList.js):
  - a stable most-recent-first sort, proved ordered, a permutation and stable;
  - pages of ten, built with `Array.prototype.slice`;
  - the clamped page navigation.
- `ChatWindow` (frontend/src/components/ChatWindow.js):
  - the submit guard and the prefixes the mode switches add;
  - the request sent and the form reset;
  - the model options per provider.
- `FileUpload` (frontend/src/components/FileUpload.js):
  - the client-side filter loop and the uploaded-files list;
  - the file type shown, proved equal to the server's for every file the
    server accepts.
- `Text`:
  - ASCII case mapping;
  - JavaScript `trim`;
  - Python's `str(int)` and the `in` test on strings.

Each backend call is a parameter. Its outcome is either a value or a failure.
The same holds for the network, the document parsers and the uuid generator.

A send is a single request with a single response.

## Model

| member | source | states |
|---|---|---|
| FileService.SplitExt | backend/app/services/file_service.py:24 | `os.path.splitext`: the root and the extension after the last dot of the last path component; its shape is proved in SplitExtShape |
| FileService.LastIndexOf | backend/app/services/file_service.py:24 | the position of the last occurrence of a character, with no occurrence after it, or -1 |
| FileService.SplitExtShape | backend/app/services/file_service.py:24 | the two parts of `splitext` concatenate to the path; a non-empty extension is one dot followed by no dot or slash |
| FileService.ExtensionOfLower | backend/app/services/file_service.py:24 | lower-casing before `splitext` gives the lower-cased extension |
| FileService.IsAllowedFile | backend/app/services/file_service.py:22-25 | `is_allowed_file`: the lower-cased extension is one of the allowed ones; proved case-blind in AllowedIgnoresCase |
| FileService.GetFileType | backend/app/services/file_service.py:27-31 | `get_file_type`: the lower-cased extension without its dot, or "unknown"; related to IsAllowedFile in AllowedIffKnownType |
| FileService.AllowedIgnoresCase | backend/app/services/file_service.py:22-25 | a file is allowed iff its extension equals an allowed one ignoring case |
| FileService.AllowedIffKnownType | backend/app/services/file_service.py:22-31 | a file is allowed iff its type is one of pdf, docx, doc, txt, md, rtf |
| FileService.UploadFile.constructor | backend/app/services/file_service.py:46-48 | a new upload stream starts at position 0 |
| FileService.Validation | backend/app/services/file_service.py:34-54 | validation fails (always with 400) unless the name is present, the type is allowed and the size is at most 10 MB |
| FileService.ValidationOrder | backend/app/services/file_service.py:34-54 | a missing name is reported before a bad type, which is reported before the size, each with its own detail |
| FileService.SizeBoundary | backend/app/services/file_service.py:50-54 | exactly 10 MB passes; one byte more fails with "File too large" |
| FileService.ValidateFile | backend/app/services/file_service.py:34-54 | returns the validation's error; the stream is rewound to 0 only if the name checks passed |
| FileService.AllowedWithoutExtractor | backend/app/services/file_service.py:112-121 | of the allowed types exactly doc and rtf have no extractor; pdf, docx and txt/md go to their own |
| FileService.ExtractionOutcomes | backend/app/services/file_service.py:100-126 | text comes back only for a valid pdf, docx, txt or md file, from its extractor; a valid doc or rtf is refused with 400 |
| FileService.ExtractTextFromFile | backend/app/services/file_service.py:100-126 | the result is the extraction outcome, and the stream ends at the end of the file once validation passes |
| FileService.StoredNameKeepsExtension | backend/app/api/files.py:25-33 | a fresh stem plus the original extension has the original's extension and file type |
| FileService.Dashes | backend/app/services/file_service.py:139 | fifty '-' characters |
| FileService.BlockEndsWithSeparator | backend/app/services/file_service.py:135-139 | each file block ends with a whole line of exactly fifty dashes: a newline, fifty dashes, a newline |
| FileService.BlocksAppend | backend/app/services/file_service.py:135-139 | the blocks of two file lists concatenate |
| FileService.FileContextFrame | backend/app/services/file_service.py:129-142 | the context is empty iff there are no files; otherwise it starts with the header and ends with the footer |
| FileService.FormatFileContext | backend/app/services/file_service.py:129-142 | the loop builds exactly the context of all files in order |
| AiService.ModesSelectParameters | backend/app/services/ai_service.py:22-23 | research mode alone decides max_tokens (2000 vs 1000); thinking mode alone decides temperature (0.3 vs 0.7) |
| AiService.RequestFor | backend/app/services/ai_service.py:26-31 | the request carries the model and the messages unchanged, with the mode parameters |
| AiService.PayloadIndependentOfModel | backend/app/services/ai_service.py:60-76 | the xAI payload differs between models only in the model name; grok-4 gets nothing different |
| AiService.XaiStatusMessages | backend/app/services/ai_service.py:87-94 | 401 and 429 get their own messages; any other status gives "xAI API error (HTTP s): text" |
| AiService.ChatWithOpenAI | backend/app/services/ai_service.py:16-40 | without a client the call fails with the not-configured error |
| AiService.ChatWithXai | backend/app/services/ai_service.py:42-100 | without a usable key the call fails with the not-configured error |
| AiService.Chat | backend/app/services/ai_service.py:102-109 | `chat`: the OpenAI or xAI call chosen by Route, or "Unsupported provider: " + name; proved case-blind in ChatRoutingIgnoresCase |
| AiService.Route | backend/app/services/ai_service.py:102-109 | OpenAI iff the lower-cased name is "openai", xAI iff it is "xai" |
| AiService.ChatRoutingIgnoresCase | backend/app/services/ai_service.py:102-109 | names equal up to case route the same; an unknown name gives "Unsupported provider: " + name |
| AiService.MissingKeyFailsBeforeRequest | backend/app/services/ai_service.py:11-45 | with the routed provider's key missing, the result fails, mentions "API key not configured", and does not depend on the network |
| AiService.OpenAIErrorsCarryPrefix | backend/app/services/ai_service.py:37-40 | an OpenAI API or other error yields a message containing "OpenAI API error" |
| Models.FindChat | backend/app/api/chat.py:52 | a row with the id, or None iff no row has it |
| Models.MessagesOf | backend/app/api/chat.py:73 | exactly the messages of the chat |
| Models.MessagesNotOf | backend/app/models/chat.py:16 | exactly the messages of other chats |
| Models.MessagesWithoutId | backend/app/api/chat.py:199 | exactly the messages with another id |
| Models.ChatsWithoutId | backend/app/api/chat.py:65 | exactly the chats with another id |
| Models.FilesOf | backend/app/api/files.py:60 | exactly the files of the chat |
| Models.FilesNotOf | backend/app/models/chat.py:17 | exactly the files of other chats |
| Models.FilesWithoutId | backend/app/api/files.py:91 | exactly the files with another id |
| Models.FindFile | backend/app/api/files.py:83-86 | a file with both the id and the chat id, or None iff there is none |
| Models.Touch | backend/app/api/chat.py:175 | only the chat with the id gets the new updated_at; every other row is unchanged |
| Models.Database.constructor | backend/app/models/chat.py:6-42 | empty tables satisfy the invariant |
| Models.Database.InsertChat | backend/app/api/chat.py:128-135 | appends a row with a fresh id and both timestamps now, keeping the invariant |
| Models.Database.InsertMessage | backend/app/api/chat.py:139-146 | appends a message with a fresh id to an existing chat, keeping the invariant |
| Models.Database.DeleteMessage | backend/app/api/chat.py:199-200 | removes the message with the id and keeps the invariant |
| Models.Database.TouchChat | backend/app/api/chat.py:175-177 | sets the chat's updated_at and keeps the invariant |
| Models.Database.DeleteChat | backend/app/models/chat.py:16-17 | removes the chat and cascades to its messages and files |
| Models.Database.InsertFile | backend/app/api/files.py:29-40 | appends a file row with a fresh id |
| Models.Database.DeleteFile | backend/app/api/files.py:91-92 | removes the file with the id |
| Models.MessagesWithoutIdKeepsOrder | backend/app/api/chat.py:199-200 | removing a message keeps creation order |
| Models.WithoutIdKeepsUnique | backend/app/api/chat.py:199-200 | removing a message keeps ids unique |
| Models.MessagesNotOfKeepsOrder | backend/app/models/chat.py:16 | the cascade keeps creation order and unique ids |
| Models.TouchKeepsChats | backend/app/api/chat.py:175 | touching keeps every chat present and every id and timestamp within bounds |
| Models.TouchKeepsUnique | backend/app/api/chat.py:175 | touching keeps chat ids unique |
| Models.ChatsWithoutIdKeepsUnique | backend/app/api/chat.py:65-66 | deleting a chat keeps chat ids unique |
| Models.FilesNotOfKeepsUnique | backend/app/models/chat.py:17 | the cascade keeps file ids unique |
| Models.FilesWithoutIdKeepsUnique | backend/app/api/files.py:91-92 | deleting a file keeps file ids unique |
| ChatApi.GetChats | backend/app/api/chat.py:20-36 | one summary per chat, in table order, each with the number of its messages |
| ChatApi.CountsAddUp | backend/app/api/chat.py:20-36 | the message counts of all chats add up to the number of messages |
| ChatApi.CreateChat | backend/app/api/chat.py:39-46 | appends a chat with a fresh id and returns it with no messages |
| ChatApi.GetChat | backend/app/api/chat.py:49-55 | 404 iff there is no such chat; otherwise the stored row with exactly its messages |
| ChatApi.DeleteChat | backend/app/api/chat.py:58-67 | 404 with nothing changed, or the chat, its messages and its files are gone while other chats' messages stay |
| ChatApi.CascadeKeepsOtherChats | backend/app/api/chat.py:58-67 | the cascade leaves other chats' messages unchanged |
| ChatApi.GetMessages | backend/app/api/chat.py:70-74 | exactly the chat's messages, in creation order, without duplicates |
| ChatApi.MessagesOfKeepsOrder | backend/app/api/chat.py:73 | a chat's messages keep creation order and unique ids |
| ChatApi.GetModels | backend/app/api/chat.py:77-112 | `get_models`; its outcomes are proved in GetModelsOutcomes and GetModelsIgnoresCase |
| ChatApi.GetModelsOutcomes | backend/app/api/chat.py:77-112 | 400 iff the provider is neither openai nor xai; the openai list is fixed; no network use when the xAI key is missing; an error comes with no models |
| ChatApi.GetModelsIgnoresCase | backend/app/api/chat.py:80-88 | providers equal up to case get the same answer |
| ChatApi.Title | backend/app/api/chat.py:129 | content up to 50 characters is the title; longer content gives its first 50 characters and "..." |
| ChatApi.Conversation | backend/app/api/chat.py:150-151 | one turn per message, in order, with its role and content |
| ChatApi.ErrorStatus | backend/app/api/chat.py:203-220 | the mapping of an AI failure to an HTTP error; classified in ErrorStatusClassifies |
| ChatApi.ErrorStatusClassifies | backend/app/api/chat.py:203-220 | 400 iff the text contains one of the three phrases; otherwise 500 with "AI service error: " + text |
| ChatApi.MissingKeyIs400 | backend/app/api/chat.py:204-208 | a missing key is answered 400 with the upper-cased provider's message |
| ChatApi.XaiStatusErrorIs400 | backend/app/api/chat.py:209-213 | an xAI HTTP error other than 401 and 429 is answered 400 |
| ChatApi.OpenAIApiErrorIs400 | backend/app/api/chat.py:214-218 | an OpenAI API error is answered 400 |
| ChatApi.RollbackRestores | backend/app/api/chat.py:198-201 | deleting the saved message restores the table |
| ChatApi.GetOrCreateChat | backend/app/api/chat.py:124-136 | finds the chat or appends a new one titled from the content with the request's provider and model |
| ChatApi.SaveReply | backend/app/api/chat.py:166-194 | appends the reply, touches the chat and answers with the pair and the chat's new count |
| ChatApi.DropSavedMessage | backend/app/api/chat.py:198-201 | the message table is as before the user's message |
| ChatApi.FinishKeepsReply | backend/app/api/chat.py:166-194 | on a reply the chat's messages grow by exactly the user's message and then the assistant's reply; no other chat's messages change; only that chat's `updated_at` moves; the count answered is the chat's new number of messages |
| ChatApi.SendOutcome | backend/app/api/chat.py:115-220 | the tables and the answer of `send_message` for a given AI reply; SendMessage is proved equal to it, and the Send lemmas state its properties |
| ChatApi.SendCreatesMissingChat | backend/app/api/chat.py:125-136 | an unknown chat id creates one chat with a fresh id, the title of the content, and the request's provider and model |
| ChatApi.SendFailureRollsBack | backend/app/api/chat.py:196-220 | on failure the messages are unchanged, the error is mapped, and a created chat stays |
| ChatApi.SendSuccessTable | backend/app/api/chat.py:166-194 | on success exactly the user message and the reply are appended and returned |
| ChatApi.SendSuccessAddsPair | backend/app/api/chat.py:138-194 | the chat gains its user message and the reply, the count matches, and updated_at is now |
| ChatApi.SendLeavesOtherChats | backend/app/api/chat.py:115-220 | other chats' messages are untouched whatever happens |
| ChatApi.SaveUserMessage | backend/app/api/chat.py:138-151 | saves the user message; the history sent is the chat's messages after it |
| ChatApi.FinishSend | backend/app/api/chat.py:154-220 | the tables and the answer are the outcome of the reply |
| ChatApi.SendMessage | backend/app/api/chat.py:115-220 | the tables and the answer are `SendOutcome` of the old tables and the AI reply to the sent history; files untouched |
| FilesApi.UploadFile | backend/app/api/files.py:13-53 | an extraction error is answered 500 with its text and adds nothing; otherwise one row is added and described |
| FilesApi.ValidationErrorsBecome500 | backend/app/api/files.py:51-53 | an upload without a name is answered 500 "400: No filename provided" |
| FilesApi.IntendedUploadStatus | backend/app/api/files.py:20-53 | passing the error through would give 400 exactly for the upload's own faults and 500 for parser failures |
| FilesApi.UploadRecordFaithful | backend/app/api/files.py:24-36 | the row keeps the original name and an extractable type; its size is the text's length; the stored name keeps the extension |
| FilesApi.ChatFiles | backend/app/api/files.py:55-74 | one response per file of the chat, in order |
| FilesApi.ChatFilesExactly | backend/app/api/files.py:60-73 | every file of the chat is listed and only those |
| FilesApi.DeleteFile | backend/app/api/files.py:76-94 | 404 with nothing changed unless a file matches both ids; otherwise it is removed |
| FilesApi.RemovesExactlyOne | backend/app/api/files.py:91-92 | when no other row has the id, deleting by it removes that one row and keeps the others in order |
| FilesApi.DeleteRemovesMatch | backend/app/api/files.py:83-92 | a successful delete removes exactly the matched row |
| App.AfterLoadChats | frontend/src/App.js:28-36 | `loadChats`: the list replaced, or "Failed to load chats" |
| App.AfterChatChange | frontend/src/App.js:19-26 | the `currentChat` effect: a chat with an id loads its messages, otherwise none are shown |
| App.AfterSelect | frontend/src/App.js:48-56 | `handleChatSelect`: the fetched chat becomes current, or the error is set |
| App.AfterNewChat | frontend/src/App.js:58-67 | `handleNewChat`: the draft chat with no messages |
| App.AfterDelete | frontend/src/App.js:69-83 | `handleDeleteChat`: the list reloaded and the current chat closed if it was deleted, or the error set |
| App.Sending | frontend/src/App.js:86-87 | the start of `handleSendMessage`: loading on, error cleared |
| App.AfterSend | frontend/src/App.js:88-109 | the rest of `handleSendMessage` once the request has answered |
| App.Send | frontend/src/App.js:85-110 | a whole `handleSendMessage`; the App lemmas state its properties |
| App.SendTargetIsCurrent | frontend/src/App.js:90 | a send goes to the current chat's id iff it is truthy, else to 0 |
| App.NewChatIsDraft | frontend/src/App.js:58-67 | a new chat is the openai/gpt-3.5-turbo draft without id and messages; its send goes to 0 |
| App.SendingState | frontend/src/App.js:86-87 | while a send is pending, loading is on and the error cleared |
| App.SendSuccess | frontend/src/App.js:93-109 | the pair is appended after unchanged messages; a chat without id adopts the server's chat; loading ends; a failed reload sets its error |
| App.SendFailure | frontend/src/App.js:104-109 | a failed send only sets "Failed to send message" and ends loading |
| App.NextSendGoesToCreatedChat | frontend/src/App.js:90-96 | after a first send from a new chat, the next send targets the created chat |
| App.DeleteClosesOnlyCurrent | frontend/src/App.js:69-83 | the shown chat closes iff it is the one deleted; a failed delete only sets its error |
| App.ChatChangeLoads | frontend/src/App.js:20-26 | a chat with a truthy id shows its loaded messages; otherwise none are shown |
| App.HandlersKeepCoherent | frontend/src/App.js:20-110 | no handler leaves messages shown without a chat |
| App.App.constructor | frontend/src/App.js:8-12 | the initial state |
| App.App.LoadChats | frontend/src/App.js:28-36 | the new state is the load-chats transition, and the application invariant is kept |
| App.App.OnCurrentChatChanged | frontend/src/App.js:20-26 | the new state is the chat-change transition |
| App.App.HandleChatSelect | frontend/src/App.js:48-56 | the new state is the select transition |
| App.App.HandleNewChat | frontend/src/App.js:58-67 | the new state is the new-chat transition |
| App.App.HandleDeleteChat | frontend/src/App.js:69-83 | the new state is the delete transition |
| App.App.BeginSend | frontend/src/App.js:86-90 | loading on, error cleared, and the target id returned |
| App.App.EndSend | frontend/src/App.js:91-109 | the new state is the after-send transition |
| App.App.HandleSendMessage | frontend/src/App.js:85-110 | the new state is the whole send transition |
| ChatList.Insert | frontend/src/components/ChatList.js:25-29 | inserting adds exactly one element |
| ChatList.SortChats | frontend/src/components/ChatList.js:25-29 | the sorted list is a permutation of the chats |
| ChatList.SortChatsOrdered | frontend/src/components/ChatList.js:25-29 | the sorted list is ordered by updated_at, else created_at, most recent first |
| ChatList.SortChatsStable | frontend/src/components/ChatList.js:25-29 | chats with equal keys keep their input order |
| ChatList.TotalPages | frontend/src/components/ChatList.js:31-32 | the smallest page count that holds all chats at ten per page |
| ChatList.SliceIndex | frontend/src/components/ChatList.js:35 | slice positions are clamped to the array, and in-range positions are kept |
| ChatList.PageIsWindow | frontend/src/components/ChatList.js:33-35 | page p shows chats (p-1)·10 up to p·10, at most ten, and is non-empty for every page in range |
| ChatList.PagesCoverList | frontend/src/components/ChatList.js:31-35 | the pages in order give back the whole sorted list |
| ChatList.Clamp | frontend/src/components/ChatList.js:37-39 | the page is kept within [1, total] and is 1 when there are no pages |
| ChatList.NavigationMovesByOne | frontend/src/components/ChatList.js:41-47 | previous and next move by one page and stay in range; each is disabled exactly when it would not move |
| ChatList.StalePageAfterDelete | frontend/src/components/ChatList.js:11-35 | on page 2 of 11 chats, deleting one shows an empty page with the controls hidden |
| ChatList.ShownPageNeverEmpty | frontend/src/components/ChatList.js:33-39 | a page clamped to the current list is never empty for a non-empty list |
| ChatList.Pager.constructor | frontend/src/components/ChatList.js:11 | the list starts on page 1 |
| ChatList.Pager.GoToPage | frontend/src/components/ChatList.js:37-39 | the page becomes the clamped page |
| ChatList.Pager.GoToPreviousPage | frontend/src/components/ChatList.js:41-43 | the page becomes the clamped previous page |
| ChatList.Pager.GoToNextPage | frontend/src/components/ChatList.js:45-47 | the page becomes the clamped next page |
| ChatList.Pager.CurrentChats | frontend/src/components/ChatList.js:25-35 | the page sliced with `currentPage` as it stands: at most ten of the chats; while the page is in range it is empty only for an empty list, but past the end it may be empty |
| ChatList.Pager.ShownChats | frontend/src/components/ChatList.js:31-39 | the corrected page, clamped to the current list: at most ten of the chats, and empty exactly when the list is |
| ChatWindow.ModePrefixesDiffer | frontend/src/components/ChatWindow.js:42-52 | the four switch settings give four different prefixes |
| ChatWindow.BuildContent | frontend/src/components/ChatWindow.js:40-52 | the content is the prefix for the switches, then the typed text, untrimmed |
| ChatWindow.MessageDataForwards | frontend/src/components/ChatWindow.js:54-60 | the request keeps provider, model and switches, and ends with the typed text |
| ChatWindow.ModelOptions | frontend/src/components/ChatWindow.js:74-89 | `getModelOptions`; characterised in ModelOptionsByProvider |
| ChatWindow.ModelOptionsByProvider | frontend/src/components/ChatWindow.js:74-89 | three models for "openai" and "xai", none for any other name |
| ChatWindow.FirstModelIsOffered | frontend/src/components/ChatWindow.js:105-107 | the model chosen on a provider change is offered by it, or '' iff none is |
| ChatWindow.ChatWindow.constructor | frontend/src/components/ChatWindow.js:12-16 | the form starts empty, on openai/gpt-3.5-turbo, with both switches off |
| ChatWindow.ChatWindow.OnCurrentChatChanged | frontend/src/components/ChatWindow.js:28-33 | a chat sets provider and model from its own, with openai/gpt-3.5-turbo for empty values |
| ChatWindow.ChatWindow.OnProviderChange | frontend/src/components/ChatWindow.js:105-107 | the provider is set and the model becomes its first option |
| ChatWindow.ChatWindow.OnModelChange | frontend/src/components/ChatWindow.js:115 | the model is set |
| ChatWindow.ChatWindow.OnInputChange | frontend/src/components/ChatWindow.js:234-240 | the text is set, unless the box is disabled while loading |
| ChatWindow.ChatWindow.ToggleThinking | frontend/src/components/ChatWindow.js:211-216 | the switch flips unless loading |
| ChatWindow.ChatWindow.ToggleDeepResearch | frontend/src/components/ChatWindow.js:221-226 | the switch flips unless loading |
| ChatWindow.ChatWindow.HandleSubmit | frontend/src/components/ChatWindow.js:35-67 | nothing is sent iff loading or the text is all whitespace; otherwise the request is built and the form reset |
| ChatWindow.ChatWindow.ResetForm | frontend/src/components/ChatWindow.js:63-66 | text cleared, both switches off |
| FileUpload.Process | frontend/src/components/FileUpload.js:47-80 | one iteration of the upload loop: rejected with an alert, or sent and added or alerted; characterised in ProcessChecksFirst |
| FileUpload.ProcessChecksFirst | frontend/src/components/FileUpload.js:47-80 | a file is turned away before any request iff it fails the MIME or size check; 10 MB exactly passes |
| FileUpload.AcceptedExactly | frontend/src/components/FileUpload.js:47-56 | exactly the acceptable files are sent |
| FileUpload.EachFileAccountedFor | frontend/src/components/FileUpload.js:47-80 | every file is either added or alerted; no more are added than sent |
| FileUpload.BatchesCompose | frontend/src/components/FileUpload.js:47-56 | a rejected file does not stop the rest: a batch is its halves in order |
| FileUpload.WithoutFile | frontend/src/components/FileUpload.js:93 | exactly the entries with another id remain |
| FileUpload.WithoutAbsentFile | frontend/src/components/FileUpload.js:93 | removing an unlisted id changes nothing |
| FileUpload.WithoutFileAppend | frontend/src/components/FileUpload.js:93 | removal works piece by piece, so the order of the others is kept |
| FileUpload.GetFileType | frontend/src/components/FileUpload.js:34-37 | the lower-cased text after the last '.', or the whole name |
| FileUpload.SameTypeAsServer | frontend/src/components/FileUpload.js:34-37 | for every file the server allows, the client's type equals the server's |
| FileUpload.FileUpload.constructor | frontend/src/components/FileUpload.js:6-7 | not uploading, no files |
| FileUpload.FileUpload.UploadFiles | frontend/src/components/FileUpload.js:44-84 | the list gains the stored files in order; the files sent and the alerts are as specified; uploading ends false |
| FileUpload.FileUpload.DeleteFile | frontend/src/components/FileUpload.js:86-104 | after success the entries with the id are gone; after failure the list stays and an alert is shown |
| FileUpload.FileUpload.LoadExistingFiles | frontend/src/components/FileUpload.js:123-140 | for a truthy chat id the answer's files replace the list, or [] when there are none |

## Findings

| source | as written | input that shows it | evidently intended | confidence | as-written member | corrected member |
|---|---|---|---|---|---|---|
| frontend/src/components/ChatList.js:11-39 | `currentPage` is clamped only when a button is pressed, not when `chats` shrinks | 11 chats, press next (page 2), delete one chat: 10 chats on page 2 | the page stays within the current list, so a non-empty list never shows an empty page | medium, not executed | ChatList.StalePageAfterDelete | ChatList.Pager.ShownChats |
| backend/app/api/files.py:51-53 | `except Exception` also catches the `HTTPException`s raised by validation and re-raises them as 500 with "400: …" text | an upload without a filename | client faults reach the client as 400 with their own detail | high, not executed | FilesApi.ValidationErrorsBecome500 | FilesApi.IntendedUploadStatus |

`ChatList.Pager.CurrentChats` and `FilesApi.UploadFile` model the code as written. `ChatList.Pager.ShownChats` and `FilesApi.IntendedUploadStatus` are the corrected versions.

## Left out

- ChatApi.ErrorStatusClassifies: maps any error text to 400 or 500, but it is not proved which concrete provider errors land where. The authentication-failed and rate-limit texts contain none of the three phrases, so `send_message` answers them with 500. That is not proved, because proving that a literal lacks a substring is too costly.
- Text.Lower: maps ASCII letters only. Python's `lower()` and JavaScript's `toLowerCase()` map all of Unicode.
- Network transports are parameters that give a success or a failure, not modelled behaviour. This covers axios in api.js, `fetch` in FileUpload.js, httpx and the OpenAI SDK.
- Document parsing is a parameter `extract`. This covers pypdf, python-docx, the utf-8 read with its latin-1 fallback, the temporary file and its removal.
- The uuid in a stored file name is a parameter `stem`.
- The database engine, sessions, commit and refresh are not modelled. Each table is a sequence, and each endpoint runs without interleaving.
- Ids come from counters that never go back. The database may reuse the id of a deleted last row, and the model does not reuse ids.
- Timestamps are integers, with one `now` per request, so the model collapses a request to one instant. In `send_message` the reply's `created_at` and the chat's new `updated_at` are taken after the awaited AI call. They are later than the user message's time by that call's duration, which is up to the 60-second httpx timeout for xAI and unbounded for OpenAI. `ChatApi.SendSuccessAddsPair` and `ChatApi.FinishKeepsReply` give both the request's single `now`.
- `order_by(created_at)` is the table order. The invariant keeps creation times non-decreasing, and ties keep insertion order.
- `str(HTTPException)` is Starlette's "<status>: <detail>". Python's own `str` of an exception is not modelled.
- The xAI model list in `get_models` is opaque data.
- The frontend's rendering is not modelled. This covers markdown, icons, `formatTime`/`formatDate`, scrolling, the drag-over flag, the typing indicator and the error banner's close button.
- The backend's `logger.info` and `logger.error` calls in chat.py and ai_service.py are left out. They change no state and no answer.
- The backend gives `thinkingMode` and `deepResearchMode` of `SendMessageRequest` a default of false (backend/app/api/schemas.py:58-59). In the model both fields are required. The frontend always sends both.
- `alert` and `console.error` are left out. FileUpload returns its alerts as strings.
- The `onFileUploaded` and `onFileDeleted` callbacks of FileUpload are not modelled, and no component in the source passes them.
- React's asynchronous state updates are not modelled. Each handler runs to completion on the state it starts from. `handleDeleteChat` compares against the chat captured when it started, which the model matches.
- The `currentChat` effect that follows a send is not chained into the send. It is modelled as its own transition, `App.App.OnCurrentChatChanged`.
- `new Date(...)` is an integer key. Invalid dates, which compare as NaN in JavaScript, are not modelled.
- JavaScript numbers are unbounded integers. Sizes beyond 2^53 are not modelled.
- Settings loading, CORS and app wiring are not modelled. The two API keys are a `Settings` value.
