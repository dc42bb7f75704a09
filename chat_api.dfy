/** backend/app/api/chat.py: the chat endpoints over the database session. Each
    handler is a method on `Models.Database`; the AI call of `send_message` is
    `AiService.Chat` with the network as a parameter, and `now` stands for
    `datetime.utcnow()`. */
module ChatApi {
  import opened Wrappers
  import opened Text
  import opened Models
  import opened Schemas
  import AiService

  const ChatNotFound := HttpError(404, "Chat not found")

  // ---------------------------------------------------------------------------
  // get_chats

  /** The sum of the message counts of `chats`. */
  function TotalCount(chats: seq<ChatRow>, messages: seq<MessageRow>): nat
  {
    if chats == [] then 0 else |MessagesOf(messages, chats[0].id)| + TotalCount(chats[1..], messages)
  }

  /** How many chats carry this id. */
  function IdCount(chats: seq<ChatRow>, id: int): nat
  {
    if chats == [] then 0 else (if chats[0].id == id then 1 else 0) + IdCount(chats[1..], id)
  }

  /** `get_chats`: one summary per chat, in table order, each with the number
      of messages whose `chat_id` is that chat's id. */
  method GetChats(db: Database) returns (result: seq<ChatResponse>)
    ensures |result| == |db.chats|
    ensures forall i :: 0 <= i < |result| ==>
      result[i] == Summary(db.chats[i], |MessagesOf(db.messages, db.chats[i].id)|)
  {
    result := [];
    var i := 0;
    while i < |db.chats|
      invariant 0 <= i <= |db.chats| && |result| == i
      invariant forall k :: 0 <= k < i ==> result[k] == Summary(db.chats[k], |MessagesOf(db.messages, db.chats[k].id)|)
    {
      var chat := db.chats[i];
      var messageCount := |MessagesOf(db.messages, chat.id)|;
      result := result + [Summary(chat, messageCount)];
      i := i + 1;
    }
  }

  /** Since every message belongs to exactly one stored chat, the counts
      `get_chats` reports add up to the number of stored messages. */
  lemma {:induction false} CountsAddUp(chats: seq<ChatRow>, messages: seq<MessageRow>)
    requires ChatIdsUnique(chats)
    requires forall m :: m in messages ==> HasChat(chats, m.chatId)
    ensures TotalCount(chats, messages) == |messages|
  {
    if messages == [] {
      NothingToCount(chats);
    } else {
      var m, rest := messages[0], messages[1..];
      assert messages == [m] + rest;
      assert forall x :: x in rest ==> x in messages;
      CountsAddUp(chats, rest);
      TotalCountCons(chats, m, rest);
      IdCountOne(chats, m.chatId);
    }
  }

  lemma {:induction false} NothingToCount(chats: seq<ChatRow>)
    ensures TotalCount(chats, []) == 0
  {
    if chats != [] {
      NothingToCount(chats[1..]);
    }
  }

  lemma {:induction false} TotalCountCons(chats: seq<ChatRow>, m: MessageRow, rest: seq<MessageRow>)
    ensures TotalCount(chats, [m] + rest) == TotalCount(chats, rest) + IdCount(chats, m.chatId)
  {
    if chats != [] {
      assert ([m] + rest)[0] == m && ([m] + rest)[1..] == rest;
      TotalCountCons(chats[1..], m, rest);
    }
  }

  lemma {:induction false} IdCountOne(chats: seq<ChatRow>, id: int)
    requires ChatIdsUnique(chats) && HasChat(chats, id)
    ensures IdCount(chats, id) == 1
  {
    var c :| c in chats && c.id == id;
    if chats[0].id == id {
      forall d | d in chats[1..] ensures d.id != id {
        var k :| 0 <= k < |chats[1..]| && chats[1..][k] == d;
        assert chats[k + 1] == d;
      }
      IdCountZero(chats[1..], id);
    } else {
      assert c in chats[1..];
      IdCountOne(chats[1..], id);
    }
  }

  lemma {:induction false} IdCountZero(chats: seq<ChatRow>, id: int)
    requires forall c :: c in chats ==> c.id != id
    ensures IdCount(chats, id) == 0
  {
    if chats != [] {
      assert chats[0] in chats;
      IdCountZero(chats[1..], id);
    }
  }

  // ---------------------------------------------------------------------------
  // create_chat, get_chat, delete_chat, get_messages

  /** `create_chat`. */
  method CreateChat(db: Database, title: string, provider: string, model: string, now: int) returns (chat: ChatDetail)
    requires db.Valid() && now >= db.clock
    modifies db
    ensures db.Valid()
    ensures chat == Detail(ChatRow(old(db.nextChatId), title, provider, model, now, now), [])
    ensures db.chats == old(db.chats) + [ChatRow(chat.id, title, provider, model, now, now)]
    ensures db.messages == old(db.messages) && db.files == old(db.files)
  {
    var row := db.InsertChat(title, provider, model, now);
    chat := Detail(row, []);
  }

  /** `get_chat`: the chat with its messages, or 404. */
  method GetChat(db: Database, chatId: int) returns (r: Result<ChatDetail, HttpError>)
    ensures r.Err? <==> !HasChat(db.chats, chatId)
    ensures r.Err? ==> r.error == ChatNotFound
    ensures r.Ok? ==> r.value.id == chatId && r.value.updatedAt.Some? && ChatRow(chatId, r.value.title,
      r.value.modelProvider, r.value.modelName, r.value.createdAt, r.value.updatedAt.value) in db.chats
    ensures r.Ok? ==> forall m :: m in r.value.messages <==> m in db.messages && m.chatId == chatId
  {
    var chat := FindChat(db.chats, chatId);
    if chat.None? {
      return Err(ChatNotFound);
    }
    r := Ok(Detail(chat.value, MessagesOf(db.messages, chatId)));
  }

  /** `delete_chat`: 404 when there is no such chat, otherwise the chat goes
      and the cascade takes its messages and files with it. */
  method DeleteChat(db: Database, chatId: int) returns (r: Result<string, HttpError>)
    requires db.Valid()
    modifies db
    ensures db.Valid()
    ensures !HasChat(old(db.chats), chatId) ==>
      r == Err(ChatNotFound) && db.chats == old(db.chats) && db.messages == old(db.messages) && db.files == old(db.files)
    ensures HasChat(old(db.chats), chatId) ==>
      r == Ok("Chat deleted successfully") &&
      db.chats == ChatsWithoutId(old(db.chats), chatId) &&
      db.messages == MessagesNotOf(old(db.messages), chatId) &&
      db.files == FilesNotOf(old(db.files), chatId)
    ensures !HasChat(db.chats, chatId) && MessagesOf(db.messages, chatId) == []
    ensures HasChat(old(db.chats), chatId) ==> FilesOf(db.files, chatId) == []
    ensures forall other :: other != chatId ==> MessagesOf(db.messages, other) == MessagesOf(old(db.messages), other)
  {
    var chat := FindChat(db.chats, chatId);
    if chat.None? {
      NoMessagesOf(db.messages, chatId);
      return Err(ChatNotFound);
    }
    ghost var before := db.messages;
    db.DeleteChat(chatId);
    NoMessagesOf(db.messages, chatId);
    NoFilesOf(db.files, chatId);
    forall other | other != chatId ensures MessagesOf(db.messages, other) == MessagesOf(before, other) {
      CascadeKeepsOtherChats(before, chatId, other);
    }
    r := Ok("Chat deleted successfully");
  }

  /** Nothing left of a chat is found by the per-chat queries. */
  lemma {:induction false} NoMessagesOf(messages: seq<MessageRow>, chatId: int)
    requires forall m :: m in messages ==> m.chatId != chatId
    ensures MessagesOf(messages, chatId) == []
  {
    if messages != [] {
      assert messages[0] in messages;
      assert forall m :: m in messages[1..] ==> m in messages;
      NoMessagesOf(messages[1..], chatId);
    }
  }

  lemma {:induction false} NoFilesOf(files: seq<FileRow>, chatId: int)
    requires forall f :: f in files ==> f.chatId != chatId
    ensures FilesOf(files, chatId) == []
  {
    if files != [] {
      assert files[0] in files;
      assert forall f :: f in files[1..] ==> f in files;
      NoFilesOf(files[1..], chatId);
    }
  }

  /** The cascade of one chat leaves the message list of every other chat
      exactly as it was, order included. */
  lemma {:induction false} CascadeKeepsOtherChats(messages: seq<MessageRow>, chatId: int, other: int)
    requires other != chatId
    ensures MessagesOf(MessagesNotOf(messages, chatId), other) == MessagesOf(messages, other)
  {
    if messages != [] {
      CascadeKeepsOtherChats(messages[1..], chatId, other);
      if messages[0].chatId != chatId {
        var rest := MessagesNotOf(messages[1..], chatId);
        assert ([messages[0]] + rest)[0] == messages[0] && ([messages[0]] + rest)[1..] == rest;
      }
    }
  }

  /** `get_messages`: the messages of the chat, ordered by `created_at`. */
  method GetMessages(db: Database, chatId: int) returns (messages: seq<MessageRow>)
    requires db.Valid()
    ensures forall m :: m in messages <==> m in db.messages && m.chatId == chatId
    ensures ByCreation(messages)
    ensures forall i, j :: 0 <= i < j < |messages| ==> messages[i].id != messages[j].id
  {
    MessagesOfKeepsOrder(db.messages, chatId);
    messages := MessagesOf(db.messages, chatId);
  }

  /** Filtering an ordered table keeps it ordered and its ids distinct. */
  lemma {:induction false} MessagesOfKeepsOrder(messages: seq<MessageRow>, chatId: int)
    requires ByCreation(messages) && MessageIdsUnique(messages)
    ensures ByCreation(MessagesOf(messages, chatId)) && MessageIdsUnique(MessagesOf(messages, chatId))
  {
    if messages != [] {
      var rest := MessagesOf(messages[1..], chatId);
      MessagesOfKeepsOrder(messages[1..], chatId);
      if messages[0].chatId == chatId {
        forall m | m in rest ensures messages[0].createdAt <= m.createdAt && messages[0].id != m.id {
          var k :| 0 <= k < |messages[1..]| && messages[1..][k] == m;
          assert messages[k + 1] == m;
        }
        ConsKeepsOrder(messages[0], rest);
      }
    }
  }

  // ---------------------------------------------------------------------------
  // get_models

  datatype ModelOption = ModelOption(id: string, name: string)

  /** The JSON object `get_models` returns: the models and an optional error. */
  datatype ModelsReply = ModelsReply(models: seq<ModelOption>, error: Option<string>)

  /** How the request for xAI's model list ends. */
  datatype ModelsFetch = Fetched(status: int, data: seq<ModelOption>) | FetchFailed(message: string)

  const OpenAIModels: seq<ModelOption> := [
    ModelOption("gpt-3.5-turbo", "GPT-3.5 Turbo"),
    ModelOption("gpt-4", "GPT-4"),
    ModelOption("gpt-4-turbo", "GPT-4 Turbo")
  ]

  /** `get_models`. */
  function GetModels(provider: string, settings: AiService.Settings, fetch: ModelsFetch): (r: Result<ModelsReply, HttpError>)
  {
    if Lower(provider) == "openai" then Ok(ModelsReply(OpenAIModels, None))
    else if Lower(provider) == "xai" then
      if !AiService.KeyConfigured(settings.xaiApiKey, AiService.XaiKeyPlaceholder) then
        Ok(ModelsReply([], Some("xAI " + AiService.KeyNotConfigured)))
      else
        match fetch
        case Fetched(status, data) =>
          if status == 200 then Ok(ModelsReply(data, None))
          else Ok(ModelsReply([], Some("Failed to fetch models: " + IntToString(status))))
        case FetchFailed(m) => Ok(ModelsReply([], Some("Error fetching models: " + m)))
    else Err(HttpError(400, "Unsupported provider: " + provider))
  }

  /** Only an unknown provider is an HTTP error; the OpenAI list is fixed and
      an unconfigured xAI key is reported without any request, so in both
      cases the answer is the same whatever the network does. A list is only
      returned together with no error. */
  lemma GetModelsOutcomes(provider: string, settings: AiService.Settings, f1: ModelsFetch, f2: ModelsFetch)
    ensures GetModels(provider, settings, f1).Err? <==> Lower(provider) != "openai" && Lower(provider) != "xai"
    ensures GetModels(provider, settings, f1).Err? ==> GetModels(provider, settings, f1).error.status == 400
    ensures Lower(provider) == "openai" ==> GetModels(provider, settings, f1) == Ok(ModelsReply(OpenAIModels, None))
    ensures Lower(provider) == "openai" || (Lower(provider) == "xai" && !AiService.KeyConfigured(settings.xaiApiKey, AiService.XaiKeyPlaceholder))
      ==> GetModels(provider, settings, f1) == GetModels(provider, settings, f2)
    ensures GetModels(provider, settings, f1).Ok? && GetModels(provider, settings, f1).value.error.Some?
      ==> GetModels(provider, settings, f1).value.models == []
  {
  }

  /** Letter case of the provider name does not change the list. */
  lemma GetModelsIgnoresCase(p1: string, p2: string, settings: AiService.Settings, fetch: ModelsFetch)
    requires EqualIgnoringCase(p1, p2)
    requires Lower(p1) == "openai" || Lower(p1) == "xai"
    ensures GetModels(p1, settings, fetch) == GetModels(p2, settings, fetch)
  {
  }

  // ---------------------------------------------------------------------------
  // send_message

  /** The title of a chat created by its first message. */
  function Title(content: string): (r: string)
    ensures |r| <= 53
    ensures |content| <= 50 ==> r == content
    ensures |content| > 50 ==> |r| == 53 && r[..50] == content[..50] && r[50..] == "..."
  {
    if |content| > 50 then content[..50] + "..." else content
  }

  /** `[{"role": m.role, "content": m.content} for m in messages]`. */
  function Conversation(messages: seq<MessageRow>): (turns: seq<AiService.Turn>)
    ensures |turns| == |messages|
    ensures forall i :: 0 <= i < |messages| ==>
      turns[i].role == RoleName(messages[i].role) && turns[i].content == messages[i].content
  {
    seq(|messages|, i requires 0 <= i < |messages| => AiService.Turn(RoleName(messages[i].role), messages[i].content))
  }

  const KeyHint := ". Please check your environment variables."
  const XaiHint := "xAI API error. Please check your xAI API key and ensure it's valid."
  const OpenAIHint := "OpenAI API error. Please check your OpenAI API key and ensure it's valid."
  const ServiceErrorPrefix := "AI service error: "

  /** The `HTTPException` raised for an AI failure with text `text`: the three
      phrases are tested in order, and anything else is a 500. */
  function ErrorStatus(text: string, provider: string): HttpError
  {
    if Contains(text, AiService.KeyNotConfigured) then
      HttpError(400, Upper(provider) + " " + AiService.KeyNotConfigured + KeyHint)
    else if Contains(text, AiService.XaiApiError) then HttpError(400, XaiHint)
    else if Contains(text, AiService.OpenAIApiError) then HttpError(400, OpenAIHint)
    else HttpError(500, ServiceErrorPrefix + text)
  }

  /** A failure is the client's (400) exactly when its text names one of the
      three phrases; otherwise it is a 500 that carries the text. */
  lemma ErrorStatusClassifies(text: string, provider: string)
    ensures var e := ErrorStatus(text, provider);
      (e.status == 400 || e.status == 500)
      && (e.status == 400 <==> Contains(text, AiService.KeyNotConfigured) || Contains(text, AiService.XaiApiError)
                               || Contains(text, AiService.OpenAIApiError))
      && (e.status == 500 ==> e.detail == ServiceErrorPrefix + text)
  {
  }

  /** Sending with a provider whose key is missing is answered 400 with the
      provider's name upper-cased, whatever the network would have said. */
  lemma MissingKeyIs400(settings: AiService.Settings, turns: seq<AiService.Turn>, provider: string, model: string,
                        t: bool, r: bool, net: AiService.Network)
    requires AiService.Route(provider).Some?
    requires AiService.Route(provider) == Some(AiService.OpenAI) ==> !AiService.KeyConfigured(settings.openaiApiKey, AiService.OpenAIKeyPlaceholder)
    requires AiService.Route(provider) == Some(AiService.Xai) ==> !AiService.KeyConfigured(settings.xaiApiKey, AiService.XaiKeyPlaceholder)
    ensures var reply := AiService.Chat(AiService.NewAIService(settings), settings, turns, provider, model, t, r, net);
      reply.Err? && ErrorStatus(reply.error, provider) == HttpError(400, Upper(provider) + " " + AiService.KeyNotConfigured + KeyHint)
  {
    AiService.MissingKeyFailsBeforeRequest(settings, turns, provider, model, t, r, net, net);
  }

  /** An xAI HTTP error other than 401 and 429 reaches the client as a 400. */
  lemma XaiStatusErrorIs400(settings: AiService.Settings, turns: seq<AiService.Turn>, provider: string, model: string,
                            t: bool, r: bool, net: AiService.Network)
    requires AiService.Route(provider) == Some(AiService.Xai)
    requires AiService.KeyConfigured(settings.xaiApiKey, AiService.XaiKeyPlaceholder)
    requires var reply := net.xai(AiService.RequestFor(model, turns, t, r));
      reply.Response? && !(200 <= reply.status < 300) && reply.status != 401 && reply.status != 429
    ensures var reply := AiService.Chat(AiService.NewAIService(settings), settings, turns, provider, model, t, r, net);
      reply.Err? && ErrorStatus(reply.error, provider).status == 400
  {
    var x := net.xai(AiService.RequestFor(model, turns, t, r));
    AiService.XaiStatusMessages(x.status, x.text);
  }

  /** An OpenAI API failure other than authentication and rate limiting
      reaches the client as a 400. */
  lemma OpenAIApiErrorIs400(settings: AiService.Settings, turns: seq<AiService.Turn>, provider: string, model: string,
                            t: bool, r: bool, net: AiService.Network)
    requires AiService.Route(provider) == Some(AiService.OpenAI)
    requires AiService.KeyConfigured(settings.openaiApiKey, AiService.OpenAIKeyPlaceholder)
    requires var reply := net.openai(AiService.RequestFor(model, turns, t, r));
      reply.ApiError? || reply.OtherError?
    ensures var reply := AiService.Chat(AiService.NewAIService(settings), settings, turns, provider, model, t, r, net);
      reply.Err? && ErrorStatus(reply.error, provider).status == 400
  {
    AiService.OpenAIErrorsCarryPrefix(AiService.NewAIService(settings), turns, model, t, r, net);
  }

  /** Appending rows to the table appends the chat's new rows to its list. */
  lemma {:induction false} MessagesOfAppend(a: seq<MessageRow>, b: seq<MessageRow>, chatId: int)
    ensures MessagesOf(a + b, chatId) == MessagesOf(a, chatId) + MessagesOf(b, chatId)
  {
    if a == [] {
      assert a + b == b;
    } else {
      assert (a + b)[0] == a[0] && (a + b)[1..] == a[1..] + b;
      MessagesOfAppend(a[1..], b, chatId);
    }
  }

  /** Deleting the just-saved message restores the table it was added to. */
  lemma {:induction false} RollbackRestores(messages: seq<MessageRow>, saved: MessageRow)
    requires forall m :: m in messages ==> m.id != saved.id
    ensures MessagesWithoutId(messages + [saved], saved.id) == messages
  {
    if messages == [] {
      assert [] + [saved] == [saved];
      assert [saved][1..] == [];
    } else {
      var rest := messages[1..];
      assert (messages + [saved])[0] == messages[0] && messages[0].id != saved.id;
      assert (messages + [saved])[1..] == rest + [saved];
      forall m | m in rest ensures m.id != saved.id {
        assert m in messages;
      }
      RollbackRestores(rest, saved);
      assert messages == [messages[0]] + rest;
    }
  }

  /** The chat a message sent to `chatId` goes to: the stored one, or else the
      one the call creates, titled after the message. */
  function TargetChat(chats: seq<ChatRow>, nextChatId: int, chatId: int, request: SendMessageRequest, now: int): ChatRow
  {
    match FindChat(chats, chatId)
    case Some(c) => c
    case None => ChatRow(nextChatId, Title(request.content), request.provider, request.model, now, now)
  }

  /** The get-or-create step of `send_message`; a created chat is committed
      at once. */
  method GetOrCreateChat(db: Database, chatId: int, request: SendMessageRequest, now: int) returns (chat: ChatRow)
    requires db.Valid() && now >= db.clock
    modifies db
    ensures db.Valid() && db.clock <= now
    ensures chat == TargetChat(old(db.chats), old(db.nextChatId), chatId, request, now)
    ensures db.chats == if FindChat(old(db.chats), chatId).Some? then old(db.chats) else old(db.chats) + [chat]
    ensures HasChat(db.chats, chat.id)
    ensures db.messages == old(db.messages) && db.files == old(db.files) && db.nextMessageId == old(db.nextMessageId)
  {
    var existing := FindChat(db.chats, chatId);
    if existing.None? {
      chat := db.InsertChat(Title(request.content), request.provider, request.model, now);
    } else {
      chat := existing.value;
    }
    assert chat in db.chats;
  }

  /** The success path of `send_message`: the reply is saved, the chat's
      `updated_at` refreshed, and the count includes both new messages. */
  method SaveReply(db: Database, chat: ChatRow, user: MessageRow, content: string, now: int)
    returns (response: SendMessageResponse)
    requires db.Valid() && now >= db.clock && HasChat(db.chats, chat.id)
    modifies db
    ensures db.Valid()
    ensures var assistant := MessageRow(old(db.nextMessageId), chat.id, Assistant, content, now);
      && db.messages == old(db.messages) + [assistant]
      && db.chats == Touch(old(db.chats), chat.id, now)
      && db.files == old(db.files)
      && response == SendMessageResponse(user, assistant,
                       Summary(chat.(updatedAt := now), |MessagesOf(old(db.messages), chat.id)| + 1))
  {
    ghost var before := db.messages;
    var assistant := db.InsertMessage(chat.id, Assistant, content, now);
    db.TouchChat(chat.id, now);
    MessagesOfAppend(before, [assistant], chat.id);
    var messageCount := |MessagesOf(db.messages, chat.id)|;
    response := SendMessageResponse(user, assistant, Summary(chat.(updatedAt := now), messageCount));
  }

  /** The user's message and then the reply, appended one at a time, are the
      pair appended at once, and the chat counts one more message after the
      first. */
  lemma PairAppended(messages: seq<MessageRow>, user: MessageRow, assistant: MessageRow)
    requires user.chatId == assistant.chatId
    ensures messages + [user] + [assistant] == messages + [user, assistant]
    ensures |MessagesOf(messages + [user], user.chatId)| == |MessagesOf(messages, user.chatId)| + 1
  {
    MessagesOfAppend(messages, [user], user.chatId);
    assert MessagesOf([user], user.chatId) == [user];
  }

  /** The failure path of `send_message`: the message just saved is deleted,
      which restores the message table. */
  method DropSavedMessage(db: Database, user: MessageRow, ghost table: seq<MessageRow>)
    requires db.Valid() && db.messages == table + [user]
    requires forall m :: m in table ==> m.id != user.id
    modifies db`messages
    ensures db.Valid() && db.messages == table
  {
    RollbackRestores(table, user);
    db.DeleteMessage(user.id);
  }

  /** The AI service `send_message` calls, with its settings and network. */
  datatype AiContext = AiContext(svc: AiService.AIService, settings: AiService.Settings, net: AiService.Network)

  /** `ai_service.chat(conversation, provider, model, thinkingMode, deepResearchMode)`. */
  function Ask(ai: AiContext, turns: seq<AiService.Turn>, request: SendMessageRequest): Result<string, string>
  {
    AiService.Chat(ai.svc, ai.settings, turns, request.provider, request.model,
                   request.thinkingMode, request.deepResearchMode, ai.net)
  }

  /** The tables after `send_message` and what it answers. */
  datatype SendResult = SendResult(chats: seq<ChatRow>, messages: seq<MessageRow>,
                                   response: Result<SendMessageResponse, HttpError>)

  /** The messages sent to the AI service: the target chat's stored
      messages followed by the one just saved. */
  function SentHistory(chats: seq<ChatRow>, messages: seq<MessageRow>, nextChatId: int, nextMessageId: int,
                       chatId: int, request: SendMessageRequest, now: int): seq<MessageRow>
  {
    var chat := TargetChat(chats, nextChatId, chatId, request, now);
    MessagesOf(messages, chat.id) + [MessageRow(nextMessageId, chat.id, User, request.content, now)]
  }

  /** How `send_message` ends once the user's message is saved: `stored` and
      `messages` are the tables before that save, `reply` the AI's answer. */
  function Finish(stored: seq<ChatRow>, messages: seq<MessageRow>, chat: ChatRow, user: MessageRow,
                  reply: Result<string, string>, provider: string, now: int): SendResult
  {
    match reply
    case Ok(text) =>
      var assistant := MessageRow(user.id + 1, chat.id, Assistant, text, now);
      SendResult(Touch(stored, chat.id, now), messages + [user, assistant],
                 Ok(SendMessageResponse(user, assistant, Summary(chat.(updatedAt := now), |MessagesOf(messages, chat.id)| + 2))))
    case Err(e) =>
      SendResult(stored, messages, Err(ErrorStatus(e, provider)))
  }

  /** `Finish` for each kind of reply, as a step of `FinishSend`'s proof. */
  lemma FinishOnReply(chats: seq<ChatRow>, messages: seq<MessageRow>, chat: ChatRow, user: MessageRow,
                      reply: Result<string, string>, provider: string, now: int)
    requires reply.Ok?
    ensures var assistant := MessageRow(user.id + 1, chat.id, Assistant, reply.value, now);
      Finish(chats, messages, chat, user, reply, provider, now)
      == SendResult(Touch(chats, chat.id, now), messages + [user, assistant],
                    Ok(SendMessageResponse(user, assistant, Summary(chat.(updatedAt := now), |MessagesOf(messages, chat.id)| + 2))))
  {
  }

  lemma FinishOnFailure(chats: seq<ChatRow>, messages: seq<MessageRow>, chat: ChatRow, user: MessageRow,
                        reply: Result<string, string>, provider: string, now: int)
    requires reply.Err?
    ensures Finish(chats, messages, chat, user, reply, provider, now)
         == SendResult(chats, messages, Err(ErrorStatus(reply.error, provider)))
  {
  }

  /** A reply keeps the user's message and adds the reply after it, both in
      the target chat and nowhere else; only that chat's `updated_at` moves,
      and the count answered is the chat's new number of messages. */
  lemma FinishKeepsReply(chats: seq<ChatRow>, messages: seq<MessageRow>, chat: ChatRow, user: MessageRow,
                          reply: Result<string, string>, provider: string, now: int)
    requires reply.Ok? && user.chatId == chat.id
    ensures var o := Finish(chats, messages, chat, user, reply, provider, now);
      && o.response.Ok? && o.response.value.message == user
      && o.response.value.assistantResponse.chatId == chat.id
      && o.response.value.assistantResponse.role == Assistant
      && o.response.value.assistantResponse.content == reply.value
      && MessagesOf(o.messages, chat.id) == MessagesOf(messages, chat.id) + [user, o.response.value.assistantResponse]
      && o.response.value.chat.messageCount == |MessagesOf(o.messages, chat.id)|
      && o.response.value.chat.updatedAt == Some(now)
    ensures var o := Finish(chats, messages, chat, user, reply, provider, now);
      forall other :: other != chat.id ==> MessagesOf(o.messages, other) == MessagesOf(messages, other)
    ensures var o := Finish(chats, messages, chat, user, reply, provider, now);
      && |o.chats| == |chats|
      && (forall i :: 0 <= i < |chats| && chats[i].id != chat.id ==> o.chats[i] == chats[i])
      && (forall i :: 0 <= i < |chats| && chats[i].id == chat.id ==> o.chats[i] == chats[i].(updatedAt := now))
  {
    var assistant := MessageRow(user.id + 1, chat.id, Assistant, reply.value, now);
    var pair := [user, assistant];
    assert Finish(chats, messages, chat, user, reply, provider, now).messages == messages + pair;
    assert pair[0] == user && pair[1..] == [assistant] && [assistant][0] == assistant && [assistant][1..] == [];
    assert MessagesOf(pair, chat.id) == pair by {
      assert MessagesOf([assistant], chat.id) == [assistant] + MessagesOf([], chat.id);
      assert MessagesOf(pair, chat.id) == [user] + MessagesOf([assistant], chat.id);
      assert MessagesOf([], chat.id) == [];
    }
    MessagesOfAppend(messages, pair, chat.id);
    forall other | other != chat.id
      ensures MessagesOf(messages + pair, other) == MessagesOf(messages, other)
    {
      MessagesOfAppend(messages, pair, other);
      NoMessagesOf(pair, other);
      assert MessagesOf(messages, other) + [] == MessagesOf(messages, other);
    }
  }

  /** What `send_message` does to the chat and message tables once the AI
      service has answered `reply`, given the tables and the ids the next
      inserts receive. */
  function SendOutcome(chats: seq<ChatRow>, messages: seq<MessageRow>, nextChatId: int, nextMessageId: int,
                       chatId: int, request: SendMessageRequest, reply: Result<string, string>, now: int): SendResult
  {
    var chat := TargetChat(chats, nextChatId, chatId, request, now);
    var stored := if FindChat(chats, chatId).Some? then chats else chats + [chat];
    Finish(stored, messages, chat, MessageRow(nextMessageId, chat.id, User, request.content, now), reply, request.provider, now)
  }

  /** A message to an id with no chat creates exactly one chat, titled
      after the message and using the request's provider and model; the chat
      is kept whether or not the AI call succeeds. */
  lemma SendCreatesMissingChat(chats: seq<ChatRow>, messages: seq<MessageRow>, nextChatId: int, nextMessageId: int,
                               chatId: int, request: SendMessageRequest, reply: Result<string, string>, now: int)
    requires forall c :: c in chats ==> c.id < nextChatId
    requires !HasChat(chats, chatId)
    ensures var o := SendOutcome(chats, messages, nextChatId, nextMessageId, chatId, request, reply, now);
      && |o.chats| == |chats| + 1
      && o.chats[..|chats|] == chats
      && o.chats[|chats|].id == nextChatId
      && o.chats[|chats|].title == Title(request.content)
      && o.chats[|chats|].modelProvider == request.provider
      && o.chats[|chats|].modelName == request.model
  {
    var chat := TargetChat(chats, nextChatId, chatId, request, now);
    assert FindChat(chats, chatId).None?;
    var stored := chats + [chat];
    if reply.Ok? {
      var t := Touch(stored, chat.id, now);
      forall i | 0 <= i < |chats| ensures t[i] == chats[i] {
        assert chats[i] in chats;
      }
    }
  }

  /** When the AI call fails the message table is as before the call: the
      saved user message is gone and nothing else changed. */
  lemma SendFailureRollsBack(chats: seq<ChatRow>, messages: seq<MessageRow>, nextChatId: int, nextMessageId: int,
                             chatId: int, request: SendMessageRequest, reply: Result<string, string>, now: int)
    requires reply.Err?
    ensures var o := SendOutcome(chats, messages, nextChatId, nextMessageId, chatId, request, reply, now);
      o.messages == messages && o.response.Err? && o.response.error == ErrorStatus(reply.error, request.provider)
      && HasChat(o.chats, TargetChat(chats, nextChatId, chatId, request, now).id)
  {
    var chat := TargetChat(chats, nextChatId, chatId, request, now);
    if FindChat(chats, chatId).Some? {
      assert FindChat(chats, chatId).value in chats;
    } else {
      assert chat in chats + [chat];
    }
  }

  /** On success the message table gains the user's message and then the
      reply, both for the target chat. */
  lemma SendSuccessTable(chats: seq<ChatRow>, messages: seq<MessageRow>, nextChatId: int, nextMessageId: int,
                         chatId: int, request: SendMessageRequest, reply: Result<string, string>, now: int)
    requires reply.Ok?
    ensures var o := SendOutcome(chats, messages, nextChatId, nextMessageId, chatId, request, reply, now);
      var chat := TargetChat(chats, nextChatId, chatId, request, now);
      var user := MessageRow(nextMessageId, chat.id, User, request.content, now);
      var assistant := MessageRow(nextMessageId + 1, chat.id, Assistant, reply.value, now);
      && o.messages == messages + [user, assistant]
      && o.response == Ok(SendMessageResponse(user, assistant, Summary(chat.(updatedAt := now), |MessagesOf(messages, chat.id)| + 2)))
  {
    var chat := TargetChat(chats, nextChatId, chatId, request, now);
    var user := MessageRow(nextMessageId, chat.id, User, request.content, now);
    if FindChat(chats, chatId).Some? {
      FinishOnReply(chats, messages, chat, user, reply, request.provider, now);
    } else {
      FinishOnReply(chats + [chat], messages, chat, user, reply, request.provider, now);
    }
  }

  /** When the AI call succeeds, the chat's message list grows by exactly the
      user's message and then the reply, and the reported count is the chat's
      new number of messages. */
  lemma SendSuccessAddsPair(chats: seq<ChatRow>, messages: seq<MessageRow>, nextChatId: int, nextMessageId: int,
                            chatId: int, request: SendMessageRequest, reply: Result<string, string>, now: int)
    requires reply.Ok?
    ensures var o := SendOutcome(chats, messages, nextChatId, nextMessageId, chatId, request, reply, now);
      var chat := TargetChat(chats, nextChatId, chatId, request, now);
      && o.response.Ok?
      && MessagesOf(o.messages, chat.id) == MessagesOf(messages, chat.id) + [o.response.value.message, o.response.value.assistantResponse]
      && o.response.value.message.role == User && o.response.value.message.content == request.content
      && o.response.value.assistantResponse.role == Assistant && o.response.value.assistantResponse.content == reply.value
      && o.response.value.chat.messageCount == |MessagesOf(o.messages, chat.id)|
      && o.response.value.chat.updatedAt == Some(now)
  {
    var chat := TargetChat(chats, nextChatId, chatId, request, now);
    var stored := if FindChat(chats, chatId).Some? then chats else chats + [chat];
    FinishKeepsReply(stored, messages, chat, MessageRow(nextMessageId, chat.id, User, request.content, now),
                     reply, request.provider, now);
  }

  /** A send touches no other chat's message list. */
  lemma SendLeavesOtherChats(chats: seq<ChatRow>, messages: seq<MessageRow>, nextChatId: int, nextMessageId: int,
                             chatId: int, request: SendMessageRequest, reply: Result<string, string>, now: int, other: int)
    requires other != TargetChat(chats, nextChatId, chatId, request, now).id
    ensures var o := SendOutcome(chats, messages, nextChatId, nextMessageId, chatId, request, reply, now);
      MessagesOf(o.messages, other) == MessagesOf(messages, other)
  {
    if reply.Ok? {
      var chat := TargetChat(chats, nextChatId, chatId, request, now);
      var stored := if FindChat(chats, chatId).Some? then chats else chats + [chat];
      FinishKeepsReply(stored, messages, chat, MessageRow(nextMessageId, chat.id, User, request.content, now),
                       reply, request.provider, now);
    } else {
      SendFailureRollsBack(chats, messages, nextChatId, nextMessageId, chatId, request, reply, now);
    }
  }

  /** The first half of `send_message`: get or create the chat, then save the
      user's message. */
  method SaveUserMessage(db: Database, chatId: int, request: SendMessageRequest, now: int)
    returns (chat: ChatRow, user: MessageRow)
    requires db.Valid() && now >= db.clock
    modifies db
    ensures db.Valid() && db.clock == now && db.files == old(db.files)
    ensures chat == TargetChat(old(db.chats), old(db.nextChatId), chatId, request, now)
    ensures user == MessageRow(old(db.nextMessageId), chat.id, User, request.content, now)
    ensures db.chats == if FindChat(old(db.chats), chatId).Some? then old(db.chats) else old(db.chats) + [chat]
    ensures db.messages == old(db.messages) + [user] && db.nextMessageId == user.id + 1
    ensures HasChat(db.chats, chat.id)
    ensures forall m :: m in old(db.messages) ==> m.id != user.id
    ensures MessagesOf(db.messages, chat.id)
         == SentHistory(old(db.chats), old(db.messages), old(db.nextChatId), old(db.nextMessageId), chatId, request, now)
  {
    chat := GetOrCreateChat(db, chatId, request, now);
    ghost var table := db.messages;
    user := db.InsertMessage(chat.id, User, request.content, now);
    MessagesOfAppend(table, [user], chat.id);
    assert [user][0] == user && [user][1..] == [];
  }

  /** The second half of `send_message`: keep the reply or drop the saved
      message, and answer. */
  method FinishSend(db: Database, chat: ChatRow, user: MessageRow, reply: Result<string, string>,
                    provider: string, now: int, ghost messages: seq<MessageRow>)
    returns (r: Result<SendMessageResponse, HttpError>)
    requires db.Valid() && now >= db.clock && HasChat(db.chats, chat.id)
    requires db.messages == messages + [user] && db.nextMessageId == user.id + 1 && user.chatId == chat.id
    requires forall m :: m in messages ==> m.id != user.id
    modifies db
    ensures db.Valid() && db.files == old(db.files)
    ensures SendResult(db.chats, db.messages, r) == Finish(old(db.chats), messages, chat, user, reply, provider, now)
  {
    ghost var chats := db.chats;
    if reply.Ok? {
      var response := SaveReply(db, chat, user, reply.value, now);
      PairAppended(messages, user, response.assistantResponse);
      r := Ok(response);
      FinishOnReply(chats, messages, chat, user, reply, provider, now);
    } else {
      DropSavedMessage(db, user, messages);
      r := Err(ErrorStatus(reply.error, provider));
      FinishOnFailure(chats, messages, chat, user, reply, provider, now);
    }
  }

  /** `send_message`. The chat is looked up or created (and committed), the
      user's message is saved, the chat's history is sent to the AI service;
      on success the reply is saved and the chat's `updated_at` refreshed, on
      failure the user's message is deleted again and the failure mapped to
      an HTTP error. */
  method SendMessage(db: Database, chatId: int, request: SendMessageRequest, ai: AiContext, now: int)
    returns (r: Result<SendMessageResponse, HttpError>)
    requires db.Valid() && now >= db.clock
    modifies db
    ensures db.Valid()
    ensures db.files == old(db.files)
    ensures var history := SentHistory(old(db.chats), old(db.messages), old(db.nextChatId), old(db.nextMessageId),
                                       chatId, request, now);
      SendResult(db.chats, db.messages, r)
      == SendOutcome(old(db.chats), old(db.messages), old(db.nextChatId), old(db.nextMessageId), chatId, request,
                     Ask(ai, Conversation(history), request), now)
  {
    ghost var messages := db.messages;
    var chat, user := SaveUserMessage(db, chatId, request, now);
    var history := MessagesOf(db.messages, chat.id);
    var reply := Ask(ai, Conversation(history), request);
    r := FinishSend(db, chat, user, reply, request.provider, now, messages);
  }
}
