/** frontend/src/App.js: the state the application keeps (`chats`,
    `currentChat`, `messages`, `isLoading`, `error`) and the handlers that
    change it. Each backend call of frontend/src/services/api.js is a
    parameter giving the outcome of that call: a value, or a failure. */
module App {
  import opened Wrappers
  import opened Models
  import opened Schemas

  /** What the application reads of `currentChat`. A chat that has not been
      sent to yet is a draft whose id is `null`. */
  datatype ChatView = ChatView(id: Option<int>, title: string, modelProvider: string, modelName: string)

  function FromResponse(c: ChatResponse): ChatView
  {
    ChatView(Some(c.id), c.title, c.modelProvider, c.modelName)
  }

  function FromDetail(c: ChatDetail): ChatView
  {
    ChatView(Some(c.id), c.title, c.modelProvider, c.modelName)
  }

  /** The draft `handleNewChat` shows. */
  const NewChatDraft := ChatView(None, "New Chat", "openai", "gpt-3.5-turbo")

  const ChatsFailed := "Failed to load chats"
  const MessagesFailed := "Failed to load messages"
  const ChatFailed := "Failed to load chat"
  const DeleteFailed := "Failed to delete chat"
  const SendFailed := "Failed to send message"

  /** The five state variables of `App`. */
  datatype State = State(chats: seq<ChatResponse>, currentChat: Option<ChatView>, messages: seq<MessageRow>,
                         isLoading: bool, error: Option<string>)

  const Initial := State([], None, [], false, None)

  /** `currentChat && currentChat.id` is truthy: there is a chat and its id
      is neither `null` nor 0. */
  predicate HasId(c: Option<ChatView>)
  {
    c.Some? && c.value.id.Some? && c.value.id.value != 0
  }

  /** The chat id a send goes to: the current chat's, or 0 to ask the server
      for a new chat. */
  function SendTarget(c: Option<ChatView>): int
  {
    if HasId(c) then c.value.id.value else 0
  }

  /** With no chat shown there are no messages shown. */
  predicate Coherent(s: State)
  {
    s.currentChat.None? ==> s.messages == []
  }

  /** `loadChats`: the list is replaced, or the error is set. */
  function AfterLoadChats(s: State, fetched: Result<seq<ChatResponse>, string>): State
  {
    match fetched
    case Ok(list) => s.(chats := list)
    case Err(_) => s.(error := Some(ChatsFailed))
  }

  /** The effect on a change of `currentChat`: a chat with an id has its
      messages loaded, anything else shows no messages. */
  function AfterChatChange(s: State, load: int -> Result<seq<MessageRow>, string>): State
  {
    if HasId(s.currentChat) then
      match load(s.currentChat.value.id.value)
      case Ok(list) => s.(messages := list)
      case Err(_) => s.(error := Some(MessagesFailed))
    else
      s.(messages := [])
  }

  /** `handleChatSelect`. */
  function AfterSelect(s: State, fetched: Result<ChatDetail, string>): State
  {
    match fetched
    case Ok(c) => s.(currentChat := Some(FromDetail(c)))
    case Err(_) => s.(error := Some(ChatFailed))
  }

  /** `handleNewChat`. */
  function AfterNewChat(s: State): State
  {
    s.(currentChat := Some(NewChatDraft), messages := [])
  }

  /** `handleDeleteChat`: after a successful delete the list is reloaded, and
      the shown chat is closed if it is the deleted one. */
  function AfterDelete(s: State, chatId: int, deleted: Result<string, string>,
                       reloaded: Result<seq<ChatResponse>, string>): State
  {
    if deleted.Err? then s.(error := Some(DeleteFailed))
    else
      var t := AfterLoadChats(s, reloaded);
      if s.currentChat.Some? && s.currentChat.value.id == Some(chatId) then t.(currentChat := None, messages := [])
      else t
  }

  /** The first half of `handleSendMessage`, before the request. */
  function Sending(s: State): State
  {
    s.(isLoading := true, error := None)
  }

  /** The rest of `handleSendMessage`, once the request has answered `sent`
      and, after a success, the chat list has been reloaded as `reloaded`. */
  function AfterSend(s: State, sent: Result<SendMessageResponse, string>,
                     reloaded: Result<seq<ChatResponse>, string>): State
  {
    match sent
    case Err(_) => s.(error := Some(SendFailed), isLoading := false)
    case Ok(resp) =>
      var current := if HasId(s.currentChat) then s.currentChat else Some(FromResponse(resp.chat));
      var t := s.(currentChat := current, messages := s.messages + [resp.message, resp.assistantResponse]);
      AfterLoadChats(t, reloaded).(isLoading := false)
  }

  /** A whole send, from the state before it. */
  function Send(s: State, send: int -> Result<SendMessageResponse, string>,
                reloaded: Result<seq<ChatResponse>, string>): State
  {
    AfterSend(Sending(s), send(SendTarget(s.currentChat)), reloaded)
  }

  /** A send goes to an existing chat exactly when the current chat has a
      truthy id, and then to that id. */
  lemma SendTargetIsCurrent(c: Option<ChatView>)
    ensures SendTarget(c) != 0 <==> HasId(c)
    ensures HasId(c) ==> SendTarget(c) == c.value.id.value
  {
  }

  /** A new chat shows the draft and no messages, and a send from it asks the
      server for a new chat. */
  lemma NewChatIsDraft(s: State)
    ensures AfterNewChat(s).currentChat == Some(NewChatDraft) && AfterNewChat(s).messages == []
    ensures SendTarget(AfterNewChat(s).currentChat) == 0
    ensures AfterNewChat(s).chats == s.chats && AfterNewChat(s).error == s.error
  {
  }

  /** While a send is outstanding the app is loading and shows no error. */
  lemma SendingState(s: State)
    ensures Sending(s).isLoading && Sending(s).error.None?
    ensures Sending(s).messages == s.messages && Sending(s).currentChat == s.currentChat
  {
  }

  /** A successful send appends the user's message and the reply after the
      messages already shown, keeps the current chat when it has an id and
      otherwise adopts the chat the server answered with, and ends loading. */
  lemma SendSuccess(s: State, send: int -> Result<SendMessageResponse, string>,
                    reloaded: Result<seq<ChatResponse>, string>)
    requires send(SendTarget(s.currentChat)).Ok?
    ensures var resp := send(SendTarget(s.currentChat)).value;
      var t := Send(s, send, reloaded);
      && t.messages == s.messages + [resp.message, resp.assistantResponse]
      && t.messages[..|s.messages|] == s.messages
      && (HasId(s.currentChat) ==> t.currentChat == s.currentChat)
      && (!HasId(s.currentChat) ==> t.currentChat == Some(FromResponse(resp.chat)))
      && !t.isLoading
      && (reloaded.Ok? ==> t.chats == reloaded.value && t.error.None?)
      && (reloaded.Err? ==> t.chats == s.chats && t.error == Some(ChatsFailed))
  {
    var resp := send(SendTarget(s.currentChat)).value;
    var t := Send(s, send, reloaded);
    assert t.messages[..|s.messages|] == (s.messages + [resp.message, resp.assistantResponse])[..|s.messages|];
  }

  /** A failed send reports the failure and changes nothing else the user
      sees. */
  lemma SendFailure(s: State, send: int -> Result<SendMessageResponse, string>,
                    reloaded: Result<seq<ChatResponse>, string>)
    requires send(SendTarget(s.currentChat)).Err?
    ensures var t := Send(s, send, reloaded);
      t == s.(error := Some(SendFailed), isLoading := false)
  {
  }

  /** After the first successful send from a new chat, the chat the server
      created is current, so the next send goes to it. */
  lemma NextSendGoesToCreatedChat(s: State, send: int -> Result<SendMessageResponse, string>,
                                  reloaded: Result<seq<ChatResponse>, string>)
    requires send(0).Ok? && send(0).value.chat.id != 0
    ensures SendTarget(Send(AfterNewChat(s), send, reloaded).currentChat) == send(0).value.chat.id
  {
  }

  /** Deleting a chat closes the shown chat exactly when it is the deleted
      one; deleting another chat leaves the shown chat and its messages. */
  lemma DeleteClosesOnlyCurrent(s: State, chatId: int, deleted: Result<string, string>,
                                reloaded: Result<seq<ChatResponse>, string>)
    ensures var t := AfterDelete(s, chatId, deleted, reloaded);
      && (deleted.Ok? && s.currentChat.Some? && s.currentChat.value.id == Some(chatId) ==>
            t.currentChat.None? && t.messages == [])
      && (deleted.Err? || s.currentChat.None? || s.currentChat.value.id != Some(chatId) ==>
            t.currentChat == s.currentChat && t.messages == s.messages)
      && (deleted.Err? ==> t == s.(error := Some(DeleteFailed)))
  {
  }

  /** A chat with an id shows the messages loaded for it; anything else shows
      none. */
  lemma ChatChangeLoads(s: State, load: int -> Result<seq<MessageRow>, string>)
    ensures var t := AfterChatChange(s, load);
      && (HasId(s.currentChat) && load(s.currentChat.value.id.value).Ok? ==>
            t.messages == load(s.currentChat.value.id.value).value)
      && (HasId(s.currentChat) && load(s.currentChat.value.id.value).Err? ==>
            t.messages == s.messages && t.error == Some(MessagesFailed))
      && (!HasId(s.currentChat) ==> t.messages == [])
      && t.currentChat == s.currentChat && t.chats == s.chats
  {
  }

  /** Every handler keeps "no chat, no messages". */
  lemma HandlersKeepCoherent(s: State, chatId: int, send: int -> Result<SendMessageResponse, string>,
                                                load: int -> Result<seq<MessageRow>, string>,
                                                fetchedChat: Result<ChatDetail, string>,
                                                deleted: Result<string, string>,
                                                reloaded: Result<seq<ChatResponse>, string>)
    requires Coherent(s)
    ensures Coherent(Initial)
    ensures Coherent(AfterLoadChats(s, reloaded))
    ensures Coherent(AfterChatChange(s, load))
    ensures Coherent(AfterSelect(s, fetchedChat))
    ensures Coherent(AfterNewChat(s))
    ensures Coherent(AfterDelete(s, chatId, deleted, reloaded))
    ensures Coherent(Send(s, send, reloaded))
  {
  }

  /** The application object. Each handler's new state is the matching
      transition of the old one. */
  class App {
    var chats: seq<ChatResponse>
    var currentChat: Option<ChatView>
    var messages: seq<MessageRow>
    var isLoading: bool
    var error: Option<string>

    function Snapshot(): State
      reads this
    {
      State(chats, currentChat, messages, isLoading, error)
    }

    ghost predicate Valid()
      reads this
    {
      Coherent(Snapshot())
    }

    constructor ()
      ensures Snapshot() == Initial && Valid()
    {
      chats, currentChat, messages, isLoading, error := [], None, [], false, None;
    }

    method LoadChats(fetched: Result<seq<ChatResponse>, string>)
      requires Valid()
      modifies this
      ensures Valid()
      ensures Snapshot() == AfterLoadChats(old(Snapshot()), fetched)
    {
      match fetched {
        case Ok(list) => chats := list;
        case Err(_) => error := Some(ChatsFailed);
      }
    }

    method OnCurrentChatChanged(load: int -> Result<seq<MessageRow>, string>)
      requires Valid()
      modifies this
      ensures Valid()
      ensures Snapshot() == AfterChatChange(old(Snapshot()), load)
    {
      if currentChat.Some? && currentChat.value.id.Some? && currentChat.value.id.value != 0 {
        var loaded := load(currentChat.value.id.value);
        match loaded {
          case Ok(list) => messages := list;
          case Err(_) => error := Some(MessagesFailed);
        }
      } else {
        messages := [];
      }
    }

    method HandleChatSelect(fetched: Result<ChatDetail, string>)
      requires Valid()
      modifies this
      ensures Valid()
      ensures Snapshot() == AfterSelect(old(Snapshot()), fetched)
    {
      match fetched {
        case Ok(c) => currentChat := Some(FromDetail(c));
        case Err(_) => error := Some(ChatFailed);
      }
    }

    method HandleNewChat()
      modifies this
      ensures Valid()
      ensures Snapshot() == AfterNewChat(old(Snapshot()))
    {
      currentChat := Some(NewChatDraft);
      messages := [];
    }

    method HandleDeleteChat(chatId: int, deleted: Result<string, string>,
                            reloaded: Result<seq<ChatResponse>, string>)
      requires Valid()
      modifies this
      ensures Valid()
      ensures Snapshot() == AfterDelete(old(Snapshot()), chatId, deleted, reloaded)
    {
      if deleted.Err? {
        error := Some(DeleteFailed);
        return;
      }
      var shown := currentChat;
      LoadChats(reloaded);
      if shown.Some? && shown.value.id == Some(chatId) {
        currentChat := None;
        messages := [];
      }
    }

    /** `setIsLoading(true); setError(null)`; answers the chat id to send to. */
    method BeginSend() returns (chatId: int)
      modifies this
      ensures Snapshot() == Sending(old(Snapshot()))
      ensures chatId == SendTarget(currentChat)
    {
      isLoading := true;
      error := None;
      chatId := if currentChat.Some? && currentChat.value.id.Some? && currentChat.value.id.value != 0
                then currentChat.value.id.value else 0;
    }

    method EndSend(sent: Result<SendMessageResponse, string>, reloaded: Result<seq<ChatResponse>, string>)
      modifies this
      ensures Snapshot() == AfterSend(old(Snapshot()), sent, reloaded)
    {
      match sent {
        case Err(_) =>
          error := Some(SendFailed);
        case Ok(resp) =>
          if !(currentChat.Some? && currentChat.value.id.Some? && currentChat.value.id.value != 0) {
            currentChat := Some(FromResponse(resp.chat));
          }
          messages := messages + [resp.message, resp.assistantResponse];
          LoadChats(reloaded);
      }
      isLoading := false;
    }

    method HandleSendMessage(send: int -> Result<SendMessageResponse, string>,
                             reloaded: Result<seq<ChatResponse>, string>)
      requires Valid()
      modifies this
      ensures Valid()
      ensures Snapshot() == Send(old(Snapshot()), send, reloaded)
    {
      ghost var before := Snapshot();
      var chatId := BeginSend();
      var sent := send(chatId);
      EndSend(sent, reloaded);
      HandlersKeepCoherent(before, 0, send, x => Err(""), Err(""), Err(""), reloaded);
    }
  }
}
