/** backend/app/models/chat.py: the three tables (chats, messages,
    file_uploads) as sequences in insertion order, with the primary keys the
    database hands out and the cascade that deleting a chat performs. Time is
    an integer clock supplied by the caller (`datetime.utcnow()`). */
module Models {
  import opened Wrappers

  /** The two values the `role` column takes. */
  datatype Role = User | Assistant

  function RoleName(r: Role): string
  {
    match r
    case User => "user"
    case Assistant => "assistant"
  }

  datatype ChatRow = ChatRow(id: int, title: string, modelProvider: string, modelName: string,
                             createdAt: int, updatedAt: int)

  datatype MessageRow = MessageRow(id: int, chatId: int, role: Role, content: string, createdAt: int)

  datatype FileRow = FileRow(id: int, chatId: int, filename: string, originalFilename: string,
                             fileType: string, fileSize: int, content: string, createdAt: int)

  // ---------------------------------------------------------------------------
  // Queries over the tables

  /** `db.query(Chat).filter(Chat.id == id).first()`. */
  function FindChat(chats: seq<ChatRow>, id: int): (r: Option<ChatRow>)
    ensures r.Some? ==> r.value in chats && r.value.id == id
    ensures r.None? <==> forall c :: c in chats ==> c.id != id
  {
    if chats == [] then None
    else if chats[0].id == id then Some(chats[0])
    else FindChat(chats[1..], id)
  }

  predicate HasChat(chats: seq<ChatRow>, id: int)
  {
    exists c :: c in chats && c.id == id
  }

  /** The messages of one chat, in table order. */
  function MessagesOf(messages: seq<MessageRow>, chatId: int): (r: seq<MessageRow>)
    ensures |r| <= |messages|
    ensures forall m :: m in r <==> m in messages && m.chatId == chatId
  {
    if messages == [] then []
    else if messages[0].chatId == chatId then [messages[0]] + MessagesOf(messages[1..], chatId)
    else MessagesOf(messages[1..], chatId)
  }

  /** The messages of every other chat, in table order. */
  function MessagesNotOf(messages: seq<MessageRow>, chatId: int): (r: seq<MessageRow>)
    ensures |r| <= |messages|
    ensures forall m :: m in r <==> m in messages && m.chatId != chatId
  {
    if messages == [] then []
    else if messages[0].chatId != chatId then [messages[0]] + MessagesNotOf(messages[1..], chatId)
    else MessagesNotOf(messages[1..], chatId)
  }

  /** The table without the message with this id. */
  function MessagesWithoutId(messages: seq<MessageRow>, id: int): (r: seq<MessageRow>)
    ensures |r| <= |messages|
    ensures forall m :: m in r <==> m in messages && m.id != id
  {
    if messages == [] then []
    else if messages[0].id != id then [messages[0]] + MessagesWithoutId(messages[1..], id)
    else MessagesWithoutId(messages[1..], id)
  }

  function ChatsWithoutId(chats: seq<ChatRow>, id: int): (r: seq<ChatRow>)
    ensures |r| <= |chats|
    ensures forall c :: c in r <==> c in chats && c.id != id
  {
    if chats == [] then []
    else if chats[0].id != id then [chats[0]] + ChatsWithoutId(chats[1..], id)
    else ChatsWithoutId(chats[1..], id)
  }

  /** The files uploaded to one chat, in table order. */
  function FilesOf(files: seq<FileRow>, chatId: int): (r: seq<FileRow>)
    ensures |r| <= |files|
    ensures forall f :: f in r <==> f in files && f.chatId == chatId
  {
    if files == [] then []
    else if files[0].chatId == chatId then [files[0]] + FilesOf(files[1..], chatId)
    else FilesOf(files[1..], chatId)
  }

  function FilesNotOf(files: seq<FileRow>, chatId: int): (r: seq<FileRow>)
    ensures |r| <= |files|
    ensures forall f :: f in r <==> f in files && f.chatId != chatId
  {
    if files == [] then []
    else if files[0].chatId != chatId then [files[0]] + FilesNotOf(files[1..], chatId)
    else FilesNotOf(files[1..], chatId)
  }

  function FilesWithoutId(files: seq<FileRow>, id: int): (r: seq<FileRow>)
    ensures |r| <= |files|
    ensures forall f :: f in r <==> f in files && f.id != id
  {
    if files == [] then []
    else if files[0].id != id then [files[0]] + FilesWithoutId(files[1..], id)
    else FilesWithoutId(files[1..], id)
  }

  /** `db.query(FileUpload).filter(id == fileId, chat_id == chatId).first()`. */
  function FindFile(files: seq<FileRow>, fileId: int, chatId: int): (r: Option<FileRow>)
    ensures r.Some? ==> r.value in files && r.value.id == fileId && r.value.chatId == chatId
    ensures r.None? <==> forall f :: f in files ==> !(f.id == fileId && f.chatId == chatId)
  {
    if files == [] then None
    else if files[0].id == fileId && files[0].chatId == chatId then Some(files[0])
    else FindFile(files[1..], fileId, chatId)
  }

  /** Sets `updated_at` of the chat with this id. */
  function Touch(chats: seq<ChatRow>, id: int, now: int): (r: seq<ChatRow>)
    ensures |r| == |chats|
    ensures forall i :: 0 <= i < |r| ==>
      r[i] == if chats[i].id == id then chats[i].(updatedAt := now) else chats[i]
  {
    if chats == [] then [] else
    [if chats[0].id == id then chats[0].(updatedAt := now) else chats[0]] + Touch(chats[1..], id, now)
  }

  // ---------------------------------------------------------------------------
  // Table invariants

  predicate ChatIdsUnique(chats: seq<ChatRow>)
  {
    forall i, j :: 0 <= i < j < |chats| ==> chats[i].id != chats[j].id
  }

  predicate MessageIdsUnique(messages: seq<MessageRow>)
  {
    forall i, j :: 0 <= i < j < |messages| ==> messages[i].id != messages[j].id
  }

  predicate FileIdsUnique(files: seq<FileRow>)
  {
    forall i, j :: 0 <= i < j < |files| ==> files[i].id != files[j].id
  }

  /** Messages are stored in `created_at` order. */
  predicate ByCreation(messages: seq<MessageRow>)
  {
    forall i, j :: 0 <= i < j < |messages| ==> messages[i].createdAt <= messages[j].createdAt
  }

  /** The database session. Each method is one statement followed by its
      commit. */
  class Database {
    var chats: seq<ChatRow>
    var messages: seq<MessageRow>
    var files: seq<FileRow>
    /** The primary key the next insert into each table receives. */
    var nextChatId: int
    var nextMessageId: int
    var nextFileId: int
    /** The latest time written to any row. */
    var clock: int

    ghost predicate Valid()
      reads this
    {
      && nextChatId >= 1 && nextMessageId >= 1 && nextFileId >= 1
      && (forall c :: c in chats ==> 1 <= c.id < nextChatId && c.createdAt <= clock && c.updatedAt <= clock)
      && (forall m :: m in messages ==> 1 <= m.id < nextMessageId && m.createdAt <= clock && HasChat(chats, m.chatId))
      && (forall f :: f in files ==> 1 <= f.id < nextFileId && f.createdAt <= clock)
      && ChatIdsUnique(chats) && MessageIdsUnique(messages) && FileIdsUnique(files)
      && ByCreation(messages)
    }

    constructor ()
      ensures Valid()
      ensures chats == [] && messages == [] && files == []
    {
      chats, messages, files := [], [], [];
      nextChatId, nextMessageId, nextFileId := 1, 1, 1;
      clock := 0;
    }

    /** `db.add(Chat(...)); db.commit()`: the new row gets a fresh id and
        `created_at == updated_at == now`. */
    method InsertChat(title: string, provider: string, model: string, now: int) returns (row: ChatRow)
      requires Valid() && now >= clock
      modifies this
      ensures Valid()
      ensures row == ChatRow(old(nextChatId), title, provider, model, now, now)
      ensures chats == old(chats) + [row] && messages == old(messages) && files == old(files)
      ensures nextChatId == old(nextChatId) + 1 && nextMessageId == old(nextMessageId) && nextFileId == old(nextFileId)
      ensures clock == now
      ensures FindChat(old(chats), row.id).None?
    {
      row := ChatRow(nextChatId, title, provider, model, now, now);
      chats := chats + [row];
      nextChatId := nextChatId + 1;
      clock := now;
      assert forall m :: m in messages ==> HasChat(chats, m.chatId) by {
        forall m | m in messages ensures HasChat(chats, m.chatId) {
          assert HasChat(old(chats), m.chatId);
          var c :| c in old(chats) && c.id == m.chatId;
          assert c in chats;
        }
      }
    }

    /** `db.add(Message(...)); db.commit()` for an existing chat. */
    method InsertMessage(chatId: int, role: Role, content: string, now: int) returns (row: MessageRow)
      requires Valid() && now >= clock && HasChat(chats, chatId)
      modifies this
      ensures Valid()
      ensures row == MessageRow(old(nextMessageId), chatId, role, content, now)
      ensures messages == old(messages) + [row] && chats == old(chats) && files == old(files)
      ensures nextMessageId == old(nextMessageId) + 1 && nextChatId == old(nextChatId) && nextFileId == old(nextFileId)
      ensures clock == now
      ensures forall m :: m in old(messages) ==> m.id != row.id
    {
      row := MessageRow(nextMessageId, chatId, role, content, now);
      messages := messages + [row];
      nextMessageId := nextMessageId + 1;
      clock := now;
    }

    /** `db.delete(message); db.commit()`. */
    method DeleteMessage(id: int)
      requires Valid()
      modifies this`messages
      ensures Valid()
      ensures messages == MessagesWithoutId(old(messages), id)
    {
      MessagesWithoutIdKeepsOrder(messages, id);
      messages := MessagesWithoutId(messages, id);
      assert MessageIdsUnique(messages) by { WithoutIdKeepsUnique(old(messages), id); }
    }

    /** `chat.updated_at = now; db.commit()`. */
    method TouchChat(id: int, now: int)
      requires Valid() && now >= clock
      modifies this`chats, this`clock
      ensures Valid()
      ensures chats == Touch(old(chats), id, now) && clock == now
    {
      TouchKeepsChats(chats, id, now, nextChatId);
      TouchKeepsUnique(chats, id, now);
      chats := Touch(chats, id, now);
      clock := now;
    }

    /** `db.delete(chat); db.commit()`: the cascade on `Chat.messages` and
        `Chat.files` removes every message and file of the chat. */
    method DeleteChat(id: int)
      requires Valid()
      modifies this`chats, this`messages, this`files
      ensures Valid()
      ensures chats == ChatsWithoutId(old(chats), id)
      ensures messages == MessagesNotOf(old(messages), id)
      ensures files == FilesNotOf(old(files), id)
    {
      MessagesNotOfKeepsOrder(messages, id);
      ChatsWithoutIdKeepsUnique(chats, id);
      FilesNotOfKeepsUnique(files, id);
      var oldChats := chats;
      chats := ChatsWithoutId(chats, id);
      messages := MessagesNotOf(messages, id);
      files := FilesNotOf(files, id);
      assert forall m :: m in messages ==> HasChat(chats, m.chatId) by {
        forall m | m in messages ensures HasChat(chats, m.chatId) {
          var c :| c in oldChats && c.id == m.chatId;
          assert c in chats;
        }
      }
    }

    /** `db.add(FileUpload(...)); db.commit()`. */
    method InsertFile(chatId: int, filename: string, originalFilename: string, fileType: string,
                      fileSize: int, content: string, now: int) returns (row: FileRow)
      requires Valid() && now >= clock
      modifies this
      ensures Valid()
      ensures row == FileRow(old(nextFileId), chatId, filename, originalFilename, fileType, fileSize, content, now)
      ensures files == old(files) + [row] && chats == old(chats) && messages == old(messages)
      ensures nextFileId == old(nextFileId) + 1 && nextChatId == old(nextChatId) && nextMessageId == old(nextMessageId)
      ensures clock == now
    {
      row := FileRow(nextFileId, chatId, filename, originalFilename, fileType, fileSize, content, now);
      files := files + [row];
      nextFileId := nextFileId + 1;
      clock := now;
    }

    /** `db.delete(file); db.commit()`. */
    method DeleteFile(id: int)
      requires Valid()
      modifies this`files
      ensures Valid()
      ensures files == FilesWithoutId(old(files), id)
    {
      FilesWithoutIdKeepsUnique(files, id);
      files := FilesWithoutId(files, id);
    }
  }

  // ---------------------------------------------------------------------------
  // Filtering keeps order and uniqueness

  lemma {:induction false} MessagesWithoutIdKeepsOrder(messages: seq<MessageRow>, id: int)
    requires ByCreation(messages)
    ensures ByCreation(MessagesWithoutId(messages, id))
  {
    if messages != [] {
      MessagesWithoutIdKeepsOrder(messages[1..], id);
    }
  }

  lemma {:induction false} WithoutIdKeepsUnique(messages: seq<MessageRow>, id: int)
    requires MessageIdsUnique(messages)
    ensures MessageIdsUnique(MessagesWithoutId(messages, id))
  {
    if messages != [] {
      WithoutIdKeepsUnique(messages[1..], id);
    }
  }

  lemma {:induction false} MessagesNotOfKeepsOrder(messages: seq<MessageRow>, chatId: int)
    requires ByCreation(messages) && MessageIdsUnique(messages)
    ensures ByCreation(MessagesNotOf(messages, chatId)) && MessageIdsUnique(MessagesNotOf(messages, chatId))
  {
    if messages != [] {
      var rest := MessagesNotOf(messages[1..], chatId);
      MessagesNotOfKeepsOrder(messages[1..], chatId);
      if messages[0].chatId != chatId {
        forall m | m in rest ensures messages[0].createdAt <= m.createdAt && messages[0].id != m.id {
          var k :| 0 <= k < |messages[1..]| && messages[1..][k] == m;
          assert messages[k + 1] == m;
        }
        ConsKeepsOrder(messages[0], rest);
      }
    }
  }

  /** A message no later than, and with an id different from, every message
      of an ordered table can be put in front of it. */
  lemma ConsKeepsOrder(x: MessageRow, rest: seq<MessageRow>)
    requires ByCreation(rest) && MessageIdsUnique(rest)
    requires forall m :: m in rest ==> x.createdAt <= m.createdAt && x.id != m.id
    ensures ByCreation([x] + rest) && MessageIdsUnique([x] + rest)
  {
    forall i, j | 0 <= i < j < |[x] + rest|
      ensures ([x] + rest)[i].createdAt <= ([x] + rest)[j].createdAt
      ensures ([x] + rest)[i].id != ([x] + rest)[j].id
    {
      assert ([x] + rest)[j] == rest[j - 1];
      if i > 0 {
        assert ([x] + rest)[i] == rest[i - 1];
      } else {
        assert rest[j - 1] in rest;
      }
    }
  }

  /** Refreshing `updated_at` keeps every chat present and within the
      table's bounds. */
  lemma TouchKeepsChats(chats: seq<ChatRow>, id: int, now: int, bound: int)
    requires forall c :: c in chats ==> 1 <= c.id < bound && c.createdAt <= now && c.updatedAt <= now
    ensures forall c :: c in Touch(chats, id, now) ==> 1 <= c.id < bound && c.createdAt <= now && c.updatedAt <= now
    ensures forall x :: HasChat(chats, x) ==> HasChat(Touch(chats, id, now), x)
  {
    var t := Touch(chats, id, now);
    assert forall x :: HasChat(chats, x) ==> HasChat(t, x) by {
      forall x | HasChat(chats, x) ensures HasChat(t, x) {
        var c :| c in chats && c.id == x;
        var i :| 0 <= i < |chats| && chats[i] == c;
        assert t[i] in t && t[i].id == x;
      }
    }
    forall c | c in t ensures 1 <= c.id < bound && c.createdAt <= now && c.updatedAt <= now {
      var i :| 0 <= i < |t| && t[i] == c;
      assert chats[i] in chats;
    }
  }

  /** Refreshing `updated_at` keeps every id in its place, so ids stay
      unique. */
  lemma TouchKeepsUnique(chats: seq<ChatRow>, id: int, now: int)
    requires ChatIdsUnique(chats)
    ensures ChatIdsUnique(Touch(chats, id, now))
  {
    var t := Touch(chats, id, now);
    forall i, j | 0 <= i < j < |t| ensures t[i].id != t[j].id {
      assert t[i].id == chats[i].id && t[j].id == chats[j].id;
    }
  }

  lemma {:induction false} ChatsWithoutIdKeepsUnique(chats: seq<ChatRow>, id: int)
    requires ChatIdsUnique(chats)
    ensures ChatIdsUnique(ChatsWithoutId(chats, id))
  {
    if chats != [] {
      ChatsWithoutIdKeepsUnique(chats[1..], id);
    }
  }

  lemma {:induction false} FilesNotOfKeepsUnique(files: seq<FileRow>, chatId: int)
    requires FileIdsUnique(files)
    ensures FileIdsUnique(FilesNotOf(files, chatId))
  {
    if files != [] {
      FilesNotOfKeepsUnique(files[1..], chatId);
    }
  }

  lemma {:induction false} FilesWithoutIdKeepsUnique(files: seq<FileRow>, id: int)
    requires FileIdsUnique(files)
    ensures FileIdsUnique(FilesWithoutId(files, id))
  {
    if files != [] {
      FilesWithoutIdKeepsUnique(files[1..], id);
    }
  }
}
