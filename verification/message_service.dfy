/**
 * Messages over the HTTP endpoints: only a chat's participants may write, read or mark its
 * messages, and only the sender may delete one.
 */
module MessageService {
  import opened Common
  import opened Store
  import opened Query
  import ChatService

  datatype CreateMessageDto = CreateMessageDto(chatId: Id, content: string, messageType: Option<string>)

  /**
   * createMessage: the sender must take part in the chat (NotFound otherwise, nothing written);
   * the message is stored unread with `type || 'text'`, and the chat's `updatedAt` becomes `now`.
   */
  function Create(chats: map<Id, Chat>, messages: map<Id, Message>, userId: UserId, dto: CreateMessageDto, id: Id, now: int)
    : (out: (Result<Message>, map<Id, Chat>, map<Id, Message>))
    requires id !in messages
    ensures out.0.Ok? <==> ChatService.IsParticipant(chats, dto.chatId, userId)
    ensures out.0.Err? ==> out.0 == Err(NotFound("Chat not found")) && out.1 == chats && out.2 == messages
    ensures out.0.Ok? ==>
      var m := out.0.value;
      && m.chatId == dto.chatId && m.senderId == userId && m.content == dto.content && !m.read && m.createdAt == now
      && m.messageType == (if Truthy(dto.messageType) then dto.messageType.value else "text")
      && m.image.None? && m.replyToId.None?
      && out.2 == messages[id := m]
      && out.1 == chats[dto.chatId := chats[dto.chatId].(updatedAt := now)]
  {
    if !ChatService.IsParticipant(chats, dto.chatId, userId) then (Err(NotFound("Chat not found")), chats, messages)
    else
      var m := Message(dto.chatId, userId, dto.content, OrDefault(dto.messageType, "text"), None, None, false, now);
      (Ok(m), chats[dto.chatId := chats[dto.chatId].(updatedAt := now)], messages[id := m])
  }

  /** deleteMessage: only its sender may delete a message. */
  function Delete(messages: map<Id, Message>, messageId: Id, userId: UserId): (out: (Result<string>, map<Id, Message>))
    ensures messageId !in messages ==> out.0 == Err(NotFound("Message not found"))
    ensures out.0.Ok? <==> messageId in messages && messages[messageId].senderId == userId
    ensures out.0.Err? ==> out.1 == messages
    ensures out.0.Err? && messageId in messages ==> out.0.error.Forbidden?
    ensures out.0.Ok? ==> out.1.Keys == messages.Keys - {messageId}
    ensures forall id :: id in out.1 ==> id in messages && out.1[id] == messages[id]
  {
    if messageId !in messages then (Err(NotFound("Message not found")), messages)
    else if messages[messageId].senderId != userId then (Err(Forbidden("You can only delete your own messages")), messages)
    else (Ok("Message deleted successfully"), messages - {messageId})
  }

  /**
   * markAsRead: a participant of the message's chat marks it read.  A message whose chat row is
   * gone makes the participant lookup throw, which is a plain failure.
   */
  function MarkRead(chats: map<Id, Chat>, messages: map<Id, Message>, messageId: Id, userId: UserId)
    : (out: (Result<Message>, map<Id, Message>))
    ensures messageId !in messages ==> out.0 == Err(NotFound("Message not found"))
    ensures out.0.Ok? <==> messageId in messages && ChatService.IsParticipant(chats, messages[messageId].chatId, userId)
    ensures out.0.Err? ==> out.1 == messages
    ensures out.0.Ok? ==>
      out.0.value == messages[messageId].(read := true) && out.1 == messages[messageId := out.0.value]
  {
    if messageId !in messages then (Err(NotFound("Message not found")), messages)
    else
      var m := messages[messageId];
      if m.chatId !in chats then (Err(STORE_FAILURE), messages)
      else if userId !in chats[m.chatId].participants then (Err(Forbidden("Access denied")), messages)
      else (Ok(m.(read := true)), messages[messageId := m.(read := true)])
  }

  // ---------------------------------------------------------------- the service on the store

  method CreateMessage(db: Store, userId: UserId, dto: CreateMessageDto, id: Id, now: int) returns (r: Result<Message>)
    requires id !in db.messages
    modifies db`chats, db`messages
    ensures (r, db.chats, db.messages) == Create(old(db.chats), old(db.messages), userId, dto, id, now)
  {
    if dto.chatId !in db.chats || userId !in db.chats[dto.chatId].participants {
      return Err(NotFound("Chat not found"));
    }
    var m := Message(dto.chatId, userId, dto.content, OrDefault(dto.messageType, "text"), None, None, false, now);
    db.messages := db.messages[id := m];
    db.chats := db.chats[dto.chatId := db.chats[dto.chatId].(updatedAt := now)];
    r := Ok(m);
  }

  /** getChatMessages: for a participant, the chat's messages, oldest first. */
  method GetChatMessages(db: Store, chatId: Id, userId: UserId) returns (r: Result<seq<Id>>)
    ensures r.Ok? <==> ChatService.IsParticipant(db.chats, chatId, userId)
    ensures r.Err? ==> r == Err(NotFound("Chat not found"))
    ensures r.Ok? ==> Distinct(r.value) && forall id :: id in r.value <==> id in db.messages && db.messages[id].chatId == chatId
    ensures r.Ok? ==> forall i, j :: 0 <= i < j < |r.value| && r.value[i] in db.messages && r.value[j] in db.messages ==>
      db.messages[r.value[i]].createdAt <= db.messages[r.value[j]].createdAt
  {
    if !ChatService.IsParticipant(db.chats, chatId, userId) {
      return Err(NotFound("Chat not found"));
    }
    var ids := SelectOrdered(db.messages, (id: Id, m: Message) => m.chatId == chatId, (m: Message) => m.createdAt);
    r := Ok(ids);
  }

  method DeleteMessage(db: Store, messageId: Id, userId: UserId) returns (r: Result<string>)
    modifies db`messages
    ensures (r, db.messages) == Delete(old(db.messages), messageId, userId)
  {
    if messageId !in db.messages {
      return Err(NotFound("Message not found"));
    }
    if db.messages[messageId].senderId != userId {
      return Err(Forbidden("You can only delete your own messages"));
    }
    db.messages := db.messages - {messageId};
    r := Ok("Message deleted successfully");
  }

  method MarkAsRead(db: Store, messageId: Id, userId: UserId) returns (r: Result<Message>)
    modifies db`messages
    ensures (r, db.messages) == MarkRead(db.chats, old(db.messages), messageId, userId)
  {
    if messageId !in db.messages {
      return Err(NotFound("Message not found"));
    }
    var m := db.messages[messageId];
    if m.chatId !in db.chats {
      return Err(STORE_FAILURE);
    }
    if userId !in db.chats[m.chatId].participants {
      return Err(Forbidden("Access denied"));
    }
    db.messages := db.messages[messageId := m.(read := true)];
    r := Ok(m.(read := true));
  }

  // ---------------------------------------------------------------- properties

  /** Marking a message read twice gives the same message and table as marking it once. */
  lemma {:induction false} MarkAsReadIdempotent(chats: map<Id, Chat>, messages: map<Id, Message>, messageId: Id, userId: UserId)
    requires MarkRead(chats, messages, messageId, userId).0.Ok?
    ensures var (r1, m1) := MarkRead(chats, messages, messageId, userId);
      MarkRead(chats, m1, messageId, userId) == (r1, m1)
  {
    var (r1, m1) := MarkRead(chats, messages, messageId, userId);
    assert m1[messageId] == r1.value && r1.value.(read := true) == r1.value;
    assert m1[messageId := r1.value] == m1;
  }

  /** A message just written can be deleted by its sender and by nobody else. */
  lemma OnlySenderDeletes(chats: map<Id, Chat>, messages: map<Id, Message>, userId: UserId, other: UserId,
                          dto: CreateMessageDto, id: Id, now: int)
    requires id !in messages && other != userId
    requires Create(chats, messages, userId, dto, id, now).0.Ok?
    ensures var m := Create(chats, messages, userId, dto, id, now).2;
      Delete(m, id, userId).0.Ok? && Delete(m, id, other).0 == Err(Forbidden("You can only delete your own messages"))
  {
  }

  /** A message written by a participant shows up in that chat's listing after the write. */
  lemma CreatedMessageIsInItsChat(chats: map<Id, Chat>, messages: map<Id, Message>, userId: UserId,
                                  dto: CreateMessageDto, id: Id, now: int)
    requires id !in messages
    requires Create(chats, messages, userId, dto, id, now).0.Ok?
    ensures var (_, c, m) := Create(chats, messages, userId, dto, id, now);
      id in m && m[id].chatId == dto.chatId && ChatService.IsParticipant(c, dto.chatId, userId)
  {
  }
}
