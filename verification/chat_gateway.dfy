/**
 * The chat gateway: the registry of authenticated chat sockets, presence notices to the users who
 * hold the connecting user as a contact, `message:send` (store, bump the chat, fan out to the
 * participants), `message:read`, and the friend-request notices.
 */
module ChatGateway {
  import opened Common
  import opened Store
  import opened Query
  import opened Sockets
  import MessageService

  /** The body of `message:send`; absent optional fields are `undefined` in the source. */
  datatype SendMessageData = SendMessageData(
    chatId: Id,
    content: string,
    messageType: Option<string>,
    image: Option<string>,
    replyToId: Option<Id>)

  /** The user row after a presence change; a missing row is left as it is. */
  function SetPresence(users: map<UserId, User>, u: UserId, online: bool, lastSeen: Option<int>): (r: map<UserId, User>)
    ensures r.Keys == users.Keys
    ensures u in users ==> r[u] == users[u].(isOnline := online, lastSeen := lastSeen)
    ensures forall v :: v in users && v != u ==> r[v] == users[v]
  {
    if u in users then users[u := users[u].(isOnline := online, lastSeen := lastSeen)] else users
  }

  /** The row `message.create` inserts: `type || 'text'`, `image || null`, `replyToId || null`, unread. */
  function NewMessage(data: SendMessageData, senderId: UserId, now: int): (m: Message)
    ensures m.chatId == data.chatId && m.senderId == senderId && m.content == data.content && !m.read
    ensures m.messageType == (if Truthy(data.messageType) then data.messageType.value else "text")
    ensures m.image == (if Truthy(data.image) then data.image else None)
    ensures m.replyToId == (if Truthy(data.replyToId) then data.replyToId else None)
    ensures m.createdAt == now
  {
    Message(data.chatId, senderId, data.content, OrDefault(data.messageType, "text"), OrNull(data.image), OrNull(data.replyToId), false, now)
  }

  /** The insert succeeds when the socket is bound and every foreign key names an existing row. */
  predicate Insertable(chats: map<Id, Chat>, users: map<UserId, User>, messages: map<Id, Message>,
                       sender: Option<UserId>, data: SendMessageData)
  {
    && sender.Some? && sender.value in users
    && data.chatId in chats
    && (Truthy(data.replyToId) ==> data.replyToId.value in messages)
  }

  class ChatGateway {
    var userSockets: map<UserId, SocketId>
    var outbox: seq<Outbound>
    const db: Store
    const verifyToken: string -> Option<UserId>

    constructor (db: Store, verifyToken: string -> Option<UserId>)
      ensures userSockets == map[] && outbox == []
      ensures this.db == db && this.verifyToken == verifyToken
    {
      userSockets := map[];
      outbox := [];
      this.db := db;
      this.verifyToken := verifyToken;
    }

    /** `users.forEach(u => { if (userSockets.get(u)) server.to(...).emit(ev) })`. */
    method EmitToEach(us: seq<UserId>, ev: Event)
      modifies this`outbox
      ensures outbox == old(outbox) + Fanout(us, userSockets, ev)
    {
      var i := 0;
      while i < |us|
        invariant 0 <= i <= |us|
        invariant outbox == old(outbox) + Fanout(us[..i], userSockets, ev)
      {
        assert us[..i + 1][..i] == us[..i];
        assert Fanout(us[..i + 1], userSockets, ev) == Fanout(us[..i], userSockets, ev) + Deliver(userSockets, us[i], ev);
        if us[i] in userSockets {
          outbox := outbox + [Emit(userSockets[us[i]], ev)];
        }
        i := i + 1;
      }
      assert us[..|us|] == us;
    }

    /** `contact.findMany({ where: { contactId: u } })`: the users who hold `u` as a contact, blocked or not. */
    method ContactOwners(u: UserId) returns (owners: seq<UserId>)
      ensures Distinct(owners)
      ensures forall v :: v in owners <==> (v, u) in db.contacts
    {
      var ks := Select(db.contacts, (k: ContactKey, c: Contact) => k.1 == u);
      owners := [];
      var i := 0;
      while i < |ks|
        invariant 0 <= i <= |ks|
        invariant |owners| == i
        invariant forall j :: 0 <= j < i ==> owners[j] == ks[j].0
      {
        owners := owners + [ks[i].0];
        i := i + 1;
      }
      forall a, b | 0 <= a < b < |owners| ensures owners[a] != owners[b] {
        assert ks[a] in ks && ks[b] in ks;
      }
      forall v ensures v in owners <==> (v, u) in db.contacts {
        if (v, u) in db.contacts {
          var j :| 0 <= j < |ks| && ks[j] == (v, u);
          assert owners[j] == v;
        }
        if v in owners {
          var j :| 0 <= j < |owners| && owners[j] == v;
          assert ks[j] in ks;
        }
      }
    }

    /**
     * handleConnection: an accepted handshake binds the client, registers its socket, marks the
     * user online with no last-seen time, and sends `user:online` to every connected user holding
     * a contact row for it (`notified` is the store's list of those users).  A refused one sends
     * an `error` event and closes the socket.
     */
    method HandleConnection(client: Client) returns (ghost notified: seq<UserId>)
      modifies this`userSockets, this`outbox, client`userId, db`users
      ensures Authenticate(client.token, verifyToken, old(db.users)).Ok? ==>
        var u := Authenticate(client.token, verifyToken, old(db.users)).value;
        && client.userId == Some(u)
        && userSockets == old(userSockets)[u := client.id]
        && db.users == SetPresence(old(db.users), u, true, None)
        && Distinct(notified) && (forall v :: v in notified <==> (v, u) in db.contacts)
        && outbox == old(outbox) + Fanout(notified, userSockets, UserOnline(u))
      ensures Authenticate(client.token, verifyToken, old(db.users)).Err? ==>
        && client.userId == old(client.userId)
        && userSockets == old(userSockets)
        && db.users == old(db.users)
        && outbox == old(outbox) + Refusal(client.id, Authenticate(client.token, verifyToken, old(db.users)).error)
      ensures Injective(old(userSockets)) && client.id !in old(userSockets).Values ==> Injective(userSockets)
    {
      notified := [];
      if !Truthy(client.token) {
        outbox := outbox + Refusal(client.id, Unauthorized("No authentication token found!"));
        return;
      }
      var claimed := verifyToken(client.token.value);
      if claimed.None? {
        outbox := outbox + Refusal(client.id, Unauthorized("Invalid token"));
        return;
      }
      if claimed.value !in db.users {
        outbox := outbox + Refusal(client.id, Unauthorized("User not found"));
        return;
      }
      var u := claimed.value;
      client.userId := Some(u);
      userSockets := userSockets[u := client.id];
      db.users := SetPresence(db.users, u, true, None);
      var owners := ContactOwners(u);
      EmitToEach(owners, UserOnline(u));
      notified := owners;
    }

    /**
     * handleDisconnect: a bound socket removes its user's entry (whichever socket it names now),
     * marks the user offline as of `now`, and sends `user:offline` through the same fan-out as
     * `user:online`.  If the user row is gone the update throws and nothing is sent.  A socket
     * never bound changes nothing.
     */
    method HandleDisconnect(client: Client, now: int) returns (ghost notified: seq<UserId>)
      modifies this`userSockets, this`outbox, db`users
      ensures Truthy(client.userId) ==>
        var u := client.userId.value;
        && userSockets == old(userSockets) - {u}
        && db.users == SetPresence(old(db.users), u, false, Some(now))
        && (u in old(db.users) ==>
              Distinct(notified) && (forall v :: v in notified <==> (v, u) in db.contacts)
              && outbox == old(outbox) + Fanout(notified, userSockets, UserOffline(u, now)))
        && (u !in old(db.users) ==> outbox == old(outbox))
      ensures !Truthy(client.userId) ==>
        userSockets == old(userSockets) && db.users == old(db.users) && outbox == old(outbox)
      ensures Injective(old(userSockets)) ==> Injective(userSockets)
    {
      notified := [];
      if Truthy(client.userId) {
        var u := client.userId.value;
        userSockets := userSockets - {u};
        if u !in db.users {
          return;
        }
        db.users := SetPresence(db.users, u, false, Some(now));
        var owners := ContactOwners(u);
        EmitToEach(owners, UserOffline(u, now));
        notified := owners;
      }
    }

    /**
     * handleMessage (`message:send`): stores the message under `id` without checking that the
     * sender takes part in the chat, sets the chat's `updatedAt` to `now`, and sends
     * `message:receive` to every connected participant, the sender included.  A failed insert
     * answers `success: false` and changes and sends nothing.
     */
    method HandleMessage(client: Client, data: SendMessageData, id: Id, now: int) returns (r: Result<Message>)
      requires id !in db.messages
      modifies db`messages, db`chats, this`outbox
      ensures Insertable(old(db.chats), db.users, old(db.messages), client.userId, data) ==>
        && r == Ok(NewMessage(data, client.userId.value, now))
        && db.messages == old(db.messages)[id := r.value]
        && db.chats == old(db.chats)[data.chatId := old(db.chats)[data.chatId].(updatedAt := now)]
        && outbox == old(outbox) + Fanout(old(db.chats)[data.chatId].participants, userSockets, MessageReceive(id, r.value))
      ensures !Insertable(old(db.chats), db.users, old(db.messages), client.userId, data) ==>
        r.Err? && r.error.Failed? && db.messages == old(db.messages) && db.chats == old(db.chats) && outbox == old(outbox)
    {
      if !Insertable(db.chats, db.users, db.messages, client.userId, data) {
        return Err(STORE_FAILURE);
      }
      var m := NewMessage(data, client.userId.value, now);
      db.messages := db.messages[id := m];
      var chat := db.chats[data.chatId];
      db.chats := db.chats[data.chatId := chat.(updatedAt := now)];
      EmitToEach(chat.participants, MessageReceive(id, m));
      r := Ok(m);
    }

    /**
     * handleMessageRead (`message:read`): marks the message read and tells every socket, not only
     * the chat's participants; an unknown message answers `success: false` and sends nothing.
     */
    method HandleMessageRead(messageId: Id) returns (r: Result<()>)
      modifies db`messages, this`outbox
      ensures messageId in old(db.messages) <==> r.Ok?
      ensures r.Ok? ==>
        && db.messages == old(db.messages)[messageId := old(db.messages)[messageId].(read := true)]
        && outbox == old(outbox) + [Broadcast(MessageRead(messageId))]
      ensures r.Err? ==> r.error.Failed? && db.messages == old(db.messages) && outbox == old(outbox)
    {
      if messageId !in db.messages {
        return Err(STORE_FAILURE);
      }
      db.messages := db.messages[messageId := db.messages[messageId].(read := true)];
      outbox := outbox + [Broadcast(MessageRead(messageId))];
      r := Ok(());
    }

    /** emitFriendRequestReceived: to the receiver, if connected. */
    method EmitFriendRequestReceived(receiverId: UserId, requestId: Id, request: FriendRequest)
      modifies this`outbox
      ensures outbox == old(outbox) + Deliver(userSockets, receiverId, FriendRequestReceived(requestId, request))
    {
      if receiverId in userSockets {
        outbox := outbox + [Emit(userSockets[receiverId], FriendRequestReceived(requestId, request))];
      }
    }

    /** emitFriendRequestAccepted: to the original sender, if connected. */
    method EmitFriendRequestAccepted(senderId: UserId, requestId: Id, request: FriendRequest)
      modifies this`outbox
      ensures outbox == old(outbox) + Deliver(userSockets, senderId, FriendRequestAccepted(requestId, request))
    {
      if senderId in userSockets {
        outbox := outbox + [Emit(userSockets[senderId], FriendRequestAccepted(requestId, request))];
      }
    }

    /** emitFriendRequestRejected: to the original sender, if connected. */
    method EmitFriendRequestRejected(senderId: UserId, requestId: Id, request: FriendRequest)
      modifies this`outbox
      ensures outbox == old(outbox) + Deliver(userSockets, senderId, FriendRequestRejected(requestId, request))
    {
      if senderId in userSockets {
        outbox := outbox + [Emit(userSockets[senderId], FriendRequestRejected(requestId, request))];
      }
    }
  }

  /**
   * The socket path checks only that the sender and the chat exist, not that the sender takes
   * part in the chat: a message from an outsider is stored and fanned out, where the HTTP path
   * (createMessage) refuses the same message with NotFound.
   */
  lemma SocketPathSkipsParticipantCheck(chats: map<Id, Chat>, users: map<UserId, User>, messages: map<Id, Message>,
                                        sender: UserId, data: SendMessageData, id: Id, now: int)
    requires id !in messages
    requires sender in users && data.chatId in chats && sender !in chats[data.chatId].participants
    requires !Truthy(data.replyToId)
    ensures Insertable(chats, users, messages, Some(sender), data)
    ensures MessageService.Create(chats, messages, sender, MessageService.CreateMessageDto(data.chatId, data.content, data.messageType), id, now).0
         == Err(NotFound("Chat not found"))
  {
  }
}
