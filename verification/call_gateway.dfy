/**
 * The call gateway: a socket.io endpoint that keeps a `userId -> socketId` registry of its
 * authenticated connections, pushes call notifications to one user, and relays WebRTC signalling
 * messages between the two parties of a call.
 */
module CallGateway {
  import opened Common
  import opened Store
  import opened Sockets

  /** The user row after the gateway marks it offline; a missing row is left as it is. */
  function MarkOffline(users: map<UserId, User>, u: UserId): (r: map<UserId, User>)
    ensures r.Keys == users.Keys
    ensures u in users ==> r[u] == users[u].(isOnline := false)
    ensures forall v :: v in users && v != u ==> r[v] == users[v]
  {
    if u in users then users[u := users[u].(isOnline := false)] else users
  }

  class CallGateway {
    /** The registry: the socket of each connected user, the latest connection winning. */
    var userSockets: map<UserId, SocketId>
    /** Everything the gateway has sent, oldest first. */
    var outbox: seq<Outbound>
    const db: Store
    /** The JWT check with the configured secret: the user id a token carries, if it is valid. */
    const verifyToken: string -> Option<UserId>

    constructor (db: Store, verifyToken: string -> Option<UserId>)
      ensures userSockets == map[] && outbox == []
      ensures this.db == db && this.verifyToken == verifyToken
    {
      userSockets := map[];
      outbox := [];
      this.db := db;
      this.verifyToken := verifyToken;
    }

    /**
     * handleConnection: on an accepted handshake the client is bound to its user and the registry
     * maps that user to this socket, replacing an earlier socket; a refused handshake changes
     * nothing but sends an `error` event and closes the socket.
     */
    method HandleConnection(client: Client)
      modifies this`userSockets, this`outbox, client`userId
      ensures Authenticate(client.token, verifyToken, db.users).Ok? ==>
        var u := Authenticate(client.token, verifyToken, db.users).value;
        && client.userId == Some(u)
        && userSockets == old(userSockets)[u := client.id]
        && outbox == old(outbox)
      ensures Authenticate(client.token, verifyToken, db.users).Err? ==>
        && client.userId == old(client.userId)
        && userSockets == old(userSockets)
        && outbox == old(outbox) + Refusal(client.id, Authenticate(client.token, verifyToken, db.users).error)
      ensures Injective(old(userSockets)) && client.id !in old(userSockets).Values ==> Injective(userSockets)
    {
      if !Truthy(client.token) {
        outbox := outbox + Refusal(client.id, Unauthorized("No authentication token found!"));
        return;
      }
      var claimed := verifyToken(client.token.value);
      if claimed.None? {
        outbox := outbox + Refusal(client.id, Unauthorized("Invalid token"));
        return;
      }
      if claimed.value !in db.users {
        outbox := outbox + Refusal(client.id, Unauthorized("User not found"));
        return;
      }
      client.userId := Some(claimed.value);
      userSockets := userSockets[claimed.value := client.id];
    }

    /**
     * handleDisconnect: a socket bound to a user removes that user's entry, whichever socket it
     * names now, and marks the user offline; a socket never bound changes nothing.
     */
    method HandleDisconnect(client: Client)
      modifies this`userSockets, db`users
      ensures Truthy(client.userId) ==>
        && userSockets == old(userSockets) - {client.userId.value}
        && db.users == MarkOffline(old(db.users), client.userId.value)
      ensures !Truthy(client.userId) ==> userSockets == old(userSockets) && db.users == old(db.users)
      ensures Injective(old(userSockets)) ==> Injective(userSockets)
    {
      if Truthy(client.userId) {
        var u := client.userId.value;
        userSockets := userSockets - {u};
        db.users := MarkOffline(db.users, u);
      }
    }

    /** emitIncomingCall: `call:incoming` to the receiver's socket, if the receiver is connected. */
    method EmitIncomingCall(receiverId: UserId, callId: Id, call: Call)
      modifies this`outbox
      ensures outbox == old(outbox) + Deliver(userSockets, receiverId, CallIncoming(callId, call))
    {
      if receiverId in userSockets {
        outbox := outbox + [Emit(userSockets[receiverId], CallIncoming(callId, call))];
      }
    }

    /** emitCallAnswered: `call:answered` to the caller's socket, if the caller is connected. */
    method EmitCallAnswered(callerId: UserId, callId: Id, call: Call)
      modifies this`outbox
      ensures outbox == old(outbox) + Deliver(userSockets, callerId, CallAnswered(callId, call))
    {
      if callerId in userSockets {
        outbox := outbox + [Emit(userSockets[callerId], CallAnswered(callId, call))];
      }
    }

    /** emitCallRejected: `call:rejected` to the caller's socket, if the caller is connected. */
    method EmitCallRejected(callerId: UserId, callId: Id, call: Call)
      modifies this`outbox
      ensures outbox == old(outbox) + Deliver(userSockets, callerId, CallRejected(callId, call))
    {
      if callerId in userSockets {
        outbox := outbox + [Emit(userSockets[callerId], CallRejected(callId, call))];
      }
    }

    /** emitCallEnded: `call:ended` to the given user's socket, if that user is connected. */
    method EmitCallEnded(userId: UserId, callId: Id, call: Call)
      modifies this`outbox
      ensures outbox == old(outbox) + Deliver(userSockets, userId, CallEnded(callId, call))
    {
      if userId in userSockets {
        outbox := outbox + [Emit(userSockets[userId], CallEnded(callId, call))];
      }
    }

    /**
     * handleOffer, handleAnswer and handleICE: the body goes unchanged, under the name it came
     * in with, to the socket of `data.to`, with `from` set to the sender's user id (absent for a
     * socket that never authenticated); an unknown `data.to` sends nothing.
     */
    method HandleSignal(kind: SignalKind, client: Client, data: Signal)
      modifies this`outbox
      ensures outbox == old(outbox) + Deliver(userSockets, data.to, WebRtc(kind, data, client.userId))
      ensures forall o :: o in outbox[|old(outbox)|..] ==> Name(o.event) == SignalName(kind) && o.event.signal == data
    {
      var senderId := client.userId;
      if data.to in userSockets {
        outbox := outbox + [Emit(userSockets[data.to], WebRtc(kind, data, senderId))];
      }
    }
  }
}
