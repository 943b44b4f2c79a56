/**
 * What the two socket.io gateways share: the events they send, the log of outbound traffic that
 * stands for the socket.io server, the connected client, the handshake check, and the fan-out of
 * one event to the sockets of a list of users through a `userId -> socketId` registry.
 */
module Sockets {
  import opened Common
  import opened Store
  import opened Query

  datatype SignalKind = Offer | Answer | Ice

  /** The body of a WebRTC signalling message; `payload` is the opaque SDP or ICE data. */
  datatype Signal = Signal(callId: Id, payload: string, to: UserId)

  /** The events the gateways emit, each with the data the rules decide on. */
  datatype Event =
    | ErrorEvent(message: string)
    | UserOnline(userId: UserId)
    | UserOffline(userId: UserId, lastSeen: int)
    | MessageReceive(messageId: Id, row: Message)
    | MessageRead(messageId: Id)
    | FriendRequestReceived(requestId: Id, request: FriendRequest)
    | FriendRequestAccepted(requestId: Id, request: FriendRequest)
    | FriendRequestRejected(requestId: Id, request: FriendRequest)
    | CallIncoming(callId: Id, call: Call)
    | CallAnswered(callId: Id, call: Call)
    | CallRejected(callId: Id, call: Call)
    | CallEnded(callId: Id, call: Call)
      /** A relayed signal: the incoming body with `from` set to the sender, if it has one. */
    | WebRtc(kind: SignalKind, signal: Signal, from: Option<UserId>)

  function SignalName(kind: SignalKind): string
  {
    match kind
    case Offer => "webrtc:offer"
    case Answer => "webrtc:answer"
    case Ice => "webrtc:ice"
  }

  /** The event name on the wire. */
  function Name(e: Event): string
  {
    match e
    case ErrorEvent(_) => "error"
    case UserOnline(_) => "user:online"
    case UserOffline(_, _) => "user:offline"
    case MessageReceive(_, _) => "message:receive"
    case MessageRead(_) => "message:read"
    case FriendRequestReceived(_, _) => "friend-request:received"
    case FriendRequestAccepted(_, _) => "friend-request:accepted"
    case FriendRequestRejected(_, _) => "friend-request:rejected"
    case CallIncoming(_, _) => "call:incoming"
    case CallAnswered(_, _) => "call:answered"
    case CallRejected(_, _) => "call:rejected"
    case CallEnded(_, _) => "call:ended"
    case WebRtc(kind, _, _) => SignalName(kind)
  }

  /** One unit of outbound traffic: an emit to one socket, an emit to every socket, or a forced close. */
  datatype Outbound = Emit(socket: SocketId, event: Event) | Broadcast(event: Event) | Disconnect(socket: SocketId)

  /** A connected socket: its id, the token of its handshake, and the `data.userId` set on success. */
  class Client {
    const id: SocketId
    const token: Option<string>
    var userId: Option<UserId>

    constructor (id: SocketId, token: Option<string>)
      ensures this.id == id && this.token == token && userId == None
    {
      this.id := id;
      this.token := token;
      userId := None;
    }
  }

  /**
   * The handshake check both gateways run: a token must be present, `verify` (the JWT library with
   * the configured secret) must accept it, and the user it names must exist.
   */
  function Authenticate(token: Option<string>, verify: string -> Option<UserId>, users: map<UserId, User>): (r: Result<UserId>)
    ensures r.Ok? <==> Truthy(token) && verify(token.value).Some? && verify(token.value).value in users
    ensures r.Ok? ==> Some(r.value) == verify(token.value) && r.value in users
    ensures r.Err? ==> r.error.Unauthorized?
  {
    if !Truthy(token) then Err(Unauthorized("No authentication token found!"))
    else if verify(token.value).None? then Err(Unauthorized("Invalid token"))
    else if verify(token.value).value !in users then Err(Unauthorized("User not found"))
    else Ok(verify(token.value).value)
  }

  /** A refused handshake: the client gets an `error` event with the message and is disconnected. */
  function Refusal(client: SocketId, e: Error): seq<Outbound>
  {
    [Emit(client, ErrorEvent(e.msg)), Disconnect(client)]
  }

  /** No two users share a socket: each socket.io connection has its own id. */
  predicate Injective(sockets: map<UserId, SocketId>)
  {
    forall a, b :: a in sockets && b in sockets && sockets[a] == sockets[b] ==> a == b
  }

  /** `server.to(userSockets.get(u)).emit(ev)` guarded by `if (socketId)`. */
  function Deliver(sockets: map<UserId, SocketId>, u: UserId, ev: Event): (out: seq<Outbound>)
    ensures |out| == (if u in sockets then 1 else 0)
    ensures forall o :: o in out ==> o == Emit(sockets[u], ev)
  {
    if u in sockets then [Emit(sockets[u], ev)] else []
  }

  /** `users.forEach(u => deliver(u, ev))`, in list order. */
  function Fanout(us: seq<UserId>, sockets: map<UserId, SocketId>, ev: Event): (out: seq<Outbound>)
    ensures |out| <= |us|
    ensures forall o :: o in out ==> o.Emit? && o.event == ev
  {
    if us == [] then [] else Fanout(us[..|us| - 1], sockets, ev) + Deliver(sockets, us[|us| - 1], ev)
  }

  /** Every emit of a fan-out goes to the socket of a listed user who is registered. */
  lemma {:induction false} FanoutTargets(us: seq<UserId>, sockets: map<UserId, SocketId>, ev: Event, o: Outbound)
    requires o in Fanout(us, sockets, ev)
    ensures exists u :: u in us && u in sockets && o == Emit(sockets[u], ev)
  {
    var init, w := us[..|us| - 1], us[|us| - 1];
    assert us == init + [w];
    if o in Fanout(init, sockets, ev) {
      FanoutTargets(init, sockets, ev, o);
      var u :| u in init && u in sockets && o == Emit(sockets[u], ev);
      assert u in us;
    } else {
      assert o in Deliver(sockets, w, ev);
      assert w in us;
    }
  }

  /**
   * With distinct users and one socket per connection, the socket of a registered user receives
   * the event exactly once if the user is listed, and never otherwise.
   */
  lemma {:induction false} FanoutExactlyOnce(us: seq<UserId>, sockets: map<UserId, SocketId>, ev: Event, u: UserId)
    requires Distinct(us) && Injective(sockets) && u in sockets
    ensures multiset(Fanout(us, sockets, ev))[Emit(sockets[u], ev)] == if u in us then 1 else 0
  {
    if us != [] {
      var init, w := us[..|us| - 1], us[|us| - 1];
      assert us == init + [w];
      DistinctInit(us);
      FanoutExactlyOnce(init, sockets, ev, u);
      assert multiset(Fanout(us, sockets, ev)) == multiset(Fanout(init, sockets, ev)) + multiset(Deliver(sockets, w, ev));
      if u != w {
        assert u in us <==> u in init;
        assert w in sockets ==> sockets[w] != sockets[u];
      }
    }
  }

  /** Dropping the last user of a list without repeats leaves one without repeats that lacks that user. */
  lemma DistinctInit(us: seq<UserId>)
    requires Distinct(us) && us != []
    ensures Distinct(us[..|us| - 1]) && us[|us| - 1] !in us[..|us| - 1]
  {
    var init := us[..|us| - 1];
    forall i, j | 0 <= i < j < |init| ensures init[i] != init[j] {
      assert init[i] == us[i] && init[j] == us[j];
    }
    forall i | 0 <= i < |init| ensures init[i] != us[|us| - 1] {
      assert init[i] == us[i];
    }
  }
}
