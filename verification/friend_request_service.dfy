/**
 * Friend requests: a request is created PENDING from sender to receiver; the receiver accepts it
 * (which creates the two contact rows in the same transaction) or rejects it; the sender may
 * cancel it while it is pending.  The receiver or sender is told through the chat gateway.
 */
module FriendRequestService {
  import opened Common
  import opened Store
  import opened Query
  import opened Sockets
  import ChatGateway
  import ContactService

  /** The answer of checkFriendStatus. */
  datatype FriendStatus = FriendStatus(isFriend: bool, requestStatus: Option<RequestStatus>, requestId: Option<Id>, canSendRequest: bool)

  predicate Active(q: FriendRequest)
  {
    q.status == Pending || q.status == Accepted
  }

  predicate Between(q: FriendRequest, a: UserId, b: UserId)
  {
    (q.senderId == a && q.receiverId == b) || (q.senderId == b && q.receiverId == a)
  }

  /** Some request between the two users, in either direction, has one of the given statuses. */
  predicate RequestBetween(requests: map<Id, FriendRequest>, a: UserId, b: UserId, statuses: set<RequestStatus>)
  {
    exists id :: id in requests && Between(requests[id], a, b) && requests[id].status in statuses
  }

  /** Neither a contact row nor a pending or accepted request stands between the two users. */
  predicate MaySend(contacts: map<ContactKey, Contact>, requests: map<Id, FriendRequest>, a: UserId, b: UserId)
  {
    !Linked(contacts, a, b) && !RequestBetween(requests, a, b, {Pending, Accepted})
  }

  /** The contact row `contact.create` inserts: unblocked, no nickname. */
  function NewContact(now: int): Contact
  {
    Contact(false, None, now)
  }

  // ---------------------------------------------------------------- reference transitions

  /**
   * acceptRequest: only the receiver, only while PENDING.  The status update and the two contact
   * inserts form one transaction, so an existing contact row (the pair is unique) makes the
   * whole step fail and change nothing.
   */
  function Accept(contacts: map<ContactKey, Contact>, requests: map<Id, FriendRequest>, requestId: Id, userId: UserId, now: int)
    : (out: (Result<FriendRequest>, map<ContactKey, Contact>, map<Id, FriendRequest>))
    ensures requestId !in requests ==> out.0.Err? && out.0.error.NotFound?
    ensures requestId in requests && requests[requestId].receiverId != userId ==> out.0.Err? && out.0.error.BadRequest?
    ensures out.0.Ok? <==>
      && requestId in requests && requests[requestId].receiverId == userId && requests[requestId].status == Pending
      && requests[requestId].senderId != userId && !Linked(contacts, requests[requestId].senderId, userId)
    ensures out.0.Err? ==> out.1 == contacts && out.2 == requests
    ensures out.0.Ok? ==>
      var q := requests[requestId];
      && out.0.value == q.(status := Accepted)
      && out.2 == requests[requestId := out.0.value]
      && out.1.Keys == contacts.Keys + {(q.senderId, q.receiverId), (q.receiverId, q.senderId)}
      && HasContact(out.1, q.senderId, q.receiverId, false) && HasContact(out.1, q.receiverId, q.senderId, false)
      && forall k :: k in contacts ==> out.1[k] == contacts[k]
  {
    if requestId !in requests then (Err(NotFound("Friend request not found")), contacts, requests)
    else
      var q := requests[requestId];
      if q.receiverId != userId then (Err(BadRequest("You can only accept requests sent to you")), contacts, requests)
      else if q.status != Pending then (Err(BadRequest("This request has already been processed")), contacts, requests)
      else if (q.senderId, q.receiverId) in contacts || (q.receiverId, q.senderId) in contacts || q.senderId == q.receiverId then
        (Err(STORE_FAILURE), contacts, requests)
      else
        var accepted := q.(status := Accepted);
        var contacts' := contacts[(q.senderId, q.receiverId) := NewContact(now)][(q.receiverId, q.senderId) := NewContact(now)];
        assert contacts'.Keys == contacts.Keys + {(q.senderId, q.receiverId), (q.receiverId, q.senderId)};
        (Ok(accepted), contacts', requests[requestId := accepted])
  }

  /** rejectRequest: only the receiver, only while PENDING; no contact is created. */
  function Reject(requests: map<Id, FriendRequest>, requestId: Id, userId: UserId): (out: (Result<FriendRequest>, map<Id, FriendRequest>))
    ensures requestId !in requests ==> out.0.Err? && out.0.error.NotFound?
    ensures out.0.Ok? <==>
      requestId in requests && requests[requestId].receiverId == userId && requests[requestId].status == Pending
    ensures out.0.Err? ==> out.1 == requests
    ensures out.0.Ok? ==>
      out.0.value == requests[requestId].(status := RequestStatus.Rejected) && out.1 == requests[requestId := out.0.value]
  {
    if requestId !in requests then (Err(NotFound("Friend request not found")), requests)
    else
      var q := requests[requestId];
      if q.receiverId != userId then (Err(BadRequest("You can only reject requests sent to you")), requests)
      else if q.status != Pending then (Err(BadRequest("This request has already been processed")), requests)
      else (Ok(q.(status := RequestStatus.Rejected)), requests[requestId := q.(status := RequestStatus.Rejected)])
  }

  /** cancelRequest: only the sender, only while PENDING; the request is deleted. */
  function Cancel(requests: map<Id, FriendRequest>, requestId: Id, userId: UserId): (out: (Result<string>, map<Id, FriendRequest>))
    ensures requestId !in requests ==> out.0.Err? && out.0.error.NotFound?
    ensures out.0.Ok? <==>
      requestId in requests && requests[requestId].senderId == userId && requests[requestId].status == Pending
    ensures out.0.Err? ==> out.1 == requests
    ensures out.0.Ok? ==> out.1.Keys == requests.Keys - {requestId} && forall id :: id in out.1 ==> out.1[id] == requests[id]
  {
    if requestId !in requests then (Err(NotFound("Friend request not found")), requests)
    else
      var q := requests[requestId];
      if q.senderId != userId then (Err(BadRequest("You can only cancel your own requests")), requests)
      else if q.status != Pending then (Err(BadRequest("Can only cancel pending requests")), requests)
      else (Ok("Friend request cancelled successfully"), requests - {requestId})
  }

  // ---------------------------------------------------------------- the service on the store

  /**
   * sendRequest: not to oneself, only to an existing user, and only when neither a contact row
   * nor a PENDING or ACCEPTED request lies between the two (a REJECTED one does not count).  The
   * conflict message depends on the request the store happens to find first.
   */
  method SendRequest(db: Store, gw: ChatGateway.ChatGateway, senderId: UserId, receiverId: UserId, id: Id, now: int)
    returns (r: Result<FriendRequest>)
    requires id !in db.friendRequests
    modifies db`friendRequests, gw`outbox
    ensures senderId == receiverId ==> r == Err(BadRequest("Cannot send friend request to yourself"))
    ensures senderId != receiverId && receiverId !in db.users ==> r == Err(NotFound("User not found"))
    ensures r.Ok? <==>
      senderId != receiverId && receiverId in db.users && MaySend(db.contacts, old(db.friendRequests), senderId, receiverId)
    ensures senderId != receiverId && receiverId in db.users && !MaySend(db.contacts, old(db.friendRequests), senderId, receiverId) ==>
      r.Err? && r.error.Conflict?
    ensures r == Err(Conflict("Friend request already sent")) ==> RequestBetween(old(db.friendRequests), senderId, receiverId, {Pending})
    ensures r == Err(Conflict("Friend request already accepted")) ==> RequestBetween(old(db.friendRequests), senderId, receiverId, {Accepted})
    ensures r.Err? ==> db.friendRequests == old(db.friendRequests) && gw.outbox == old(gw.outbox)
    ensures r.Ok? ==>
      && r.value == FriendRequest(senderId, receiverId, Pending, now)
      && db.friendRequests == old(db.friendRequests)[id := r.value]
      && gw.outbox == old(gw.outbox) + Deliver(gw.userSockets, receiverId, FriendRequestReceived(id, r.value))
  {
    if senderId == receiverId {
      return Err(BadRequest("Cannot send friend request to yourself"));
    }
    if receiverId !in db.users {
      return Err(NotFound("User not found"));
    }
    if Linked(db.contacts, senderId, receiverId) {
      return Err(Conflict("You are already friends with this user"));
    }
    if RequestBetween(db.friendRequests, senderId, receiverId, {Pending, Accepted}) {
      var found :| found in db.friendRequests && Between(db.friendRequests[found], senderId, receiverId)
                   && db.friendRequests[found].status in {Pending, Accepted};
      if db.friendRequests[found].status == Pending {
        return Err(Conflict("Friend request already sent"));
      }
      return Err(Conflict("Friend request already accepted"));
    }
    var request := FriendRequest(senderId, receiverId, Pending, now);
    db.friendRequests := db.friendRequests[id := request];
    gw.EmitFriendRequestReceived(receiverId, id, request);
    r := Ok(request);
  }

  /** acceptRequest on the store; the original sender hears `friend-request:accepted`. */
  method AcceptRequest(db: Store, gw: ChatGateway.ChatGateway, requestId: Id, userId: UserId, now: int) returns (r: Result<FriendRequest>)
    modifies db`contacts, db`friendRequests, gw`outbox
    ensures (r, db.contacts, db.friendRequests) == Accept(old(db.contacts), old(db.friendRequests), requestId, userId, now)
    ensures r.Ok? ==> gw.outbox == old(gw.outbox) + Deliver(gw.userSockets, r.value.senderId, FriendRequestAccepted(requestId, r.value))
    ensures r.Err? ==> gw.outbox == old(gw.outbox)
  {
    if requestId !in db.friendRequests {
      return Err(NotFound("Friend request not found"));
    }
    var request := db.friendRequests[requestId];
    if request.receiverId != userId {
      return Err(BadRequest("You can only accept requests sent to you"));
    }
    if request.status != Pending {
      return Err(BadRequest("This request has already been processed"));
    }
    if (request.senderId, request.receiverId) in db.contacts || (request.receiverId, request.senderId) in db.contacts
       || request.senderId == request.receiverId {
      return Err(STORE_FAILURE);
    }
    var updated := request.(status := Accepted);
    db.friendRequests := db.friendRequests[requestId := updated];
    db.contacts := db.contacts[(request.senderId, request.receiverId) := NewContact(now)];
    db.contacts := db.contacts[(request.receiverId, request.senderId) := NewContact(now)];
    gw.EmitFriendRequestAccepted(request.senderId, requestId, updated);
    r := Ok(updated);
  }

  /** rejectRequest on the store; the original sender hears `friend-request:rejected`. */
  method RejectRequest(db: Store, gw: ChatGateway.ChatGateway, requestId: Id, userId: UserId) returns (r: Result<FriendRequest>)
    modifies db`friendRequests, gw`outbox
    ensures (r, db.friendRequests) == Reject(old(db.friendRequests), requestId, userId)
    ensures r.Ok? ==> gw.outbox == old(gw.outbox) + Deliver(gw.userSockets, r.value.senderId, FriendRequestRejected(requestId, r.value))
    ensures r.Err? ==> gw.outbox == old(gw.outbox)
  {
    if requestId !in db.friendRequests {
      return Err(NotFound("Friend request not found"));
    }
    var request := db.friendRequests[requestId];
    if request.receiverId != userId {
      return Err(BadRequest("You can only reject requests sent to you"));
    }
    if request.status != Pending {
      return Err(BadRequest("This request has already been processed"));
    }
    var updated := request.(status := RequestStatus.Rejected);
    db.friendRequests := db.friendRequests[requestId := updated];
    gw.EmitFriendRequestRejected(request.senderId, requestId, updated);
    r := Ok(updated);
  }

  /** cancelRequest on the store; nobody is notified. */
  method CancelRequest(db: Store, requestId: Id, userId: UserId) returns (r: Result<string>)
    modifies db`friendRequests
    ensures (r, db.friendRequests) == Cancel(old(db.friendRequests), requestId, userId)
  {
    if requestId !in db.friendRequests {
      return Err(NotFound("Friend request not found"));
    }
    var request := db.friendRequests[requestId];
    if request.senderId != userId {
      return Err(BadRequest("You can only cancel your own requests"));
    }
    if request.status != Pending {
      return Err(BadRequest("Can only cancel pending requests"));
    }
    db.friendRequests := db.friendRequests - {requestId};
    r := Ok("Friend request cancelled successfully");
  }

  /** getPendingRequests: the PENDING requests the user received, newest first. */
  method GetPendingRequests(db: Store, userId: UserId) returns (r: seq<Id>)
    ensures Distinct(r)
    ensures forall id :: id in r <==>
      id in db.friendRequests && db.friendRequests[id].receiverId == userId && db.friendRequests[id].status == Pending
    ensures forall i, j :: 0 <= i < j < |r| ==> db.friendRequests[r[i]].createdAt >= db.friendRequests[r[j]].createdAt
  {
    r := SelectOrdered(db.friendRequests, (id: Id, q: FriendRequest) => q.receiverId == userId && q.status == Pending,
                       (q: FriendRequest) => -q.createdAt);
  }

  /** getSentRequests: the PENDING requests the user sent, newest first. */
  method GetSentRequests(db: Store, userId: UserId) returns (r: seq<Id>)
    ensures Distinct(r)
    ensures forall id :: id in r <==>
      id in db.friendRequests && db.friendRequests[id].senderId == userId && db.friendRequests[id].status == Pending
    ensures forall i, j :: 0 <= i < j < |r| ==> db.friendRequests[r[i]].createdAt >= db.friendRequests[r[j]].createdAt
  {
    r := SelectOrdered(db.friendRequests, (id: Id, q: FriendRequest) => q.senderId == userId && q.status == Pending,
                       (q: FriendRequest) => -q.createdAt);
  }

  /**
   * checkFriendStatus: friends when a contact row exists either way; otherwise a PENDING or
   * ACCEPTED request between the two is reported and forbids a new one; otherwise a request may
   * be sent.  `canSendRequest` is exactly sendRequest's contact and request check.
   */
  method CheckFriendStatus(db: Store, userId: UserId, targetUserId: UserId) returns (r: FriendStatus)
    ensures r.isFriend <==> Linked(db.contacts, userId, targetUserId)
    ensures r.canSendRequest <==> MaySend(db.contacts, db.friendRequests, userId, targetUserId)
    ensures r.requestId.Some? <==> !r.isFriend && !r.canSendRequest
    ensures r.requestId.Some? ==>
      var id := r.requestId.value;
      && id in db.friendRequests && Between(db.friendRequests[id], userId, targetUserId) && Active(db.friendRequests[id])
      && r.requestStatus == Some(db.friendRequests[id].status)
    ensures r.requestId.None? ==> r.requestStatus.None?
  {
    if Linked(db.contacts, userId, targetUserId) {
      return FriendStatus(true, None, None, false);
    }
    if RequestBetween(db.friendRequests, userId, targetUserId, {Pending, Accepted}) {
      var found :| found in db.friendRequests && Between(db.friendRequests[found], userId, targetUserId)
                   && db.friendRequests[found].status in {Pending, Accepted};
      return FriendStatus(false, Some(db.friendRequests[found].status), Some(found), false);
    }
    r := FriendStatus(false, None, None, true);
  }

  // ---------------------------------------------------------------- properties

  /** Accepting makes the two users mutual, unblocked contacts and rules out a new request. */
  lemma AcceptMakesFriends(contacts: map<ContactKey, Contact>, requests: map<Id, FriendRequest>, requestId: Id, userId: UserId, now: int)
    requires Accept(contacts, requests, requestId, userId, now).0.Ok?
    ensures var (r, c, q) := Accept(contacts, requests, requestId, userId, now);
      && Linked(c, r.value.senderId, userId) && !MaySend(c, q, r.value.senderId, userId)
      && !ContactService.IsBlocked(c, r.value.senderId, userId)
  {
  }

  /** A request is processed once: after an accept or a reject, every further transition is refused. */
  lemma {:induction false} ProcessedOnce(contacts: map<ContactKey, Contact>, requests: map<Id, FriendRequest>, requestId: Id,
                                         userId: UserId, actor: UserId, now: int, now': int)
    requires Accept(contacts, requests, requestId, userId, now).0.Ok? || Reject(requests, requestId, userId).0.Ok?
    ensures var q := if Accept(contacts, requests, requestId, userId, now).0.Ok?
                     then Accept(contacts, requests, requestId, userId, now).2 else Reject(requests, requestId, userId).1;
      && Accept(contacts, q, requestId, actor, now').0.Err?
      && Reject(q, requestId, actor).0.Err?
      && Cancel(q, requestId, actor).0.Err?
  {
    var q := if Accept(contacts, requests, requestId, userId, now).0.Ok?
             then Accept(contacts, requests, requestId, userId, now).2 else Reject(requests, requestId, userId).1;
    assert requestId in q && q[requestId].status != Pending;
  }

  /**
   * As written, removing a contact leaves the ACCEPTED request in place, so the two users can
   * never send each other a new request: sendRequest and checkFriendStatus both refuse it.
   */
  lemma {:induction false} RemovedFriendCannotBeAskedAgain(contacts: map<ContactKey, Contact>, requests: map<Id, FriendRequest>,
                                                           requestId: Id, userId: UserId, now: int)
    requires Accept(contacts, requests, requestId, userId, now).0.Ok?
    ensures var (r, c, q) := Accept(contacts, requests, requestId, userId, now);
      var c' := ContactService.Remove(c, userId, r.value.senderId).1;
      && !Linked(c', userId, r.value.senderId)
      && !MaySend(c', q, userId, r.value.senderId) && !MaySend(c', q, r.value.senderId, userId)
  {
    var (r, c, q) := Accept(contacts, requests, requestId, userId, now);
    assert requestId in q && Between(q[requestId], userId, r.value.senderId) && q[requestId].status == Accepted;
  }
}
