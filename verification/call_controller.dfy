/**
 * The call endpoints: each runs one transition of the call service and, only when it succeeds,
 * tells the other party of the call through the call gateway.
 */
module CallController {
  import opened Common
  import opened Store
  import opened Sockets
  import CallService
  import CallGateway

  /** The party told that `actor` ended the call: the receiver when the caller ends it, else the caller. */
  function OtherParty(c: Call, actor: UserId): (r: UserId)
    ensures CallService.IsParty(c, r)
    ensures CallService.IsParty(c, actor) && c.callerId != c.receiverId ==> r != actor
    ensures c.callerId != c.receiverId ==> (r == c.receiverId <==> actor == c.callerId)
  {
    if c.callerId == actor then c.receiverId else c.callerId
  }

  /** POST calls/initiate: `call:incoming` goes to `dto.receiverId` once the call exists. */
  method InitiateCall(db: Store, gw: CallGateway.CallGateway, userId: UserId, dto: CallService.InitiateCallDto, id: Id, now: int)
    returns (r: Result<Call>)
    requires id !in db.calls
    modifies db`calls, gw`outbox
    ensures (r, db.calls) == CallService.Initiate(db.contacts, old(db.calls), userId, dto, id, now)
    ensures r.Ok? ==> gw.outbox == old(gw.outbox) + Deliver(gw.userSockets, dto.receiverId, CallIncoming(id, r.value))
    ensures r.Err? ==> gw.outbox == old(gw.outbox)
  {
    r := CallService.InitiateCall(db, userId, dto, id, now);
    if r.Ok? {
      gw.EmitIncomingCall(dto.receiverId, id, r.value);
    }
  }

  /** POST calls/:id/answer: the caller hears `call:answered`. */
  method AnswerCall(db: Store, gw: CallGateway.CallGateway, userId: UserId, callId: Id, now: int) returns (r: Result<Call>)
    modifies db`calls, gw`outbox
    ensures (r, db.calls) == CallService.Answer(old(db.calls), callId, userId, now)
    ensures r.Ok? ==> gw.outbox == old(gw.outbox) + Deliver(gw.userSockets, r.value.callerId, CallAnswered(callId, r.value))
    ensures r.Err? ==> gw.outbox == old(gw.outbox)
  {
    r := CallService.AnswerCall(db, callId, userId, now);
    if r.Ok? {
      gw.EmitCallAnswered(r.value.callerId, callId, r.value);
    }
  }

  /** POST calls/:id/end: the party who did not end the call hears `call:ended`. */
  method EndCall(db: Store, gw: CallGateway.CallGateway, userId: UserId, callId: Id, duration: Option<int>, now: int)
    returns (r: Result<Call>)
    modifies db`calls, gw`outbox
    ensures (r, db.calls) == CallService.End(old(db.calls), callId, userId, duration, now)
    ensures r.Ok? ==> gw.outbox == old(gw.outbox) + Deliver(gw.userSockets, OtherParty(r.value, userId), CallEnded(callId, r.value))
    ensures r.Err? ==> gw.outbox == old(gw.outbox)
  {
    r := CallService.EndCall(db, callId, userId, duration, now);
    if r.Ok? {
      var other := if r.value.callerId == userId then r.value.receiverId else r.value.callerId;
      gw.EmitCallEnded(other, callId, r.value);
    }
  }

  /** POST calls/:id/reject: the caller hears `call:rejected`. */
  method RejectCall(db: Store, gw: CallGateway.CallGateway, userId: UserId, callId: Id, now: int) returns (r: Result<Call>)
    modifies db`calls, gw`outbox
    ensures (r, db.calls) == CallService.Reject(old(db.calls), callId, userId, now)
    ensures r.Ok? ==> gw.outbox == old(gw.outbox) + Deliver(gw.userSockets, r.value.callerId, CallRejected(callId, r.value))
    ensures r.Err? ==> gw.outbox == old(gw.outbox)
  {
    r := CallService.RejectCall(db, callId, userId, now);
    if r.Ok? {
      gw.EmitCallRejected(r.value.callerId, callId, r.value);
    }
  }

  /** DELETE calls/:id: removes the log and notifies nobody. */
  method DeleteCallLog(db: Store, gw: CallGateway.CallGateway, userId: UserId, callId: Id) returns (r: Result<string>)
    modifies db`calls
    ensures (r, db.calls) == CallService.DeleteLog(old(db.calls), callId, userId)
    ensures gw.outbox == old(gw.outbox)
  {
    r := CallService.DeleteCallLog(db, callId, userId);
  }

  /** A successful end notifies a party of the call other than the one who ended it. */
  lemma EndNotifiesTheOtherParty(calls: map<Id, Call>, callId: Id, userId: UserId, duration: Option<int>, now: int)
    requires CallService.End(calls, callId, userId, duration, now).0.Ok?
    requires calls[callId].callerId != calls[callId].receiverId
    ensures var c := CallService.End(calls, callId, userId, duration, now).0.value;
      OtherParty(c, userId) != userId && CallService.IsParty(c, OtherParty(c, userId))
  {
  }
}
