/**
 * The call state machine over the `calls` table: initiate, answer, end, reject, history and
 * deletion of a call log.  Each transition is a pure function of the tables it reads (the
 * reference) and a method that performs it on the store step by step.
 */
module CallService {
  import opened Common
  import opened Store
  import opened Query

  datatype InitiateCallDto = InitiateCallDto(receiverId: UserId, callType: CallType)

  predicate IsParty(c: Call, u: UserId)
  {
    c.callerId == u || c.receiverId == u
  }

  /** The columns a transition fills are present in every status it leads to. */
  predicate WellFormed(c: Call)
  {
    && (c.status == Answered ==> c.startedAt.Some?)
    && (c.status == Ended ==> c.endedAt.Some? && c.duration.Some?)
    && (c.status == CallStatus.Rejected ==> c.endedAt.Some?)
  }

  predicate AllWellFormed(calls: map<Id, Call>)
  {
    forall id :: id in calls ==> WellFormed(calls[id])
  }

  function StatusName(s: CallStatus): string
  {
    if s.Initiated? then "INITIATED"
    else if s.Ringing? then "RINGING"
    else if s.Answered? then "ANSWERED"
    else if s.Ended? then "ENDED"
    else if s.Missed? then "MISSED"
    else if s.Rejected? then "REJECTED"
    else "BUSY"
  }

  // ---------------------------------------------------------------- reference transitions

  /** initiateCall: the caller must hold an unblocked contact row for the receiver, and the
      receiver must not have blocked the caller; the call is created already ringing. */
  function Initiate(contacts: map<ContactKey, Contact>, calls: map<Id, Call>, callerId: UserId,
                    dto: InitiateCallDto, id: Id, now: int): (out: (Result<Call>, map<Id, Call>))
    requires id !in calls
    ensures out.0.Ok? <==>
      HasContact(contacts, callerId, dto.receiverId, false) && !HasContact(contacts, dto.receiverId, callerId, true)
    ensures out.0.Err? ==> out.0.error.Forbidden? && out.1 == calls
    ensures out.0.Ok? ==>
      var c := out.0.value;
      && c.status == Ringing && c.callerId == callerId && c.receiverId == dto.receiverId
      && c.callType == dto.callType && c.startedAt.None? && c.endedAt.None? && c.duration.None?
      && out.1 == calls[id := c]
    ensures AllWellFormed(calls) ==> AllWellFormed(out.1)
  {
    if !HasContact(contacts, callerId, dto.receiverId, false) then
      (Err(Forbidden("You can only call your contacts")), calls)
    else if HasContact(contacts, dto.receiverId, callerId, true) then
      (Err(Forbidden("Cannot call this user")), calls)
    else
      var c := Call(callerId, dto.receiverId, dto.callType, Ringing, None, None, None, now);
      (Ok(c), calls[id := c])
  }

  /** answerCall: only the receiver, only from INITIATED or RINGING; sets ANSWERED and startedAt. */
  function Answer(calls: map<Id, Call>, callId: Id, userId: UserId, now: int): (out: (Result<Call>, map<Id, Call>))
    ensures callId !in calls ==> out.0.Err? && out.0.error.NotFound?
    ensures callId in calls && calls[callId].receiverId != userId ==> out.0.Err? && out.0.error.Forbidden?
    ensures out.0.Ok? <==>
      callId in calls && calls[callId].receiverId == userId && calls[callId].status in {Initiated, Ringing}
    ensures out.0.Err? ==> out.1 == calls
    ensures out.0.Ok? ==>
      out.0.value == calls[callId].(status := Answered, startedAt := Some(now)) && out.1 == calls[callId := out.0.value]
    ensures AllWellFormed(calls) ==> AllWellFormed(out.1)
  {
    if callId !in calls then (Err(NotFound("Call not found")), calls)
    else
      var c := calls[callId];
      if c.receiverId != userId then (Err(Forbidden("Only receiver can answer the call")), calls)
      else if c.status != Initiated && c.status != Ringing then
        (Err(BadRequest("Call cannot be answered. Current status: " + StatusName(c.status))), calls)
      else
        var c' := c.(status := Answered, startedAt := Some(now));
        (Ok(c'), calls[callId := c'])
  }

  /** endCall: either party, from any status; sets ENDED, endedAt and the duration (`duration || 0`). */
  function End(calls: map<Id, Call>, callId: Id, userId: UserId, duration: Option<int>, now: int): (out: (Result<Call>, map<Id, Call>))
    ensures callId !in calls ==> out.0.Err? && out.0.error.NotFound?
    ensures out.0.Ok? <==> callId in calls && IsParty(calls[callId], userId)
    ensures out.0.Err? ==> out.1 == calls
    ensures out.0.Ok? ==>
      out.0.value == calls[callId].(status := Ended, endedAt := Some(now), duration := Some(Or(duration, 0)))
      && out.1 == calls[callId := out.0.value]
    ensures AllWellFormed(calls) ==> AllWellFormed(out.1)
  {
    if callId !in calls then (Err(NotFound("Call not found")), calls)
    else
      var c := calls[callId];
      if c.callerId != userId && c.receiverId != userId then (Err(Forbidden("You are not part of this call")), calls)
      else
        var c' := c.(status := Ended, endedAt := Some(now), duration := Some(Or(duration, 0)));
        (Ok(c'), calls[callId := c'])
  }

  /** rejectCall: only the receiver, from any status; sets REJECTED and endedAt. */
  function Reject(calls: map<Id, Call>, callId: Id, userId: UserId, now: int): (out: (Result<Call>, map<Id, Call>))
    ensures callId !in calls ==> out.0.Err? && out.0.error.NotFound?
    ensures out.0.Ok? <==> callId in calls && calls[callId].receiverId == userId
    ensures out.0.Err? ==> out.1 == calls
    ensures out.0.Ok? ==>
      out.0.value == calls[callId].(status := CallStatus.Rejected, endedAt := Some(now)) && out.1 == calls[callId := out.0.value]
    ensures AllWellFormed(calls) ==> AllWellFormed(out.1)
  {
    if callId !in calls then (Err(NotFound("Call not found")), calls)
    else
      var c := calls[callId];
      if c.receiverId != userId then (Err(Forbidden("Only receiver can reject the call")), calls)
      else
        var c' := c.(status := CallStatus.Rejected, endedAt := Some(now));
        (Ok(c'), calls[callId := c'])
  }

  /** deleteCallLog: a party of the call removes exactly that row. */
  function DeleteLog(calls: map<Id, Call>, callId: Id, userId: UserId): (out: (Result<string>, map<Id, Call>))
    ensures callId !in calls ==> out.0.Err? && out.0.error.NotFound?
    ensures out.0.Ok? <==> callId in calls && IsParty(calls[callId], userId)
    ensures out.0.Err? ==> out.1 == calls
    ensures out.0.Ok? ==> out.1.Keys == calls.Keys - {callId} && forall id :: id in out.1 ==> out.1[id] == calls[id]
  {
    if callId !in calls then (Err(NotFound("Call not found")), calls)
    else if !IsParty(calls[callId], userId) then (Err(Forbidden("You can only delete your own call logs")), calls)
    else (Ok("Call log deleted successfully"), calls - {callId})
  }

  // ---------------------------------------------------------------- the service on the store

  method InitiateCall(db: Store, callerId: UserId, dto: InitiateCallDto, id: Id, now: int) returns (r: Result<Call>)
    requires id !in db.calls
    modifies db`calls
    ensures (r, db.calls) == Initiate(db.contacts, old(db.calls), callerId, dto, id, now)
  {
    if !HasContact(db.contacts, callerId, dto.receiverId, false) {
      return Err(Forbidden("You can only call your contacts"));
    }
    if HasContact(db.contacts, dto.receiverId, callerId, true) {
      return Err(Forbidden("Cannot call this user"));
    }
    var call := Call(callerId, dto.receiverId, dto.callType, Ringing, None, None, None, now);
    db.calls := db.calls[id := call];
    r := Ok(call);
  }

  method AnswerCall(db: Store, callId: Id, userId: UserId, now: int) returns (r: Result<Call>)
    modifies db`calls
    ensures (r, db.calls) == Answer(old(db.calls), callId, userId, now)
  {
    if callId !in db.calls {
      return Err(NotFound("Call not found"));
    }
    var call := db.calls[callId];
    if call.receiverId != userId {
      return Err(Forbidden("Only receiver can answer the call"));
    }
    if call.status != Initiated && call.status != Ringing {
      return Err(BadRequest("Call cannot be answered. Current status: " + StatusName(call.status)));
    }
    var updated := call.(status := Answered, startedAt := Some(now));
    db.calls := db.calls[callId := updated];
    r := Ok(updated);
  }

  method EndCall(db: Store, callId: Id, userId: UserId, duration: Option<int>, now: int) returns (r: Result<Call>)
    modifies db`calls
    ensures (r, db.calls) == End(old(db.calls), callId, userId, duration, now)
  {
    if callId !in db.calls {
      return Err(NotFound("Call not found"));
    }
    var call := db.calls[callId];
    if call.callerId != userId && call.receiverId != userId {
      return Err(Forbidden("You are not part of this call"));
    }
    var updated := call.(status := Ended, endedAt := Some(now), duration := Some(Or(duration, 0)));
    db.calls := db.calls[callId := updated];
    r := Ok(updated);
  }

  method RejectCall(db: Store, callId: Id, userId: UserId, now: int) returns (r: Result<Call>)
    modifies db`calls
    ensures (r, db.calls) == Reject(old(db.calls), callId, userId, now)
  {
    if callId !in db.calls {
      return Err(NotFound("Call not found"));
    }
    var call := db.calls[callId];
    if call.receiverId != userId {
      return Err(Forbidden("Only receiver can reject the call"));
    }
    var updated := call.(status := CallStatus.Rejected, endedAt := Some(now));
    db.calls := db.calls[callId := updated];
    r := Ok(updated);
  }

  /** getCallHistory: the user's calls, newest first, at most 100 of them. */
  method GetCallHistory(db: Store, userId: UserId) returns (r: seq<Id>)
    ensures |r| <= 100 && Distinct(r)
    ensures forall id :: id in r ==> id in db.calls && IsParty(db.calls[id], userId)
    ensures forall i, j :: 0 <= i < j < |r| ==> db.calls[r[i]].createdAt >= db.calls[r[j]].createdAt
    ensures forall id :: id in db.calls && IsParty(db.calls[id], userId) && id !in r ==>
      |r| == 100 && forall i :: 0 <= i < |r| ==> db.calls[id].createdAt <= db.calls[r[i]].createdAt
  {
    var all := SelectOrdered(db.calls, (id, c: Call) => IsParty(c, userId), (c: Call) => -c.createdAt);
    r := if |all| <= 100 then all else all[..100];
    forall id | id in db.calls && IsParty(db.calls[id], userId) && id !in r
      ensures |r| == 100 && forall i :: 0 <= i < |r| ==> db.calls[id].createdAt <= db.calls[r[i]].createdAt
    {
      var j :| 0 <= j < |all| && all[j] == id;
      assert j >= 100;
      forall i | 0 <= i < |r| ensures db.calls[id].createdAt <= db.calls[r[i]].createdAt {
        assert all[i] == r[i];
      }
    }
  }

  method DeleteCallLog(db: Store, callId: Id, userId: UserId) returns (r: Result<string>)
    modifies db`calls
    ensures (r, db.calls) == DeleteLog(old(db.calls), callId, userId)
  {
    if callId !in db.calls {
      return Err(NotFound("Call not found"));
    }
    var call := db.calls[callId];
    if call.callerId != userId && call.receiverId != userId {
      return Err(Forbidden("You can only delete your own call logs"));
    }
    db.calls := db.calls - {callId};
    r := Ok("Call log deleted successfully");
  }

  // ---------------------------------------------------------------- lifecycle properties

  /** A call is answered at most once: once ANSWERED, a second answer is refused. */
  lemma AnsweredOnlyOnce(calls: map<Id, Call>, callId: Id, userId: UserId, t1: int, t2: int)
    requires Answer(calls, callId, userId, t1).0.Ok?
    ensures var after := Answer(calls, callId, userId, t1).1;
      Answer(after, callId, userId, t2).0.Err? && Answer(after, callId, userId, t2).0.error.BadRequest?
  {
  }

  /** As written, rejectCall and endCall never look at the status: a finished call can be
      rejected again, and a rejected call ended, each overwriting the terminal status. */
  lemma TerminalStatusIsOverwritten(calls: map<Id, Call>, callId: Id, t1: int, t2: int)
    requires callId in calls && calls[callId].status in {Ended, CallStatus.Rejected}
    ensures var c := calls[callId];
      && Reject(calls, callId, c.receiverId, t1).1[callId].status == CallStatus.Rejected
      && End(calls, callId, c.callerId, None, t2).1[callId].status == Ended
  {
  }

  /** The happy path: A rings B, B answers, A hangs up after 42 seconds. */
  lemma {:induction false} VideoCallScenario(contacts: map<ContactKey, Contact>, calls: map<Id, Call>,
                                             a: UserId, b: UserId, id: Id, t0: int, t1: int, t2: int)
    requires a != b && id !in calls
    requires HasContact(contacts, a, b, false) && HasContact(contacts, b, a, false)
    ensures var (r0, c0) := Initiate(contacts, calls, a, InitiateCallDto(b, Video), id, t0);
            var (r1, c1) := Answer(c0, id, b, t1);
            var (r2, c2) := End(c1, id, a, Some(42), t2);
            && r0.Ok? && r0.value.status == Ringing
            && r1.Ok? && r1.value.status == Answered && r1.value.startedAt == Some(t1)
            && r2.Ok? && c2[id] == Call(a, b, Video, Ended, Some(t1), Some(t2), Some(42), t0)
  {
  }
}
