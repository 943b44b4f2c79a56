/**
 * One-to-one chats: find-or-create between two contacts, listing by most recent activity,
 * lookup and deletion, all limited to the chat's participants.
 */
module ChatService {
  import opened Common
  import opened Store
  import opened Query
  import ContactService

  /** `participants: { some: { id: u } }` on the chat `chatId`. */
  predicate IsParticipant(chats: map<Id, Chat>, chatId: Id, u: UserId)
  {
    chatId in chats && u in chats[chatId].participants
  }

  /** A non-group chat in which both users take part. */
  predicate IsDirectChat(c: Chat, a: UserId, b: UserId)
  {
    !c.isGroup && a in c.participants && b in c.participants
  }

  predicate HasDirectChat(chats: map<Id, Chat>, a: UserId, b: UserId)
  {
    exists id :: id in chats && IsDirectChat(chats[id], a, b)
  }

  /**
   * The checks createChat makes before looking for a chat: not oneself, an existing participant,
   * an unblocked contact row from the user to the participant, and no block in either direction.
   */
  function CreateChatCheck(users: map<UserId, User>, contacts: map<ContactKey, Contact>, userId: UserId, participantId: UserId): (r: Result<()>)
    ensures userId == participantId ==> r == Err(BadRequest("Cannot create chat with yourself"))
    ensures userId != participantId && participantId !in users ==> r == Err(NotFound("Participant not found"))
    ensures r.Ok? <==>
      && userId != participantId && participantId in users
      && HasContact(contacts, userId, participantId, false) && !ContactService.IsBlocked(contacts, userId, participantId)
    ensures r.Err? && userId != participantId && participantId in users ==> r.error.Forbidden?
  {
    if userId == participantId then Err(BadRequest("Cannot create chat with yourself"))
    else if participantId !in users then Err(NotFound("Participant not found"))
    else if !HasContact(contacts, userId, participantId, false) then
      Err(Forbidden("You can only chat with your contacts. Send a friend request first."))
    else if ContactService.IsBlocked(contacts, userId, participantId) then Err(Forbidden("Cannot create chat with blocked user"))
    else Ok(())
  }

  /** The chat createChat inserts: exactly the two users, not a group, created by the caller. */
  function NewChat(userId: UserId, participantId: UserId, now: int): (c: Chat)
    ensures c.participants == [userId, participantId] && !c.isGroup && c.createdById == userId
    ensures IsDirectChat(c, userId, participantId)
  {
    Chat([userId, participantId], false, userId, now, now)
  }

  /** getChatById: the chat, for a participant; NotFound for a missing chat and for anyone else alike. */
  function GetChatById(chats: map<Id, Chat>, chatId: Id, userId: UserId): (r: Result<Chat>)
    ensures r.Ok? <==> IsParticipant(chats, chatId, userId)
    ensures r.Ok? ==> r.value == chats[chatId]
    ensures r.Err? ==> r == Err(NotFound("Chat not found"))
  {
    if IsParticipant(chats, chatId, userId) then Ok(chats[chatId]) else Err(NotFound("Chat not found"))
  }

  /** deleteChat: a participant deletes the chat; anyone else gets NotFound. */
  function Delete(chats: map<Id, Chat>, chatId: Id, userId: UserId): (out: (Result<string>, map<Id, Chat>))
    ensures out.0.Ok? <==> IsParticipant(chats, chatId, userId)
    ensures out.0.Err? ==> out.0 == Err(NotFound("Chat not found")) && out.1 == chats
    ensures out.0.Ok? ==> out.1.Keys == chats.Keys - {chatId}
    ensures forall id :: id in out.1 ==> id in chats && out.1[id] == chats[id]
  {
    if !IsParticipant(chats, chatId, userId) then (Err(NotFound("Chat not found")), chats)
    else (Ok("Chat deleted successfully"), chats - {chatId})
  }

  /**
   * createChat: after the checks, an existing one-to-one chat of the two users is returned and
   * nothing is inserted; otherwise a new chat of exactly the two users is inserted under `id`.
   */
  method CreateChat(db: Store, userId: UserId, participantId: UserId, id: Id, now: int) returns (r: Result<Id>)
    requires id !in db.chats
    modifies db`chats
    ensures CreateChatCheck(db.users, db.contacts, userId, participantId).Err? ==>
      r == Err(CreateChatCheck(db.users, db.contacts, userId, participantId).error) && db.chats == old(db.chats)
    ensures CreateChatCheck(db.users, db.contacts, userId, participantId).Ok? ==> r.Ok?
    ensures r.Ok? ==> r.value in db.chats && IsDirectChat(db.chats[r.value], userId, participantId)
    ensures r.Ok? && HasDirectChat(old(db.chats), userId, participantId) ==> db.chats == old(db.chats)
    ensures r.Ok? && !HasDirectChat(old(db.chats), userId, participantId) ==>
      r.value == id && db.chats == old(db.chats)[id := NewChat(userId, participantId, now)]
  {
    var check := CreateChatCheck(db.users, db.contacts, userId, participantId);
    if check.Err? {
      return Err(check.error);
    }
    if HasDirectChat(db.chats, userId, participantId) {
      var existing :| existing in db.chats && IsDirectChat(db.chats[existing], userId, participantId);
      return Ok(existing);
    }
    db.chats := db.chats[id := Chat([userId, participantId], false, userId, now, now)];
    r := Ok(id);
  }

  /** getUserChats: the chats the user takes part in, most recently active first. */
  method GetUserChats(db: Store, userId: UserId) returns (r: seq<Id>)
    ensures Distinct(r)
    ensures forall id :: id in r <==> IsParticipant(db.chats, id, userId)
    ensures forall i, j :: 0 <= i < j < |r| && r[i] in db.chats && r[j] in db.chats ==>
      db.chats[r[i]].updatedAt >= db.chats[r[j]].updatedAt
  {
    r := SelectOrdered(db.chats, (id: Id, c: Chat) => userId in c.participants, (c: Chat) => -c.updatedAt);
  }

  method DeleteChat(db: Store, chatId: Id, userId: UserId) returns (r: Result<string>)
    modifies db`chats
    ensures (r, db.chats) == Delete(old(db.chats), chatId, userId)
  {
    if chatId !in db.chats || userId !in db.chats[chatId].participants {
      return Err(NotFound("Chat not found"));
    }
    db.chats := db.chats - {chatId};
    r := Ok("Chat deleted successfully");
  }

  /**
   * Find-or-create is idempotent: asking twice for a chat with the same user inserts at most
   * one chat and returns the same chat both times when none existed before.
   */
  method CreateChatTwice(db: Store, userId: UserId, participantId: UserId, id1: Id, id2: Id, now1: int, now2: int)
    returns (r1: Result<Id>, r2: Result<Id>)
    requires id1 !in db.chats && id2 !in db.chats && id1 != id2
    modifies db`chats
    ensures r1.Ok? <==> r2.Ok?
    ensures r1.Ok? ==> |db.chats.Keys - old(db.chats).Keys| <= 1 && r2.value in db.chats
    ensures r1.Ok? && !HasDirectChat(old(db.chats), userId, participantId) ==>
      r1 == r2 == Ok(id1) && db.chats == old(db.chats)[id1 := NewChat(userId, participantId, now1)]
  {
    ghost var before := db.chats;
    r1 := CreateChat(db, userId, participantId, id1, now1);
    ghost var middle := db.chats;
    r2 := CreateChat(db, userId, participantId, id2, now2);
    if r1.Ok? {
      if HasDirectChat(before, userId, participantId) {
        assert db.chats == before;
      } else {
        assert db.chats == middle;
        assert forall id :: id in middle && IsDirectChat(middle[id], userId, participantId) ==> id == id1;
      }
    }
  }
}
