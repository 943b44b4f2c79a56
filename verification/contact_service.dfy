/**
 * The contact list: a directed row "userId has contactId" with a blocked flag and a nickname.
 * Block, unblock and nickname changes touch one directed row; removal deletes both directions.
 */
module ContactService {
  import opened Common
  import opened Store
  import opened Query


  /** isBlocked: some row between the two users, in either direction, is blocked. */
  function IsBlocked(contacts: map<ContactKey, Contact>, a: UserId, b: UserId): (r: bool)
    ensures r <==> exists k :: k in contacts && contacts[k].isBlocked && (k == (a, b) || k == (b, a))
  {
    HasContact(contacts, a, b, true) || HasContact(contacts, b, a, true)
  }

  /** blockContact: not oneself; the user's own row must exist and be unblocked. */
  function Block(contacts: map<ContactKey, Contact>, userId: UserId, contactId: UserId): (out: (Result<string>, map<ContactKey, Contact>))
    ensures userId == contactId ==> out.0 == Err(BadRequest("Cannot block yourself"))
    ensures userId != contactId && (userId, contactId) !in contacts ==> out.0.Err? && out.0.error.NotFound?
    ensures out.0.Ok? <==> userId != contactId && HasContact(contacts, userId, contactId, false)
    ensures out.0.Err? ==> out.1 == contacts
    ensures out.0.Ok? ==> out.1 == contacts[(userId, contactId) := contacts[(userId, contactId)].(isBlocked := true)]
  {
    if userId == contactId then (Err(BadRequest("Cannot block yourself")), contacts)
    else if (userId, contactId) !in contacts then (Err(NotFound("Contact not found")), contacts)
    else if contacts[(userId, contactId)].isBlocked then (Err(BadRequest("Contact is already blocked")), contacts)
    else (Ok("Contact blocked successfully"), contacts[(userId, contactId) := contacts[(userId, contactId)].(isBlocked := true)])
  }

  /** unblockContact: the user's own row must exist and be blocked (there is no self check). */
  function Unblock(contacts: map<ContactKey, Contact>, userId: UserId, contactId: UserId): (out: (Result<string>, map<ContactKey, Contact>))
    ensures (userId, contactId) !in contacts ==> out.0.Err? && out.0.error.NotFound?
    ensures out.0.Ok? <==> HasContact(contacts, userId, contactId, true)
    ensures out.0.Err? ==> out.1 == contacts
    ensures out.0.Ok? ==> out.1 == contacts[(userId, contactId) := contacts[(userId, contactId)].(isBlocked := false)]
  {
    if (userId, contactId) !in contacts then (Err(NotFound("Contact not found")), contacts)
    else if !contacts[(userId, contactId)].isBlocked then (Err(BadRequest("Contact is not blocked")), contacts)
    else (Ok("Contact unblocked successfully"), contacts[(userId, contactId) := contacts[(userId, contactId)].(isBlocked := false)])
  }

  /** removeContact: the user's own row must exist; then both directions go, in one transaction. */
  function Remove(contacts: map<ContactKey, Contact>, userId: UserId, contactId: UserId): (out: (Result<string>, map<ContactKey, Contact>))
    ensures out.0.Ok? <==> (userId, contactId) in contacts
    ensures out.0.Err? ==> out.0.error.NotFound? && out.1 == contacts
    ensures out.0.Ok? ==> !Linked(out.1, userId, contactId)
    ensures out.0.Ok? ==> forall k :: k in out.1 <==> k in contacts && k != (userId, contactId) && k != (contactId, userId)
    ensures forall k :: k in out.1 ==> out.1[k] == contacts[k]
  {
    if (userId, contactId) !in contacts then (Err(NotFound("Contact not found")), contacts)
    else (Ok("Contact removed successfully"), contacts - {(userId, contactId), (contactId, userId)})
  }

  /** updateNickname: the user's own row must exist; only its nickname changes (null clears it). */
  function SetNickname(contacts: map<ContactKey, Contact>, userId: UserId, contactId: UserId, nickname: Option<string>)
    : (out: (Result<Contact>, map<ContactKey, Contact>))
    ensures out.0.Ok? <==> (userId, contactId) in contacts
    ensures out.0.Err? ==> out.0.error.NotFound? && out.1 == contacts
    ensures out.0.Ok? ==>
      var old_ := contacts[(userId, contactId)];
      && out.0.value.nickname == nickname
      && out.0.value.isBlocked == old_.isBlocked && out.0.value.createdAt == old_.createdAt
      && out.1 == contacts[(userId, contactId) := out.0.value]
  {
    if (userId, contactId) !in contacts then (Err(NotFound("Contact not found")), contacts)
    else
      var c := contacts[(userId, contactId)].(nickname := nickname);
      (Ok(c), contacts[(userId, contactId) := c])
  }

  // ---------------------------------------------------------------- the service on the store

  method BlockContact(db: Store, userId: UserId, contactId: UserId) returns (r: Result<string>)
    modifies db`contacts
    ensures (r, db.contacts) == Block(old(db.contacts), userId, contactId)
  {
    if userId == contactId {
      return Err(BadRequest("Cannot block yourself"));
    }
    if (userId, contactId) !in db.contacts {
      return Err(NotFound("Contact not found"));
    }
    var row := db.contacts[(userId, contactId)];
    if row.isBlocked {
      return Err(BadRequest("Contact is already blocked"));
    }
    db.contacts := db.contacts[(userId, contactId) := row.(isBlocked := true)];
    r := Ok("Contact blocked successfully");
  }

  method UnblockContact(db: Store, userId: UserId, contactId: UserId) returns (r: Result<string>)
    modifies db`contacts
    ensures (r, db.contacts) == Unblock(old(db.contacts), userId, contactId)
  {
    if (userId, contactId) !in db.contacts {
      return Err(NotFound("Contact not found"));
    }
    var row := db.contacts[(userId, contactId)];
    if !row.isBlocked {
      return Err(BadRequest("Contact is not blocked"));
    }
    db.contacts := db.contacts[(userId, contactId) := row.(isBlocked := false)];
    r := Ok("Contact unblocked successfully");
  }

  method RemoveContact(db: Store, userId: UserId, contactId: UserId) returns (r: Result<string>)
    modifies db`contacts
    ensures (r, db.contacts) == Remove(old(db.contacts), userId, contactId)
  {
    if (userId, contactId) !in db.contacts {
      return Err(NotFound("Contact not found"));
    }
    ghost var before := db.contacts;
    db.contacts := db.contacts - {(userId, contactId)};
    db.contacts := db.contacts - {(contactId, userId)};
    assert db.contacts == before - {(userId, contactId), (contactId, userId)};
    r := Ok("Contact removed successfully");
  }

  method UpdateNickname(db: Store, userId: UserId, contactId: UserId, nickname: Option<string>) returns (r: Result<Contact>)
    modifies db`contacts
    ensures (r, db.contacts) == SetNickname(old(db.contacts), userId, contactId, nickname)
  {
    if (userId, contactId) !in db.contacts {
      return Err(NotFound("Contact not found"));
    }
    var updated := db.contacts[(userId, contactId)].(nickname := nickname);
    db.contacts := db.contacts[(userId, contactId) := updated];
    r := Ok(updated);
  }

  /** The rows a contact listing returns: the user's own rows with the given blocked flag. */
  predicate Listed(contacts: map<ContactKey, Contact>, u: UserId, blocked: bool, k: ContactKey)
  {
    k in contacts && k.0 == u && contacts[k].isBlocked == blocked
  }

  /** getContacts: the user's unblocked rows, newest first. */
  method GetContacts(db: Store, userId: UserId) returns (r: seq<ContactKey>)
    ensures Distinct(r)
    ensures forall k :: k in r <==> Listed(db.contacts, userId, false, k)
    ensures forall i, j :: 0 <= i < j < |r| && r[i] in db.contacts && r[j] in db.contacts ==>
      db.contacts[r[i]].createdAt >= db.contacts[r[j]].createdAt
  {
    r := SelectOrdered(db.contacts, (k: ContactKey, c: Contact) => k.0 == userId && !c.isBlocked, (c: Contact) => -c.createdAt);
  }

  /** getBlockedContacts: the user's blocked rows, newest first. */
  method GetBlockedContacts(db: Store, userId: UserId) returns (r: seq<ContactKey>)
    ensures Distinct(r)
    ensures forall k :: k in r <==> Listed(db.contacts, userId, true, k)
    ensures forall i, j :: 0 <= i < j < |r| && r[i] in db.contacts && r[j] in db.contacts ==>
      db.contacts[r[i]].createdAt >= db.contacts[r[j]].createdAt
  {
    r := SelectOrdered(db.contacts, (k: ContactKey, c: Contact) => k.0 == userId && c.isBlocked, (c: Contact) => -c.createdAt);
  }

  // ---------------------------------------------------------------- properties

  /** isBlocked does not depend on the order of its arguments. */
  lemma IsBlockedSymmetric(contacts: map<ContactKey, Contact>, a: UserId, b: UserId)
    ensures IsBlocked(contacts, a, b) == IsBlocked(contacts, b, a)
  {
  }

  /** Each of the user's rows is in exactly one of the two listings. */
  lemma ListingsPartition(contacts: map<ContactKey, Contact>, u: UserId, k: ContactKey)
    requires k in contacts && k.0 == u
    ensures Listed(contacts, u, false, k) != Listed(contacts, u, true, k)
  {
  }

  /** Blocking is one-directional: the reverse row is untouched, yet isBlocked now holds both ways. */
  lemma BlockIsDirected(contacts: map<ContactKey, Contact>, u: UserId, c: UserId)
    requires Block(contacts, u, c).0.Ok?
    ensures var after := Block(contacts, u, c).1;
      && ((c, u) in contacts ==> (c, u) in after && after[(c, u)] == contacts[(c, u)])
      && IsBlocked(after, u, c) && IsBlocked(after, c, u)
  {
  }

  /** Blocking and then unblocking gives back exactly the table blocking started from. */
  lemma {:induction false} BlockThenUnblockRestores(contacts: map<ContactKey, Contact>, u: UserId, c: UserId)
    requires Block(contacts, u, c).0.Ok?
    ensures Unblock(Block(contacts, u, c).1, u, c).0.Ok?
    ensures Unblock(Block(contacts, u, c).1, u, c).1 == contacts
  {
    var row := contacts[(u, c)];
    assert row.(isBlocked := true).(isBlocked := false) == row;
    assert contacts[(u, c) := row] == contacts;
  }

  /** A second block of the same row is refused and changes nothing. */
  lemma BlockTwiceRefused(contacts: map<ContactKey, Contact>, u: UserId, c: UserId)
    requires Block(contacts, u, c).0.Ok?
    ensures var after := Block(contacts, u, c).1;
      Block(after, u, c).0 == Err(BadRequest("Contact is already blocked")) && Block(after, u, c).1 == after
  {
  }
}
