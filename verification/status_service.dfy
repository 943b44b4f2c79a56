/**
 * Status stories: a status lives for 24 hours, is shown to viewers according to its privacy
 * setting, counts each distinct viewer once, and only its owner may read its views, change its
 * privacy or delete it.  An hourly job removes expired statuses.
 */
module StatusService {
  import opened Common
  import opened Store
  import opened Query
  import ContactService

  /** `setHours(getHours() + 24)`, in milliseconds. */
  const DAY_MS := 86_400_000

  datatype CreateStatusDto = CreateStatusDto(statusType: string, content: Option<string>, mediaUrl: Option<string>, backgroundColor: Option<string>)
  datatype UpdateStatusPrivacyDto = UpdateStatusPrivacyDto(privacyType: PrivacyType, exceptUserIds: Option<seq<UserId>>, onlyUserIds: Option<seq<UserId>>)

  /** The distinct users who have viewed a status. */
  function ViewersOf(views: map<ViewKey, StatusView>, statusId: Id): set<UserId>
  {
    set k | k in views.Keys && k.0 == statusId :: k.1
  }

  /** Every status counts exactly its distinct viewers. */
  predicate ViewCountsAgree(statuses: map<Id, Status>, views: map<ViewKey, StatusView>)
  {
    forall id :: id in statuses ==> statuses[id].viewCount == |ViewersOf(views, id)|
  }

  /** The row createStatus inserts: unseen, expiring a day after `now`, black unless a colour is given. */
  function NewStatus(userId: UserId, dto: CreateStatusDto, now: int): (s: Status)
    ensures s.userId == userId && s.viewCount == 0 && s.createdAt == now
    ensures s.expiresAt == s.createdAt + DAY_MS
    ensures s.backgroundColor == (if Truthy(dto.backgroundColor) then dto.backgroundColor.value else "#000000")
    ensures s.statusType == dto.statusType && s.content == dto.content && s.mediaUrl == dto.mediaUrl
  {
    Status(userId, dto.statusType, dto.content, dto.mediaUrl, OrDefault(dto.backgroundColor, "#000000"), 0, now + DAY_MS, now)
  }

  /**
   * checkStatusPrivacy, as one decision.  No privacy row, or CONTACTS: the owner must hold an
   * unblocked contact row for the viewer.  ALL: anyone.  EXCEPT: anyone not listed.  ONLY falls
   * through every test and so admits anyone; its list is never read.
   */
  function PrivacyAllows(privacy: Option<StatusPrivacy>, contacts: map<ContactKey, Contact>, owner: UserId, viewer: UserId): (r: bool)
    ensures privacy.None? ==> (r <==> HasContact(contacts, owner, viewer, false))
    ensures privacy.Some? ==> match privacy.value.privacyType
      case All => r
      case Contacts => r <==> HasContact(contacts, owner, viewer, false)
      case Except => r <==> viewer !in privacy.value.exceptUserIds
      case Only => r
  {
    if privacy.None? then HasContact(contacts, owner, viewer, false)
    else match privacy.value.privacyType
      case All => true
      case Contacts => HasContact(contacts, owner, viewer, false)
      case Except => viewer !in privacy.value.exceptUserIds
      case Only => true
  }

  /**
   * getStatusById: a missing status and one whose `expiresAt` lies before `now` are not found;
   * anyone but the owner must pass the privacy decision.
   */
  function GetStatusById(statuses: map<Id, Status>, privacy: map<Id, StatusPrivacy>, contacts: map<ContactKey, Contact>,
                         statusId: Id, userId: UserId, now: int): (r: Result<Status>)
    ensures r.Ok? <==>
      && statusId in statuses && statuses[statusId].expiresAt >= now
      && (statuses[statusId].userId == userId ||
          PrivacyAllows(if statusId in privacy then Some(privacy[statusId]) else None, contacts, statuses[statusId].userId, userId))
    ensures r.Ok? ==> r.value == statuses[statusId]
    ensures statusId !in statuses || statuses[statusId].expiresAt < now ==> r.Err? && r.error.NotFound?
    ensures r.Err? && statusId in statuses && statuses[statusId].expiresAt >= now ==> r.error.Forbidden?
  {
    if statusId !in statuses then Err(NotFound("Status not found"))
    else
      var s := statuses[statusId];
      if s.expiresAt < now then Err(NotFound("Status has expired"))
      else if s.userId != userId && !PrivacyAllows(if statusId in privacy then Some(privacy[statusId]) else None, contacts, s.userId, userId) then
        Err(Forbidden("You cannot view this status"))
      else Ok(s)
  }

  // ---------------------------------------------------------------- reference transitions

  /**
   * markAsViewed: not by the owner; an existing view is returned and nothing changes; otherwise
   * a view is inserted and `viewCount` goes up by one, in one transaction.  Neither expiry nor
   * privacy is checked.
   */
  function MarkViewed(statuses: map<Id, Status>, views: map<ViewKey, StatusView>, statusId: Id, viewerId: UserId, now: int)
    : (out: (Result<StatusView>, map<Id, Status>, map<ViewKey, StatusView>))
    ensures statusId !in statuses ==> out.0 == Err(NotFound("Status not found"))
    ensures statusId in statuses && statuses[statusId].userId == viewerId ==> out.0 == Err(Forbidden("Cannot view your own status"))
    ensures out.0.Ok? <==> statusId in statuses && statuses[statusId].userId != viewerId
    ensures out.0.Err? ==> out.1 == statuses && out.2 == views
    ensures out.0.Ok? && (statusId, viewerId) in views ==>
      out.0.value == views[(statusId, viewerId)] && out.1 == statuses && out.2 == views
    ensures out.0.Ok? && (statusId, viewerId) !in views ==>
      && out.0.value == StatusView(now)
      && out.2 == views[(statusId, viewerId) := StatusView(now)]
      && out.1 == statuses[statusId := statuses[statusId].(viewCount := statuses[statusId].viewCount + 1)]
  {
    if statusId !in statuses then (Err(NotFound("Status not found")), statuses, views)
    else if statuses[statusId].userId == viewerId then (Err(Forbidden("Cannot view your own status")), statuses, views)
    else if (statusId, viewerId) in views then (Ok(views[(statusId, viewerId)]), statuses, views)
    else
      var s := statuses[statusId];
      var views' := views[(statusId, viewerId) := StatusView(now)];
      var statuses' := statuses[statusId := s.(viewCount := s.viewCount + 1)];
      (Ok(StatusView(now)), statuses', views')
  }

  /** A view is counted once, when it is first recorded: every status's count still equals its number of viewers. */
  lemma MarkViewedKeepsCounts(statuses: map<Id, Status>, views: map<ViewKey, StatusView>, statusId: Id, viewerId: UserId, now: int)
    requires ViewCountsAgree(statuses, views)
    ensures var out := MarkViewed(statuses, views, statusId, viewerId, now);
      ViewCountsAgree(out.1, out.2)
  {
    if statusId in statuses && statuses[statusId].userId != viewerId && (statusId, viewerId) !in views {
      var out := MarkViewed(statuses, views, statusId, viewerId, now);
      ViewersAfterInsert(views, statusId, viewerId, StatusView(now));
      forall id | id in out.1 ensures out.1[id].viewCount == |ViewersOf(out.2, id)| {
        if id == statusId {
          assert viewerId !in ViewersOf(views, statusId);
        }
      }
    }
  }

  /** A new view adds its viewer to that status's viewers and to no other status's. */
  lemma ViewersAfterInsert(views: map<ViewKey, StatusView>, statusId: Id, viewerId: UserId, v: StatusView)
    ensures ViewersOf(views[(statusId, viewerId) := v], statusId) == ViewersOf(views, statusId) + {viewerId}
    ensures (statusId, viewerId) !in views ==> viewerId !in ViewersOf(views, statusId)
    ensures forall id :: id != statusId ==> ViewersOf(views[(statusId, viewerId) := v], id) == ViewersOf(views, id)
  {
    var views' := views[(statusId, viewerId) := v];
    assert (statusId, viewerId) in views'.Keys;
    forall id | id != statusId ensures ViewersOf(views', id) == ViewersOf(views, id) {
      forall u | u in ViewersOf(views', id) ensures u in ViewersOf(views, id) {
        var k :| k in views'.Keys && k.0 == id && k.1 == u;
        assert k in views.Keys;
      }
      forall u | u in ViewersOf(views, id) ensures u in ViewersOf(views', id) {
        var k :| k in views.Keys && k.0 == id && k.1 == u;
        assert k in views'.Keys;
      }
    }
    forall u | u in ViewersOf(views', statusId) ensures u in ViewersOf(views, statusId) + {viewerId} {
      var k :| k in views'.Keys && k.0 == statusId && k.1 == u;
      if k != (statusId, viewerId) { assert k in views.Keys; }
    }
    forall u | u in ViewersOf(views, statusId) ensures u in ViewersOf(views', statusId) {
      var k :| k in views.Keys && k.0 == statusId && k.1 == u;
      assert k in views'.Keys;
    }
  }

  /** updatePrivacy: owner only; creates or replaces the status's single privacy row, a missing list being `[]`. */
  function SetPrivacy(statuses: map<Id, Status>, privacy: map<Id, StatusPrivacy>, statusId: Id, userId: UserId, dto: UpdateStatusPrivacyDto)
    : (out: (Result<Status>, map<Id, StatusPrivacy>))
    ensures statusId !in statuses ==> out.0 == Err(NotFound("Status not found"))
    ensures out.0.Ok? <==> statusId in statuses && statuses[statusId].userId == userId
    ensures out.0.Err? ==> out.1 == privacy
    ensures out.0.Ok? ==>
      && out.0.value == statuses[statusId]
      && out.1.Keys == privacy.Keys + {statusId}
      && out.1[statusId].privacyType == dto.privacyType
      && out.1[statusId].exceptUserIds == (if dto.exceptUserIds.Some? then dto.exceptUserIds.value else [])
      && out.1[statusId].onlyUserIds == (if dto.onlyUserIds.Some? then dto.onlyUserIds.value else [])
      && forall id :: id in privacy && id != statusId ==> out.1[id] == privacy[id]
  {
    if statusId !in statuses then (Err(NotFound("Status not found")), privacy)
    else if statuses[statusId].userId != userId then (Err(Forbidden("You can only update your own status")), privacy)
    else (Ok(statuses[statusId]), privacy[statusId := StatusPrivacy(dto.privacyType, Or(dto.exceptUserIds, []), Or(dto.onlyUserIds, []))])
  }

  /** deleteStatus: owner only; the status row goes. */
  function Delete(statuses: map<Id, Status>, statusId: Id, userId: UserId): (out: (Result<string>, map<Id, Status>))
    ensures statusId !in statuses ==> out.0 == Err(NotFound("Status not found"))
    ensures out.0.Ok? <==> statusId in statuses && statuses[statusId].userId == userId
    ensures out.0.Err? ==> out.1 == statuses
    ensures out.0.Ok? ==> out.1.Keys == statuses.Keys - {statusId}
    ensures forall id :: id in out.1 ==> id in statuses && out.1[id] == statuses[id]
  {
    if statusId !in statuses then (Err(NotFound("Status not found")), statuses)
    else if statuses[statusId].userId != userId then (Err(Forbidden("You can only delete your own status")), statuses)
    else (Ok("Status deleted successfully"), statuses - {statusId})
  }

  /** deleteExpiredStatuses: exactly the statuses whose `expiresAt` lies before `now` go. */
  function DeleteExpired(statuses: map<Id, Status>, now: int): (r: map<Id, Status>)
    ensures forall id :: id in r <==> id in statuses && statuses[id].expiresAt >= now
    ensures forall id :: id in r ==> r[id] == statuses[id]
  {
    map id | id in statuses && statuses[id].expiresAt >= now :: statuses[id]
  }

  // ---------------------------------------------------------------- the service on the store

  method CreateStatus(db: Store, userId: UserId, dto: CreateStatusDto, id: Id, now: int) returns (r: Status)
    requires id !in db.statuses
    modifies db`statuses
    ensures r == NewStatus(userId, dto, now) && db.statuses == old(db.statuses)[id := r]
    ensures ViewCountsAgree(old(db.statuses), db.statusViews) && ViewersOf(db.statusViews, id) == {} ==>
      ViewCountsAgree(db.statuses, db.statusViews)
  {
    var expiresAt := now + DAY_MS;
    r := Status(userId, dto.statusType, dto.content, dto.mediaUrl, OrDefault(dto.backgroundColor, "#000000"), 0, expiresAt, now);
    db.statuses := db.statuses[id := r];
  }

  method MarkAsViewed(db: Store, statusId: Id, viewerId: UserId, now: int) returns (r: Result<StatusView>)
    modifies db`statuses, db`statusViews
    ensures (r, db.statuses, db.statusViews) == MarkViewed(old(db.statuses), old(db.statusViews), statusId, viewerId, now)
  {
    if statusId !in db.statuses {
      return Err(NotFound("Status not found"));
    }
    var status := db.statuses[statusId];
    if status.userId == viewerId {
      return Err(Forbidden("Cannot view your own status"));
    }
    if (statusId, viewerId) in db.statusViews {
      return Ok(db.statusViews[(statusId, viewerId)]);
    }
    var view := StatusView(now);
    db.statusViews := db.statusViews[(statusId, viewerId) := view];
    db.statuses := db.statuses[statusId := status.(viewCount := status.viewCount + 1)];
    r := Ok(view);
  }

  /** getStatusViews: owner only; the status's views, most recent first. */
  method GetStatusViews(db: Store, statusId: Id, userId: UserId) returns (r: Result<seq<ViewKey>>)
    ensures statusId !in db.statuses ==> r == Err(NotFound("Status not found"))
    ensures r.Ok? <==> statusId in db.statuses && db.statuses[statusId].userId == userId
    ensures r.Err? && statusId in db.statuses ==> r.error.Forbidden?
    ensures r.Ok? ==> Distinct(r.value) && forall k :: k in r.value <==> k in db.statusViews && k.0 == statusId
    ensures r.Ok? ==> forall i, j :: 0 <= i < j < |r.value| && r.value[i] in db.statusViews && r.value[j] in db.statusViews ==>
      db.statusViews[r.value[i]].viewedAt >= db.statusViews[r.value[j]].viewedAt
  {
    if statusId !in db.statuses {
      return Err(NotFound("Status not found"));
    }
    if db.statuses[statusId].userId != userId {
      return Err(Forbidden("You can only see views on your own status"));
    }
    var ks := SelectOrdered(db.statusViews, (k: ViewKey, v: StatusView) => k.0 == statusId, (v: StatusView) => -v.viewedAt);
    r := Ok(ks);
  }

  method UpdatePrivacy(db: Store, statusId: Id, userId: UserId, dto: UpdateStatusPrivacyDto) returns (r: Result<Status>)
    modifies db`statusPrivacy
    ensures (r, db.statusPrivacy) == SetPrivacy(db.statuses, old(db.statusPrivacy), statusId, userId, dto)
  {
    if statusId !in db.statuses {
      return Err(NotFound("Status not found"));
    }
    var status := db.statuses[statusId];
    if status.userId != userId {
      return Err(Forbidden("You can only update your own status"));
    }
    var row := StatusPrivacy(dto.privacyType, Or(dto.exceptUserIds, []), Or(dto.onlyUserIds, []));
    db.statusPrivacy := db.statusPrivacy[statusId := row];
    r := Ok(status);
  }

  method DeleteStatus(db: Store, statusId: Id, userId: UserId) returns (r: Result<string>)
    modifies db`statuses
    ensures (r, db.statuses) == Delete(old(db.statuses), statusId, userId)
  {
    if statusId !in db.statuses {
      return Err(NotFound("Status not found"));
    }
    if db.statuses[statusId].userId != userId {
      return Err(Forbidden("You can only delete your own status"));
    }
    db.statuses := db.statuses - {statusId};
    r := Ok("Status deleted successfully");
  }

  method DeleteExpiredStatuses(db: Store, now: int)
    modifies db`statuses
    ensures db.statuses == DeleteExpired(old(db.statuses), now)
  {
    db.statuses := map id | id in db.statuses && db.statuses[id].expiresAt >= now :: db.statuses[id];
  }

  /**
   * getContactsStatuses: the unexpired statuses (`expiresAt` after `now`) of the users the
   * caller holds as unblocked contacts, newest first.  No privacy setting is consulted.
   */
  method GetContactsStatuses(db: Store, userId: UserId, now: int) returns (r: seq<Id>)
    ensures Distinct(r)
    ensures forall id :: id in r <==>
      id in db.statuses && HasContact(db.contacts, userId, db.statuses[id].userId, false) && db.statuses[id].expiresAt > now
    ensures forall i, j :: 0 <= i < j < |r| && r[i] in db.statuses && r[j] in db.statuses ==>
      db.statuses[r[i]].createdAt >= db.statuses[r[j]].createdAt
  {
    var rows := ContactService.GetContacts(db, userId);
    var contactIds := set k | k in rows :: k.1;
    assert forall u :: u in contactIds <==> HasContact(db.contacts, userId, u, false) by {
      forall u ensures u in contactIds <==> HasContact(db.contacts, userId, u, false) {
        if HasContact(db.contacts, userId, u, false) {
          assert ContactService.Listed(db.contacts, userId, false, (userId, u));
        }
      }
    }
    r := SelectOrdered(db.statuses, (id: Id, s: Status) => s.userId in contactIds && s.expiresAt > now, (s: Status) => -s.createdAt);
  }

  /** getMyStatuses: the caller's own unexpired statuses, newest first. */
  method GetMyStatuses(db: Store, userId: UserId, now: int) returns (r: seq<Id>)
    ensures Distinct(r)
    ensures forall id :: id in r <==> id in db.statuses && db.statuses[id].userId == userId && db.statuses[id].expiresAt > now
    ensures forall i, j :: 0 <= i < j < |r| && r[i] in db.statuses && r[j] in db.statuses ==>
      db.statuses[r[i]].createdAt >= db.statuses[r[j]].createdAt
  {
    r := SelectOrdered(db.statuses, (id: Id, s: Status) => s.userId == userId && s.expiresAt > now, (s: Status) => -s.createdAt);
  }

  // ---------------------------------------------------------------- properties

  /** Marking twice is marking once: the second call returns the same view and changes nothing. */
  lemma {:induction false} MarkAsViewedIdempotent(statuses: map<Id, Status>, views: map<ViewKey, StatusView>,
                                                  statusId: Id, viewerId: UserId, t1: int, t2: int)
    requires MarkViewed(statuses, views, statusId, viewerId, t1).0.Ok?
    ensures var (r1, s1, v1) := MarkViewed(statuses, views, statusId, viewerId, t1);
      MarkViewed(s1, v1, statusId, viewerId, t2) == (r1, s1, v1)
  {
    var (r1, s1, v1) := MarkViewed(statuses, views, statusId, viewerId, t1);
    assert (statusId, viewerId) in v1;
    assert statusId in s1 && s1[statusId].userId == statuses[statusId].userId;
  }

  /** A status is visible by id exactly while its `expiresAt` is not before `now`, and is
      removed by the hourly job exactly once it is. */
  lemma ExpiryAgreement(statuses: map<Id, Status>, privacy: map<Id, StatusPrivacy>, contacts: map<ContactKey, Contact>,
                        statusId: Id, now: int)
    requires statusId in statuses
    ensures GetStatusById(statuses, privacy, contacts, statusId, statuses[statusId].userId, now).Ok? <==>
      statusId in DeleteExpired(statuses, now)
  {
  }

  /** A freshly created status is visible to its owner for exactly 24 hours. */
  lemma FreshStatusLivesOneDay(statuses: map<Id, Status>, privacy: map<Id, StatusPrivacy>, contacts: map<ContactKey, Contact>,
                               userId: UserId, dto: CreateStatusDto, id: Id, now: int, later: int)
    ensures var s := statuses[id := NewStatus(userId, dto, now)];
      GetStatusById(s, privacy, contacts, id, userId, later).Ok? <==> later <= now + DAY_MS
  {
  }

  /** Once the owner blocks a viewer, a status under CONTACTS privacy (or none) is hidden from them. */
  lemma {:induction false} BlockHidesContactsStatus(statuses: map<Id, Status>, privacy: map<Id, StatusPrivacy>,
                                                    contacts: map<ContactKey, Contact>, statusId: Id, viewer: UserId, now: int)
    requires statusId in statuses && statuses[statusId].userId != viewer
    requires statusId !in privacy || privacy[statusId].privacyType == Contacts
    requires ContactService.Block(contacts, statuses[statusId].userId, viewer).0.Ok?
    ensures var after := ContactService.Block(contacts, statuses[statusId].userId, viewer).1;
      GetStatusById(statuses, privacy, after, statusId, viewer, now).Err?
  {
    var after := ContactService.Block(contacts, statuses[statusId].userId, viewer).1;
    assert !HasContact(after, statuses[statusId].userId, viewer, false);
  }

  /** As written, ONLY admits every viewer, whatever `onlyUserIds` holds. */
  lemma OnlyAdmitsEveryone(row: StatusPrivacy, contacts: map<ContactKey, Contact>, owner: UserId, viewer: UserId)
    requires row.privacyType == Only && viewer !in row.onlyUserIds
    ensures PrivacyAllows(Some(row), contacts, owner, viewer)
  {
  }
}
