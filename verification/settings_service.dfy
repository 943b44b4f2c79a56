/**
 * Per-user settings (one row per user, created with the schema defaults the first time it is
 * asked for) and login sessions.
 */
module SettingsService {
  import opened Common
  import opened Store
  import opened Query

  datatype NotificationSettingsDto = NotificationSettingsDto(
    messageNotifications: Option<bool>,
    soundEnabled: Option<bool>,
    vibrationEnabled: Option<bool>,
    showPreview: Option<bool>,
    notificationTone: Option<string>,
    callNotifications: Option<bool>,
    callRingtone: Option<string>)

  /** findUnique, then create with the defaults when there is no row yet. */
  function GetOrCreate(settings: map<UserId, Settings>, userId: UserId): (out: (Settings, map<UserId, Settings>))
    ensures userId in out.1 && out.1[userId] == out.0
    ensures userId in settings ==> out.0 == settings[userId] && out.1 == settings
    ensures userId !in settings ==> out.0 == DEFAULT_SETTINGS && out.1 == settings[userId := DEFAULT_SETTINGS]
  {
    if userId in settings then (settings[userId], settings) else (DEFAULT_SETTINGS, settings[userId := DEFAULT_SETTINGS])
  }

  /** The seven notification fields written over a row; a field left out keeps its value. */
  function ApplyNotifications(s: Settings, dto: NotificationSettingsDto): (r: Settings)
    ensures r.showOnlineStatus == s.showOnlineStatus && r.showLastSeen == s.showLastSeen
    ensures r.showProfilePhoto == s.showProfilePhoto && r.showAbout == s.showAbout && r.showStatus == s.showStatus
    ensures r.messageNotifications == Or(dto.messageNotifications, s.messageNotifications)
    ensures r.soundEnabled == Or(dto.soundEnabled, s.soundEnabled)
    ensures r.vibrationEnabled == Or(dto.vibrationEnabled, s.vibrationEnabled)
    ensures r.showPreview == Or(dto.showPreview, s.showPreview)
    ensures r.notificationTone == Or(dto.notificationTone, s.notificationTone)
    ensures r.callNotifications == Or(dto.callNotifications, s.callNotifications)
    ensures r.callRingtone == Or(dto.callRingtone, s.callRingtone)
  {
    s.(messageNotifications := Or(dto.messageNotifications, s.messageNotifications),
       soundEnabled := Or(dto.soundEnabled, s.soundEnabled),
       vibrationEnabled := Or(dto.vibrationEnabled, s.vibrationEnabled),
       showPreview := Or(dto.showPreview, s.showPreview),
       notificationTone := Or(dto.notificationTone, s.notificationTone),
       callNotifications := Or(dto.callNotifications, s.callNotifications),
       callRingtone := Or(dto.callRingtone, s.callRingtone))
  }

  /** revokeSession: a missing session and another user's session fail alike; otherwise it is deactivated. */
  function Revoke(sessions: map<Id, Session>, sessionId: Id, userId: UserId): (out: (Result<string>, map<Id, Session>))
    ensures out.0.Ok? <==> sessionId in sessions && sessions[sessionId].userId == userId
    ensures out.0.Err? ==> out.0 == Err(Failed("Session not found")) && out.1 == sessions
    ensures out.0.Ok? ==> out.1 == sessions[sessionId := sessions[sessionId].(isActive := false)]
  {
    if sessionId !in sessions || sessions[sessionId].userId != userId then (Err(Failed("Session not found")), sessions)
    else (Ok("Session revoked successfully"), sessions[sessionId := sessions[sessionId].(isActive := false)])
  }

  method GetSettings(db: Store, userId: UserId) returns (r: Settings)
    modifies db`settings
    ensures (r, db.settings) == GetOrCreate(old(db.settings), userId)
  {
    if userId !in db.settings {
      db.settings := db.settings[userId := DEFAULT_SETTINGS];
    }
    r := db.settings[userId];
  }

  method UpdateNotificationSettings(db: Store, userId: UserId, dto: NotificationSettingsDto) returns (r: Settings)
    modifies db`settings
    ensures r == ApplyNotifications(GetOrCreate(old(db.settings), userId).0, dto)
    ensures db.settings == old(db.settings)[userId := r]
  {
    var current := GetSettings(db, userId);
    r := ApplyNotifications(current, dto);
    db.settings := db.settings[userId := r];
  }

  /** getActiveSessions: the user's active, unexpired sessions, most recently active first. */
  method GetActiveSessions(db: Store, userId: UserId, now: int) returns (r: seq<Id>)
    ensures Distinct(r)
    ensures forall id :: id in r <==>
      id in db.sessions && db.sessions[id].userId == userId && db.sessions[id].isActive && db.sessions[id].expiresAt > now
    ensures forall i, j :: 0 <= i < j < |r| && r[i] in db.sessions && r[j] in db.sessions ==>
      db.sessions[r[i]].lastActiveAt >= db.sessions[r[j]].lastActiveAt
  {
    r := SelectOrdered(db.sessions, (id: Id, s: Session) => s.userId == userId && s.isActive && s.expiresAt > now,
                       (s: Session) => -s.lastActiveAt);
  }

  method RevokeSession(db: Store, sessionId: Id, userId: UserId) returns (r: Result<string>)
    modifies db`sessions
    ensures (r, db.sessions) == Revoke(old(db.sessions), sessionId, userId)
  {
    if sessionId !in db.sessions || db.sessions[sessionId].userId != userId {
      return Err(Failed("Session not found"));
    }
    db.sessions := db.sessions[sessionId := db.sessions[sessionId].(isActive := false)];
    r := Ok("Session revoked successfully");
  }

  // ---------------------------------------------------------------- properties

  /** Get-or-create is idempotent: the second call creates nothing and returns the same row. */
  lemma {:induction false} GetOrCreateIdempotent(settings: map<UserId, Settings>, userId: UserId)
    ensures var (s1, t1) := GetOrCreate(settings, userId);
      GetOrCreate(t1, userId) == (s1, t1)
  {
    var (s1, t1) := GetOrCreate(settings, userId);
    assert userId in t1 && t1[userId] == s1;
  }

  /** Only the addressed user's row is created or changed; every other user's row stays. */
  lemma GetOrCreateTouchesOnlyItsUser(settings: map<UserId, Settings>, userId: UserId, other: UserId)
    requires other != userId
    ensures other in GetOrCreate(settings, userId).1 <==> other in settings
    ensures other in settings ==> GetOrCreate(settings, userId).1[other] == settings[other]
  {
  }

  /** A revoked session no longer counts as active, and revoking it again still succeeds. */
  lemma {:induction false} RevokedSessionIsInactive(sessions: map<Id, Session>, sessionId: Id, userId: UserId)
    requires Revoke(sessions, sessionId, userId).0.Ok?
    ensures var after := Revoke(sessions, sessionId, userId).1;
      && !after[sessionId].isActive
      && Revoke(after, sessionId, userId) == (Ok("Session revoked successfully"), after)
  {
    var after := Revoke(sessions, sessionId, userId).1;
    assert after[sessionId].(isActive := false) == after[sessionId];
    assert after[sessionId := after[sessionId]] == after;
  }
}
