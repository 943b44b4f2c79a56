/** The caller's own profile: reading it, editing it, changing the password, privacy settings. */
module ProfileService {
  import opened Common
  import opened Store
  import SettingsService
  import UserService

  datatype UpdateProfileDto = UpdateProfileDto(
    name: Option<string>,
    about: Option<string>,
    gender: Option<string>,
    avatar: Option<string>,
    profilePhoto: Option<string>)

  datatype UpdatePrivacyDto = UpdatePrivacyDto(
    showOnlineStatus: Option<bool>,
    showLastSeen: Option<string>,
    showProfilePhoto: Option<string>,
    showAbout: Option<string>,
    showStatus: Option<PrivacyType>)

  /** getProfile: the user without the password, or NotFound. */
  function GetProfile(users: map<UserId, User>, userId: UserId): (r: Result<PublicUser>)
    ensures r.Ok? <==> userId in users
    ensures r.Err? ==> r.error == NotFound("User not found")
    ensures r.Ok? ==> r.value == Public(userId, users[userId])
  {
    if userId !in users then Err(NotFound("User not found")) else Ok(Public(userId, users[userId]))
  }

  /** The five profile columns written over a row; a field left out keeps its value. */
  function ApplyProfile(u: User, dto: UpdateProfileDto): (r: User)
    ensures r.email == u.email && r.password == u.password && r.username == u.username
    ensures r.isOnline == u.isOnline && r.lastSeen == u.lastSeen
    ensures r.name == Or(dto.name, u.name)
    ensures dto.about.Some? ==> r.about == dto.about
    ensures dto.about.None? ==> r.about == u.about
    ensures dto.gender.Some? ==> r.gender == dto.gender
    ensures dto.gender.None? ==> r.gender == u.gender
    ensures dto.avatar.Some? ==> r.avatar == dto.avatar
    ensures dto.avatar.None? ==> r.avatar == u.avatar
    ensures dto.profilePhoto.Some? ==> r.profilePhoto == dto.profilePhoto
    ensures dto.profilePhoto.None? ==> r.profilePhoto == u.profilePhoto
  {
    u.(name := Or(dto.name, u.name),
       about := if dto.about.Some? then dto.about else u.about,
       gender := if dto.gender.Some? then dto.gender else u.gender,
       avatar := if dto.avatar.Some? then dto.avatar else u.avatar,
       profilePhoto := if dto.profilePhoto.Some? then dto.profilePhoto else u.profilePhoto)
  }

  /** changePassword: NotFound, then BadRequest on a wrong current password, then the new hash is stored. */
  function ChangePasswordStep(users: map<UserId, User>, userId: UserId, currentPassword: string, newPassword: string,
                              hash: string -> string): (out: (Result<string>, map<UserId, User>))
    ensures userId !in users ==> out == (Err(NotFound("User not found")), users)
    ensures userId in users && !PasswordMatches(hash, currentPassword, users[userId].password) ==>
      out == (Err(BadRequest("Current password is incorrect")), users)
    ensures out.0.Ok? <==> userId in users && PasswordMatches(hash, currentPassword, users[userId].password)
    ensures out.0.Ok? ==> out.0.value == "Password changed successfully"
    ensures out.0.Ok? ==> out.1 == users[userId := users[userId].(password := hash(newPassword))]
    ensures out.0.Ok? ==> PasswordMatches(hash, newPassword, out.1[userId].password)
  {
    if userId !in users then (Err(NotFound("User not found")), users)
    else if !PasswordMatches(hash, currentPassword, users[userId].password) then
      (Err(BadRequest("Current password is incorrect")), users)
    else (Ok("Password changed successfully"), users[userId := users[userId].(password := hash(newPassword))])
  }

  /** The five privacy columns written over a settings row; a field left out keeps its value. */
  function ApplyPrivacy(s: Settings, dto: UpdatePrivacyDto): (r: Settings)
    ensures r.messageNotifications == s.messageNotifications && r.soundEnabled == s.soundEnabled
    ensures r.vibrationEnabled == s.vibrationEnabled && r.showPreview == s.showPreview
    ensures r.notificationTone == s.notificationTone && r.callNotifications == s.callNotifications
    ensures r.callRingtone == s.callRingtone
    ensures r.showOnlineStatus == Or(dto.showOnlineStatus, s.showOnlineStatus)
    ensures r.showLastSeen == Or(dto.showLastSeen, s.showLastSeen)
    ensures r.showProfilePhoto == Or(dto.showProfilePhoto, s.showProfilePhoto)
    ensures r.showAbout == Or(dto.showAbout, s.showAbout)
    ensures r.showStatus == Or(dto.showStatus, s.showStatus)
  {
    s.(showOnlineStatus := Or(dto.showOnlineStatus, s.showOnlineStatus),
       showLastSeen := Or(dto.showLastSeen, s.showLastSeen),
       showProfilePhoto := Or(dto.showProfilePhoto, s.showProfilePhoto),
       showAbout := Or(dto.showAbout, s.showAbout),
       showStatus := Or(dto.showStatus, s.showStatus))
  }

  method UpdateProfile(db: Store, userId: UserId, dto: UpdateProfileDto) returns (r: Result<PublicUser>)
    modifies db`users
    ensures r.Ok? <==> userId in old(db.users)
    ensures r.Err? ==> r.error == STORE_FAILURE && db.users == old(db.users)
    ensures r.Ok? ==> db.users == old(db.users)[userId := ApplyProfile(old(db.users)[userId], dto)]
    ensures r.Ok? ==> r.value == Public(userId, db.users[userId])
  {
    if userId !in db.users {
      return Err(STORE_FAILURE);
    }
    db.users := db.users[userId := ApplyProfile(db.users[userId], dto)];
    r := Ok(Public(userId, db.users[userId]));
  }

  method ChangePassword(db: Store, userId: UserId, currentPassword: string, newPassword: string,
                        hash: string -> string) returns (r: Result<string>)
    modifies db`users
    ensures (r, db.users) == ChangePasswordStep(old(db.users), userId, currentPassword, newPassword, hash)
  {
    if userId !in db.users {
      return Err(NotFound("User not found"));
    }
    if !PasswordMatches(hash, currentPassword, db.users[userId].password) {
      return Err(BadRequest("Current password is incorrect"));
    }
    db.users := db.users[userId := db.users[userId].(password := hash(newPassword))];
    r := Ok("Password changed successfully");
  }

  /** updatePrivacy: get-or-create the settings row, then overwrite its five privacy columns. */
  method UpdatePrivacy(db: Store, userId: UserId, dto: UpdatePrivacyDto) returns (r: Settings)
    modifies db`settings
    ensures r == ApplyPrivacy(SettingsService.GetOrCreate(old(db.settings), userId).0, dto)
    ensures db.settings == old(db.settings)[userId := r]
  {
    var current := SettingsService.GetSettings(db, userId);
    r := ApplyPrivacy(current, dto);
    db.settings := db.settings[userId := r];
  }

  // ---------------------------------------------------------------- properties

  /** The profile reveals nothing of the password: any stored password gives the same profile. */
  lemma ProfileHidesPassword(users: map<UserId, User>, userId: UserId, p: string)
    requires userId in users
    ensures GetProfile(users[userId := users[userId].(password := p)], userId) == GetProfile(users, userId)
  {
  }

  /** After a password change the old password no longer matches, unless it hashes like the new one. */
  lemma OldPasswordStopsMatching(users: map<UserId, User>, userId: UserId, current: string, next: string,
                                 hash: string -> string)
    requires ChangePasswordStep(users, userId, current, next, hash).0.Ok?
    requires hash(current) != hash(next)
    ensures var after := ChangePasswordStep(users, userId, current, next, hash).1;
      !PasswordMatches(hash, current, after[userId].password)
      && ChangePasswordStep(after, userId, current, current, hash).0 == Err(BadRequest("Current password is incorrect"))
  {
  }

  /** Privacy updates never touch notification preferences, and notification updates never touch privacy. */
  lemma {:induction false} PrivacyAndNotificationsAreIndependent(s: Settings, p: UpdatePrivacyDto,
                                                              n: SettingsService.NotificationSettingsDto)
    ensures ApplyPrivacy(SettingsService.ApplyNotifications(s, n), p) == SettingsService.ApplyNotifications(ApplyPrivacy(s, p), n)
  {
    var a := ApplyPrivacy(SettingsService.ApplyNotifications(s, n), p);
    var b := SettingsService.ApplyNotifications(ApplyPrivacy(s, p), n);
    assert a.showStatus == b.showStatus && a.callRingtone == b.callRingtone;
  }
}
