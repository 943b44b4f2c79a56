/**
 * The relational store the services talk to, reduced to the rows and columns their rules read
 * or write.  Every table is a field of one `Store` object; a service operation reassigns the
 * fields of the tables it writes and nothing else.
 */
module Store {
  import opened Common

  /** A `users` row.  `lastSeen` is a timestamp in milliseconds, or null. */
  datatype User = User(
    name: string,
    email: string,
    password: string,
    username: Option<string>,
    avatar: Option<string>,
    about: Option<string>,
    gender: Option<string>,
    profilePhoto: Option<string>,
    isOnline: bool,
    lastSeen: Option<int>)

  /** A user row as the services hand it out: every column of `User` but the password, plus the id. */
  datatype PublicUser = PublicUser(
    id: UserId,
    name: string,
    email: string,
    username: Option<string>,
    avatar: Option<string>,
    about: Option<string>,
    gender: Option<string>,
    profilePhoto: Option<string>,
    isOnline: bool,
    lastSeen: Option<int>)

  /** The projection that leaves the password out. */
  function Public(id: UserId, u: User): PublicUser
  {
    PublicUser(id, u.name, u.email, u.username, u.avatar, u.about, u.gender, u.profilePhoto, u.isOnline, u.lastSeen)
  }

  /**
   * The password hash is a function parameter (bcrypt in the running system); a plain password
   * matches a stored hash when it hashes to it.
   */
  predicate PasswordMatches(hash: string -> string, plain: string, stored: string)
  {
    hash(plain) == stored
  }

  /** A `contacts` row, stored under the pair (userId, contactId): "userId has contactId". */
  type ContactKey = (UserId, UserId)
  datatype Contact = Contact(isBlocked: bool, nickname: Option<string>, createdAt: int)

  datatype RequestStatus = Pending | Accepted | Rejected
  datatype FriendRequest = FriendRequest(senderId: UserId, receiverId: UserId, status: RequestStatus, createdAt: int)

  datatype CallType = Voice | Video
  datatype CallStatus = Initiated | Ringing | Answered | Ended | Missed | Rejected | Busy
  datatype Call = Call(
    callerId: UserId,
    receiverId: UserId,
    callType: CallType,
    status: CallStatus,
    startedAt: Option<int>,
    endedAt: Option<int>,
    duration: Option<int>,
    createdAt: int)

  /** A chat and its participant list, in the order the store returns it. */
  datatype Chat = Chat(participants: seq<UserId>, isGroup: bool, createdById: UserId, createdAt: int, updatedAt: int)

  datatype Message = Message(
    chatId: Id,
    senderId: UserId,
    content: string,
    messageType: string,
    image: Option<string>,
    replyToId: Option<Id>,
    read: bool,
    createdAt: int)

  datatype Status = Status(
    userId: UserId,
    statusType: string,
    content: Option<string>,
    mediaUrl: Option<string>,
    backgroundColor: string,
    viewCount: nat,
    expiresAt: int,
    createdAt: int)

  /** A `statusViews` row, unique per (statusId, viewerId). */
  type ViewKey = (Id, UserId)
  datatype StatusView = StatusView(viewedAt: int)

  datatype PrivacyType = All | Contacts | Except | Only
  /** The at most one privacy row of a status, stored under the status id. */
  datatype StatusPrivacy = StatusPrivacy(privacyType: PrivacyType, exceptUserIds: seq<UserId>, onlyUserIds: seq<UserId>)

  /** A `userSettings` row, unique per user and stored under the user id. */
  datatype Settings = Settings(
    messageNotifications: bool,
    soundEnabled: bool,
    vibrationEnabled: bool,
    showPreview: bool,
    notificationTone: string,
    callNotifications: bool,
    callRingtone: string,
    showOnlineStatus: bool,
    showLastSeen: string,
    showProfilePhoto: string,
    showAbout: string,
    showStatus: PrivacyType)

  datatype Session = Session(userId: UserId, isActive: bool, expiresAt: int, lastActiveAt: int)

  datatype Media = Media(
    userId: UserId,
    filename: string,
    originalName: string,
    mimeType: string,
    size: int,
    url: string,
    thumbnailUrl: Option<string>,
    width: Option<int>,
    height: Option<int>,
    duration: Option<int>,
    createdAt: int)

  /**
   * The column defaults of a freshly created settings row.  They are declared by the database
   * schema, not by the services, so the model leaves their values unspecified.
   */
  const DEFAULT_SETTINGS: Settings

  /** `contact.findFirst({ where: { userId: a, contactId: b, isBlocked: blocked } })` finds a row. */
  predicate HasContact(contacts: map<ContactKey, Contact>, a: UserId, b: UserId, blocked: bool)
  {
    (a, b) in contacts && contacts[(a, b)].isBlocked == blocked
  }

  /** A contact row exists in one direction or the other, blocked or not. */
  predicate Linked(contacts: map<ContactKey, Contact>, a: UserId, b: UserId)
  {
    (a, b) in contacts || (b, a) in contacts
  }

  class Store {
    var users: map<UserId, User>
    var contacts: map<ContactKey, Contact>
    var friendRequests: map<Id, FriendRequest>
    var calls: map<Id, Call>
    var chats: map<Id, Chat>
    var messages: map<Id, Message>
    var statuses: map<Id, Status>
    var statusViews: map<ViewKey, StatusView>
    var statusPrivacy: map<Id, StatusPrivacy>
    var settings: map<UserId, Settings>
    var sessions: map<Id, Session>
    var media: map<Id, Media>

    constructor ()
      ensures users == map[] && contacts == map[] && friendRequests == map[] && calls == map[]
      ensures chats == map[] && messages == map[] && statuses == map[] && statusViews == map[]
      ensures statusPrivacy == map[] && settings == map[] && sessions == map[] && media == map[]
    {
      users, contacts, friendRequests, calls := map[], map[], map[], map[];
      chats, messages, statuses, statusViews := map[], map[], map[], map[];
      statusPrivacy, settings, sessions, media := map[], map[], map[], map[];
    }
  }
}
