/**
 * The server routes of the loan calculator that run against Postgres:
 * `POST /api/rooms` (join a room by code, or create one with a fresh code),
 * `POST /api/notifications/subscribe` (validate and upsert a push
 * subscription) and `POST /api/auth/signup` (rate-limit by IP, insert a
 * user). The tables are the fields of `Database`; token verification, the
 * random room codes, the clock and the failures of the database are
 * parameters.
 */
module PgRoutes {
  import opened Js
  import opened Http
  import opened NotificationMessages

  /** The payload of a verified token. */
  datatype TokenUser = TokenUser(userId: int, username: string)

  datatype UserRow = UserRow(username: string, password: PasswordHash, lastIp: string, createdAt: int)

  datatype RoomRow = RoomRow(code: string, creatorId: int)

  datatype SubscriptionRow = SubscriptionRow(userId: int, p256dh: string, auth: string, locale: string, createdAt: int)

  /** `MAX_RETRIES` of the room-creation loop. */
  const MaxRetries := 5

  /** `INTERVAL '1 hour'`, with time counted in seconds. */
  const OneHour := 3600

  /** The body of `POST /api/rooms` on the server's error path. */
  const GenericRoomsError := "An error occurred."

  function Codes(rooms: map<int, RoomRow>): set<string>
  {
    set id | id in rooms :: rooms[id].code
  }

  /** `SELECT id FROM rooms WHERE code = $1`, for a code that is taken. */
  ghost function RoomWithCode(rooms: map<int, RoomRow>, code: string): (id: int)
    requires code in Codes(rooms)
    ensures id in rooms && rooms[id].code == code
  {
    var id :| id in rooms && rooms[id].code == code; id
  }

  /** What the body of `POST /api/rooms` asks for. */
  datatype RoomsRequest = Malformed | JoinRoom(roomCode: Json) | CreateRoom

  /**
   * An empty or unparseable body counts as `{}`; destructuring a parsed `null`
   * throws (Malformed); a truthy `roomCode` asks to join, anything else to create.
   */
  function ReadRoomsBody(body: Option<Json>): (r: RoomsRequest)
    ensures body.None? ==> r == CreateRoom
    ensures r.Malformed? <==> body == Some(JNull)
    ensures r.JoinRoom? <==> body.Some? && TruthyField(Field(body.value, "roomCode"))
    ensures r.JoinRoom? ==> Field(body.value, "roomCode") == Some(r.roomCode)
  {
    match body
    case None => CreateRoom
    case Some(j) =>
      if j.JNull? then Malformed
      else if TruthyField(Field(j, "roomCode")) then JoinRoom(j.fields["roomCode"])
      else CreateRoom
  }

  /**
   * The attempt, from `i` on, at which the create loop stops: the first one
   * that fails for another reason than a duplicate code, or whose code is
   * free; `MaxRetries` when every remaining attempt draws a taken code.
   */
  function StoppingAttempt(taken: set<string>, newCode: nat -> string, faults: set<nat>, i: nat): (j: nat)
    requires i <= MaxRetries
    ensures i <= j <= MaxRetries
    ensures forall a :: i <= a < j ==> a !in faults && newCode(a) in taken
    ensures j < MaxRetries ==> j in faults || newCode(j) !in taken
    decreases MaxRetries - i
  {
    if i == MaxRetries || i in faults || newCode(i) !in taken then i
    else StoppingAttempt(taken, newCode, faults, i + 1)
  }

  /** Five draws of taken codes exhaust the retries. */
  lemma FiveDuplicatesExhaust(taken: set<string>, newCode: nat -> string, faults: set<nat>)
    requires forall a :: 0 <= a < MaxRetries ==> a !in faults && newCode(a) in taken
    ensures StoppingAttempt(taken, newCode, faults, 0) == MaxRetries
  {
  }

  /** A free code on the first try, with no fault, stops the loop at once. */
  lemma FreshFirstCode(taken: set<string>, newCode: nat -> string, faults: set<nat>)
    requires 0 !in faults && newCode(0) !in taken
    ensures StoppingAttempt(taken, newCode, faults, 0) == 0
  {
  }

  /** The validated parts of a push subscription. */
  datatype SubscriptionCheck =
    | BadEndpoint
    | BadKeys
    | Checked(endpoint: string, p256dh: string, auth: string, locale: string)

  /** `endpoint` is a non-empty string. */
  predicate GoodEndpoint(endpoint: Option<Json>)
  {
    endpoint.Some? && endpoint.value.JStr? && endpoint.value.s != ""
  }

  /** `keys` is an object with truthy `p256dh` and `auth`. */
  predicate GoodKeys(keys: Option<Json>)
  {
    keys.Some? && keys.value.JObj? && TruthyField(Field(keys.value, "p256dh")) && TruthyField(Field(keys.value, "auth"))
  }

  /** The locale stored: the requested one when it is supported, 'en' otherwise. */
  function UserLocale(locale: Option<Json>): (l: string)
    ensures SupportedLocale(l)
    ensures locale.Some? && locale.value.JStr? && SupportedLocale(locale.value.s) ==> l == locale.value.s
    ensures !(locale.Some? && locale.value.JStr? && SupportedLocale(locale.value.s)) ==> l == "en"
  {
    if locale.Some? && locale.value.JStr? && SupportedLocale(locale.value.s) then locale.value.s else "en"
  }

  /**
   * The validation of a parsed subscription: `subscription || {}` is
   * destructured, the endpoint checked first, then the keys; the key values
   * are stored as `String(...)`.
   */
  function CheckSubscription(subscription: Json): (c: SubscriptionCheck)
    ensures var sub := if Truthy(subscription) then subscription else JObj(map[]);
      && (c.BadEndpoint? <==> !GoodEndpoint(Field(sub, "endpoint")))
      && (c.BadKeys? <==> GoodEndpoint(Field(sub, "endpoint")) && !GoodKeys(Field(sub, "keys")))
      && (c.Checked? ==>
            && c.endpoint == Field(sub, "endpoint").value.s && c.endpoint != ""
            && c.locale == UserLocale(Field(sub, "locale")))
  {
    var sub := if Truthy(subscription) then subscription else JObj(map[]);
    var endpoint := Field(sub, "endpoint");
    if !TruthyField(endpoint) || !endpoint.value.JStr? then BadEndpoint
    else
      var keys := Field(sub, "keys");
      if !TruthyField(keys) || !(keys.value.JObj? || keys.value.JArr?)
        || !TruthyField(Field(keys.value, "p256dh")) || !TruthyField(Field(keys.value, "auth"))
      then BadKeys
      else
        Checked(endpoint.value.s, JsString(keys.value.fields["p256dh"]), JsString(keys.value.fields["auth"]),
          UserLocale(Field(sub, "locale")))
  }

  /**
   * Notifications later sent to a subscriber use the message set of the
   * locale they asked for, even an unsupported one (both fall back to English).
   */
  lemma StoredLocaleSelectsRequestedMessages(catalog: Catalog, subscription: Json, requested: string)
    requires CheckSubscription(subscription).Checked?
    requires Field(subscription, "locale") == Some(JStr(requested))
    ensures GetNotificationMessages(catalog, CheckSubscription(subscription).locale)
      == GetNotificationMessages(catalog, requested)
  {
  }

  /** `x-forwarded-for ?? '127.0.0.1'`: an empty header is kept. */
  function SignupIp(forwardedFor: Option<string>): (ip: string)
    ensures forwardedFor.None? ==> ip == "127.0.0.1"
    ensures forwardedFor.Some? ==> ip == forwardedFor.value
  {
    if forwardedFor.Some? then forwardedFor.value else "127.0.0.1"
  }

  /** Some user was created from `ip` less than an hour before `now`. */
  predicate RecentFromIp(users: map<int, UserRow>, ip: string, now: int)
  {
    exists id :: id in users && users[id].lastIp == ip && users[id].createdAt > now - OneHour
  }

  /** Accounts from the IP that are an hour old or more never block a signup. */
  lemma OldAccountsDoNotBlock(users: map<int, UserRow>, ip: string, now: int)
    requires forall id :: id in users && users[id].lastIp == ip ==> users[id].createdAt <= now - OneHour
    ensures !RecentFromIp(users, ip, now)
  {
  }

  function Usernames(users: map<int, UserRow>): set<string>
  {
    set id | id in users :: users[id].username
  }

  class Database {
    var users: map<int, UserRow>
    var rooms: map<int, RoomRow>
    /** `room_members`: (user_id, room_id) pairs, unique. */
    var roomMembers: set<(int, int)>
    /** `push_subscriptions`, keyed by its unique `endpoint`. */
    var pushSubscriptions: map<string, SubscriptionRow>
    /**
     * The next values of the `users.id` and `rooms.id` sequences. An INSERT
     * draws its id before any constraint is checked, and a failed INSERT or a
     * ROLLBACK does not give it back.
     */
    var nextUserId: int
    var nextRoomId: int

    /** The unique constraints `rooms_code_key` and `users_username_key`, and ids below their sequences. */
    ghost predicate Valid()
      reads this
    {
      && (forall a, b :: a in rooms && b in rooms && a != b ==> rooms[a].code != rooms[b].code)
      && (forall a, b :: a in users && b in users && a != b ==> users[a].username != users[b].username)
      && (forall id :: id in rooms ==> id < nextRoomId)
      && (forall id :: id in users ==> id < nextUserId)
    }

    constructor ()
      ensures Valid()
      ensures users == map[] && rooms == map[] && roomMembers == {} && pushSubscriptions == map[]
    {
      users := map[];
      rooms := map[];
      roomMembers := {};
      pushSubscriptions := map[];
      nextUserId := 1;
      nextRoomId := 1;
    }

    /**
     * `POST /api/rooms`. `user` is what `verifyToken` returned; `body` is the
     * parsed body (None when empty or unparseable); `stringify` is the JSON
     * text of an object bound as a parameter (see `TextParam`); attempt `i` of the create
     * loop draws `newCode(i)` and fails for another reason than a duplicate
     * code when `i` is in `faults`, after drawing a room id when
     * `faultDrawsId` (the room INSERT or the member INSERT failed) and before
     * it otherwise (the connection or BEGIN failed); `memberInsertFails`
     * makes the join's insert fail.
     */
    method RoomsPost(
      user: Option<TokenUser>, body: Option<Json>, stringify: map<string, Json> -> string, newCode: nat -> string,
      faults: set<nat>, faultDrawsId: bool, memberInsertFails: bool)
      returns (reply: Reply)
      requires Valid()
      modifies this
      ensures Valid()
      ensures users == old(users) && pushSubscriptions == old(pushSubscriptions) && nextUserId == old(nextUserId)
      ensures user.None? ==> reply == Message(401, "Unauthorized") && unchanged(this)
      ensures user.Some? && ReadRoomsBody(body).Malformed? ==>
        reply == Message(500, GenericRoomsError) && unchanged(this)
      ensures user.Some? && ReadRoomsBody(body).JoinRoom? ==>
        var code := TextParam(Some(ReadRoomsBody(body).roomCode), stringify);
        && (code.None? || code.value !in Codes(old(rooms)) ==> reply == Message(404, "joinFailed") && unchanged(this))
        && (code.Some? && code.value in Codes(old(rooms)) && memberInsertFails ==>
              reply == Message(500, GenericRoomsError) && unchanged(this))
        && (code.Some? && code.value in Codes(old(rooms)) && !memberInsertFails ==>
              var roomId := RoomWithCode(old(rooms), code.value);
              && reply == Reply(200, JObj(map["roomId" := JNum(roomId)]))
              && roomMembers == old(roomMembers) + {(user.value.userId, roomId)}
              && rooms == old(rooms) && nextRoomId == old(nextRoomId))
      ensures user.Some? && ReadRoomsBody(body).CreateRoom? ==>
        var j := StoppingAttempt(Codes(old(rooms)), newCode, faults, 0);
        && (j == MaxRetries ==>
              && reply == Message(500, "createFailed")
              && rooms == old(rooms) && roomMembers == old(roomMembers)
              && nextRoomId == old(nextRoomId) + MaxRetries)
        && (j < MaxRetries && j in faults ==>
              && reply == Message(500, GenericRoomsError)
              && rooms == old(rooms) && roomMembers == old(roomMembers)
              && nextRoomId == old(nextRoomId) + j + (if faultDrawsId then 1 else 0))
        && (j < MaxRetries && j !in faults ==>
              var roomId := old(nextRoomId) + j;
              && newCode(j) !in Codes(old(rooms))
              && roomId !in old(rooms)
              && rooms == old(rooms)[roomId := RoomRow(newCode(j), user.value.userId)]
              && roomMembers == old(roomMembers) + {(user.value.userId, roomId)}
              && nextRoomId == roomId + 1
              && reply == Reply(201, JObj(map["roomId" := JNum(roomId), "code" := JStr(newCode(j))])))
    {
      if user.None? {
        return Message(401, "Unauthorized");
      }
      var userId := user.value.userId;
      var request := ReadRoomsBody(body);
      match request {
        case Malformed =>
          return Message(500, GenericRoomsError);
        case JoinRoom(roomCode) =>
          var code := TextParam(Some(roomCode), stringify);
          if code.None? || code.value !in Codes(rooms) {
            return Message(404, "joinFailed");
          }
          var roomId :| roomId in rooms && rooms[roomId].code == code.value;
          assert roomId == RoomWithCode(rooms, code.value);
          if memberInsertFails {
            return Message(500, GenericRoomsError);
          }
          // ON CONFLICT (user_id, room_id) DO NOTHING
          roomMembers := roomMembers + {(userId, roomId)};
          return Reply(200, JObj(map["roomId" := JNum(roomId)]));
        case CreateRoom =>
          reply := CreateRoom(userId, newCode, faults, faultDrawsId);
      }
    }

    /**
     * The create branch of `POST /api/rooms`: up to `MaxRetries` attempts,
     * each in its own transaction, retried only on a duplicate code.
     */
    method CreateRoom(userId: int, newCode: nat -> string, faults: set<nat>, faultDrawsId: bool) returns (reply: Reply)
      requires Valid()
      modifies this
      ensures Valid()
      ensures users == old(users) && pushSubscriptions == old(pushSubscriptions) && nextUserId == old(nextUserId)
      ensures
        var j := StoppingAttempt(Codes(old(rooms)), newCode, faults, 0);
        && (j == MaxRetries ==>
              && reply == Message(500, "createFailed")
              && rooms == old(rooms) && roomMembers == old(roomMembers)
              && nextRoomId == old(nextRoomId) + MaxRetries)
        && (j < MaxRetries && j in faults ==>
              && reply == Message(500, GenericRoomsError)
              && rooms == old(rooms) && roomMembers == old(roomMembers)
              && nextRoomId == old(nextRoomId) + j + (if faultDrawsId then 1 else 0))
        && (j < MaxRetries && j !in faults ==>
              var roomId := old(nextRoomId) + j;
              && newCode(j) !in Codes(old(rooms))
              && roomId !in old(rooms)
              && rooms == old(rooms)[roomId := RoomRow(newCode(j), userId)]
              && roomMembers == old(roomMembers) + {(userId, roomId)}
              && nextRoomId == roomId + 1
              && reply == Reply(201, JObj(map["roomId" := JNum(roomId), "code" := JStr(newCode(j))])))
    {
      ghost var j := StoppingAttempt(Codes(rooms), newCode, faults, 0);
      var i := 0;
      while i < MaxRetries
        invariant 0 <= i <= j
        invariant rooms == old(rooms) && roomMembers == old(roomMembers)
        invariant users == old(users) && pushSubscriptions == old(pushSubscriptions)
        invariant nextUserId == old(nextUserId) && nextRoomId == old(nextRoomId) + i
        invariant Valid()
      {
        var code := newCode(i);
        if i in faults {
          assert i == j;
          // ROLLBACK, then the error is rethrown to the outer handler
          if faultDrawsId {
            nextRoomId := nextRoomId + 1;
          }
          return Message(500, GenericRoomsError);
        }
        if code !in Codes(rooms) {
          assert i == j;
          // BEGIN; INSERT INTO rooms ... RETURNING id; INSERT INTO room_members ...; COMMIT
          var roomId := nextRoomId;
          assert roomId !in rooms;
          rooms := rooms[roomId := RoomRow(code, userId)];
          roomMembers := roomMembers + {(userId, roomId)};
          nextRoomId := nextRoomId + 1;
          return Reply(201, JObj(map["roomId" := JNum(roomId), "code" := JStr(code)]));
        }
        assert i < j;
        // 23505 on rooms_code_key: the id drawn is lost; ROLLBACK and retry
        nextRoomId := nextRoomId + 1;
        i := i + 1;
      }
      return Message(500, "createFailed");
    }

    /**
     * `POST /api/notifications/subscribe`. `body` is the parsed body (None
     * when `req.json()` rejects); `upsertFails` makes the upsert throw with
     * message `errorMessage`; `now` is `CURRENT_TIMESTAMP`.
     */
    method Subscribe(user: Option<TokenUser>, body: Option<Json>, upsertFails: bool, errorMessage: string, now: int)
      returns (reply: Reply)
      requires Valid()
      modifies this
      ensures Valid()
      ensures users == old(users) && rooms == old(rooms) && roomMembers == old(roomMembers)
      ensures nextUserId == old(nextUserId) && nextRoomId == old(nextRoomId)
      ensures user.None? ==> reply == Message(401, "Unauthorized") && unchanged(this)
      ensures user.Some? && body.None? ==> reply == Message(400, "Invalid JSON body") && unchanged(this)
      ensures user.Some? && body.Some? && CheckSubscription(body.value).BadEndpoint? ==>
        reply == Message(400, "Invalid subscription endpoint") && unchanged(this)
      ensures user.Some? && body.Some? && CheckSubscription(body.value).BadKeys? ==>
        reply == Message(400, "Invalid subscription keys") && unchanged(this)
      ensures user.Some? && body.Some? && CheckSubscription(body.value).Checked? ==>
        var c := CheckSubscription(body.value);
        && (user.value.userId !in old(users) ==> reply == Message(404, "User not found") && unchanged(this))
        && (user.value.userId in old(users) && upsertFails ==>
              && reply == Reply(500, JObj(map["message" := JStr("Internal server error processing subscription"),
                                              "error" := JStr(errorMessage)]))
              && unchanged(this))
        && (user.value.userId in old(users) && !upsertFails ==>
              && reply == Message(200, "Subscribed successfully")
              && pushSubscriptions == old(pushSubscriptions)[c.endpoint :=
                   SubscriptionRow(user.value.userId, c.p256dh, c.auth, c.locale, now)])
    {
      if user.None? {
        return Message(401, "Unauthorized");
      }
      if body.None? {
        return Message(400, "Invalid JSON body");
      }
      var check := CheckSubscription(body.value);
      match check {
        case BadEndpoint =>
          return Message(400, "Invalid subscription endpoint");
        case BadKeys =>
          return Message(400, "Invalid subscription keys");
        case Checked(endpoint, p256dh, auth, locale) =>
          if user.value.userId !in users {
            return Message(404, "User not found");
          }
          if upsertFails {
            return Reply(500, JObj(map["message" := JStr("Internal server error processing subscription"),
                                       "error" := JStr(errorMessage)]));
          }
          // INSERT ... ON CONFLICT (endpoint) DO UPDATE SET user_id, p256dh, auth, locale, created_at
          pushSubscriptions := pushSubscriptions[endpoint := SubscriptionRow(user.value.userId, p256dh, auth, locale, now)];
          return Message(200, "Subscribed successfully");
      }
    }

    /**
     * `POST /api/auth/signup`. `body` is the parsed body (None when
     * `req.json()` rejects); `stringify` is the JSON text of an object bound
     * as a parameter (see `TextParam`); `insertFails` makes the insert fail for another
     * reason than a duplicate username, after drawing a user id when
     * `failureDrawsId`; `now` is `NOW()`, in seconds.
     */
    method Signup(
      body: Option<Json>, stringify: map<string, Json> -> string, forwardedFor: Option<string>, insertFails: bool,
      failureDrawsId: bool, now: int)
      returns (reply: Reply)
      requires Valid()
      modifies this
      ensures Valid()
      ensures rooms == old(rooms) && roomMembers == old(roomMembers) && pushSubscriptions == old(pushSubscriptions)
      ensures nextRoomId == old(nextRoomId)
      ensures body.None? || body == Some(JNull) ==>
        reply == Message(500, "An error occurred during signup.") && unchanged(this)
      ensures body.Some? && body.value != JNull ==>
        var ip := SignupIp(forwardedFor);
        var password := Field(body.value, "password");
        var username := TextParam(Field(body.value, "username"), stringify);
        && (RecentFromIp(old(users), ip, now) ==> reply == Message(429, "signupIpError") && unchanged(this))
        && (!RecentFromIp(old(users), ip, now) && (password.None? || !password.value.JStr?) ==>
              reply == Message(500, "An error occurred during signup.") && unchanged(this))
        && (!RecentFromIp(old(users), ip, now) && password.Some? && password.value.JStr? && username.None? ==>
              && reply == Message(500, "An error occurred during signup.")
              && users == old(users) && nextUserId == old(nextUserId) + 1)
        && (!RecentFromIp(old(users), ip, now) && password.Some? && password.value.JStr? && username.Some? ==>
              && (username.value in Usernames(old(users)) ==>
                    && reply == Message(409, "signupUsernameError")
                    && users == old(users) && nextUserId == old(nextUserId) + 1)
              && (username.value !in Usernames(old(users)) && insertFails ==>
                    && reply == Message(500, "An error occurred during signup.")
                    && users == old(users) && nextUserId == old(nextUserId) + (if failureDrawsId then 1 else 0))
              && (username.value !in Usernames(old(users)) && !insertFails ==>
                    && reply == Message(201, "User created successfully")
                    && users == old(users)[old(nextUserId) :=
                         UserRow(username.value, Bcrypt(password.value.s, 10), ip, now)]
                    && nextUserId == old(nextUserId) + 1))
    {
      if body.None? || body.value.JNull? {
        return Message(500, "An error occurred during signup.");
      }
      var username := Field(body.value, "username");
      var password := Field(body.value, "password");
      var ip := SignupIp(forwardedFor);
      if exists id :: id in users && users[id].lastIp == ip && users[id].createdAt > now - OneHour {
        return Message(429, "signupIpError");
      }
      if password.None? || !password.value.JStr? {
        // bcrypt's hash rejects anything but a string
        return Message(500, "An error occurred during signup.");
      }
      var hashedPassword := Bcrypt(password.value.s, 10);
      var name := TextParam(username, stringify);
      if name.None? {
        // a null or missing username: the id is drawn, then NULL violates the NOT NULL username column
        nextUserId := nextUserId + 1;
        return Message(500, "An error occurred during signup.");
      }
      if name.value in Usernames(users) {
        // the id is drawn, then 23505 on users_username_key
        nextUserId := nextUserId + 1;
        return Message(409, "signupUsernameError");
      }
      if insertFails {
        if failureDrawsId {
          nextUserId := nextUserId + 1;
        }
        return Message(500, "An error occurred during signup.");
      }
      users := users[nextUserId := UserRow(name.value, hashedPassword, ip, now)];
      nextUserId := nextUserId + 1;
      return Message(201, "User created successfully");
    }
  }
}
