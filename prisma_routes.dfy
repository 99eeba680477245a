/**
 * The server routes of the older app, which run against Prisma:
 * `POST /api/rooms/join` (add the caller to a room found by code) and
 * `POST /api/auth/signup` (one account per IP address, unique usernames).
 * The tables are the fields of `PrismaDatabase`; the token check, the id
 * generator and the failures of the database are parameters.
 */
module PrismaRoutes {
  import opened Js
  import opened Http

  datatype UserRecord = UserRecord(id: string, password: PasswordHash, signupIP: string)

  datatype RoomRecord = RoomRecord(code: string)

  /**
   * An exception the route does not catch: the framework answers 500 without
   * a JSON body, shown here as a `null` body.
   */
  const Unhandled := Reply(500, JNull)

  /** The reply `NextResponse.json(room)`, with the room's id and code. */
  function RoomJson(id: string, room: RoomRecord): (j: Json)
    ensures j.JObj? && j.fields.Keys == {"id", "code"}
    ensures j.fields["id"] == JStr(id) && j.fields["code"] == JStr(room.code)
  {
    JObj(map["id" := JStr(id), "code" := JStr(room.code)])
  }

  /** `x-forwarded-for || '127.0.0.1'`: an empty header falls back as well. */
  function ClientIp(forwardedFor: Option<string>): (ip: string)
    ensures forwardedFor.None? || forwardedFor.value == "" ==> ip == "127.0.0.1"
    ensures forwardedFor.Some? && forwardedFor.value != "" ==> ip == forwardedFor.value
  {
    if forwardedFor.Some? && forwardedFor.value != "" then forwardedFor.value else "127.0.0.1"
  }

  /** `findFirst({ where: { signupIP: ip } })` finds a user. */
  predicate IpUsed(users: map<string, UserRecord>, ip: string)
  {
    exists name :: name in users && users[name].signupIP == ip
  }

  function RoomCodes(rooms: map<string, RoomRecord>): set<string>
  {
    set id | id in rooms :: rooms[id].code
  }

  /** `findUnique({ where: { code } })` for a code that is taken. */
  ghost function RoomByCode(rooms: map<string, RoomRecord>, code: string): (id: string)
    requires code in RoomCodes(rooms)
    ensures id in rooms && rooms[id].code == code
  {
    var id :| id in rooms && rooms[id].code == code; id
  }

  /** The string a field holds, when it holds one; Prisma rejects anything else. */
  function StringField(body: Json, key: string): (s: Option<string>)
    ensures s.Some? <==> Field(body, key).Some? && Field(body, key).value.JStr?
    ensures s.Some? ==> Field(body, key) == Some(JStr(s.value))
  {
    match Field(body, key)
    case Some(JStr(text)) => Some(text)
    case _ => None
  }

  class PrismaDatabase {
    /** `User`, keyed by its unique `username`. */
    var users: map<string, UserRecord>
    /** `Room`, keyed by id. */
    var rooms: map<string, RoomRecord>
    /** `UsersOnRooms`: (userId, roomId) pairs. */
    var usersOnRooms: set<(string, string)>

    /** Room codes are unique. */
    ghost predicate Valid()
      reads this
    {
      forall a, b :: a in rooms && b in rooms && a != b ==> rooms[a].code != rooms[b].code
    }

    constructor ()
      ensures Valid()
      ensures users == map[] && rooms == map[] && usersOnRooms == {}
    {
      users := map[];
      rooms := map[];
      usersOnRooms := {};
    }

    /**
     * `POST /api/rooms/join`. `userId` is the verified token's user (None
     * without a valid token); `body` the parsed body (None when it does not
     * parse, which is not caught); `createFails` makes the insert throw.
     */
    method Join(userId: Option<string>, body: Option<Json>, createFails: bool) returns (reply: Reply)
      requires Valid()
      modifies this
      ensures Valid()
      ensures users == old(users) && rooms == old(rooms)
      ensures userId.None? ==> reply == Error(401, "Unauthorized") && usersOnRooms == old(usersOnRooms)
      ensures userId.Some? && (body.None? || body.value.JNull? || StringField(body.value, "roomCode").None?) ==>
        reply == Unhandled && usersOnRooms == old(usersOnRooms)
      ensures userId.Some? && body.Some? && !body.value.JNull? && StringField(body.value, "roomCode").Some? ==>
        var code := StringField(body.value, "roomCode").value;
        && (code !in RoomCodes(old(rooms)) ==> reply == Error(404, "Room not found") && usersOnRooms == old(usersOnRooms))
        && (code in RoomCodes(old(rooms)) ==>
              var roomId := RoomByCode(old(rooms), code);
              && ((userId.value, roomId) in old(usersOnRooms) ==>
                    reply == Error(400, "Already in room") && usersOnRooms == old(usersOnRooms))
              && ((userId.value, roomId) !in old(usersOnRooms) && createFails ==>
                    reply == Error(500, "Failed to join room") && usersOnRooms == old(usersOnRooms))
              && ((userId.value, roomId) !in old(usersOnRooms) && !createFails ==>
                    && reply == Reply(200, RoomJson(roomId, old(rooms)[roomId]))
                    && usersOnRooms == old(usersOnRooms) + {(userId.value, roomId)}
                    && |usersOnRooms| == |old(usersOnRooms)| + 1))
    {
      if userId.None? {
        return Error(401, "Unauthorized");
      }
      if body.None? || body.value.JNull? {
        return Unhandled;
      }
      var roomCode := StringField(body.value, "roomCode");
      if roomCode.None? {
        return Unhandled;
      }
      if roomCode.value !in RoomCodes(rooms) {
        return Error(404, "Room not found");
      }
      var roomId :| roomId in rooms && rooms[roomId].code == roomCode.value;
      assert roomId == RoomByCode(rooms, roomCode.value);
      if (userId.value, roomId) in usersOnRooms {
        return Error(400, "Already in room");
      }
      if createFails {
        return Error(500, "Failed to join room");
      }
      usersOnRooms := usersOnRooms + {(userId.value, roomId)};
      return Reply(200, RoomJson(roomId, rooms[roomId]));
    }

    /**
     * `POST /api/auth/signup`. `body` is the parsed body (None when it does
     * not parse); `newId` the id Prisma generates; `createFails` makes the
     * insert throw.
     */
    method Signup(body: Option<Json>, forwardedFor: Option<string>, newId: string, createFails: bool)
      returns (reply: Reply)
      requires Valid()
      modifies this
      ensures Valid()
      ensures rooms == old(rooms) && usersOnRooms == old(usersOnRooms)
      ensures body.None? || body.value.JNull? ==> reply == Error(500, "Something went wrong") && users == old(users)
      ensures body.Some? && !body.value.JNull? ==>
        var ip := ClientIp(forwardedFor);
        var username := StringField(body.value, "username");
        var password := StringField(body.value, "password");
        && (IpUsed(old(users), ip) ==>
              reply == Error(400, "This IP address has already been used to sign up.") && users == old(users))
        && (!IpUsed(old(users), ip) && username.None? ==>
              reply == Error(500, "Something went wrong") && users == old(users))
        && (!IpUsed(old(users), ip) && username.Some? && username.value in old(users) ==>
              reply == Error(400, "User already exists.") && users == old(users))
        && (!IpUsed(old(users), ip) && username.Some? && username.value !in old(users) && (password.None? || createFails) ==>
              reply == Error(500, "Something went wrong") && users == old(users))
        && (!IpUsed(old(users), ip) && username.Some? && username.value !in old(users) && password.Some? && !createFails ==>
              && reply == Message(201, "User created successfully")
              && users == old(users)[username.value := UserRecord(newId, Bcrypt(password.value, 10), ip)])
    {
      if body.None? || body.value.JNull? {
        return Error(500, "Something went wrong");
      }
      var ip := ClientIp(forwardedFor);
      if exists name :: name in users && users[name].signupIP == ip {
        return Error(400, "This IP address has already been used to sign up.");
      }
      var username := StringField(body.value, "username");
      if username.None? {
        // findUnique rejects a missing or non-string username
        return Error(500, "Something went wrong");
      }
      if username.value in users {
        return Error(400, "User already exists.");
      }
      var password := StringField(body.value, "password");
      if password.None? || createFails {
        // bcrypt rejects a missing or non-string password
        return Error(500, "Something went wrong");
      }
      users := users[username.value := UserRecord(newId, Bcrypt(password.value, 10), ip)];
      return Message(201, "User created successfully");
    }
  }

  /** A signup that succeeds uses up its IP address: the next signup from it is refused. */
  lemma SignupUsesUpIp(users: map<string, UserRecord>, username: string, newId: string, password: string, ip: string)
    ensures IpUsed(users[username := UserRecord(newId, Bcrypt(password, 10), ip)], ip)
  {
    var after := users[username := UserRecord(newId, Bcrypt(password, 10), ip)];
    assert username in after && after[username].signupIP == ip;
  }
}
