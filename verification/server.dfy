/** The process-wide room registry and the per-connection socket handlers
    (server.js:6, 80-214). Each connection keeps the two variables its
    handlers share, the room code and email it last created or joined with. */
module Server {
  import opened Optional
  import opened Catalog
  import opened Scoring
  import opened Selection
  import opened Rooms

  /** The global `rooms` object: room code to room. */
  class Registry {
    var rooms: map<string, Room>

    constructor ()
      ensures rooms == map[]
    {
      rooms := map[];
    }

    ghost predicate Valid()
      reads this, rooms.Values
    {
      forall c :: c in rooms ==> rooms[c].Valid()
    }

    /** The room stored under `code`, as a frame. */
    function At(code: string): set<Room>
      reads this
    {
      if code in rooms then {rooms[code]} else {}
    }
  }

  /** The `create_room` payload. */
  datatype Settings = Settings(hostEmail: string, questionSetId: string, gameType: string,
                               timeLimitMinutes: int, goalAmount: int)

  /** One socket connection and its handlers. */
  class Connection {
    var currentRoomCode: Option<string>
    var playerEmail: Option<string>

    constructor ()
      ensures currentRoomCode == None && playerEmail == None
    {
      currentRoomCode := None;
      playerEmail := None;
    }

    /** The room code is only ever set together with the email. */
    ghost predicate Valid()
      reads this
    {
      currentRoomCode.Some? ==> playerEmail.Some?
    }

    /** `create_room` with `code` standing for `generateCode()`. The code is not
        checked against the registry: a room already under it is replaced. */
    method CreateRoom(reg: Registry, code: string, settings: Settings) returns (room: Room)
      requires reg.Valid()
      modifies this, reg
      ensures reg.Valid() && Valid() && fresh(room)
      ensures reg.rooms == old(reg.rooms)[code := room]
      ensures currentRoomCode == Some(code) && playerEmail == Some(settings.hostEmail)
      ensures room.code == code && room.hostEmail == settings.hostEmail
      ensures room.questionSetId == settings.questionSetId && room.gameType == GameTypeOf(settings.gameType)
      ensures room.timeLimitMinutes == settings.timeLimitMinutes && room.goalAmount == settings.goalAmount
      ensures room.status == Lobby && room.roster == [settings.hostEmail]
      ensures room.players == map[settings.hostEmail := HostPlayer(settings.hostEmail)]
    {
      currentRoomCode := Some(code);
      playerEmail := Some(settings.hostEmail);
      room := new Room(code, settings.hostEmail, settings.questionSetId, GameTypeOf(settings.gameType),
                       settings.timeLimitMinutes, settings.goalAmount);
      reg.rooms := reg.rooms[code := room];
    }

    /** `join_room`: fails unless the code names a room in its lobby. */
    method JoinRoom(reg: Registry, code: string, name: string, email: string) returns (ok: bool)
      requires reg.Valid()
      modifies this, reg.At(code)
      ensures reg.Valid() && (old(Valid()) ==> Valid())
      ensures ok == (code in reg.rooms && old(reg.rooms[code].status) == Lobby)
      ensures !ok ==> unchanged(this) && unchanged(reg.At(code))
      ensures ok ==> currentRoomCode == Some(code) && playerEmail == Some(email)
      ensures ok ==> reg.rooms[code].players == old(reg.rooms[code].players)[email := JoinedPlayer(email, name)]
      ensures ok ==> reg.rooms[code].roster == if email in old(reg.rooms[code].players) then old(reg.rooms[code].roster)
                                               else old(reg.rooms[code].roster) + [email]
      ensures code in reg.rooms ==> var room := reg.rooms[code];
                room.status == old(room.status) && room.startedAt == old(room.startedAt) &&
                room.winnerEmail == old(room.winnerEmail)
    {
      if code !in reg.rooms {
        return false;
      }
      var room := reg.rooms[code];
      ok := room.Join(email, name);
      forall c | c in reg.rooms && reg.rooms[c] != room
        ensures reg.rooms[c].Valid()
      {
        assert old(reg.rooms[c].Valid());
      }
      if ok {
        currentRoomCode := Some(code);
        playerEmail := Some(email);
      }
    }

    /** `start_game`: the room comes from the payload, the host check from
        this connection's email. */
    method StartGame(reg: Registry, code: string, now: int, u: real) returns (started: bool, q: Option<Question>)
      requires reg.Valid() && 0.0 <= u < 1.0
      modifies reg.At(code)
      ensures reg.Valid()
      ensures started == (code in reg.rooms && playerEmail == Some(reg.rooms[code].hostEmail) &&
                          old(reg.rooms[code].status) == Lobby)
      ensures !started ==> unchanged(reg.At(code)) && q == None
      ensures started ==> reg.rooms[code].status == Playing && reg.rooms[code].startedAt == Some(now)
      ensures started ==> DrawnFrom(reg.rooms[code].CurrentPool(), u, q)
      ensures code in reg.rooms ==> var room := reg.rooms[code];
                Advances(old(room.status), room.status) && room.roster == old(room.roster) &&
                room.players == old(room.players) && room.winnerEmail == old(room.winnerEmail)
    {
      if code !in reg.rooms {
        return false, None;
      }
      var room := reg.rooms[code];
      started, q := room.Start(playerEmail, now, u);
      forall c | c in reg.rooms && reg.rooms[c] != room
        ensures reg.rooms[c].Valid()
      {
        assert old(reg.rooms[c].Valid());
      }
    }

    /** The room this connection is in, as a frame. */
    function Current(reg: Registry): set<Room>
      reads this, reg
    {
      if currentRoomCode.Some? then reg.At(currentRoomCode.value) else {}
    }

    /** `submit_answer`: without a room the source throws before changing
        anything; without a player it returns at its guard. Both do nothing. */
    method SubmitAnswer(reg: Registry, questionId: int, answer: string, now: int, u: real)
      returns (out: Option<Answered>)
      requires reg.Valid() && 0.0 <= u < 1.0
      modifies Current(reg)
      ensures reg.Valid()
      ensures out.Some? <==> (currentRoomCode.Some? && currentRoomCode.value in reg.rooms &&
                              playerEmail.Some? &&
                              old(reg.rooms[currentRoomCode.value].Answerable(playerEmail.value, questionId)))
      ensures out.None? ==> unchanged(Current(reg))
    {
      if currentRoomCode.None? || currentRoomCode.value !in reg.rooms || playerEmail.None? {
        return None;
      }
      var room := reg.rooms[currentRoomCode.value];
      out := room.SubmitAnswer(playerEmail.value, questionId, answer, now, u);
      forall c | c in reg.rooms && reg.rooms[c] != room
        ensures reg.rooms[c].Valid()
      {
        assert old(reg.rooms[c].Valid());
      }
    }

    /** `buy_upgrade` with the requested type string. */
    method BuyUpgrade(reg: Registry, kind: string) returns (bought: bool)
      requires reg.Valid()
      modifies Current(reg)
      ensures reg.Valid()
      ensures bought == (currentRoomCode.Some? && currentRoomCode.value in reg.rooms &&
                         playerEmail.Some? && playerEmail.value in old(reg.rooms[currentRoomCode.value].players) &&
                         CanBuy(old(reg.rooms[currentRoomCode.value].players[playerEmail.value]), UpgradeOf(kind)))
      ensures !bought ==> unchanged(Current(reg))
      ensures bought ==> var room := reg.rooms[currentRoomCode.value];
                room.players == old(room.players)[playerEmail.value :=
                                  Scoring.BuyUpgrade(old(room.players[playerEmail.value]), UpgradeOf(kind))] &&
                room.roster == old(room.roster) && room.status == old(room.status) &&
                room.startedAt == old(room.startedAt) && room.winnerEmail == old(room.winnerEmail)
    {
      if currentRoomCode.None? || currentRoomCode.value !in reg.rooms || playerEmail.None? {
        return false;
      }
      var room := reg.rooms[currentRoomCode.value];
      bought := room.BuyUpgrade(playerEmail.value, UpgradeOf(kind));
      forall c | c in reg.rooms && reg.rooms[c] != room
        ensures reg.rooms[c].Valid()
      {
        assert old(reg.rooms[c].Valid());
      }
    }

    /** `disconnect`: removes this connection's player from its room, if the
        code is truthy (an empty code is not) and the room still exists. */
    method Disconnect(reg: Registry)
      requires reg.Valid()
      modifies Current(reg)
      ensures reg.Valid()
      ensures currentRoomCode.Some? && currentRoomCode.value != "" && currentRoomCode.value in reg.rooms &&
              playerEmail.Some? ==>
                var room := reg.rooms[currentRoomCode.value];
                room.players == old(room.players) - {playerEmail.value} &&
                room.roster == Without(old(room.roster), playerEmail.value) &&
                room.status == old(room.status) && room.startedAt == old(room.startedAt) &&
                room.winnerEmail == old(room.winnerEmail)
      ensures currentRoomCode.None? || currentRoomCode.value == "" || playerEmail.None? ==>
                unchanged(Current(reg))
    {
      if currentRoomCode.None? || currentRoomCode.value == "" || currentRoomCode.value !in reg.rooms ||
         playerEmail.None? {
        return;
      }
      var room := reg.rooms[currentRoomCode.value];
      room.Remove(playerEmail.value);
      forall c | c in reg.rooms && reg.rooms[c] != room
        ensures reg.rooms[c].Valid()
      {
        assert old(reg.rooms[c].Valid());
      }
    }
  }
}
