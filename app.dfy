/**
 * The game use cases of the command-line version of the server: move codes, `SetAction`
 * and `JoinGame`. JSON building and parsing stay outside the model.
 */
module App {
  import opened Wrappers
  import opened Machine
  import opened Model
  import opened Tokens
  import opened DogMapKeys
  import opened Registry
  import opened PlayerCommon

  // ------------------------------------------------------------ move codes

  const DIR_UP: string := "U"
  const DIR_DOWN: string := "D"
  const DIR_LEFT: string := "L"
  const DIR_RIGHT: string := "R"

  /** The four move codes. */
  const MOVE_CODES: set<string> := {DIR_UP, DIR_DOWN, DIR_LEFT, DIR_RIGHT}

  function DirectionToChar(d: Direction): (code: string)
    ensures code in MOVE_CODES
  {
    match d
    case North => DIR_UP
    case South => DIR_DOWN
    case West => DIR_LEFT
    case East => DIR_RIGHT
  }

  /**
   * Accepts exactly the four move codes and inverts `DirectionToChar` on them; anything else,
   * the empty string included, throws `invalid_argument` naming the code.
   */
  function CharToDirection(s: string): (r: Result<Direction>)
    ensures r.Ok? <==> s in MOVE_CODES
    ensures r.Ok? ==> DirectionToChar(r.value) == s
    ensures !r.Ok? ==> r == Throw(InvalidArgument("Unknown direction code: " + s))
  {
    if s == DIR_UP then Ok(North)
    else if s == DIR_DOWN then Ok(South)
    else if s == DIR_LEFT then Ok(West)
    else if s == DIR_RIGHT then Ok(East)
    else Throw(InvalidArgument("Unknown direction code: " + s))
  }

  /** Decoding the code of a direction gives that direction back. */
  lemma DirectionCodeRoundTrip(d: Direction)
    ensures CharToDirection(DirectionToChar(d)) == Ok(d)
  {
  }

  /** Encoding a decoded code gives the code back. */
  lemma MoveCodeRoundTrip(s: string)
    requires s in MOVE_CODES
    ensures CharToDirection(s).Ok? && DirectionToChar(CharToDirection(s).value) == s
  {
  }

  /** The table of codes, and the empty code is not among them. */
  lemma MoveCodeTable()
    ensures CharToDirection("U") == Ok(North) && CharToDirection("D") == Ok(South)
    ensures CharToDirection("L") == Ok(West) && CharToDirection("R") == Ok(East)
    ensures CharToDirection("") == Throw(InvalidArgument("Unknown direction code: "))
  {
    assert "Unknown direction code: " + "" == "Unknown direction code: ";
  }

  // ----------------------------------------------------------------- speed

  function Abs(x: real): real {
    if x < 0.0 then -x else x
  }

  /** The speed `SetAction` gives a dog facing `d` on a map whose dog speed is `dogSpeed`. */
  function SpeedFor(d: Direction, dogSpeed: real): (v: PairDouble)
    ensures v.x == 0.0 || v.y == 0.0
    ensures Abs(v.x) + Abs(v.y) == Abs(dogSpeed)
  {
    match d
    case North => PairDouble(0.0, -dogSpeed)
    case South => PairDouble(0.0, dogSpeed)
    case West => PairDouble(-dogSpeed, 0.0)
    case East => PairDouble(dogSpeed, 0.0)
  }

  /** The facing a non-zero axis-aligned speed points to; y grows southwards. */
  function HeadingOf(v: PairDouble): Option<Direction> {
    if v.x == 0.0 && v.y < 0.0 then Some(North)
    else if v.x == 0.0 && v.y > 0.0 then Some(South)
    else if v.y == 0.0 && v.x < 0.0 then Some(West)
    else if v.y == 0.0 && v.x > 0.0 then Some(East)
    else None
  }

  /** The facing across the axis: North and South, West and East swap. */
  function Opposite(d: Direction): (o: Direction)
    ensures o != d
  {
    match d
    case North => South
    case South => North
    case West => East
    case East => West
  }

  /** Turning across the axis twice faces the dog the original way again. */
  lemma OppositeIsInvolution(d: Direction)
    ensures Opposite(d) != d && Opposite(Opposite(d)) == d
  {
  }

  /**
   * With a positive map speed the dog moves the way it faces; a negative one (the map's
   * speed is any double) sends it the opposite way, and a zero one leaves it standing.
   */
  lemma SpeedPointsToFacing(d: Direction, dogSpeed: real)
    ensures dogSpeed > 0.0 ==> HeadingOf(SpeedFor(d, dogSpeed)) == Some(d)
    ensures dogSpeed < 0.0 ==> HeadingOf(SpeedFor(d, dogSpeed)) == Some(Opposite(d))
    ensures dogSpeed == 0.0 ==> HeadingOf(SpeedFor(d, dogSpeed)) == None
  {
  }

  // ------------------------------------------------------------------ loot

  /**
   * The count `JoinGame` passes to `UpdateLoot`: `dogs.size() - loot.size()` in `size_t`,
   * then narrowed to `unsigned`. It is the shortfall when loot does not outnumber the dogs,
   * and wraps around to a huge count when it does.
   */
  function LootRebalance(dogCount: nat, lootCount: nat): (n: nat)
    ensures n < UINT_MOD
    ensures lootCount <= dogCount < UINT_MOD ==> n == dogCount - lootCount
    ensures dogCount < lootCount < dogCount + UINT_MOD ==> n == UINT_MOD - (lootCount - dogCount)
  {
    ((dogCount - lootCount) % SIZE_MOD) % UINT_MOD
  }

  /**
   * A fourth dog joining a session with one loot item asks for three more; a dog joining a
   * session whose loot already outnumbers the dogs by one asks for 2^32 - 1.
   */
  lemma LootRebalanceExamples()
    ensures LootRebalance(4, 1) == 3
    ensures LootRebalance(1, 2) == UINT_MOD - 1
  {
  }

  // -------------------------------------------------------------- use case

  /** What `JoinGame` answers: the new player's token and id. */
  datatype JoinInfo = JoinInfo(token: Token, playerId: int)

  /** The session's dogs, or none when the map has no session yet. */
  function DogsOf(sessions: map<MapId, GameSession>, id: MapId): seq<Dog>
    reads sessions.Values
  {
    if id in sessions then sessions[id].dogs else []
  }

  /** The session's loot requests, or none when the map has no session yet. */
  ghost function LootRequestsOf(sessions: map<MapId, GameSession>, id: MapId): seq<nat>
    reads sessions.Values
  {
    if id in sessions then sessions[id].lootRequests else []
  }

  /** The session's loot, or none when the map has no session yet. */
  function LootOf(sessions: map<MapId, GameSession>, id: MapId): seq<Loot>
    reads sessions.Values
  {
    if id in sessions then sessions[id].loot else []
  }

  class GameUseCase {
    const players: Players
    const tokens: PlayerTokens
    var autoCounter: int

    /**
     * The tables are consistent, every registered dog id is below the counter (so the next
     * join never collides), and every token resolves to a registered player.
     */
    ghost predicate Valid()
      reads this, players, tokens
    {
      && players.Valid() && tokens.Valid()
      && (forall key | key in players.entries :: key.dogId < autoCounter)
      && (forall t | t in tokens.tokenToPlayer :: tokens.tokenToPlayer[t] in players.entries.Values)
    }

    constructor (firstId: int)
      ensures Valid() && fresh(players) && fresh(tokens)
      ensures autoCounter == firstId && players.entries == map[]
      ensures tokens.tokenToPlayer == map[] && tokens.playersBySession == map[]
    {
      players := new Players();
      tokens := new PlayerTokens();
      autoCounter := firstId;
    }

    /**
     * `SetAction` for a registered token: a move code turns the dog to face that way at the
     * map's speed; any other code throws before the dog is touched.
     */
    method SetAction(moveCode: string, token: Token) returns (o: Outcome)
      requires Valid()
      requires token in tokens.tokenToPlayer
      modifies tokens.tokenToPlayer[token].dog
      ensures CharToDirection(moveCode).Ok? ==>
        var dog, d := tokens.tokenToPlayer[token].dog, CharToDirection(moveCode).value;
        && o == Pass
        && dog.speed == SpeedFor(d, tokens.tokenToPlayer[token].session.gameMap.dogSpeed)
        && dog.dir == d && dog.pos == old(dog.pos)
      ensures !CharToDirection(moveCode).Ok? ==>
        o == Fail(CharToDirection(moveCode).exception)
        && unchanged(tokens.tokenToPlayer[token].dog)
    {
      var player := tokens.FindPlayerByToken(token);
      var dogSpeed := player.session.gameMap.dogSpeed;
      var decoded := CharToDirection(moveCode);
      if decoded.Throw? {
        return Fail(decoded.exception);
      }
      var dir := decoded.value;
      player.dog.SetSpeed(SpeedFor(dir, dogSpeed));
      player.dog.SetDirection(dir);
      o := Pass;
    }

    /** The map's live session, created empty if the map has none yet. */
    static method ResolveSession(game: Game, mapId: MapId) returns (session: GameSession)
      requires game.Valid() && mapId in game.maps
      modifies game
      ensures game.Valid() && game.maps == old(game.maps)
      ensures mapId in game.sessions && session == game.sessions[mapId]
      ensures session.gameMap == game.maps[mapId] && session.gameMap.id == mapId
      ensures mapId in old(game.sessions) ==> game.sessions == old(game.sessions)
      ensures mapId !in old(game.sessions) ==>
        && fresh(session) && game.sessions == old(game.sessions)[mapId := session]
        && session.dogs == [] && session.loot == [] && session.lootRequests == []
    {
      var found := game.SessionIsExists(mapId);
      if found != null {
        session := found;
      } else {
        session := game.AddSession(mapId);
      }
    }

    /**
     * Registers the player of a new dog under the current counter, bumps the counter and
     * issues a token; a token collision throws after the player has been filed.
     */
    method RegisterPlayer(userName: string, dog: Dog, session: GameSession, draw1: nat, draw2: nat)
      returns (r: Result<JoinInfo>)
      requires Valid()
      requires dog.id == autoCounter
      requires draw1 < SIZE_MOD && draw2 < SIZE_MOD
      modifies this, players, tokens
      ensures Valid()
      ensures autoCounter == old(autoCounter) + 1
      ensures var key := DogMapKey(old(autoCounter), session.gameMap.id);
        && key !in old(players.entries) && key in players.entries
        && players.entries == old(players.entries)[key := players.entries[key]]
        && fresh(players.entries[key])
        && players.entries[key].id == old(autoCounter) && players.entries[key].name == userName
        && players.entries[key].dog == dog && players.entries[key].session == session
      ensures GenerateToken(draw1, draw2) in old(tokens.tokenToPlayer) ==>
        && r == Throw(LogicError(TOKEN_ALREADY_ADDED))
        && tokens.tokenToPlayer == old(tokens.tokenToPlayer)
        && tokens.playersBySession == old(tokens.playersBySession)
      ensures GenerateToken(draw1, draw2) !in old(tokens.tokenToPlayer) ==>
        var player := players.entries[DogMapKey(old(autoCounter), session.gameMap.id)];
        && r == Ok(JoinInfo(GenerateToken(draw1, draw2), old(autoCounter)))
        && tokens.tokenToPlayer == old(tokens.tokenToPlayer)[r.value.token := player]
        && tokens.playersBySession == old(tokens.playersBySession)[session :=
             SessionList(old(tokens.playersBySession), session) + [player]]
    {
      ghost var entriesBefore := players.entries;
      var added := players.Add(autoCounter, userName, dog, session);
      assert added.Ok?;
      var player := added.value;
      forall p | p in entriesBefore.Values ensures p in players.entries.Values {
        var k :| k in entriesBefore && entriesBefore[k] == p;
        assert players.entries[k] == p;
      }
      assert player == players.entries[DogMapKey(dog.id, session.gameMap.id)];
      autoCounter := autoCounter + 1;
      var issued := tokens.AddPlayer(player, draw1, draw2);
      r := match issued
        case Ok(token) => Ok(JoinInfo(token, player.id))
        case Throw(e) => Throw(e);
    }

    /**
     * `JoinGame` on a registered map: reuses the map's session or creates it, adds a dog
     * standing still and facing north at `startPos` (the start-position strategy's answer),
     * asks the session for `LootRebalance` new loot, registers the player under the current
     * counter, bumps the counter and issues a token. A token collision throws after the
     * dog and the player have been added.
     */
    method JoinGame(userName: string, mapId: MapId, game: Game, startPos: PairDouble,
                    draw1: nat, draw2: nat)
      returns (r: Result<JoinInfo>)
      requires Valid() && game.Valid()
      requires mapId in game.maps
      requires draw1 < SIZE_MOD && draw2 < SIZE_MOD
      // only the joined map's session changes: the others are left as they were
      modifies this, players, tokens, game
      modifies if mapId in game.sessions then {game.sessions[mapId]} else {}
      ensures Valid() && game.Valid()
      ensures game.maps == old(game.maps) && mapId in game.sessions
      // the session: reused if there was one, otherwise created for this map alone
      ensures mapId in old(game.sessions) ==> game.sessions == old(game.sessions)
      ensures mapId !in old(game.sessions) ==>
        && fresh(game.sessions[mapId])
        && game.sessions == old(game.sessions)[mapId := game.sessions[mapId]]
      // the new dog, and the loot request counted after it joined, before any loot spawns
      ensures var session := game.sessions[mapId];
        && |session.dogs| == |old(DogsOf(game.sessions, mapId))| + 1
        && session.dogs[..|session.dogs| - 1] == old(DogsOf(game.sessions, mapId))
        && session.lootRequests == old(LootRequestsOf(game.sessions, mapId))
             + [LootRebalance(|old(DogsOf(game.sessions, mapId))| + 1,
                              |old(LootOf(game.sessions, mapId))|)]
      ensures var dog := game.sessions[mapId].dogs[|game.sessions[mapId].dogs| - 1];
        && fresh(dog) && dog.id == old(autoCounter) && dog.name == userName
        && dog.pos == startPos && dog.speed == PairDouble(0.0, 0.0) && dog.dir == North
      // the player, filed under the old counter
      ensures autoCounter == old(autoCounter) + 1
      ensures var key := DogMapKey(old(autoCounter), mapId);
        && key !in old(players.entries) && key in players.entries
        && players.entries == old(players.entries)[key := players.entries[key]]
        && fresh(players.entries[key])
        && players.entries[key].id == old(autoCounter) && players.entries[key].name == userName
        && players.entries[key].session == game.sessions[mapId]
        && players.entries[key].dog == game.sessions[mapId].dogs[|game.sessions[mapId].dogs| - 1]
      // the token
      ensures GenerateToken(draw1, draw2) in old(tokens.tokenToPlayer) ==>
        && r == Throw(LogicError(TOKEN_ALREADY_ADDED))
        && tokens.tokenToPlayer == old(tokens.tokenToPlayer)
        && tokens.playersBySession == old(tokens.playersBySession)
      ensures GenerateToken(draw1, draw2) !in old(tokens.tokenToPlayer) ==>
        var player := players.entries[DogMapKey(old(autoCounter), mapId)];
        && r == Ok(JoinInfo(GenerateToken(draw1, draw2), old(autoCounter)))
        && tokens.tokenToPlayer == old(tokens.tokenToPlayer)[r.value.token := player]
        && tokens.playersBySession == old(tokens.playersBySession)[player.session :=
             SessionList(old(tokens.playersBySession), player.session) + [player]]
    {
      ghost var dogsBefore := DogsOf(game.sessions, mapId);
      ghost var lootBefore := LootOf(game.sessions, mapId);
      ghost var requestsBefore := LootRequestsOf(game.sessions, mapId);
      var session := ResolveSession(game, mapId);
      assert session.dogs == dogsBefore && session.loot == lootBefore;
      assert session.lootRequests == requestsBefore;
      var dog := session.AddDog(autoCounter, userName, startPos, PairDouble(0.0, 0.0), North);
      session.UpdateLoot(LootRebalance(|session.dogs|, |session.loot|));
      assert session.dogs == dogsBefore + [dog];
      r := RegisterPlayer(userName, dog, session, draw1, draw2);
    }
  }
}
