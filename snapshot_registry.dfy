/**
 * The player table and the token table of the state-serialization version of the server.
 * Unlike `Registry`, a player records the token it was given, and a saved state can be
 * restored entry by entry: a token without touching the session lists
 * (`AddPlayerWithToken`), a session entry without touching the tokens (`AddPlayerInSession`).
 */
module SnapshotRegistry {
  import opened Wrappers
  import opened Machine
  import opened Model
  import opened Tokens
  import opened DogMapKeys
  import opened PlayerCommon

  /** A player: bound for good to one dog in one session; it remembers its token. */
  class Player {
    const id: int
    const name: string
    const dog: Dog
    const session: GameSession
    var token: Option<Token>

    constructor (id: int, name: string, dog: Dog, session: GameSession)
      ensures this.id == id && this.name == name && this.dog == dog && this.session == session
      ensures token == None
    {
      this.id := id;
      this.name := name;
      this.dog := dog;
      this.session := session;
      token := None;
    }

    method SetToken(t: Token)
      modifies this
      ensures token == Some(t)
    {
      token := Some(t);
    }
  }

  /** The key a player is filed under: its dog's id and its session's map id. */
  function KeyOf(p: Player): DogMapKey {
    DogMapKey(p.dog.id, p.session.gameMap.id)
  }

  class Players {
    var entries: map<DogMapKey, Player>

    /** Every player is filed under its own key. */
    ghost predicate Valid()
      reads this
    {
      forall key | key in entries :: KeyOf(entries[key]) == key
    }

    constructor ()
      ensures Valid() && entries == map[]
    {
      entries := map[];
    }

    /** Inserts a new player under (dog id, map id), or throws if that key is taken. */
    method Add(id: int, name: string, dog: Dog, session: GameSession) returns (r: Result<Player>)
      requires Valid()
      modifies this
      ensures Valid()
      ensures DogMapKey(dog.id, session.gameMap.id) in old(entries) ==>
        r == Throw(LogicError(PLAYER_ALREADY_ADDED)) && entries == old(entries)
      ensures DogMapKey(dog.id, session.gameMap.id) !in old(entries) ==>
        && r.Ok? && fresh(r.value) && r.value.token == None
        && r.value.id == id && r.value.name == name && r.value.dog == dog && r.value.session == session
        && entries == old(entries)[DogMapKey(dog.id, session.gameMap.id) := r.value]
    {
      var key := DogMapKey(dog.id, session.gameMap.id);
      var player := new Player(id, name, dog, session);
      if key !in entries {
        entries := entries[key := player];
        r := Ok(player);
      } else {
        r := Throw(LogicError(PLAYER_ALREADY_ADDED));
      }
    }

    /** The player of a dog on a map, or null. */
    method FindByDogIdAndMapId(dogId: int, mapId: MapId) returns (p: Player?)
      requires Valid()
      ensures p != null <==> DogMapKey(dogId, mapId) in entries
      ensures p != null ==> p == entries[DogMapKey(dogId, mapId)]
      ensures p != null ==> p.dog.id == dogId && p.session.gameMap.id == mapId
    {
      var key := DogMapKey(dogId, mapId);
      p := if key in entries then entries[key] else null;
    }
  }

  class PlayerTokens {
    var tokenToPlayer: map<Token, Player>
    var playersBySession: map<GameSession, seq<Player>>

    constructor ()
      ensures tokenToPlayer == map[] && playersBySession == map[]
    {
      tokenToPlayer := map[];
      playersBySession := map[];
    }

    /**
     * Registers the player under a freshly generated token, appends it to its session's
     * list and records the token on the player; throws, changing nothing, when the token
     * is already taken.
     */
    method AddPlayer(player: Player, draw1: nat, draw2: nat) returns (r: Result<Token>)
      requires draw1 < SIZE_MOD && draw2 < SIZE_MOD
      modifies this, player
      ensures GenerateToken(draw1, draw2) in old(tokenToPlayer) ==>
        && r == Throw(LogicError(TOKEN_ALREADY_ADDED))
        && tokenToPlayer == old(tokenToPlayer) && playersBySession == old(playersBySession)
        && player.token == old(player.token)
      ensures GenerateToken(draw1, draw2) !in old(tokenToPlayer) ==>
        && r == Ok(GenerateToken(draw1, draw2))
        && tokenToPlayer == old(tokenToPlayer)[r.value := player]
        && playersBySession == old(playersBySession)[player.session :=
             SessionList(old(playersBySession), player.session) + [player]]
        && player.token == Some(r.value)
    {
      var token := GenerateToken(draw1, draw2);
      if token !in tokenToPlayer {
        tokenToPlayer := tokenToPlayer[token := player];
        playersBySession := playersBySession[player.session :=
          SessionList(playersBySession, player.session) + [player]];
        player.SetToken(token);
        r := Ok(token);
      } else {
        r := Throw(LogicError(TOKEN_ALREADY_ADDED));
      }
    }

    /** Restores a token entry; throws, changing nothing, when the token is taken. */
    method AddPlayerWithToken(player: Player, token: Token) returns (o: Outcome)
      modifies this
      ensures token in old(tokenToPlayer) ==>
        o == Fail(LogicError(TOKEN_ALREADY_ADDED)) && tokenToPlayer == old(tokenToPlayer)
      ensures token !in old(tokenToPlayer) ==>
        o == Pass && tokenToPlayer == old(tokenToPlayer)[token := player]
      ensures playersBySession == old(playersBySession)
    {
      if token !in tokenToPlayer {
        tokenToPlayer := tokenToPlayer[token := player];
        o := Pass;
      } else {
        o := Fail(LogicError(TOKEN_ALREADY_ADDED));
      }
    }

    /** Restores a session entry: appends the player to the given session's list. */
    method AddPlayerInSession(player: Player, session: GameSession)
      modifies this
      ensures playersBySession ==
        old(playersBySession)[session := SessionList(old(playersBySession), session) + [player]]
      ensures tokenToPlayer == old(tokenToPlayer)
    {
      playersBySession := playersBySession[session :=
        SessionList(playersBySession, session) + [player]];
    }

    /** The player holding a token, or null. */
    method FindPlayerByToken(token: Token) returns (p: Player?)
      ensures p != null <==> token in tokenToPlayer
      ensures p != null ==> p == tokenToPlayer[token]
    {
      p := if token in tokenToPlayer then tokenToPlayer[token] else null;
    }

    /** The players of a session in the order they were added; throws for an unknown session. */
    method GetPlayersBySession(session: GameSession) returns (r: Result<seq<Player>>)
      ensures r.Ok? <==> session in playersBySession
      ensures r.Ok? ==> r.value == playersBySession[session]
      ensures !r.Ok? ==> r == Throw(LogicError(SESSION_NOT_EXISTS))
    {
      if session in playersBySession {
        r := Ok(playersBySession[session]);
      } else {
        r := Throw(LogicError(SESSION_NOT_EXISTS));
      }
    }
  }

  /**
   * Restoring a player with `AddPlayerWithToken` and then `AddPlayerInSession` into its own
   * session leaves both tables as `AddPlayer` would have under the same token.
   */
  method RestoreMatchesAddPlayer(tokens: PlayerTokens, player: Player, draw1: nat, draw2: nat)
    returns (o: Outcome)
    requires draw1 < SIZE_MOD && draw2 < SIZE_MOD
    requires GenerateToken(draw1, draw2) !in tokens.tokenToPlayer
    modifies tokens
    ensures o == Pass
    ensures tokens.tokenToPlayer == old(tokens.tokenToPlayer)[GenerateToken(draw1, draw2) := player]
    ensures tokens.playersBySession == old(tokens.playersBySession)[player.session :=
              SessionList(old(tokens.playersBySession), player.session) + [player]]
  {
    o := tokens.AddPlayerWithToken(player, GenerateToken(draw1, draw2));
    tokens.AddPlayerInSession(player, player.session);
  }
}
