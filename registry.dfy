/**
 * The player table and the token table of the command-line version of the server
 * (`Players`, `PlayerTokens`): a player is registered once under (dog id, map id) and gets
 * one token; the token table also lists the players of every session in joining order.
 */
module Registry {
  import opened Wrappers
  import opened Machine
  import opened Model
  import opened Tokens
  import opened DogMapKeys
  import opened PlayerCommon

  /** A player: bound for good to one dog in one session. */
  class Player {
    const id: int
    const name: string
    const dog: Dog
    const session: GameSession

    constructor (id: int, name: string, dog: Dog, session: GameSession)
      ensures this.id == id && this.name == name && this.dog == dog && this.session == session
    {
      this.id := id;
      this.name := name;
      this.dog := dog;
      this.session := session;
    }
  }

  /** The key a player is filed under: its dog's id and its session's map id. */
  function KeyOf(p: Player): DogMapKey {
    DogMapKey(p.dog.id, p.session.gameMap.id)
  }

  class Players {
    var entries: map<DogMapKey, Player>

    /** Every player is filed under its own key. */
    ghost predicate Valid()
      reads this
    {
      forall key | key in entries :: KeyOf(entries[key]) == key
    }

    constructor ()
      ensures Valid() && entries == map[]
    {
      entries := map[];
    }

    /** Inserts a new player under (dog id, map id), or throws if that key is taken. */
    method Add(id: int, name: string, dog: Dog, session: GameSession) returns (r: Result<Player>)
      requires Valid()
      modifies this
      ensures Valid()
      ensures DogMapKey(dog.id, session.gameMap.id) in old(entries) ==>
        r == Throw(LogicError(PLAYER_ALREADY_ADDED)) && entries == old(entries)
      ensures DogMapKey(dog.id, session.gameMap.id) !in old(entries) ==>
        && r.Ok? && fresh(r.value)
        && r.value.id == id && r.value.name == name && r.value.dog == dog && r.value.session == session
        && entries == old(entries)[DogMapKey(dog.id, session.gameMap.id) := r.value]
    {
      var key := DogMapKey(dog.id, session.gameMap.id);
      var player := new Player(id, name, dog, session);
      if key !in entries {
        entries := entries[key := player];
        r := Ok(player);
      } else {
        r := Throw(LogicError(PLAYER_ALREADY_ADDED));
      }
    }

    /** The player of a dog on a map, or null. */
    method FindByDogIdAndMapId(dogId: int, mapId: MapId) returns (p: Player?)
      requires Valid()
      ensures p != null <==> DogMapKey(dogId, mapId) in entries
      ensures p != null ==> p == entries[DogMapKey(dogId, mapId)]
      ensures p != null ==> p.dog.id == dogId && p.session.gameMap.id == mapId
    {
      var key := DogMapKey(dogId, mapId);
      p := if key in entries then entries[key] else null;
    }
  }

  class PlayerTokens {
    var tokenToPlayer: map<Token, Player>
    var playersBySession: map<GameSession, seq<Player>>

    /**
     * The two tables agree: a registered player is listed in its own session, and a listed
     * player belongs to that session and holds a token.
     */
    ghost predicate Valid()
      reads this
    {
      && (forall t | t in tokenToPlayer ::
            tokenToPlayer[t] in SessionList(playersBySession, tokenToPlayer[t].session))
      && (forall s | s in playersBySession ::
            forall p | p in playersBySession[s] :: p.session == s && p in tokenToPlayer.Values)
    }

    constructor ()
      ensures Valid() && tokenToPlayer == map[] && playersBySession == map[]
    {
      tokenToPlayer := map[];
      playersBySession := map[];
    }

    /**
     * Registers the player under a freshly generated token and appends it to its session's
     * list; throws, changing nothing, when the token is already taken.
     */
    method AddPlayer(player: Player, draw1: nat, draw2: nat) returns (r: Result<Token>)
      requires Valid()
      requires draw1 < SIZE_MOD && draw2 < SIZE_MOD
      modifies this
      ensures Valid()
      ensures GenerateToken(draw1, draw2) in old(tokenToPlayer) ==>
        && r == Throw(LogicError(TOKEN_ALREADY_ADDED))
        && tokenToPlayer == old(tokenToPlayer) && playersBySession == old(playersBySession)
      ensures GenerateToken(draw1, draw2) !in old(tokenToPlayer) ==>
        && r == Ok(GenerateToken(draw1, draw2))
        && tokenToPlayer == old(tokenToPlayer)[r.value := player]
        && playersBySession == old(playersBySession)[player.session :=
             SessionList(old(playersBySession), player.session) + [player]]
    {
      var token := GenerateToken(draw1, draw2);
      if token !in tokenToPlayer {
        ghost var before := tokenToPlayer;
        tokenToPlayer := tokenToPlayer[token := player];
        playersBySession := playersBySession[player.session :=
          SessionList(playersBySession, player.session) + [player]];
        forall p | p in before.Values ensures p in tokenToPlayer.Values {
          var t :| t in before && before[t] == p;
          assert tokenToPlayer[t] == p;
        }
        assert player == tokenToPlayer[token];
        r := Ok(token);
      } else {
        r := Throw(LogicError(TOKEN_ALREADY_ADDED));
      }
    }

    /** The player holding a token, or null. */
    method FindPlayerByToken(token: Token) returns (p: Player?)
      requires Valid()
      ensures p != null <==> token in tokenToPlayer
      ensures p != null ==> p == tokenToPlayer[token]
      ensures p != null ==> p in SessionList(playersBySession, p.session)
    {
      p := if token in tokenToPlayer then tokenToPlayer[token] else null;
    }

    /** The players of a session in joining order; throws for a session never joined. */
    method GetPlayersBySession(session: GameSession) returns (r: Result<seq<Player>>)
      requires Valid()
      ensures r.Ok? <==> session in playersBySession
      ensures r.Ok? ==> r.value == playersBySession[session]
      ensures r.Ok? ==> forall p | p in r.value :: p.session == session && p in tokenToPlayer.Values
      ensures !r.Ok? ==> r == Throw(LogicError(SESSION_NOT_EXISTS))
    {
      if session in playersBySession {
        r := Ok(playersBySession[session]);
      } else {
        r := Throw(LogicError(SESSION_NOT_EXISTS));
      }
    }
  }
}
