# Game engine bookkeeping, modelled in Dafny

This project models the bookkeeping core of a multiplayer dog-and-loot game server written in
C++. Dogs walk the roads of a map and sessions hold a map's live dogs and loot. A player table
and a token table authenticate the players. The model covers these parts:

- **Move codes and player actions** (`App`, from the command-line version's `app.cpp`). The
  move codes "U", "D", "L", "R" and their directions are a bijection. `SetAction` gives a dog
  its speed and facing. `JoinGame` finds or creates the map's session, adds a dog standing
  still and facing north, and asks the session for new loot. It then files the player under
  the id counter, increments the counter and issues a token.
- **Value types, roads, dogs and sessions** (`Model`, from `model.h`). Roads are horizontal or
  vertical by construction. A dog has setters for position, speed and facing. The model also
  covers the bounded random index, the `PairDouble` ordering, and sessions and the game's
  session table.
- **Tokens and the player key** (`Tokens`, `DogMapKeys`). A token is two 64-bit generator
  outputs written as 16 zero-padded lower-case hex digits each. The (dog id, map id) key has
  its own hasher. Both versions of `player.cpp` compute the same token and the same hash.
- **Player and token registries**, in two versions. `Registry` models the command-line
  version. `SnapshotRegistry` models the state-serialization version, where a player records
  its token and the tables can be restored entry by entry.

Randomness is passed in as parameters: the draw of `rand()`, the two token generator outputs,
and the start position chosen by the start-position strategy. `double` is modelled as `real`.
Exceptions are modelled as results: `Result.Throw(InvalidArgument(..))` and
`Result.Throw(LogicError(..))` carry the source's messages.

Where the code and the game's written design disagree, the model follows the code:

- The empty move code "" is described as "stop", but `CharToDirection` throws
  `invalid_argument` on it (sprint2/problems/command_line/solution/src/app.cpp:26-31).
- Joining an unknown map is described as an `UnknownMap` error. The code dereferences
  `FindMap`'s result unchecked (app.cpp:170-171), so the model requires a registered map.
- The join-time loot request is described as never negative. The code computes
  `dogs.size() - loot.size()` in unsigned arithmetic (app.cpp:181), so `LootRebalance` wraps
  around when loot outnumbers the dogs.

## Model

| member | source | states |
|---|---|---|
| `App.DirectionToChar` | sprint2/problems/command_line/solution/src/app.cpp:15-23 | every direction has one of the four move codes |
| `App.CharToDirection` | sprint2/problems/command_line/solution/src/app.cpp:26-32 | decoding succeeds exactly on the four codes and inverts `DirectionToChar` there; any other string throws `invalid_argument("Unknown direction code: " + s)` |
| `App.DirectionCodeRoundTrip` | sprint2/problems/command_line/solution/src/app.cpp:15-30 | decoding the code of any direction gives that direction back |
| `App.MoveCodeRoundTrip` | sprint2/problems/command_line/solution/src/app.cpp:15-30 | encoding the direction decoded from a valid code gives the code back |
| `App.MoveCodeTable` | sprint2/problems/command_line/solution/src/app.cpp:26-31 | U→North, D→South, L→West, R→East, and "" throws |
| `App.SpeedFor` | sprint2/problems/command_line/solution/src/app.cpp:268-284 | the speed `SetAction` sets is axis-aligned and its length is the map's dog speed |
| `App.SpeedPointsToFacing` | sprint2/problems/command_line/solution/src/app.cpp:268-284 | with a positive dog speed the speed points the way the dog faces (North is negative y); a negative one points the opposite way, and zero gives no heading |
| `App.Opposite` | sprint2/problems/command_line/solution/src/app.cpp:268-284 | the facing across the axis differs from the given one |
| `App.OppositeIsInvolution` | sprint2/problems/command_line/solution/src/app.cpp:268-284 | turning across the axis twice gives the original facing back |
| `App.LootRebalance` | sprint2/problems/command_line/solution/src/app.cpp:181 | the requested loot count is dogs − loot when loot does not outnumber the dogs, and 2^32 − (loot − dogs) when it does |
| `App.LootRebalanceExamples` | sprint2/problems/command_line/solution/src/app.cpp:181 | 4 dogs and 1 loot ask for 3; 1 dog and 2 loot ask for 2^32 − 1 |
| `App.GameUseCase.SetAction` | sprint2/problems/command_line/solution/src/app.cpp:258-293 | a valid code sets the dog's speed to `SpeedFor(direction, map speed)` and its facing to the direction, and leaves the position alone; an invalid code throws and the dog is unchanged |
| `App.GameUseCase.ResolveSession` | sprint2/problems/command_line/solution/src/app.cpp:163-166 | the map's existing session is reused; only when there is none is a fresh, empty one created and registered for that map alone |
| `App.GameUseCase.RegisterPlayer` | sprint2/problems/command_line/solution/src/app.cpp:182-186 | the player is filed under (counter, map id), which was free, the counter grows by exactly 1, and the token table changes as `AddPlayer` says; the invariant "dog ids below the counter, tokens resolve to filed players" is kept |
| `App.GameUseCase.JoinGame` | sprint2/problems/command_line/solution/src/app.cpp:158-193 | session reused or created; a fresh dog with the old counter as id, the user's name, the start position, speed (0,0) and facing North is appended; the session is asked for `LootRebalance(old dogs + 1, old loot)`, counted before any loot spawns; the player gets the old counter as id; the counter grows by 1; the token is issued, or the call throws on a token collision after the dog and the player were added; other sessions are untouched |
| `Model.HorizontalRoad` | sprint3/problems/gen_objects/solution/src/model.h:80-83 | the horizontal constructor keeps the start and end x and yields a horizontal road |
| `Model.VerticalRoad` | sprint3/problems/gen_objects/solution/src/model.h:85-87 | the vertical constructor keeps the start and end y and yields a vertical road |
| `Model.Segment.IsHorizontal` | sprint3/problems/gen_objects/solution/src/model.h:90-92 | a segment is horizontal exactly when it is what the horizontal constructor builds from its start and end x |
| `Model.Segment.IsVertical` | sprint3/problems/gen_objects/solution/src/model.h:94-96 | a segment is vertical exactly when it is what the vertical constructor builds from its start and end y |
| `Model.Segment.IsInvert` | sprint3/problems/gen_objects/solution/src/model.h:106-111 | along the road's own axis, it is inverted exactly when its end lies before its start |
| `Model.RoadIsConstructed` | sprint3/problems/gen_objects/solution/src/model.h:80-96 | every road is the result of one of the two constructors and is horizontal or vertical |
| `Model.RoadBothAxesIffPoint` | sprint3/problems/gen_objects/solution/src/model.h:90-96 | a road is both horizontal and vertical exactly when start == end |
| `Model.InvertedRoadRunsBackwards` | sprint3/problems/gen_objects/solution/src/model.h:106-111 | a road is inverted exactly when its end lies before its start along its own axis; otherwise start ≤ end on both axes |
| `Model.GetRandomNumber` | sprint3/problems/gen_objects/solution/src/model.h:277-279 | the result is an `unsigned`, and lies in [a, b) whenever a < b, for every draw |
| `Model.LessAsWritten` | sprint3/problems/gen_objects/solution/src/model.h:57-59 | the operator as written is the lexicographic order against (rhs.x, rhs.x) instead of (rhs.x, rhs.y) |
| `Model.LessAsWrittenIsNotStrict` | sprint3/problems/gen_objects/solution/src/model.h:57-59 | the operator as written holds for (p, p) exactly when p.y < p.x, and it misorders (0,0) and (0,1) |
| `Model.PairLessIsStrictOrder` | sprint3/problems/gen_objects/solution/src/model.h:57-59 | the lexicographic order on (x, y) is irreflexive, asymmetric, transitive and total |
| `Model.Dog.constructor` | sprint3/problems/gen_objects/solution/src/model.h:172-175 | a dog starts with the given id, name, position, speed and facing |
| `Model.Dog.SetPosition` | sprint3/problems/gen_objects/solution/src/model.h:185-191 | the position reads back as the new value; speed, facing, id and name are unchanged |
| `Model.Dog.SetSpeed` | sprint3/problems/gen_objects/solution/src/model.h:193-199 | the speed reads back as the new value; position, facing, id and name are unchanged |
| `Model.Dog.SetDirection` | sprint3/problems/gen_objects/solution/src/model.h:201-207 | the facing reads back as the new value; position, speed, id and name are unchanged |
| `Model.GameSession.constructor` | sprint3/problems/gen_objects/solution/src/model.h:305-323 | a new session has loot counter 0, no dogs and no loot |
| `Model.GameSession.AddDog` | sprint3/problems/gen_objects/solution/src/model.h:309 | a fresh dog with the given state is appended to the dogs; nothing else changes |
| `Model.GameSession.UpdateLoot` | sprint3/problems/gen_objects/solution/src/model.h:317 | the requested count is recorded after the earlier ones and the dogs are unchanged; the loot it spawns is left open |
| `Model.Game.constructor` | sprint3/problems/gen_objects/solution/src/model.h:331 | a game starts with its registered maps and no session |
| `Model.Game.FindMap` | sprint3/problems/gen_objects/solution/src/model.h:345 | the registered map with that id, or nothing |
| `Model.Game.SessionIsExists` | sprint3/problems/gen_objects/solution/src/model.h:335 | the map's live session, or null exactly when it has none |
| `Model.Game.AddSession` | sprint3/problems/gen_objects/solution/src/model.h:333 | a fresh empty session for the registered map is stored under its id |
| `Tokens.PaddedHex` | sprint4/problems/state_serialization/solution/src/player.cpp:94-95 | `n` is written on exactly `width` lower-case hex digits |
| `Tokens.PaddedHexRoundTrip` | sprint4/problems/state_serialization/solution/src/player.cpp:94-95 | reading the padded digits back gives `n` |
| `Tokens.HexStringRoundTrip` | sprint2/problems/command_line/solution/src/player.cpp:79-80 | every hex string is the padded form of its own value, so padding loses nothing |
| `Tokens.GenerateToken` | sprint4/problems/state_serialization/solution/src/player.cpp:92-97 | a token is 32 lower-case hex characters |
| `Tokens.TokenRoundTrip` | sprint2/problems/command_line/solution/src/player.cpp:77-82 | the first 16 digits read back as the first generator output, the last 16 as the second |
| `Tokens.TokenInjective` | sprint4/problems/state_serialization/solution/src/player.cpp:92-97 | two tokens are equal exactly when both generator outputs are equal |
| `Tokens.EveryHexStringIsAToken` | sprint4/problems/state_serialization/solution/src/player.cpp:92-97 | every 32-digit lower-case hex string is the token of some pair of outputs |
| `DogMapKeys.SizeCast` | sprint2/problems/command_line/solution/src/player.cpp:8 | `static_cast<size_t>` of an int is the 64-bit residue congruent to it |
| `DogMapKeys.DogMapHash` | sprint2/problems/command_line/solution/src/player.cpp:6-12 | the hash is the `size_t` value congruent to id·37 + h2·37·37 modulo 2^64 |
| `DogMapKeys.DogMapHashCollision` | sprint4/problems/state_serialization/solution/src/player.cpp:6-11 | keys (d + 37, h) and (d, h + 1) hash alike, so the hasher is not injective |
| `Registry.Player.constructor` | sprint2/problems/command_line/solution/src/player.cpp:22 | a player is bound to the given id, name, dog and session |
| `Registry.Players.Add` | sprint2/problems/command_line/solution/src/player.cpp:20-29 | a free (dog id, map id) key gets a fresh player, which is returned; a taken key throws `logic_error` and the table is unchanged; every player stays filed under its own key |
| `Registry.Players.FindByDogIdAndMapId` | sprint2/problems/command_line/solution/src/player.cpp:31-37 | the filed player when the key is present, null otherwise |
| `Registry.PlayerTokens.AddPlayer` | sprint2/problems/command_line/solution/src/player.cpp:45-53 | a free token maps to the player, the player is appended to its session's list, and the token is returned (the player does not record it); a taken token throws and neither table changes; the two tables stay consistent |
| `Registry.PlayerTokens.FindPlayerByToken` | sprint2/problems/command_line/solution/src/player.cpp:55-60 | the player when the token is registered, null otherwise; a found player is listed in its session |
| `Registry.PlayerTokens.GetPlayersBySession` | sprint2/problems/command_line/solution/src/player.cpp:62-68 | the session's players in joining order, all belonging to it; an unknown session throws `logic_error`, which differs from an empty list |
| `SnapshotRegistry.Player.constructor` | sprint4/problems/state_serialization/solution/src/player.cpp:21 | a player is bound to the given id, name, dog and session and holds no token yet |
| `SnapshotRegistry.Player.SetToken` | sprint4/problems/state_serialization/solution/src/player.cpp:48 | the player records the token |
| `SnapshotRegistry.Players.Add` | sprint4/problems/state_serialization/solution/src/player.cpp:19-28 | a free key gets a fresh player, which is returned; a taken key throws and the table is unchanged |
| `SnapshotRegistry.Players.FindByDogIdAndMapId` | sprint4/problems/state_serialization/solution/src/player.cpp:30-36 | the filed player when the key is present, null otherwise |
| `SnapshotRegistry.PlayerTokens.AddPlayer` | sprint4/problems/state_serialization/solution/src/player.cpp:44-53 | a free token maps to the player, the player is appended to its session's list and records the token, and the token is returned; a taken token throws and neither table nor the player changes |
| `SnapshotRegistry.PlayerTokens.AddPlayerWithToken` | sprint4/problems/state_serialization/solution/src/player.cpp:55-60 | only the token table changes: a free token maps to the player, a taken one throws with nothing changed |
| `SnapshotRegistry.PlayerTokens.AddPlayerInSession` | sprint4/problems/state_serialization/solution/src/player.cpp:62-64 | only the session lists change: the player is appended to the given session's list |
| `SnapshotRegistry.PlayerTokens.FindPlayerByToken` | sprint4/problems/state_serialization/solution/src/player.cpp:66-71 | the player when the token is registered, null otherwise |
| `SnapshotRegistry.PlayerTokens.GetPlayersBySession` | sprint4/problems/state_serialization/solution/src/player.cpp:73-79 | the session's players in insertion order; an unknown session throws `logic_error` |
| `SnapshotRegistry.RestoreMatchesAddPlayer` | sprint4/problems/state_serialization/solution/src/player.cpp:44-64 | restoring a token entry and then a session entry into the player's own session gives the same tables as `AddPlayer` with that token |

## Left out

- Model.GameSession.UpdateLoot: the loot it spawns is not modelled, because its body (in model.cpp) is not part of this model; the loot and the loot counter are left unconstrained after the call, so `JoinGame` promises nothing about the session's loot either.
- Movement integration, road lookup by coordinates, loot spawning (`UpdateLoot`'s body,
  `GenerateLootInSessions`) and the start-position strategies (`GetFirstPos`,
  `GetRandomPos`) are declared in model.h, but their bodies are not part of this model.
  `UpdateLoot` only records the count it is asked for, and the start position is a parameter
  of `JoinGame`.
- The bodies of `GameSession::AddDog`, `Game::AddSession`, `Game::SessionIsExists` and
  `Game::FindMap` are not part of this model either. They are modelled by what their
  declarations and their use in `JoinGame` imply. The game keeps at most one session per
  map, because `JoinGame` only adds a session when none exists.
- player.h and app.h are not part of this model. The player's fields come from the
  constructor calls in player.cpp. A restored player starts without a token. The starting
  value of the id counter is a constructor parameter. The token generators are taken to
  produce 64-bit values, as the 16-digit width implies.
- JSON building and parsing (`MakeMapDescription`, the `Get*InJSON` helpers, `GetPlayers`,
  `GetLostObjects`, `GetGameState`, `ListPlayersUseCase`, reading `"move"` out of the action
  object) are format glue around the model.
- HTTP serving, the cafeteria example and URL decoding (which has no body) are outside the
  core.
- Concurrency is out of scope because every modelled operation runs sequentially.
- Floating point: positions and speeds are reals, and no claim is made about rounding.
  The duration conversion `detail::FromDouble` is left out.
- App.GameUseCase.SetAction: requires the token to be registered. The source dereferences
  `FindPlayerByToken`'s result without a null check (app.cpp:258-259), so an unknown token has
  no defined behaviour to model.
- App.GameUseCase.JoinGame: requires the map to be registered, for the same reason
  (app.cpp:170-171). Overflow of the `int` id counter is not modelled.
- Model.GetRandomNumber: `a == b` divides by zero in the source and is excluded. Nothing is
  claimed about the distribution of `rand()`.
- Map ids, player ids and loot ids are plain tagged values. The string hash of the map id is
  a library function and is passed to `DogMapHash` as a number.

## Findings

| source | as written | input that shows it | evidently intended | confidence | as-written member | corrected member |
|---|---|---|---|---|---|---|
| sprint3/problems/gen_objects/solution/src/model.h:57-59 | `std::tuple(lhs.x, lhs.y) < std::tuple(rhs.x, rhs.x)` compares lhs.y with rhs.x | p = (0, −1): `p < p` is true; (0,0) < (0,1) is false | lexicographic comparison with `(rhs.x, rhs.y)`, a strict ordering | not executed; high (a copy slip of `.x` for `.y`) | `Model.LessAsWritten` (shown by `Model.LessAsWrittenIsNotStrict`) | `Model.PairLess` (proved by `Model.PairLessIsStrictOrder`) |
