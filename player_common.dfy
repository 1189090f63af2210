/**
 * What both versions of the player and token tables share: the exception messages and the
 * `operator[]` read of the per-session player lists.
 */
module PlayerCommon {
  const PLAYER_ALREADY_ADDED := "Player has already been added"
  const TOKEN_ALREADY_ADDED := "Player with this token has already been added"
  const SESSION_NOT_EXISTS := "Session is not exists"

  /** The session's list of players, empty when the session has none yet (`operator[]`). */
  function SessionList<S, P>(bySession: map<S, seq<P>>, s: S): (l: seq<P>)
    ensures s in bySession ==> l == bySession[s]
    ensures s !in bySession ==> l == []
  {
    if s in bySession then bySession[s] else []
  }
}
