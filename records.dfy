/**
 * The records the bracket engine keeps: tournaments (one per guild) and
 * matches, as described in the comment at index.js:37-65.
 */
module Records {
  import opened Wrappers
  import opened Ids

  datatype MatchStatus = Pending | Completed

  /**
   * A match record. `player2` is `None` for a bye. The platform channel of the
   * match is not part of this model.
   */
  datatype Match = Match(
    id: string,
    guildId: string,
    tournamentId: string,
    round: nat,
    player1: EntrantId,
    player2: Option<EntrantId>,
    status: MatchStatus,
    winner: Option<EntrantId>)

  predicate IsBye(m: Match) {
    m.player2.None?
  }

  /** `p` plays in `m`. */
  predicate IsEntrant(m: Match, p: EntrantId) {
    p == m.player1 || m.player2 == Some(p)
  }

  /**
   * A match record in a state the engine can produce: a bye is completed
   * with its sole entrant as winner; any other match is pending without a
   * winner, or completed with one of its two entrants as winner.
   */
  predicate WellFormed(m: Match) {
    if IsBye(m) then m.status == Completed && m.winner == Some(m.player1)
    else if m.status == Pending then m.winner.None?
    else m.winner.Some? && IsEntrant(m, m.winner.value)
  }

  /** Tournament status; `Finished` is the source's `'completed'`. */
  datatype TournamentStatus = Registration | Running | Finished

  /**
   * A tournament record. `matchIds` is the source's `matches` list of match
   * ids, in creation order. The category and lobby channels are not part of
   * this model.
   */
  datatype Tournament = Tournament(
    id: string,
    shortCode: string,
    guildId: string,
    name: string,
    bestOf: int,
    status: TournamentStatus,
    players: seq<EntrantId>,
    currentRound: nat,
    matchIds: seq<string>,
    bracketUrl: Option<string>)

  /** What `/add-player` stores about a player (index.js:597-600). */
  datatype PlayerProfile = PlayerProfile(ign: string, whatsapp: string)

  /** No element occurs twice. */
  predicate Distinct<T(==)>(s: seq<T>) {
    forall i, j :: 0 <= i < j < |s| ==> s[i] != s[j]
  }
}
