/**
 * What the bracket image of bracket-image.js shows for a finished
 * tournament, related to what the engine of index.js decided: the
 * champion on the podium is the winner the engine announced, the
 * runner-up is the other finalist, and every third place lost a
 * completed match of the round before the final.
 */
module PodiumLink {
  import opened Wrappers
  import opened Ids
  import opened Records
  import opened Engine
  import opened Invariant
  import opened BracketImage

  /** `vals` enumerates the values of the match store (in any order). */
  ghost predicate Enumerates(vals: seq<Match>, store: map<string, Match>) {
    forall m :: m in vals <==> m in store.Values
  }

  /** `t` lists exactly the stored records that name it. */
  ghost predicate Owns(t: Tournament, store: map<string, Match>) {
    && (forall id :: id in t.matchIds ==> Listed(t, store, id))
    && (forall id :: id in store && store[id].tournamentId == t.id ==> id in t.matchIds)
  }

  /** A record of tournament `t` seen while enumerating the store is listed by `t`. */
  lemma EnumeratedListed(t: Tournament, store: map<string, Match>, vals: seq<Match>, m: Match)
    requires Owns(t, store) && Enumerates(vals, store)
    requires m in OfTournament(vals, t.id)
    ensures exists id :: id in t.matchIds && id in store && store[id] == m && m.round <= t.currentRound
  {
    assert m in store.Values;
    var id :| id in store && store[id] == m;
    assert id in t.matchIds && Listed(t, store, id);
  }

  /** A record of round `round` seen while enumerating the store is one of that round's matches. */
  lemma EnumeratedInRound(t: Tournament, store: map<string, Match>, vals: seq<Match>, round: int, m: Match)
    requires Owns(t, store) && Enumerates(vals, store)
    requires m in InRound(OfTournament(vals, t.id), round)
    ensures m in RoundMatches(t.matchIds, store, round)
  {
    InRoundMembers(OfTournament(vals, t.id), round);
    EnumeratedListed(t, store, vals, m);
    var id :| id in t.matchIds && id in store && store[id] == m;
    RoundMatchesMember(t.matchIds, store, round, id);
  }

  /** The one record of the final round is among the tournament's enumerated records. */
  lemma FinalEnumerated(t: Tournament, store: map<string, Match>, vals: seq<Match>)
    requires Owns(t, store) && FinalRoundOk(t, store) && Enumerates(vals, store)
    ensures var rm := CurrentRound(t, store);
            && |rm| == 1
            && rm[0].round == t.currentRound
            && rm[0] in OfTournament(vals, t.id)
  {
    var rm := CurrentRound(t, store);
    assert rm[0] in rm;
    RoundMatchesListed(t.matchIds, store, t.currentRound, rm[0]);
    var id :| id in t.matchIds && id in store && store[id] == rm[0];
    assert Listed(t, store, id);
    assert rm[0] in store.Values;
  }

  /** The final round of a finished tournament is its highest round. */
  lemma FinalIsHighest(t: Tournament, store: map<string, Match>, vals: seq<Match>)
    requires Owns(t, store) && FinalRoundOk(t, store) && Enumerates(vals, store)
    ensures OfTournament(vals, t.id) != [] && MaxRound(OfTournament(vals, t.id)) == t.currentRound
  {
    var all := OfTournament(vals, t.id);
    FinalEnumerated(t, store, vals);
    forall m {:trigger m in all} | m in all
      ensures m.round <= t.currentRound
    {
      EnumeratedListed(t, store, vals, m);
    }
  }

  /** The records of the final round shown in the image are all the final. */
  lemma FinalAlone(t: Tournament, store: map<string, Match>, vals: seq<Match>)
    requires Owns(t, store) && FinalRoundOk(t, store) && Enumerates(vals, store)
    ensures var rm := CurrentRound(t, store);
            var fs := InRound(OfTournament(vals, t.id), t.currentRound);
            && |rm| == 1 && fs != [] && forall m :: m in fs ==> m == rm[0]
  {
    var rm := CurrentRound(t, store);
    var fs := InRound(OfTournament(vals, t.id), t.currentRound);
    FinalEnumerated(t, store, vals);
    InRoundMembers(OfTournament(vals, t.id), t.currentRound);
    assert rm[0] in fs;
    forall m | m in fs
      ensures m == rm[0]
    {
      EnumeratedInRound(t, store, vals, t.currentRound, m);
      OnlyElement(rm, m);
    }
  }

  lemma OnlyElement(s: seq<Match>, x: Match)
    requires |s| == 1 && x in s
    ensures x == s[0]
  {
  }

  /** In a list whose records are all `m`, a completed `m` is the one found. */
  lemma FindOnly(ms: seq<Match>, m: Match)
    requires ms != [] && m.status == Completed
    requires forall x :: x in ms ==> x == m
    ensures FindCompleted(ms) == Some(m)
  {
    assert ms[0] in ms;
  }

  /** The champion of a one-match final round is the engine's announced champion. */
  lemma SingleFinalChampion(rm: seq<Match>)
    requires |rm| == 1 && rm[0].winner.Some?
    ensures AnnouncedChampion(rm) == rm[0].winner
  {
    assert rm[..0] == [];
  }

  /** The podium's first two places come from the one final match. */
  lemma FinalPlaces(t: Tournament, store: map<string, Match>, vals: seq<Match>)
    requires Owns(t, store) && FinalRoundOk(t, store) && CurrentRoundOk(t, store) && Enumerates(vals, store)
    requires forall m :: m in CurrentRound(t, store) ==> WellFormed(m)
    ensures var rm := CurrentRound(t, store);
            var all := OfTournament(vals, t.id);
            var p := PodiumAt(InRound(all, t.currentRound), InRound(all, t.currentRound - 1));
            && p.Some?
            && |rm| == 1 && !IsBye(rm[0])
            && rm[0].winner == Some(p.value.champion)
            && Some(p.value.runnerUp) == (if p.value.champion == rm[0].player1 then rm[0].player2 else Some(rm[0].player1))
  {
    var rm := CurrentRound(t, store);
    FinalAlone(t, store, vals);
    assert rm[0] in rm;
    FindOnly(InRound(OfTournament(vals, t.id), t.currentRound), rm[0]);
  }

  /** `q` is an entrant of a completed match among `ms` that is not a bye. */
  ghost predicate PlayedCompleted(ms: seq<Match>, q: EntrantId) {
    exists m {:trigger m in ms} :: m in ms && m.status == Completed && !IsBye(m) && IsEntrant(m, q)
  }

  /** Each loser of a round shown in the image is an entrant of a completed two-entrant match of that round. */
  lemma LosersListed(t: Tournament, store: map<string, Match>, vals: seq<Match>, round: int, q: EntrantId)
    requires Owns(t, store) && Enumerates(vals, store)
    requires q in Losers(InRound(OfTournament(vals, t.id), round))
    ensures PlayedCompleted(RoundMatches(t.matchIds, store, round), q)
  {
    var shown := InRound(OfTournament(vals, t.id), round);
    LosersOfRound(shown);
    var m :| m in shown && m.status == Completed && !IsBye(m) && IsEntrant(m, q);
    EnumeratedInRound(t, store, vals, round, m);
  }

  /** Every third place shown for round `round` played a completed match of that round. */
  lemma ThirdsListed(t: Tournament, store: map<string, Match>, vals: seq<Match>, round: int, third: seq<EntrantId>)
    requires Owns(t, store) && Enumerates(vals, store)
    requires third == Losers(InRound(OfTournament(vals, t.id), round))
    ensures forall q :: q in third ==> PlayedCompleted(RoundMatches(t.matchIds, store, round), q)
  {
    forall q | q in third
      ensures PlayedCompleted(RoundMatches(t.matchIds, store, round), q)
    {
      LosersListed(t, store, vals, round, q);
    }
  }

  /**
   * For a finished tournament consistent with the match store (as every
   * tournament of a sound state is, see `TournamentOfState`), the bracket
   * image shows a podium: its champion is the winner of the one final
   * match, which is the champion the engine announced when it finished the
   * tournament; the runner-up is the other finalist; and each third place
   * is an entrant of a completed, non-bye match of the round before the
   * final, in the order the store enumerates them.
   */
  lemma TournamentPodium(t: Tournament, store: map<string, Match>, vals: seq<Match>)
    requires StoreOk(store) && TournamentOk(t, store) && t.status == Finished
    requires Enumerates(vals, store)
    ensures var rm := CurrentRound(t, store);
            var all := OfTournament(vals, t.id);
            var p := PodiumOf(t.status, all);
            && p.Some?
            && |rm| == 1 && !IsBye(rm[0])
            && rm[0].winner == Some(p.value.champion)
            && AnnouncedChampion(rm) == Some(p.value.champion)
            && Some(p.value.runnerUp) == (if p.value.champion == rm[0].player1 then rm[0].player2 else Some(rm[0].player1))
            && p.value.third == Losers(InRound(all, t.currentRound - 1))
            && forall q :: q in p.value.third ==>
                 PlayedCompleted(RoundMatches(t.matchIds, store, t.currentRound - 1), q)
  {
    assert Owns(t, store) && FinalRoundOk(t, store) && CurrentRoundOk(t, store);
    var all := OfTournament(vals, t.id);
    var finals := InRound(all, t.currentRound);
    var semis := InRound(all, t.currentRound - 1);
    RoundWellFormed(t.matchIds, store, t.currentRound);
    FinalIsHighest(t, store, vals);
    PodiumOfFinished(all, t.currentRound, finals, semis);
    FinalPlaces(t, store, vals);
    ThirdsListed(t, store, vals, t.currentRound - 1, Losers(semis));
    SingleFinalChampion(CurrentRound(t, store));
  }
}
