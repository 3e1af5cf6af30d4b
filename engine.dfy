/**
 * The pure part of the bracket progression engine in index.js: how a round's
 * entrant list becomes match records (createRoundMatches, index.js:1128-1279)
 * and how a round's records are read back when deciding whether to advance
 * (maybeAdvanceTournament, index.js:1282-1330).
 */
module Engine {
  import opened Wrappers
  import opened Ids
  import opened Records

  /**
   * The record made for the `index`-th pair `(p1, p2)` of a round of
   * tournament `t` (index.js:1147-1166). Without a second entrant it is a
   * bye: completed at creation, with `p1` as winner.
   */
  function NewMatch(t: Tournament, round: nat, index: nat, p1: EntrantId, p2: Option<EntrantId>): (m: Match)
    ensures WellFormed(m)
    ensures m.id == MatchId(t.shortCode, round, index)
    ensures IsBye(m) <==> p2.None?
    ensures p2.Some? ==> m.status == Pending && m.winner.None?
    ensures m.player1 == p1 && m.player2 == p2 && m.round == round && m.tournamentId == t.id && m.guildId == t.guildId
  {
    var id := MatchId(t.shortCode, round, index);
    if p2.None? then Match(id, t.guildId, t.id, round, p1, None, Completed, Some(p1))
    else Match(id, t.guildId, t.id, round, p1, p2, Pending, None)
  }

  /** The partner of position `i`: the next entrant, if there is one. */
  function PartnerOf(players: seq<EntrantId>, i: nat): Option<EntrantId> {
    if i + 1 < |players| then Some(players[i + 1]) else None
  }

  /** Match `k` of a round: entrant `2k` against its partner, numbered `k + 1`. */
  function PairMatch(t: Tournament, round: nat, players: seq<EntrantId>, k: nat): Match
    requires 2 * k < |players|
  {
    NewMatch(t, round, k + 1, players[2 * k], PartnerOf(players, 2 * k))
  }

  /**
   * The records of one round, in creation order: the entrant list is
   * consumed two at a time, the k-th pair (positions 2k and 2k+1) becoming
   * match number k + 1.
   */
  function Pairing(t: Tournament, round: nat, players: seq<EntrantId>): (ms: seq<Match>)
    ensures |ms| == (|players| + 1) / 2
  {
    seq((|players| + 1) / 2, k requires 0 <= k < (|players| + 1) / 2 => PairMatch(t, round, players, k))
  }

  /** The one or two entrants of a match, first entrant first. */
  function Slots(m: Match): seq<EntrantId> {
    [m.player1] + (if m.player2.Some? then [m.player2.value] else [])
  }

  /** The entrants of a list of matches, each match contributing its slots in order. */
  function Entrants(ms: seq<Match>): seq<EntrantId> {
    if ms == [] then [] else Entrants(ms[..|ms| - 1]) + Slots(ms[|ms| - 1])
  }

  function Min(a: nat, b: nat): nat {
    if a < b then a else b
  }

  /** The k-th match of a round pairs positions 2k and 2k+1 of the entrant list. */
  lemma PairingAt(t: Tournament, round: nat, players: seq<EntrantId>, k: nat)
    requires k < (|players| + 1) / 2
    ensures Slots(Pairing(t, round, players)[k]) == players[2 * k..Min(2 * k + 2, |players|)]
  {
  }

  /** The first `j` matches of a round hold exactly the first `2j` entrants (or all of them). */
  lemma {:induction false} PairingPrefixEntrants(t: Tournament, round: nat, players: seq<EntrantId>, j: nat)
    requires j <= (|players| + 1) / 2
    ensures Entrants(Pairing(t, round, players)[..j]) == players[..Min(2 * j, |players|)]
  {
    if j > 0 {
      var ms := Pairing(t, round, players);
      var i := 2 * (j - 1);
      var e := Min(i + 2, |players|);
      assert i < |players| && e == Min(2 * j, |players|);
      PairingPrefixEntrants(t, round, players, j - 1);
      PairingAt(t, round, players, j - 1);
      EntrantsPrefix(ms, j);
      PrefixJoin(players, i, e);
    }
  }

  /** The entrants of the first `j` matches: those of the first `j - 1`, then those of match `j - 1`. */
  lemma EntrantsPrefix(ms: seq<Match>, j: nat)
    requires 0 < j <= |ms|
    ensures Entrants(ms[..j]) == Entrants(ms[..j - 1]) + Slots(ms[j - 1])
  {
    var pre := ms[..j];
    assert pre[..|pre| - 1] == ms[..j - 1];
  }

  lemma PrefixJoin<T>(s: seq<T>, i: nat, e: nat)
    requires i <= e <= |s|
    ensures s[..i] + s[i..e] == s[..e]
  {
  }

  /**
   * Pairing uses every entrant of the round exactly once, in the given
   * order: reading the matches back gives the entrant list itself.
   */
  lemma PairingEntrants(t: Tournament, round: nat, players: seq<EntrantId>)
    ensures Entrants(Pairing(t, round, players)) == players
    ensures multiset(Entrants(Pairing(t, round, players))) == multiset(players)
  {
    var ms := Pairing(t, round, players);
    PairingPrefixEntrants(t, round, players, |ms|);
    assert ms[..|ms|] == ms;
    assert players[..|players|] == players;
  }

  /** Only the last match of a round can be a bye, and it is one exactly when the count is odd. */
  lemma PairingByes(t: Tournament, round: nat, players: seq<EntrantId>, k: nat)
    requires k < |Pairing(t, round, players)|
    ensures IsBye(Pairing(t, round, players)[k]) <==> (k == |players| / 2 && |players| % 2 == 1)
  {
  }

  /** A round of two or more entrants has fewer matches than entrants, and at least one. */
  lemma PairingShrinks(t: Tournament, round: nat, players: seq<EntrantId>)
    requires |players| >= 2
    ensures 1 <= |Pairing(t, round, players)| < |players|
    ensures !(|Pairing(t, round, players)| == 1 && IsBye(Pairing(t, round, players)[0]))
  {
  }

  /** The ids of a round's matches are pairwise distinct. */
  lemma PairingIdsDistinct(t: Tournament, round: nat, players: seq<EntrantId>)
    ensures var ms := Pairing(t, round, players);
            forall j, k :: 0 <= j < k < |ms| ==> ms[j].id != ms[k].id
  {
    var ms := Pairing(t, round, players);
    forall j, k | 0 <= j < k < |ms|
      ensures ms[j].id != ms[k].id
    {
      if ms[j].id == ms[k].id {
        MatchIdInjective(t.shortCode, round, j + 1, t.shortCode, round, k + 1);
      }
    }
  }

  /** The ids of a list of matches, in order, as the tournament lists them. */
  function IdsOf(ms: seq<Match>): (ids: seq<string>)
    ensures |ids| == |ms|
    ensures forall i :: 0 <= i < |ms| ==> ids[i] == ms[i].id
  {
    if ms == [] then [] else IdsOf(ms[..|ms| - 1]) + [ms[|ms| - 1].id]
  }

  /** The store entries written for a list of matches, each under its id (later writes win). */
  function MapOf(ms: seq<Match>): (store: map<string, Match>)
    ensures store.Keys == set m {:trigger m in ms} | m in ms :: m.id
    ensures forall id :: id in store ==> store[id].id == id && store[id] in ms
  {
    if ms == [] then map[]
    else
      var pre := ms[..|ms| - 1];
      var last := ms[|ms| - 1];
      assert forall m :: m in ms <==> m in pre || m == last;
      assert (set m {:trigger m in ms} | m in ms :: m.id) == (set m {:trigger m in pre} | m in pre :: m.id) + {last.id} by {
        assert last in ms;
      }
      MapOf(pre)[last.id := last]
  }

  /** Storing one more match and listing its id extends the ids and the store entries of the matches made so far. */
  lemma AppendStep(made: seq<Match>, m: Match, listed: seq<string>, store: map<string, Match>)
    ensures (listed + IdsOf(made)) + [m.id] == listed + IdsOf(made + [m])
    ensures (store + MapOf(made))[m.id := m] == store + MapOf(made + [m])
  {
    assert (made + [m])[..|made|] == made;
  }

  /** Making the next pair's match extends a prefix of the round's pairing by one. */
  lemma PairMatchNext(t: Tournament, round: nat, players: seq<EntrantId>, made: seq<Match>, p2: Option<EntrantId>)
    requires 2 * |made| < |players|
    requires made == Pairing(t, round, players)[..|made|]
    requires p2 == if 2 * |made| + 1 < |players| then Some(players[2 * |made| + 1]) else None
    ensures made + [NewMatch(t, round, |made| + 1, players[2 * |made|], p2)] == Pairing(t, round, players)[..|made| + 1]
  {
    var ms := Pairing(t, round, players);
    assert ms[|made|] == PairMatch(t, round, players, |made|);
  }

  /**
   * Matches made one pair at a time (the k-th from entrant `2k` and its
   * partner, numbered `k + 1`) until every entrant is taken are the round's
   * pairing.
   */
  lemma PairingOf(t: Tournament, round: nat, players: seq<EntrantId>, made: seq<Match>)
    requires |players| <= 2 * |made| <= |players| + 1
    requires made == Pairing(t, round, players)[..|made|]
    ensures made == Pairing(t, round, players)
  {
  }

  /** With distinct ids, every match of the list is found under its own id. */
  lemma {:induction false} MapOfFinds(ms: seq<Match>, i: nat)
    requires forall j, k :: 0 <= j < k < |ms| ==> ms[j].id != ms[k].id
    requires i < |ms|
    ensures ms[i].id in MapOf(ms) && MapOf(ms)[ms[i].id] == ms[i]
  {
    if i < |ms| - 1 {
      MapOfFinds(ms[..|ms| - 1], i);
    }
  }

  /**
   * The round's records as the engine reads them (index.js:1285-1287): the
   * stored records of the listed ids that belong to `round`, in list order;
   * an id without a record is skipped.
   */
  function RoundMatches(ids: seq<string>, store: map<string, Match>, round: int): (rm: seq<Match>)
    ensures |rm| <= |ids|
    ensures forall m {:trigger m in rm} :: m in rm ==> m.round == round && m in store.Values
  {
    if ids == [] then []
    else
      var rest := RoundMatches(ids[..|ids| - 1], store, round);
      var id := ids[|ids| - 1];
      if id in store && store[id].round == round then rest + [store[id]] else rest
  }

  /** No match of the round is still pending. */
  predicate AllCompleted(rm: seq<Match>) {
    forall i :: 0 <= i < |rm| ==> rm[i].status == Completed
  }

  /** The winners of a round's matches, in match order, matches without a winner skipped (index.js:1294). */
  function Winners(rm: seq<Match>): (ws: seq<EntrantId>)
    ensures |ws| <= |rm|
  {
    if rm == [] then []
    else
      var rest := Winners(rm[..|rm| - 1]);
      var last := rm[|rm| - 1];
      if last.winner.Some? then rest + [last.winner.value] else rest
  }

  /** In a round whose records are all completed and well formed, every match yields its winner, in order. */
  lemma {:induction false} WinnersOfCompletedRound(rm: seq<Match>)
    requires AllCompleted(rm)
    requires forall m :: m in rm ==> WellFormed(m)
    ensures |Winners(rm)| == |rm|
    ensures forall i :: 0 <= i < |rm| ==> rm[i].winner == Some(Winners(rm)[i])
  {
    if rm != [] {
      var pre := rm[..|rm| - 1];
      assert forall m :: m in pre ==> m in rm;
      WinnersOfCompletedRound(pre);
      assert rm[|rm| - 1] in rm;
    }
  }

  /** The champion announced when the tournament ends: the first winner, else the first match's winner, if any (index.js:1299). */
  function AnnouncedChampion(rm: seq<Match>): Option<EntrantId> {
    var ws := Winners(rm);
    if ws != [] then Some(ws[0]) else if rm != [] then rm[0].winner else None
  }

  /** What the engine does once a result is in (index.js:1282-1331). */
  datatype Step =
    | Wait                                  // the round is empty or still has a pending match
    | Finish(champion: Option<EntrantId>)   // one winner or none: the tournament ends
    | Advance(winners: seq<EntrantId>)      // two or more winners go on to the next round

  function Decide(rm: seq<Match>): (step: Step)
    ensures step.Advance? ==> |step.winners| >= 2
  {
    if rm == [] || !AllCompleted(rm) then Wait
    else if |Winners(rm)| <= 1 then Finish(AnnouncedChampion(rm))
    else Advance(Winners(rm))
  }

  /**
   * For a round of well-formed records: the engine waits exactly while the
   * round is empty or has a pending match; it finishes only on a single
   * completed final, whose winner is the champion; otherwise every match
   * of the round sends its winner on, in match order.
   */
  lemma DecideOfRound(rm: seq<Match>)
    requires forall m :: m in rm ==> WellFormed(m)
    ensures Decide(rm).Wait? <==> rm == [] || exists i :: 0 <= i < |rm| && rm[i].status == Pending
    ensures Decide(rm).Finish? ==>
              |rm| == 1 && rm[0].status == Completed && rm[0].winner.Some? && Decide(rm).champion == rm[0].winner
    ensures Decide(rm).Advance? ==>
              && |Decide(rm).winners| == |rm| >= 2
              && forall i :: 0 <= i < |rm| ==> rm[i].winner == Some(Decide(rm).winners[i])
  {
    if rm != [] && AllCompleted(rm) {
      WinnersOfCompletedRound(rm);
    }
  }

  /** Pairing only reads a tournament's code, guild and id. */
  lemma PairingKeys(t1: Tournament, t2: Tournament, round: nat, players: seq<EntrantId>)
    requires t1.shortCode == t2.shortCode && t1.guildId == t2.guildId && t1.id == t2.id
    ensures Pairing(t1, round, players) == Pairing(t2, round, players)
  {
  }

  /**
   * The next round is the bracket's next level: its match `k` sets the
   * winner of match `2k` against the winner of match `2k + 1` of the round
   * just completed, or gives the winner of a last unpaired match a bye;
   * and it has fewer matches than the round it follows.
   */
  lemma NextRoundFeeds(t: Tournament, round: nat, rm: seq<Match>)
    requires forall m :: m in rm ==> WellFormed(m)
    requires Decide(rm).Advance?
    ensures var next := Pairing(t, round, Decide(rm).winners);
            && |next| == (|rm| + 1) / 2 < |rm|
            && forall k :: 0 <= k < |next| ==>
                 && Some(next[k].player1) == rm[2 * k].winner
                 && (2 * k + 1 < |rm| ==> next[k].player2 == rm[2 * k + 1].winner)
                 && (2 * k + 1 == |rm| ==> IsBye(next[k]))
  {
    var ws := Decide(rm).winners;
    DecideOfRound(rm);
    var next := Pairing(t, round, ws);
    PairingShrinks(t, round, ws);
    forall k | 0 <= k < |next|
      ensures && Some(next[k].player1) == rm[2 * k].winner
              && (2 * k + 1 < |rm| ==> next[k].player2 == rm[2 * k + 1].winner)
              && (2 * k + 1 == |rm| ==> IsBye(next[k]))
    {
      PairingByes(t, round, ws, k);
    }
  }

  /** The records of `t`'s current round. */
  function CurrentRound(t: Tournament, store: map<string, Match>): seq<Match> {
    RoundMatches(t.matchIds, store, t.currentRound)
  }

  /** `t` once round `round`, paired as `ms`, is under way. */
  function WithRound(t: Tournament, round: nat, ms: seq<Match>): Tournament {
    t.(status := Running, currentRound := round, matchIds := t.matchIds + IdsOf(ms))
  }

  /** `t` once its round counter has moved on and the next round, paired as `ms`, is listed; its status is left alone. */
  function NextRound(t: Tournament, ms: seq<Match>): Tournament {
    t.(currentRound := t.currentRound + 1, matchIds := t.matchIds + IdsOf(ms))
  }

  /**
   * The tournaments and the records after the engine has looked at guild
   * `g`'s tournament once a result is in (index.js:1282-1331): nothing
   * changes while it waits; it is marked finished when its round leaves at
   * most one winner; otherwise the next round is paired from the winners.
   */
  function Progress(ts: map<string, Tournament>, store: map<string, Match>, g: string)
    : (r: (map<string, Tournament>, map<string, Match>))
    ensures r.0.Keys == ts.Keys
    ensures forall g2 :: g2 in ts && g2 != g ==> r.0[g2] == ts[g2]
    ensures store.Keys <= r.1.Keys
    ensures g !in ts ==> r == (ts, store)
  {
    if g !in ts then (ts, store)
    else
      var t := ts[g];
      match Decide(CurrentRound(t, store))
      case Wait => (ts, store)
      case Finish(_) => (ts[g := t.(status := Finished)], store)
      case Advance(ws) =>
        var ms := Pairing(t, t.currentRound + 1, ws);
        (ts[g := NextRound(t, ms)], store + MapOf(ms))
  }

  /** When the round leaves two or more winners, `Progress` pairs them into the next round. */
  lemma ProgressOfAdvance(ts: map<string, Tournament>, store: map<string, Match>, g: string, ws: seq<EntrantId>)
    requires g in ts && Decide(CurrentRound(ts[g], store)) == Advance(ws)
    ensures var t := ts[g];
            var ms := Pairing(t, t.currentRound + 1, ws);
            Progress(ts, store, g) == (ts[g := NextRound(t, ms)], store + MapOf(ms))
  {
  }
}
