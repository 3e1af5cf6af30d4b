/**
 * The invariant the engine of index.js keeps over its two stores, the
 * tournaments (one per guild) and the match records (keyed by match id),
 * and the lemmas showing that each kind of update keeps it.
 */
module Invariant {
  import opened Wrappers
  import opened Ids
  import opened Records
  import opened Engine

  /** `id` is listed by `t`: its record exists, is `t`'s, and names a round already started in its id. */
  ghost predicate Listed(t: Tournament, store: map<string, Match>, id: string) {
    && id in store
    && store[id].tournamentId == t.id
    && 1 <= store[id].round <= t.currentRound
    && RoundPrefix(t.shortCode, store[id].round) <= id
  }

  /** The current round has a match and is not a lone bye: it was paired from two or more entrants. */
  ghost predicate CurrentRoundOk(t: Tournament, store: map<string, Match>) {
    var rm := RoundMatches(t.matchIds, store, t.currentRound);
    |rm| >= 1 && !(|rm| == 1 && IsBye(rm[0]))
  }

  /** The final round of a finished tournament is one completed match. */
  ghost predicate FinalRoundOk(t: Tournament, store: map<string, Match>) {
    var rm := RoundMatches(t.matchIds, store, t.currentRound);
    |rm| == 1 && rm[0].status == Completed
  }

  ghost predicate TournamentOk(t: Tournament, store: map<string, Match>) {
    && IsShortCode(t.shortCode)
    && Distinct(t.players)
    && t.currentRound >= 1
    && (t.status == Registration ==> t.matchIds == [])
    && Distinct(t.matchIds)
    && (forall id :: id in t.matchIds ==> Listed(t, store, id))
    && (forall id :: id in store && store[id].tournamentId == t.id ==> id in t.matchIds)
    && (t.status != Registration ==> CurrentRoundOk(t, store))
    && (t.status == Finished ==> FinalRoundOk(t, store))
  }

  /** Every record is stored under its own id and is well formed. */
  ghost predicate StoreOk(store: map<string, Match>) {
    forall id :: id in store ==> store[id].id == id && WellFormed(store[id])
  }

  /** The invariant of the whole engine state. */
  ghost predicate StateOk(tournaments: map<string, Tournament>, store: map<string, Match>) {
    && StoreOk(store)
    && (forall g :: g in tournaments ==> TournamentOk(tournaments[g], store))
    && Separate(tournaments)
  }

  /** Tournaments of different guilds have different short codes and different ids. */
  ghost predicate Separate(tournaments: map<string, Tournament>) {
    forall g1, g2 :: g1 in tournaments && g2 in tournaments && g1 != g2 ==>
      tournaments[g1].shortCode != tournaments[g2].shortCode && tournaments[g1].id != tournaments[g2].id
  }

  lemma SeparateReplace(ts: map<string, Tournament>, g: string, t: Tournament)
    requires Separate(ts) && g in ts && t.shortCode == ts[g].shortCode && t.id == ts[g].id
    ensures Separate(ts[g := t])
  {
  }

  // ---------- RoundMatches under appends and updates ----------

  lemma {:induction false} RoundMatchesAppend(a: seq<string>, b: seq<string>, store: map<string, Match>, round: int)
    ensures RoundMatches(a + b, store, round) == RoundMatches(a, store, round) + RoundMatches(b, store, round)
  {
    if b != [] {
      assert (a + b)[..|a + b| - 1] == a + b[..|b| - 1];
      RoundMatchesAppend(a, b[..|b| - 1], store, round);
    } else {
      assert a + b == a;
    }
  }

  lemma {:induction false} RoundMatchesNone(ids: seq<string>, store: map<string, Match>, round: int)
    requires forall id :: id in ids && id in store ==> store[id].round != round
    ensures RoundMatches(ids, store, round) == []
  {
    if ids != [] {
      RoundMatchesNone(ids[..|ids| - 1], store, round);
    }
  }

  /** The ids of a round's own records read back exactly those records. */
  lemma {:induction false} RoundMatchesOfRound(ms: seq<Match>, store: map<string, Match>, round: int)
    requires forall i :: 0 <= i < |ms| ==> ms[i].id in store && store[ms[i].id] == ms[i] && ms[i].round == round
    ensures RoundMatches(IdsOf(ms), store, round) == ms
  {
    if ms != [] {
      var pre := ms[..|ms| - 1];
      assert IdsOf(ms)[..|ms| - 1] == IdsOf(pre);
      RoundMatchesOfRound(pre, store, round);
    }
  }

  /** A listed record of the round is among the round's matches. */
  lemma {:induction false} RoundMatchesMember(ids: seq<string>, store: map<string, Match>, round: int, id: string)
    requires id in ids && id in store && store[id].round == round
    ensures store[id] in RoundMatches(ids, store, round)
  {
    if ids[|ids| - 1] != id {
      RoundMatchesMember(ids[..|ids| - 1], store, round, id);
    }
  }

  /** A record of a round is one of the round's listed ids. */
  lemma {:induction false} RoundMatchesListed(ids: seq<string>, store: map<string, Match>, round: int, m: Match)
    requires m in RoundMatches(ids, store, round)
    ensures exists id :: id in ids && id in store && store[id] == m
  {
    var last := ids[|ids| - 1];
    if !(last in store && store[last] == m) {
      RoundMatchesListed(ids[..|ids| - 1], store, round, m);
      var id :| id in ids[..|ids| - 1] && id in store && store[id] == m;
      assert id in ids;
    }
  }

  /**
   * `m2` is `m1` possibly moved on by a result: the same match in the same
   * slot, and a completed match does not change.
   */
  predicate SameSlot(m1: Match, m2: Match) {
    && m2.id == m1.id
    && m2.tournamentId == m1.tournamentId
    && m2.round == m1.round
    && m2.player1 == m1.player1
    && m2.player2 == m1.player2
    && (m1.status == Completed ==> m2 == m1)
  }

  lemma {:induction false} RoundMatchesEvolve(ids: seq<string>, s1: map<string, Match>, s2: map<string, Match>, round: int)
    requires forall id :: id in ids ==> (id in s1 <==> id in s2)
    requires forall id :: id in ids && id in s1 ==> SameSlot(s1[id], s2[id])
    ensures |RoundMatches(ids, s2, round)| == |RoundMatches(ids, s1, round)|
    ensures forall i :: 0 <= i < |RoundMatches(ids, s1, round)| ==>
              SameSlot(RoundMatches(ids, s1, round)[i], RoundMatches(ids, s2, round)[i])
  {
    if ids != [] {
      RoundMatchesEvolve(ids[..|ids| - 1], s1, s2, round);
    }
  }

  // ---------- Preservation ----------

  /**
   * A tournament's invariant survives any store update that moves its own
   * records on by results only and adds no record under its id.
   */
  lemma TournamentOkEvolve(t: Tournament, s1: map<string, Match>, s2: map<string, Match>)
    requires TournamentOk(t, s1)
    requires forall id :: id in t.matchIds ==> id in s2 && SameSlot(s1[id], s2[id])
    requires forall id :: id in s2 && s2[id].tournamentId == t.id ==> id in t.matchIds
    ensures TournamentOk(t, s2)
  {
    RoundMatchesEvolve(t.matchIds, s1, s2, t.currentRound);
  }

  /** A sound state holds a sound store and sound tournaments. */
  lemma TournamentOfState(ts: map<string, Tournament>, store: map<string, Match>, g: string)
    requires StateOk(ts, store) && g in ts
    ensures StoreOk(store) && TournamentOk(ts[g], store)
  {
  }

  /** Replacing a tournament by one that keeps its code and id and is itself sound keeps the state sound. */
  lemma ReplaceTournament(ts: map<string, Tournament>, store: map<string, Match>, g: string, t: Tournament)
    requires StateOk(ts, store)
    requires g in ts && t.shortCode == ts[g].shortCode && t.id == ts[g].id
    requires TournamentOk(t, store)
    ensures StateOk(ts[g := t], store)
  {
    SeparateReplace(ts, g, t);
  }

  /**
   * Creating a tournament: a fresh record in registration, with a code and
   * an id no other guild's tournament has, keeps the state sound.
   */
  lemma CreateKeepsState(ts: map<string, Tournament>, store: map<string, Match>, g: string, t: Tournament)
    requires StateOk(ts, store)
    requires IsShortCode(t.shortCode) && t.status == Registration && t.players == [] && t.matchIds == [] && t.currentRound == 1
    requires forall g2 :: g2 in ts && g2 != g ==> ts[g2].shortCode != t.shortCode && ts[g2].id != t.id
    requires forall id :: id in store ==> store[id].tournamentId != t.id
    ensures StateOk(ts[g := t], store)
  {
  }

  /** The record a result makes of a pending match. */
  function Settle(m: Match, w: EntrantId): Match {
    m.(status := Completed, winner := Some(w))
  }

  /** Recording a result for a pending match, won by one of its entrants, keeps the state sound. */
  lemma SettleKeepsState(ts: map<string, Tournament>, store: map<string, Match>, id: string, w: EntrantId)
    requires StateOk(ts, store)
    requires id in store && store[id].status == Pending && IsEntrant(store[id], w)
    ensures StateOk(ts, store[id := Settle(store[id], w)])
  {
    var s2 := store[id := Settle(store[id], w)];
    forall g | g in ts
      ensures TournamentOk(ts[g], s2)
    {
      TournamentOkEvolve(ts[g], store, s2);
    }
  }

  /** Every record of a fresh round is well formed, of that round, of `t`, and named after `t`'s code and the round. */
  lemma PairingFacts(t: Tournament, round: nat, players: seq<EntrantId>)
    ensures forall m {:trigger m in Pairing(t, round, players)} :: m in Pairing(t, round, players) ==>
              && WellFormed(m) && m.round == round && m.tournamentId == t.id
              && RoundPrefix(t.shortCode, round) <= m.id
  {
    var ms := Pairing(t, round, players);
    forall m {:trigger m in ms} | m in ms
      ensures WellFormed(m) && m.round == round && m.tournamentId == t.id && RoundPrefix(t.shortCode, round) <= m.id
    {
      var k :| 0 <= k < |ms| && ms[k] == m;
    }
  }

  /** An id carrying one round prefix carries no other of the same code length. */
  lemma PrefixExcludes(c1: string, r1: nat, c2: string, r2: nat, id: string)
    requires |c1| == |c2| && (c1 != c2 || r1 != r2)
    requires RoundPrefix(c1, r1) <= id
    ensures !(RoundPrefix(c2, r2) <= id)
  {
    if RoundPrefix(c2, r2) <= id {
      RoundPrefixUnique(c1, r1, c2, r2, id);
    }
  }

  /** The ids of a new round of `ts[g]` are unused by every live tournament. */
  lemma NewRoundIdsUnused(ts: map<string, Tournament>, store: map<string, Match>, g: string, round: nat, players: seq<EntrantId>)
    requires StateOk(ts, store)
    requires g in ts
    requires round > ts[g].currentRound || ts[g].matchIds == []
    ensures forall g2, id :: g2 in ts && id in ts[g2].matchIds ==> id !in MapOf(Pairing(ts[g], round, players))
  {
    var t := ts[g];
    var ms := Pairing(t, round, players);
    var added := MapOf(ms);
    PairingFacts(t, round, players);
    assert forall id :: id in added ==> added[id] in ms && RoundPrefix(t.shortCode, round) <= id;
    forall g2, id | g2 in ts && id in ts[g2].matchIds
      ensures id !in added
    {
      var u := ts[g2];
      assert Listed(u, store, id);
      PrefixExcludes(u.shortCode, store[id].round, t.shortCode, round, id);
    }
  }

  /** A new round of `ts[g]` leaves every other tournament sound. */
  lemma NewRoundKeepsOthers(t: Tournament, u: Tournament, store: map<string, Match>, round: nat, players: seq<EntrantId>)
    requires TournamentOk(u, store) && u.id != t.id
    requires forall id :: id in u.matchIds ==> id !in MapOf(Pairing(t, round, players))
    ensures TournamentOk(u, store + MapOf(Pairing(t, round, players)))
  {
    var ms := Pairing(t, round, players);
    var added := MapOf(ms);
    PairingFacts(t, round, players);
    assert forall id :: id in added ==> added[id] in ms && added[id].tournamentId == t.id;
    TournamentOkEvolve(u, store, store + added);
  }

  /** The ids of a tournament followed by those of a new round are distinct. */
  lemma NewRoundIdsDistinct(t: Tournament, store: map<string, Match>, round: nat, players: seq<EntrantId>)
    requires Distinct(t.matchIds)
    requires forall id :: id in t.matchIds ==> id !in MapOf(Pairing(t, round, players))
    ensures Distinct(t.matchIds + IdsOf(Pairing(t, round, players)))
  {
    var ms := Pairing(t, round, players);
    var all := t.matchIds + IdsOf(ms);
    var n := |t.matchIds|;
    PairingIdsDistinct(t, round, players);
    forall i, j | 0 <= i < j < |all|
      ensures all[i] != all[j]
    {
      if i < n <= j {
        assert all[j] == ms[j - n].id;
        assert ms[j - n] in ms;
        assert all[i] in t.matchIds;
      } else if n <= i {
        assert all[i] == ms[i - n].id;
        assert all[j] == ms[j - n].id;
      }
    }
  }

  /** The new round's records are stored under their ids. */
  lemma NewRoundStored(t: Tournament, store: map<string, Match>, round: nat, players: seq<EntrantId>)
    ensures var ms := Pairing(t, round, players);
            forall i :: 0 <= i < |ms| ==>
              ms[i].id in store + MapOf(ms) && (store + MapOf(ms))[ms[i].id] == ms[i] && ms[i].round == round
  {
    var ms := Pairing(t, round, players);
    PairingFacts(t, round, players);
    PairingIdsDistinct(t, round, players);
    forall i | 0 <= i < |ms|
      ensures ms[i].id in store + MapOf(ms) && (store + MapOf(ms))[ms[i].id] == ms[i] && ms[i].round == round
    {
      MapOfFinds(ms, i);
      assert ms[i] in ms;
    }
  }

  /** A listed id of `t` that the new round does not overwrite stays listed. */
  lemma OldIdStaysListed(t: Tournament, store: map<string, Match>, round: nat, ms: seq<Match>, id: string)
    requires Listed(t, store, id) && id !in MapOf(ms)
    requires round > t.currentRound
    ensures Listed(WithRound(t, round, ms), store + MapOf(ms), id)
  {
    assert (store + MapOf(ms))[id] == store[id];
  }

  /** An id of the new round is listed once the round is under way. */
  lemma NewIdListed(t: Tournament, store: map<string, Match>, round: nat, players: seq<EntrantId>, i: nat)
    requires round >= 1 && i < |Pairing(t, round, players)|
    ensures var ms := Pairing(t, round, players);
            Listed(WithRound(t, round, ms), store + MapOf(ms), ms[i].id)
  {
    var ms := Pairing(t, round, players);
    PairingFacts(t, round, players);
    NewRoundStored(t, store, round, players);
    assert ms[i] in ms;
  }

  lemma NewRoundListed(t: Tournament, store: map<string, Match>, round: nat, players: seq<EntrantId>)
    requires forall id :: id in t.matchIds ==> Listed(t, store, id)
    requires round >= 1 && (round > t.currentRound || t.matchIds == [])
    requires forall id :: id in t.matchIds ==> id !in MapOf(Pairing(t, round, players))
    ensures var ms := Pairing(t, round, players);
            forall id :: id in WithRound(t, round, ms).matchIds ==> Listed(WithRound(t, round, ms), store + MapOf(ms), id)
  {
    var ms := Pairing(t, round, players);
    var t2 := WithRound(t, round, ms);
    forall id | id in t2.matchIds
      ensures Listed(t2, store + MapOf(ms), id)
    {
      if id in t.matchIds {
        OldIdStaysListed(t, store, round, ms, id);
      } else {
        var i :| 0 <= i < |IdsOf(ms)| && IdsOf(ms)[i] == id;
        NewIdListed(t, store, round, players, i);
      }
    }
  }

  lemma NewRoundNoStray(t: Tournament, store: map<string, Match>, round: nat, players: seq<EntrantId>)
    requires TournamentOk(t, store)
    ensures var ms := Pairing(t, round, players);
            forall id :: id in store + MapOf(ms) && (store + MapOf(ms))[id].tournamentId == t.id ==> id in WithRound(t, round, ms).matchIds
  {
    var ms := Pairing(t, round, players);
    var added := MapOf(ms);
    var s2 := store + added;
    forall id | id in s2 && s2[id].tournamentId == t.id
      ensures id in WithRound(t, round, ms).matchIds
    {
      if id in added {
        var i :| 0 <= i < |ms| && ms[i] == added[id];
        assert IdsOf(ms)[i] == id;
      } else {
        assert id in t.matchIds;
      }
    }
  }

  lemma NewRoundCurrent(t: Tournament, store: map<string, Match>, round: nat, players: seq<EntrantId>)
    requires TournamentOk(t, store)
    requires round > t.currentRound || t.matchIds == []
    requires forall id :: id in t.matchIds ==> id !in MapOf(Pairing(t, round, players))
    ensures var ms := Pairing(t, round, players);
            RoundMatches(WithRound(t, round, ms).matchIds, store + MapOf(ms), round) == ms
  {
    var ms := Pairing(t, round, players);
    var s2 := store + MapOf(ms);
    RoundMatchesAppend(t.matchIds, IdsOf(ms), s2, round);
    forall id | id in t.matchIds && id in s2
      ensures s2[id].round != round
    {
      assert Listed(t, store, id);
    }
    RoundMatchesNone(t.matchIds, s2, round);
    NewRoundStored(t, store, round, players);
    RoundMatchesOfRound(ms, s2, round);
  }

  /** Adding a round's records to a sound store keeps it sound. */
  lemma NewRoundStoreOk(store: map<string, Match>, t: Tournament, round: nat, players: seq<EntrantId>)
    requires StoreOk(store)
    ensures StoreOk(store + MapOf(Pairing(t, round, players)))
  {
    PairingFacts(t, round, players);
  }

  /** A new round of guild `g` leaves every other guild's tournament sound against the grown store. */
  lemma NewRoundKeepsRest(ts: map<string, Tournament>, store: map<string, Match>, g: string, round: nat, players: seq<EntrantId>)
    requires StateOk(ts, store) && g in ts
    requires round > ts[g].currentRound || ts[g].matchIds == []
    ensures forall g2 :: g2 in ts && g2 != g ==> TournamentOk(ts[g2], store + MapOf(Pairing(ts[g], round, players)))
  {
    NewRoundIdsUnused(ts, store, g, round, players);
    forall g2 | g2 in ts && g2 != g
      ensures TournamentOk(ts[g2], store + MapOf(Pairing(ts[g], round, players)))
    {
      NewRoundKeepsOthers(ts[g], ts[g2], store, round, players);
    }
  }

  /** The tournament that gets a new round is sound afterwards. */
  lemma NewRoundKeepsOwn(t: Tournament, store: map<string, Match>, round: nat, players: seq<EntrantId>)
    requires TournamentOk(t, store) && t.status != Finished
    requires round > t.currentRound || t.matchIds == []
    requires round >= 1 && |players| >= 2
    requires forall id :: id in t.matchIds ==> id !in MapOf(Pairing(t, round, players))
    ensures var ms := Pairing(t, round, players);
            TournamentOk(WithRound(t, round, ms), store + MapOf(ms))
  {
    PairingShrinks(t, round, players);
    NewRoundIdsDistinct(t, store, round, players);
    NewRoundListed(t, store, round, players);
    NewRoundNoStray(t, store, round, players);
    NewRoundCurrent(t, store, round, players);
  }

  /**
   * Adding a new round to tournament `g` — round 1 at the start, or the
   * round after the current one — keeps the state sound when it is paired
   * from two or more entrants.
   */
  lemma NewRoundKeepsState(ts: map<string, Tournament>, store: map<string, Match>, g: string, round: nat, players: seq<EntrantId>)
    requires StateOk(ts, store)
    requires g in ts && ts[g].status != Finished
    requires round > ts[g].currentRound || ts[g].matchIds == []
    requires round >= 1 && |players| >= 2
    ensures var t := ts[g];
            var ms := Pairing(t, round, players);
            StateOk(ts[g := WithRound(t, round, ms)], store + MapOf(ms))
  {
    var t := ts[g];
    var ms := Pairing(t, round, players);
    var s2 := store + MapOf(ms);
    var t2 := WithRound(t, round, ms);
    NewRoundStoreOk(store, t, round, players);
    SeparateReplace(ts, g, t2);
    NewRoundIdsUnused(ts, store, g, round, players);
    NewRoundKeepsOwn(t, store, round, players);
    NewRoundKeepsRest(ts, store, g, round, players);
    StateOkOfReplace(ts, s2, g, t2);
  }

  /** A state is sound once its store, its replaced tournament and every other tournament are. */
  lemma StateOkOfReplace(ts: map<string, Tournament>, store: map<string, Match>, g: string, t: Tournament)
    requires StoreOk(store) && Separate(ts[g := t]) && TournamentOk(t, store)
    requires forall g2 :: g2 in ts && g2 != g ==> TournamentOk(ts[g2], store)
    ensures StateOk(ts[g := t], store)
  {
  }

  /** Every match read back for a round of a sound store is well formed. */
  lemma RoundWellFormed(ids: seq<string>, store: map<string, Match>, round: int)
    requires StoreOk(store)
    ensures forall m :: m in RoundMatches(ids, store, round) ==> WellFormed(m)
  {
    forall m | m in RoundMatches(ids, store, round)
      ensures WellFormed(m)
    {
      var id :| id in store && store[id] == m;
    }
  }

  /** A sound tournament whose current round is one completed match stays sound once marked finished. */
  lemma FinishedOk(t: Tournament, store: map<string, Match>)
    requires TournamentOk(t, store)
    requires var rm := RoundMatches(t.matchIds, store, t.currentRound); |rm| == 1 && rm[0].status == Completed
    ensures TournamentOk(t.(status := Finished), store)
  {
    assert t.matchIds != [];
  }

  /** A sound state stays sound under another name. */
  lemma SameState(ts: map<string, Tournament>, store: map<string, Match>, r: (map<string, Tournament>, map<string, Match>))
    requires StateOk(ts, store) && r == (ts, store)
    ensures StateOk(r.0, r.1)
  {
  }

  /** What happens after a result never breaks the invariant. */
  lemma ProgressKeepsState(ts: map<string, Tournament>, store: map<string, Match>, g: string)
    requires StateOk(ts, store)
    ensures StateOk(Progress(ts, store, g).0, Progress(ts, store, g).1)
  {
    if g !in ts || Decide(CurrentRound(ts[g], store)).Wait? {
      SameState(ts, store, Progress(ts, store, g));
    } else if Decide(CurrentRound(ts[g], store)).Finish? {
      FinishKeepsState(ts, store, g);
    } else {
      AdvanceKeepsState(ts, store, g);
    }
  }

  /** Finishing a tournament whose final is decided keeps the state sound. */
  lemma FinishKeepsState(ts: map<string, Tournament>, store: map<string, Match>, g: string)
    requires StateOk(ts, store) && g in ts && Decide(CurrentRound(ts[g], store)).Finish?
    ensures StateOk(Progress(ts, store, g).0, Progress(ts, store, g).1)
  {
    var t := ts[g];
    var ts2 := ts[g := t.(status := Finished)];
    assert StateOk(ts2, store) by {
      RoundWellFormed(t.matchIds, store, t.currentRound);
      DecideOfRound(CurrentRound(t, store));
      FinishedOk(t, store);
      ReplaceTournament(ts, store, g, t.(status := Finished));
    }
    SameState(ts2, store, Progress(ts, store, g));
  }

  /** Pairing the winners of a completed round into the next round keeps the state sound. */
  lemma AdvanceKeepsState(ts: map<string, Tournament>, store: map<string, Match>, g: string)
    requires StateOk(ts, store) && g in ts && Decide(CurrentRound(ts[g], store)).Advance?
    ensures StateOk(Progress(ts, store, g).0, Progress(ts, store, g).1)
  {
    var t := ts[g];
    var rm := CurrentRound(t, store);
    var ws := Decide(rm).winners;
    var ms := Pairing(t, t.currentRound + 1, ws);
    var ts2 := ts[g := WithRound(t, t.currentRound + 1, ms)];
    assert t.status != Finished && |ws| >= 2 by {
      assert TournamentOk(t, store);
      RoundWellFormed(t.matchIds, store, t.currentRound);
      DecideOfRound(rm);
    }
    AdvanceOnlyWhenRunning(ts, store, g);
    RunningNextRound(t, ms);
    ProgressOfAdvance(ts, store, g, ws);
    NewRoundKeepsState(ts, store, g, t.currentRound + 1, ws);
    SameState(ts2, store + MapOf(ms), Progress(ts, store, g));
  }

  /** For a running tournament, moving on to the next round is the next round under way. */
  lemma RunningNextRound(t: Tournament, ms: seq<Match>)
    requires t.status == Running
    ensures NextRound(t, ms) == WithRound(t, t.currentRound + 1, ms)
  {
  }

  /** Only a running tournament ever moves on to a next round. */
  lemma AdvanceOnlyWhenRunning(ts: map<string, Tournament>, store: map<string, Match>, g: string)
    requires StateOk(ts, store) && g in ts
    requires Decide(CurrentRound(ts[g], store)).Advance?
    ensures ts[g].status == Running
  {
    var t := ts[g];
    RoundWellFormed(t.matchIds, store, t.currentRound);
    DecideOfRound(CurrentRound(t, store));
    assert t.matchIds != [];
  }

  /**
   * Starting a registering tournament resets its records and round,
   * creates round 1 and marks it running: the result is the tournament
   * with round 1 under way.
   */
  lemma StartShape(ts: map<string, Tournament>, g: string, seeds: seq<EntrantId>)
    requires g in ts && ts[g].matchIds == []
    ensures var t := ts[g];
            var reset := t.(matchIds := [], currentRound := 1);
            var ms := Pairing(reset, 1, seeds);
            var created := ts[g := reset][g := reset.(matchIds := reset.matchIds + IdsOf(ms))];
            && ms == Pairing(t, 1, seeds)
            && created[g := created[g].(status := Running)] == ts[g := WithRound(t, 1, ms)]
  {
    var t := ts[g];
    PairingKeys(t.(matchIds := [], currentRound := 1), t, 1, seeds);
  }

  /** Starting a registering tournament of two or more seeds keeps the state sound. */
  lemma StartKeepsState(ts: map<string, Tournament>, store: map<string, Match>, g: string, seeds: seq<EntrantId>)
    requires StateOk(ts, store) && g in ts && ts[g].status == Registration && |seeds| >= 2
    ensures ts[g].matchIds == []
    ensures var t := ts[g];
            var ms := Pairing(t, 1, seeds);
            StateOk(ts[g := WithRound(t, 1, ms)], store + MapOf(ms))
  {
    var t := ts[g];
    var reset := t.(matchIds := [], currentRound := 1);
    var ms := Pairing(t, 1, seeds);
    var ts1 := ts[g := reset];
    assert t.matchIds == [] && StateOk(ts1, store) by {
      assert TournamentOk(t, store);
      ReplaceTournament(ts, store, g, reset);
    }
    assert Pairing(reset, 1, seeds) == ms by {
      PairingKeys(reset, t, 1, seeds);
    }
    assert ts1[g := WithRound(reset, 1, ms)] == ts[g := WithRound(t, 1, ms)] by {
      assert WithRound(reset, 1, ms) == WithRound(t, 1, ms);
    }
    NewRoundKeepsState(ts1, store, g, 1, seeds);
  }

  /** While the current round is empty or has a pending match, nothing changes. */
  lemma ProgressWaits(ts: map<string, Tournament>, store: map<string, Match>, g: string)
    requires g in ts
    requires var rm := CurrentRound(ts[g], store); rm == [] || !AllCompleted(rm)
    ensures Progress(ts, store, g) == (ts, store)
  {
  }

  /** A completed round with at most one winner finishes the tournament. */
  lemma ProgressFinishes(ts: map<string, Tournament>, store: map<string, Match>, g: string)
    requires g in ts
    requires var rm := CurrentRound(ts[g], store); rm != [] && AllCompleted(rm) && |Winners(rm)| <= 1
    ensures Progress(ts, store, g) == (ts[g := ts[g].(status := Finished)], store)
    ensures Decide(CurrentRound(ts[g], store)) == Finish(AnnouncedChampion(CurrentRound(ts[g], store)))
  {
  }

  /**
   * A completed round with two or more winners: the round counter moves
   * on, and the next round's records are created from the winners.
   */
  lemma ProgressAdvances(ts: map<string, Tournament>, store: map<string, Match>, g: string)
    requires g in ts
    requires var rm := CurrentRound(ts[g], store); rm != [] && AllCompleted(rm) && |Winners(rm)| > 1
    ensures var t := ts[g];
            var next := t.(currentRound := t.currentRound + 1);
            var ms := Pairing(next, next.currentRound, Winners(CurrentRound(t, store)));
            Progress(ts, store, g) == (ts[g := next][g := next.(matchIds := next.matchIds + IdsOf(ms))], store + MapOf(ms))
  {
    var t := ts[g];
    var ws := Winners(CurrentRound(t, store));
    assert Decide(CurrentRound(t, store)) == Advance(ws);
    var next := t.(currentRound := t.currentRound + 1);
    var ms := Pairing(t, t.currentRound + 1, ws);
    PairingKeys(next, t, next.currentRound, ws);
    assert next.(matchIds := next.matchIds + IdsOf(ms)) == NextRound(t, ms);
    assert ts[g := next][g := NextRound(t, ms)] == ts[g := NextRound(t, ms)];
    ProgressOfAdvance(ts, store, g, ws);
  }
}
