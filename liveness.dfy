/**
 * Two further promises of the engine of index.js, kept by every command of
 * the bot: a running tournament always has a pending match in its current
 * round; and a result once recorded for a match that a tournament lists
 * is never changed while that tournament is in place.
 */
module Liveness {
  import opened Wrappers
  import opened Ids
  import opened Records
  import opened Engine
  import opened Invariant

  /** A running tournament's current round has a pending match. */
  ghost predicate RoundOpen(t: Tournament, store: map<string, Match>) {
    t.status == Running ==>
      exists i :: 0 <= i < |CurrentRound(t, store)| && CurrentRound(t, store)[i].status == Pending
  }

  /** Every tournament's current round is open. */
  ghost predicate Open(ts: map<string, Tournament>, store: map<string, Match>) {
    forall g :: g in ts ==> RoundOpen(ts[g], store)
  }

  /** Every tournament but guild `g0`'s has an open current round. */
  ghost predicate OpenBut(ts: map<string, Tournament>, store: map<string, Match>, g0: string) {
    forall g :: g in ts && g != g0 ==> RoundOpen(ts[g], store)
  }

  /** Each tournament is filed under its own guild, and so is every record of it. */
  ghost predicate Homed(ts: map<string, Tournament>, store: map<string, Match>) {
    && (forall g :: g in ts ==> ts[g].guildId == g)
    && (forall g, id :: g in ts && id in store && store[id].tournamentId == ts[g].id ==> store[id].guildId == g)
  }

  /**
   * From the first state to the second, every completed record listed by a
   * tournament that is still in place (same guild, same tournament id) is
   * unchanged.
   */
  ghost predicate ResultsKept(ts1: map<string, Tournament>, s1: map<string, Match>,
                              ts2: map<string, Tournament>, s2: map<string, Match>) {
    forall g, id :: && g in ts1 && g in ts2 && ts2[g].id == ts1[g].id
                    && id in ts1[g].matchIds && id in s1 && s1[id].status == Completed
                    ==> id in s2 && s2[id] == s1[id]
  }

  // ---------- Frames ----------

  /** The records a round reads back from ids whose records are unchanged are unchanged. */
  lemma {:induction false} RoundMatchesFrame(ids: seq<string>, s1: map<string, Match>, s2: map<string, Match>, round: int)
    requires forall id :: id in ids ==> id in s1 && id in s2 && s2[id] == s1[id]
    ensures RoundMatches(ids, s2, round) == RoundMatches(ids, s1, round)
  {
    if ids != [] {
      RoundMatchesFrame(ids[..|ids| - 1], s1, s2, round);
    }
  }

  /** A tournament none of whose listed records changes keeps its round open. */
  lemma OpenFrame(t: Tournament, s1: map<string, Match>, s2: map<string, Match>)
    requires RoundOpen(t, s1)
    requires forall id :: id in t.matchIds ==> id in s1 && id in s2 && s2[id] == s1[id]
    ensures RoundOpen(t, s2)
  {
    RoundMatchesFrame(t.matchIds, s1, s2, t.currentRound);
    if t.status == Running {
      var i :| 0 <= i < |CurrentRound(t, s1)| && CurrentRound(t, s1)[i].status == Pending;
      assert CurrentRound(t, s2)[i].status == Pending;
    }
  }

  /** Results kept over a step that changes only records, then over a second step, are kept over both. */
  lemma ResultsKeptChain(ts: map<string, Tournament>, s1: map<string, Match>, s2: map<string, Match>,
                         ts3: map<string, Tournament>, s3: map<string, Match>)
    requires ResultsKept(ts, s1, ts, s2) && ResultsKept(ts, s2, ts3, s3)
    ensures ResultsKept(ts, s1, ts3, s3)
  {
    forall g, id | && g in ts && g in ts3 && ts3[g].id == ts[g].id
                   && id in ts[g].matchIds && id in s1 && s1[id].status == Completed
      ensures id in s3 && s3[id] == s1[id]
    {
      assert id in s2 && s2[id] == s1[id];
    }
  }

  // ---------- New rounds ----------

  /** A round paired from two or more entrants has a pending match: its first. */
  lemma PairingPending(t: Tournament, round: nat, players: seq<EntrantId>)
    requires |players| >= 2
    ensures |Pairing(t, round, players)| >= 1 && Pairing(t, round, players)[0].status == Pending
  {
    assert Pairing(t, round, players)[0] == PairMatch(t, round, players, 0);
  }

  /** Every record of a fresh round is the tournament's and its guild's. */
  lemma PairingGuild(t: Tournament, round: nat, players: seq<EntrantId>)
    ensures forall m {:trigger m in Pairing(t, round, players)} :: m in Pairing(t, round, players) ==>
              m.guildId == t.guildId && m.tournamentId == t.id
  {
    var ms := Pairing(t, round, players);
    forall m {:trigger m in ms} | m in ms
      ensures m.guildId == t.guildId && m.tournamentId == t.id
    {
      var k :| 0 <= k < |ms| && ms[k] == m;
    }
  }

  /** After a new round of guild `g`, every tournament and record is still filed under its guild. */
  lemma NewRoundHomed(ts: map<string, Tournament>, store: map<string, Match>, g: string, round: nat, players: seq<EntrantId>)
    requires Separate(ts) && Homed(ts, store) && g in ts
    ensures var t := ts[g];
            var ms := Pairing(t, round, players);
            Homed(ts[g := WithRound(t, round, ms)], store + MapOf(ms))
  {
    var t := ts[g];
    var ms := Pairing(t, round, players);
    var ts2 := ts[g := WithRound(t, round, ms)];
    var added := MapOf(ms);
    var s2 := store + added;
    PairingGuild(t, round, players);
    forall g2, id | g2 in ts2 && id in s2 && s2[id].tournamentId == ts2[g2].id
      ensures s2[id].guildId == g2
    {
      if id in added {
        assert added[id] in ms;
        assert ts2[g2].id == t.id;
      } else {
        assert s2[id] == store[id];
      }
    }
  }

  /**
   * A new round of guild `g` from two or more entrants opens `g`'s current
   * round and leaves every other tournament's round as it was.
   */
  lemma NewRoundOpen(ts: map<string, Tournament>, store: map<string, Match>, g: string, round: nat, players: seq<EntrantId>)
    requires StateOk(ts, store) && OpenBut(ts, store, g)
    requires g in ts && (round > ts[g].currentRound || ts[g].matchIds == [])
    requires |players| >= 2
    ensures var t := ts[g];
            var ms := Pairing(t, round, players);
            Open(ts[g := WithRound(t, round, ms)], store + MapOf(ms))
  {
    var t := ts[g];
    var ms := Pairing(t, round, players);
    var t2 := WithRound(t, round, ms);
    var ts2 := ts[g := t2];
    var s2 := store + MapOf(ms);
    NewRoundIdsUnused(ts, store, g, round, players);
    forall g2 | g2 in ts2
      ensures RoundOpen(ts2[g2], s2)
    {
      if g2 == g {
        TournamentOfState(ts, store, g);
        NewRoundCurrent(t, store, round, players);
        PairingPending(t, round, players);
        assert CurrentRound(t2, s2)[0].status == Pending;
      } else {
        var u := ts[g2];
        forall id | id in u.matchIds
          ensures id in store && id in s2 && s2[id] == store[id]
        {
          TournamentOfState(ts, store, g2);
          assert Listed(u, store, id);
        }
        OpenFrame(u, store, s2);
      }
    }
  }

  /** A new round of guild `g` overwrites no record any tournament lists. */
  lemma NewRoundKeepsResults(ts: map<string, Tournament>, store: map<string, Match>, g: string, round: nat, players: seq<EntrantId>)
    requires StateOk(ts, store)
    requires g in ts && (round > ts[g].currentRound || ts[g].matchIds == [])
    ensures var t := ts[g];
            var ms := Pairing(t, round, players);
            ResultsKept(ts, store, ts[g := WithRound(t, round, ms)], store + MapOf(ms))
  {
    NewRoundIdsUnused(ts, store, g, round, players);
  }

  /** Starting guild `g`'s registering tournament on two or more seeds keeps every round open and every result. */
  lemma StartKeepsLive(ts: map<string, Tournament>, store: map<string, Match>, g: string, seeds: seq<EntrantId>)
    requires StateOk(ts, store) && Homed(ts, store) && Open(ts, store)
    requires g in ts && ts[g].status == Registration && |seeds| >= 2
    ensures var t := ts[g];
            var ms := Pairing(t, 1, seeds);
            var ts2 := ts[g := WithRound(t, 1, ms)];
            var s2 := store + MapOf(ms);
            Homed(ts2, s2) && Open(ts2, s2) && ResultsKept(ts, store, ts2, s2)
  {
    TournamentOfState(ts, store, g);
    NewRoundKeepsLive(ts, store, g, 1, seeds);
  }

  /**
   * A new round of guild `g` from two or more entrants — round 1 at the
   * start, or the round after the current one — keeps every tournament
   * homed, opens `g`'s round, leaves the other rounds open and overwrites
   * no listed record.
   */
  lemma NewRoundKeepsLive(ts: map<string, Tournament>, store: map<string, Match>, g: string, round: nat, players: seq<EntrantId>)
    requires StateOk(ts, store) && Homed(ts, store) && OpenBut(ts, store, g)
    requires g in ts && (round > ts[g].currentRound || ts[g].matchIds == [])
    requires |players| >= 2
    ensures var t := ts[g];
            var ms := Pairing(t, round, players);
            var ts2 := ts[g := WithRound(t, round, ms)];
            var s2 := store + MapOf(ms);
            Homed(ts2, s2) && Open(ts2, s2) && ResultsKept(ts, store, ts2, s2)
  {
    NewRoundHomed(ts, store, g, round, players);
    NewRoundOpen(ts, store, g, round, players);
    NewRoundKeepsResults(ts, store, g, round, players);
  }

  // ---------- What happens after a result ----------

  /** A running tournament whose round makes the engine wait has a pending match. */
  lemma WaitOpen(t: Tournament, store: map<string, Match>)
    requires TournamentOk(t, store) && Decide(CurrentRound(t, store)).Wait?
    ensures RoundOpen(t, store)
  {
    var rm := CurrentRound(t, store);
    if t.status == Running {
      assert |rm| >= 1;
      var i :| 0 <= i < |rm| && rm[i].status != Completed;
    }
  }

  /**
   * Once every other tournament's round is open, the engine's step for
   * guild `g` leaves every round open and every tournament filed under its
   * guild, and changes no recorded result.
   */
  lemma ProgressKeepsLive(ts: map<string, Tournament>, store: map<string, Match>, g: string)
    requires StateOk(ts, store) && Homed(ts, store) && OpenBut(ts, store, g)
    ensures var r := Progress(ts, store, g);
            Homed(r.0, r.1) && Open(r.0, r.1) && ResultsKept(ts, store, r.0, r.1)
  {
    if g in ts {
      var step := Decide(CurrentRound(ts[g], store));
      if step.Wait? {
        WaitKeepsLive(ts, store, g);
      } else if step.Finish? {
        FinishKeepsLive(ts, store, g);
      } else {
        AdvanceKeepsLive(ts, store, g);
      }
    }
  }

  /** While guild `g`'s round makes the engine wait, nothing changes and that round is open. */
  lemma WaitKeepsLive(ts: map<string, Tournament>, store: map<string, Match>, g: string)
    requires StateOk(ts, store) && Homed(ts, store) && OpenBut(ts, store, g)
    requires g in ts && Decide(CurrentRound(ts[g], store)).Wait?
    ensures var r := Progress(ts, store, g);
            Homed(r.0, r.1) && Open(r.0, r.1) && ResultsKept(ts, store, r.0, r.1)
  {
    TournamentOfState(ts, store, g);
    WaitOpen(ts[g], store);
    ProgressWaits(ts, store, g);
  }

  /** Finishing guild `g`'s tournament changes no record and leaves no running tournament without a pending match. */
  lemma FinishKeepsLive(ts: map<string, Tournament>, store: map<string, Match>, g: string)
    requires Homed(ts, store) && OpenBut(ts, store, g)
    requires g in ts && Decide(CurrentRound(ts[g], store)).Finish?
    ensures var r := Progress(ts, store, g);
            Homed(r.0, r.1) && Open(r.0, r.1) && ResultsKept(ts, store, r.0, r.1)
  {
    assert Progress(ts, store, g) == (ts[g := ts[g].(status := Finished)], store);
  }

  /** The engine's step for guild `g`, taken as `r`, keeps the whole invariant of the bot and every recorded result. */
  lemma ProgressKeepsBot(ts: map<string, Tournament>, store: map<string, Match>, g: string,
                         ts2: map<string, Tournament>, store2: map<string, Match>)
    requires StateOk(ts, store) && Homed(ts, store) && OpenBut(ts, store, g)
    requires (ts2, store2) == Progress(ts, store, g)
    ensures StateOk(ts2, store2) && Homed(ts2, store2) && Open(ts2, store2) && ResultsKept(ts, store, ts2, store2)
  {
    ProgressKeepsState(ts, store, g);
    ProgressKeepsLive(ts, store, g);
  }

  /** Moving guild `g` on to its next round keeps every round open, every tournament homed and every result. */
  lemma AdvanceKeepsLive(ts: map<string, Tournament>, store: map<string, Match>, g: string)
    requires StateOk(ts, store) && Homed(ts, store) && OpenBut(ts, store, g)
    requires g in ts && Decide(CurrentRound(ts[g], store)).Advance?
    ensures var r := Progress(ts, store, g);
            Homed(r.0, r.1) && Open(r.0, r.1) && ResultsKept(ts, store, r.0, r.1)
  {
    var t := ts[g];
    var ws := Decide(CurrentRound(t, store)).winners;
    var ms := Pairing(t, t.currentRound + 1, ws);
    AdvanceOnlyWhenRunning(ts, store, g);
    RunningNextRound(t, ms);
    ProgressOfAdvance(ts, store, g, ws);
    NewRoundKeepsLive(ts, store, g, t.currentRound + 1, ws);
  }

  /**
   * Recording a result for a pending match keeps every tournament homed,
   * changes no completed record, and leaves open every round except
   * perhaps that of the match's own guild.
   */
  lemma SettleKeepsLive(ts: map<string, Tournament>, store: map<string, Match>, id: string, w: EntrantId)
    requires StateOk(ts, store) && Homed(ts, store) && Open(ts, store)
    requires id in store && store[id].status == Pending
    ensures var s2 := store[id := Settle(store[id], w)];
            Homed(ts, s2) && OpenBut(ts, s2, store[id].guildId) && ResultsKept(ts, store, ts, s2)
  {
    var s2 := store[id := Settle(store[id], w)];
    forall g | g in ts && g != store[id].guildId
      ensures RoundOpen(ts[g], s2)
    {
      var u := ts[g];
      TournamentOfState(ts, store, g);
      forall id2 | id2 in u.matchIds
        ensures id2 in store && id2 in s2 && s2[id2] == store[id2]
      {
        assert Listed(u, store, id2);
      }
      OpenFrame(u, store, s2);
    }
  }

  // ---------- Commands that leave the rounds alone ----------

  /** A fresh registering tournament, filed under its guild and owning no record, keeps the bot homed and open. */
  lemma CreateKeepsLive(ts: map<string, Tournament>, store: map<string, Match>, g: string, t: Tournament)
    requires Homed(ts, store) && Open(ts, store)
    requires t.guildId == g && t.status == Registration
    requires forall id :: id in store ==> store[id].tournamentId != t.id
    ensures Homed(ts[g := t], store) && Open(ts[g := t], store)
  {
  }

  /** Replacing a tournament by one with the same id, guild, status, round and list keeps the bot homed and open. */
  lemma ReplaceKeepsLive(ts: map<string, Tournament>, store: map<string, Match>, g: string, t: Tournament)
    requires Homed(ts, store) && Open(ts, store) && g in ts
    requires t.id == ts[g].id && t.guildId == ts[g].guildId && t.status == ts[g].status
    requires t.currentRound == ts[g].currentRound && t.matchIds == ts[g].matchIds
    ensures Homed(ts[g := t], store) && Open(ts[g := t], store)
  {
    assert CurrentRound(t, store) == CurrentRound(ts[g], store);
  }
}
