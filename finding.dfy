/**
 * `/create-tournament` as index.js writes it (index.js:325-371) checks only
 * the best-of before registering the tournament, so a guild may draw the
 * short code another guild's live tournament already uses. Match ids are
 * built from the short code alone (index.js:1147), so the second guild's
 * first round overwrites the first guild's record in the shared match
 * store. `Commands.Bot.CreateTournament` is the corrected operation: it
 * rejects a code in use.
 */
module Finding {
  import opened Wrappers
  import opened Ids
  import opened Records
  import opened Engine
  import opened Invariant
  import opened Checks
  import opened Commands

  /** The tournaments after `/create-tournament` as written: only the best-of is checked. */
  function CreateAsWritten(ts: map<string, Tournament>, guild: string, name: string, bestOf: int, draw: int, tid: string)
    : (r: (Outcome, map<string, Tournament>))
    requires 1000 <= draw <= 9999
    ensures ValidBestOf(bestOf) ==> r.0 == Ok && guild in r.1 && r.1[guild].shortCode == ShortCode(draw)
    ensures !ValidBestOf(bestOf) ==> r == (Rejected(BadBestOf), ts)
    ensures forall g :: g in ts && g != guild ==> g in r.1 && r.1[g] == ts[g]
  {
    if !ValidBestOf(bestOf) then (Rejected(BadBestOf), ts)
    else (Ok, ts[guild := NewTournament(guild, name, bestOf, ShortCode(draw), tid)])
  }

  /** Guild A's tournament, in registration with two players, its code drawn from `draw`. */
  function GuildA(draw: int): Tournament
    requires 1000 <= draw <= 9999
  {
    NewTournament("A", "Cup", 1, ShortCode(draw), "A-1").(players := ["a1", "a2"])
  }

  lemma GuildAAlone(draw: int)
    requires 1000 <= draw <= 9999
    ensures StateOk(map["A" := GuildA(draw)], map[])
  {
    var t := GuildA(draw);
    assert TournamentOk(t, map[]) by {
      assert t.players[0] != t.players[1];
    }
  }

  /** Two entrants make one match, numbered 1. */
  lemma PairingOfTwo(t: Tournament, round: nat, p1: EntrantId, p2: EntrantId)
    ensures Pairing(t, round, [p1, p2]) == [NewMatch(t, round, 1, p1, Some(p2))]
  {
    assert PairMatch(t, round, [p1, p2], 0) == NewMatch(t, round, 1, p1, Some(p2));
  }

  /** One match is stored under its own id. */
  lemma SingleStore(m: Match)
    ensures MapOf([m]) == map[m.id := m]
  {
    assert [m][..0] == [];
  }

  /** Guild A alone, started with its two players, is a sound state. */
  lemma StartedA(draw: int)
    requires 1000 <= draw <= 9999
    ensures var tA := GuildA(draw);
            var msA := Pairing(tA, 1, tA.players);
            StateOk(map["A" := WithRound(tA, 1, msA)], MapOf(msA))
  {
    var tA := GuildA(draw);
    var msA := Pairing(tA, 1, tA.players);
    var ts0 := map["A" := tA];
    GuildAAlone(draw);
    StartKeepsState(ts0, map[], "A", tA.players);
    assert ts0["A" := WithRound(tA, 1, msA)] == map["A" := WithRound(tA, 1, msA)];
    assert map[] + MapOf(msA) == MapOf(msA);
  }

  /**
   * With A started on match `mA`, guild B creates a tournament on the same
   * draw and starts it with two players: B's first record is stored under
   * `mA`'s id, which A still lists, and the state is no longer sound.
   */
  lemma SecondStart(draw: int, tA: Tournament, mA: Match, ts1: map<string, Tournament>, store1: map<string, Match>)
    requires 1000 <= draw <= 9999
    requires tA == GuildA(draw) && mA == NewMatch(tA, 1, 1, "a1", Some("a2"))
    requires ts1 == map["A" := WithRound(tA, 1, [mA])] && store1 == map[mA.id := mA]
    ensures var created := CreateAsWritten(ts1, "B", "Cup", 1, draw, "B-1");
            var tB := created.1["B"].(players := ["b1", "b2"]);
            var msB := Pairing(tB, 1, tB.players);
            var ts2 := created.1["B" := WithRound(tB, 1, msB)];
            var store2 := store1 + MapOf(msB);
            && created.0 == Ok && !CodeFree(ts1, "B", ShortCode(draw))
            && mA.id in ts2["A"].matchIds && mA.id in store2
            && store2[mA.id].tournamentId == "B-1" != ts2["A"].id
            && !StateOk(ts2, store2)
  {
    var created := CreateAsWritten(ts1, "B", "Cup", 1, draw, "B-1");
    var tB := created.1["B"].(players := ["b1", "b2"]);
    var msB := Pairing(tB, 1, tB.players);
    var mB := NewMatch(tB, 1, 1, "b1", Some("b2"));
    assert msB == [mB] by {
      PairingOfTwo(tB, 1, "b1", "b2");
    }
    var ts2 := created.1["B" := WithRound(tB, 1, msB)];
    var store2 := store1 + MapOf(msB);
    var id := mA.id;
    assert id == mB.id by {
      assert tB.shortCode == ShortCode(draw);
    }
    assert store2 == map[id := mB] by {
      SingleStore(mB);
    }
    assert ts2["A"].matchIds == [id] by {
      assert ts2["A"] == ts1["A"];
      assert IdsOf([mA]) == [id];
    }
    assert !Listed(ts2["A"], store2, id);
    assert !TournamentOk(ts2["A"], store2);
  }

  /**
   * A sound state in which guild A's tournament is under way; guild B then
   * creates a tournament and the unchecked create accepts B's draw of the
   * same code; once B starts with two players, B's first record is stored
   * under the id A lists for its own first match, so A's listed record
   * belongs to B and the state is no longer sound.
   */
  lemma CollisionOverwrites(draw: int)
    requires 1000 <= draw <= 9999
    ensures var tA := GuildA(draw);
            var msA := Pairing(tA, 1, tA.players);
            var ts1 := map["A" := WithRound(tA, 1, msA)];
            var store1 := MapOf(msA);
            var created := CreateAsWritten(ts1, "B", "Cup", 1, draw, "B-1");
            var tB := created.1["B"].(players := ["b1", "b2"]);
            var msB := Pairing(tB, 1, tB.players);
            var ts2 := created.1["B" := WithRound(tB, 1, msB)];
            var store2 := store1 + MapOf(msB);
            var id := msA[0].id;
            && StateOk(ts1, store1)
            && created.0 == Ok && !CodeFree(ts1, "B", ShortCode(draw))
            && id in ts2["A"].matchIds && id in store2
            && store2[id].tournamentId == "B-1" != ts2["A"].id
            && !StateOk(ts2, store2)
  {
    var tA := GuildA(draw);
    var msA := Pairing(tA, 1, tA.players);
    var mA := NewMatch(tA, 1, 1, "a1", Some("a2"));
    assert msA == [mA] by {
      PairingOfTwo(tA, 1, "a1", "a2");
    }
    SingleStore(mA);
    StartedA(draw);
    SecondStart(draw, tA, mA, map["A" := WithRound(tA, 1, msA)], MapOf(msA));
  }
}
