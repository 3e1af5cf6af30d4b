/**
 * The part of bracket-image.js that derives data rather than pixels: the
 * tournament's matches grouped by round, the rounds in ascending order,
 * the final-results panel (champion, runner-up, third places) and the
 * label shown for an entrant. Drawing is left out.
 */
module BracketImage {
  import opened Wrappers
  import opened Ids
  import opened Records

  // ---------- Collecting and grouping ----------

  /** The records of tournament `tid`, in enumeration order. */
  function OfTournament(vals: seq<Match>, tid: string): (r: seq<Match>)
    ensures |r| <= |vals|
    ensures forall m {:trigger m in r} {:trigger m in vals} :: m in r <==> m in vals && m.tournamentId == tid
  {
    if vals == [] then []
    else
      var rest := OfTournament(vals[..|vals| - 1], tid);
      var last := vals[|vals| - 1];
      if last.tournamentId == tid then rest + [last] else rest
  }

  /** The records of round `round`, in order. */
  function InRound(ms: seq<Match>, round: int): (r: seq<Match>)
    ensures |r| <= |ms|
  {
    if ms == [] then []
    else
      var rest := InRound(ms[..|ms| - 1], round);
      var last := ms[|ms| - 1];
      if last.round == round then rest + [last] else rest
  }

  /** The records of a round are exactly the records of `ms` with that round number. */
  lemma {:induction false} InRoundMembers(ms: seq<Match>, round: int)
    ensures forall m {:trigger m in InRound(ms, round)} {:trigger m in ms} :: m in InRound(ms, round) <==> m in ms && m.round == round
  {
    if ms != [] {
      var pre := ms[..|ms| - 1];
      InRoundMembers(pre, round);
      assert forall m :: m in ms <==> m in pre || m == ms[|ms| - 1];
    }
  }

  /** The round numbers that occur among `ms`. */
  function RoundSet(ms: seq<Match>): set<int> {
    set m {:trigger m in ms} | m in ms :: m.round
  }

  /**
   * The records of the tournament (bracket-image.js:15-20), collected
   * while enumerating the match store's values.
   */
  method CollectMatches(vals: seq<Match>, tid: string) returns (all: seq<Match>)
    ensures all == OfTournament(vals, tid)
  {
    all := [];
    var i := 0;
    while i < |vals|
      invariant 0 <= i <= |vals|
      invariant all == OfTournament(vals[..i], tid)
    {
      assert vals[..i + 1][..i] == vals[..i];
      if vals[i].tournamentId == tid {
        all := all + [vals[i]];
      }
      i := i + 1;
    }
    assert vals[..i] == vals;
  }

  /** `roundsMap` holds, for each round number occurring in `ms`, that round's records in order. */
  predicate Grouped(roundsMap: map<int, seq<Match>>, ms: seq<Match>) {
    && roundsMap.Keys == RoundSet(ms)
    && forall r :: r in roundsMap ==> roundsMap[r] == InRound(ms, r) && roundsMap[r] != []
  }

  /** The records grouped under round `r`, or none when the round does not occur. */
  function Get(roundsMap: map<int, seq<Match>>, r: int): seq<Match> {
    if r in roundsMap then roundsMap[r] else []
  }

  /** A round number that does not occur has no records. */
  lemma {:induction false} InRoundAbsent(ms: seq<Match>, r: int)
    requires r !in RoundSet(ms)
    ensures InRound(ms, r) == []
  {
    if ms != [] {
      var pre := ms[..|ms| - 1];
      assert RoundSet(pre) <= RoundSet(ms) by {
        forall x | x in RoundSet(pre)
          ensures x in RoundSet(ms)
        {
          var m :| m in pre && m.round == x;
          assert m in ms;
        }
      }
      InRoundAbsent(pre, r);
      assert ms[|ms| - 1] in ms;
    }
  }

  /** Appending a record to its round's list keeps the grouping exact. */
  lemma GroupStep(roundsMap: map<int, seq<Match>>, ms: seq<Match>, m: Match)
    requires Grouped(roundsMap, ms)
    ensures Grouped(roundsMap[m.round := Get(roundsMap, m.round) + [m]], ms + [m])
  {
    var ms' := ms + [m];
    assert ms'[..|ms'| - 1] == ms;
    assert RoundSet(ms') == RoundSet(ms) + {m.round} by {
      assert forall x :: x in ms' <==> x in ms || x == m;
      assert m in ms';
    }
    if m.round !in roundsMap {
      InRoundAbsent(ms, m.round);
    }
  }

  /** One step of the grouping loop keeps the grouping exact and the key list in step with it. */
  lemma GroupKeysStep(roundsMap: map<int, seq<Match>>, keys: seq<int>, ms: seq<Match>, m: Match)
    requires Grouped(roundsMap, ms)
    requires Distinct(keys) && forall r :: r in keys <==> r in roundsMap
    ensures var after := roundsMap[m.round := Get(roundsMap, m.round) + [m]];
            var keys' := if m.round in roundsMap then keys else keys + [m.round];
            && Grouped(after, ms + [m])
            && Distinct(keys') && forall r :: r in keys' <==> r in after
  {
    GroupStep(roundsMap, ms, m);
  }

  /** The grouping the loop below builds from `ms`, one record at a time. */
  function GroupOf(ms: seq<Match>): map<int, seq<Match>> {
    if ms == [] then map[]
    else
      var g := GroupOf(ms[..|ms| - 1]);
      var m := ms[|ms| - 1];
      g[m.round := Get(g, m.round) + [m]]
  }

  /** The round numbers of `ms` in first-seen order. */
  function KeysOf(ms: seq<Match>): seq<int> {
    if ms == [] then []
    else
      var k := KeysOf(ms[..|ms| - 1]);
      var m := ms[|ms| - 1];
      if m.round in GroupOf(ms[..|ms| - 1]) then k else k + [m.round]
  }

  /** The grouping is exact and its key list names each round once. */
  lemma {:induction false} GroupOfGrouped(ms: seq<Match>)
    ensures Grouped(GroupOf(ms), ms)
    ensures Distinct(KeysOf(ms)) && forall r :: r in KeysOf(ms) <==> r in GroupOf(ms)
  {
    if ms != [] {
      var pre := ms[..|ms| - 1];
      GroupOfGrouped(pre);
      GroupKeysStep(GroupOf(pre), KeysOf(pre), pre, ms[|ms| - 1]);
      assert pre + [ms[|ms| - 1]] == ms;
    }
  }

  /**
   * Groups the records by round (bracket-image.js:36-41): each round
   * number maps to its records in collection order; `keys` lists the round
   * numbers in first-seen order, as the JavaScript Map keeps them.
   */
  method GroupByRound(all: seq<Match>) returns (roundsMap: map<int, seq<Match>>, keys: seq<int>)
    ensures Grouped(roundsMap, all)
    ensures Distinct(keys) && forall r :: r in keys <==> r in roundsMap
  {
    roundsMap := map[];
    keys := [];
    var i := 0;
    while i < |all|
      invariant 0 <= i <= |all|
      invariant roundsMap == GroupOf(all[..i]) && keys == KeysOf(all[..i])
    {
      var m := all[i];
      assert all[..i + 1][..i] == all[..i];
      ghost var before := roundsMap;
      if m.round !in roundsMap {
        roundsMap := roundsMap[m.round := []];
        keys := keys + [m.round];
      }
      roundsMap := roundsMap[m.round := roundsMap[m.round] + [m]];
      assert roundsMap == before[m.round := Get(before, m.round) + [m]];
      i := i + 1;
    }
    assert all[..i] == all;
    GroupOfGrouped(all);
  }

  // ---------- Sorting the rounds ----------

  predicate Ascending(s: seq<int>) {
    forall i, j :: 0 <= i < j < |s| ==> s[i] <= s[j]
  }

  /** Inserts `x` into an ascending list. */
  function Insert(x: int, s: seq<int>): (r: seq<int>)
    requires Ascending(s)
    ensures Ascending(r) && multiset(r) == multiset(s) + multiset{x}
  {
    if s == [] || x <= s[0] then [x] + s
    else
      var tail := Insert(x, s[1..]);
      assert s == [s[0]] + s[1..];
      InsertBelow(s[0], x, s[1..], tail);
      [s[0]] + tail
  }

  /** A head no larger than anything in an ascending tail keeps the list ascending. */
  lemma InsertBelow(h: int, x: int, s: seq<int>, tail: seq<int>)
    requires Ascending([h] + s) && h < x
    requires Ascending(tail) && multiset(tail) == multiset(s) + multiset{x}
    ensures Ascending([h] + tail)
  {
    forall y | y in tail
      ensures h <= y
    {
      assert y in multiset(tail);
      if y != x {
        assert y in multiset(s);
        var k :| 0 <= k < |s| && s[k] == y;
        assert ([h] + s)[0] == h && ([h] + s)[k + 1] == y;
      }
    }
    var r := [h] + tail;
    forall i, j | 0 <= i < j < |r|
      ensures r[i] <= r[j]
    {
      if i > 0 {
        assert r[i] == tail[i - 1] && r[j] == tail[j - 1];
      } else {
        assert r[j] == tail[j - 1] && r[j] in tail;
      }
    }
  }

  /** The numeric ascending sort of the round numbers (bracket-image.js:43): ascending, the same numbers. */
  function SortAscending(s: seq<int>): (r: seq<int>)
    ensures Ascending(r) && multiset(r) == multiset(s)
  {
    if s == [] then []
    else
      assert s == [s[0]] + s[1..];
      Insert(s[0], SortAscending(s[1..]))
  }

  /** Two equal entries at different positions make a count of at least two. */
  lemma TwiceCounted(r: seq<int>, i: nat, j: nat)
    requires i < j < |r| && r[i] == r[j]
    ensures multiset(r)[r[i]] >= 2
  {
    assert r == r[..j] + r[j..];
    assert r[..j][i] == r[i] && r[j..][0] == r[j];
    assert multiset(r) == multiset(r[..j]) + multiset(r[j..]);
    assert r[i] in multiset(r[..j]) && r[j] in multiset(r[j..]);
  }

  /** In a list without repeats every element occurs once. */
  lemma {:induction false} DistinctMultiset(s: seq<int>)
    requires Distinct(s)
    ensures forall x :: multiset(s)[x] <= 1
  {
    if s != [] {
      assert s == [s[0]] + s[1..];
      DistinctMultiset(s[1..]);
      assert s[0] !in s[1..];
    }
  }

  /** Sorting distinct round numbers lists each of them once, strictly ascending. */
  lemma SortedRounds(keys: seq<int>)
    requires Distinct(keys)
    ensures var r := SortAscending(keys);
            && (forall x :: x in r <==> x in keys)
            && forall i, j :: 0 <= i < j < |r| ==> r[i] < r[j]
  {
    var r := SortAscending(keys);
    forall x
      ensures x in r <==> x in keys
    {
      assert x in r <==> x in multiset(r);
      assert x in keys <==> x in multiset(keys);
    }
    DistinctMultiset(keys);
    forall i, j | 0 <= i < j < |r|
      ensures r[i] < r[j]
    {
      if r[i] == r[j] {
        TwiceCounted(r, i, j);
      }
    }
  }

  /** The largest of the round numbers (bracket-image.js:266). */
  function MaxOf(s: seq<int>): (r: int)
    requires s != []
    ensures r in s && forall x :: x in s ==> x <= r
  {
    if |s| == 1 then s[0]
    else
      var rest := MaxOf(s[1..]);
      assert s == [s[0]] + s[1..];
      if s[0] >= rest then s[0] else rest
  }

  /** The highest round among `ms`. */
  function MaxRound(ms: seq<Match>): (r: int)
    requires ms != []
    ensures r in RoundSet(ms) && forall m {:trigger m in ms} :: m in ms ==> m.round <= r
  {
    if |ms| == 1 then
      assert ms[0] in ms;
      ms[0].round
    else
      var rest := MaxRound(ms[1..]);
      assert ms == [ms[0]] + ms[1..];
      assert ms[0] in ms && forall x :: x in ms[1..] ==> x in ms;
      if ms[0].round >= rest then ms[0].round else rest
  }

  // ---------- The final-results panel ----------

  /** The podium of a finished tournament. */
  datatype Podium = Podium(champion: EntrantId, runnerUp: EntrantId, third: seq<EntrantId>)

  /** The first completed record of a list, if any (bracket-image.js:268). */
  function FindCompleted(ms: seq<Match>): (r: Option<Match>)
    ensures r.None? <==> forall i :: 0 <= i < |ms| ==> ms[i].status != Completed
    ensures r.Some? ==> exists i :: 0 <= i < |ms| && ms[i] == r.value && r.value.status == Completed
                                  && forall j :: 0 <= j < i ==> ms[j].status != Completed
  {
    if ms == [] then None
    else if ms[0].status == Completed then Some(ms[0])
    else
      var r := FindCompleted(ms[1..]);
      if r.Some? then
        var i :| 0 <= i < |ms[1..]| && ms[1..][i] == r.value && r.value.status == Completed
                 && forall j :: 0 <= j < i ==> ms[1..][j].status != Completed;
        assert ms[i + 1] == r.value;
        r
      else r
  }

  /**
   * The loser of a semifinal record (bracket-image.js:283-288): a completed
   * match with a winner and two entrants yields the entrant other than the
   * winner, counted as player 1 unless the winner is player 1.
   */
  function LoserOf(m: Match): Option<EntrantId> {
    if m.status != Completed || m.winner.None? || m.player2.None? then None
    else if m.winner.value == m.player1 then m.player2
    else Some(m.player1)
  }

  /** The losers of a round, in match order. */
  function Losers(ms: seq<Match>): (r: seq<EntrantId>)
    ensures |r| <= |ms|
  {
    if ms == [] then []
    else
      var rest := Losers(ms[..|ms| - 1]);
      var l := LoserOf(ms[|ms| - 1]);
      if l.Some? then rest + [l.value] else rest
  }

  /**
   * Every entry of third place comes from a completed two-entrant match of
   * the round: byes and pending matches contribute nothing, and of
   * well-formed records each entry is an entrant who did not win.
   */
  lemma {:induction false} LosersOfRound(ms: seq<Match>)
    ensures forall p :: p in Losers(ms) ==>
              exists m {:trigger m in ms} :: && m in ms && m.status == Completed && !IsBye(m) && IsEntrant(m, p)
                          && (WellFormed(m) && m.player2 != Some(m.player1) ==> m.winner != Some(p))
    ensures (forall m {:trigger m in ms} :: m in ms ==> m.status != Completed || IsBye(m)) ==> Losers(ms) == []
  {
    if ms != [] {
      var pre := ms[..|ms| - 1];
      LosersOfRound(pre);
      assert forall m :: m in pre ==> m in ms;
      assert ms[|ms| - 1] in ms;
    }
  }

  /** The positions of a round's records that yield a loser. */
  function LosingSlots(ms: seq<Match>): set<int> {
    set i | 0 <= i < |ms| && LoserOf(ms[i]).Some?
  }

  /** The losing positions of a round: those of all its records but the last, and the last when it yields a loser. */
  lemma LosingSlotsLast(ms: seq<Match>)
    requires ms != []
    ensures LosingSlots(ms) == LosingSlots(ms[..|ms| - 1]) + (if LoserOf(ms[|ms| - 1]).Some? then {|ms| - 1} else {})
  {
    var n := |ms| - 1;
    assert forall i :: 0 <= i < n ==> ms[i] == ms[..n][i];
  }

  /** No loser is missed: each record of the round that yields a loser puts it in third place. */
  lemma {:induction false} LosersFound(ms: seq<Match>)
    ensures forall i :: 0 <= i < |ms| && LoserOf(ms[i]).Some? ==> LoserOf(ms[i]).value in Losers(ms)
  {
    if ms != [] {
      var n := |ms| - 1;
      LosersFound(ms[..n]);
      assert forall i :: 0 <= i < n ==> ms[i] == ms[..n][i];
    }
  }

  /** Third place holds one entry per record of the round that yields a loser. */
  lemma {:induction false} LosersCount(ms: seq<Match>)
    ensures |Losers(ms)| == |LosingSlots(ms)|
  {
    if ms != [] {
      LosersCount(ms[..|ms| - 1]);
      LosingSlotsLast(ms);
    }
  }

  /** The loop collecting third places (bracket-image.js:279-288). */
  method ThirdPlace(semiMatches: seq<Match>) returns (third: seq<EntrantId>)
    ensures third == Losers(semiMatches)
  {
    third := [];
    var i := 0;
    while i < |semiMatches|
      invariant 0 <= i <= |semiMatches|
      invariant third == Losers(semiMatches[..i])
    {
      var m := semiMatches[i];
      assert semiMatches[..i + 1][..i] == semiMatches[..i];
      if m.status == Completed && m.winner.Some? && m.player2.Some? {
        var loserId := if m.winner.value == m.player1 then m.player2.value else m.player1;
        third := third + [loserId];
      }
      i := i + 1;
    }
    assert semiMatches[..i] == semiMatches;
  }

  /**
   * The podium drawn from the final round's and the semifinal round's
   * records (bracket-image.js:262-288): none unless the final round has a
   * completed record with a winner and two entrants; then its winner is
   * champion, the other entrant runner-up, and the semifinal losers third.
   */
  function PodiumAt(finalMatches: seq<Match>, semiMatches: seq<Match>): (p: Option<Podium>)
    ensures p.Some? ==> exists m {:trigger m in finalMatches} :: && m in finalMatches && m.status == Completed && !IsBye(m)
                                    && m.winner == Some(p.value.champion) && IsEntrant(m, p.value.runnerUp)
                                    && (WellFormed(m) && m.player2 != Some(m.player1) ==> p.value.runnerUp != p.value.champion)
    ensures p.Some? ==> p.value.third == Losers(semiMatches)
    ensures (forall m {:trigger m in finalMatches} :: m in finalMatches ==> m.status != Completed || IsBye(m)) ==> p.None?
  {
    var f := FindCompleted(finalMatches);
    if f.None? || f.value.winner.None? || f.value.player2.None? then None
    else
      var m := f.value;
      assert m in finalMatches;
      var champion := m.winner.value;
      var runnerUp := if champion == m.player1 then m.player2.value else m.player1;
      Some(Podium(champion, runnerUp, Losers(semiMatches)))
  }

  /**
   * `drawWinnersPanel` without the drawing (bracket-image.js:262-288): the
   * podium from the highest round and the one below it.
   */
  method WinnersPanel(rounds: seq<int>, roundsMap: map<int, seq<Match>>) returns (p: Option<Podium>)
    ensures p == if rounds == [] then None
                 else PodiumAt(Get(roundsMap, MaxOf(rounds)), Get(roundsMap, MaxOf(rounds) - 1))
  {
    if |rounds| == 0 {
      return None;
    }
    var finalRound := MaxOf(rounds);
    var finalMatches := Get(roundsMap, finalRound);
    var finalMatch := FindCompleted(finalMatches);
    if finalMatch.None? || finalMatch.value.winner.None? || finalMatch.value.player2.None? {
      return None;
    }
    var m := finalMatch.value;
    var championId := m.winner.value;
    var runnerUpId := if championId == m.player1 then m.player2.value else m.player1;
    var semiRound := finalRound - 1;
    var semiMatches := Get(roundsMap, semiRound);
    var third := ThirdPlace(semiMatches);
    p := Some(Podium(championId, runnerUpId, third));
  }

  /**
   * The podium a bracket image shows for a tournament whose records are
   * `all`: only a finished tournament with records has one, taken from its
   * highest round and the round below.
   */
  function PodiumOf(status: TournamentStatus, all: seq<Match>): Option<Podium> {
    if status != Finished || all == [] then None
    else
      var finalRound := MaxRound(all);
      PodiumAt(InRound(all, finalRound), InRound(all, finalRound - 1))
  }

  /**
   * The image's data for tournament `t` (bracket-image.js:13-43 and 169-180):
   * its records, grouped and with their rounds sorted ascending, and the
   * podium when the tournament is finished.
   */
  method RenderPodium(t: Tournament, vals: seq<Match>) returns (rounds: seq<int>, p: Option<Podium>)
    ensures forall r :: r in rounds <==> r in RoundSet(OfTournament(vals, t.id))
    ensures forall i, j :: 0 <= i < j < |rounds| ==> rounds[i] < rounds[j]
    ensures p == PodiumOf(t.status, OfTournament(vals, t.id))
  {
    var all := CollectMatches(vals, t.id);
    if |all| == 0 {
      return [], None;
    }
    var roundsMap, keys := GroupByRound(all);
    rounds := SortAscending(keys);
    SortedRounds(keys);
    assert all[0] in all && all[0].round in keys && all[0].round in rounds;
    if t.status != Finished {
      return rounds, None;
    }
    p := WinnersPanel(rounds, roundsMap);
    PanelOfGrouping(all, roundsMap, rounds);
  }

  /** The panel drawn from a grouping of `all` is the podium of `all`. */
  lemma {:induction false} PanelOfGrouping(all: seq<Match>, roundsMap: map<int, seq<Match>>, rounds: seq<int>)
    requires all != [] && Grouped(roundsMap, all)
    requires rounds != [] && forall r :: r in rounds <==> r in roundsMap
    ensures PodiumAt(Get(roundsMap, MaxOf(rounds)), Get(roundsMap, MaxOf(rounds) - 1)) == PodiumOf(Finished, all)
  {
    var finalRound := MaxOf(rounds);
    HighestKey(all, roundsMap, rounds);
    GetGrouped(all, roundsMap, finalRound);
    GetGrouped(all, roundsMap, finalRound - 1);
    PodiumOfFinished(all, finalRound, Get(roundsMap, finalRound), Get(roundsMap, finalRound - 1));
  }

  /** The highest key of a grouping of `all` is the highest round of `all`. */
  lemma HighestKey(all: seq<Match>, roundsMap: map<int, seq<Match>>, rounds: seq<int>)
    requires all != [] && Grouped(roundsMap, all)
    requires rounds != [] && forall r :: r in rounds <==> r in roundsMap
    ensures MaxOf(rounds) == MaxRound(all)
  {
    assert MaxOf(rounds) in RoundSet(all);
    assert MaxRound(all) in rounds;
  }

  /** A finished tournament's podium is drawn from its highest round and the one below. */
  lemma PodiumOfFinished(all: seq<Match>, finalRound: int, finals: seq<Match>, semis: seq<Match>)
    requires all != [] && finalRound == MaxRound(all)
    requires finals == InRound(all, finalRound) && semis == InRound(all, finalRound - 1)
    ensures PodiumAt(finals, semis) == PodiumOf(Finished, all)
  {
    assert PodiumOf(Finished, all) == PodiumAt(InRound(all, MaxRound(all)), InRound(all, MaxRound(all) - 1));
  }

  /** Looking a round up in a grouping gives that round's records, none for an absent round. */
  lemma {:induction false} GetGrouped(all: seq<Match>, roundsMap: map<int, seq<Match>>, r: int)
    requires Grouped(roundsMap, all)
    ensures Get(roundsMap, r) == InRound(all, r)
  {
    if r !in roundsMap {
      InRoundAbsent(all, r);
    }
  }

  /** An empty third-place column shows the placeholder "—" (bracket-image.js:337-340). */
  function ThirdColumn(names: seq<string>): (lines: seq<string>)
    ensures lines != []
    ensures names != [] ==> lines == names
    ensures names == [] ==> lines == ["—"]
  {
    if names == [] then ["—"] else names
  }

  // ---------- Labels ----------

  /** What a team application recorded; only the team name is shown. */
  datatype TeamProfile = TeamProfile(teamName: string)

  /** A guild member as fetched from Discord. */
  datatype Member = Member(displayName: string, username: string)

  /**
   * `getLabelForId` (bracket-image.js:85-101): "TBD" without an id; else the
   * team name, else the player's in-game name, else the member's display
   * name or user name; "Unknown" when the member cannot be fetched.
   * `fetched` is the result of that fetch.
   */
  function Label(id: Option<EntrantId>, teams: map<string, TeamProfile>, players: map<string, PlayerProfile>,
                 fetched: Option<Member>): (shown: string)
    ensures id.None? ==> shown == "TBD"
    ensures id.Some? && id.value in teams && teams[id.value].teamName != [] ==> shown == teams[id.value].teamName
    ensures id.Some? && (id.value !in teams || teams[id.value].teamName == []) && id.value in players && players[id.value].ign != []
            ==> shown == players[id.value].ign
    ensures id.Some? && (id.value !in teams || teams[id.value].teamName == []) && (id.value !in players || players[id.value].ign == [])
            ==> shown == (if fetched.None? then "Unknown"
                          else if fetched.value.displayName != [] then fetched.value.displayName
                          else fetched.value.username)
  {
    if id.None? then "TBD"
    else if id.value in teams && teams[id.value].teamName != [] then teams[id.value].teamName
    else if id.value in players && players[id.value].ign != [] then players[id.value].ign
    else if fetched.None? then "Unknown"
    else if fetched.value.displayName != [] then fetched.value.displayName
    else fetched.value.username
  }

  /** A label always comes from the first source that has one, and is never made up otherwise. */
  lemma LabelSources(id: Option<EntrantId>, teams: map<string, TeamProfile>, players: map<string, PlayerProfile>, fetched: Option<Member>)
    ensures var shown := Label(id, teams, players, fetched);
            || shown == "TBD" || shown == "Unknown"
            || (id.Some? && id.value in teams && shown == teams[id.value].teamName)
            || (id.Some? && id.value in players && shown == players[id.value].ign)
            || (fetched.Some? && (shown == fetched.value.displayName || shown == fetched.value.username))
  {
  }
}
