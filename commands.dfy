/**
 * The slash-command and button handlers of index.js that change the
 * engine's state, as methods of the bot that owns the in-memory stores.
 * Discord messages, channels, replies and the state file are left out;
 * permission checks arrive as the boolean `authorized`.
 */
module Commands {
  import opened Wrappers
  import opened Ids
  import opened Records
  import opened Engine
  import opened Invariant
  import opened Checks
  import opened Liveness

  /** Why a command was refused; each but `CodeInUse` stands for one of the handlers' error replies. */
  datatype Reason =
    | NotAuthorized       // the caller lacks Manage Server / Administrator
    | NoTournament        // the guild has no tournament
    | BadBestOf           // best-of is not a positive odd number
    | CodeInUse           // another guild's live tournament already has the drawn code; a corrected check, with no reply of its own in index.js:325-371
    | BadUrl              // the bracket link does not start with http:// or https://
    | NotInRegistration   // the tournament is no longer registering
    | AlreadyRegistered   // the entrant is already on the roster
    | TooFewPlayers       // fewer than two entrants at start
    | NoMatch             // no record under the match id
    | NotAnEntrant        // the chosen winner does not play in the match
    | AlreadyCompleted    // the match already has a result

  datatype Outcome = Ok | Rejected(reason: Reason)

  /** No tournament of another guild has `code`. */
  predicate CodeFree(ts: map<string, Tournament>, guild: string, code: string) {
    forall g :: g in ts && g != guild ==> ts[g].shortCode != code
  }

  /** The tournament `/create-tournament` registers (index.js:358-371). */
  function NewTournament(guild: string, name: string, bestOf: int, code: string, tid: string): Tournament {
    Tournament(tid, code, guild, name, bestOf, Registration, [], 1, [], None)
  }

  /** The WhatsApp number stored for a player: the one given, or "Not provided" when it is absent or empty (index.js:579). */
  function WhatsAppOrDefault(whatsapp: Option<string>): (w: string)
    ensures w != []
    ensures whatsapp.Some? && whatsapp.value != [] ==> w == whatsapp.value
    ensures !(whatsapp.Some? && whatsapp.value != []) ==> w == "Not provided"
  {
    if whatsapp.Some? && whatsapp.value != [] then whatsapp.value else "Not provided"
  }

  /**
   * Random seeding (index.js:498-505): a Fisher-Yates shuffle, swapping
   * position `i` with a position `j <= i` chosen at random, from the last
   * position down to the second.
   */
  method Shuffle(a: array<EntrantId>)
    modifies a
    ensures multiset(a[..]) == multiset(old(a[..]))
  {
    var i := a.Length - 1;
    while i > 0
      invariant i < a.Length
      invariant multiset(a[..]) == multiset(old(a[..]))
    {
      var j :| 0 <= j <= i;
      a[i], a[j] := a[j], a[i];
      i := i - 1;
    }
  }

  /** Listing one more match id in a guild's tournament extends the ids of the matches made so far. */
  lemma ListNext(ts: map<string, Tournament>, guild: string, t: Tournament, made: seq<Match>, m: Match)
    ensures var t1 := t.(matchIds := t.matchIds + IdsOf(made));
            ts[guild := t1][guild := t1.(matchIds := t1.matchIds + [m.id])]
              == ts[guild := t.(matchIds := t.matchIds + IdsOf(made + [m]))]
  {
    AppendStep(made, m, t.matchIds, map[]);
  }

  class Bot {
    /** The tournament of each guild, keyed by guild id. */
    var tournaments: map<string, Tournament>
    /** Every match record ever created, keyed by match id. */
    var matches: map<string, Match>
    /** What `/add-player` recorded about each player. */
    var playerProfiles: map<string, PlayerProfile>

    /** The engine invariant, every tournament filed under its guild, and no running tournament without a pending match. */
    ghost predicate Valid()
      reads this
    {
      StateOk(tournaments, matches) && Homed(tournaments, matches) && Open(tournaments, matches)
    }

    /** The bot starts with empty stores. */
    constructor ()
      ensures Valid()
      ensures tournaments == map[] && matches == map[] && playerProfiles == map[]
    {
      tournaments := map[];
      matches := map[];
      playerProfiles := map[];
    }

    /**
     * `/create-tournament` (index.js:325-383). `draw` is the random number
     * behind the short code; `tid` is the clock-derived tournament id,
     * new to the bot. A new tournament replaces the guild's old one.
     */
    method CreateTournament(guild: string, name: string, bestOf: int, draw: int, tid: string) returns (r: Outcome)
      requires Valid()
      requires 1000 <= draw <= 9999
      requires forall g :: g in tournaments ==> tournaments[g].id != tid
      requires forall id :: id in matches ==> matches[id].tournamentId != tid
      modifies this
      ensures Valid()
      ensures r == (if !ValidBestOf(bestOf) then Rejected(BadBestOf)
                    else if !CodeFree(old(tournaments), guild, ShortCode(draw)) then Rejected(CodeInUse)
                    else Ok)
      ensures r.Ok? ==> tournaments == old(tournaments)[guild := NewTournament(guild, name, bestOf, ShortCode(draw), tid)]
      ensures r.Rejected? ==> tournaments == old(tournaments)
      ensures matches == old(matches) && playerProfiles == old(playerProfiles)
    {
      if !ValidBestOf(bestOf) {
        return Rejected(BadBestOf);
      }
      var code := ShortCode(draw);
      if !CodeFree(tournaments, guild, code) {
        return Rejected(CodeInUse);
      }
      var t := NewTournament(guild, name, bestOf, code, tid);
      CreateKeepsState(tournaments, matches, guild, t);
      CreateKeepsLive(tournaments, matches, guild, t);
      tournaments := tournaments[guild := t];
      r := Ok;
    }

    /** `/set-bracket-link` (index.js:385-422): stores the trimmed link when it is an http(s) address. */
    method SetBracketLink(guild: string, raw: string) returns (r: Outcome)
      requires Valid()
      modifies this
      ensures Valid()
      ensures r == (if guild !in old(tournaments) then Rejected(NoTournament)
                    else if !IsBracketUrl(Trim(raw)) then Rejected(BadUrl)
                    else Ok)
      ensures r.Ok? ==> tournaments == old(tournaments)[guild := old(tournaments[guild]).(bracketUrl := Some(Trim(raw)))]
      ensures r.Rejected? ==> tournaments == old(tournaments)
      ensures matches == old(matches) && playerProfiles == old(playerProfiles)
    {
      if guild !in tournaments {
        return Rejected(NoTournament);
      }
      var url := Trim(raw);
      if !IsBracketUrl(url) {
        return Rejected(BadUrl);
      }
      var t := tournaments[guild];
      var t' := t.(bracketUrl := Some(url));
      ReplaceTournament(tournaments, matches, guild, t');
      ReplaceKeepsLive(tournaments, matches, guild, t');
      tournaments := tournaments[guild := t'];
      r := Ok;
    }

    /** Puts `p` on the roster of `t`, kept free of repeats. */
    static lemma JoinKeepsTournament(t: Tournament, store: map<string, Match>, p: EntrantId)
      requires TournamentOk(t, store) && p !in t.players
      ensures TournamentOk(t.(players := t.players + [p]), store)
    {
      var t' := t.(players := t.players + [p]);
      forall i, j | 0 <= i < j < |t'.players|
        ensures t'.players[i] != t'.players[j]
      {
        if j == |t.players| {
          assert t'.players[i] in t.players;
        }
      }
    }

    /**
     * `/add-player` (index.js:546-618): an administrator registers a
     * player while registration is open. `playerId` is the chosen user's
     * id, or the generated `ext_` id of a player without an account.
     */
    method AddPlayer(guild: string, authorized: bool, playerId: EntrantId, ign: string, whatsapp: Option<string>)
      returns (r: Outcome)
      requires Valid()
      modifies this
      ensures Valid()
      ensures r == (if !authorized then Rejected(NotAuthorized)
                    else if guild !in old(tournaments) then Rejected(NoTournament)
                    else if old(tournaments[guild]).status != Registration then Rejected(NotInRegistration)
                    else if playerId in old(tournaments[guild]).players then Rejected(AlreadyRegistered)
                    else Ok)
      ensures r.Ok? ==> && tournaments == old(tournaments)[guild := old(tournaments[guild]).(players := old(tournaments[guild]).players + [playerId])]
                        && playerProfiles == old(playerProfiles)[playerId := PlayerProfile(ign, WhatsAppOrDefault(whatsapp))]
      ensures r.Rejected? ==> tournaments == old(tournaments) && playerProfiles == old(playerProfiles)
      ensures matches == old(matches)
    {
      if !authorized {
        return Rejected(NotAuthorized);
      }
      if guild !in tournaments {
        return Rejected(NoTournament);
      }
      var t := tournaments[guild];
      if t.status != Registration {
        return Rejected(NotInRegistration);
      }
      if playerId in t.players {
        return Rejected(AlreadyRegistered);
      }
      playerProfiles := playerProfiles[playerId := PlayerProfile(ign, WhatsAppOrDefault(whatsapp))];
      var t' := t.(players := t.players + [playerId]);
      JoinKeepsTournament(t, matches, playerId);
      ReplaceTournament(tournaments, matches, guild, t');
      ReplaceKeepsLive(tournaments, matches, guild, t');
      tournaments := tournaments[guild := t'];
      r := Ok;
    }

    /**
     * The Accept / Reject buttons on an application (index.js:957-1045):
     * an accepted 1v1 player or 5v5 team leader joins the guild's
     * tournament when it is registering and they are not on it yet.
     */
    method ApplicationDecision(guild: string, authorized: bool, mode: string, targetId: EntrantId, isAccept: bool)
      returns (r: Outcome)
      requires Valid()
      modifies this
      ensures Valid()
      ensures r == (if authorized then Ok else Rejected(NotAuthorized))
      ensures var joins := && authorized && isAccept && (mode == "1v1" || mode == "5v5")
                           && guild in old(tournaments)
                           && old(tournaments[guild]).status == Registration
                           && targetId !in old(tournaments[guild]).players;
              tournaments == if joins then old(tournaments)[guild := old(tournaments[guild]).(players := old(tournaments[guild]).players + [targetId])]
                             else old(tournaments)
      ensures matches == old(matches) && playerProfiles == old(playerProfiles)
    {
      if !authorized {
        return Rejected(NotAuthorized);
      }
      r := Ok;
      if isAccept && mode == "1v1" {
        AcceptInto(guild, targetId);
      }
      if isAccept && mode == "5v5" {
        AcceptInto(guild, targetId);
      }
    }

    /** Adds an accepted applicant to the guild's tournament when it is registering and they are not on it. */
    method AcceptInto(guild: string, targetId: EntrantId)
      requires Valid()
      modifies this
      ensures Valid()
      ensures var joins := && guild in old(tournaments)
                           && old(tournaments[guild]).status == Registration
                           && targetId !in old(tournaments[guild]).players;
              tournaments == if joins then old(tournaments)[guild := old(tournaments[guild]).(players := old(tournaments[guild]).players + [targetId])]
                             else old(tournaments)
      ensures matches == old(matches) && playerProfiles == old(playerProfiles)
    {
      if guild in tournaments {
        var t := tournaments[guild];
        if t.status == Registration && targetId !in t.players {
          var t' := t.(players := t.players + [targetId]);
          JoinKeepsTournament(t, matches, targetId);
          ReplaceTournament(tournaments, matches, guild, t');
          ReplaceKeepsLive(tournaments, matches, guild, t');
          tournaments := tournaments[guild := t'];
        }
      }
    }

    /**
     * `/start-tournament` (index.js:468-544): a registering tournament of
     * two or more entrants is seeded at random and its first round is
     * created. `seeds` is the shuffled roster.
     */
    method StartTournament(guild: string) returns (r: Outcome, seeds: seq<EntrantId>)
      requires Valid()
      modifies this
      ensures Valid()
      ensures r == (if guild !in old(tournaments) then Rejected(NoTournament)
                    else if old(tournaments[guild]).status != Registration then Rejected(NotInRegistration)
                    else if |old(tournaments[guild]).players| < 2 then Rejected(TooFewPlayers)
                    else Ok)
      ensures r.Ok? ==> var t := old(tournaments[guild]);
                        var ms := Pairing(t, 1, seeds);
                        && multiset(seeds) == multiset(t.players)
                        && tournaments == old(tournaments)[guild := WithRound(t, 1, ms)]
                        && matches == old(matches) + MapOf(ms)
      ensures r.Rejected? ==> tournaments == old(tournaments) && matches == old(matches)
      ensures ResultsKept(old(tournaments), old(matches), tournaments, matches)
      ensures playerProfiles == old(playerProfiles)
    {
      seeds := [];
      if guild !in tournaments {
        return Rejected(NoTournament), seeds;
      }
      var t := tournaments[guild];
      if t.status != Registration {
        return Rejected(NotInRegistration), seeds;
      }
      if |t.players| < 2 {
        return Rejected(TooFewPlayers), seeds;
      }
      var shuffled := new EntrantId[|t.players|](i requires 0 <= i < |t.players| => t.players[i]);
      assert shuffled[..] == t.players;
      Shuffle(shuffled);
      seeds := shuffled[..];
      assert |seeds| == |multiset(seeds)| == |t.players|;
      LaunchRound(guild, seeds);
      r := Ok;
    }

    /**
     * Starts a registering tournament on the given seeding
     * (index.js:507-514): its id list is emptied, its round set to 1, the
     * first round is created and it is marked running.
     */
    method LaunchRound(guild: string, seeds: seq<EntrantId>)
      requires Valid() && guild in tournaments && tournaments[guild].status == Registration && |seeds| >= 2
      modifies this
      ensures Valid()
      ensures var t := old(tournaments[guild]);
              var ms := Pairing(t, 1, seeds);
              && tournaments == old(tournaments)[guild := WithRound(t, 1, ms)]
              && matches == old(matches) + MapOf(ms)
      ensures ResultsKept(old(tournaments), old(matches), tournaments, matches)
      ensures playerProfiles == old(playerProfiles)
    {
      var t := tournaments[guild];
      ghost var ms := Pairing(t, 1, seeds);
      ghost var after := (tournaments[guild := WithRound(t, 1, ms)], matches + MapOf(ms));
      StartKeepsState(tournaments, matches, guild, seeds);
      StartKeepsLive(tournaments, matches, guild, seeds);
      StartShape(tournaments, guild, seeds);
      tournaments := tournaments[guild := t.(matchIds := [], currentRound := 1)];
      CreateRoundMatches(guild, 1, seeds);
      var started := tournaments[guild];
      tournaments := tournaments[guild := started.(status := Running)];
      assert (tournaments, matches) == after;
      SameState(after.0, after.1, (tournaments, matches));
    }

    /**
     * What happens after a result (index.js:1282-1331), as seen from the
     * bot: the engine's step for the guild (`Engine.Progress`, taken by
     * `CheckRound`) keeps the whole invariant and changes no recorded
     * result. The guild's own round may have just lost its last pending
     * match; every other running tournament still has one.
     */
    method MaybeAdvance(guild: string) returns (champion: Option<EntrantId>)
      requires StateOk(tournaments, matches) && Homed(tournaments, matches) && OpenBut(tournaments, matches, guild)
      requires guild in tournaments
      modifies this
      ensures Valid()
      ensures (tournaments, matches) == Progress(old(tournaments), old(matches), guild)
      ensures ResultsKept(old(tournaments), old(matches), tournaments, matches)
      ensures champion == match Decide(CurrentRound(old(tournaments[guild]), old(matches)))
                          case Finish(c) => c
                          case _ => None
      ensures playerProfiles == old(playerProfiles)
    {
      ghost var before := (tournaments, matches);
      champion := CheckRound(guild);
      ProgressKeepsBot(before.0, before.1, guild, tournaments, matches);
    }

    /**
     * The engine's step for a guild (index.js:1282-1331): while the current
     * round is empty or has a pending match nothing changes; a round that
     * leaves at most one winner ends the tournament and `champion` is the
     * one announced; otherwise the winners, in match order, are paired into
     * the next round.
     */
    method CheckRound(guild: string) returns (champion: Option<EntrantId>)
      requires guild in tournaments
      modifies this
      ensures (tournaments, matches) == Progress(old(tournaments), old(matches), guild)
      ensures champion == match Decide(CurrentRound(old(tournaments[guild]), old(matches)))
                          case Finish(c) => c
                          case _ => None
      ensures playerProfiles == old(playerProfiles)
    {
      var t := tournaments[guild];
      var roundMatches := RoundMatches(t.matchIds, matches, t.currentRound);
      if |roundMatches| == 0 || !AllCompleted(roundMatches) {
        ProgressWaits(tournaments, matches, guild);
        return None;
      }
      var winners := Winners(roundMatches);
      if |winners| <= 1 {
        ProgressFinishes(tournaments, matches, guild);
        tournaments := tournaments[guild := t.(status := Finished)];
        return AnnouncedChampion(roundMatches);
      }
      AdvanceRound(guild, winners);
      champion := None;
    }

    /**
     * The last step of `MaybeAdvance` (index.js:1312-1330): the round
     * counter moves on and the winners of the completed round, in match
     * order, are paired into the next round.
     */
    method AdvanceRound(guild: string, winners: seq<EntrantId>)
      requires guild in tournaments
      requires var rm := CurrentRound(tournaments[guild], matches);
               rm != [] && AllCompleted(rm) && |Winners(rm)| > 1 && winners == Winners(rm)
      modifies this
      ensures (tournaments, matches) == Progress(old(tournaments), old(matches), guild)
      ensures playerProfiles == old(playerProfiles)
    {
      ghost var after := Progress(tournaments, matches, guild);
      ProgressAdvances(tournaments, matches, guild);
      var t := tournaments[guild];
      var next := t.(currentRound := t.currentRound + 1);
      ghost var ms := Pairing(next, next.currentRound, winners);
      assert after == (tournaments[guild := next][guild := next.(matchIds := next.matchIds + IdsOf(ms))], matches + MapOf(ms));
      tournaments := tournaments[guild := next];
      CreateRoundMatches(guild, next.currentRound, winners);
    }

    /**
     * `/set-winner` (index.js:620-689), used in a match's channel, which
     * names the match `matchId`: records `winner` as the result of a
     * pending match they play in, then lets the guild's tournament move on.
     */
    method SetWinner(matchId: string, authorized: bool, winner: EntrantId) returns (r: Outcome, champion: Option<EntrantId>)
      requires Valid()
      modifies this
      ensures Valid()
      ensures r == (if !authorized then Rejected(NotAuthorized)
                    else if matchId !in old(matches) then Rejected(NoMatch)
                    else if !IsEntrant(old(matches)[matchId], winner) then Rejected(NotAnEntrant)
                    else if old(matches)[matchId].status == Completed then Rejected(AlreadyCompleted)
                    else Ok)
      ensures r.Ok? ==> var m := old(matches)[matchId];
                        var settled := old(matches)[matchId := Settle(m, winner)];
                        && (tournaments, matches) == Progress(old(tournaments), settled, m.guildId)
                        && champion == if m.guildId !in old(tournaments) then None
                                       else match Decide(CurrentRound(old(tournaments)[m.guildId], settled))
                                            case Finish(c) => c
                                            case _ => None
      ensures r.Rejected? ==> tournaments == old(tournaments) && matches == old(matches) && champion == None
      ensures ResultsKept(old(tournaments), old(matches), tournaments, matches)
      ensures playerProfiles == old(playerProfiles)
    {
      champion := None;
      if !authorized {
        return Rejected(NotAuthorized), champion;
      }
      if matchId !in matches {
        return Rejected(NoMatch), champion;
      }
      var m := matches[matchId];
      if !IsEntrant(m, winner) {
        return Rejected(NotAnEntrant), champion;
      }
      if m.status == Completed {
        return Rejected(AlreadyCompleted), champion;
      }
      SettleKeepsState(tournaments, matches, matchId, winner);
      SettleKeepsLive(tournaments, matches, matchId, winner);
      matches := matches[matchId := m.(status := Completed, winner := Some(winner))];
      r := Ok;
      if m.guildId !in tournaments {
        return;
      }
      champion := MaybeAdvance(m.guildId);
      ResultsKeptChain(old(tournaments), old(matches), old(matches)[matchId := Settle(m, winner)], tournaments, matches);
    }

    /** Stores a match record and lists its id in the guild's tournament (index.js:1166-1167, 1238-1239). */
    method Store(guild: string, m: Match)
      requires guild in tournaments
      modifies this
      ensures tournaments == old(tournaments)[guild := old(tournaments[guild]).(matchIds := old(tournaments[guild]).matchIds + [m.id])]
      ensures matches == old(matches)[m.id := m]
      ensures playerProfiles == old(playerProfiles)
    {
      matches := matches[m.id := m];
      var t := tournaments[guild];
      tournaments := tournaments[guild := t.(matchIds := t.matchIds + [m.id])];
    }

    /**
     * Creates the records of one round of the guild's tournament
     * (index.js:1128-1280): entrants `2k` and `2k + 1` meet in match
     * `k + 1`; an unpaired last entrant gets a bye, recorded as already
     * won. Every record is stored and its id appended to the tournament.
     */
    method CreateRoundMatches(guild: string, round: nat, players: seq<EntrantId>)
      requires guild in tournaments
      modifies this
      ensures var t := old(tournaments[guild]);
              var ms := Pairing(t, round, players);
              && tournaments == old(tournaments)[guild := t.(matchIds := t.matchIds + IdsOf(ms))]
              && matches == old(matches) + MapOf(ms)
      ensures playerProfiles == old(playerProfiles)
    {
      var t := tournaments[guild];
      var n := |players|;
      var matchIndex := 1;
      var i := 0;
      ghost var made: seq<Match> := [];
      ghost var target := Pairing(t, round, players);
      assert t.matchIds + IdsOf(made) == t.matchIds && old(matches) + MapOf(made) == matches;
      assert old(tournaments)[guild := t.(matchIds := t.matchIds)] == tournaments;
      while i < n
        invariant i == 2 * |made| <= n + 1 && matchIndex == |made| + 1
        invariant made == target[..|made|]
        invariant tournaments == old(tournaments)[guild := t.(matchIds := t.matchIds + IdsOf(made))]
        invariant matches == old(matches) + MapOf(made)
        invariant playerProfiles == old(playerProfiles)
      {
        var p2 := if i + 1 < n then Some(players[i + 1]) else None;
        var m := NewMatch(t, round, matchIndex, players[i], p2);
        matchIndex := matchIndex + 1;
        PairMatchNext(t, round, players, made, p2);
        AppendStep(made, m, t.matchIds, old(matches));
        ListNext(old(tournaments), guild, t, made, m);
        Store(guild, m);
        made := made + [m];
        i := i + 2;
      }
      PairingOf(t, round, players, made);
    }
  }
}
