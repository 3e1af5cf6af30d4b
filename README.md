# Single-elimination bracket engine of a tournament bot

This project models the core of a Discord tournament bot in Dafny. The core
is the single-elimination bracket engine in `index.js` and the podium that
`bracket-image.js` derives from the stored match records.

Each guild has at most one tournament. A tournament moves from registration
to running to completed. It keeps a roster of entrants, a current round
number and the ordered list of its match ids. Match records live in one
store shared by all guilds and are keyed by match id
(`<shortCode>-R<round>-M<k>`).

The model covers these operations:

- **Commands** (`Commands.Bot`, a class whose fields are the bot's maps): create a tournament, set the bracket link, add a player, accept an application, start a tournament, report a result.
- **Round creation**: entrants are consumed two at a time, and an odd last entrant gets a bye that is already won.
- **Round advancement**: the engine either waits, finishes the tournament, or pairs the winners in match order.

Every state-changing method keeps one invariant, `Invariant.StateOk`. It says:

- every record is stored under its own id and is well formed;
- each tournament lists exactly its own records, without repeats;
- a started tournament's current round is never empty, and is never a lone bye;
- a finished tournament's final round is one completed match;
- tournaments of different guilds have different codes and ids.

The bot (`Commands.Bot.Valid`) keeps two more facts, stated in `Liveness`:

- each tournament is filed under its own guild, and so is every record of it;
- a running tournament always has a pending match in its current round.

Every command that changes the store also promises that no completed record listed by a tournament still in place ever changes (`Liveness.ResultsKept`).

Other modules:

- `BracketImage` models grouping by round, sorting the rounds, the podium panel and entrant labels.
- `PodiumLink` proves that, for every consistent state, the image's champion is the champion the engine announced.
- `Snapshot` models the map/object conversion used when saving and loading state.
- `Finding` records one defect of the source (see "## Findings").

Modules: `Wrappers`, `Ids` (decimal rendering, short codes, match ids), `Records`, `Engine`, `Invariant`, `Liveness`, `Checks`, `Commands`, `BracketImage`, `PodiumLink`, `Snapshot`, `Finding`.

## Model

| member | source | states |
|---|---|---|
| Ids.ShortCode | index.js:339 | a short code is `NX` followed by the four digits of the draw |
| Ids.ShortCodeInjective | index.js:339 | different draws give different short codes |
| Ids.DecimalRoundTrip | index.js:1147 | the decimal rendering of a round or match number reads back as that number |
| Ids.MatchIdInjective | index.js:1147 | for codes of one length, equal match ids have the same code, round and match number |
| Ids.RoundPrefixUnique | index.js:1147 | an id starts with the round prefix of at most one code and round of a given code length |
| Engine.NewMatch | index.js:1147-1166 | a new record carries the pair's id, the tournament's guild and id, the round and both entrants as given; it is a bye exactly when there is no second entrant; a bye is created completed with its entrant as winner, a two-entrant match pending without winner |
| Engine.Pairing | index.js:1134-1167 | a round of n entrants has ceil(n/2) matches |
| Engine.PairingPrefixEntrants | index.js:1141-1167 | the first j matches hold exactly the first 2j entrants, in order |
| Engine.PairingAt | index.js:1143-1145 | match k pairs entrant positions 2k and 2k+1 |
| Engine.PairingEntrants | index.js:1141-1167 | reading the round's matches back in order gives the entrant list itself, so every entrant is in exactly one match |
| Engine.PairingByes | index.js:1143-1166 | only the last match can be a bye, and it is one exactly when the entrant count is odd |
| Engine.PairingShrinks | index.js:1141-1167 | two or more entrants give at least one and fewer matches than entrants, and never a lone bye |
| Engine.PairingIdsDistinct | index.js:1147-1148 | the ids of one round's matches are pairwise distinct |
| Engine.IdsOf | index.js:1167 | the listed ids are the matches' ids in creation order |
| Engine.MapOf | index.js:1166 | the stored records are exactly the round's matches, each under its own id |
| Engine.MapOfFinds | index.js:1166 | with distinct ids every match is found under its id |
| Engine.AppendStep | index.js:1166-1167 | storing one more match and listing its id extends the listed ids and the store entries of the matches made so far by that match |
| Engine.PairMatchNext | index.js:1143-1165 | the record made from the next two positions (or the last one alone) is the next match of the pairing |
| Engine.PairingOf | index.js:1141-1167 | once every entrant is consumed, the matches made one pair at a time are the whole pairing |
| Engine.EntrantsPrefix | index.js:1141-1167 | the entrants of the first j matches are those of the first j - 1 followed by those of match j - 1 |
| Engine.RoundMatches | index.js:1285-1287 | the round's records are stored records of that round, at most one per listed id |
| Engine.WinnersOfCompletedRound | index.js:1294 | in a completed round every match yields its winner, in match order |
| Engine.Decide | index.js:1289-1329 | the engine advances only with two or more winners |
| Engine.DecideOfRound | index.js:1289-1329 | it waits exactly when the round is empty or has a pending match; it finishes only on one completed final whose winner is the champion; otherwise match i sends its winner to position i |
| Engine.NextRoundFeeds | index.js:1294-1329 | next-round match k sets the winners of matches 2k and 2k+1 against each other, or gives a bye to a last unpaired winner; the next round is strictly smaller |
| Engine.PairingKeys | index.js:1147-1160 | pairing depends only on the tournament's code, guild and id |
| Engine.Progress | index.js:1282-1330 | advancing touches only the guild's tournament, keeps every stored record's key and is a no-op for a guild without tournament |
| Engine.ProgressOfAdvance | index.js:1312-1329 | with two or more winners the round counter rises by one and the next round's ids are listed, the status left as it was, and the store gains exactly that round's records |
| Invariant.RoundMatchesAppend | index.js:1285-1287 | reading a round over appended id lists concatenates the readings |
| Invariant.RoundMatchesOfRound | index.js:1285-1287 | the ids of a freshly stored round read back exactly that round's matches |
| Invariant.RoundMatchesMember | index.js:1285-1287 | a listed record of the round is among the round's matches |
| Invariant.RoundMatchesListed | index.js:1285-1287 | every match of the round is the record of a listed id |
| Invariant.RoundMatchesEvolve | index.js:675-676 | settling results keeps which records a round reads, slot by slot |
| Invariant.SeparateReplace | index.js:325-371 | replacing a guild's tournament by one with the same code and id keeps tournaments of different guilds apart |
| Invariant.ReplaceTournament | index.js:588-602 | replacing a tournament by a sound one with the same code and id keeps the state sound |
| Invariant.CreateKeepsState | index.js:358-371 | registering a fresh tournament whose code and id no other guild uses keeps the state sound |
| Invariant.SettleKeepsState | index.js:661-676 | settling a pending match with one of its entrants keeps the state sound |
| Invariant.NewRoundKeepsState | index.js:1128-1239 | storing a new round of a tournament and listing its ids keeps the state sound |
| Invariant.RoundWellFormed | index.js:1150-1166 | every record read back for a round is well formed |
| Invariant.ProgressKeepsState | index.js:1282-1330 | advancement never breaks the invariant |
| Invariant.AdvanceOnlyWhenRunning | index.js:1314-1329 | a tournament can advance a round only while running |
| Invariant.RunningNextRound | index.js:1312-1329 | for a running tournament, moving on to the next round (which leaves the status alone) is the next round under way |
| Invariant.StartShape | index.js:507-514 | resetting the id list and round to 1, pairing the seeds and marking the tournament running gives the started tournament |
| Invariant.StartKeepsState | index.js:481-514 | starting a registering tournament of two or more seeds keeps the state sound, and its id list was empty |
| Invariant.ProgressWaits | index.js:1285-1292 | with an empty or unfinished current round nothing changes |
| Invariant.ProgressFinishes | index.js:1294-1311 | with at most one winner only the status becomes completed |
| Invariant.ProgressAdvances | index.js:1314-1329 | with two or more winners the round rises by one and the winners are paired in match order |
| Liveness.RoundMatchesFrame | index.js:1285-1287 | a round read from ids whose records are unchanged is unchanged |
| Liveness.OpenFrame | index.js:1285-1292 | a tournament none of whose listed records changes keeps a pending match in its current round |
| Liveness.ResultsKeptChain | index.js:661-676 | results kept over a result and then over the engine's step are kept over both |
| Liveness.PairingPending | index.js:1143-1166 | a round paired from two or more entrants has a pending first match |
| Liveness.PairingGuild | index.js:1150-1160 | every record of a fresh round names the tournament and its guild |
| Liveness.NewRoundHomed | index.js:1128-1239 | after a new round every tournament and every record of it is still filed under its guild |
| Liveness.NewRoundOpen | index.js:1128-1239 | a new round from two or more entrants gives its tournament a pending match and leaves every other running round open |
| Liveness.NewRoundKeepsResults | index.js:1128-1239 | a new round overwrites no record that any tournament lists |
| Liveness.NewRoundKeepsLive | index.js:1128-1239 | a new round keeps every tournament homed, every running round open and every listed record |
| Liveness.StartKeepsLive | index.js:481-514 | starting a registering tournament keeps every tournament homed, every running round open and every listed record |
| Liveness.WaitOpen | index.js:1285-1292 | a running tournament on which the engine waits has a pending match in its current round |
| Liveness.WaitKeepsLive | index.js:1285-1292 | while the engine waits nothing changes and the guild's round is open |
| Liveness.FinishKeepsLive | index.js:1294-1311 | finishing a tournament changes no record and leaves every running round open |
| Liveness.AdvanceKeepsLive | index.js:1312-1329 | moving on to the next round keeps every tournament homed, every running round open and every listed record |
| Liveness.ProgressKeepsLive | index.js:1282-1330 | once every other running round is open, the engine's step leaves every running round open, every tournament homed and every completed listed record unchanged |
| Liveness.ProgressKeepsBot | index.js:1282-1330 | the engine's step keeps the whole invariant of the bot and every completed listed record |
| Liveness.SettleKeepsLive | index.js:661-676 | recording a result for a pending match changes no completed record, keeps every tournament homed, and leaves open every round except perhaps that of the match's own guild |
| Liveness.CreateKeepsLive | index.js:358-371 | registering a fresh tournament, filed under its guild and owning no record, keeps every tournament homed and every running round open |
| Liveness.ReplaceKeepsLive | index.js:588-602 | replacing a tournament by one with the same id, guild, status, round and list keeps every tournament homed and every running round open |
| Checks.ValidBestOfIsOdd | index.js:332 | a best-of count is accepted if and only if it is 2k+1 for some natural k. |
| Checks.TrimStart | index.js:397 | the result is a suffix starting with a non-space, and only white space was removed |
| Checks.TrimEnd | index.js:397 | the result is a prefix ending with a non-space, and only white space was removed |
| Checks.Trim | index.js:397 | the result is the middle of the input, with only white space removed on either side and none left at its ends |
| Checks.TrimIdempotent | index.js:397 | trimming twice is trimming once |
| Commands.WhatsAppOrDefault | index.js:579 | the stored number is the one given, or exactly "Not provided" when it is absent or empty |
| Commands.Shuffle | index.js:498-505 | the seeding shuffle permutes the array |
| Commands.Bot.constructor | index.js:26-34 | the bot starts with empty stores, in a sound state with no running tournament |
| Commands.Bot.CreateTournament | index.js:325-371 | rejects a bad best-of, then a code the live tournament of another guild holds; otherwise registers a fresh tournament for the guild; the state stays sound |
| Commands.Bot.SetBracketLink | index.js:385-405 | without a tournament or with a trimmed link not starting with http:// or https:// nothing changes; otherwise only the trimmed link is stored |
| Commands.Bot.JoinKeepsTournament | index.js:588-602 | appending an entrant not yet on the roster keeps the roster free of repeats |
| Commands.Bot.AddPlayer | index.js:546-602 | rejects without permission, tournament, open registration, or when already registered, changing nothing; otherwise appends the player at the end and records the profile |
| Commands.Bot.ApplicationDecision | index.js:1009-1036 | an accepted 1v1 player or 5v5 team leader is appended exactly when the tournament is registering and they are not on it; nothing else changes |
| Commands.Bot.AcceptInto | index.js:1011-1014 | the applicant is appended exactly when registration is open and they are not on the roster |
| Commands.Bot.StartTournament | index.js:468-514 | rejects, changing nothing, unless registering with two or more entrants; otherwise the seeds are a permutation of the roster, the tournament becomes the roster's tournament running round 1 with the first round's ids listed, and the store gains exactly that round's records; the state stays sound and no completed record any tournament lists changes |
| Commands.Bot.LaunchRound | index.js:507-514 | a registering tournament started on a seeding becomes that tournament running round 1 with the seeding's first-round ids listed, the store gains exactly those records, the state stays sound and no completed listed record changes |
| Commands.Bot.MaybeAdvance | index.js:1282-1330 | from a sound state in which only the guild's own round may lack a pending match, the new state is the engine's decision, it is sound with every running round open, no completed listed record changes, and the champion is returned exactly when the tournament finishes |
| Commands.Bot.CheckRound | index.js:1282-1330 | the new state is the engine's decision, and the champion is returned exactly when the tournament finishes |
| Commands.Bot.SetWinner | index.js:620-689 | rejects a winner who is not an entrant, then an already completed match, changing nothing; otherwise settles the match and advances its guild's tournament, returning the champion the engine announces for that guild; the state stays sound and no completed listed record changes |
| Commands.Bot.Store | index.js:1166-1167 | one record is stored under its id and its id appended to the tournament |
| Commands.Bot.AdvanceRound | index.js:1312-1330 | the round counter rises by one and the next round is paired from the winners in match order, exactly as the engine decides |
| Commands.Bot.CreateRoundMatches | index.js:1128-1239 | the tournament's ids grow by exactly the pairing's ids, in order, and the store by exactly its records |
| BracketImage.OfTournament | bracket-image.js:15-20 | exactly the records naming the tournament are collected |
| BracketImage.InRoundMembers | bracket-image.js:36-41 | a record is among a round's records exactly when it is a record of that round |
| BracketImage.CollectMatches | bracket-image.js:15-20 | the collection loop gathers the tournament's records in enumeration order |
| BracketImage.InRoundAbsent | bracket-image.js:36-41 | a round number that does not occur has no records |
| BracketImage.GroupStep | bracket-image.js:38-40 | appending a record to its round keeps the grouping exact |
| BracketImage.GroupKeysStep | bracket-image.js:38-40 | appending a record keeps the grouping exact and the key list free of repeats, a new round going to the end of the key list |
| BracketImage.GroupOfGrouped | bracket-image.js:36-41 | grouping a list of records record by record gives every occurring round its records in order, and the keys are the occurring rounds without repeats |
| BracketImage.GroupByRound | bracket-image.js:36-41 | each occurring round maps to its records in order, and the keys are the occurring rounds without repeats |
| BracketImage.Insert | bracket-image.js:43 | inserting into an ascending list keeps it ascending and adds exactly the element |
| BracketImage.SortAscending | bracket-image.js:43 | the sorted rounds are ascending and a permutation of the keys |
| BracketImage.SortedRounds | bracket-image.js:43 | the sorted keys are exactly the rounds, strictly ascending |
| BracketImage.MaxOf | bracket-image.js:266 | the final round is the largest round number |
| BracketImage.MaxRound | bracket-image.js:266 | the highest round is one that occurs and bounds all records |
| BracketImage.FindCompleted | bracket-image.js:268 | the first completed record, or none exactly when no record is completed |
| BracketImage.Losers | bracket-image.js:279-288 | at most one third place per semifinal match |
| BracketImage.LosersOfRound | bracket-image.js:279-288 | each third place is an entrant of a completed two-entrant match who did not win it; byes and pending matches contribute nothing |
| BracketImage.LosingSlotsLast | bracket-image.js:279-288 | the positions yielding a loser are those of all records but the last, plus the last when it yields one |
| BracketImage.LosersFound | bracket-image.js:283-288 | every record that yields a loser puts that loser among the third places |
| BracketImage.LosersCount | bracket-image.js:279-288 | there are exactly as many third places as records yielding a loser |
| BracketImage.ThirdPlace | bracket-image.js:279-288 | the loop collects exactly the semifinal losers in match order |
| BracketImage.PodiumAt | bracket-image.js:262-288 | a podium needs a completed final with a winner and two entrants; the champion won it, the runner-up played in it and differs from the champion when its two entrants differ; third places are the semifinal losers |
| BracketImage.GetGrouped | bracket-image.js:263 | looking a round up in the grouping gives exactly that round's records, none for a round that does not occur |
| BracketImage.HighestKey | bracket-image.js:262 | the largest key of the grouping is the highest round of the records |
| BracketImage.PodiumOfFinished | bracket-image.js:262-288 | a completed tournament's podium is the panel computed from its highest round and the round below |
| BracketImage.PanelOfGrouping | bracket-image.js:262-288 | the panel computed from the grouping is the podium of the tournament's records |
| BracketImage.WinnersPanel | bracket-image.js:262-288 | the panel takes its podium from the highest round and the round below it |
| BracketImage.RenderPodium | bracket-image.js:13-43 | the rounds shown are exactly the tournament's rounds, strictly ascending, with a podium only for a completed tournament |
| BracketImage.ThirdColumn | bracket-image.js:336-340 | the third-place column is never empty: it lists the third places, or exactly the placeholder "—" when there are none |
| BracketImage.Label | bracket-image.js:85-101 | no id gives TBD; a team name wins over the in-game name, which wins over the member's display name, then user name; a member who cannot be fetched gives Unknown |
| BracketImage.LabelSources | bracket-image.js:85-101 | every label is TBD, Unknown, or taken from the team, the profile or the member |
| PodiumLink.EnumeratedListed | bracket-image.js:15-20 | in a sound state every collected record of a tournament is one it lists, in a round already started |
| PodiumLink.EnumeratedInRound | bracket-image.js:36-41 | a collected record of a round is one of the engine's records of that round |
| PodiumLink.FinalIsHighest | bracket-image.js:266 | for a completed tournament the image's final round is the engine's current round |
| PodiumLink.FinalAlone | bracket-image.js:266-268 | the image's final round holds only the engine's one final match |
| PodiumLink.LosersListed | bracket-image.js:279-288 | each loser shown for a round played a completed two-entrant match of that round |
| PodiumLink.FinalPlaces | bracket-image.js:266-276 | the podium exists; its champion won the one final match and the runner-up is that match's other entrant |
| PodiumLink.TournamentPodium | bracket-image.js:262-288 | for a completed tournament consistent with the store (every tournament of a sound state is), the image shows a podium whose champion won the one final match and is the champion the engine announced, whose runner-up is the other finalist, and whose third places are the losers of completed two-entrant matches of the round before the final |
| Snapshot.AsMap | index.js:1333-1339 | the content's keys are exactly the entries' keys |
| Snapshot.AsMapEntries | index.js:1333-1339 | without repeated keys every entry is in the content |
| Snapshot.SetEntry | index.js:1345 | setting a key updates the content at that key only and keeps keys unique; a new key is appended |
| Snapshot.MapToObject | index.js:1333-1339 | the object holds exactly the map's key/value content (for a `__proto__` key see Left out) |
| Snapshot.ObjectToMap | index.js:1341-1348 | an absent object gives the empty map; otherwise the map has unique keys and exactly the object's content |
| Snapshot.SameEntries | index.js:1333-1348 | two maps with the same content hold the same entries |
| Snapshot.SameLength | index.js:1333-1348 | two key-unique maps with the same entries have the same number of entries |
| Snapshot.RoundTrip | index.js:1333-1348 | saving and loading gives a map with exactly the same key/value entries and as many of them (for a `__proto__` key see Left out) |
| Finding.CreateAsWritten | index.js:325-371 | the handler as written accepts any valid best-of, whichever codes are in use |
| Finding.CollisionOverwrites | index.js:1147-1167 | for every four-digit draw: from a sound state, a second guild drawing the same code is accepted, and its first record overwrites the record the first guild lists, breaking the invariant |

## Left out

- Discord I/O is left out: channels and categories, permission overwrites, replies, direct messages, embeds, modals and buttons. Permission checks become the boolean parameter `authorized`.
- The match channel lookup (`matchChannels`) is replaced by a `matchId` parameter to `SetWinner`.
- `Math.random` and `Date.now` become parameters:
  - the short-code draw is any value in [1000, 9999];
  - the shuffle index is any `j` in [0, i];
  - the tournament id must be fresh;
  - a generated `ext_` player id is the `playerId` parameter.
- Failure part-way through round creation is not modelled, including the missing-category error and a channel creation that throws (index.js:1129-1132, 1230-1239). Each round is created in one step. After such an error the source leaves the tournament half started.
- Reading and writing the state file with `fs` and JSON is left out. So is `loadState` itself: it reads that file and is never called in index.js. Only the map/object conversion is modelled.
- The `matchChannels`, `entryPortals` and `teamProfiles` maps are not modelled as state. The engine never writes team profiles; labels take them as a parameter.
- Presentation is left out: tournament info, participant export, rules text, modals, the `/bracket` command, lobby announcements and all canvas drawing and layout arithmetic.
- `deploy-commands.js` is not part of this model.
- Async/await and event dispatch are left out. Each command is one sequential atomic step.
- Commands.CodeFree: the corrected check compares the drawn code only with the live tournaments of other guilds. A guild that re-creates its tournament can draw the code of the tournament it replaced; starting the new one then overwrites the replaced tournament's records of the same ids, as the source also does. `Liveness.ResultsKept` therefore speaks only of tournaments still in place.
- Snapshot.ObjectToMap: the source walks an object's entries in JavaScript's property order, which puts integer-like keys first. The model allows any order, so it states the entries and not their order.
- Commands.Bot.SetWinner: when the match's guild has no tournament, the method returns after recording the result. This matches the source, but the contract's Ok case is then stated through `Engine.Progress`, which is a no-op for such a guild.
- Commands.Bot.SetWinner: `winner` may be any entrant id. In the source the winner is a required Discord user option (index.js:659), so an entrant added by `/add-player` without an account, whose id is a generated `ext_` id (index.js:585), can never be named winner. A match between two such entrants then stays pending for good, and its tournament never advances or finishes. The model allows results the source cannot record; a pending match exists, but the source may have no way to settle it.
- Snapshot.MapToObject: the object is modelled as a plain key/value map, so every string key is stored. In JavaScript, `obj[k] = v` on a `{}` with the key `"__proto__"` sets the object's prototype and stores no own property (index.js:1336). No key the bot stores can be that string: keys are guild ids, match ids of the form `NX<d>-R<r>-M<k>`, and user or `ext_` player ids (index.js:370, 597, 859, 1166, 1238).
- Snapshot.RoundTrip: for the same reason, the round trip keeps every key in the model. In JavaScript a `__proto__` entry would be missing from `Object.entries` (index.js:1344) and lost; the bot never stores such a key.
- BracketImage.PodiumAt: the runner-up differs from the champion only when the final's two entrants differ. The invariant does not track that next-round entrants are distinct.

## Findings

| source | as written | input that shows it | evidently intended | confidence | as-written member | corrected member |
|---|---|---|---|---|---|---|
| index.js:339 | `/create-tournament` draws a short code without checking other guilds, and match ids are built from the code, round and number only | guild A runs a tournament with code NX<d> for any four-digit draw d; guild B draws d too and starts with two players; B's record `NX<d>-R1-M1` replaces the record A lists | a code held by the live tournament of another guild is not handed out again, so the match ids of live tournaments of different guilds never collide | not executed | Finding.CollisionOverwrites | Commands.Bot.CreateTournament |
