# nero: a verified model of the party playback core

nero is a listening-party app. A host opens a party, guests join and add tracks to a
shared queue, everyone votes +1 or -1 on the song that is playing, and when the host
advances, the song's score is revealed and the next queued song starts. When the queue stays
empty past the party's idle timeout, or when the host ends the party, the played songs are
ranked and shown on a results page.

This project models the core of that app in Dafny:

- `types.dfy`: the store rows the real-time handlers read and write (party, participant, song,
  vote) and their statuses.
- `vote_table.dfy`: the vote table with its unique (song, participant) key, the upsert that
  `song:vote` performs, and the counts, sums and means read from it.
- `stable_sort.dfy`: `Array.prototype.sort` with a two-part descending comparator, modelled as a
  stable insertion sort. It proves that the result is sorted, is a permutation, keeps equal keys
  in input order, and is the only sequence with those three properties.
- `ranker.dfy`: `buildResults` (share of +1 votes, then vote count) and the mean-score ranking
  used when the idle countdown closes a party.
- `orchestrator.dfy`: the socket server as a class. It holds the four tables as maps or a
  sequence, the `idleTimers` map, a multiset of reveal delays still pending, and an append-only
  log of broadcasts. There is one method per socket handler (`party:join`, `playback:play`,
  `song:vote`, `playback:next`, `song:add`, `party:end`, `disconnect`). Two further methods are
  the deferred callbacks: the 3-second reveal delay (`RevealElapsed`) and the idle countdown
  (`IdleFired`). Each method states the whole new state as a field-by-field update of the old
  one, and each preserves `Valid()`.
- `percent.dfy`, `result_meter.dfy`: `Math.round(count / total * 100)` as exact integer
  round-half-up, and the yes/no vote meter.
- `results_page.dfy`: the results page's phase schedule (an imperative loop), the podium columns
  and their visibility thresholds, and the setlist's displayed percentage and rank.
- `room_state.dfy`: the client hook `useParty` as a reducer `Apply(room, event)`, with one case
  per socket event it listens to.

`Date.now()` is a `now` parameter. The order in which the store lists a party's played songs is
a parameter `fetched`, constrained to list each played song once. The id the store gives a new
song is a parameter `newId`. "findFirst ordered by position" is a nondeterministic choice of
*some* queued song of least position, because positions can collide.

Three behaviours of the code are worth stating plainly, and the model follows each:

- `song:vote` does not check that the value is +1 or -1: it stores whatever value arrives.
  Only the lemmas that need it (`SumOfWellFormed` and `MeanScoreBounds`) assume `WellFormed`,
  that is, every value is +1 or -1.
- `song:add` does not validate its payload. The model assumes the payload carries only track
  fields, so the spread `...song` cannot override `position` or `status`.
- `buildResults` ranks a song with a single +1 above one with votes +1, +1, -1, because it
  sorts by the share of +1 votes first (1 > 2/3); `Ranker.SingleYesRanksFirst` proves it.

## Model

| member | source | states |
|---|---|---|
| `VoteTable.Upsert` | backend/src/index.ts:208-214 | the new vote is in the table; every other row was already there; the table grows by one row exactly when the pair had no row |
| `VoteTable.UpsertStoresLatest` | backend/src/index.ts:209-213 | after the upsert, the pair's row holds the value just sent |
| `VoteTable.UpsertKeepsOthers` | backend/src/index.ts:209-213 | every other (song, participant) pair keeps the value it had |
| `VoteTable.UpsertKeepsUnique` | backend/src/index.ts:210 | upsert preserves the unique key: at most one row per (song, participant) |
| `VoteTable.VotesOf` | backend/src/index.ts:222-225 | a song's votes are exactly the table rows for that song |
| `VoteTable.MeanScore` | backend/src/index.ts:235-239 | the reveal score is 0 with no votes, else a value whose product with the vote count is the sum of the values |
| `VoteTable.CountsWithinTotal` | frontend/src/components/ResultMeter.tsx:2-4 | the +1 votes and the -1 votes together are at most all votes |
| `VoteTable.SumOfWellFormed` | backend/src/index.ts:237 | with values +1 and -1 only, the sum is (+1 count) minus (-1 count), and the two counts make up all votes |
| `VoteTable.MeanScoreBounds` | backend/src/index.ts:235-239 | with values +1 and -1 only, the reveal score lies in [-1, 1] |
| `StableSort.Sort` | backend/src/index.ts:23-28 | the sort is a permutation of its input, with the same length |
| `StableSort.SortSorted` | backend/src/index.ts:23-28 | no element of the output sorts strictly before an earlier one |
| `StableSort.SortStable` | backend/src/index.ts:23-28 | the elements with any one key appear in input order |
| `StableSort.SortIsUnique` | backend/src/index.ts:23-28 | any sorted sequence with the same elements per key, in input order, equals the sort |
| `StableSort.SortProject` | backend/src/index.ts:16-28 | sorting permutes any projection of the elements in the same way |
| `Ranker.YesFraction` | backend/src/index.ts:18-20 | a song's share is 0 with no votes, else (+1 count)/total; it lies in [0, 1] |
| `Ranker.BuildResultsIsPermutation` | backend/src/index.ts:15-29 | the results list every played song exactly as often as the input does |
| `Ranker.BuildResultsEntries` | backend/src/index.ts:17-21 | every entry's total is its song's vote count and its share is that song's +1 fraction |
| `Ranker.BuildResultsOrdered` | backend/src/index.ts:23-28 | the share never increases down the list; at an equal share, the vote count never increases |
| `Ranker.BuildResultsStable` | backend/src/index.ts:23-28 | entries with equal (share, count) keep the store's order |
| `Ranker.BuildResultsUnique` | backend/src/index.ts:15-29 | the ordering and stability properties determine the results completely |
| `Ranker.SingleYesRanksFirst` | backend/src/index.ts:23-28 | a song with one +1 vote ranks above one with votes +1, +1, -1 |
| `Ranker.RankByScoreIsPermutation` | backend/src/index.ts:301-309 | the idle-close results list every played song exactly as often as the input does |
| `Ranker.RankByScoreEntries` | backend/src/index.ts:301-308 | each idle-close entry carries its own song's mean vote value, 0 when it has no votes |
| `Ranker.RankByScoreOrdered` | backend/src/index.ts:309 | the mean score never increases down the idle-close list |
| `Ranker.RankByScoreStable` | backend/src/index.ts:309 | songs with equal mean score keep the store's order |
| `Orchestrator.PlayedSongsOfParty` | backend/src/index.ts:259-262 | when the store lists the party's played songs, every entry is a played song of that party with its own row, every played song of the party is in exactly one entry, and each entry carries exactly the votes of its song |
| `Orchestrator.NextQueuedExists` | backend/src/index.ts:270-273 | a party with a queued song has a queued song of least position |
| `Orchestrator.LeastPosition` | backend/src/index.ts:179-182 | every non-empty set of songs has a member of least position |
| `Orchestrator.Server.constructor` | backend/src/index.ts:13 | the server starts from the given rows, with no idle timers, no pending reveals and an empty log |
| `Orchestrator.Server.Join` | backend/src/index.ts:148-171 | the participant's socket is recorded; the snapshot goes to the socket, then the participant, or undefined when it is not in that party, goes to the room; an unknown participant changes nothing |
| `Orchestrator.Server.Play` | backend/src/index.ts:174-205 | a missing party, a non-host caller or an empty queue changes nothing; otherwise one queued song of least position becomes playing at `now`, the party leaves the lobby only if it was in the lobby, and nothing else changes |
| `Orchestrator.Server.CastVote` | backend/src/index.ts:208-214 | the table becomes the upsert of the vote, with any value; the pair now holds it and every other pair is unchanged |
| `Orchestrator.Server.Next` | backend/src/index.ts:217-247 | a guard failure or no playing song changes nothing; otherwise a playing song becomes played, its mean score and votes are revealed, one reveal delay is armed, and the party row is untouched |
| `Orchestrator.Server.RevealElapsed` | backend/src/index.ts:248-317 | one pending reveal delay is used up; an ending party becomes ended and gets `buildResults` of its played songs; else a queued song of least position starts; else the idle deadline now + idleTimeout·1000 is recorded, replacing any earlier one |
| `Orchestrator.Server.CloseWithResults` | backend/src/index.ts:252-266 | the party becomes ended and the room receives `buildResults` of the listed songs; nothing else changes |
| `Orchestrator.Server.PromoteNext` | backend/src/index.ts:269-282 | a queued song of least position becomes playing at `now` and is announced; nothing else changes |
| `Orchestrator.Server.ArmIdle` | backend/src/index.ts:287-315 | the room is told the idle deadline and the idle entry is set to it; nothing else changes |
| `Orchestrator.Server.IdleFired` | backend/src/index.ts:290-313 | the party becomes ended, its played songs are ranked by mean score, and the idle entry is deleted |
| `Orchestrator.Server.Add` | backend/src/index.ts:321-360 | a new queued song is stored at position = queued count, credited to the participant's name or "unknown"; if an idle entry existed, it is removed and exactly the new song starts playing |
| `Orchestrator.Server.CancelIdleAndStart` | backend/src/index.ts:344-359 | the idle entry is removed, the room is told, and the given song becomes playing at `now`; nothing else changes |
| `Orchestrator.Server.End` | backend/src/index.ts:365-383 | a non-host caller changes nothing; otherwise the idle entry is removed and the party becomes ending, whatever its status was |
| `Orchestrator.Server.Disconnect` | backend/src/index.ts:386-404 | with no participant on that socket, nothing changes; otherwise one such participant goes offline and its party is told |
| `Percent.RoundedPercent` | frontend/src/components/ResultMeter.tsx:6-7 | 0 with no votes, else 100·count/total rounded half up, never above 100 |
| `Percent.RoundedPercentIs` | frontend/src/components/ResultMeter.tsx:6-7 | the rounding bounds determine the percentage: any value within them is the result |
| `ResultMeter.MeterCounts` | frontend/src/components/ResultMeter.tsx:2-4 | yes counts the +1 votes, no the -1 votes, total all votes, and yes + no ≤ total |
| `ResultMeter.MeterPercents` | frontend/src/components/ResultMeter.tsx:6-7 | both percentages are 0 with no votes, each is its count rounded half up, and each lies in [0, 100] |
| `ResultMeter.CountValueAppend` | frontend/src/components/ResultMeter.tsx:2-3 | one more vote raises the count of its own value by one and no other count |
| `ResultMeter.AppendVote` | frontend/src/components/ResultMeter.tsx:2-7 | a vote other than +1 leaves the yes count alone, one other than -1 leaves the no count alone, and any vote raises the total |
| `ResultsPage.SchedulePhases` | frontend/src/pages/Results.tsx:36-45 | without results no timer is armed; otherwise phase k+1 is armed at the sum of the first k+1 delays |
| `ResultsPage.PrefixSumIncreasing` | frontend/src/pages/Results.tsx:39-42 | with positive delays, the running totals strictly increase |
| `ResultsPage.PhaseTimes` | frontend/src/pages/Results.tsx:6 | phases 1 to 4 fire at strictly increasing times, the last at 12500 ms |
| `ResultsPage.PodiumEntry` | frontend/src/pages/Results.tsx:49-51 | first, second and third are results[0], [1] and [2], or absent when the list is shorter |
| `ResultsPage.RevealPhase` | frontend/src/pages/Results.tsx:71-73 | third is visible from phase 1, second from 2, first from 3 |
| `ResultsPage.VisibilityMonotone` | frontend/src/pages/Results.tsx:71-73 | once visible a column stays visible, and columns appear from third to first |
| `ResultsPage.PodiumInRankOrder` | frontend/src/pages/Results.tsx:49-51 | on an ending party's results (`buildResults`), the podium's shares do not increase from first to third |
| `ResultsPage.DisplayPercent` | frontend/src/pages/Results.tsx:85-87 | the shown percentage is 0 with no votes, else 100·yes/total rounded half up, within [0, 100] |
| `ResultsPage.RankBy` | frontend/src/pages/Results.tsx:90-95 | a rank counts the earlier entries with another key, plus one, so 1 ≤ rank(i) ≤ i + 1 |
| `ResultsPage.Rank` | frontend/src/pages/Results.tsx:89-95 | the setlist rank compares the displayed (percent, total); 1 ≤ rank(i) ≤ i + 1 |
| `ResultsPage.RankOfFirst` | frontend/src/pages/Results.tsx:90-95 | the first entry is ranked 1 |
| `ResultsPage.RankTiesWithPrevious` | frontend/src/pages/Results.tsx:89-95 | an entry with the same key as the entry before it shares its rank |
| `ResultsPage.RankOfNewKey` | frontend/src/pages/Results.tsx:89-95 | an entry whose key no earlier entry has is ranked i + 1 |
| `ResultsPage.RankIsCompetition` | frontend/src/pages/Results.tsx:89-95 | when equal keys are contiguous, an entry is ranked one more than the index of the first entry with its key |
| `ResultsPage.DisplayRankSplitsTie` | frontend/src/pages/Results.tsx:84-95 | shares 201/300, 669/1000 and 200/300 are listed in that order and all show 67%; the first and the last show the same key yet are ranked 1 and 2 |
| `ResultsPage.TieOrder` | backend/src/index.ts:23-28 | with shares 201/300, 669/1000 and 200/300, `buildResults` keeps the songs in that order |
| `ResultsPage.TieKeys` | frontend/src/pages/Results.tsx:84-87 | those three shares all show 67%, and the first and last also show the same vote count |
| `ResultsPage.ShareRank` | frontend/src/pages/Results.tsx:89-95 | the corrected rank compares the (share, count) key the list was sorted by; 1 ≤ rank(i) ≤ i + 1 |
| `ResultsPage.BuildResultsContiguous` | backend/src/index.ts:23-28 | in a closed party's results, entries with equal sort keys stand together |
| `ResultsPage.ShareRankIsCompetition` | frontend/src/pages/Results.tsx:89-95 | with the corrected rank, an entry is ranked one more than the index of the first entry it ties with, and tied entries share a rank |
| `RoomState.JoinAppendsIffAbsent` | frontend/src/hooks/useParty.ts:26-31 | a join appends the participant exactly when no listed participant has its id, and changes nothing otherwise |
| `RoomState.JoinIdempotent` | frontend/src/hooks/useParty.ts:26-31 | handling the same join twice equals handling it once |
| `RoomState.WithoutMembers` | frontend/src/hooks/useParty.ts:33-37 | after a leave, the list holds exactly the participants with another id |
| `RoomState.WithoutRemovesAll` | frontend/src/hooks/useParty.ts:33-37 | no participant with the departed id is left |
| `RoomState.WithoutAbsent` | frontend/src/hooks/useParty.ts:33-37 | a leave for an id nobody has changes nothing |
| `RoomState.WithoutConcat` | frontend/src/hooks/useParty.ts:33-37 | the filter works on each part of a list separately, so the others keep their order |
| `RoomState.WithoutIdempotent` | frontend/src/hooks/useParty.ts:33-37 | leaving twice equals leaving once |
| `RoomState.ApplyKeepsUniqueIds` | frontend/src/hooks/useParty.ts:20-37 | participant ids stay unique through every event, for snapshots that bring unique ids |
| `RoomState.SongAddedAppends` | frontend/src/hooks/useParty.ts:39-41 | a song:added keeps the old list as a prefix and puts the song last; the length grows by one |
| `RoomState.SongsAddedCount` | frontend/src/hooks/useParty.ts:39-41 | n song:added events append their songs in order, with no deduplication |
| `RoomState.PlaybackEvents` | frontend/src/hooks/useParty.ts:43-50 | playback:started clears the reveal and makes (song id, start time) current; playback:reveal shows its payload |
| `RoomState.IdleEvents` | frontend/src/hooks/useParty.ts:52-58 | queue:idle shows the deadline and queue:idle:cancel clears it |
| `RoomState.PartyStateReplaces` | frontend/src/hooks/useParty.ts:20-24 | a snapshot replaces party, participants and songs whatever they were |
| `RoomState.OnlyOwnFieldsChange` | frontend/src/hooks/useParty.ts:20-62 | each event changes only the fields its handler sets, and party:ended changes no state |

## Left out

- The REST routes (`POST /parties`, `GET /parties/:id`, `POST /parties/:id/join`): transaction and
  HTTP plumbing that creates the rows the constructor takes as given.
- The iTunes search proxy: a network call plus a mapping over a foreign response.
- Socket.io room membership and fan-out, and process setup: broadcasts are entries in a log,
  tagged with the party or socket they go to.
- Real timers: the 3000 ms reveal delay and the `idleTimeout * 1000` countdown are the
  environment's steps `RevealElapsed` and `IdleFired`. `clearTimeout` of a replaced idle timer is
  not modelled: a second `queue:idle` overwrites the map entry, while the old timer in the source
  could still fire. The model only records the map entry.
- Interleaving between the `await`s inside a handler: each handler is one atomic step, and
  concurrent behaviour is not verified.
- Floating point: shares and scores are exact `real`s, and `Math.round` is exact round-half-up on
  integers. Agreement with IEEE arithmetic at exact half-way points is assumed.
- Referential integrity: the store schema is not part of this model. A vote or an added song for
  a missing song, party or participant simply creates its row. `party:join` on an unknown
  participant is modelled as doing nothing, where the store's update would throw.
- Snapshot contents: `PartyStateSent` records only whether the party was found, not the party,
  participant and song lists it carries.
- `...song` in `song:add` is assumed to carry only track fields, so it cannot override `position`,
  `status` or `partyId`.
- `Orchestrator.Server.RevealElapsed`: the source computes the idle deadline from the party row it
  read when `playback:next` ran. The model reads the row when the delay elapses. The two agree
  because no handler changes `idleTimeout`.
- `Orchestrator.Server.Play`: no invariant "at most one song is playing" is claimed, because
  `playback:play` does not check for a song already playing.
- A party can stay `ending` for good: `party:end` removes the idle entry, and only a reveal
  delay closes the party, either one already pending (`party:end` during the 3-second delay) or
  one that follows a new play and next. With no reveal delay pending and no song playing, nothing
  closes it. This follows from the method contracts; no lemma states it.
- The client's `participant:joined` with an undefined participant (sent when the joining
  participant is not in the party) is not modelled: the client event always carries a participant.
- `party:ended` on the client navigates to the results page. In the reducer it changes no state.
- The results page is modelled over `buildResults` entries (share, count) only. The idle-close
  list of `{song, score}` entries (backend/src/index.ts:301-311) that the page also renders is
  not modelled there; its podium and ranks over `score` are not covered.
- Rendering, navigation, local storage and `JSON.parse` on the results page. The other pages and
  components (Home, JoinForm, NowPlaying, Queue, Party, App) are not part of this model.
- `frontend/src/types.ts` has no behaviour; the datatypes follow its shapes.

## Findings

| source | as written | input that shows it | evidently intended | confidence | as-written member | corrected member |
|---|---|---|---|---|---|---|
| frontend/src/pages/Results.tsx:89-95 | the rank counts earlier entries whose rounded display key (percent, total) differs, but the list is sorted by the exact share, so entries with equal display keys need not be adjacent | played songs with 201 of 300, 669 of 1000 and 200 of 300 +1 votes: all show 67%, the first and the third show the same key (67%, 300) yet are ranked 1 and 2, and the second (67%, 1000) is also ranked 2 | ties share a rank, numbers after a tie are skipped: rank by the key the list was sorted by | medium, not executed | `ResultsPage.DisplayRankSplitsTie` | `ResultsPage.ShareRankIsCompetition` |
