/**
 * The two rankings of played songs computed when a party closes: `buildResults`
 * (share of +1 votes, then vote count) on the graceful-end path, and the mean-score
 * ranking on the idle-timeout path.
 */
module Ranker {
  import opened Types
  import opened VoteTable
  import opened StableSort

  /** One line of the results: the song, its share of +1 votes, and how many votes it got. */
  datatype ResultEntry = ResultEntry(song: SongWithVotes, yesPercent: real, total: nat)

  /** One line of the idle-close results: the song and its mean vote value. */
  datatype ScoreEntry = ScoreEntry(song: SongWithVotes, score: real)

  /** The share of votes whose value is exactly 1, or 0 for a song nobody voted on. */
  function YesFraction(votes: seq<Vote>): (r: real)
    ensures |votes| == 0 ==> r == 0.0
    ensures |votes| > 0 ==> r * (|votes| as real) == CountValue(votes, 1) as real
    ensures 0.0 <= r <= 1.0
  {
    CountsWithinTotal(votes);
    if |votes| > 0 then
      var n := |votes| as real;
      var q := CountValue(votes, 1) as real / n;
      assert q * n == CountValue(votes, 1) as real;
      assert q <= 1.0;
      q
    else 0.0
  }

  function Tally(song: SongWithVotes): ResultEntry {
    ResultEntry(song, YesFraction(song.votes), |song.votes|)
  }

  function EntryKey(e: ResultEntry): Key {
    Key(e.yesPercent, e.total)
  }

  function EntrySong(e: ResultEntry): SongWithVotes {
    e.song
  }

  /** `buildResults`: tally every played song, then sort by share of +1 votes, then by vote count. */
  function BuildResults(played: seq<SongWithVotes>): seq<ResultEntry> {
    Sort(Project(played, Tally), EntryKey)
  }

  /** The results list every played song exactly as often as the input does. */
  lemma BuildResultsIsPermutation(played: seq<SongWithVotes>)
    ensures |BuildResults(played)| == |played|
    ensures multiset(Project(BuildResults(played), EntrySong)) == multiset(played)
  {
    var tallied := Project(played, Tally);
    SortProject(tallied, EntryKey, EntrySong);
    assert Project(tallied, EntrySong) == played;
  }

  /** Every entry carries its own song's vote count and share of +1 votes. */
  lemma BuildResultsEntries(played: seq<SongWithVotes>, i: nat)
    requires i < |BuildResults(played)|
    ensures BuildResults(played)[i].total == |BuildResults(played)[i].song.votes|
    ensures BuildResults(played)[i].yesPercent == YesFraction(BuildResults(played)[i].song.votes)
  {
    var r := BuildResults(played);
    var tallied := Project(played, Tally);
    assert r[i] in multiset(tallied);
    var j :| 0 <= j < |tallied| && tallied[j] == r[i];
  }

  /** Share of +1 votes never increases down the list; at an equal share, neither does the vote count. */
  lemma BuildResultsOrdered(played: seq<SongWithVotes>, i: nat, j: nat)
    requires i < j < |BuildResults(played)|
    ensures BuildResults(played)[i].yesPercent >= BuildResults(played)[j].yesPercent
    ensures BuildResults(played)[i].yesPercent == BuildResults(played)[j].yesPercent ==>
              BuildResults(played)[i].total >= BuildResults(played)[j].total
  {
    SortSorted(Project(played, Tally), EntryKey);
  }

  /** Entries with equal (share, count) keep the order in which the store returned the songs. */
  lemma BuildResultsStable(played: seq<SongWithVotes>, k: Key)
    ensures WithKey(BuildResults(played), EntryKey, k) == WithKey(Project(played, Tally), EntryKey, k)
  {
    SortStable(Project(played, Tally), EntryKey, k);
  }

  /** The three properties above determine the results completely. */
  lemma BuildResultsUnique(played: seq<SongWithVotes>, t: seq<ResultEntry>)
    requires Sorted(t, EntryKey)
    requires forall k :: WithKey(t, EntryKey, k) == WithKey(Project(played, Tally), EntryKey, k)
    ensures t == BuildResults(played)
  {
    SortIsUnique(Project(played, Tally), t, EntryKey);
  }

  /** A song with one +1 vote (share 1) ranks above one with +1, +1, -1 (share 2/3). */
  lemma SingleYesRanksFirst(row: SongRow)
    ensures
      var a := SongWithVotes("a", row, [Vote("a", "x", 1), Vote("a", "y", 1), Vote("a", "z", -1)]);
      var b := SongWithVotes("b", row, [Vote("b", "x", 1)]);
      BuildResults([a, b]) == [ResultEntry(b, 1.0, 1), ResultEntry(a, 2.0 / 3.0, 3)]
  {
    var a := SongWithVotes("a", row, [Vote("a", "x", 1), Vote("a", "y", 1), Vote("a", "z", -1)]);
    var b := SongWithVotes("b", row, [Vote("b", "x", 1)]);
    assert CountValue(a.votes, 1) == 2;
    assert CountValue(b.votes, 1) == 1;
    var ta, tb := ResultEntry(a, 2.0 / 3.0, 3), ResultEntry(b, 1.0, 1);
    assert Tally(a) == ta && Tally(b) == tb;
    assert Project([a, b], Tally) == [ta, tb];
    assert Sort([tb], EntryKey) == [tb];
    assert Insert(ta, [tb], EntryKey) == [tb] + Insert(ta, [], EntryKey);
  }

  function Score(song: SongWithVotes): ScoreEntry {
    ScoreEntry(song, MeanScore(song.votes))
  }

  function ScoreKey(e: ScoreEntry): Key {
    Key(e.score, 0)
  }

  function ScoreSong(e: ScoreEntry): SongWithVotes {
    e.song
  }

  /** The idle-close ranking: mean vote value, larger first, ties in store order. */
  function RankByScore(played: seq<SongWithVotes>): seq<ScoreEntry> {
    Sort(Project(played, Score), ScoreKey)
  }

  /** The idle-close results list every played song exactly as often as the input does. */
  lemma RankByScoreIsPermutation(played: seq<SongWithVotes>)
    ensures |RankByScore(played)| == |played|
    ensures multiset(Project(RankByScore(played), ScoreSong)) == multiset(played)
  {
    var scored := Project(played, Score);
    SortProject(scored, ScoreKey, ScoreSong);
    assert Project(scored, ScoreSong) == played;
  }

  /** Every idle-close entry carries its own song's mean vote value. */
  lemma RankByScoreEntries(played: seq<SongWithVotes>, i: nat)
    requires i < |RankByScore(played)|
    ensures RankByScore(played)[i].score == MeanScore(RankByScore(played)[i].song.votes)
  {
    var r := RankByScore(played);
    var scored := Project(played, Score);
    assert r[i] in multiset(scored);
    var k :| 0 <= k < |scored| && scored[k] == r[i];
  }

  /** Idle-close scores never increase down the list. */
  lemma RankByScoreOrdered(played: seq<SongWithVotes>, i: nat, j: nat)
    requires i < j < |RankByScore(played)|
    ensures RankByScore(played)[i].score >= RankByScore(played)[j].score
  {
    SortSorted(Project(played, Score), ScoreKey);
  }

  /** Songs with equal mean score keep store order. */
  lemma RankByScoreStable(played: seq<SongWithVotes>, score: real)
    ensures WithKey(RankByScore(played), ScoreKey, Key(score, 0)) == WithKey(Project(played, Score), ScoreKey, Key(score, 0))
  {
    SortStable(Project(played, Score), ScoreKey, Key(score, 0));
  }
}
