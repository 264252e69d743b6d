/**
 * The results page: the timed phase schedule, the three podium columns and when each
 * appears, and the setlist's displayed percentage and rank for each entry.
 */
module ResultsPage {
  import opened Types
  import opened VoteTable
  import opened Percent
  import opened Ranker
  import opened StableSort

  /** `PHASE_DELAYS`: milliseconds between one phase and the next. */
  const PhaseDelays: seq<nat> := [2500, 3000, 3000, 4000]

  /** A `setTimeout` the page arms: switch to `phase` after `at` milliseconds. */
  datatype PhaseTimer = PhaseTimer(phase: nat, at: nat)

  /** The sum of the first n delays. */
  function PrefixSum(s: seq<nat>, n: nat): nat
    requires n <= |s|
  {
    if n == 0 then 0 else PrefixSum(s, n - 1) + s[n - 1]
  }

  /** The effect that arms one timer per delay, each at the running total of the delays so far. */
  method SchedulePhases(hasResults: bool) returns (timers: seq<PhaseTimer>)
    ensures !hasResults ==> timers == []
    ensures hasResults ==> |timers| == |PhaseDelays|
    ensures hasResults ==> forall k :: 0 <= k < |timers| ==> timers[k] == PhaseTimer(k + 1, PrefixSum(PhaseDelays, k + 1))
  {
    timers := [];
    if !hasResults {
      return;
    }
    var elapsed := 0;
    for i := 0 to |PhaseDelays|
      invariant |timers| == i
      invariant elapsed == PrefixSum(PhaseDelays, i)
      invariant forall k :: 0 <= k < i ==> timers[k] == PhaseTimer(k + 1, PrefixSum(PhaseDelays, k + 1))
    {
      elapsed := elapsed + PhaseDelays[i];
      timers := timers + [PhaseTimer(i + 1, elapsed)];
    }
  }

  /** With positive delays the running totals strictly increase. */
  lemma {:induction false} PrefixSumIncreasing(s: seq<nat>, m: nat, n: nat)
    requires m < n <= |s|
    requires forall i :: 0 <= i < |s| ==> s[i] > 0
    ensures PrefixSum(s, m) < PrefixSum(s, n)
  {
    if m < n - 1 {
      PrefixSumIncreasing(s, m, n - 1);
    }
  }

  /** Phases 1 to 4 fire at strictly increasing times, the last at 12500 ms. */
  lemma PhaseTimes()
    ensures forall k, l :: 1 <= k < l <= |PhaseDelays| ==> PrefixSum(PhaseDelays, k) < PrefixSum(PhaseDelays, l)
    ensures PrefixSum(PhaseDelays, |PhaseDelays|) == 12500
  {
    forall k, l | 1 <= k < l <= |PhaseDelays| ensures PrefixSum(PhaseDelays, k) < PrefixSum(PhaseDelays, l) {
      PrefixSumIncreasing(PhaseDelays, k, l);
    }
    assert PrefixSum(PhaseDelays, 1) == 2500;
    assert PrefixSum(PhaseDelays, 2) == 5500;
    assert PrefixSum(PhaseDelays, 3) == 8500;
  }

  /** The three podium columns. */
  datatype Column = First | Second | Third

  /** The results index a column shows. */
  function Place(c: Column): nat {
    match c
    case First => 0
    case Second => 1
    case Third => 2
  }

  /** `results[i] ?? null`: the entry a column shows, if the results are that long. */
  function PodiumEntry(results: seq<ResultEntry>, c: Column): (r: Option<ResultEntry>)
    ensures r.Some? <==> Place(c) < |results|
    ensures r.Some? ==> r.value == results[Place(c)]
  {
    if Place(c) < |results| then Some(results[Place(c)]) else None
  }

  /** The first phase at which a column is visible: third at 1, second at 2, first at 3. */
  function RevealPhase(c: Column): (p: nat)
    ensures 1 <= p <= 3
    ensures p == 3 - Place(c)
  {
    match c
    case First => 3
    case Second => 2
    case Third => 1
  }

  predicate Visible(c: Column, phase: int) {
    phase >= RevealPhase(c)
  }

  /** Columns appear from third to first, and once visible a column stays visible. */
  lemma VisibilityMonotone(c: Column, phase: int, later: int)
    requires phase <= later
    ensures Visible(c, phase) ==> Visible(c, later)
    ensures Visible(First, phase) ==> Visible(Second, phase)
    ensures Visible(Second, phase) ==> Visible(Third, phase)
  {
  }

  /** On the results of a closed party, the podium columns are in ranking order. */
  lemma PodiumInRankOrder(played: seq<SongWithVotes>)
    ensures
      var r := BuildResults(played);
      var a, b, c := PodiumEntry(r, First), PodiumEntry(r, Second), PodiumEntry(r, Third);
      (b.Some? ==> a.Some? && a.value.yesPercent >= b.value.yesPercent) &&
      (c.Some? ==> b.Some? && b.value.yesPercent >= c.value.yesPercent)
  {
    var r := BuildResults(played);
    if |r| > 1 { BuildResultsOrdered(played, 0, 1); }
    if |r| > 2 { BuildResultsOrdered(played, 1, 2); }
  }

  /** The percentage the setlist shows: +1 votes over all votes, rounded half up, 0 with no votes. */
  function DisplayPercent(e: ResultEntry): (r: nat)
    ensures r <= 100
    ensures |e.song.votes| == 0 ==> r == 0
    ensures |e.song.votes| > 0 ==>
      2 * |e.song.votes| * r <= 200 * CountValue(e.song.votes, 1) + |e.song.votes| < 2 * |e.song.votes| * (r + 1)
  {
    CountsWithinTotal(e.song.votes);
    RoundedPercent(CountValue(e.song.votes, 1), |e.song.votes|)
  }

  /** What decides ties in the setlist: the displayed percentage and the vote count. */
  datatype DisplayKey = DisplayKey(percent: nat, total: nat)

  function KeyOf(e: ResultEntry): DisplayKey {
    DisplayKey(DisplayPercent(e), |e.song.votes|)
  }

  /** How many entries of s have a key other than k. */
  function CountDiffering<K(==)>(s: seq<ResultEntry>, key: ResultEntry -> K, k: K): (n: nat)
    ensures n <= |s|
  {
    if s == [] then 0
    else CountDiffering(s[..|s| - 1], key, k) + (if key(s[|s| - 1]) != k then 1 else 0)
  }

  /** One more than the number of entries before i whose key differs from entry i's. */
  function RankBy<K(==)>(results: seq<ResultEntry>, i: nat, key: ResultEntry -> K): (r: nat)
    requires i < |results|
    ensures 1 <= r <= i + 1
  {
    CountDiffering(results[..i], key, key(results[i])) + 1
  }

  /** The rank the setlist shows for entry i, by displayed percentage and vote count. */
  function Rank(results: seq<ResultEntry>, i: nat): (r: nat)
    requires i < |results|
    ensures 1 <= r <= i + 1
  {
    RankBy(results, i, KeyOf)
  }

  lemma CountDifferingStep<K>(s: seq<ResultEntry>, n: nat, key: ResultEntry -> K, k: K)
    requires n < |s|
    ensures CountDiffering(s[..n + 1], key, k) == CountDiffering(s[..n], key, k) + (if key(s[n]) != k then 1 else 0)
  {
    assert s[..n + 1][..n] == s[..n];
  }

  /** The first entry is ranked 1. */
  lemma RankOfFirst(results: seq<ResultEntry>)
    requires |results| > 0
    ensures Rank(results, 0) == 1
  {
  }

  /** An entry with the same key as the one before it shares its rank. */
  lemma RankTiesWithPrevious<K>(results: seq<ResultEntry>, i: nat, key: ResultEntry -> K)
    requires 0 < i < |results|
    requires key(results[i - 1]) == key(results[i])
    ensures RankBy(results, i, key) == RankBy(results, i - 1, key)
  {
    CountDifferingStep(results, i - 1, key, key(results[i]));
  }

  /** n entries none of which has key k. */
  lemma {:induction false} CountAllDiffering<K>(s: seq<ResultEntry>, n: nat, key: ResultEntry -> K, k: K)
    requires n <= |s|
    requires forall j :: 0 <= j < n ==> key(s[j]) != k
    ensures CountDiffering(s[..n], key, k) == n
  {
    if n > 0 {
      CountAllDiffering(s, n - 1, key, k);
      CountDifferingStep(s, n - 1, key, k);
    }
  }

  /** An entry whose key no earlier entry has is ranked by its position: i + 1. */
  lemma RankOfNewKey<K>(results: seq<ResultEntry>, i: nat, key: ResultEntry -> K)
    requires i < |results|
    requires forall j :: 0 <= j < i ==> key(results[j]) != key(results[i])
    ensures RankBy(results, i, key) == i + 1
  {
    CountAllDiffering(results, i, key, key(results[i]));
  }

  /** Entries of equal key stand next to each other. */
  ghost predicate KeysContiguous<K>(results: seq<ResultEntry>, key: ResultEntry -> K) {
    forall a, b, c :: 0 <= a < b < c < |results| && key(results[a]) == key(results[c]) ==>
      key(results[b]) == key(results[a])
  }

  lemma {:induction false} CountFromFirst<K>(s: seq<ResultEntry>, f: nat, n: nat, key: ResultEntry -> K, k: K)
    requires f <= n <= |s|
    requires forall j :: 0 <= j < f ==> key(s[j]) != k
    requires forall j :: f <= j < n ==> key(s[j]) == k
    ensures CountDiffering(s[..n], key, k) == f
  {
    if n == f {
      CountAllDiffering(s, f, key, k);
    } else {
      CountFromFirst(s, f, n - 1, key, k);
      CountDifferingStep(s, n - 1, key, k);
    }
  }

  /**
   * Competition ranking: when equal keys are contiguous, every entry is ranked one more
   * than the index of the first entry sharing its key, so ties share a rank and the
   * numbers after a tie are skipped.
   */
  lemma RankIsCompetition<K>(results: seq<ResultEntry>, i: nat, f: nat, key: ResultEntry -> K)
    requires KeysContiguous(results, key)
    requires f <= i < |results| && key(results[f]) == key(results[i])
    requires forall j :: 0 <= j < f ==> key(results[j]) != key(results[i])
    ensures RankBy(results, i, key) == f + 1
  {
    CountFromFirst(results, f, i, key, key(results[i]));
  }

  /**
   * As written, the rank compares the rounded display key while the list is ordered by the
   * exact share: shares 201/300, 669/1000 and 200/300 are listed in that order, all show
   * 67%, and the first and last show the same key yet are ranked 1 and 2.
   */
  lemma DisplayRankSplitsTie(c: SongWithVotes, b: SongWithVotes, a: SongWithVotes)
    requires |c.votes| == 300 && CountValue(c.votes, 1) == 201
    requires |b.votes| == 1000 && CountValue(b.votes, 1) == 669
    requires |a.votes| == 300 && CountValue(a.votes, 1) == 200
    ensures
      var r := BuildResults([c, b, a]);
      |r| == 3 && r[0].song == c && r[1].song == b && r[2].song == a &&
      KeyOf(r[0]) == KeyOf(r[2]) && Rank(r, 0) == 1 && Rank(r, 2) == 2
  {
    TieOrder(c, b, a);
    TieKeys(c, b, a);
    var r := [Tally(c), Tally(b), Tally(a)];
    CountDifferingStep(r, 0, KeyOf, KeyOf(r[2]));
    CountDifferingStep(r, 1, KeyOf, KeyOf(r[2]));
  }

  /** The three shares are already in descending order, so the results keep the input order. */
  lemma TieOrder(c: SongWithVotes, b: SongWithVotes, a: SongWithVotes)
    requires |c.votes| == 300 && CountValue(c.votes, 1) == 201
    requires |b.votes| == 1000 && CountValue(b.votes, 1) == 669
    requires |a.votes| == 300 && CountValue(a.votes, 1) == 200
    ensures BuildResults([c, b, a]) == [Tally(c), Tally(b), Tally(a)]
  {
    var tc, tb, ta := Tally(c), Tally(b), Tally(a);
    assert tc.yesPercent == 201.0 / 300.0;
    assert tb.yesPercent == 669.0 / 1000.0;
    assert ta.yesPercent == 200.0 / 300.0;
    assert Project([c, b, a], Tally) == [tc, tb, ta];
    assert Sort([ta], EntryKey) == [ta];
    assert Sort([tb, ta], EntryKey) == [tb, ta] by {
      assert [tb, ta][1..] == [ta];
    }
    assert Sort([tc, tb, ta], EntryKey) == [tc, tb, ta] by {
      assert [tc, tb, ta][1..] == [tb, ta];
    }
  }

  /** All three show 67%; the first and last also show the same vote count, the middle one does not. */
  lemma TieKeys(c: SongWithVotes, b: SongWithVotes, a: SongWithVotes)
    requires |c.votes| == 300 && CountValue(c.votes, 1) == 201
    requires |b.votes| == 1000 && CountValue(b.votes, 1) == 669
    requires |a.votes| == 300 && CountValue(a.votes, 1) == 200
    ensures KeyOf(Tally(c)) == DisplayKey(67, 300) == KeyOf(Tally(a))
    ensures KeyOf(Tally(b)) == DisplayKey(67, 1000)
  {
    RoundedPercentIs(201, 300, 67);
    RoundedPercentIs(669, 1000, 67);
    RoundedPercentIs(200, 300, 67);
  }

  /** The corrected rank: compare entries by the key the results were sorted by. */
  function ShareRank(results: seq<ResultEntry>, i: nat): (r: nat)
    requires i < |results|
    ensures 1 <= r <= i + 1
  {
    RankBy(results, i, EntryKey)
  }

  /** In the results of a closed party, entries with equal sort keys stand together. */
  lemma BuildResultsContiguous(played: seq<SongWithVotes>)
    ensures KeysContiguous(BuildResults(played), EntryKey)
  {
    var r := BuildResults(played);
    forall a, b, c | 0 <= a < b < c < |r| && EntryKey(r[a]) == EntryKey(r[c])
      ensures EntryKey(r[b]) == EntryKey(r[a])
    {
      BuildResultsOrdered(played, a, b);
      BuildResultsOrdered(played, b, c);
    }
  }

  /**
   * With the corrected rank, the results of a closed party are competition-ranked: an entry
   * is ranked one more than the index of the first entry it ties with, so tied entries share
   * a rank.
   */
  lemma ShareRankIsCompetition(played: seq<SongWithVotes>, i: nat, j: nat, f: nat)
    requires f <= j <= i < |BuildResults(played)|
    requires EntryKey(BuildResults(played)[f]) == EntryKey(BuildResults(played)[i]) == EntryKey(BuildResults(played)[j])
    requires forall k :: 0 <= k < f ==> EntryKey(BuildResults(played)[k]) != EntryKey(BuildResults(played)[i])
    ensures ShareRank(BuildResults(played), i) == f + 1
    ensures ShareRank(BuildResults(played), j) == ShareRank(BuildResults(played), i)
  {
    var r := BuildResults(played);
    BuildResultsContiguous(played);
    RankIsCompetition(r, i, f, EntryKey);
    RankIsCompetition(r, j, f, EntryKey);
  }
}
