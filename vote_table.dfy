/** The vote table: one row per (song, participant), updated by upsert, and the tallies read from it. */
module VoteTable {
  import opened Types

  /** Two rows are for the same (song, participant) pair. */
  predicate SameKey(a: Vote, b: Vote) {
    a.songId == b.songId && a.participantId == b.participantId
  }

  /** The table's unique constraint on (songId, participantId). */
  predicate KeysUnique(votes: seq<Vote>) {
    forall i, j :: 0 <= i < j < |votes| ==> !SameKey(votes[i], votes[j])
  }

  /** The value stored for the pair, if the table has a row for it. */
  function Lookup(votes: seq<Vote>, songId: SongId, participantId: ParticipantId): Option<int> {
    if votes == [] then None
    else if votes[0].songId == songId && votes[0].participantId == participantId then Some(votes[0].value)
    else Lookup(votes[1..], songId, participantId)
  }

  /** `vote.upsert`: overwrite the row with v's key where it is, or append a new row. */
  function Upsert(votes: seq<Vote>, v: Vote): (r: seq<Vote>)
    ensures v in r
    ensures forall w :: w in r ==> w in votes || w == v
    ensures |r| == if Lookup(votes, v.songId, v.participantId).None? then |votes| + 1 else |votes|
  {
    if votes == [] then [v]
    else if SameKey(votes[0], v) then [v] + votes[1..]
    else [votes[0]] + Upsert(votes[1..], v)
  }

  lemma {:induction false} UpsertStoresLatest(votes: seq<Vote>, v: Vote)
    ensures Lookup(Upsert(votes, v), v.songId, v.participantId) == Some(v.value)
  {
    if votes != [] && !SameKey(votes[0], v) {
      UpsertStoresLatest(votes[1..], v);
    }
  }

  lemma {:induction false} UpsertKeepsOthers(votes: seq<Vote>, v: Vote, songId: SongId, participantId: ParticipantId)
    requires songId != v.songId || participantId != v.participantId
    ensures Lookup(Upsert(votes, v), songId, participantId) == Lookup(votes, songId, participantId)
  {
    if votes != [] && !SameKey(votes[0], v) {
      UpsertKeepsOthers(votes[1..], v, songId, participantId);
    }
  }

  lemma {:induction false} UpsertKeepsUnique(votes: seq<Vote>, v: Vote)
    requires KeysUnique(votes)
    ensures KeysUnique(Upsert(votes, v))
  {
    if votes == [] {
    } else if SameKey(votes[0], v) {
      var r := [v] + votes[1..];
      forall i, j | 0 <= i < j < |r| ensures !SameKey(r[i], r[j]) {
        assert r[j] == votes[j];
        if i > 0 { assert r[i] == votes[i]; }
      }
    } else {
      var tail := votes[1..];
      assert KeysUnique(tail) by {
        forall i, j | 0 <= i < j < |tail| ensures !SameKey(tail[i], tail[j]) {
          assert tail[i] == votes[i + 1] && tail[j] == votes[j + 1];
        }
      }
      UpsertKeepsUnique(tail, v);
      var u := Upsert(tail, v);
      var r := [votes[0]] + u;
      forall j | 1 <= j < |r| ensures !SameKey(r[0], r[j]) {
        assert r[j] in u;
        if r[j] != v {
          var k :| 0 <= k < |tail| && tail[k] == r[j];
          assert votes[k + 1] == r[j];
        }
      }
      forall i, j | 0 <= i < j < |r| ensures !SameKey(r[i], r[j]) {
        if i > 0 { assert r[i] == u[i - 1] && r[j] == u[j - 1]; }
      }
    }
  }

  /** The rows of one song, in table order (`include: { votes: true }`). */
  function VotesOf(votes: seq<Vote>, songId: SongId): (r: seq<Vote>)
    ensures |r| <= |votes|
    ensures forall w :: w in r <==> w in votes && w.songId == songId
  {
    if votes == [] then []
    else (if votes[0].songId == songId then [votes[0]] else []) + VotesOf(votes[1..], songId)
  }

  /** The number of votes whose value is exactly x (`votes.filter(v => v.value === x).length`). */
  function CountValue(votes: seq<Vote>, x: int): nat {
    if votes == [] then 0
    else (if votes[0].value == x then 1 else 0) + CountValue(votes[1..], x)
  }

  /** The sum of the vote values (`votes.reduce((sum, v) => sum + v.value, 0)`). */
  function Sum(votes: seq<Vote>): int {
    if votes == [] then 0 else votes[0].value + Sum(votes[1..])
  }

  /** The mean vote value, 0 for a song nobody voted on: the reveal score and the idle-close score. */
  function MeanScore(votes: seq<Vote>): (r: real)
    ensures |votes| == 0 ==> r == 0.0
    ensures |votes| > 0 ==> r * (|votes| as real) == Sum(votes) as real
  {
    if |votes| > 0 then Sum(votes) as real / |votes| as real else 0.0
  }

  /** Every vote value is one of the two the client offers. */
  predicate WellFormed(votes: seq<Vote>) {
    forall i :: 0 <= i < |votes| ==> votes[i].value == 1 || votes[i].value == -1
  }

  lemma {:induction false} CountsWithinTotal(votes: seq<Vote>)
    ensures CountValue(votes, 1) + CountValue(votes, -1) <= |votes|
  {
    if votes != [] { CountsWithinTotal(votes[1..]); }
  }

  lemma {:induction false} SumOfWellFormed(votes: seq<Vote>)
    requires WellFormed(votes)
    ensures Sum(votes) == CountValue(votes, 1) - CountValue(votes, -1)
    ensures CountValue(votes, 1) + CountValue(votes, -1) == |votes|
  {
    if votes != [] {
      assert WellFormed(votes[1..]) by {
        forall i | 0 <= i < |votes[1..]| ensures votes[1..][i].value == 1 || votes[1..][i].value == -1 {
          assert votes[1..][i] == votes[i + 1];
        }
      }
      SumOfWellFormed(votes[1..]);
    }
  }

  /** With values 1 and -1 only, the mean lies between -1 and 1. */
  lemma MeanScoreBounds(votes: seq<Vote>)
    requires WellFormed(votes)
    ensures -1.0 <= MeanScore(votes) <= 1.0
  {
    SumOfWellFormed(votes);
    if |votes| > 0 {
      var n := |votes| as real;
      var s := Sum(votes) as real;
      assert -n <= s <= n;
      var r := MeanScore(votes);
      assert r * n == s;
      assert (r - 1.0) * n <= 0.0 && (r + 1.0) * n >= 0.0;
    }
  }
}
