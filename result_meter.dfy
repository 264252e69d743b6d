/** The vote meter shown with a reveal: yes and no counts and their rounded percentages. */
module ResultMeter {
  import opened Types
  import opened VoteTable
  import opened Percent

  datatype Meter = Meter(yes: nat, no: nat, total: nat, yesPercent: nat, noPercent: nat)

  /** What the meter shows for a list of votes. */
  function MeterOf(votes: seq<Vote>): Meter {
    var yes := CountValue(votes, 1);
    var no := CountValue(votes, -1);
    Meter(yes, no, |votes|, RoundedPercent(yes, |votes|), RoundedPercent(no, |votes|))
  }

  /** yes counts the 1 votes, no the -1 votes, total all of them; so yes + no <= total. */
  lemma MeterCounts(votes: seq<Vote>)
    ensures MeterOf(votes).yes == CountValue(votes, 1)
    ensures MeterOf(votes).no == CountValue(votes, -1)
    ensures MeterOf(votes).total == |votes|
    ensures MeterOf(votes).yes + MeterOf(votes).no <= MeterOf(votes).total
  {
    CountsWithinTotal(votes);
  }

  /** Both percentages are 0 with no votes, and each is its count rounded half up, within [0, 100]. */
  lemma MeterPercents(votes: seq<Vote>)
    ensures |votes| == 0 ==> MeterOf(votes).yesPercent == 0 && MeterOf(votes).noPercent == 0
    ensures |votes| > 0 ==>
      var m := MeterOf(votes);
      2 * m.total * m.yesPercent <= 200 * m.yes + m.total < 2 * m.total * (m.yesPercent + 1) &&
      2 * m.total * m.noPercent <= 200 * m.no + m.total < 2 * m.total * (m.noPercent + 1)
    ensures MeterOf(votes).yesPercent <= 100 && MeterOf(votes).noPercent <= 100
  {
    CountsWithinTotal(votes);
  }

  lemma {:induction false} CountValueAppend(votes: seq<Vote>, v: Vote, x: int)
    ensures CountValue(votes + [v], x) == CountValue(votes, x) + (if v.value == x then 1 else 0)
  {
    if votes == [] {
      assert votes + [v] == [v];
    } else {
      assert (votes + [v])[1..] == votes[1..] + [v];
      CountValueAppend(votes[1..], v, x);
    }
  }

  /**
   * A vote whose value is neither 1 nor -1 changes only the total; one with value -1
   * leaves the yes count alone, and one with value 1 leaves the no count alone.
   */
  lemma AppendVote(votes: seq<Vote>, v: Vote)
    ensures MeterOf(votes + [v]).total == MeterOf(votes).total + 1
    ensures v.value != 1 ==> MeterOf(votes + [v]).yes == MeterOf(votes).yes
    ensures v.value != -1 ==> MeterOf(votes + [v]).no == MeterOf(votes).no
  {
    CountValueAppend(votes, v, 1);
    CountValueAppend(votes, v, -1);
  }
}
