/**
 * The rating aggregation shared by the movie entity and the list handler.
 *
 * Both read paths fold over the vote values with a running total that starts
 * at the sentinel -1.  A total equal to -1 is read as "nothing accumulated
 * yet": the next vote replaces it instead of being added to it, and a final
 * total of -1 is reported as "no votes".  The entity divides the total by the
 * number of votes; the list handler reports the total itself.
 */
module Ratings {

  /** The value both folds start from, and the total read as "no votes". */
  const Sentinel: int := -1

  /** What a read path reports: the "no votes" message or a number. */
  datatype Rating = NoVotes | Value(rating: real)

  /** One step of either fold. */
  function Step(total: int, value: int): (next: int)
    ensures total == Sentinel ==> next == value
    ensures total != Sentinel ==> next - total == value
  {
    if total == Sentinel then value else total + value
  }

  /** The running total after visiting `values` in order, starting at the sentinel. */
  function RunningTotal(values: seq<int>): (total: int)
    ensures values == [] ==> total == Sentinel
    ensures values != [] && (forall i :: 0 <= i < |values| ==> values[i] >= 0) ==> total >= 0
  {
    if values == [] then Sentinel
    else Step(RunningTotal(values[..|values| - 1]), values[|values| - 1])
  }

  /** The plain sum of the values. */
  function Sum(values: seq<int>): int {
    if values == [] then 0 else Sum(values[..|values| - 1]) + values[|values| - 1]
  }

  /** Reference definition: the arithmetic mean, "no votes" only for the empty list. */
  function Mean(values: seq<int>): Rating {
    if values == [] then NoVotes else Value(Sum(values) as real / |values| as real)
  }

  /** What the movie entity reports: the running total divided by the vote count. */
  function AverageRating(values: seq<int>): (r: Rating)
    ensures values == [] ==> r == NoVotes
  {
    var total := RunningTotal(values);
    if total == Sentinel then NoVotes else Value(total as real / |values| as real)
  }

  /** What the list handler reports: the running total, never divided. */
  function ListRating(values: seq<int>): (r: Rating)
    ensures values == [] ==> r == NoVotes
  {
    var total := RunningTotal(values);
    if total == Sentinel then NoVotes else Value(total as real)
  }

  /** Appending a vote: a sentinel total is replaced, any other total is increased. */
  lemma RunningTotalAppend(values: seq<int>, v: int)
    ensures RunningTotal(values) == Sentinel ==> RunningTotal(values + [v]) == v
    ensures RunningTotal(values) != Sentinel ==> RunningTotal(values + [v]) == RunningTotal(values) + v
  {
  }

  /**
   * Sentinel collision: if the total equals -1 after the first `k` votes and
   * never again before the end, every vote before position `k` is forgotten and
   * the final total is the sum of the votes from `k` on.
   */
  lemma {:induction false} TotalSinceLastReset(values: seq<int>, k: nat)
    requires k < |values|
    requires RunningTotal(values[..k]) == Sentinel
    requires forall j :: k < j < |values| ==> RunningTotal(values[..j]) != Sentinel
    ensures RunningTotal(values) == Sum(values[k..])
  {
    var n := |values| - 1;
    var prefix := values[..n];
    assert values[k..][..|values[k..]| - 1] == values[k..n];
    if n == k {
      assert prefix == values[..k];
      assert values[k..n] == [];
    } else {
      assert prefix[..k] == values[..k];
      forall j | k < j < |prefix|
        ensures RunningTotal(prefix[..j]) != Sentinel
      {
        assert prefix[..j] == values[..j];
      }
      TotalSinceLastReset(prefix, k);
      assert prefix[k..] == values[k..n];
      assert RunningTotal(prefix) != Sentinel by {
        assert values[..n] == prefix;
      }
    }
  }

  /** Without an intermediate total of -1, the fold is the plain sum. */
  lemma TotalWithoutReset(values: seq<int>)
    requires values != []
    requires forall j :: 0 < j < |values| ==> RunningTotal(values[..j]) != Sentinel
    ensures RunningTotal(values) == Sum(values)
  {
    assert values[..0] == [];
    TotalSinceLastReset(values, 0);
    assert values[0..] == values;
  }

  /** With only non-negative votes the total never collides with the sentinel. */
  lemma {:induction false} NonNegativeTotalIsSum(values: seq<int>)
    requires values != []
    requires forall i :: 0 <= i < |values| ==> values[i] >= 0
    ensures RunningTotal(values) == Sum(values) >= 0
  {
    var n := |values| - 1;
    if n > 0 {
      var prefix := values[..n];
      NonNegativeTotalIsSum(prefix);
    }
  }

  /** With only non-negative votes the entity reports the arithmetic mean. */
  lemma AverageOfNonNegativeIsMean(values: seq<int>)
    requires forall i :: 0 <= i < |values| ==> values[i] >= 0
    ensures AverageRating(values) == Mean(values)
    ensures values != [] ==> ListRating(values) == Value(Sum(values) as real)
  {
    if values != [] {
      NonNegativeTotalIsSum(values);
    }
  }

  /** A single vote of -1 is reported as "no votes" by both read paths, unlike the mean. */
  lemma SingleMinusOneReadsAsNoVotes()
    ensures AverageRating([-1]) == NoVotes && ListRating([-1]) == NoVotes
    ensures Mean([-1]) == Value(-1.0)
  {
  }

  /**
   * A total that passes through -1 loses the votes before it, so the reported
   * average depends on the order of the votes.
   */
  lemma CollisionMakesOrderMatter()
    ensures AverageRating([3, -4, 5]) == Value(5.0 / 3.0)
    ensures AverageRating([3, 5, -4]) == Value(4.0 / 3.0)
    ensures Mean([3, -4, 5]) == Mean([3, 5, -4]) == Value(4.0 / 3.0)
  {
    assert [3][..0] == [];
    assert RunningTotal([3]) == 3;
    assert [3, -4][..1] == [3] && [3, 5][..1] == [3];
    assert RunningTotal([3, -4]) == Sentinel && RunningTotal([3, 5]) == 8;
    assert [3, -4, 5][..2] == [3, -4] && [3, 5, -4][..2] == [3, 5];
    assert RunningTotal([3, -4, 5]) == 5 && RunningTotal([3, 5, -4]) == 4;
    assert Sum([3]) == 3 && Sum([3, -4]) == -1 && Sum([3, 5]) == 8;
  }

  /** Both read paths report "no votes" for the same lists. */
  lemma ReadPathsAgreeOnNoVotes(values: seq<int>)
    ensures AverageRating(values) == NoVotes <==> ListRating(values) == NoVotes
    ensures AverageRating(values) == NoVotes <==> RunningTotal(values) == Sentinel
  {
  }

  /** The entity's average is the list handler's number divided by the vote count. */
  lemma AverageIsListRatingOverCount(values: seq<int>)
    requires ListRating(values).Value?
    ensures values != []
    ensures AverageRating(values) == Value(ListRating(values).rating / |values| as real)
  {
  }

  /** On a one-vote list the two read paths agree, and report the vote itself. */
  lemma ReadPathsAgreeOnOneVote(v: int)
    ensures AverageRating([v]) == ListRating([v])
    ensures v != Sentinel ==> AverageRating([v]) == Value(v as real)
  {
    assert [v][..0] == [];
    assert RunningTotal([v]) == v;
  }

  /**
   * The two read paths agree exactly on lists of at most one vote, lists
   * whose total is the sentinel, and lists whose total is 0.
   */
  lemma ReadPathsAgreeIff(values: seq<int>)
    ensures AverageRating(values) == ListRating(values) <==>
      |values| <= 1 || RunningTotal(values) == Sentinel || RunningTotal(values) == 0
  {
    var t := RunningTotal(values);
    if t != Sentinel {
      var n := |values| as real;
      assert AverageRating(values) == Value(t as real / n) && ListRating(values) == Value(t as real);
      if |values| == 1 || t == 0 {
        assert t as real / n == t as real;
      } else {
        DividingChanges(t as real, n);
      }
    }
  }

  /** Dividing a non-zero number by two or more changes it. */
  lemma DividingChanges(t: real, n: real)
    requires n >= 2.0 && t != 0.0
    ensures t / n != t
  {
  }

  /** Votes 4 and 6: the entity reports 5, the list handler 10. */
  lemma FourAndSix()
    ensures AverageRating([4, 6]) == Value(5.0)
    ensures ListRating([4, 6]) == Value(10.0)
  {
    assert [4, 6][..1] == [4];
    assert [4][..0] == [];
  }
}
