/**
 * The tallies a poll's option list should carry, computed from the ballots
 * cast on it. A ballot counts toward the first option carrying its label;
 * a later option with a repeated label can never receive a vote.
 */
module Tally {
  import opened Wrappers
  import opened State

  /** The ballots of one poll: ballot key to chosen label. */
  type Votes = map<BallotKey, string>

  /** How many ballots chose `choice`. */
  function Count(votes: Votes, choice: string): (n: nat) {
    |Choosers(votes, choice)|
  }

  /** Option `x` is the first one carrying its label, so the one a vote for that label reaches. */
  predicate FirstOfLabel(labels: seq<string>, x: nat)
    requires x < |labels|
  {
    Position(labels, labels[x]) == Some(x)
  }

  /** One tally per option: the ballots for its label at its first occurrence, zero at a repeat. */
  function Expected(labels: seq<string>, votes: Votes): (tallies: seq<nat>) {
    seq(|labels|, x requires 0 <= x < |labels| => if FirstOfLabel(labels, x) then Count(votes, labels[x]) else 0)
  }

  /** The ballots that chose `choice`. */
  function Choosers(votes: Votes, choice: string): (keys: set<BallotKey>) {
    set k | k in votes && votes[k] == choice
  }

  lemma ChoosersAfterAdd(votes: Votes, key: BallotKey, choice: string, other: string)
    requires key !in votes
    ensures other == choice ==> Choosers(votes[key := choice], other) == Choosers(votes, other) + {key}
    ensures other != choice ==> Choosers(votes[key := choice], other) == Choosers(votes, other)
  {
  }

  lemma CountAfterAdd(votes: Votes, key: BallotKey, choice: string, other: string)
    requires key !in votes
    ensures Count(votes[key := choice], other) == Count(votes, other) + (if other == choice then 1 else 0)
  {
    ChoosersAfterAdd(votes, key, choice, other);
    assert key !in Choosers(votes, other);
  }

  /** With no ballots, every expected tally is zero. */
  lemma ExpectedOfNoVotes(labels: seq<string>)
    ensures forall x :: 0 <= x < |labels| ==> Expected(labels, map[])[x] == 0
  {
    var none: Votes := map[];
    forall x | 0 <= x < |labels|
      ensures Expected(labels, none)[x] == 0
    {
      assert Choosers(none, labels[x]) == {};
    }
  }

  /** The expected tally at a label's first position counts every ballot for that label. */
  lemma ExpectedAtPosition(labels: seq<string>, votes: Votes, choice: string)
    requires choice in labels
    ensures Expected(labels, votes)[Position(labels, choice).value] == Count(votes, choice)
  {
    var i := Position(labels, choice).value;
    assert FirstOfLabel(labels, i);
  }

  /**
   * Casting one more ballot for a label of the poll raises exactly the
   * expected tally at that label's first position, by one.
   */
  lemma ExpectedAddBallot(labels: seq<string>, votes: Votes, key: BallotKey, choice: string)
    requires key !in votes
    requires choice in labels
    ensures
      var i := Position(labels, choice).value;
      Expected(labels, votes[key := choice]) == Expected(labels, votes)[i := Expected(labels, votes)[i] + 1]
  {
    var i := Position(labels, choice).value;
    var before := Expected(labels, votes);
    var after := Expected(labels, votes[key := choice]);
    forall x | 0 <= x < |labels|
      ensures after[x] == before[i := before[i] + 1][x]
    {
      CountAfterAdd(votes, key, choice, labels[x]);
      if x == i {
        assert FirstOfLabel(labels, x);
      } else if FirstOfLabel(labels, x) {
        assert labels[x] != choice;
      }
    }
  }

  lemma ReplaceBallot(votes: Votes, key: BallotKey, choice: string)
    requires key in votes
    ensures key !in votes - {key}
    ensures (votes - {key})[key := votes[key]] == votes
    ensures (votes - {key})[key := choice] == votes[key := choice]
  {
  }

  /**
   * Moving one ballot to another label: the matching tallies, lowered by one
   * at the old label's first position and then raised by one at the new
   * label's, are the tallies of the changed ballots. The lowered tally is
   * positive, so the decrement cannot underflow.
   */
  lemma ExpectedMoveBallot(labels: seq<string>, tallies: seq<nat>, votes: Votes, key: BallotKey, choice: string)
    requires key in votes
    requires votes[key] in labels && choice in labels
    requires tallies == Expected(labels, votes)
    ensures
      var j := Position(labels, votes[key]).value;
      var i := Position(labels, choice).value;
      tallies[j] > 0 &&
      var retracted := tallies[j := tallies[j] - 1];
      retracted[i := retracted[i] + 1] == Expected(labels, votes[key := choice])
  {
    var others := votes - {key};
    var e := Expected(labels, others);
    var i := Position(labels, choice).value;
    var j := Position(labels, votes[key]).value;
    ReplaceBallot(votes, key, choice);
    assert tallies == e[j := e[j] + 1] by {
      ExpectedAddBallot(labels, others, key, votes[key]);
    }
    assert Expected(labels, votes[key := choice]) == e[i := e[i] + 1] by {
      ExpectedAddBallot(labels, others, key, choice);
    }
  }

  lemma {:induction false} SumIncrement(tallies: seq<nat>, i: nat)
    requires i < |tallies|
    ensures Sum(tallies[i := tallies[i] + 1]) == Sum(tallies) + 1
  {
    if i > 0 {
      SumIncrement(tallies[1..], i - 1);
      assert tallies[i := tallies[i] + 1][1..] == tallies[1..][i - 1 := tallies[i] + 1];
    }
  }

  /**
   * When every ballot names a label of the poll, the expected tallies add up
   * to the number of ballots.
   */
  lemma {:induction false} SumOfExpected(labels: seq<string>, votes: Votes)
    requires forall k :: k in votes ==> votes[k] in labels
    ensures Sum(Expected(labels, votes)) == |votes|
    decreases |votes|
  {
    if votes == map[] {
      ExpectedOfNoVotes(labels);
      SumOfZeros(Expected(labels, votes));
    } else {
      var key :| key in votes;
      var others := votes - {key};
      ReplaceBallot(votes, key, votes[key]);
      SumOfExpected(labels, others);
      ExpectedAddBallot(labels, others, key, votes[key]);
      SumIncrement(Expected(labels, others), Position(labels, votes[key]).value);
    }
  }
}
