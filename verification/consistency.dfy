/**
 * The tally/ballot invariant: every ballot names a label of a stored poll,
 * and each poll's tallies are exactly those its ballots produce.
 */
module Consistency {
  import opened Wrappers
  import opened State
  import opened Tally
  import opened Contract

  /** The ballots cast on `pollId`, as ballot key to chosen label. */
  function BallotsOf(ballots: map<BallotKey, Ballot>, pollId: PollId): (votes: Votes) {
    map k | k in ballots && k.1 == pollId :: ballots[k].option
  }

  /** The ballot under `key` names a label of the poll it was cast on. */
  predicate BallotNamesOption(s: Storage, key: BallotKey)
    requires key in s.ballots
  {
    key.1 in s.polls && s.ballots[key].option in Labels(s.polls[key.1].options)
  }

  /** The tallies of poll `pollId` are those its ballots produce. */
  predicate TalliesMatchBallots(s: Storage, pollId: PollId)
    requires pollId in s.polls
  {
    Tallies(s.polls[pollId].options) == Expected(Labels(s.polls[pollId].options), BallotsOf(s.ballots, pollId))
  }

  predicate Consistent(s: Storage) {
    && (forall k :: k in s.ballots ==> BallotNamesOption(s, k))
    && (forall id :: id in s.polls ==> TalliesMatchBallots(s, id))
  }

  /** A freshly instantiated contract is consistent. */
  lemma InstantiateConsistent(sender: Addr, admin: Option<Addr>)
    ensures Consistent(Instantiate(sender, admin))
  {
  }

  /**
   * For a consistent storage each poll's tallies add up to the number of
   * ballots cast on it.
   */
  lemma ConsistentTalliesSumToBallots(s: Storage, pollId: PollId)
    requires Consistent(s)
    requires pollId in s.polls
    ensures Sum(Tallies(s.polls[pollId].options)) == |BallotsOf(s.ballots, pollId)|
  {
    var votes := BallotsOf(s.ballots, pollId);
    SumOfExpected(Labels(s.polls[pollId].options), votes);
  }

  /**
   * For a consistent storage the retraction inside a vote cannot panic: the
   * earlier ballot's label is found and its tally is positive.
   */
  lemma ConsistentCanRetract(s: Storage, sender: Addr, pollId: PollId)
    requires Consistent(s)
    ensures CanRetract(s, sender, pollId)
  {
    var key := (sender, pollId);
    if pollId in s.polls && key in s.ballots {
      var options := s.polls[pollId].options;
      var previous := s.ballots[key].option;
      var votes := BallotsOf(s.ballots, pollId);
      assert BallotNamesOption(s, key) && TalliesMatchBallots(s, pollId);
      ExpectedAtPosition(Labels(options), votes, previous);
      var j := Position(Labels(options), previous).value;
      assert options[j].1 == Tallies(options)[j] == Count(votes, previous);
      assert key in votes && votes[key] == previous;
      assert key in Choosers(votes, previous);
      assert PriorIndex(s, sender, pollId) == Some(j);
    }
  }

  /** The ballots of the voted-on poll gain or replace exactly the sender's ballot. */
  lemma VoteBallotsOf(s: Storage, sender: Addr, pollId: PollId, vote: string)
    requires CanRetract(s, sender, pollId)
    requires Vote(s, sender, pollId, vote).Ok?
    ensures BallotsOf(Vote(s, sender, pollId, vote).value.storage.ballots, pollId)
         == BallotsOf(s.ballots, pollId)[(sender, pollId) := vote]
    ensures forall id :: id != pollId ==>
      BallotsOf(Vote(s, sender, pollId, vote).value.storage.ballots, id) == BallotsOf(s.ballots, id)
  {
    var ballots' := Vote(s, sender, pollId, vote).value.storage.ballots;
    forall id | id != pollId
      ensures BallotsOf(ballots', id) == BallotsOf(s.ballots, id)
    {
    }
  }

  /** The options a successful vote stores: the earlier choice retracted, the new one added. */
  lemma VoteStoredOptions(s: Storage, sender: Addr, pollId: PollId, vote: string)
    requires CanRetract(s, sender, pollId)
    requires Vote(s, sender, pollId, vote).Ok?
    ensures Labels(Vote(s, sender, pollId, vote).value.storage.polls[pollId].options) == Labels(s.polls[pollId].options)
    ensures
      var options := s.polls[pollId].options;
      var labels := Labels(options);
      var i := Position(labels, vote).value;
      var tallies := Tallies(options);
      var retracted := match PriorIndex(s, sender, pollId)
        case None => tallies
        case Some(j) => tallies[j := tallies[j] - 1];
      Tallies(Vote(s, sender, pollId, vote).value.storage.polls[pollId].options)
        == retracted[i := retracted[i] + 1]
  {
    var key := (sender, pollId);
    var options := s.polls[pollId].options;
    var labels := Labels(options);
    var i := Position(labels, vote).value;
    var stored := Vote(s, sender, pollId, vote).value.storage.polls[pollId].options;
    if key in s.ballots {
      var j := Position(labels, s.ballots[key].option).value;
      var retracted := SetTally(options, j, options[j].1 - 1);
      assert Labels(retracted) == labels;
      assert stored == SetTally(retracted, i, retracted[i].1 + 1);
    } else {
      assert stored == SetTally(options, i, options[i].1 + 1);
    }
  }

  /**
   * The arithmetic of a first vote: tallies matching the ballots, with the
   * chosen label's tally raised, match the ballots with the new one added.
   */
  lemma AddedTalliesMatch(options: Options, stored: Options, votes: Votes, key: BallotKey, vote: string)
    requires key !in votes
    requires vote in Labels(options)
    requires Tallies(options) == Expected(Labels(options), votes)
    requires Labels(stored) == Labels(options)
    requires
      var tallies := Tallies(options);
      var i := Position(Labels(options), vote).value;
      Tallies(stored) == tallies[i := tallies[i] + 1]
    ensures Tallies(stored) == Expected(Labels(stored), votes[key := vote])
  {
    ExpectedAddBallot(Labels(options), votes, key, vote);
  }

  /**
   * The arithmetic of a changed vote: tallies matching the ballots, with the
   * old label's tally lowered and the new label's raised, match the ballots
   * with the one ballot moved.
   */
  lemma MovedTalliesMatch(options: Options, stored: Options, votes: Votes, key: BallotKey, vote: string)
    requires key in votes
    requires votes[key] in Labels(options) && vote in Labels(options)
    requires Tallies(options) == Expected(Labels(options), votes)
    requires Labels(stored) == Labels(options)
    requires
      var tallies := Tallies(options);
      var j := Position(Labels(options), votes[key]).value;
      var i := Position(Labels(options), vote).value;
      tallies[j] > 0 &&
      var retracted := tallies[j := tallies[j] - 1];
      Tallies(stored) == retracted[i := retracted[i] + 1]
    ensures Tallies(stored) == Expected(Labels(stored), votes[key := vote])
  {
    ExpectedMoveBallot(Labels(options), Tallies(options), votes, key, vote);
  }

  /** A successful vote moves the voted-on poll's tallies along with its ballots. */
  lemma VoteTalliesMatch(s: Storage, sender: Addr, pollId: PollId, vote: string)
    requires CanRetract(s, sender, pollId)
    requires Vote(s, sender, pollId, vote).Ok?
    requires TalliesMatchBallots(s, pollId)
    requires (sender, pollId) in s.ballots ==> BallotNamesOption(s, (sender, pollId))
    ensures TalliesMatchBallots(Vote(s, sender, pollId, vote).value.storage, pollId)
  {
    var s' := Vote(s, sender, pollId, vote).value.storage;
    var key := (sender, pollId);
    var options := s.polls[pollId].options;
    var stored := s'.polls[pollId].options;
    var votes := BallotsOf(s.ballots, pollId);
    VoteBallotsOf(s, sender, pollId, vote);
    VoteStoredOptions(s, sender, pollId, vote);
    if key in s.ballots {
      assert key in votes && votes[key] == s.ballots[key].option;
      MovedTalliesMatch(options, stored, votes, key, vote);
    } else {
      assert key !in votes;
      AddedTalliesMatch(options, stored, votes, key, vote);
    }
  }

  /** A successful vote on a consistent storage leaves it consistent. */
  lemma VotePreservesConsistency(s: Storage, sender: Addr, pollId: PollId, vote: string)
    requires Consistent(s)
    ensures CanRetract(s, sender, pollId)
    ensures Vote(s, sender, pollId, vote).Ok? ==> Consistent(Vote(s, sender, pollId, vote).value.storage)
  {
    ConsistentCanRetract(s, sender, pollId);
    var r := Vote(s, sender, pollId, vote);
    if r.Ok? {
      var s' := r.value.storage;
      VoteBallotsOf(s, sender, pollId, vote);
      if (sender, pollId) in s.ballots {
        assert BallotNamesOption(s, (sender, pollId));
      }
      VoteTalliesMatch(s, sender, pollId, vote);
      forall k | k in s'.ballots
        ensures BallotNamesOption(s', k)
      {
        if k != (sender, pollId) {
          assert BallotNamesOption(s, k);
        }
      }
      forall id | id in s'.polls
        ensures TalliesMatchBallots(s', id)
      {
        if id != pollId {
          assert TalliesMatchBallots(s, id);
        }
      }
    }
  }

  /** Creating a poll changes no ballot, so the ballots keyed to any id stay the same. */
  lemma CreatePollBallotsOf(s: Storage, sender: Addr, pollId: PollId, question: string, options: seq<string>, id: PollId)
    requires |options| <= MaxOptions
    ensures BallotsOf(CreatePoll(s, sender, pollId, question, options).value.ballots, id) == BallotsOf(s.ballots, id)
  {
  }

  /** In a consistent storage, ballots are keyed only to stored polls. */
  lemma NoBallotsForMissingPoll(s: Storage, pollId: PollId)
    requires Consistent(s)
    requires pollId !in s.polls
    ensures BallotsOf(s.ballots, pollId) == map[]
  {
    forall k | k in s.ballots
      ensures k.1 != pollId
    {
      assert BallotNamesOption(s, k);
    }
    assert BallotsOf(s.ballots, pollId).Keys == {};
  }

  /** Fresh zero tallies match an id without ballots. */
  lemma ZeroTalliesMatchNoBallots(s: Storage, pollId: PollId)
    requires pollId in s.polls
    requires BallotsOf(s.ballots, pollId) == map[]
    requires forall x :: 0 <= x < |s.polls[pollId].options| ==> s.polls[pollId].options[x].1 == 0
    ensures TalliesMatchBallots(s, pollId)
  {
    ExpectedOfNoVotes(Labels(s.polls[pollId].options));
  }

  /** Zero tallies match the ballots of a poll only when it has no ballots. */
  lemma ZeroTalliesMatchOnlyNoBallots(s: Storage, pollId: PollId)
    requires pollId in s.polls
    requires TalliesMatchBallots(s, pollId)
    requires forall k :: k in s.ballots && k.1 == pollId ==> BallotNamesOption(s, k)
    requires forall x :: 0 <= x < |s.polls[pollId].options| ==> s.polls[pollId].options[x].1 == 0
    ensures BallotsOf(s.ballots, pollId) == map[]
  {
    var options := s.polls[pollId].options;
    var votes := BallotsOf(s.ballots, pollId);
    forall k | k in votes
      ensures votes[k] in Labels(options)
    {
      assert BallotNamesOption(s, k);
    }
    SumOfExpected(Labels(options), votes);
    SumOfZeros(Tallies(options));
    assert votes.Keys == {};
  }

  /** Creating a poll under an id without ballots, in particular a fresh id, keeps the invariant. */
  lemma CreatePollKeepsConsistency(s: Storage, sender: Addr, pollId: PollId, question: string, options: seq<string>)
    requires Consistent(s)
    requires |options| <= MaxOptions
    requires pollId !in s.polls || BallotsOf(s.ballots, pollId) == map[]
    ensures Consistent(CreatePoll(s, sender, pollId, question, options).value)
  {
    var s' := CreatePoll(s, sender, pollId, question, options).value;
    var votes := BallotsOf(s.ballots, pollId);
    CreatePollBallotsOf(s, sender, pollId, question, options, pollId);
    if pollId !in s.polls {
      NoBallotsForMissingPoll(s, pollId);
    }
    ZeroTalliesMatchNoBallots(s', pollId);
    forall k | k in s'.ballots
      ensures BallotNamesOption(s', k)
    {
      assert BallotNamesOption(s, k);
      assert k !in votes;
    }
    forall id | id in s'.polls && id != pollId
      ensures TalliesMatchBallots(s', id)
    {
      assert TalliesMatchBallots(s, id);
      CreatePollBallotsOf(s, sender, pollId, question, options, id);
    }
  }

  /** Re-creating a poll that has ballots breaks the invariant: its tallies restart at zero. */
  lemma CreatePollOverBallotsBreaksConsistency(s: Storage, sender: Addr, pollId: PollId, question: string, options: seq<string>)
    requires |options| <= MaxOptions
    requires BallotsOf(s.ballots, pollId) != map[]
    ensures !Consistent(CreatePoll(s, sender, pollId, question, options).value)
  {
    var s' := CreatePoll(s, sender, pollId, question, options).value;
    CreatePollBallotsOf(s, sender, pollId, question, options, pollId);
    if Consistent(s') {
      ZeroTalliesMatchOnlyNoBallots(s', pollId);
    }
  }

  /**
   * Creating a poll keeps a consistent storage consistent exactly when no
   * ballot was cast under its id before.
   */
  lemma CreatePollConsistency(s: Storage, sender: Addr, pollId: PollId, question: string, options: seq<string>)
    requires Consistent(s)
    requires |options| <= MaxOptions
    ensures Consistent(CreatePoll(s, sender, pollId, question, options).value)
        <==> BallotsOf(s.ballots, pollId) == map[]
  {
    if BallotsOf(s.ballots, pollId) == map[] {
      CreatePollKeepsConsistency(s, sender, pollId, question, options);
    } else {
      CreatePollOverBallotsBreaksConsistency(s, sender, pollId, question, options);
    }
  }

  /**
   * Right after a poll that someone has voted on is re-created, that voter's
   * next vote on it panics, because the earlier label is gone or its tally was
   * reset to zero. Once another vote has raised the label's tally the change
   * goes through instead (see `Scenarios.RecreatedPollLosesVote`).
   */
  lemma RecreatedPollStrandsVoters(s: Storage, sender: Addr, pollId: PollId, question: string, options: seq<string>, voter: Addr)
    requires (voter, pollId) in s.ballots
    requires |options| <= MaxOptions
    ensures !CanRetract(CreatePoll(s, sender, pollId, question, options).value, voter, pollId)
  {
    var s' := CreatePoll(s, sender, pollId, question, options).value;
    match PriorIndex(s', voter, pollId)
    case None =>
    case Some(j) =>
      assert s'.polls[pollId].options[j].1 == 0;
  }
}
