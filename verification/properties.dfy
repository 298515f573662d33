/** Properties relating the transitions to each other and to the queries. */
module Properties {
  import opened Wrappers
  import opened State
  import opened Contract

  /**
   * Voting again for the label one already voted for changes nothing: the
   * retraction and the new vote cancel out, and the ballot is rewritten with
   * the same label.
   */
  lemma RevoteSameLabelKeepsStorage(s: Storage, sender: Addr, pollId: PollId)
    requires CanRetract(s, sender, pollId)
    requires pollId in s.polls && (sender, pollId) in s.ballots
    ensures
      var vote := s.ballots[(sender, pollId)].option;
      var options := s.polls[pollId].options;
      var i := Position(Labels(options), vote).value;
      Vote(s, sender, pollId, vote) == Ok(VoteOutcome(s, options[i].1))
  {
    var key := (sender, pollId);
    var vote := s.ballots[key].option;
    var poll := s.polls[pollId];
    var i := Position(Labels(poll.options), vote).value;
    var retracted := SetTally(poll.options, i, poll.options[i].1 - 1);
    assert SetTally(retracted, i, retracted[i].1 + 1) == poll.options;
    assert s.polls[pollId := poll.(options := poll.options)] == s.polls;
    assert s.ballots[key := Ballot(vote)] == s.ballots;
  }

  /** After a successful creation, querying the id yields the new poll with zero tallies. */
  lemma QueryPollAfterCreate(s: Storage, sender: Addr, pollId: PollId, question: string, options: seq<string>)
    requires |options| <= MaxOptions
    ensures
      var created := QueryPoll(CreatePoll(s, sender, pollId, question, options).value, pollId);
      && created.Some?
      && created.value.creator == sender
      && created.value.question == question
      && Labels(created.value.options) == options
      && Sum(Tallies(created.value.options)) == 0
  {
    var poll := CreatePoll(s, sender, pollId, question, options).value.polls[pollId];
    SumOfZeros(Tallies(poll.options));
  }

  /**
   * After a successful vote, the sender's ballot on the poll names the new
   * label, and every other (voter, poll) ballot reads as before.
   */
  lemma QueryVoteAfterVote(s: Storage, sender: Addr, pollId: PollId, vote: string, voter: Addr, otherPoll: PollId)
    requires CanRetract(s, sender, pollId)
    requires Vote(s, sender, pollId, vote).Ok?
    ensures QueryVote(Vote(s, sender, pollId, vote).value.storage, pollId, sender) == Some(Ballot(vote))
    ensures (voter, otherPoll) != (sender, pollId) ==>
      QueryVote(Vote(s, sender, pollId, vote).value.storage, otherPoll, voter) == QueryVote(s, otherPoll, voter)
  {
  }

  /** Creating a poll under a fresh id lengthens the listing by one; re-creating one keeps its length. */
  lemma ListingAfterCreate(s: Storage, sender: Addr, pollId: PollId, question: string, options: seq<string>)
    requires |options| <= MaxOptions
    ensures |QueryAllPolls(CreatePoll(s, sender, pollId, question, options).value)|
         == |QueryAllPolls(s)| + (if pollId in s.polls then 0 else 1)
  {
    var s' := CreatePoll(s, sender, pollId, question, options).value;
    if pollId !in s.polls {
      assert s'.polls.Keys == s.polls.Keys + {pollId};
    } else {
      assert s'.polls.Keys == s.polls.Keys;
    }
  }

  /** The config query of a fresh contract reports the named admin, or the instantiating sender when none is named. */
  lemma QueryConfigAfterInstantiate(sender: Addr, admin: Option<Addr>)
    ensures QueryConfig(Instantiate(sender, admin)) == admin.GetOr(sender)
  {
  }
}
