/**
 * The contract's transitions and queries (src/contract.rs) as pure functions
 * over the persisted storage.
 *
 * The host rolls back every write of a call that returns an error, so a
 * transition either yields the complete new storage or only an error; on an
 * error the storage from before the call stands.
 */
module Contract {
  import opened Wrappers
  import opened Errors
  import opened State
  import KeyOrder

  /** The most options a poll may be created with. */
  const MaxOptions: nat := 10

  /**
   * The storage of a freshly instantiated contract. The admin is the one
   * named in the message, or the instantiating sender when none is named.
   */
  function Instantiate(sender: Addr, admin: Option<Addr>): (s: Storage)
    ensures admin.None? ==> s.config.admin == sender
    ensures admin.Some? ==> s.config.admin == admin.value
    ensures s.polls == map[] && s.ballots == map[]
  {
    Storage(Config(admin.GetOr(sender)), map[], map[])
  }

  /** The option list of a new poll: the given labels in order, each with no votes. */
  function ZeroTallied(labels: seq<string>): (r: Options)
    ensures Labels(r) == labels
    ensures forall i :: 0 <= i < |r| ==> r[i].1 == 0
  {
    if labels == [] then []
    else ZeroTallied(labels[..|labels| - 1]) + [(labels[|labels| - 1], 0)]
  }

  /**
   * Stores a new poll under `pollId`, replacing any poll stored there.
   * Ballots already cast under that id are kept.
   */
  function CreatePoll(s: Storage, sender: Addr, pollId: PollId, question: string, options: seq<string>)
    : (r: Result<Storage, ContractError>)
    ensures r.Err? <==> |options| > MaxOptions
    ensures r.Err? ==> r.error == TooManyOptions
    ensures r.Ok? ==> r.value.polls.Keys == s.polls.Keys + {pollId}
    ensures r.Ok? ==>
      var poll := r.value.polls[pollId];
      && poll.creator == sender
      && poll.question == question
      && Labels(poll.options) == options
      && forall i :: 0 <= i < |poll.options| ==> poll.options[i].1 == 0
    ensures r.Ok? ==> forall id :: id in s.polls && id != pollId ==> r.value.polls[id] == s.polls[id]
    ensures r.Ok? ==> r.value.ballots == s.ballots && r.value.config == s.config
  {
    if |options| > MaxOptions then Err(TooManyOptions)
    else
      var poll := Poll(sender, question, ZeroTallied(options));
      Ok(s.(polls := s.polls[pollId := poll]))
  }

  /**
   * The index of the option that the sender's earlier ballot on `pollId`
   * counts toward: the first option carrying the ballot's label. None when the
   * sender has not voted on the poll, or when no option carries that label.
   */
  function PriorIndex(s: Storage, sender: Addr, pollId: PollId): (prior: Option<nat>)
    requires pollId in s.polls
  {
    var key := (sender, pollId);
    if key in s.ballots then Position(Labels(s.polls[pollId].options), s.ballots[key].option)
    else None
  }

  /**
   * The earlier ballot, if any, can be retracted: its label still names an
   * option of the poll, and that option's tally is positive. Otherwise the
   * contract panics while retracting it (the label lookup is unwrapped and the
   * tally is an unsigned integer).
   */
  predicate CanRetract(s: Storage, sender: Addr, pollId: PollId) {
    pollId in s.polls && (sender, pollId) in s.ballots ==>
      match PriorIndex(s, sender, pollId)
      case None => false
      case Some(j) => s.polls[pollId].options[j].1 > 0
  }

  /** The storage after a successful vote and the tally it reports for the chosen label. */
  datatype VoteOutcome = VoteOutcome(storage: Storage, tally: nat)

  /**
   * Casts or changes the sender's vote on `pollId`. An earlier ballot is
   * retracted from the first option with its label and the new ballot is
   * staged before the new label is looked up; a failed lookup aborts the
   * call, which discards both.
   */
  function Vote(s: Storage, sender: Addr, pollId: PollId, vote: string): (r: Result<VoteOutcome, ContractError>)
    requires CanRetract(s, sender, pollId)
    ensures pollId !in s.polls ==> r == Err(Unauthorized)
    ensures pollId in s.polls && vote !in Labels(s.polls[pollId].options) ==> r == Err(VoteOptionNotFound)
    ensures r.Ok? <==> pollId in s.polls && vote in Labels(s.polls[pollId].options)
    ensures r.Ok? ==>
      && r.value.storage.ballots == s.ballots[(sender, pollId) := Ballot(vote)]
      && r.value.storage.config == s.config
      && r.value.storage.polls.Keys == s.polls.Keys
      && forall id :: id in s.polls && id != pollId ==> r.value.storage.polls[id] == s.polls[id]
    ensures r.Ok? ==>
      var before := s.polls[pollId];
      var after := r.value.storage.polls[pollId];
      var i := Position(Labels(before.options), vote).value;
      && after.creator == before.creator
      && after.question == before.question
      && Labels(after.options) == Labels(before.options)
      && (forall x :: 0 <= x < |before.options| ==>
            after.options[x].1 == before.options[x].1
              + (if x == i then 1 else 0)
              - (if PriorIndex(s, sender, pollId) == Some(x) then 1 else 0))
      && r.value.tally == after.options[i].1
  {
    if pollId !in s.polls then Err(Unauthorized)
    else
      var key := (sender, pollId);
      var poll := s.polls[pollId];
      var retracted :=
        if key in s.ballots then
          var j := Position(Labels(poll.options), s.ballots[key].option).value;
          SetTally(poll.options, j, poll.options[j].1 - 1)
        else poll.options;
      var staged := s.ballots[key := Ballot(vote)];
      match Position(Labels(retracted), vote)
      case None => Err(VoteOptionNotFound)
      case Some(i) =>
        var cast := SetTally(retracted, i, retracted[i].1 + 1);
        Ok(VoteOutcome(Storage(s.config, s.polls[pollId := poll.(options := cast)], staged), cast[i].1))
  }

  /** The poll stored under `pollId`, if any. */
  function QueryPoll(s: Storage, pollId: PollId): (r: Option<Poll>)
    ensures r.Some? <==> pollId in s.polls
    ensures r.Some? ==> r.value == s.polls[pollId]
  {
    if pollId in s.polls then Some(s.polls[pollId]) else None
  }

  /** The ballot `voter` cast on `pollId`, if any. */
  function QueryVote(s: Storage, pollId: PollId, voter: Addr): (r: Option<Ballot>)
    ensures r.Some? <==> (voter, pollId) in s.ballots
    ensures r.Some? ==> r.value == s.ballots[(voter, pollId)]
  {
    if (voter, pollId) in s.ballots then Some(s.ballots[(voter, pollId)]) else None
  }

  /** The entries the store's ascending range yields for the given ids. */
  function Entries(ids: seq<PollId>, polls: map<PollId, Poll>): (r: seq<(PollId, Poll)>)
    requires forall i :: 0 <= i < |ids| ==> ids[i] in polls
    ensures |r| == |ids|
    ensures forall i :: 0 <= i < |r| ==> r[i] == (ids[i], polls[ids[i]])
  {
    if ids == [] then [] else [(ids[0], polls[ids[0]])] + Entries(ids[1..], polls)
  }

  /** Every stored poll with its id, in ascending id order. */
  function PollEntries(s: Storage): (r: seq<(PollId, Poll)>)
    ensures |r| == |s.polls|
    ensures forall i :: 0 <= i < |r| ==> r[i].0 in s.polls && r[i].1 == s.polls[r[i].0]
    ensures forall id :: id in s.polls ==> exists i :: 0 <= i < |r| && r[i].0 == id
    ensures forall i, j :: 0 <= i < j < |r| ==> KeyOrder.Below(r[i].0, r[j].0)
  {
    var ids := KeyOrder.SortedKeys(s.polls.Keys);
    Entries(ids, s.polls)
  }

  /** All stored polls, ordered by ascending poll id. */
  function QueryAllPolls(s: Storage): (r: seq<Poll>)
    ensures |r| == |s.polls|
    ensures forall i :: 0 <= i < |r| ==> r[i] == s.polls[PollEntries(s)[i].0]
  {
    var entries := PollEntries(s);
    seq(|entries|, i requires 0 <= i < |entries| => entries[i].1)
  }

  /** The stored configuration's admin, as the config query returns it. */
  function QueryConfig(s: Storage): (admin: Addr) {
    s.config.admin
  }
}
