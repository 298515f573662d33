# Poll and ballot state machine

A Dafny model of the voting contract in `src/contract.rs`: a CosmWasm smart
contract that stores polls (a creator, a question and an ordered list of
(label, tally) pairs) and one ballot per (voter, poll), lets any account
create a poll and cast or change its vote, and answers queries over the
stored polls and ballots.

The persisted state is three maps: `CONFIG` (the admin), `POLLS` (poll id to
poll) and `BALLOTS` ((voter, poll id) to the chosen label). The model keeps
them as the immutable `State.Storage` datatype and writes each call as a pure
function from the storage before the call to either the complete new storage
or an error. The host discards every write of a call that fails, so an
`Err` carries no storage: the storage from before the call stands.

Modules:

- `Wrappers`: `Option` and `Result`.
- `Errors`: the contract's error enum (`src/error.rs`).
- `State`: the stored records, and `Position` (the first option carrying a
  label, as `Iterator::position` finds it), `SetTally` and `Sum`.
- `KeyOrder`: the ascending key order the store ranges in (character by
  character, a proper prefix first) and `SortedKeys`. Comparing Unicode scalar
  values one by one gives the same order as comparing their UTF-8 bytes, which
  is how the store's ascending range compares keys.
- `Contract`: `Instantiate`, `CreatePoll`, `Vote` and the queries.
- `Tally`: a reference definition of the tallies a poll should carry, computed
  from its ballots. A ballot counts toward the first option carrying its
  label, and a repeated label's later option stays at zero.
- `Consistency`: the tally/ballot invariant and its preservation.
- `Properties`: facts that relate the transitions to each other and to the
  queries.
- `Scenarios`: the repository's unit tests that check stored state or query
  results, restated as lemmas, and one trace of a lost vote.

The invariant (`Consistency.Consistent`) says two things. First, every ballot
names a label of a stored poll. Second, each poll's tallies equal
`Tally.Expected` of its ballots. This is stronger than "the tallies of a poll
add up to its number of ballots". The weaker statement does not exclude a
state in which retracting a ballot underflows a zero tally. The sum property
is proved as a corollary.

Three behaviours of the code are easy to misread; the model follows the code:

- A vote on a poll id with no stored poll fails with `Unauthorized`. The
  `PollNotFound` variant exists but is never returned.
- The new ballot is staged before the new label is looked up. Because the
  failed call's writes are discarded, this ordering is not observable.
- Creating a poll under an existing id overwrites it and keeps the ballots cast
  on it. The invariant then holds only if no ballot was cast under that id.
  Right after re-creation, every earlier voter's vote on the poll panics. Once
  another vote has raised the label's tally, an earlier voter's change instead
  goes through and lowers a tally that counts someone else's vote.

## Model

| member | source | states |
|---|---|---|
| Contract.Instantiate | src/contract.rs:23-29 | the admin is the one named in the message, or the sender when none is named; no polls or ballots exist yet |
| Contract.ZeroTallied | src/contract.rs:61-65 | the option list of a new poll carries the given labels in the given order, each with tally 0 |
| Contract.CreatePoll | src/contract.rs:53-76 | fails with `TooManyOptions` exactly when more than 10 options are given; on success the poll under the id has the sender as creator, the question, the labels in order and zero tallies, and every other poll, every ballot and the config are unchanged |
| State.Position | src/contract.rs:111-114 | finds an index exactly when the label occurs, and the index it finds is the first option carrying that label |
| State.SetTally | src/contract.rs:100 | adjusting one option's tally keeps every label and every other tally |
| Contract.Vote | src/contract.rs:77-132 | a missing poll gives `Unauthorized`; a label absent from the poll gives `VoteOptionNotFound`; otherwise the vote succeeds, the sender's ballot becomes the new label (created or overwritten), the new label's first option gains one vote, the earlier ballot's option loses one, creator, question, labels, other polls and the config stay, and the reported count is the new label's tally after the update |
| Contract.QueryPoll | src/contract.rs:162-165 | yields the poll stored under the id, or nothing when none is stored |
| Contract.QueryVote | src/contract.rs:166-171 | yields the ballot of the voter on the poll, or nothing when the voter has not voted on it |
| Contract.PollEntries | src/contract.rs:153-157 | the store's ascending range lists every stored poll exactly once with its id, in strictly ascending id order |
| Contract.QueryAllPolls | src/contract.rs:153-159 | lists as many polls as are stored, the i-th being the poll with the i-th smallest id |
| KeyOrder.SortedKeys | src/contract.rs:155 | lists every key of the set exactly once, in strictly ascending key order |
| Tally.ExpectedAddBallot | src/contract.rs:111-120 | one more ballot for a label raises exactly the reference tally of that label's first option, by one |
| Tally.ExpectedMoveBallot | src/contract.rs:94-120 | when tallies match the ballots, the earlier label's tally is positive, and lowering it and then raising the new label's gives the tallies of the moved ballots |
| Tally.SumOfExpected | src/contract.rs:111-120 | when every ballot names a label of the poll, the reference tallies add up to the number of ballots |
| Consistency.InstantiateConsistent | src/contract.rs:16-34 | the storage of a freshly instantiated contract satisfies the tally/ballot invariant |
| Consistency.ConsistentTalliesSumToBallots | src/contract.rs:89-121 | under the invariant, each poll's tallies add up to the number of ballots cast on it |
| Consistency.ConsistentCanRetract | src/contract.rs:95-100 | under the invariant, the lookup of the earlier ballot's label cannot fail and its tally cannot underflow |
| Consistency.VotePreservesConsistency | src/contract.rs:77-132 | a successful vote on a storage satisfying the invariant leaves a storage satisfying it |
| Consistency.CreatePollConsistency | src/contract.rs:53-76 | creating a poll keeps the invariant if and only if no ballot was cast under its id, which holds in particular for a fresh id |
| Consistency.CreatePollKeepsConsistency | src/contract.rs:53-76 | creating a poll under an id with no ballots, in particular a fresh id, keeps the invariant |
| Consistency.CreatePollOverBallotsBreaksConsistency | src/contract.rs:71 | re-creating a poll that already has ballots resets its tallies to zero, so the invariant no longer holds |
| Consistency.RecreatedPollStrandsVoters | src/contract.rs:71 | in the storage right after re-creating a poll someone voted on, that voter's earlier ballot can no longer be retracted, so their next vote there panics |
| Properties.RevoteSameLabelKeepsStorage | src/contract.rs:89-121 | voting again for the label one already chose succeeds and leaves the storage exactly as it was |
| Properties.QueryPollAfterCreate | src/contract.rs:66-71 | after a successful creation the poll query returns the new poll with the sender, the question, the given labels and tallies summing to zero |
| Properties.QueryVoteAfterVote | src/contract.rs:89-108 | after a successful vote the sender's ballot on the poll reads as the new label and every other ballot reads as before |
| Properties.QueryConfigAfterInstantiate | src/contract.rs:172-176 | the config query of a freshly instantiated contract reports the named admin, or the sender when none is named |
| Properties.ListingAfterCreate | src/contract.rs:71 | creating a poll under a fresh id lengthens the poll listing by one; re-creating an id keeps its length |
| Scenarios.InstantiateAdmin | src/contract.rs:190-220 | instantiating without an admin makes the sender admin; with one, that account |
| Scenarios.CreatePollElevenOptions | src/contract.rs:246-275 | creating a poll with eleven options fails with `TooManyOptions` |
| Scenarios.VoteThenChange | src/contract.rs:276-316 | voting Juno and then Osmosis reports a count of 1 and leaves the tallies 0, 0, 1 |
| Scenarios.VoteInvalid | src/contract.rs:318-354 | voting before the poll exists fails; voting for a label the poll lacks fails with `VoteOptionNotFound` |
| Scenarios.TwoPollsListed | src/contract.rs:357-393 | two polls created under different ids are both listed |
| Scenarios.QueryVoteScenario | src/contract.rs:422-467 | a cast vote reads back, and a voter who never voted on a poll reads nothing |
| Scenarios.QueryPollScenario | src/contract.rs:394-421 | after creating "some_id_1", the poll query under that id finds a poll |
| Scenarios.RecreatedPollLosesVote | src/contract.rs:95-100 | after a poll with a ballot is re-created and someone else votes the same label, the earlier voter's change lowers the other voter's tally: two ballots remain but the tallies read A:0, B:1 |

## Left out

- Entry-point wiring and message dispatch (`instantiate`/`execute`/`query` as entry points): glue around the modelled functions.
- The contract-version write at instantiation: a write by an external library that no modelled behaviour reads.
- Address validation by the host API: addresses are opaque strings, and the panic of `query_vote` on an invalid address is not modelled.
- Binary encoding of query responses and the `Response` attributes other than the reported tally: encoding boilerplate.
- The error variant wrapping storage-library errors: storage operations of the model are total map operations.
- The unwrap in `query_config`: the model's storage always holds a config, so it cannot fail.
- Tallies are unbounded naturals, so the u64 overflow on increment is not modelled.
- Contract.Vote: requires `CanRetract`, which excludes the two panics while retracting an earlier ballot (the unwrap of a missing label and the u64 underflow of a zero tally) instead of modelling them as outcomes; `Consistency.ConsistentCanRetract` shows the invariant implies it.
- Host transaction rollback: assumed, not modelled. A failed call returns only an error, so the storage from before the call stands.
