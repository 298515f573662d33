/** The records the contract persists and small helpers over a poll's option list. */
module State {
  import opened Wrappers

  /** Account addresses are opaque; the host's address validation is not modelled. */
  type Addr = string
  type PollId = string

  /** Ballots are keyed by the voter and the poll they voted on. */
  type BallotKey = (Addr, PollId)

  /** An ordered list of (label, tally) pairs; labels need not be distinct. */
  type Options = seq<(string, nat)>

  datatype Poll = Poll(creator: Addr, question: string, options: Options)

  datatype Ballot = Ballot(option: string)

  datatype Config = Config(admin: Addr)

  /** The three storage items: CONFIG, POLLS and BALLOTS. */
  datatype Storage = Storage(config: Config, polls: map<PollId, Poll>, ballots: map<BallotKey, Ballot>)

  function Labels(options: Options): (labels: seq<string>) {
    seq(|options|, i requires 0 <= i < |options| => options[i].0)
  }

  function Tallies(options: Options): (tallies: seq<nat>) {
    seq(|options|, i requires 0 <= i < |options| => options[i].1)
  }

  /**
   * The index of the first label equal to `wanted`, as `Iterator::position`
   * finds it; None when no label matches.
   */
  function Position(labels: seq<string>, wanted: string): (r: Option<nat>)
    ensures r.Some? <==> wanted in labels
    ensures r.Some? ==> r.value < |labels| && labels[r.value] == wanted
    ensures r.Some? ==> forall j :: 0 <= j < r.value ==> labels[j] != wanted
  {
    if labels == [] then None
    else if labels[0] == wanted then Some(0)
    else match Position(labels[1..], wanted)
      case None => None
      case Some(i) => Some(i + 1)
  }

  /** Replaces the tally of option `i`; every label and every other tally stays. */
  function SetTally(options: Options, i: nat, tally: nat): (r: Options)
    requires i < |options|
    ensures Labels(r) == Labels(options)
    ensures Tallies(r) == Tallies(options)[i := tally]
  {
    options[i := (options[i].0, tally)]
  }

  function Sum(tallies: seq<nat>): (total: nat) {
    if tallies == [] then 0 else tallies[0] + Sum(tallies[1..])
  }

  lemma {:induction false} SumOfZeros(tallies: seq<nat>)
    requires forall i :: 0 <= i < |tallies| ==> tallies[i] == 0
    ensures Sum(tallies) == 0
  {
    if tallies != [] {
      SumOfZeros(tallies[1..]);
    }
  }
}
