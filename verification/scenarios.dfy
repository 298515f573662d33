/** The repository's unit tests, restated as facts about the model. */
module Scenarios {
  import opened Wrappers
  import opened Errors
  import opened State
  import opened Contract

  const Addr1: Addr := "addr1"
  const Addr2: Addr := "addr2"
  const Coins: seq<string> := ["Cosmos Hub", "Juno", "Osmosis"]

  /** Without an admin in the message the sender becomes admin; with one, that one does. */
  lemma InstantiateAdmin()
    ensures QueryConfig(Instantiate(Addr1, None)) == Addr1
    ensures QueryConfig(Instantiate(Addr1, Some(Addr2))) == Addr2
  {
  }

  /** Eleven options are refused. */
  lemma CreatePollElevenOptions(s: Storage)
    ensures CreatePoll(s, Addr1, "some_id", "What's your favourite number?",
                       ["1", "2", "3", "4", "5", "6", "7", "8", "9", "10", "11"]) == Err(TooManyOptions)
  {
  }

  /** The storage after instantiating and creating the coin poll under "some_id". */
  function CoinPoll(): (s: Storage) {
    CreatePoll(Instantiate(Addr1, None), Addr1, "some_id", "What's your favourite Cosmos coin?", Coins).value
  }

  lemma CoinPollStored()
    ensures CoinPoll().polls.Keys == {"some_id"} && CoinPoll().ballots == map[]
    ensures CoinPoll().polls["some_id"].options == [("Cosmos Hub", 0), ("Juno", 0), ("Osmosis", 0)]
  {
    var options := CoinPoll().polls["some_id"].options;
    assert Labels(options) == Coins;
    assert |options| == 3;
    assert options[0].0 == Labels(options)[0] && options[0].1 == 0;
    assert options[1].0 == Labels(options)[1] && options[1].1 == 0;
    assert options[2].0 == Labels(options)[2] && options[2].1 == 0;
  }

  /** The storage after Addr1 votes Juno on the coin poll. */
  lemma FirstVoteJuno()
    ensures CanRetract(CoinPoll(), Addr1, "some_id")
    ensures Vote(CoinPoll(), Addr1, "some_id", "Juno").Ok?
    ensures
      var s := Vote(CoinPoll(), Addr1, "some_id", "Juno").value.storage;
      && s.ballots == map[(Addr1, "some_id") := Ballot("Juno")]
      && s.polls.Keys == {"some_id"}
      && s.polls["some_id"].options == [("Cosmos Hub", 0), ("Juno", 1), ("Osmosis", 0)]
  {
    CoinPollStored();
    var labels := Labels(CoinPoll().polls["some_id"].options);
    assert labels == Coins;
    assert Position(labels, "Juno") == Some(1);
  }

  /** Voting Juno and then switching to Osmosis reports one vote for Osmosis. */
  lemma VoteThenChange()
    ensures
      var s := Vote(CoinPoll(), Addr1, "some_id", "Juno").value.storage;
      && CanRetract(s, Addr1, "some_id")
      && Vote(s, Addr1, "some_id", "Osmosis").Ok?
      && Vote(s, Addr1, "some_id", "Osmosis").value.tally == 1
      && Vote(s, Addr1, "some_id", "Osmosis").value.storage.polls["some_id"].options
         == [("Cosmos Hub", 0), ("Juno", 0), ("Osmosis", 1)]
  {
    FirstVoteJuno();
    var s := Vote(CoinPoll(), Addr1, "some_id", "Juno").value.storage;
    var labels := Labels(s.polls["some_id"].options);
    assert labels == Coins;
    assert Position(labels, "Juno") == Some(1);
    assert Position(labels, "Osmosis") == Some(2);
    assert PriorIndex(s, Addr1, "some_id") == Some(1);
  }

  /** A vote before the poll exists is refused, and so is a vote for a label it lacks. */
  lemma VoteInvalid()
    ensures
      var s0 := Instantiate(Addr1, None);
      && Vote(s0, Addr1, "some_id", "Juno") == Err(Unauthorized)
      && var s1 := CreatePoll(s0, Addr1, "some_id", "What's your favourite Cosmos coin?", Coins).value;
         && CanRetract(s1, Addr1, "some_id")
         && Vote(s1, Addr1, "some_id", "DVPN") == Err(VoteOptionNotFound)
  {
    var s0 := Instantiate(Addr1, None);
    var s1 := CreatePoll(s0, Addr1, "some_id", "What's your favourite Cosmos coin?", Coins).value;
    assert Labels(s1.polls["some_id"].options) == Coins;
    assert "DVPN" !in Coins;
  }

  /** Two polls under different ids are both listed. */
  lemma TwoPollsListed()
    ensures
      var s0 := Instantiate(Addr1, None);
      var s1 := CreatePoll(s0, Addr1, "some_id_1", "What's your favourite Cosmos coin?", Coins).value;
      var s2 := CreatePoll(s1, Addr1, "some_id_2", "What's your colour?", ["Red", "Green", "Blue"]).value;
      |QueryAllPolls(s2)| == 2
  {
    var s0 := Instantiate(Addr1, None);
    var s1 := CreatePoll(s0, Addr1, "some_id_1", "What's your favourite Cosmos coin?", Coins).value;
    var s2 := CreatePoll(s1, Addr1, "some_id_2", "What's your colour?", ["Red", "Green", "Blue"]).value;
    assert s2.polls.Keys == {"some_id_1", "some_id_2"};
    assert "some_id_1" != "some_id_2";
  }

  /** A cast vote can be read back; a voter who never voted on a poll reads nothing. */
  lemma QueryVoteScenario()
    ensures
      var s0 := Instantiate(Addr1, None);
      var s1 := CreatePoll(s0, Addr1, "some_id_1", "What's your favourite Cosmos coin?", Coins).value;
      && CanRetract(s1, Addr1, "some_id_1")
      && Vote(s1, Addr1, "some_id_1", "Juno").Ok?
      && var s2 := Vote(s1, Addr1, "some_id_1", "Juno").value.storage;
         && QueryVote(s2, "some_id_1", Addr1).Some?
         && QueryVote(s2, "some_id_2", Addr2).None?
  {
    var s0 := Instantiate(Addr1, None);
    var s1 := CreatePoll(s0, Addr1, "some_id_1", "What's your favourite Cosmos coin?", Coins).value;
    assert Labels(s1.polls["some_id_1"].options) == Coins;
    assert "Juno" == Coins[1];
  }

  /** A created poll can be queried back under its id. */
  lemma QueryPollScenario()
    ensures
      var s0 := Instantiate(Addr1, None);
      var s1 := CreatePoll(s0, Addr1, "some_id_1", "What's your favourite Cosmos coin?", Coins).value;
      QueryPoll(s1, "some_id_1").Some?
  {
  }

  /**
   * Re-creating a poll that has ballots and then voting on it can lose a vote
   * without any panic. Addr1 votes A; the poll is re-created, so its tallies
   * restart at zero while Addr1's ballot stays; Addr2 votes A; Addr1 then
   * switches to B, and the retraction lowers the tally that counts Addr2's
   * vote. Two ballots remain but the tallies add up to one.
   */
  lemma RecreatedPollLosesVote()
    ensures
      var q := "Which letter?";
      var s1 := CreatePoll(Instantiate(Addr1, None), Addr1, "p", q, ["A", "B"]).value;
      && CanRetract(s1, Addr1, "p")
      && Vote(s1, Addr1, "p", "A").Ok?
      && var s2 := Vote(s1, Addr1, "p", "A").value.storage;
      var s3 := CreatePoll(s2, Addr1, "p", q, ["A", "B"]).value;
      && CanRetract(s3, Addr2, "p")
      && Vote(s3, Addr2, "p", "A").Ok?
      && var s4 := Vote(s3, Addr2, "p", "A").value.storage;
      && CanRetract(s4, Addr1, "p")
      && Vote(s4, Addr1, "p", "B").Ok?
      && var s5 := Vote(s4, Addr1, "p", "B").value.storage;
      && s5.ballots == map[(Addr1, "p") := Ballot("B"), (Addr2, "p") := Ballot("A")]
      && s5.polls["p"].options == [("A", 0), ("B", 1)]
  {
    var q := "Which letter?";
    var s1 := CreatePoll(Instantiate(Addr1, None), Addr1, "p", q, ["A", "B"]).value;
    assert Labels(s1.polls["p"].options) == ["A", "B"];
    assert Position(["A", "B"], "A") == Some(0);
    assert Position(["A", "B"], "B") == Some(1);
    var s2 := Vote(s1, Addr1, "p", "A").value.storage;
    assert s2.ballots == map[(Addr1, "p") := Ballot("A")];
    var s3 := CreatePoll(s2, Addr1, "p", q, ["A", "B"]).value;
    var o3 := s3.polls["p"].options;
    assert Labels(o3) == ["A", "B"];
    assert o3[0].1 == 0 && o3[1].1 == 0;
    assert (Addr2, "p") !in s3.ballots;
    var s4 := Vote(s3, Addr2, "p", "A").value.storage;
    var o4 := s4.polls["p"].options;
    assert Labels(o4) == ["A", "B"];
    assert o4[0].1 == 1 && o4[1].1 == 0;
    assert PriorIndex(s4, Addr1, "p") == Some(0);
    var s5 := Vote(s4, Addr1, "p", "B").value.storage;
    var o5 := s5.polls["p"].options;
    assert Labels(o5) == ["A", "B"];
    assert o5[0].1 == 0 && o5[1].1 == 1;
    assert o5[0] == ("A", 0) && o5[1] == ("B", 1);
  }
}
