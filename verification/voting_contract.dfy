/**
 * The Voting smart contract, as far as its test suite pins it down: candidates fixed at
 * deployment with 1-based ids in constructor order, at most one vote per address, ids
 * outside 1..candidatesCount rejected, a per-candidate count and a running total, and one
 * `VoteCast` event per successful vote. The contract's own source is not part of this
 * model; everything below is what the tests assert.
 */
module VotingContract {
  import opened Common

  /** The `VoteCast(voter, candidateId, candidateName)` event. */
  datatype VoteCast = VoteCast(voter: Address, candidateId: nat, candidateName: string)

  /** What a successful `vote` transaction yields: the events it logged. */
  datatype Receipt = Receipt(logs: seq<VoteCast>)

  /** The revert reasons of `vote`. */
  const AlreadyVotedReason: string := "You have already voted"
  const InvalidCandidateReason: string := "Invalid candidate ID"

  /** How many events in `log` are votes for candidate `id`. */
  function VotesFor(log: seq<VoteCast>, id: nat): nat
    decreases |log|
  {
    if log == [] then 0
    else VotesFor(log[..|log| - 1], id) + (if log[|log| - 1].candidateId == id then 1 else 0)
  }

  /** The per-candidate counts that `log` implies for candidates 1..n. */
  function Tally(log: seq<VoteCast>, n: nat): seq<nat> {
    seq(n, k requires 0 <= k < n => VotesFor(log, k + 1))
  }

  /** The addresses that appear as voters in `log`. */
  function VotersOf(log: seq<VoteCast>): set<Address> {
    set i | 0 <= i < |log| :: log[i].voter
  }

  /** No address appears twice as a voter in `log`. */
  predicate DistinctVoters(log: seq<VoteCast>) {
    forall i, j :: 0 <= i < j < |log| ==> log[i].voter != log[j].voter
  }

  function Sum(s: seq<nat>): nat
    decreases |s|
  {
    if s == [] then 0 else s[0] + Sum(s[1..])
  }

  /** Adding one to one count adds one to the sum. */
  lemma {:induction false} SumIncrement(s: seq<nat>, k: nat)
    requires k < |s|
    ensures Sum(s[k := s[k] + 1]) == Sum(s) + 1
    decreases |s|
  {
    if k > 0 {
      assert s[k := s[k] + 1][1..] == s[1..][k - 1 := s[k] + 1];
      SumIncrement(s[1..], k - 1);
    }
  }

  /** Appending one event raises exactly that candidate's tally. */
  lemma TallyAppend(log: seq<VoteCast>, e: VoteCast, n: nat)
    requires 1 <= e.candidateId <= n
    ensures Tally(log + [e], n) == Tally(log, n)[e.candidateId - 1 := Tally(log, n)[e.candidateId - 1] + 1]
  {
    assert (log + [e])[..|log|] == log;
  }

  /** The tallies of a log whose ids all lie in 1..n add up to the number of events. */
  lemma {:induction false} TallySum(log: seq<VoteCast>, n: nat)
    requires forall i :: 0 <= i < |log| ==> 1 <= log[i].candidateId <= n
    ensures Sum(Tally(log, n)) == |log|
    decreases |log|
  {
    if log == [] {
      ZeroSum(Tally(log, n));
    } else {
      var init, e := log[..|log| - 1], log[|log| - 1];
      assert log == init + [e];
      TallySum(init, n);
      TallyAppend(init, e, n);
      SumIncrement(Tally(init, n), e.candidateId - 1);
    }
  }

  lemma {:induction false} ZeroSum(s: seq<nat>)
    requires forall k :: 0 <= k < |s| ==> s[k] == 0
    ensures Sum(s) == 0
    decreases |s|
  {
    if s != [] {
      ZeroSum(s[1..]);
    }
  }

  lemma VotersOfAppend(log: seq<VoteCast>, e: VoteCast)
    ensures VotersOf(log + [e]) == VotersOf(log) + {e.voter}
  {
    var l := log + [e];
    forall x | x in VotersOf(log) ensures x in VotersOf(l) {
      var i :| 0 <= i < |log| && log[i].voter == x;
      assert l[i].voter == x;
    }
    assert l[|log|].voter == e.voter;
  }

  /** A log without repeated voters has as many voters as events. */
  lemma {:induction false} DistinctVotersCount(log: seq<VoteCast>)
    requires DistinctVoters(log)
    ensures |VotersOf(log)| == |log|
    decreases |log|
  {
    if log != [] {
      var init, e := log[..|log| - 1], log[|log| - 1];
      assert log == init + [e];
      VotersOfAppend(init, e);
      forall i | 0 <= i < |init| ensures init[i].voter != e.voter {
        assert log[i].voter != log[|log| - 1].voter;
      }
      DistinctVotersCount(init);
    }
  }

  class Voting {
    /** The deploying account, reported by `owner()`. */
    const owner: Address
    /** The candidate names given at deployment; candidate `k` is `names[k - 1]`. */
    const names: seq<string>
    /** `counts[k - 1]` is candidate `k`'s `voteCount`. */
    var counts: seq<nat>
    /** The addresses whose `getVoterStatus` is true. */
    var voters: set<Address>
    /** What `getTotalVotes` reports. */
    var totalVotes: nat
    /** The `VoteCast` events emitted so far, oldest first. */
    var log: seq<VoteCast>

    /** The contract's invariant: the counts, the voter set and the total are those the
        event log implies, and every logged vote names a valid candidate. */
    ghost predicate Valid()
      reads this
    {
      && |counts| == |names|
      && counts == Tally(log, |names|)
      && voters == VotersOf(log)
      && DistinctVoters(log)
      && totalVotes == |log|
      && forall i :: 0 <= i < |log| ==>
           1 <= log[i].candidateId <= |names| && log[i].candidateName == names[log[i].candidateId - 1]
    }

    /** Deployment by `deployer` with the candidate list `candidateNames`. */
    constructor (deployer: Address, candidateNames: seq<string>)
      ensures Valid()
      ensures owner == deployer
      ensures names == candidateNames && CandidatesCount() == |candidateNames|
      ensures |counts| == |candidateNames| && forall k :: 0 <= k < |counts| ==> counts[k] == 0
      ensures voters == {} && totalVotes == 0 && log == []
    {
      owner := deployer;
      names := candidateNames;
      counts := seq(|candidateNames|, k => 0);
      voters := {};
      totalVotes := 0;
      log := [];
    }

    /** `candidatesCount()`: the number of names given at deployment, which is also the
        number of vote counters and the largest valid candidate id. */
    function CandidatesCount(): (n: nat)
      reads this
      ensures Valid() ==> n == |counts|
    {
      |names|
    }

    /** `vote(candidateId)` sent from `sender`: a repeated voter is rejected first, then an id
        outside 1..candidatesCount; otherwise the candidate's count, the voter set, the total
        and the event log each take the new vote. A rejected call changes nothing. */
    method Vote(sender: Address, candidateId: nat) returns (r: Result<Receipt>)
      requires Valid()
      modifies this
      ensures Valid()
      ensures sender in old(voters) ==> r == Err(AlreadyVotedReason) && unchanged(this)
      ensures sender !in old(voters) && !(1 <= candidateId <= |names|) ==>
                r == Err(InvalidCandidateReason) && unchanged(this)
      ensures sender !in old(voters) && 1 <= candidateId <= |names| ==>
                var e := VoteCast(sender, candidateId, names[candidateId - 1]);
                && r == Ok(Receipt([e]))
                && counts == old(counts)[candidateId - 1 := old(counts)[candidateId - 1] + 1]
                && voters == old(voters) + {sender}
                && totalVotes == old(totalVotes) + 1
                && log == old(log) + [e]
    {
      if sender in voters {
        return Err(AlreadyVotedReason);
      }
      if !(1 <= candidateId <= |names|) {
        return Err(InvalidCandidateReason);
      }
      var e := VoteCast(sender, candidateId, names[candidateId - 1]);
      TallyAppend(log, e, |names|);
      VotersOfAppend(log, e);
      counts := counts[candidateId - 1 := counts[candidateId - 1] + 1];
      voters := voters + {sender};
      totalVotes := totalVotes + 1;
      log := log + [e];
      r := Ok(Receipt([e]));
    }

    /** `getCandidate(id)`: the id, the name given at deployment and the votes logged for it. */
    function GetCandidate(id: nat): (c: Candidate)
      requires Valid() && 1 <= id <= |names|
      reads this
      ensures c.id == id && c.name == names[id - 1]
      ensures c.voteCount == VotesFor(log, id)
    {
      Candidate(id, names[id - 1], counts[id - 1])
    }

    /** `getAllCandidates()`: every candidate, in ascending id order, with its logged votes. */
    function GetAllCandidates(): (all: seq<Candidate>)
      requires Valid()
      reads this
      ensures |all| == CandidatesCount()
      ensures forall k :: 0 <= k < |all| ==>
                all[k].id == k + 1 && all[k].name == names[k] && all[k].voteCount == VotesFor(log, k + 1)
      ensures forall j, k :: 0 <= j < k < |all| ==> all[j].id < all[k].id
    {
      var c := counts;
      seq(|names|, k requires 0 <= k < |names| => Candidate(k + 1, names[k], c[k]))
    }

    /** `getVoterStatus(voter)`: whether `voter` has cast a successful vote. */
    function GetVoterStatus(voter: Address): (b: bool)
      requires Valid()
      reads this
      ensures b <==> exists i :: 0 <= i < |log| && log[i].voter == voter
    {
      voter in voters
    }

    /** `getTotalVotes()`: the number of successful votes, which is also the sum of the
        candidates' counts and the number of addresses that have voted. */
    function GetTotalVotes(): (total: nat)
      requires Valid()
      reads this
      ensures total == |log|
      ensures total == Sum(counts)
      ensures total == |voters|
    {
      TallySum(log, |names|);
      DistinctVotersCount(log);
      totalVotes
    }
  }

  // ---------------------------------------------------------------- the test suite's scenarios

  const Names: seq<string> := ["Alice Johnson", "Bob Smith", "Carol Davis"]

  /** Deployment: three candidates in constructor order, none with a vote, and the deployer
      as owner. */
  method DeploymentScenario() returns (owner: Address, count: nat, all: seq<Candidate>)
    ensures owner == "owner"
    ensures count == 3
    ensures |all| == 3 && all[0].name == "Alice Johnson" && all[1].name == "Bob Smith" && all[2].name == "Carol Davis"
    ensures forall k :: 0 <= k < |all| ==> all[k].voteCount == 0
  {
    var v := new Voting("owner", Names);
    owner := v.owner;
    count := v.CandidatesCount();
    all := v.GetAllCandidates();
  }

  /** A first vote counts and marks the voter; a second vote from the same address fails
      with "You have already voted". */
  method DoubleVoteScenario() returns (first: Result<Receipt>, votes: nat, voted: bool, second: Result<Receipt>)
    ensures first.Ok? && votes == 1 && voted
    ensures second == Err(AlreadyVotedReason)
  {
    var v := new Voting("owner", Names);
    first := v.Vote("voter1", 1);
    votes := v.GetCandidate(1).voteCount;
    voted := v.GetVoterStatus("voter1");
    second := v.Vote("voter1", 2);
  }

  /** Ids 0 and candidatesCount + 1 are rejected with "Invalid candidate ID". */
  method InvalidIdScenario() returns (low: Result<Receipt>, high: Result<Receipt>)
    ensures low == Err(InvalidCandidateReason) && high == Err(InvalidCandidateReason)
  {
    var v := new Voting("owner", Names);
    low := v.Vote("voter1", 0);
    high := v.Vote("voter1", 4);
  }

  /** The three votes of the tally tests: voter1 and voter3 for candidate 1, voter2 for candidate 2. */
  method CastThreeVotes() returns (v: Voting)
    ensures fresh(v) && v.Valid() && v.names == Names
    ensures v.counts == [2, 1, 0] && v.voters == {"voter1", "voter2", "voter3"}
  {
    v := new Voting("owner", Names);
    assert v.counts == [0, 0, 0];
    var _ := v.Vote("voter1", 1);
    assert v.counts == [1, 0, 0] && v.voters == {"voter1"};
    SecondVote(v);
    ThirdVote(v);
  }

  /** voter2 votes for candidate 2 after voter1's vote for candidate 1. */
  method SecondVote(v: Voting)
    requires v.Valid() && v.names == Names && v.counts == [1, 0, 0] && v.voters == {"voter1"}
    modifies v
    ensures v.Valid() && v.names == Names && v.counts == [1, 1, 0] && v.voters == {"voter1", "voter2"}
  {
    assert "voter2"[5] != "voter1"[5];
    var _ := v.Vote("voter2", 2);
    assert v.counts == [1, 0, 0][1 := 1];
  }

  /** voter3 votes for candidate 1 after the first two votes. */
  method ThirdVote(v: Voting)
    requires v.Valid() && v.names == Names && v.counts == [1, 1, 0] && v.voters == {"voter1", "voter2"}
    modifies v
    ensures v.Valid() && v.names == Names && v.counts == [2, 1, 0] && v.voters == {"voter1", "voter2", "voter3"}
  {
    assert "voter3"[5] != "voter1"[5] && "voter3"[5] != "voter2"[5];
    var _ := v.Vote("voter3", 1);
    assert v.counts == [1, 1, 0][0 := 2];
  }

  /** After the three votes the total is 3. */
  method TotalVotesScenario() returns (total: nat)
    ensures total == 3
  {
    var v := CastThreeVotes();
    total := v.GetTotalVotes();
    assert Sum(v.counts) == 2 + Sum([1, 0]);
  }

  /** After the three votes the counts are 2, 1 and 0, and candidate 1 reads back in full. */
  method CountsScenario() returns (counts: seq<nat>, alice: Candidate)
    ensures counts == [2, 1, 0]
    ensures alice == Candidate(1, "Alice Johnson", 2)
  {
    var v := CastThreeVotes();
    var all := v.GetAllCandidates();
    counts := [all[0].voteCount, all[1].voteCount, all[2].voteCount];
    alice := v.GetCandidate(1);
  }

  /** After the three votes voter1 and voter2 have voted and account4 has not. */
  method VoterStatusScenario() returns (statuses: seq<bool>)
    ensures statuses == [true, true, false]
  {
    var v := CastThreeVotes();
    var s1 := v.GetVoterStatus("voter1");
    var s2 := v.GetVoterStatus("voter2");
    assert "account4"[0] != "voter1"[0];
    var s4 := v.GetVoterStatus("account4");
    statuses := [s1, s2, s4];
  }

  /** A successful vote logs exactly one `VoteCast` naming the voter, the id and the name. */
  method EventScenario() returns (r: Result<Receipt>)
    ensures r == Ok(Receipt([VoteCast("voter1", 1, "Alice Johnson")]))
  {
    var v := new Voting("owner", Names);
    r := v.Vote("voter1", 1);
  }
}
