/**
 * The voting panel: the page component that loads the candidates, the caller's voter
 * status and the total from the service, submits a vote, and turns the outcome into a
 * status message. Its React state becomes the fields of `VotingPanel`; each awaited
 * service call is evaluated against the `Chain` the caller supplies.
 */
module VotingInterface {
  import opened Common
  import opened Text
  import opened Web3
  import VotingContract

  const VoteErrorPrefix: string := "Error casting vote: "
  const AlreadyVotedText: string := "You have already voted!"
  const DeniedText: string := "Transaction was denied by user"
  const LoadErrorPrefix: string := "Error loading voting data: "
  const SuccessPrefix: string := "Vote cast successfully! Transaction: "

  lemma AlreadyVotedTextHasKey()
    ensures Includes(AlreadyVotedText, "already voted")
  {
    assert AlreadyVotedText == "You have " + "already voted" + "!";
    IncludesInfix("You have ", "already voted", "!");
  }

  lemma DeniedTextHasKey()
    ensures Includes(DeniedText, "denied")
  {
    assert DeniedText == "Transaction was " + "denied" + " by user";
    IncludesInfix("Transaction was ", "denied", " by user");
  }

  /** A text without the letter 'l' cannot contain "already voted". */
  lemma NoAlreadyVotedWithoutL(s: string)
    requires forall k :: 0 <= k < |s| ==> s[k] != 'l'
    ensures !Includes(s, "already voted")
  {
    forall i | 0 <= i <= |s| - 13
      ensures !OccursAt(s, "already voted", i)
    {
      assert s[i..i + 13][1] == s[i + 1] != 'l';
    }
    IncludesIffOccurs(s, "already voted");
  }

  lemma DeniedTextLacksAlreadyVoted()
    ensures !Includes(DeniedText, "already voted")
  {
    NoAlreadyVotedWithoutL(DeniedText);
  }

  /** The message shown when the vote transaction fails. The already-voted test comes first,
      so its text wins when both key phrases occur; each of the two fixed texts is shown
      exactly when its test decides; anything else passes the provider's message through. */
  function VoteErrorMessage(raw: string): (m: string)
    ensures VoteErrorPrefix <= m
    ensures m == VoteErrorPrefix + AlreadyVotedText <==> Includes(raw, "already voted")
    ensures m == VoteErrorPrefix + DeniedText <==> !Includes(raw, "already voted") && Includes(raw, "denied")
    ensures !Includes(raw, "already voted") && !Includes(raw, "denied") ==> m == VoteErrorPrefix + raw
  {
    AlreadyVotedTextHasKey();
    DeniedTextHasKey();
    DeniedTextLacksAlreadyVoted();
    var detail := if Includes(raw, "already voted") then AlreadyVotedText
                  else if Includes(raw, "denied") then DeniedText
                  else raw;
    assert (VoteErrorPrefix + detail)[|VoteErrorPrefix|..] == detail;
    VoteErrorPrefix + detail
  }

  /** A provider error that carries the contract's revert reason for a second vote, whatever
      surrounds it, is shown as the already-voted message. */
  lemma RevertReasonShownAsAlreadyVoted(pre: string, post: string)
    ensures VoteErrorMessage(pre + VotingContract.AlreadyVotedReason + post) == VoteErrorPrefix + AlreadyVotedText
  {
    var raw := pre + VotingContract.AlreadyVotedReason + post;
    assert raw == (pre + "You have ") + "already voted" + post;
    IncludesInfix(pre + "You have ", "already voted", post);
  }

  /** A provider error mentioning "denied", and not "already voted", is shown as a refusal. */
  lemma DenialShownAsRefusal(pre: string, post: string)
    requires !Includes(pre + "denied" + post, "already voted")
    ensures VoteErrorMessage(pre + "denied" + post) == VoteErrorPrefix + DeniedText
  {
    IncludesInfix(pre, "denied", post);
  }

  /** `getVotePercentage(voteCount)` against the panel's total: 0 when nothing was cast,
      otherwise the share in percent, which lies in [0, 100] for a count within the total. */
  function VotePercentage(voteCount: nat, totalVotes: nat): (p: real)
    ensures totalVotes == 0 ==> p == 0.0
    ensures 0.0 <= p
    ensures voteCount <= totalVotes ==> p <= 100.0
    ensures totalVotes > 0 && voteCount == totalVotes ==> p == 100.0
  {
    if totalVotes == 0 then 0.0
    else
      var share := voteCount as real / totalVotes as real;
      ShareBounds(voteCount as real, totalVotes as real);
      share * 100.0
  }

  /** A part of a positive whole is a share between 0 and 1. */
  lemma ShareBounds(part: real, whole: real)
    requires 0.0 <= part && 0.0 < whole
    ensures 0.0 <= part / whole
    ensures part <= whole ==> part / whole <= 1.0
    ensures part == whole ==> part / whole == 1.0
  {
    var q := part / whole;
    assert q * whole == part;
    assert (1.0 - q) * whole == whole - part;
  }

  /** The message of the first of the three reads that failed, if any. */
  function FirstLoadError(c: Result<seq<Candidate>>, s: Result<bool>, t: Result<nat>): (e: Option<string>)
    ensures e.None? <==> c.Ok? && s.Ok? && t.Ok?
    ensures c.Err? ==> e == Some(c.message)
    ensures c.Ok? && s.Err? ==> e == Some(s.message)
    ensures c.Ok? && s.Ok? && t.Err? ==> e == Some(t.message)
  {
    if c.Err? then Some(c.message)
    else if s.Err? then Some(s.message)
    else if t.Err? then Some(t.message)
    else None
  }

  class VotingPanel {
    const service: Web3Service
    var candidates: seq<Candidate>
    var hasVoted: bool
    var totalVotes: nat
    var loading: bool
    var voting: bool
    var message: string
    var messageType: string

    constructor (service: Web3Service)
      ensures this.service == service
      ensures candidates == [] && !hasVoted && totalVotes == 0 && !loading && !voting
      ensures message == "" && messageType == ""
    {
      this.service := service;
      candidates, hasVoted, totalVotes := [], false, 0;
      loading, voting := false, false;
      message, messageType := "", "";
    }

    /** The state `loadVotingData` leaves behind, given the values it started from: each
        read that succeeded before the first failure is stored, the message is cleared on
        success or reports the failure, and `loading` is off. */
    ghost predicate Loaded(chain: Chain, candidates0: seq<Candidate>, hasVoted0: bool, totalVotes0: nat, type0: string)
      reads this, service
    {
      var c := service.GetAllCandidates(chain);
      var s := service.HasVoted(chain, None);
      var t := service.GetTotalVotes(chain);
      var e := FirstLoadError(c, s, t);
      && !loading
      && candidates == (if c.Ok? then c.value else candidates0)
      && hasVoted == (if c.Ok? && s.Ok? then s.value else hasVoted0)
      && totalVotes == (if e.None? then t.value else totalVotes0)
      && (e.None? ==> message == "" && messageType == type0)
      && (e.Some? ==> message == LoadErrorPrefix + e.value && messageType == "error")
    }

    /** `loadVotingData()`: the three reads in order, stopping at the first failure. */
    method LoadVotingData(chain: Chain)
      modifies this
      ensures Loaded(chain, old(candidates), old(hasVoted), old(totalVotes), old(messageType))
      ensures voting == old(voting)
    {
      loading := true;
      var c := service.GetAllCandidates(chain);
      if c.Err? {
        message, messageType := LoadErrorPrefix + c.message, "error";
        loading := false;
        return;
      }
      candidates := c.value;
      var s := service.HasVoted(chain, None);
      if s.Err? {
        message, messageType := LoadErrorPrefix + s.message, "error";
        loading := false;
        return;
      }
      hasVoted := s.value;
      var t := service.GetTotalVotes(chain);
      if t.Err? {
        message, messageType := LoadErrorPrefix + t.message, "error";
        loading := false;
        return;
      }
      totalVotes := t.value;
      message := "";
      loading := false;
    }

    /** The `disabled` attribute of every vote button, negated. */
    predicate VoteButtonEnabled()
      reads this
    {
      !(hasVoted || voting)
    }

    /** The part of `handleVote` before the transaction is awaited: a voter known to have
        voted gets the warning and nothing is submitted; otherwise the panel turns busy,
        which disables every vote button. */
    method BeginVote() returns (submit: bool)
      modifies this`voting, this`message, this`messageType
      ensures submit <==> !hasVoted
      ensures !submit ==> message == AlreadyVotedText && messageType == "warning" && voting == old(voting)
      ensures submit ==> voting && message == "" && messageType == old(messageType)
      ensures submit ==> !VoteButtonEnabled()
    {
      if hasVoted {
        message, messageType := AlreadyVotedText, "warning";
        return false;
      }
      voting := true;
      message := "";
      submit := true;
    }

    /** The success message, naming the transaction. */
    method RecordReceipt(receipt: TxReceipt)
      modifies this`message, this`messageType
      ensures message == SuccessPrefix + receipt.transactionHash && messageType == "success"
      ensures Includes(message, receipt.transactionHash)
    {
      message, messageType := SuccessPrefix + receipt.transactionHash, "success";
      IncludesInfix(SuccessPrefix, receipt.transactionHash, "");
      assert message == SuccessPrefix + receipt.transactionHash + "";
    }

    /** The part of `handleVote` after the transaction settles. A receipt is announced and
        the data reloaded (a reload that succeeds clears the announcement again); a failure
        is classified; either way the panel stops being busy. */
    method FinishVote(outcome: Result<TxReceipt>, chain: Chain)
      modifies this
      ensures !voting
      ensures outcome.Ok? ==> Loaded(chain, old(candidates), old(hasVoted), old(totalVotes), "success")
      ensures outcome.Err? ==> message == VoteErrorMessage(outcome.message) && messageType == "error"
      ensures outcome.Err? ==> candidates == old(candidates) && hasVoted == old(hasVoted)
                               && totalVotes == old(totalVotes) && loading == old(loading)
    {
      if outcome.Ok? {
        RecordReceipt(outcome.value);
        LoadVotingData(chain);
      } else {
        message, messageType := VoteErrorMessage(outcome.message), "error";
      }
      voting := false;
    }

    /** `handleVote(candidateId)`: returns the transaction handed to the wallet, if any. */
    method HandleVote(chain: Chain, candidateId: nat) returns (sent: Option<VoteTransaction>)
      modifies this
      ensures old(hasVoted) ==> sent == None && message == AlreadyVotedText && messageType == "warning"
      ensures old(hasVoted) ==> candidates == old(candidates) && hasVoted && totalVotes == old(totalVotes)
                                && voting == old(voting) && loading == old(loading)
      ensures !old(hasVoted) ==> sent == service.VoteTransactionFor(candidateId) && !voting
      ensures !old(hasVoted) && service.Vote(chain, candidateId).Err? ==>
                message == VoteErrorMessage(service.Vote(chain, candidateId).message) && messageType == "error"
                && candidates == old(candidates) && hasVoted == old(hasVoted)
                && totalVotes == old(totalVotes) && loading == old(loading)
      ensures !old(hasVoted) && service.Vote(chain, candidateId).Ok? ==>
                Loaded(chain, old(candidates), old(hasVoted), old(totalVotes), "success")
    {
      var submit := BeginVote();
      if !submit {
        return None;
      }
      sent := service.VoteTransactionFor(candidateId);
      var outcome := service.Vote(chain, candidateId);
      FinishVote(outcome, chain);
    }

    /** A click on a vote button: a disabled button ignores it. */
    method ClickVoteButton(chain: Chain, candidateId: nat) returns (sent: Option<VoteTransaction>)
      modifies this
      ensures !old(VoteButtonEnabled()) ==> sent == None && unchanged(this)
      ensures old(VoteButtonEnabled()) ==> sent == service.VoteTransactionFor(candidateId) && !voting
      ensures old(VoteButtonEnabled()) && service.Vote(chain, candidateId).Err? ==>
                message == VoteErrorMessage(service.Vote(chain, candidateId).message) && messageType == "error"
                && candidates == old(candidates) && hasVoted == old(hasVoted)
                && totalVotes == old(totalVotes) && loading == old(loading)
      ensures old(VoteButtonEnabled()) && service.Vote(chain, candidateId).Ok? ==>
                Loaded(chain, old(candidates), old(hasVoted), old(totalVotes), "success")
    {
      if !VoteButtonEnabled() {
        return None;
      }
      sent := HandleVote(chain, candidateId);
    }
  }
}
