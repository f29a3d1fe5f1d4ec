/**
 * `Web3Service`: the front end's single binding to the wallet and to the deployed Voting
 * contract. Its four fields are set step by step (`initWeb3`, `setContractAddress`,
 * `initContract`, `getCurrentAccount`) and every contract call is guarded by them. The
 * wallet and the chain are outside the model: the wallet is a value saying which API is
 * present and what it answers, and each remote call is a function from the request to its
 * reply.
 */
module Web3 {
  import opened Common

  /** Which wallet API the page found: `window.ethereum` or the older `window.web3`. */
  datatype ProviderKind = Injected | Legacy

  /** The browser wallet as the service meets it: the API present (if any), whether the user
      grants account access, and the reply of `eth.getAccounts()`. */
  datatype Wallet = Wallet(provider: Option<ProviderKind>, grantsAccess: bool, accounts: Result<seq<Address>>)

  /** A `new web3.eth.Contract(VOTING_ABI, address)` handle. */
  datatype ContractBinding = ContractBinding(address: string)

  /** A `vote(candidateId)` transaction as handed to the wallet. */
  datatype VoteTransaction = VoteTransaction(to: string, candidateId: nat, from: Address, gas: nat)

  /** The receipt of a mined transaction. */
  datatype TxReceipt = TxReceipt(transactionHash: string)

  /** The remote side: what the contract at a given address answers to each call. */
  datatype Chain = Chain(
    candidatesAt: string -> Result<seq<Candidate>>,
    voterStatusAt: (string, Option<Address>) -> Result<bool>,
    totalVotesAt: string -> Result<nat>,
    send: VoteTransaction -> Result<TxReceipt>)

  /** The fixed gas bound of every vote transaction. */
  const GasLimit: nat := 100000

  const NotInitialized: string := "Contract not initialized"

  /** `accounts[0]`, which is `undefined` for an empty list. */
  function FirstAccount(accounts: seq<Address>): (a: Option<Address>)
    ensures a.Some? <==> |accounts| > 0
    ensures a.Some? ==> a.value == accounts[0]
  {
    if |accounts| > 0 then Some(accounts[0]) else None
  }

  /** What `initWeb3` resolves to for a given wallet: `Ok(true)` when it reached the accounts,
      `Ok(false)` when there is no wallet or the user refused, `Err` when the older API's
      `getAccounts` throws (that path has no handler). */
  function Connects(wallet: Wallet): (r: Result<bool>)
    ensures wallet.provider.None? ==> r == Ok(false)
    ensures r == Ok(true) <==> wallet.provider.Some? && wallet.accounts.Ok?
                               && (wallet.provider.value == Injected ==> wallet.grantsAccess)
    ensures r.Err? <==> wallet.provider == Some(Legacy) && wallet.accounts.Err?
    ensures r.Err? ==> r.message == wallet.accounts.message
  {
    match wallet.provider
    case None => Ok(false)
    case Some(Injected) =>
      if wallet.grantsAccess && wallet.accounts.Ok? then Ok(true) else Ok(false)
    case Some(Legacy) =>
      if wallet.accounts.Ok? then Ok(true) else Err(wallet.accounts.message)
  }

  class Web3Service {
    var web3: Option<ProviderKind>
    var contract: Option<ContractBinding>
    var account: Option<Address>
    var contractAddress: Option<string>

    constructor ()
      ensures web3 == None && contract == None && account == None && contractAddress == None
    {
      web3, contract, account, contractAddress := None, None, None, None;
    }

    /** `initWeb3()`: adopts the wallet's API (before asking for access, so a refusal still
        leaves `web3` set) and, when the accounts are reached, stores the first one. */
    method InitWeb3(wallet: Wallet) returns (r: Result<bool>)
      modifies this`web3, this`account
      ensures r == Connects(wallet)
      ensures web3 == if wallet.provider.Some? then wallet.provider else old(web3)
      ensures account == if r == Ok(true) then FirstAccount(wallet.accounts.value) else old(account)
      ensures r == Ok(true) ==> (IsConnected() <==> |wallet.accounts.value| > 0)
      ensures r != Ok(true) && old(account).None? ==> !IsConnected()
    {
      match wallet.provider
      case None =>
        r := Ok(false);
      case Some(Injected) =>
        web3 := Some(Injected);
        if wallet.grantsAccess && wallet.accounts.Ok? {
          account := FirstAccount(wallet.accounts.value);
          r := Ok(true);
        } else {
          r := Ok(false);
        }
      case Some(Legacy) =>
        web3 := Some(Legacy);
        if wallet.accounts.Err? {
          r := Err(wallet.accounts.message);
          return;
        }
        account := FirstAccount(wallet.accounts.value);
        r := Ok(true);
    }

    /** `setContractAddress(address)`: always records the address; binds a contract only
        once the wallet API is known. */
    method SetContractAddress(address: string)
      modifies this`contractAddress, this`contract
      ensures contractAddress == Some(address)
      ensures contract == if web3.Some? then Some(ContractBinding(address)) else old(contract)
    {
      contractAddress := Some(address);
      if web3.Some? {
        contract := Some(ContractBinding(address));
      }
    }

    /** `initContract(address)`: throws "Web3 not initialized", changing nothing, when there
        is no wallet API; otherwise binds a contract to `address` and records it. */
    method InitContract(address: string) returns (r: Result<()>)
      modifies this`contract, this`contractAddress
      ensures r.Ok? <==> web3.Some?
      ensures r.Err? ==> r.message == "Web3 not initialized" && unchanged(this)
      ensures r.Ok? ==> contract == Some(ContractBinding(address)) && contractAddress == Some(address)
    {
      if web3.None? {
        return Err("Web3 not initialized");
      }
      contract := Some(ContractBinding(address));
      contractAddress := Some(address);
      r := Ok(());
    }

    /** `getAllCandidates()`: the reply of the bound contract, or "Contract not initialized". */
    function GetAllCandidates(chain: Chain): (r: Result<seq<Candidate>>)
      reads this
      ensures contract.None? ==> r == Err(NotInitialized)
      ensures contract.Some? ==> r == chain.candidatesAt(contract.value.address)
    {
      if contract.None? then Err(NotInitialized) else chain.candidatesAt(contract.value.address)
    }

    /** The transaction `vote(candidateId)` submits: none unless both a contract and an
        account are set; otherwise a call to the bound address, from the stored account,
        with the fixed gas bound. */
    function VoteTransactionFor(candidateId: nat): (tx: Option<VoteTransaction>)
      reads this
      ensures tx.Some? <==> contract.Some? && account.Some?
      ensures tx.Some? ==> tx.value.to == contract.value.address && tx.value.from == account.value
                           && tx.value.candidateId == candidateId && tx.value.gas == 100000
    {
      if contract.None? || account.None? then None
      else Some(VoteTransaction(contract.value.address, candidateId, account.value, GasLimit))
    }

    /** `vote(candidateId)`: throws "Contract or account not initialized" without sending
        anything unless both are set; otherwise the reply to the submitted transaction. */
    function Vote(chain: Chain, candidateId: nat): (r: Result<TxReceipt>)
      reads this
      ensures contract.None? || account.None? ==> r == Err("Contract or account not initialized")
      ensures contract.Some? && account.Some? ==>
                r == chain.send(VoteTransaction(contract.value.address, candidateId, account.value, GasLimit))
    {
      match VoteTransactionFor(candidateId)
      case None => Err("Contract or account not initialized")
      case Some(tx) => chain.send(tx)
    }

    /** `hasVoted(address = this.account)`: asks the bound contract about `address`, or about
        the stored account when no address is passed. */
    function HasVoted(chain: Chain, address: Option<Address>): (r: Result<bool>)
      reads this
      ensures contract.None? ==> r == Err(NotInitialized)
      ensures contract.Some? && address.Some? ==> r == chain.voterStatusAt(contract.value.address, address)
      ensures contract.Some? && address.None? ==> r == chain.voterStatusAt(contract.value.address, account)
    {
      if contract.None? then Err(NotInitialized)
      else chain.voterStatusAt(contract.value.address, if address.Some? then address else account)
    }

    /** `getTotalVotes()`: the reply of the bound contract, or "Contract not initialized". */
    function GetTotalVotes(chain: Chain): (r: Result<nat>)
      reads this
      ensures contract.None? ==> r == Err(NotInitialized)
      ensures contract.Some? ==> r == chain.totalVotesAt(contract.value.address)
    {
      if contract.None? then Err(NotInitialized) else chain.totalVotesAt(contract.value.address)
    }

    /** `getCurrentAccount()`: null without a wallet API; otherwise reads the accounts again
        (`reply` is what this second `eth.getAccounts()` answers, which need not agree with
        the read `initWeb3` made), stores the first and returns it. */
    method GetCurrentAccount(reply: Result<seq<Address>>) returns (r: Result<Option<Address>>)
      modifies this`account
      ensures web3.None? ==> r == Ok(None) && account == old(account)
      ensures web3.Some? && reply.Err? ==> r == Err(reply.message) && account == old(account)
      ensures web3.Some? && reply.Ok? ==> account == FirstAccount(reply.value) && r == Ok(account)
    {
      if web3.None? {
        return Ok(None);
      }
      if reply.Err? {
        return Err(reply.message);
      }
      account := FirstAccount(reply.value);
      r := Ok(account);
    }

    /** `isConnected()`: a wallet API and an account are both set. */
    predicate IsConnected()
      reads this
    {
      web3.Some? && account.Some?
    }
  }
}
