/**
 * The page session: the top-level component's state and the handlers that change it when
 * the wallet is connected, the account or chain changes, the network is auto-detected or a
 * contract address is submitted by hand. The shared `Web3Service` instance is a field, so
 * the handlers' effects on it are visible; a page reload replaces it with a fresh one.
 */
module App {
  import opened Common
  import opened Text
  import opened Web3

  /** What the auto-detection step yields on success. */
  datatype NetworkInfo = NetworkInfo(chainId: int, networkName: string, contractAddress: string)

  const ConnectedPrefix: string := "\U{2705} CONNECTED_TO_"
  const ConnectedSuffix: string := "_VOTING_CONTRACT"
  const FailureMark: string := "\U{274C} "
  const ManualSuccess: string := "\U{2705} CONTRACT_CONNECTED_SUCCESSFULLY!"
  const ManualFailurePrefix: string := "\U{274C} FAILED_TO_CONNECT_TO_CONTRACT: "
  const CheckFailed: string := "Failed to check wallet connection"
  const NoWalletAccess: string := "FAILED_TO_CONNECT_TO_METAMASK"
  const WalletErrorPrefix: string := "ERROR_CONNECTING_TO_WALLET: "

  /** The label a network name is shown under: upper-cased, each whitespace run turned into
      one underscore. The label is one word, never longer than the name. */
  function NetworkLabel(name: string): (l: string)
    ensures NoWhitespace(l)
    ensures |l| <= |name|
  {
    ReplaceWhitespaceRuns(UpperCase(name))
  }

  /** Normalising twice changes nothing. */
  lemma NetworkLabelIdempotent(name: string)
    ensures NetworkLabel(NetworkLabel(name)) == NetworkLabel(name)
  {
    var u := UpperCase(name);
    UpperCaseFixes(name);
    ReplaceRunsNoLowerCase(u);
    var l := ReplaceWhitespaceRuns(u);
    UpperCaseFixes(l);
    ReplaceRunsNoWhitespace(l);
  }

  /** A name without whitespace is only upper-cased. */
  lemma NetworkLabelOfWord(name: string)
    requires NoWhitespace(name)
    ensures NetworkLabel(name) == UpperCase(name)
  {
    forall i | 0 <= i < |name|
      ensures !IsWhitespace(UpperCase(name)[i])
    {
      UpperCharKeepsWhitespace(name[i]);
    }
    ReplaceRunsNoWhitespace(UpperCase(name));
  }

  /** Words separated by a whitespace run are labelled separately and joined by one '_'. */
  lemma NetworkLabelJoin(a: string, w: string, b: string)
    requires w != [] && AllWhitespace(w)
    requires a == [] || !IsWhitespace(a[|a| - 1])
    requires b == [] || !IsWhitespace(b[0])
    ensures NetworkLabel(a + w + b) == NetworkLabel(a) + "_" + NetworkLabel(b)
  {
    var ua, uw, ub := UpperCase(a), UpperCase(w), UpperCase(b);
    UpperCaseAppend(a, w);
    UpperCaseAppend(a + w, b);
    forall i | 0 <= i < |w|
      ensures IsWhitespace(uw[i])
    {
      UpperCharKeepsWhitespace(w[i]);
    }
    if a != [] {
      UpperCharKeepsWhitespace(a[|a| - 1]);
    }
    if b != [] {
      UpperCharKeepsWhitespace(b[0]);
    }
    ReplaceRunsSplit(ua, uw, ub);
  }

  /** The banner shown after a successful auto-detection. */
  function ConnectedBanner(networkName: string): (b: string)
    ensures b == ConnectedPrefix + NetworkLabel(networkName) + ConnectedSuffix
    ensures NoWhitespace(b[|ConnectedPrefix|..])
  {
    var l := NetworkLabel(networkName);
    assert (ConnectedPrefix + l + ConnectedSuffix)[|ConnectedPrefix|..] == l + ConnectedSuffix;
    ConnectedPrefix + l + ConnectedSuffix
  }

  /** How the connection steps end: `initWeb3`'s result, unless it reported access and the
      `getCurrentAccount` read that follows (answering `current`) threw, in which case that
      error propagates. */
  function ConnectOutcome(wallet: Wallet, current: Result<seq<Address>>): (r: Result<bool>)
    ensures r == Ok(true) <==> Connects(wallet) == Ok(true) && current.Ok?
    ensures r == Ok(false) <==> Connects(wallet) == Ok(false)
    ensures r.Err? && Connects(wallet).Err? ==> r.message == wallet.accounts.message
    ensures r.Err? && Connects(wallet).Ok? ==> r.message == current.message
  {
    if Connects(wallet) == Ok(true) && current.Err? then Err(current.message) else Connects(wallet)
  }

  /** The page's own state, all in one value, so that a handler can say which parts it
      changes and that all the rest stays. */
  datatype PageState = PageState(
    isConnected: bool, account: Option<Address>, contractAddress: string,
    contractInitialized: bool, currentNetwork: Option<int>, networkName: string,
    autoDetectionEnabled: bool, loading: bool, error: string)

  class AppSession {
    var service: Web3Service
    var isConnected: bool
    var account: Option<Address>
    var contractAddress: string
    var contractInitialized: bool
    var currentNetwork: Option<int>
    var networkName: string
    var autoDetectionEnabled: bool
    var loading: bool
    var error: string

    /** The state of a freshly loaded page: nothing connected, auto-detection on, and a
        service with no field set. */
    ghost predicate Initial()
      reads this, service
    {
      && !isConnected && account == None && contractAddress == "" && !contractInitialized
      && currentNetwork == None && networkName == "" && autoDetectionEnabled
      && !loading && error == ""
      && service.web3 == None && service.contract == None
      && service.account == None && service.contractAddress == None
    }

    constructor ()
      ensures Initial() && fresh(service)
    {
      service := new Web3Service();
      isConnected, account := false, None;
      contractAddress, contractInitialized := "", false;
      currentNetwork, networkName := None, "";
      autoDetectionEnabled, loading, error := true, false, "";
    }

    /** The render guard of the voting panel. */
    predicate ShowVotingPanel()
      reads this
    {
      isConnected && contractAddress != "" && contractInitialized
    }

    /** The current values of the page's state. */
    function Page(): PageState
      reads this
    {
      PageState(isConnected, account, contractAddress, contractInitialized, currentNetwork,
                networkName, autoDetectionEnabled, loading, error)
    }

    /** The service after the connection steps, given its fields before them: `web3` follows
        the wallet API found; the account is the first of the last successful accounts read;
        the contract binding is untouched. */
    ghost predicate ServiceConnected(wallet: Wallet, current: Result<seq<Address>>,
                                     web30: Option<ProviderKind>, account0: Option<Address>,
                                     contract0: Option<ContractBinding>, address0: Option<string>)
      reads this, service
    {
      && service.web3 == (if wallet.provider.Some? then wallet.provider else web30)
      && service.account == (if Connects(wallet) != Ok(true) then account0
                             else if current.Ok? then FirstAccount(current.value)
                             else FirstAccount(wallet.accounts.value))
      && service.contract == contract0 && service.contractAddress == address0
    }

    /** The state `autoDetectContract` leaves behind, given the network fields it started
        from: on success the detected network and address are adopted and announced, on
        failure the contract is marked uninitialised and the error shown. */
    ghost predicate DetectApplied(detect: Result<NetworkInfo>, network0: Option<int>, name0: string, address0: string)
      reads this
    {
      && !loading
      && (contractInitialized <==> detect.Ok?)
      && (detect.Ok? ==>
            && currentNetwork == Some(detect.value.chainId)
            && networkName == detect.value.networkName
            && contractAddress == detect.value.contractAddress
            && error == ConnectedBanner(detect.value.networkName))
      && (detect.Err? ==>
            && currentNetwork == network0 && networkName == name0 && contractAddress == address0
            && error == FailureMark + detect.message)
    }

    /** `autoDetectContract()`. */
    method AutoDetectContract(detect: Result<NetworkInfo>)
      modifies this
      ensures DetectApplied(detect, old(currentNetwork), old(networkName), old(contractAddress))
      ensures service == old(service) && isConnected == old(isConnected) && account == old(account)
      ensures autoDetectionEnabled == old(autoDetectionEnabled)
    {
      loading := true;
      if detect.Err? {
        contractInitialized := false;
        error := FailureMark + detect.message;
      } else {
        currentNetwork := Some(detect.value.chainId);
        networkName := detect.value.networkName;
        contractAddress := detect.value.contractAddress;
        contractInitialized := true;
        error := ConnectedBanner(detect.value.networkName);
      }
      loading := false;
    }

    /** The connection steps `checkConnection` and `connectWallet` share: initialise the
        service and, once it reports access, read the current account again (its reply is
        `current`), adopt it and auto-detect the contract when that is enabled. Until both
        reads succeed the page is left as it was. */
    method Connect(wallet: Wallet, current: Result<seq<Address>>, detect: Result<NetworkInfo>)
      returns (r: Result<bool>)
      modifies this, service
      ensures r == ConnectOutcome(wallet, current)
      ensures service == old(service) && autoDetectionEnabled == old(autoDetectionEnabled)
      ensures ServiceConnected(wallet, current, old(service.web3), old(service.account),
                               old(service.contract), old(service.contractAddress))
      ensures r != Ok(true) ==> Page() == old(Page())
      ensures r == Ok(true) ==> isConnected && account == FirstAccount(current.value)
                                && service.account == account && service.IsConnected() == account.Some?
      ensures r == Ok(true) && autoDetectionEnabled ==>
                DetectApplied(detect, old(currentNetwork), old(networkName), old(contractAddress))
      ensures r == Ok(true) && !autoDetectionEnabled ==>
                Page() == old(Page()).(isConnected := true, account := FirstAccount(current.value))
    {
      r := service.InitWeb3(wallet);
      if r != Ok(true) {
        return;
      }
      var got := service.GetCurrentAccount(current);
      if got.Err? {
        return Err(got.message);
      }
      account := got.value;
      isConnected := true;
      if autoDetectionEnabled {
        AutoDetectContract(detect);
      }
    }

    /** `checkConnection()`, run when the page mounts: any failure is reported as one fixed
        message and changes nothing else on the page; a wallet without access changes
        nothing at all. */
    method CheckConnection(wallet: Wallet, current: Result<seq<Address>>, detect: Result<NetworkInfo>)
      modifies this, service
      ensures service == old(service)
      ensures ServiceConnected(wallet, current, old(service.web3), old(service.account),
                               old(service.contract), old(service.contractAddress))
      ensures ConnectOutcome(wallet, current).Err? ==> Page() == old(Page()).(error := CheckFailed)
      ensures ConnectOutcome(wallet, current) == Ok(false) ==> Page() == old(Page())
      ensures ConnectOutcome(wallet, current) == Ok(true) ==>
                isConnected && account == FirstAccount(current.value)
                && autoDetectionEnabled == old(autoDetectionEnabled)
      ensures ConnectOutcome(wallet, current) == Ok(true) && autoDetectionEnabled ==>
                DetectApplied(detect, old(currentNetwork), old(networkName), old(contractAddress))
      ensures ConnectOutcome(wallet, current) == Ok(true) && !autoDetectionEnabled ==>
                Page() == old(Page()).(isConnected := true, account := FirstAccount(current.value))
    {
      var r := Connect(wallet, current, detect);
      if r.Err? {
        error := CheckFailed;
      }
    }

    /** `connectWallet()`, the button handler: clears the error first, reports a refusal or a
        failure (changing nothing else on the page), and always ends with `loading` off. */
    method ConnectWallet(wallet: Wallet, current: Result<seq<Address>>, detect: Result<NetworkInfo>)
      modifies this, service
      ensures service == old(service) && !loading
      ensures ServiceConnected(wallet, current, old(service.web3), old(service.account),
                               old(service.contract), old(service.contractAddress))
      ensures ConnectOutcome(wallet, current).Err? ==>
                Page() == old(Page()).(error := WalletErrorPrefix + ConnectOutcome(wallet, current).message,
                                       loading := false)
      ensures ConnectOutcome(wallet, current) == Ok(false) ==> Page() == old(Page()).(error := NoWalletAccess, loading := false)
      ensures ConnectOutcome(wallet, current) == Ok(true) ==>
                isConnected && account == FirstAccount(current.value)
                && autoDetectionEnabled == old(autoDetectionEnabled)
      ensures ConnectOutcome(wallet, current) == Ok(true) && autoDetectionEnabled ==>
                DetectApplied(detect, old(currentNetwork), old(networkName), old(contractAddress))
      ensures ConnectOutcome(wallet, current) == Ok(true) && !autoDetectionEnabled ==>
                Page() == old(Page()).(isConnected := true, account := FirstAccount(current.value),
                                       error := "", loading := false)
    {
      loading := true;
      error := "";
      var r := Connect(wallet, current, detect);
      if r.Err? {
        error := WalletErrorPrefix + r.message;
      } else if r == Ok(false) {
        error := NoWalletAccess;
      }
      loading := false;
    }

    /** `handleAccountsChanged(accounts)`: an empty list disconnects the page but leaves the
        service's account as it was; otherwise the first account replaces the account on
        both sides and the connection flag is kept. */
    method HandleAccountsChanged(accounts: seq<Address>)
      modifies this`isConnected, this`account, service`account
      ensures |accounts| == 0 ==> !isConnected && account == None && service.account == old(service.account)
      ensures |accounts| == 0 ==> !ShowVotingPanel()
      ensures |accounts| > 0 ==> account == Some(accounts[0]) && service.account == Some(accounts[0])
                                 && isConnected == old(isConnected)
    {
      if |accounts| == 0 {
        isConnected, account := false, None;
      } else {
        account := Some(accounts[0]);
        service.account := Some(accounts[0]);
      }
    }

    /** `handleChainChanged()`: the page reloads, so the whole session and the service start
        over. */
    method HandleChainChanged()
      modifies this
      ensures Initial() && fresh(service)
    {
      service := new Web3Service();
      isConnected, account := false, None;
      contractAddress, contractInitialized := "", false;
      currentNetwork, networkName := None, "";
      autoDetectionEnabled, loading, error := true, false, "";
    }

    /** Typing in the address field. */
    method EditContractAddress(value: string)
      modifies this`contractAddress
      ensures contractAddress == value
    {
      contractAddress := value;
    }

    /** The auto-detection switch. */
    method ToggleAutoDetection()
      modifies this`autoDetectionEnabled
      ensures autoDetectionEnabled == !old(autoDetectionEnabled)
    {
      autoDetectionEnabled := !autoDetectionEnabled;
    }

    /** The state submitting the non-blank address `t` leaves behind, given the service's
        binding before it: the service is bound to `t` when it has a wallet API and is left
        as it was otherwise; the contract is accepted exactly when that binding and a first
        `getAllCandidates` read both succeed; each failure is reported with its reason. */
    ghost predicate SubmitApplied(t: string, chain: Chain, contract0: Option<ContractBinding>, address0: Option<string>)
      reads this, service
    {
      && !loading
      && (contractInitialized <==> service.web3.Some? && chain.candidatesAt(t).Ok?)
      && (service.web3.Some? ==> service.contract == Some(ContractBinding(t)) && service.contractAddress == Some(t))
      && (service.web3.None? ==> error == ManualFailurePrefix + "Web3 not initialized"
                                 && service.contract == contract0 && service.contractAddress == address0)
      && (service.web3.Some? && chain.candidatesAt(t).Err? ==>
            error == ManualFailurePrefix + chain.candidatesAt(t).message)
      && (contractInitialized ==> error == ManualSuccess)
    }

    /** The body of `handleContractAddressSubmit()` once the trimmed address `t` is known to
        be non-blank: bind the service to `t`, then probe it with a first read. */
    method SubmitAddress(t: string, chain: Chain)
      modifies this`loading, this`contractInitialized, this`error, service`contract, service`contractAddress
      ensures SubmitApplied(t, chain, old(service.contract), old(service.contractAddress))
    {
      loading := true;
      var bound := service.InitContract(t);
      if bound.Err? {
        contractInitialized := false;
        error := ManualFailurePrefix + bound.message;
      } else {
        var probe := service.GetAllCandidates(chain);
        if probe.Err? {
          contractInitialized := false;
          error := ManualFailurePrefix + probe.message;
        } else {
          contractInitialized := true;
          error := ManualSuccess;
        }
      }
      loading := false;
    }

    /** `handleContractAddressSubmit()`: a blank field does nothing. Otherwise the trimmed
        address is submitted, and a connected session whose contract is accepted shows the
        panel. */
    method HandleContractAddressSubmit(chain: Chain)
      modifies this`loading, this`contractInitialized, this`error, service`contract, service`contractAddress
      ensures Trim(contractAddress) == [] ==> unchanged(this) && unchanged(service)
      ensures Trim(contractAddress) != [] ==>
                SubmitApplied(Trim(contractAddress), chain, old(service.contract), old(service.contractAddress))
      ensures isConnected && contractInitialized && Trim(contractAddress) != [] ==> ShowVotingPanel()
    {
      var t := Trim(contractAddress);
      if t != [] {
        SubmitAddress(t, chain);
      }
    }
  }
}
