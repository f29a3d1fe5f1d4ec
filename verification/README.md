# Decentralized voting system — a Dafny model of its core

The system is a browser front end for a Voting smart contract on an Ethereum chain. The
contract takes a list of candidate names at deployment. Each address may vote once for a
candidate id in 1..candidatesCount. The contract keeps a count per candidate and a running
total, and emits a `VoteCast` event per vote. The front end:

- picks the contract address for the wallet's chain from a constant registry;
- binds a `Web3Service` object to the wallet and to the contract;
- lets the user cast a vote from a voting panel.

This project models those parts and proves what they promise.

| file | module | models |
|---|---|---|
| `common.dfy` | `Common` | `Result` for calls that may throw, `Option`, addresses, the `Candidate` record |
| `text.dfy` | `Text` | the JavaScript string built-ins the core uses: `includes`, `trim`, `toUpperCase`, `replace(/\s+/g, '_')` and the decimal rendering of a number |
| `contracts.dfy` | `Contracts` | the network registry: `CONTRACT_ADDRESSES`, `NETWORK_NAMES` and the three lookups |
| `voting_contract.dfy` | `VotingContract` | the Voting contract as its test suite pins it down, and the test scenarios |
| `web3_service.dfy` | `Web3` | `Web3Service`: its four fields and every method on them |
| `voting_interface.dfy` | `VotingInterface` | the voting panel: loading, the vote flow and its busy flag, error classification, percentages |
| `app.dfy` | `App` | the page session: connecting, account and chain changes, auto-detection, the manual address, the network label and the panel's render guard |

## Design

**The contract** is the class `VotingContract.Voting`. Its fields are:

- the names given at deployment;
- a `seq` of counts;
- the `set` of addresses that voted;
- the total;
- the log of `VoteCast` events.

The invariant `Valid()` ties the counts, the voter set and the total to the event log. Two
lemmas then give the property the tests check: the total equals the sum of the counts,
and it also equals the number of voters.

- `TallySum` proves the total equals the sum of the counts.
- `DistinctVotersCount` proves it equals the number of voters.

The contract's own source is not part of this model. Its behaviour is taken from three
places:

- `test/voting.test.js`, which gives the deployment state, the two revert reasons, the
  counts, the total, the voter status and the `VoteCast` event.
- The ABI in `frontend/src/utils/web3.js:4-148`, which lists `vote`, `getAllCandidates`,
  `getVoterStatus`, `getTotalVotes` and `candidatesCount`.
- The tests alone, for `getCandidate` (`GetCandidate`) and `owner()` (the `owner` field).
  Neither appears in the ABI; only `test/voting.test.js:32,41,83-84,99` calls them.

A rejected vote changes nothing (the `unchanged(this)` clauses of `Vote`). No test asserts
this; it is the revert semantics of a Solidity transaction that fails a `require`, which
the model assumes.

**The wallet and the chain are outside the model.** They appear as values:

- `Web3.Wallet` says which wallet API the page finds (`window.ethereum`, the older
  `window.web3`, or none). It also says whether the user grants access and what the
  `getAccounts` call inside `initWeb3` answers.
- `getCurrentAccount` reads the accounts a second time. Its reply is a separate parameter,
  so it may throw or give a different list than the first read.
- `Web3.Chain` gives, for each contract address, the replies to `getAllCandidates`,
  `getVoterStatus` and `getTotalVotes`, and the outcome of a submitted vote transaction.

Each of these calls resolves or throws, so each reply is a `Result`.

**The page's React state becomes fields.**

- `App.AppSession` holds the top-level component's state and the shared `Web3Service`
  instance.
- `VotingInterface.VotingPanel` holds the panel's state.

Each handler is a method whose `ensures` gives the whole new state of the fields it may
change.

- `App.AppSession.Page()` gathers the page's fields into one `PageState` value. A handler
  that changes only a few of them says so with an update such as
  `Page() == old(Page()).(error := CheckFailed)`.
- Three predicates name the state left after a step. Each takes the earlier values it
  needs as parameters:
  - `Loaded` after `loadVotingData`;
  - `DetectApplied` after `autoDetectContract`;
  - `SubmitApplied` after a manual address is submitted.

  The callers of those steps reuse the same predicates.

`App.AppSession.ShowVotingPanel` is the render guard at `frontend/src/App.jsx:633-635`.
Connected, a non-empty address field and an initialised contract are all required.

### Behaviour worth knowing

- **Account change.** An account change only swaps the account; it does not reset the
  session.
  - With a non-empty list, the first account replaces both the page's account and the
    service's `account`.
  - An empty list disconnects the page and clears its account. The service's `account`
    is left as it was.
  - Either way, the contract binding and the voter status shown stay as they were.
- **Repeated vote clicks.** No "operation in progress" error exists. The vote buttons are
  disabled while `voting` or `hasVoted` holds, so a click on a disabled button does
  nothing.
- **Auto-detection switch.** The switch only flips `autoDetectionEnabled`. It does not
  discard a contract binding.
- **Gas errors.** A gas-limit failure gets no message of its own. It passes through as the
  provider's message.
- **Supported networks.** `supportedNetworks` at `frontend/src/App.jsx:37-40` lists only
  Sepolia and Ganache. The registry that decides support has seven chains.

## Model

| member | source | states |
|---|---|---|
| Text.IncludesIffOccurs | frontend/src/components/VotingInterface.jsx:65-67 | `includes` holds exactly when the part occurs at some position, both directions |
| Text.IncludesInfix | frontend/src/components/VotingInterface.jsx:65-67 | a text that has `part` somewhere inside it includes `part`, whatever surrounds it |
| Text.Includes | frontend/src/components/VotingInterface.jsx:65-67 | `includes`, as a scan over the start positions left to right; `IncludesIffOccurs` ties it to "occurs at some position" |
| Text.Trim | frontend/src/App.jsx:143-146 | `trim` leaves the text between the leading and trailing whitespace; the result neither starts nor ends with whitespace, and is empty exactly when the input is all whitespace |
| Text.UpperCase | frontend/src/App.jsx:90-92 | `toUpperCase` keeps the length and upper-cases each character |
| Text.UpperCharKeepsWhitespace | frontend/src/App.jsx:90-92 | upper-casing neither creates nor removes whitespace |
| Text.UpperCaseAppend | frontend/src/App.jsx:90-92 | upper-casing distributes over concatenation |
| Text.UpperCaseFixes | frontend/src/App.jsx:90-92 | an upper-cased text has no lower-case letter, and upper-casing leaves such a text unchanged |
| Text.ReplaceWhitespaceRuns | frontend/src/App.jsx:90-92 | `replace(/\s+/g, '_')` leaves no whitespace and never lengthens the text |
| Text.ReplaceRunsSplit | frontend/src/App.jsx:90-92 | a whitespace run between non-whitespace neighbours becomes exactly one `_`, and both sides are replaced independently |
| Text.ReplaceRunsNoWhitespace | frontend/src/App.jsx:90-92 | a text without whitespace is left unchanged |
| Text.ReplaceRunsNoLowerCase | frontend/src/App.jsx:90-92 | the replacement introduces no lower-case letter |
| Text.NatToDecimal | frontend/src/config/contracts.js:40 | the decimal rendering is non-empty, all digits, and has a leading zero only for 0 |
| Text.IntToDecimal | frontend/src/config/contracts.js:55 | a number renders non-empty, with a leading `-` exactly when it is negative |
| Text.DecimalRoundTrip | frontend/src/config/contracts.js:55 | reading a rendered natural number back gives the number |
| Text.IntToDecimalInjective | frontend/src/config/contracts.js:55 | distinct numbers render to distinct texts |
| Contracts.TablesCoverKnownChains | frontend/src/config/contracts.js:2-33 | the address table and the name table have the same seven keys and no empty entry |
| Contracts.GetContractAddress | frontend/src/config/contracts.js:36-46 | returns the stored address exactly when the chain is a key; otherwise throws "Contract not deployed on network <id> (<name or Unknown>)" |
| Contracts.IsSupportedNetwork | frontend/src/config/contracts.js:49-51 | a chain is supported exactly when it is one of the seven known chain ids |
| Contracts.GetNetworkName | frontend/src/config/contracts.js:54-56 | never fails; returns the stored name, or "Unknown Network (<id>)" |
| Contracts.SupportedIffResolvable | frontend/src/config/contracts.js:49-51 | a chain is supported exactly when looking up its address does not throw |
| Contracts.SupportedChainHasName | frontend/src/config/contracts.js:25-33 | a supported chain has an entry in the name table, is shown under that name, and never under the "Unknown Network (<id>)" label |
| Contracts.UnknownLabelsDistinct | frontend/src/config/contracts.js:55 | an unknown chain's label differs from every other chain's label |
| Contracts.AddressesNotInjective | frontend/src/config/contracts.js:7-10 | Sepolia and Goerli share one address, so the address table is not injective |
| Contracts.MainnetAddressWellFormed | frontend/src/config/contracts.js:4 | the Mainnet address is "0x" followed by 40 hex digits |
| Contracts.GoerliSepoliaAddressWellFormed | frontend/src/config/contracts.js:7-10 | the address shared by Sepolia and Goerli is "0x" followed by 40 hex digits |
| Contracts.PolygonAddressWellFormed | frontend/src/config/contracts.js:13 | the Polygon address is "0x" followed by 40 hex digits |
| Contracts.MumbaiAddressWellFormed | frontend/src/config/contracts.js:16 | the Mumbai address is "0x" followed by 40 hex digits |
| Contracts.GanacheAddressWellFormed | frontend/src/config/contracts.js:19 | the Ganache address is "0x" followed by 40 hex digits |
| Contracts.HardhatAddressWellFormed | frontend/src/config/contracts.js:22 | the Hardhat address is "0x" followed by 40 hex digits |
| Contracts.AddressesWellFormed | frontend/src/config/contracts.js:2-23 | every stored address is "0x" followed by 40 hex digits |
| VotingContract.TallyAppend | test/voting.test.js:38-46 | logging one vote raises exactly that candidate's tally by one |
| VotingContract.TallySum | test/voting.test.js:75-88 | the tallies of a log with valid ids add up to the number of votes |
| VotingContract.SumIncrement | test/voting.test.js:75-81 | raising one count by one raises the sum by one |
| VotingContract.ZeroSum | test/voting.test.js:24-29 | counts that are all zero sum to zero |
| VotingContract.VotersOfAppend | test/voting.test.js:44-45 | logging a vote adds exactly its voter to the voter set |
| VotingContract.DistinctVotersCount | test/voting.test.js:75-81 | a log without repeated voters has as many voters as votes |
| VotingContract.Voting.CandidatesCount | test/voting.test.js:14-15 | the number of names given at deployment and, under the invariant, the number of vote counters; the constructor fixes it at the length of the name list and `GetAllCandidates` returns that many entries |
| VotingContract.Voting.constructor | test/voting.test.js:13-34 | deployment records the deployer as owner and the names in order; every count starts at 0; there are no voters, total or events |
| VotingContract.Voting.Vote | test/voting.test.js:38-73 | a repeated voter is rejected with "You have already voted", and an id outside 1..count with "Invalid candidate ID"; a rejected call changes nothing. Otherwise the count of that candidate, the voter set, the total and the log each take the vote, and the receipt holds exactly one `VoteCast(voter, id, name)`. The invariant is kept throughout |
| VotingContract.Voting.GetCandidate | test/voting.test.js:98-103 | candidate k reads back as (k, the k-th name, the votes logged for k) |
| VotingContract.Voting.GetAllCandidates | test/voting.test.js:17-21 | all candidates in ascending id order, each with its name and its logged votes |
| VotingContract.Voting.GetVoterStatus | test/voting.test.js:113-121 | true exactly for the addresses with a logged vote |
| VotingContract.Voting.GetTotalVotes | test/voting.test.js:75-81 | the total is the number of votes, the sum of the counts and the number of voters |
| VotingContract.DeploymentScenario | test/voting.test.js:12-35 | three candidates in constructor order, all at 0 votes, owned by the deployer |
| VotingContract.DoubleVoteScenario | test/voting.test.js:38-57 | a first vote counts and marks the voter; the same voter's second vote fails with "You have already voted" |
| VotingContract.InvalidIdScenario | test/voting.test.js:59-73 | ids 0 and 4 both fail with "Invalid candidate ID" |
| VotingContract.CastThreeVotes | test/voting.test.js:75-78 | the three votes leave counts [2, 1, 0] and three voters |
| VotingContract.SecondVote | test/voting.test.js:77 | voter2's vote for candidate 2 takes the counts from [1, 0, 0] to [1, 1, 0] |
| VotingContract.ThirdVote | test/voting.test.js:78 | voter3's vote for candidate 1 takes the counts from [1, 1, 0] to [2, 1, 0] |
| VotingContract.TotalVotesScenario | test/voting.test.js:80-81 | after the three votes the total is 3 |
| VotingContract.CountsScenario | test/voting.test.js:98-111 | after the three votes the counts are 2, 1 and 0, and candidate 1 is (1, "Alice Johnson", 2) |
| VotingContract.VoterStatusScenario | test/voting.test.js:113-121 | after the three votes voter1 and voter2 have voted and a fifth account has not |
| VotingContract.EventScenario | test/voting.test.js:124-133 | a vote yields exactly one `VoteCast("voter1", 1, "Alice Johnson")` |
| Web3.FirstAccount | frontend/src/utils/web3.js:165 | `accounts[0]`, which is absent exactly for an empty list |
| Web3.Connects | frontend/src/utils/web3.js:158-180 | `initWeb3` resolves true only when a wallet API is present and the accounts are reached; false without a wallet or when access is refused; it throws only on the older API's `getAccounts` failure |
| Web3.Web3Service.constructor | frontend/src/utils/web3.js:151-156 | all four fields start unset |
| Web3.Web3Service.InitWeb3 | frontend/src/utils/web3.js:158-180 | `web3` is set whenever a wallet API is present, even when access is then refused. The first account is stored only on success. A successful call leaves the service connected exactly when an account exists (`isConnected`, lines 251-253). A refused one never connects a service that had no account |
| Web3.Web3Service.SetContractAddress | frontend/src/utils/web3.js:182-187 | always records the address; binds a contract to it only when `web3` is set |
| Web3.Web3Service.InitContract | frontend/src/utils/web3.js:189-198 | throws "Web3 not initialized", changing nothing, exactly when `web3` is unset; otherwise binds to the address and records it |
| Web3.Web3Service.GetAllCandidates | frontend/src/utils/web3.js:200-215 | "Contract not initialized" without a binding; otherwise the bound address's reply |
| Web3.Web3Service.VoteTransactionFor | frontend/src/utils/web3.js:217-226 | a transaction exists exactly when a contract and an account are set; it goes to the bound address, from the stored account, for the given id, with gas 100000 |
| Web3.Web3Service.Vote | frontend/src/utils/web3.js:217-226 | throws "Contract or account not initialized" unless both are set; otherwise the outcome of that transaction |
| Web3.Web3Service.HasVoted | frontend/src/utils/web3.js:228-233 | "Contract not initialized" without a binding; with no argument it asks about the stored account |
| Web3.Web3Service.GetTotalVotes | frontend/src/utils/web3.js:235-240 | "Contract not initialized" without a binding; otherwise the bound address's reply |
| Web3.Web3Service.GetCurrentAccount | frontend/src/utils/web3.js:242-249 | null without `web3`, changing nothing. Otherwise it reads the accounts again and stores and returns the first. If that read throws, the error propagates and the account stays as it was |
| Web3.Web3Service.IsConnected | frontend/src/utils/web3.js:251-253 | connected means both a wallet API and an account are set; `InitWeb3` states when a call leaves the service connected |
| VotingInterface.AlreadyVotedTextHasKey | frontend/src/components/VotingInterface.jsx:65-66 | the already-voted text itself contains "already voted" |
| VotingInterface.DeniedTextHasKey | frontend/src/components/VotingInterface.jsx:67-68 | the refusal text itself contains "denied" |
| VotingInterface.DeniedTextLacksAlreadyVoted | frontend/src/components/VotingInterface.jsx:65-68 | the refusal text does not contain "already voted" |
| VotingInterface.NoAlreadyVotedWithoutL | frontend/src/components/VotingInterface.jsx:65 | a text without the letter 'l' never contains "already voted" |
| VotingInterface.VoteErrorMessage | frontend/src/components/VotingInterface.jsx:63-71 | every message starts "Error casting vote: ". The already-voted text is shown exactly when the error contains "already voted", so it wins when both phrases occur. The refusal text is shown exactly when the error contains "denied" and not "already voted". Anything else passes through |
| VotingInterface.RevertReasonShownAsAlreadyVoted | frontend/src/components/VotingInterface.jsx:65-66 | any provider error that carries the contract's "You have already voted" reason is shown as the already-voted message |
| VotingInterface.DenialShownAsRefusal | frontend/src/components/VotingInterface.jsx:67-68 | a provider error with "denied" and without "already voted" is shown as the refusal |
| VotingInterface.ShareBounds | frontend/src/components/VotingInterface.jsx:82 | a part of a positive whole is a share in [0, 1] |
| VotingInterface.VotePercentage | frontend/src/components/VotingInterface.jsx:80-83 | 0 when no vote was cast; otherwise a percentage in [0, 100] for a count within the total, and 100 for the whole |
| VotingInterface.FirstLoadError | frontend/src/components/VotingInterface.jsx:19-36 | the message of the first of the three reads that failed, or none when all succeed |
| VotingInterface.VotingPanel.constructor | frontend/src/components/VotingInterface.jsx:5-11 | the panel's initial state |
| VotingInterface.VotingPanel.LoadVotingData | frontend/src/components/VotingInterface.jsx:17-40 | each read that succeeded before the first failure is stored. On success the message is cleared; a failure sets "Error loading voting data: <message>" with type 'error'. `loading` is false afterwards |
| VotingInterface.VotingPanel.VoteButtonEnabled | frontend/src/components/VotingInterface.jsx:172 | a vote button is enabled exactly when the voter is not known to have voted and no vote is in flight; `BeginVote` disables it and `ClickVoteButton` ignores a disabled one |
| VotingInterface.VotingPanel.BeginVote | frontend/src/components/VotingInterface.jsx:43-50 | a voter known to have voted gets the warning "You have already voted!" and nothing is submitted; otherwise `voting` turns on, which disables every vote button, and the message is cleared |
| VotingInterface.VotingPanel.RecordReceipt | frontend/src/components/VotingInterface.jsx:55-56 | the success message contains the transaction hash, with type 'success' |
| VotingInterface.VotingPanel.FinishVote | frontend/src/components/VotingInterface.jsx:52-77 | a receipt is announced and the data reloaded; a reload that succeeds clears the announcement and keeps type 'success'. A failure shows the classified message with type 'error'. `voting` is false afterwards |
| VotingInterface.VotingPanel.HandleVote | frontend/src/components/VotingInterface.jsx:42-78 | when `hasVoted`, only the warning is set and no transaction is handed to the wallet. Otherwise the service's transaction is submitted and `voting` ends off. A failure shows the classified message with type 'error' and keeps the candidates, `hasVoted`, the total and `loading`. A success leaves the reloaded state `Loaded` describes |
| VotingInterface.VotingPanel.ClickVoteButton | frontend/src/components/VotingInterface.jsx:169-172 | a click on a disabled button (`hasVoted` or `voting`) changes nothing and submits nothing. A click on an enabled one has `HandleVote`'s outcome: the transaction, the classified error with the data kept, or the reloaded state |
| App.NetworkLabel | frontend/src/App.jsx:90-92 | the label of a network name contains no whitespace and is no longer than the name |
| App.NetworkLabelIdempotent | frontend/src/App.jsx:233 | normalising a label again changes nothing |
| App.NetworkLabelOfWord | frontend/src/App.jsx:233 | a name without whitespace is only upper-cased |
| App.NetworkLabelJoin | frontend/src/App.jsx:90-92 | words separated by a whitespace run are labelled separately and joined by one `_` |
| App.ConnectedBanner | frontend/src/App.jsx:89-93 | the auto-detection banner is "✅ CONNECTED_TO_" + the label + "_VOTING_CONTRACT", with no whitespace after its prefix |
| App.ConnectOutcome | frontend/src/App.jsx:64-77 | the connection succeeds exactly when `initWeb3` reports access and the second accounts read succeeds. It is refused exactly when `initWeb3` resolves false. Otherwise the error is the one that was thrown, from the first read or from the second |
| App.AppSession.constructor | frontend/src/App.jsx:26-34 | the page's initial state, with auto-detection on and a fresh service |
| App.AppSession.ShowVotingPanel | frontend/src/App.jsx:633-635 | the voting panel is rendered exactly when the page is connected, the address field is non-empty and the contract is initialised; `HandleContractAddressSubmit` and `HandleAccountsChanged` state when it shows and when it hides |
| App.AppSession.AutoDetectContract | frontend/src/App.jsx:80-100 | success adopts the chain id, network name and address, sets `contractInitialized` and announces the label. Failure clears `contractInitialized` and shows "❌ " + the error. `loading` ends false |
| App.AppSession.Connect | frontend/src/App.jsx:64-73 | until both account reads succeed, the page is unchanged. On success the page adopts the account from the second read and connects, and auto-detects only when that is enabled. The service's `web3` and `account` follow the two reads, and its binding is kept |
| App.AppSession.CheckConnection | frontend/src/App.jsx:62-78 | a thrown error, from either accounts read, sets "Failed to check wallet connection" and changes nothing else on the page. A refused connection changes nothing. Success connects with the current account and auto-detects when enabled |
| App.AppSession.ConnectWallet | frontend/src/App.jsx:116-139 | the error is cleared first. A refused connection shows "FAILED_TO_CONNECT_TO_METAMASK", and a thrown one (from either accounts read) "ERROR_CONNECTING_TO_WALLET: <message>"; neither changes anything else on the page. Success connects and auto-detects when enabled. `loading` ends false |
| App.AppSession.HandleAccountsChanged | frontend/src/App.jsx:102-110 | an empty list disconnects the page and hides the panel, but leaves the service's account. Otherwise the first account replaces both accounts and the connection flag is kept |
| App.AppSession.HandleChainChanged | frontend/src/App.jsx:112-114 | the reload restores the initial state with a fresh service |
| App.AppSession.EditContractAddress | frontend/src/App.jsx:582 | the field holds what was typed |
| App.AppSession.ToggleAutoDetection | frontend/src/App.jsx:511-512 | the switch flips auto-detection |
| App.AppSession.SubmitAddress | frontend/src/App.jsx:144-158 | the contract is accepted exactly when `web3` is set and the first `getAllCandidates` succeeds. Without `web3` the service's binding is kept and "❌ FAILED_TO_CONNECT_TO_CONTRACT: Web3 not initialized" is shown. With it, the service is bound to the address, and a failed read shows that prefix with its message. `loading` ends false |
| App.AppSession.HandleContractAddressSubmit | frontend/src/App.jsx:141-160 | a blank or whitespace-only field changes nothing. Otherwise it submits the trimmed address, with every outcome `SubmitAddress` states, and a connected session whose contract is accepted shows the voting panel |

## Left out

- **The web3 library, the wallet and the chain.** `window.ethereum`, RPC requests and
  transaction signing are not modelled. The wallet is a value, and each remote call is a
  function from the request to its reply (`Web3.Wallet`, `Web3.Chain`).
- **Async interleaving and the React runtime.** Every handler runs to completion, with no
  other handler in between: no batching of state updates, and no re-rendering. Effects
  and listener registration are left out; `checkConnection` on mount and `loadVotingData`
  on the panel's mount are methods the caller invokes.
- **Stale in-flight results.** A reload or an account change while a call is in flight
  cannot happen in the model, so it is not modelled.
- **`autoDetectAndInitContract`** does not exist in `frontend/src/utils/web3.js`. Its
  outcome is a parameter of `App.AppSession.AutoDetectContract`, success or failure.
  - As written, `frontend/src/App.jsx:83` calls a missing method. Every auto-detection
    therefore fails with JavaScript's "is not a function" error, which corresponds to the
    parameter being an `Err`.
  - The model does not guess at any effect that method would have on the service.
- Text.IntToDecimal: renders every digit of any integer. JavaScript writes a number of
  1e21 or more in exponent form ("1e+21"), and it is not exact above 2^53. Neither is
  modelled; the seven registry ids are far below both bounds.
- Text.NatToDecimal: the same gap as `Text.IntToDecimal`, as its building block.
- **Number conversions.** The contract's uint256 counts and ids and their `Number(...)`
  conversions are unbounded `nat`s. Overflow is not modelled.
- **The `CandidateAdded` event** in the ABI is not modelled; no test asserts it.
- Text.UpperCase: upper-cases ASCII letters only. Unicode case mapping, such as 'ß'
  becoming "SS", is not modelled; the network names in the registry are ASCII. The
  length bound `|l| <= |name|` of `App.NetworkLabel` rests on this restriction: with full
  case mapping a label can be longer than the name.
- VotingInterface.VotePercentage: the non-zero branch is exact rational arithmetic. The
  floating-point division and the `toFixed(1)` string rounding are not modelled.
- VotingContract.Voting.GetCandidate: requires a valid id. The tests never read an
  out-of-range candidate, so the contract's behaviour there is unknown.
- VotingContract.Voting.Vote: checks a repeated voter before the id range. The tests never
  combine the two errors, so the order for a repeated voter with an invalid id is a
  modelling choice. That a rejected call leaves the state unchanged is assumed from the
  revert semantics, not taken from a test.
- **The panel's remount on a new address.** The `key={contractAddress}` remount of the
  panel and all markup and styling are left out. The background digits drawn with
  `Math.random` are left out too.
- **Build and deployment.** `scripts/deploy.js`, `scripts/interact.js`,
  `truffle-config.js` and `migrations/2_deploy_voting.js` are not part of this model. They
  handle file I/O, environment and deployment, and contain no core logic.
- **Console logging** is left out.
