/**
 * The network registry of the front end: two constant tables keyed by chain id, one
 * giving the deployed Voting contract's address, one giving the network's display name,
 * and the three lookups built on them.
 */
module Contracts {
  import opened Common
  import opened Text

  /** `CONTRACT_ADDRESSES`: where the Voting contract is deployed on each chain. */
  const ContractAddresses: map<int, string> := map[
    1 := "0x1234567890123456789012345678901234567890",
    11155111 := "0x2345678901234567890123456789012345678901",
    5 := "0x2345678901234567890123456789012345678901",
    137 := "0x3456789012345678901234567890123456789012",
    80001 := "0x4567890123456789012345678901234567890123",
    1337 := "0xafD7BD6ba24b94bF45d0C09C6D87890F5ad3feBB",
    31337 := "0x5678901234567890123456789012345678901234"
  ]

  /** `NETWORK_NAMES`: the display name of each chain. */
  const NetworkNames: map<int, string> := map[
    1 := "Ethereum Mainnet",
    11155111 := "Sepolia Testnet",
    5 := "Goerli Testnet",
    137 := "Polygon",
    80001 := "Mumbai Testnet",
    1337 := "Ganache Local",
    31337 := "Hardhat Local"
  ]

  /** The chain ids the tables know. */
  const KnownChains: set<int> := {1, 11155111, 5, 137, 80001, 1337, 31337}

  /** JavaScript's `table[key] || fallback`: a missing key and an empty string both fall back. */
  function LookupOr(table: map<int, string>, key: int, fallback: string): string {
    if key in table && table[key] != "" then table[key] else fallback
  }

  /** The text of the error `getContractAddress` throws for a chain without a deployment. */
  function NotDeployedMessage(chainId: int): string {
    "Contract not deployed on network " + IntToDecimal(chainId) + " ("
      + LookupOr(NetworkNames, chainId, "Unknown") + ")"
  }

  /** Both tables have exactly the known chains as keys and hold no empty entry. */
  lemma TablesCoverKnownChains()
    ensures ContractAddresses.Keys == KnownChains && NetworkNames.Keys == KnownChains
    ensures forall c :: c in ContractAddresses ==> ContractAddresses[c] != ""
    ensures forall c :: c in NetworkNames ==> NetworkNames[c] != ""
  {
  }

  /** `getContractAddress(chainId)`: the stored address, or the "not deployed" error. */
  function GetContractAddress(chainId: int): (r: Result<string>)
    ensures r.Ok? <==> chainId in ContractAddresses
    ensures r.Ok? ==> r.value == ContractAddresses[chainId]
    ensures r.Err? ==> r.message == "Contract not deployed on network " + IntToDecimal(chainId) + " ("
                                    + (if chainId in NetworkNames then NetworkNames[chainId] else "Unknown") + ")"
  {
    TablesCoverKnownChains();
    if chainId !in ContractAddresses || ContractAddresses[chainId] == "" then
      Err(NotDeployedMessage(chainId))
    else
      Ok(ContractAddresses[chainId])
  }

  /** `isSupportedNetwork(chainId)`: the chain id is a key of `CONTRACT_ADDRESSES`. */
  predicate IsSupportedNetwork(chainId: int): (b: bool)
    ensures b <==> chainId in KnownChains
  {
    TablesCoverKnownChains();
    chainId in ContractAddresses
  }

  /** `getNetworkName(chainId)`: never fails; the stored name or "Unknown Network (<id>)". */
  function GetNetworkName(chainId: int): (r: string)
    ensures r != []
    ensures chainId in NetworkNames ==> r == NetworkNames[chainId]
    ensures chainId !in NetworkNames ==> r == "Unknown Network (" + IntToDecimal(chainId) + ")"
  {
    TablesCoverKnownChains();
    LookupOr(NetworkNames, chainId, "Unknown Network (" + IntToDecimal(chainId) + ")")
  }

  /** A chain is supported exactly when looking up its address does not throw, and then the
      address returned is the stored one. */
  lemma SupportedIffResolvable(chainId: int)
    ensures IsSupportedNetwork(chainId) <==> GetContractAddress(chainId).Ok?
    ensures IsSupportedNetwork(chainId) ==> GetContractAddress(chainId).value == ContractAddresses[chainId]
  {
  }

  /** A supported chain is always shown under its own name, never under the "Unknown Network"
      label. */
  lemma SupportedChainHasName(chainId: int)
    requires IsSupportedNetwork(chainId)
    ensures chainId in NetworkNames
    ensures GetNetworkName(chainId) == NetworkNames[chainId]
    ensures GetNetworkName(chainId) != "Unknown Network (" + IntToDecimal(chainId) + ")"
  {
    TablesCoverKnownChains();
    assert GetNetworkName(chainId)[0] != 'U';
  }

  /** The fallback labels tell unknown chains apart: distinct unknown ids get distinct labels,
      and no unknown id is labelled like a known one. */
  lemma UnknownLabelsDistinct(a: int, b: int)
    requires a != b && a !in NetworkNames
    ensures GetNetworkName(a) != GetNetworkName(b)
  {
    var pre := "Unknown Network (";
    var la, lb := GetNetworkName(a), GetNetworkName(b);
    if b in NetworkNames {
      assert la[0] == 'U';
      TablesCoverKnownChains();
      assert lb[0] != 'U';
    } else if la == lb {
      var da, db := IntToDecimal(a), IntToDecimal(b);
      assert la == pre + da + ")";
      assert lb == pre + db + ")";
      assert |da| == |db|;
      assert da == la[|pre|..|pre| + |da|];
      assert db == lb[|pre|..|pre| + |db|];
      IntToDecimalInjective(a, b);
    }
  }

  /** The address table is not injective: Sepolia and Goerli share one address. */
  lemma AddressesNotInjective()
    ensures 5 != 11155111 && ContractAddresses[5] == ContractAddresses[11155111]
  {
  }

  predicate IsHexDigit(c: char) {
    ('0' <= c <= '9') || ('a' <= c <= 'f') || ('A' <= c <= 'F')
  }

  /** "0x" followed by 40 hexadecimal digits: a 20-byte account or contract address. */
  predicate IsHexAddress(s: string) {
    |s| == 42 && s[0] == '0' && s[1] == 'x' && forall i :: 2 <= i < 42 ==> IsHexDigit(s[i])
  }

  // One lemma per stored literal keeps each proof small.

  lemma MainnetAddressWellFormed()
    ensures IsHexAddress(ContractAddresses[1])
  {
    var s := ContractAddresses[1];
    assert s == "0x1234567890123456789012345678901234567890";
  }

  /** Goerli (5) and Sepolia (11155111) share this address. */
  lemma GoerliSepoliaAddressWellFormed()
    ensures IsHexAddress(ContractAddresses[5])
  {
    var s := ContractAddresses[5];
    assert s == "0x2345678901234567890123456789012345678901";
  }

  lemma PolygonAddressWellFormed()
    ensures IsHexAddress(ContractAddresses[137])
  {
    var s := ContractAddresses[137];
    assert s == "0x3456789012345678901234567890123456789012";
  }

  lemma MumbaiAddressWellFormed()
    ensures IsHexAddress(ContractAddresses[80001])
  {
    var s := ContractAddresses[80001];
    assert s == "0x4567890123456789012345678901234567890123";
  }

  lemma GanacheAddressWellFormed()
    ensures IsHexAddress(ContractAddresses[1337])
  {
    var s := ContractAddresses[1337];
    assert s == "0xafD7BD6ba24b94bF45d0C09C6D87890F5ad3feBB";
  }

  lemma HardhatAddressWellFormed()
    ensures IsHexAddress(ContractAddresses[31337])
  {
    var s := ContractAddresses[31337];
    assert s == "0x5678901234567890123456789012345678901234";
  }

  /** Every stored address is a well-formed 20-byte hexadecimal address. */
  lemma AddressesWellFormed()
    ensures forall c :: c in ContractAddresses ==> IsHexAddress(ContractAddresses[c])
  {
    MainnetAddressWellFormed();
    GoerliSepoliaAddressWellFormed();
    PolygonAddressWellFormed();
    MumbaiAddressWellFormed();
    GanacheAddressWellFormed();
    HardhatAddressWellFormed();
    assert ContractAddresses[11155111] == ContractAddresses[5];
    TablesCoverKnownChains();
  }
}
