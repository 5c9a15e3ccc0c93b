/** The static chain registry: the supported EVM chain ids, and per chain and per
    CCTP generation the CCTP domain, the contract addresses and the display name.
    A `Record<number, …>` of the registry is a `map<int, …>` keyed by chain id. */
module Chains {

  // SupportedChainId: the EVM chain ids of the mainnets the registry knows.
  const EthMainnet: int := 1
  const AvaxMainnet: int := 43114
  const ArbitrumOne: int := 42161
  const BaseMainnet: int := 8453
  const LineaMainnet: int := 59144
  const OptimismMainnet: int := 10
  const PolygonMainnet: int := 137
  const UnichainMainnet: int := 130

  /** The members of SupportedChainId, in declaration order. */
  const SupportedChainIds: seq<int> :=
    [EthMainnet, AvaxMainnet, ArbitrumOne, BaseMainnet, LineaMainnet, OptimismMainnet, PolygonMainnet, UnichainMainnet]

  const DefaultMaxFee: nat := 1000
  const DefaultFinalityThreshold: nat := 2000

  const ChainNameV1: map<int, string> := map[
    EthMainnet := "Ethereum Mainnet",
    AvaxMainnet := "Avalanche Mainnet",
    ArbitrumOne := "Arbitrum One",
    BaseMainnet := "Base Mainnet",
    OptimismMainnet := "Optimism Mainnet",
    PolygonMainnet := "Polygon Mainnet",
    UnichainMainnet := "UniChain Mainnet"]

  const ChainNameV2: map<int, string> := map[
    EthMainnet := "Ethereum Mainnet",
    AvaxMainnet := "Avalanche Mainnet",
    ArbitrumOne := "Arbitrum One",
    BaseMainnet := "Base Mainnet",
    LineaMainnet := "Linea Mainnet"]

  const UsdcAddress: map<int, string> := map[
    EthMainnet := "0xA0b86991c6218b36c1d19D4a2e9Eb0cE3606eB48",
    AvaxMainnet := "0xB97EF9Ef8734C71904D8002F8b6Bc66Dd9c48a6E",
    ArbitrumOne := "0xaf88d065e77c8cC2239327C5EDb3A432268e5831",
    BaseMainnet := "0x833589fCD6eDb6E08f4c7C32D4f71b54bdA02913",
    LineaMainnet := "0x176211869cA2b568f2A7D4EE941E073a821EE1ff",
    OptimismMainnet := "0x0b2C639c533813f4Aa9D7837CAf62653d097Ff85",
    PolygonMainnet := "0x3c499c542cEF5E3811e1192ce70d8cC03d5c3359",
    UnichainMainnet := "0x078D782b760474a361dDA0AF3839290b0EF57AD6"]

  const TokenMessengerV2: map<int, string> := map[
    EthMainnet := "0x28b5a0e9C621a5BadaA536219b3a228C8168cf5d",
    AvaxMainnet := "0x28b5a0e9C621a5BadaA536219b3a228C8168cf5d",
    ArbitrumOne := "0x28b5a0e9C621a5BadaA536219b3a228C8168cf5d",
    BaseMainnet := "0x28b5a0e9C621a5BadaA536219b3a228C8168cf5d",
    LineaMainnet := "0x28b5a0e9C621a5BadaA536219b3a228C8168cf5d"]

  const TokenMessengerV1: map<int, string> := map[
    EthMainnet := "0xBd3fa81B58Ba92a82136038B25aDec7066af3155",
    AvaxMainnet := "0x6B25532e1060CE10cc3B0A99e5683b91BFDe6982",
    ArbitrumOne := "0x19330d10D9Cc8751218eaf51E8885D058642E08A",
    BaseMainnet := "0x1682Ae6375C4E4A97e4B583BC394c861A46D8962",
    OptimismMainnet := "0x2B4069517957735bE00ceE0fadAE88a26365528f",
    PolygonMainnet := "0x9daF8c91AEFAE50b9c0E69629D3F6Ca40cA3B3FE",
    UnichainMainnet := "0x4e744b28E787c3aD0e810eD65A24461D4ac5a762"]

  const MessageTransmitterV2: map<int, string> := map[
    EthMainnet := "0x81D40F21F12A8F0E3252Bccb954D722d4c464B64",
    AvaxMainnet := "0x81D40F21F12A8F0E3252Bccb954D722d4c464B64",
    ArbitrumOne := "0x81D40F21F12A8F0E3252Bccb954D722d4c464B64",
    BaseMainnet := "0x81D40F21F12A8F0E3252Bccb954D722d4c464B64",
    LineaMainnet := "0x81D40F21F12A8F0E3252Bccb954D722d4c464B64"]

  const MessageTransmitterV1: map<int, string> := map[
    EthMainnet := "0x0a992d191DEeC32aFe36203Ad87D7d289a738F81",
    AvaxMainnet := "0x8186359aF5F57FbB40c6b14A588d2A59C0C29880",
    ArbitrumOne := "0xC30362313FBBA5cf9163F0bb16a0e01f01A896ca",
    BaseMainnet := "0xAD09780d193884d503182aD4588450C416D6F9D4",
    OptimismMainnet := "0x4D41f22c5a0e5c74090899E5a8Fb597a8842b3e8",
    PolygonMainnet := "0xF3be9355363857F3e001be68856A2f96b4C39Ba9",
    UnichainMainnet := "0x353bE9E2E38AB1D19104534e4edC21c643Df86f4"]

  /** CCTP V2 domain of each chain. */
  const DestinationDomainsV2: map<int, nat> := map[
    EthMainnet := 0,
    AvaxMainnet := 1,
    ArbitrumOne := 3,
    BaseMainnet := 6,
    LineaMainnet := 11]

  /** CCTP V1 domain of each chain. */
  const DestinationDomainsV1: map<int, nat> := map[
    EthMainnet := 0,
    AvaxMainnet := 1,
    OptimismMainnet := 2,
    ArbitrumOne := 3,
    BaseMainnet := 6,
    PolygonMainnet := 7,
    UnichainMainnet := 10]

  const SupportedChainsV1: seq<int> :=
    [EthMainnet, AvaxMainnet, ArbitrumOne, BaseMainnet, OptimismMainnet, PolygonMainnet, UnichainMainnet]

  const SupportedChainsV2: seq<int> :=
    [EthMainnet, AvaxMainnet, ArbitrumOne, BaseMainnet, LineaMainnet]

  /** The order in which `Object.entries` lists DestinationDomainsV2: JavaScript enumerates
      integer-like keys in ascending numeric order, whatever the order of the literal. */
  const DomainEntryOrderV2: seq<int> :=
    [EthMainnet, BaseMainnet, ArbitrumOne, AvaxMainnet, LineaMainnet]

  predicate NoDuplicates(s: seq<int>) {
    forall i, j :: 0 <= i < j < |s| ==> s[i] != s[j]
  }

  ghost predicate Injective(m: map<int, nat>) {
    forall a, b :: a in m && b in m && m[a] == m[b] ==> a == b
  }

  lemma ChainIdsDistinct()
    ensures NoDuplicates(SupportedChainIds)
    ensures NoDuplicates(SupportedChainsV1) && NoDuplicates(SupportedChainsV2)
  {
  }

  /** No two chains share a V2 domain, so a V2 domain names at most one chain. */
  lemma DomainsV2Injective()
    ensures Injective(DestinationDomainsV2)
    ensures DestinationDomainsV2.Values == {0, 1, 3, 6, 11}
  {
    assert DestinationDomainsV2[EthMainnet] == 0 && DestinationDomainsV2[AvaxMainnet] == 1;
    assert DestinationDomainsV2[ArbitrumOne] == 3 && DestinationDomainsV2[BaseMainnet] == 6;
    assert DestinationDomainsV2[LineaMainnet] == 11;
  }

  /** No two chains share a V1 domain. */
  lemma DomainsV1Injective()
    ensures Injective(DestinationDomainsV1)
    ensures DestinationDomainsV1.Values == {0, 1, 2, 3, 6, 7, 10}
  {
    assert DestinationDomainsV1[EthMainnet] == 0 && DestinationDomainsV1[AvaxMainnet] == 1;
    assert DestinationDomainsV1[OptimismMainnet] == 2 && DestinationDomainsV1[ArbitrumOne] == 3;
    assert DestinationDomainsV1[BaseMainnet] == 6 && DestinationDomainsV1[PolygonMainnet] == 7;
    assert DestinationDomainsV1[UnichainMainnet] == 10;
  }

  /** A chain present in both generations has the same domain in both. */
  lemma SharedDomainsAgree()
    ensures forall c :: c in DestinationDomainsV1 && c in DestinationDomainsV2 ==>
      DestinationDomainsV1[c] == DestinationDomainsV2[c]
    ensures DestinationDomainsV1.Keys * DestinationDomainsV2.Keys == {EthMainnet, AvaxMainnet, ArbitrumOne, BaseMainnet}
  {
  }

  /** Every chain offered for fast transfers has a V2 domain, V2 contracts, a USDC address and a name. */
  lemma SupportedV2Covered()
    ensures forall c :: c in SupportedChainsV2 ==>
      && c in DestinationDomainsV2 && c in TokenMessengerV2 && c in MessageTransmitterV2
      && c in UsdcAddress && c in ChainNameV2
  {
  }

  /** Every chain offered for standard transfers has a V1 domain, V1 contracts, a USDC address and a name. */
  lemma SupportedV1Covered()
    ensures forall c :: c in SupportedChainsV1 ==>
      && c in DestinationDomainsV1 && c in TokenMessengerV1 && c in MessageTransmitterV1
      && c in UsdcAddress && c in ChainNameV1
  {
  }

  /** Optimism, Polygon and Unichain (domains 2, 7, 10) exist only in V1; Linea (11) only in V2. */
  lemma GenerationOnlyDomains()
    ensures forall c :: c in DestinationDomainsV2 ==> DestinationDomainsV2[c] !in {2, 7, 10}
    ensures forall c :: c in DestinationDomainsV1 ==> DestinationDomainsV1[c] != 11
    ensures OptimismMainnet !in DestinationDomainsV2 && PolygonMainnet !in DestinationDomainsV2
    ensures UnichainMainnet !in DestinationDomainsV2 && LineaMainnet !in DestinationDomainsV1
  {
  }

  /** The enumeration order of DestinationDomainsV2 is ascending and lists exactly its keys. */
  lemma DomainEntryOrderV2Exact()
    ensures NoDuplicates(DomainEntryOrderV2)
    ensures forall i, j :: 0 <= i < j < |DomainEntryOrderV2| ==> DomainEntryOrderV2[i] < DomainEntryOrderV2[j]
    ensures forall c :: c in DomainEntryOrderV2 <==> c in DestinationDomainsV2
  {
  }
}
