/** `getChainIdFromDomain`: the reverse lookup from a CCTP domain to the chain id
    that the resume session mints on. It scans the V2 domain table only, whatever
    the transfer kind. */
module DomainLookup {
  import opened Types
  import opened Chains

  /** The first of `keys`, in order, that `table` maps to `domain` (`Array.prototype.find`). */
  function FindChain(keys: seq<int>, table: map<int, nat>, domain: nat): (r: Option<int>)
    ensures r.Some? ==> r.value in keys && r.value in table && table[r.value] == domain
    ensures r.None? ==> forall k :: k in keys && k in table ==> table[k] != domain
  {
    if keys == [] then None
    else if keys[0] in table && table[keys[0]] == domain then Some(keys[0])
    else FindChain(keys[1..], table, domain)
  }

  /** The chain whose V2 domain is `domain`, or the error "No chain found for domain {domain}". */
  function GetChainIdFromDomain(domain: nat): (r: Result<int>)
    ensures r.Ok? ==> r.value in DestinationDomainsV2 && DestinationDomainsV2[r.value] == domain
    ensures r.Err? ==> r.fault == NoChainForDomain(domain) && domain !in DestinationDomainsV2.Values
  {
    DomainEntryOrderV2Exact();
    match FindChain(DomainEntryOrderV2, DestinationDomainsV2, domain)
    case Some(c) => Ok(c)
    case None => Err(NoChainForDomain(domain))
  }

  /** Reverse lookup inverts the V2 domain table on every V2 chain, because that table is injective. */
  lemma ReverseLookupInvertsV2(chain: int)
    requires chain in DestinationDomainsV2
    ensures GetChainIdFromDomain(DestinationDomainsV2[chain]) == Ok(chain)
  {
    DomainsV2Injective();
  }

  /** A domain no chain maps to in V2 is reported as unknown, never resolved to some chain. */
  lemma UnknownDomainRejected(domain: nat)
    ensures GetChainIdFromDomain(domain).Ok? <==> domain in {0, 1, 3, 6, 11}
    ensures domain !in {0, 1, 3, 6, 11} ==> GetChainIdFromDomain(domain) == Err(NoChainForDomain(domain))
  {
    DomainsV2Injective();
    if domain in {0, 1, 3, 6, 11} {
      var c :| c in DestinationDomainsV2 && DestinationDomainsV2[c] == domain;
      ReverseLookupInvertsV2(c);
    }
  }

  /** A standard transfer to a V1-only chain (Optimism, Polygon, Unichain) cannot be resumed:
      its destination domain has no entry in the V2 table the lookup scans. */
  lemma V1OnlyChainsNotResolved(chain: int)
    requires chain in DestinationDomainsV1 && chain !in DestinationDomainsV2
    ensures GetChainIdFromDomain(DestinationDomainsV1[chain]) == Err(NoChainForDomain(DestinationDomainsV1[chain]))
  {
    GenerationOnlyDomains();
    UnknownDomainRejected(DestinationDomainsV1[chain]);
  }

  /** On a chain that both generations serve, the lookup of its V1 domain gives it back. */
  lemma SharedChainsResolvedFromV1(chain: int)
    requires chain in DestinationDomainsV1 && chain in DestinationDomainsV2
    ensures GetChainIdFromDomain(DestinationDomainsV1[chain]) == Ok(chain)
  {
    SharedDomainsAgree();
    ReverseLookupInvertsV2(chain);
  }
}
