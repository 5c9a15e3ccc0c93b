/** The values `approveUSDC` and `burnUSDC` compute before they call a contract: the
    one-basis-point fee, the approval total, the spenders, the 32-byte mint
    recipient, and the `allowance`, `approve` and `depositForBurn` calls. */
module TransferArgs {
  import opened Types
  import opened Bytes
  import opened Chains

  /** The fee, in USDC base units, both the approval and the fast burn allow for:
      one basis point of the amount, rounded up. */
  function Fee(amount: nat): (fee: nat)
    ensures fee * 10000 >= amount
    ensures fee == 0 || (fee - 1) * 10000 < amount
    ensures fee <= amount
  {
    (amount + 9999) / 10000
  }

  /** The allowance `approveUSDC` asks for: the amount plus the fee, for both transfer kinds. */
  function ApprovalTotal(amount: nat): (total: nat)
    ensures amount <= total <= 2 * amount
    ensures total * 10000 >= amount * 10001
  {
    amount + Fee(amount)
  }

  lemma FeeExamples()
    ensures Fee(0) == 0 && Fee(1) == 1 && Fee(10000) == 1 && Fee(10001) == 2
    ensures Fee(1_000_000) == 100 && Fee(10_000_000) == 1000
    ensures ApprovalTotal(1_000_000) == 1_000_100
  {
  }

  /** The value JavaScript passes for `table[chain]`: the address, or `undefined`. */
  function Lookup(table: map<int, string>, chain: int): (a: Arg)
    ensures a.Undefined? <==> chain !in table
    ensures chain in table ==> a == Hex(table[chain])
  {
    if chain in table then Hex(table[chain]) else Undefined
  }

  function DomainArg(table: map<int, nat>, chain: int): (a: Arg)
    ensures a.Undefined? <==> chain !in table
    ensures chain in table ==> a == Uint(table[chain])
  {
    if chain in table then Uint(table[chain]) else Undefined
  }

  /** The `allowance(owner, spender)` read on the source chain's USDC contract. The
      spender is the V2 token messenger whatever the transfer kind. */
  function AllowanceCall(owner: string, source: int): (c: ContractCall)
    ensures c.name == Allowance && c.target == Lookup(UsdcAddress, source)
    ensures c.args == [Hex(owner), Lookup(TokenMessengerV2, source)]
  {
    ContractCall(Lookup(UsdcAddress, source), Allowance, [Hex(owner), Lookup(TokenMessengerV2, source)])
  }

  /** The token messenger of the kind's CCTP generation: V1 for standard, V2 for fast. */
  function Messenger(kind: TransferType): map<int, string> {
    if kind.Standard? then TokenMessengerV1 else TokenMessengerV2
  }

  /** `approve(spender, total)` on the source chain's USDC contract. */
  function ApproveCall(kind: TransferType, source: int, amount: nat): (c: ContractCall)
    ensures c.name == Approve && c.target == Lookup(UsdcAddress, source)
    ensures c.args == [Lookup(Messenger(kind), source), Uint(ApprovalTotal(amount))]
  {
    ContractCall(Lookup(UsdcAddress, source), Approve, [Lookup(Messenger(kind), source), Uint(ApprovalTotal(amount))])
  }

  /** `approveUSDC` writes an approval exactly when the allowance read is below the total. */
  predicate NeedsApproval(allowance: nat, amount: nat) {
    allowance < ApprovalTotal(amount)
  }

  /** For a fast transfer the allowance is read for the spender that is then approved. */
  lemma FastAllowanceMatchesSpender(owner: string, source: int, amount: nat)
    ensures AllowanceCall(owner, source).args[1] == ApproveCall(Fast, source, amount).args[0]
  {
  }

  /** For a standard transfer the allowance is read for the V2 messenger while the approval
      goes to the V1 messenger: on every chain that has a V1 messenger the two differ, so an
      allowance granted by an earlier standard approval is never the one that is read. */
  lemma StandardAllowanceReadsFastSpender(owner: string, source: int, amount: nat)
    requires source in TokenMessengerV1
    ensures AllowanceCall(owner, source).args[1] != ApproveCall(Standard, source, amount).args[0]
  {
    assert source in SupportedChainIds;
  }

  /** The `maxFee` argument of the burn: the fee for a fast transfer, zero for a standard one. */
  function BurnMaxFee(kind: TransferType, amount: nat): (fee: nat)
    ensures kind.Standard? ==> fee == 0
    ensures kind.Fast? ==> fee == ApprovalTotal(amount) - amount
  {
    if kind.Fast? then Fee(amount) else 0
  }

  /** The `minFinalityThreshold` the fast burn asks for (1000: fast; 2000: finalized). */
  function FinalityThreshold(kind: TransferType): (t: nat)
    ensures t == if kind.Fast? then 1000 else 2000
  {
    if kind.Fast? then 1000 else 2000
  }

  /** The 32-byte mint recipient: the destination address lower-cased, one leading "0x"
      removed, left-padded with '0' to 64 digits, "0x" put back. */
  function MintRecipient(destinationAddress: string): (r: string)
    ensures |r| >= 2 && r[..2] == "0x"
    ensures |StripHexPrefix(destinationAddress)| <= 64 ==> |r| == 66
  {
    StripLowerLength(destinationAddress);
    "0x" + PadStart(StripHexPrefix(ToLower(destinationAddress)), 64, '0')
  }

  /** Lower-casing can only turn an "0X" prefix into one that is stripped. */
  lemma StripLowerLength(a: string)
    ensures |StripHexPrefix(ToLower(a))| <= |StripHexPrefix(a)|
  {
    if |a| >= 2 {
      assert ToLower(a)[0] == ToLowerChar(a[0]) && ToLower(a)[1] == ToLowerChar(a[1]);
    }
  }

  /** A 20-byte address written as "0x" and lowercase hex becomes the 32-byte word that
      holds the address in its low 20 bytes and zeros above. */
  lemma MintRecipientPadsAddress(address: seq<Byte>)
    requires |address| == 20
    ensures MintRecipient("0x" + LowerHex(address)) == "0x" + LowerHex(Zeros(12) + address)
  {
    var h := "0x" + LowerHex(address);
    assert ToLower(h) == h by {
      forall i | 0 <= i < |h| ensures ToLowerChar(h[i]) == h[i] {
        if i >= 2 {
          LowerHexIsLower(address, i - 2);
        }
      }
      ToLowerFixed(h);
    }
    assert StripHexPrefix(h) == LowerHex(address) by {
      assert h[..2] == "0x";
      assert h[2..] == LowerHex(address);
    }
    LowerHexAppend(Zeros(12), address);
    LowerHexOfZeros(12);
  }

  /** Lowercase hex has no upper-case letters. */
  lemma {:induction false} LowerHexIsLower(s: seq<Byte>, i: nat)
    requires i < |LowerHex(s)|
    ensures ToLowerChar(LowerHex(s)[i]) == LowerHex(s)[i]
  {
    if i >= 2 {
      assert LowerHex(s)[i] == LowerHex(s[1..])[i - 2];
      LowerHexIsLower(s[1..], i - 2);
    }
  }

  /** The letter case of the destination address does not matter to the burn: the mint
      recipient of an address is that of its lower-case form. */
  lemma MintRecipientIgnoresCase(a: string)
    ensures MintRecipient(a) == MintRecipient(ToLower(a))
  {
    ToLowerIdempotent(a);
  }

  /** The domain table of the kind's generation. */
  function Domains(kind: TransferType): map<int, nat> {
    if kind.Fast? then DestinationDomainsV2 else DestinationDomainsV1
  }

  /** `depositForBurn` on the source chain's token messenger of the kind's generation,
      given the 32-byte mint recipient.
      Fast (V2): amount, V2 destination domain, mint recipient, USDC address, the mint
      recipient again as destination caller, maxFee, finality threshold 1000.
      Standard (V1): amount, V1 destination domain, mint recipient, USDC address. */
  function BurnCall(kind: TransferType, source: int, destination: int, amount: nat, mintRecipient: string): (c: ContractCall)
    ensures c.name == DepositForBurn && c.target == Lookup(Messenger(kind), source)
    ensures |c.args| == if kind.Fast? then 7 else 4
    ensures c.args[..4] == [Uint(amount), DomainArg(Domains(kind), destination), Hex(mintRecipient), Lookup(UsdcAddress, source)]
    ensures kind.Fast? ==> c.args[4..] == [Hex(mintRecipient), Uint(Fee(amount)), Uint(FinalityThreshold(kind))]
  {
    var common := [Uint(amount), DomainArg(Domains(kind), destination), Hex(mintRecipient), Lookup(UsdcAddress, source)];
    ContractCall(Lookup(Messenger(kind), source), DepositForBurn,
      if kind.Fast? then common + [Hex(mintRecipient), Uint(BurnMaxFee(kind, amount)), Uint(FinalityThreshold(kind))] else common)
  }

  /** What a fast burn may spend (amount plus maxFee) is exactly the total `approveUSDC`
      approves; a standard burn spends only the amount, less than it approves when the
      amount is positive. */
  lemma ApprovalCoversBurn(amount: nat)
    ensures amount + BurnMaxFee(Fast, amount) == ApprovalTotal(amount)
    ensures amount + BurnMaxFee(Standard, amount) == amount <= ApprovalTotal(amount)
    ensures amount > 0 ==> amount < ApprovalTotal(amount)
  {
  }

  /** On every chain registered for its generation, the burn goes to that chain's
      messenger with that chain's USDC address and a destination domain that is defined. */
  lemma BurnArgumentsDefined(kind: TransferType, source: int, destination: int, amount: nat, mintRecipient: string)
    requires source in (if kind.Fast? then SupportedChainsV2 else SupportedChainsV1)
    requires destination in (if kind.Fast? then SupportedChainsV2 else SupportedChainsV1)
    ensures forall i :: 0 <= i < |BurnCall(kind, source, destination, amount, mintRecipient).args| ==>
      !BurnCall(kind, source, destination, amount, mintRecipient).args[i].Undefined?
    ensures !BurnCall(kind, source, destination, amount, mintRecipient).target.Undefined?
  {
    var c := BurnCall(kind, source, destination, amount, mintRecipient);
    if kind.Fast? {
      SupportedV2Covered();
      assert source in Messenger(kind) && source in UsdcAddress && destination in Domains(kind);
    } else {
      SupportedV1Covered();
      assert source in Messenger(kind) && source in UsdcAddress && destination in Domains(kind);
    }
  }

  /** On a chain offered for fast transfers, the allowance is read from that chain's USDC
      contract for the V2 token messenger registered on it. */
  lemma AllowanceOnRegistry(owner: string, source: int)
    requires source in SupportedChainsV2
    ensures AllowanceCall(owner, source) ==
      ContractCall(Hex(UsdcAddress[source]), Allowance, [Hex(owner), Hex(TokenMessengerV2[source])])
  {
    SupportedV2Covered();
  }

  /** On a chain offered only for standard transfers there is no V2 messenger: the spender
      whose allowance is read is `undefined`. */
  lemma AllowanceSpenderUndefinedOffV2(owner: string, source: int)
    requires source in SupportedChainsV1 && source !in SupportedChainsV2
    ensures AllowanceCall(owner, source).target == Hex(UsdcAddress[source])
    ensures AllowanceCall(owner, source).args == [Hex(owner), Undefined]
  {
    SupportedV1Covered();
  }

  /** On a chain registered for its generation, the approval goes to that chain's USDC
      contract, names the generation's token messenger as spender and asks for the amount
      plus one basis point rounded up. */
  lemma ApproveOnRegistry(kind: TransferType, source: int, amount: nat)
    requires source in (if kind.Fast? then SupportedChainsV2 else SupportedChainsV1)
    ensures ApproveCall(kind, source, amount) ==
      ContractCall(Hex(UsdcAddress[source]), Approve,
        [Hex((if kind.Fast? then TokenMessengerV2 else TokenMessengerV1)[source]), Uint(amount + (amount + 9999) / 10000)])
  {
    SupportedV2Covered();
    SupportedV1Covered();
  }

  /** Between chains offered for fast transfers, the burn calls the V2 messenger with the
      amount, the V2 domain of the destination, the recipient, the source USDC address, the
      recipient again as destination caller, a max fee of one basis point rounded up and a
      finality threshold of 1000. */
  lemma FastBurnOnRegistry(source: int, destination: int, amount: nat, mintRecipient: string)
    requires source in SupportedChainsV2 && destination in SupportedChainsV2
    ensures BurnCall(Fast, source, destination, amount, mintRecipient) ==
      ContractCall(Hex(TokenMessengerV2[source]), DepositForBurn,
        [Uint(amount), Uint(DestinationDomainsV2[destination]), Hex(mintRecipient), Hex(UsdcAddress[source]),
         Hex(mintRecipient), Uint((amount + 9999) / 10000), Uint(1000)])
  {
    SupportedV2Covered();
  }

  /** Between chains offered for standard transfers, the burn calls the V1 messenger with
      the four V1 arguments only: amount, V1 domain of the destination, recipient, source
      USDC address. */
  lemma StandardBurnOnRegistry(source: int, destination: int, amount: nat, mintRecipient: string)
    requires source in SupportedChainsV1 && destination in SupportedChainsV1
    ensures BurnCall(Standard, source, destination, amount, mintRecipient) ==
      ContractCall(Hex(TokenMessengerV1[source]), DepositForBurn,
        [Uint(amount), Uint(DestinationDomainsV1[destination]), Hex(mintRecipient), Hex(UsdcAddress[source])])
  {
    SupportedV1Covered();
  }
}
