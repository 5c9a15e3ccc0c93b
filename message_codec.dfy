/** `parseCrossChainMessage`: the three fields the resume session reads from a
    CCTP message it got back from the attestation service. The message arrives
    as hex text; here it is the byte string that text encodes. */
module MessageCodec {
  import opened Types
  import opened Bytes

  datatype ParsedMessage = ParsedMessage(sourceDomain: nat, destinationDomain: nat, recipientAddress: string)

  function Min(a: nat, b: nat): nat { if a < b then a else b }

  /** The bytes `subarray(76, 108).subarray(12)` yields: `subarray` clamps both of
      its bounds to the buffer, so a short message gives a short or empty slice. */
  function RecipientBytes(m: seq<Byte>): (b: seq<Byte>)
    ensures |m| >= 108 ==> b == m[88..108]
    ensures 88 < |m| < 108 ==> b == m[88..]
    ensures |m| <= 88 ==> b == []
    ensures |b| <= 20
  {
    m[Min(88, |m|)..Min(108, |m|)]
  }

  /** Reads the source domain (bytes 4-7), the destination domain (bytes 8-11) and the
      last 20 bytes of the 32-byte field at offset 76. `readUInt32BE` throws a
      RangeError naming the offset it could not read; nothing else is checked. */
  function ParseCrossChainMessage(m: seq<Byte>): (r: Result<ParsedMessage>)
    ensures r.Err? <==> |m| < 12
    ensures |m| < 8 ==> r == Err(BufferOutOfRange(4))
    ensures 8 <= |m| < 12 ==> r == Err(BufferOutOfRange(8))
    ensures r.Ok? ==> r.value.sourceDomain < Two32 && r.value.destinationDomain < Two32
    ensures r.Ok? ==> |r.value.recipientAddress| == 2 + 2 * |RecipientBytes(m)| <= 42
    ensures r.Ok? ==> r.value.recipientAddress[..2] == "0x"
    ensures r.Ok? ==> UInt32BE(r.value.sourceDomain) == m[4..8] && UInt32BE(r.value.destinationDomain) == m[8..12]
    ensures r.Ok? ==> ParseHex(r.value.recipientAddress[2..]) == Some(RecipientBytes(m))
  {
    if |m| < 8 then Err(BufferOutOfRange(4))
    else if |m| < 12 then Err(BufferOutOfRange(8))
    else
      ReadUInt32Inverse(m, 4);
      ReadUInt32Inverse(m, 8);
      ParseLowerHex(RecipientBytes(m));
      Ok(ParsedMessage(ReadUInt32BE(m, 4), ReadUInt32BE(m, 8), "0x" + LowerHex(RecipientBytes(m))))
  }

  predicate IsWord(v: nat) { v < Two32 }

  /** A CCTP V2 message header followed by its body:
      version, sourceDomain, destinationDomain (uint32 each), nonce, sender, recipient,
      destinationCaller (32 bytes each), minFinalityThreshold, finalityThresholdExecuted
      (uint32 each), then the message body. */
  datatype HeaderV2 = HeaderV2(
    version: nat, sourceDomain: nat, destinationDomain: nat,
    nonce: seq<Byte>, sender: seq<Byte>, recipient: seq<Byte>, destinationCaller: seq<Byte>,
    minFinalityThreshold: nat, finalityThresholdExecuted: nat,
    body: seq<Byte>)
  {
    predicate WellFormed() {
      && IsWord(version) && IsWord(sourceDomain) && IsWord(destinationDomain)
      && |nonce| == 32 && |sender| == 32 && |recipient| == 32 && |destinationCaller| == 32
      && IsWord(minFinalityThreshold) && IsWord(finalityThresholdExecuted)
    }
  }

  function EncodeV2(h: HeaderV2): (m: seq<Byte>)
    requires h.WellFormed()
    ensures |m| == 148 + |h.body|
    ensures m[76..108] == h.recipient
  {
    UInt32BE(h.version) + UInt32BE(h.sourceDomain) + UInt32BE(h.destinationDomain)
      + h.nonce + h.sender + h.recipient + h.destinationCaller
      + UInt32BE(h.minFinalityThreshold) + UInt32BE(h.finalityThresholdExecuted) + h.body
  }

  /** A CCTP V1 message header: version, sourceDomain, destinationDomain (uint32 each),
      nonce (uint64), sender, recipient, destinationCaller (32 bytes each), then the body. */
  datatype HeaderV1 = HeaderV1(
    version: nat, sourceDomain: nat, destinationDomain: nat,
    nonce: seq<Byte>, sender: seq<Byte>, recipient: seq<Byte>, destinationCaller: seq<Byte>,
    body: seq<Byte>)
  {
    predicate WellFormed() {
      && IsWord(version) && IsWord(sourceDomain) && IsWord(destinationDomain)
      && |nonce| == 8 && |sender| == 32 && |recipient| == 32 && |destinationCaller| == 32
    }
  }

  function EncodeV1(h: HeaderV1): (m: seq<Byte>)
    requires h.WellFormed()
    ensures |m| == 116 + |h.body|
    ensures m[84..116] == h.destinationCaller
  {
    UInt32BE(h.version) + UInt32BE(h.sourceDomain) + UInt32BE(h.destinationDomain)
      + h.nonce + h.sender + h.recipient + h.destinationCaller + h.body
  }

  /** The two domain words sit at the same offsets in both header versions. */
  lemma DomainWordsAt(prefix: seq<Byte>, src: nat, dst: nat, rest: seq<Byte>)
    requires |prefix| == 4 && IsWord(src) && IsWord(dst)
    ensures ReadUInt32BE(prefix + UInt32BE(src) + UInt32BE(dst) + rest, 4) == src
    ensures ReadUInt32BE(prefix + UInt32BE(src) + UInt32BE(dst) + rest, 8) == dst
  {
    var m := prefix + UInt32BE(src) + UInt32BE(dst) + rest;
    assert m[4..8] == UInt32BE(src);
    assert m[8..12] == UInt32BE(dst);
    UInt32RoundTrip(src);
    UInt32RoundTrip(dst);
    assert ReadUInt32BE(m, 4) == ReadUInt32BE(m[4..8], 0);
    assert ReadUInt32BE(m, 8) == ReadUInt32BE(m[8..12], 0);
  }

  /** On a V2 message the parser recovers both domains, and the address it reports is
      the low 20 bytes of the header's 32-byte recipient field. */
  lemma {:induction false} ParseV2(h: HeaderV2)
    requires h.WellFormed()
    ensures ParseCrossChainMessage(EncodeV2(h))
      == Ok(ParsedMessage(h.sourceDomain, h.destinationDomain, "0x" + LowerHex(h.recipient[12..])))
  {
    var m := EncodeV2(h);
    var rest := h.nonce + h.sender + h.recipient + h.destinationCaller
      + UInt32BE(h.minFinalityThreshold) + UInt32BE(h.finalityThresholdExecuted) + h.body;
    assert m == UInt32BE(h.version) + UInt32BE(h.sourceDomain) + UInt32BE(h.destinationDomain) + rest;
    DomainWordsAt(UInt32BE(h.version), h.sourceDomain, h.destinationDomain, rest);
    assert RecipientBytes(m) == m[88..108] == h.recipient[12..];
  }

  /** A recipient field holding a left-zero-padded 20-byte address is reported as that address. */
  lemma PaddedAddressRecovered(h: HeaderV2, address: seq<Byte>)
    requires h.WellFormed() && |address| == 20 && h.recipient == Zeros(12) + address
    ensures ParseCrossChainMessage(EncodeV2(h)).Ok?
    ensures ParseCrossChainMessage(EncodeV2(h)).value.recipientAddress == "0x" + LowerHex(address)
    ensures ParseHex(ParseCrossChainMessage(EncodeV2(h)).value.recipientAddress[2..]) == Some(address)
  {
    ParseV2(h);
    assert h.recipient[12..] == address;
    ParseLowerHex(address);
  }

  /** The first 12 bytes of the recipient field are never looked at: two messages that
      differ only there parse to the same result. */
  lemma RecipientPaddingIgnored(h: HeaderV2, g: HeaderV2)
    requires h.WellFormed() && g == h.(recipient := g.recipient) && g.WellFormed()
    requires g.recipient[12..] == h.recipient[12..]
    ensures ParseCrossChainMessage(EncodeV2(g)) == ParseCrossChainMessage(EncodeV2(h))
  {
    ParseV2(h);
    ParseV2(g);
  }

  /** The parser uses the V2 offsets for every message. On a V1 message, whose recipient
      field is at bytes 52-83, the 20 bytes at 88-107 are bytes 4-23 of the
      destinationCaller field instead; the domains are still read correctly. */
  lemma {:induction false} ParseV1(h: HeaderV1)
    requires h.WellFormed()
    ensures ParseCrossChainMessage(EncodeV1(h))
      == Ok(ParsedMessage(h.sourceDomain, h.destinationDomain, "0x" + LowerHex(h.destinationCaller[4..24])))
  {
    var m := EncodeV1(h);
    var rest := h.nonce + h.sender + h.recipient + h.destinationCaller + h.body;
    assert m == UInt32BE(h.version) + UInt32BE(h.sourceDomain) + UInt32BE(h.destinationDomain) + rest;
    DomainWordsAt(UInt32BE(h.version), h.sourceDomain, h.destinationDomain, rest);
    assert RecipientBytes(m) == m[88..108] == h.destinationCaller[4..24];
  }
}
