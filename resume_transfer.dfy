/** `resumeTransfer`: the attestation of an earlier burn, the destination chain read
    from its message, and the mint there, on the resume session. */
module ResumeTransfer {
  import opened Types
  import opened Steps
  import opened Traces
  import opened TransferArgs
  import opened MessageCodec
  import opened DomainLookup
  import opened Attestation
  import opened Minting
  import opened Workflow

  /** The catch block of `resumeTransfer`: "error", the fault as the session error, an
      "Error:" entry. */
  function ResumeAbort(t: Trace, f: Fault): (r: SessionRun)
    ensures r.ending == Aborted(f) && r.trace.steps == t.steps + [Error]
    ensures r.trace.error == Some(Raised(f)) && r.trace.effects == t.effects
  {
    SessionRun(Aborted(f), Then(t, Trace([Error], [ErrorEntry(f)], [], Some(Raised(f)))))
  }

  /** The chain `resumeTransfer` mints on for an attestation record: the record's message
      is read (a TypeError when it has none), parsed, and its destination domain looked up. */
  function MintTarget(record: MessageRecord): (r: Result<(ParsedMessage, int)>)
    ensures r.Ok? ==> record.message.Present? && ParseCrossChainMessage(record.message.value) == Ok(r.value.0)
    ensures r.Ok? ==> GetChainIdFromDomain(r.value.0.destinationDomain) == Ok(r.value.1)
  {
    if !record.message.Present? then Err(TypeError(ResumeMessageMissing))
    else
      match ParseCrossChainMessage(record.message.value)
      case Err(f) => Err(f)
      case Ok(parsed) =>
        match GetChainIdFromDomain(parsed.destinationDomain)
        case Err(f) => Err(f)
        case Ok(destination) => Ok((parsed, destination))
  }

  /** The entries `resumeTransfer` logs once the message is parsed: the source and
      destination domains and the recipient, then (when the chain is found) the connection. */
  function ParsedEntries(record: MessageRecord): seq<LogEntry> {
    if record.message.Present? && ParseCrossChainMessage(record.message.value).Ok? then
      var parsed := ParseCrossChainMessage(record.message.value).value;
      [SourceDomainEntry(parsed.sourceDomain), DestinationDomainEntry(parsed.destinationDomain),
       RecipientAddressEntry(parsed.recipientAddress)]
    else []
  }

  /** The try block of `resumeTransfer` once its stages are known: the attestation poll,
      then the mint as a function of the chain found and the record, run only when reached.
      The session is marked completed once the mint helper returns, whether it minted or
      gave up. */
  function ResumeFlow(txHash: string, chain: int, attestation: PollRun, mint: (int, MessageRecord) -> MintRun): (r: SessionRun)
    ensures r.ending.AwaitingAttestation? <==> attestation.outcome.StillPolling?
    ensures attestation.outcome.Failed? ==> r.ending == Aborted(attestation.outcome.fault)
    ensures attestation.outcome.Retrieved? && MintTarget(attestation.outcome.record).Err? ==>
      r.ending == Aborted(MintTarget(attestation.outcome.record).fault)
    ensures r.ending.Finished? || r.ending.RetriesRanOut? ==> ReachesMint(attestation)
    ensures ReachesMint(attestation) ==>
      var minted := mint(MintTarget(attestation.outcome.record).value.1, attestation.outcome.record);
      (r.ending.Aborted? <==> minted.outcome.Threw?) && (r.ending.Finished? <==> minted.outcome.Minted?)
  {
    var t1 := Then(Trace([WaitingAttestation], [ResumingTransfer(txHash, chain)], [], None), attestation.trace);
    match attestation.outcome
    case StillPolling => SessionRun(AwaitingAttestation, t1)
    case Failed(f) => ResumeAbort(t1, f)
    case Retrieved(record) =>
      ResumeFromRecord(Then(t1, Trace([], [AttestationRetrievedSuccessfully] + ParsedEntries(record), [], None)), record, mint)
  }

  /** The rest of `resumeTransfer` once the record is retrieved and `t` has happened: find
      the chain, mint there, mark the session completed once the mint helper returns. */
  function ResumeFromRecord(t: Trace, record: MessageRecord, mint: (int, MessageRecord) -> MintRun): (r: SessionRun)
    ensures MintTarget(record).Err? ==> r.ending == Aborted(MintTarget(record).fault)
    ensures r.ending.Finished? ==>
      MintTarget(record).Ok? && mint(MintTarget(record).value.1, record).outcome == Minted(r.ending.txHash)
    ensures MintTarget(record).Ok? ==>
      (r.ending.Aborted? <==> mint(MintTarget(record).value.1, record).outcome.Threw?)
  {
    match MintTarget(record)
    case Err(f) => ResumeAbort(t, f)
    case Ok((_, destination)) =>
      ResumeMinted(Then(t, Log(ConnectedToDestination(destination))), mint(destination, record))
  }

  /** The end of `resumeTransfer` once `t` has happened and the mint helper ran as `minted`:
      "completed" when it returned, "error" when it threw. */
  function ResumeMinted(t: Trace, minted: MintRun): (r: SessionRun)
    ensures r.ending.Aborted? <==> minted.outcome.Threw?
    ensures minted.outcome.Threw? ==> r.ending == Aborted(minted.outcome.fault) && r.trace.error == Some(Raised(minted.outcome.fault))
    ensures minted.outcome.Minted? ==> r.ending == Finished(minted.outcome.txHash)
    ensures minted.outcome.RetriesExhausted? ==> r.ending == RetriesRanOut
    ensures !r.ending.Aborted? ==> r.trace.steps == t.steps + minted.trace.steps + [Completed]
  {
    var t2 := Then(t, minted.trace);
    match minted.outcome
    case Threw(f) => ResumeAbort(t2, f)
    case Minted(tx) => SessionRun(Finished(tx), Then(t2, StepTo(Completed)))
    case RetriesExhausted => SessionRun(RetriesRanOut, Then(t2, StepTo(Completed)))
  }

  /** Everything the collaborators of `resumeTransfer` answer. */
  datatype ResumeScript = ResumeScript(
    replies: seq<Reply>,
    keccak: seq<Byte> -> string,
    switchDestination: Outcome,
    mintWrites: nat -> Result<string>)

  /** `resumeTransfer`: poll the attestation of a burn on `chain`, read the destination
      domain from the returned message, find its chain, mint there, and mark the session
      completed once the mint helper returns. */
  function ResumeRun(txHash: string, chain: int, kind: TransferType, sc: ResumeScript): (r: SessionRun)
    ensures r.ending.AwaitingAttestation? <==>
      Poll(kind, MessagesEndpoint(kind, chain, txHash), sc.keccak, sc.replies).outcome.StillPolling?
    ensures r.ending.Finished? || r.ending.RetriesRanOut? ==>
      && Poll(kind, MessagesEndpoint(kind, chain, txHash), sc.keccak, sc.replies).outcome.Retrieved?
      && MintTarget(Poll(kind, MessagesEndpoint(kind, chain, txHash), sc.keccak, sc.replies).outcome.record).Ok?
      && sc.switchDestination.Pass?
    ensures r.ending.Finished? ==> exists k :: 0 <= k < MaxRetries && sc.mintWrites(k) == Ok(r.ending.txHash)
  {
    ResumeFlow(txHash, chain, RetrieveRun(kind, chain, txHash, sc.replies, sc.keccak), ResumeMintStage(kind, sc))
  }

  /** `mintUSDC` on the chain found for the record. */
  function ResumeMintStage(kind: TransferType, sc: ResumeScript): (int, MessageRecord) -> MintRun {
    (destination, record) => MintUSDC(kind, destination, record, sc.switchDestination, sc.mintWrites)
  }

  /** The mint a resume reaches for an attestation outcome, if it reaches one. */
  predicate ReachesMint(attestation: PollRun) {
    attestation.outcome.Retrieved? && MintTarget(attestation.outcome.record).Ok?
  }

  /** What the resume lemmas need of the stages: the steps and errors the hook's helpers
      set. */
  predicate ResumeStagesShaped(attestation: PollRun, mint: (int, MessageRecord) -> MintRun) {
    && attestation.trace.steps == [WaitingAttestation]
    && attestation.trace.error == (if attestation.outcome.Failed? then Some(AttestationRetrievalFailed) else None)
    && (ReachesMint(attestation) ==>
          var minted := mint(MintTarget(attestation.outcome.record).value.1, attestation.outcome.record);
          MintShaped(minted) && minted.trace.error.None?)
  }

  /** The trails a resume session can leave. */
  lemma ResumeTrails()
    ensures FollowsPath([WaitingAttestation, WaitingAttestation], ResumePath)
    ensures FollowsPath([WaitingAttestation, WaitingAttestation, Error], ResumePath)
    ensures FollowsPath([WaitingAttestation, WaitingAttestation, Minting, Error], ResumePath)
    ensures FollowsPath([WaitingAttestation, WaitingAttestation, Minting, Completed], ResumePath)
    ensures FollowsPath([WaitingAttestation, WaitingAttestation, Minting, Completed, Completed], ResumePath)
  {
    assert [WaitingAttestation, WaitingAttestation, Error][..2] == [WaitingAttestation, WaitingAttestation];
    assert [WaitingAttestation, WaitingAttestation, Minting, Error][..3] == [WaitingAttestation, WaitingAttestation, Minting];
  }

  /** A resume session moves along waiting-attestation (twice), minting, completed
      (twice), possibly cut short by "error"; the step it ends on tells how it ended. */
  lemma ResumeFlowSteps(txHash: string, chain: int, attestation: PollRun, mint: (int, MessageRecord) -> MintRun)
    requires ResumeStagesShaped(attestation, mint)
    ensures var r := ResumeFlow(txHash, chain, attestation, mint); EndsOn(r, ResumePath, ResumeEndStep(r.ending))
  {
    ResumeTrails();
    var r := ResumeFlow(txHash, chain, attestation, mint);
    var t1 := Then(Trace([WaitingAttestation], [ResumingTransfer(txHash, chain)], [], None), attestation.trace);
    match attestation.outcome
    case StillPolling =>
      assert r.trace.steps == [WaitingAttestation, WaitingAttestation];
    case Failed(_) =>
      assert r.trace.steps == [WaitingAttestation, WaitingAttestation, Error];
    case Retrieved(record) =>
      var t := Then(t1, Trace([], [AttestationRetrievedSuccessfully] + ParsedEntries(record), [], None));
      ResumeFromRecordSteps(t, record, mint);
  }

  /** The steps once the record is retrieved, after the two waiting-attestation steps. */
  lemma ResumeFromRecordSteps(t: Trace, record: MessageRecord, mint: (int, MessageRecord) -> MintRun)
    requires t.steps == [WaitingAttestation, WaitingAttestation]
    requires MintTarget(record).Ok? ==> MintShaped(mint(MintTarget(record).value.1, record))
    ensures var r := ResumeFromRecord(t, record, mint); EndsOn(r, ResumePath, ResumeEndStep(r.ending))
  {
    ResumeTrails();
    var r := ResumeFromRecord(t, record, mint);
    if MintTarget(record).Err? {
      assert r.trace.steps == [WaitingAttestation, WaitingAttestation, Error];
    } else {
      var minted := mint(MintTarget(record).value.1, record);
      if minted.outcome.Minted? {
        assert r.trace.steps == [WaitingAttestation, WaitingAttestation, Minting, Completed, Completed];
      } else if minted.outcome.RetriesExhausted? {
        assert r.trace.steps == [WaitingAttestation, WaitingAttestation, Minting, Completed];
      } else {
        assert r.trace.steps == [WaitingAttestation, WaitingAttestation, Error]
          || r.trace.steps == [WaitingAttestation, WaitingAttestation, Minting, Error];
      }
    }
  }

  /** The resume session's error is set exactly when the resume aborts, and then to the
      fault it aborted with (a failed poll's "Attestation retrieval failed" is overwritten). */
  lemma ResumeFlowErrors(txHash: string, chain: int, attestation: PollRun, mint: (int, MessageRecord) -> MintRun)
    requires ResumeStagesShaped(attestation, mint)
    ensures var r := ResumeFlow(txHash, chain, attestation, mint);
      && (r.trace.error.Some? <==> r.ending.Aborted?)
      && (r.ending.Aborted? ==> r.trace.error == Some(Raised(r.ending.fault)))
  {
  }

  /** The resume calls the outside world only to poll, unless the record names a chain;
      then everything else it does is the mint on that chain. */
  lemma ResumeFlowEffects(txHash: string, chain: int, attestation: PollRun, mint: (int, MessageRecord) -> MintRun)
    ensures var r := ResumeFlow(txHash, chain, attestation, mint);
      r.trace.effects == attestation.trace.effects +
        if ReachesMint(attestation)
        then mint(MintTarget(attestation.outcome.record).value.1, attestation.outcome.record).trace.effects
        else []
  {
  }

  lemma ResumeSteps(txHash: string, chain: int, kind: TransferType, sc: ResumeScript)
    ensures var r := ResumeRun(txHash, chain, kind, sc); EndsOn(r, ResumePath, ResumeEndStep(r.ending))
    ensures var r := ResumeRun(txHash, chain, kind, sc);
      && (r.trace.error.Some? <==> r.ending.Aborted?)
      && (r.ending.Aborted? ==> r.trace.error == Some(Raised(r.ending.fault)))
  {
    var attestation := RetrieveRun(kind, chain, txHash, sc.replies, sc.keccak);
    if ReachesMint(attestation) {
      MintSteps(kind, MintTarget(attestation.outcome.record).value.1, attestation.outcome.record,
        sc.switchDestination, sc.mintWrites);
    }
    var mint := ResumeMintStage(kind, sc);
    ResumeFlowSteps(txHash, chain, attestation, mint);
    ResumeFlowErrors(txHash, chain, attestation, mint);
  }

  /** A message whose destination domain has no V2 chain ends the resume with "No chain
      found for domain …" before any chain switch or contract call: all it did outside
      was poll. */
  lemma ResumeUnknownDomain(txHash: string, chain: int, kind: TransferType, sc: ResumeScript)
    requires var attestation := RetrieveRun(kind, chain, txHash, sc.replies, sc.keccak);
      && attestation.outcome.Retrieved? && attestation.outcome.record.message.Present?
      && ParseCrossChainMessage(attestation.outcome.record.message.value).Ok?
      && GetChainIdFromDomain(ParseCrossChainMessage(attestation.outcome.record.message.value).value.destinationDomain).Err?
    ensures var attestation := RetrieveRun(kind, chain, txHash, sc.replies, sc.keccak);
      var r := ResumeRun(txHash, chain, kind, sc);
      && r.ending == Aborted(NoChainForDomain(ParseCrossChainMessage(attestation.outcome.record.message.value).value.destinationDomain))
      && r.trace.effects == attestation.trace.effects
  {
    var attestation := RetrieveRun(kind, chain, txHash, sc.replies, sc.keccak);
    ResumeFlowEffects(txHash, chain, attestation, ResumeMintStage(kind, sc));
  }

  /** The resume does something besides polling exactly when the record's message names a
      V2 chain, and the first thing it then does is switch to that chain. */
  lemma ResumeMintsOnMessageChain(txHash: string, chain: int, kind: TransferType, sc: ResumeScript)
    ensures var attestation := RetrieveRun(kind, chain, txHash, sc.replies, sc.keccak);
      var r := ResumeRun(txHash, chain, kind, sc);
      && |attestation.trace.effects| <= |r.trace.effects|
      && (|attestation.trace.effects| < |r.trace.effects| <==> ReachesMint(attestation))
      && (ReachesMint(attestation) ==>
            var parsed := ParseCrossChainMessage(attestation.outcome.record.message.value).value;
            && GetChainIdFromDomain(parsed.destinationDomain).Ok?
            && r.trace.effects[|attestation.trace.effects|] == SwitchChain(GetChainIdFromDomain(parsed.destinationDomain).value))
  {
    var attestation := RetrieveRun(kind, chain, txHash, sc.replies, sc.keccak);
    ResumeFlowEffects(txHash, chain, attestation, ResumeMintStage(kind, sc));
    if ReachesMint(attestation) {
      MintSteps(kind, MintTarget(attestation.outcome.record).value.1, attestation.outcome.record,
        sc.switchDestination, sc.mintWrites);
    }
  }

  /** The contracts `resumeTransfer` may write: only the mint. */
  const ResumeWrites: set<Function> := {ReceiveMessage}

  lemma ResumeAbortQuiet(t: Trace, f: Fault)
    requires Quiet(t, ResumeWrites)
    ensures ErrorOnlyAtAbort(ResumeAbort(t, f)) && WritesOnly(ResumeAbort(t, f).trace.effects, ResumeWrites)
  {
    var e := ResumeAbort(t, f).trace.entries;
    assert e == t.entries + [ErrorEntry(f)];
    assert e[..|e| - 1] == t.entries;
  }

  /** The only "Error:" entry of a resume is the catch block's, last, and the only
      contract it writes is `receiveMessage`. */
  lemma ResumeFlowQuiet(txHash: string, chain: int, attestation: PollRun, mint: (int, MessageRecord) -> MintRun)
    requires Quiet(attestation.trace, ResumeWrites)
    requires ReachesMint(attestation) ==>
      Quiet(mint(MintTarget(attestation.outcome.record).value.1, attestation.outcome.record).trace, ResumeWrites)
    ensures var r := ResumeFlow(txHash, chain, attestation, mint);
      ErrorOnlyAtAbort(r) && WritesOnly(r.trace.effects, ResumeWrites)
  {
    var t0 := Trace([WaitingAttestation], [ResumingTransfer(txHash, chain)], [], None);
    var t1 := Then(t0, attestation.trace);
    ThenQuiet(t0, attestation.trace, ResumeWrites);
    match attestation.outcome
    case StillPolling =>
    case Failed(f) =>
      ResumeAbortQuiet(t1, f);
    case Retrieved(record) =>
      var logged := Trace([], [AttestationRetrievedSuccessfully] + ParsedEntries(record), [], None);
      assert NoErrorEntry(logged.entries);
      ThenQuiet(t1, logged, ResumeWrites);
      ResumeMintQuiet(Then(t1, logged), record, mint);
  }

  /** The part of a resume after its attestation was retrieved and logged as `t`. */
  lemma ResumeMintQuiet(t: Trace, record: MessageRecord, mint: (int, MessageRecord) -> MintRun)
    requires Quiet(t, ResumeWrites)
    requires MintTarget(record).Ok? ==> Quiet(mint(MintTarget(record).value.1, record).trace, ResumeWrites)
    ensures var r := ResumeFromRecord(t, record, mint);
      ErrorOnlyAtAbort(r) && WritesOnly(r.trace.effects, ResumeWrites)
  {
    match MintTarget(record)
    case Err(f) =>
      ResumeAbortQuiet(t, f);
    case Ok((_, destination)) =>
      var t3 := Then(t, Log(ConnectedToDestination(destination)));
      ThenQuiet(t, Log(ConnectedToDestination(destination)), ResumeWrites);
      var minted := mint(destination, record);
      var t4 := Then(t3, minted.trace);
      ThenQuiet(t3, minted.trace, ResumeWrites);
      if minted.outcome.Threw? {
        ResumeAbortQuiet(t4, minted.outcome.fault);
      } else {
        ThenQuiet(t4, StepTo(Completed), ResumeWrites);
      }
  }

  /** A resume logs "Error:" only in its catch block, last, and writes no contract but
      `receiveMessage`: it never approves or burns. */
  lemma ResumeQuiet(txHash: string, chain: int, kind: TransferType, sc: ResumeScript)
    ensures var r := ResumeRun(txHash, chain, kind, sc);
      ErrorOnlyAtAbort(r) && WritesOnly(r.trace.effects, ResumeWrites)
  {
    var attestation := RetrieveRun(kind, chain, txHash, sc.replies, sc.keccak);
    RetrieveQuiet(kind, chain, txHash, sc.replies, sc.keccak);
    QuietWeaken(attestation.trace, {}, ResumeWrites);
    if ReachesMint(attestation) {
      MintSteps(kind, MintTarget(attestation.outcome.record).value.1, attestation.outcome.record,
        sc.switchDestination, sc.mintWrites);
    }
    ResumeFlowQuiet(txHash, chain, attestation, ResumeMintStage(kind, sc));
  }
}
