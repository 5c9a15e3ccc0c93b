/** `executeTransfer`: the fast-transfer probe, the burn, the wait for its receipt, the
    attestation and the mint, and the catch block that marks the session "error". */
module ExecuteTransfer {
  import opened Types
  import opened Steps
  import opened Traces
  import opened TransferArgs
  import opened MessageCodec
  import opened DomainLookup
  import opened Attestation
  import opened Minting
  import opened Workflow

  /** Everything the collaborators of `executeTransfer` answer, in the order asked. */
  datatype TransferScript = TransferScript(
    probe: FastProbe,
    switchSource: Outcome,
    burn: Result<string>,
    receipt: Result<ReceiptStatus>,
    replies: seq<Reply>,
    keccak: seq<Byte> -> string,
    switchDestination: Outcome,
    mintWrites: nat -> Result<string>)

  /** The try block of `executeTransfer` once its stages are known: the fast probe, the
      burn, the burn's receipt, then the attestation as a function of the burn's transaction
      hash and the mint as a function of the attestation record, each run only when reached.
      The catch block turns the first fault into "error" and an "Error:" entry. */
  function TransferFlow(checked: Run<nat>, burn: Run<string>, receipt: Result<ReceiptStatus>,
                        poll: string -> PollRun, mint: MessageRecord -> MintRun): (r: SessionRun)
    ensures checked.result.Err? ==> r.ending == Aborted(checked.result.fault)
    ensures checked.result.Ok? && burn.result.Err? ==> r.ending == Aborted(burn.result.fault)
    ensures !r.ending.Aborted? ==> checked.result.Ok? && burn.result.Ok? && receipt == Ok(Success)
    ensures r.ending.Finished? ==>
      && checked.result.Ok? && burn.result.Ok? && poll(burn.result.value).outcome.Retrieved?
      && mint(poll(burn.result.value).outcome.record).outcome == Minted(r.ending.txHash)
  {
    if checked.result.Err? then Abort(checked.trace, checked.result.fault)
    else
      var t1 := Then(checked.trace, burn.trace);
      if burn.result.Err? then Abort(t1, burn.result.fault)
      else AfterBurn(t1, burn.result.value, receipt, poll, mint)
  }

  /** The rest of `executeTransfer` once the burn with hash `tx` went out and `t` has
      happened: the wait for the receipt, the attestation, the mint. */
  function AfterBurn(t: Trace, tx: string, receipt: Result<ReceiptStatus>,
                     poll: string -> PollRun, mint: MessageRecord -> MintRun): (r: SessionRun)
    ensures t.effects + [AwaitReceipt(tx)] <= r.trace.effects
    ensures receipt.Err? ==> r.ending == Aborted(receipt.fault)
    ensures receipt == Ok(Reverted) ==> r.ending == Aborted(BurnTransactionFailed)
    ensures r.ending.AwaitingAttestation? <==> receipt == Ok(Success) && poll(tx).outcome.StillPolling?
    ensures r.ending.Finished? ==>
      receipt == Ok(Success) && poll(tx).outcome.Retrieved? && mint(poll(tx).outcome.record).outcome == Minted(r.ending.txHash)
  {
    var t2 := Then(t, Trace([], [WaitingForBurnConfirmation], [AwaitReceipt(tx)], None));
    match receipt
    case Err(f) => Abort(t2, f)
    case Ok(status) =>
      var t3 := Then(t2, Log(BurnConfirmed(status)));
      if status != Success then Abort(t3, BurnTransactionFailed)
      else
        var attestation := poll(tx);
        AfterAttestation(Then(Then(t3, Log(ProceedingToAttestation)), attestation.trace), attestation.outcome, mint)
  }

  /** The rest of `executeTransfer` once the attestation poll ended with `outcome` and `t`
      has happened: the mint, when a record came back. */
  function AfterAttestation(t: Trace, outcome: PollOutcome, mint: MessageRecord -> MintRun): (r: SessionRun)
    ensures t.steps <= r.trace.steps && t.entries <= r.trace.entries && t.effects <= r.trace.effects
    ensures r.ending.AwaitingAttestation? <==> outcome.StillPolling?
    ensures outcome.Failed? ==> r.ending == Aborted(outcome.fault)
    ensures r.ending.Finished? <==> outcome.Retrieved? && mint(outcome.record).outcome.Minted?
    ensures r.ending.Finished? ==> r.ending.txHash == mint(outcome.record).outcome.txHash
    ensures r.ending.RetriesRanOut? <==> outcome.Retrieved? && mint(outcome.record).outcome.RetriesExhausted?
    ensures outcome.Retrieved? && mint(outcome.record).outcome.Threw? ==> r.ending == Aborted(mint(outcome.record).outcome.fault)
  {
    match outcome
    case StillPolling => SessionRun(AwaitingAttestation, t)
    case Failed(f) => Abort(t, f)
    case Retrieved(record) =>
      var minted := mint(record);
      var t5 := Then(t, minted.trace);
      match minted.outcome
      case Minted(hash) => SessionRun(Finished(hash), t5)
      case RetriesExhausted => SessionRun(RetriesRanOut, t5)
      case Threw(f) => Abort(t5, f)
  }

  /** `executeTransfer`: the probe (fast only), the burn to the owner's own address, the
      wait for its receipt, the attestation, the mint. The approval call is commented out
      in this operation, so it never approves. */
  function TransferRun(owner: string, source: int, destination: int, amount: nat, kind: TransferType, sc: TransferScript): (r: SessionRun)
    ensures FeeCheck(kind, source, destination, sc.probe).result.Err? ==>
      r.ending == Aborted(FeeCheck(kind, source, destination, sc.probe).result.fault)
    ensures !r.ending.Aborted? ==>
      && FeeCheck(kind, source, destination, sc.probe).result.Ok?
      && sc.switchSource.Pass? && sc.burn.Ok? && sc.receipt == Ok(Success)
    ensures r.ending.Finished? ==>
      && sc.switchDestination.Pass?
      && RetrieveRun(kind, source, sc.burn.value, sc.replies, sc.keccak).outcome.Retrieved?
      && exists k :: 0 <= k < MaxRetries && sc.mintWrites(k) == Ok(r.ending.txHash)
  {
    TransferFlow(FeeCheck(kind, source, destination, sc.probe), OwnBurn(owner, source, destination, amount, kind, sc),
      sc.receipt, AttestationStage(kind, source, sc), MintStage(kind, destination, sc))
  }

  /** `burnUSDC` with the owner's own address as the destination address. */
  function OwnBurn(owner: string, source: int, destination: int, amount: nat, kind: TransferType, sc: TransferScript): Run<string> {
    BurnRun(source, destination, amount, owner, kind, sc.switchSource, sc.burn)
  }

  /** `retrieveAttestation` for the burn with transaction hash `tx`. */
  function AttestationStage(kind: TransferType, source: int, sc: TransferScript): string -> PollRun {
    tx => RetrieveRun(kind, source, tx, sc.replies, sc.keccak)
  }

  /** `mintUSDC` on the destination chain for the retrieved record. */
  function MintStage(kind: TransferType, destination: int, sc: TransferScript): MessageRecord -> MintRun {
    record => MintUSDC(kind, destination, record, sc.switchDestination, sc.mintWrites)
  }

  /** The trails a transfer session can leave. */
  lemma TransferTrails()
    ensures FollowsPath([Error], TransferPath) && FollowsPath([Burning, Error], TransferPath)
    ensures FollowsPath([Burning, WaitingAttestation], TransferPath)
    ensures FollowsPath([Burning, WaitingAttestation, Error], TransferPath)
    ensures FollowsPath([Burning, WaitingAttestation, Minting], TransferPath)
    ensures FollowsPath([Burning, WaitingAttestation, Minting, Error], TransferPath)
    ensures FollowsPath([Burning, WaitingAttestation, Minting, Completed], TransferPath)
  {
    assert [Burning, Error][..1] == [Burning];
    assert [Burning, WaitingAttestation, Error][..2] == [Burning, WaitingAttestation];
    assert [Burning, WaitingAttestation, Minting, Error][..3] == [Burning, WaitingAttestation, Minting];
  }

  /** What the transfer-step lemmas need of the stages: the steps the hook's helpers set. */
  predicate StagesShaped(checked: Run<nat>, burn: Run<string>, poll: string -> PollRun, mint: MessageRecord -> MintRun) {
    && checked.trace.steps == []
    && (burn.trace.steps == [] || burn.trace.steps == [Burning])
    && (burn.result.Ok? ==> burn.trace.steps == [Burning] && poll(burn.result.value).trace.steps == [WaitingAttestation])
    && (burn.result.Ok? && poll(burn.result.value).outcome.Retrieved? ==> MintShaped(mint(poll(burn.result.value).outcome.record)))
  }

  /** Whatever its stages answer, a transfer whose stages set the steps the hook's helpers
      set moves along the transfer path and ends on the step that tells how it ended. */
  lemma FlowSteps(checked: Run<nat>, burn: Run<string>, receipt: Result<ReceiptStatus>,
                  poll: string -> PollRun, mint: MessageRecord -> MintRun)
    requires StagesShaped(checked, burn, poll, mint)
    ensures var r := TransferFlow(checked, burn, receipt, poll, mint); EndsOn(r, TransferPath, EndStep(r.ending))
    ensures var r := TransferFlow(checked, burn, receipt, poll, mint);
      Minting in r.trace.steps || r.ending.Finished? || r.ending.RetriesRanOut? ==>
        checked.result.Ok? && burn.result.Ok? && receipt == Ok(Success) && poll(burn.result.value).outcome.Retrieved?
  {
    if checked.result.Err? || burn.result.Err? || receipt != Ok(Success) {
      FlowStepsBeforeAttestation(checked, burn, receipt, poll, mint);
    } else if poll(burn.result.value).outcome.Retrieved? {
      FlowStepsAfterAttestation(checked, burn, receipt, poll, mint);
    } else {
      FlowStepsWhilePolling(checked, burn, receipt, poll, mint);
    }
  }

  lemma FlowStepsBeforeAttestation(checked: Run<nat>, burn: Run<string>, receipt: Result<ReceiptStatus>,
                                   poll: string -> PollRun, mint: MessageRecord -> MintRun)
    requires StagesShaped(checked, burn, poll, mint)
    requires checked.result.Err? || burn.result.Err? || receipt != Ok(Success)
    ensures var r := TransferFlow(checked, burn, receipt, poll, mint); EndsOn(r, TransferPath, EndStep(r.ending))
    ensures var r := TransferFlow(checked, burn, receipt, poll, mint); r.ending.Aborted? && Minting !in r.trace.steps
  {
    TransferTrails();
    var r := TransferFlow(checked, burn, receipt, poll, mint);
    if checked.result.Err? {
      assert r.trace.steps == [Error];
    } else if burn.result.Err? {
      assert r.trace.steps == [Error] || r.trace.steps == [Burning, Error];
    } else {
      assert r.trace.steps == [Burning, Error];
    }
  }

  lemma FlowStepsWhilePolling(checked: Run<nat>, burn: Run<string>, receipt: Result<ReceiptStatus>,
                              poll: string -> PollRun, mint: MessageRecord -> MintRun)
    requires StagesShaped(checked, burn, poll, mint)
    requires checked.result.Ok? && burn.result.Ok? && receipt == Ok(Success)
    requires !poll(burn.result.value).outcome.Retrieved?
    ensures var r := TransferFlow(checked, burn, receipt, poll, mint); EndsOn(r, TransferPath, EndStep(r.ending))
    ensures var r := TransferFlow(checked, burn, receipt, poll, mint);
      (r.ending.AwaitingAttestation? || r.ending.Aborted?) && Minting !in r.trace.steps
  {
    TransferTrails();
    var r := TransferFlow(checked, burn, receipt, poll, mint);
    if poll(burn.result.value).outcome.StillPolling? {
      assert r.trace.steps == [Burning, WaitingAttestation];
    } else {
      assert r.trace.steps == [Burning, WaitingAttestation, Error];
    }
  }

  lemma FlowStepsAfterAttestation(checked: Run<nat>, burn: Run<string>, receipt: Result<ReceiptStatus>,
                                  poll: string -> PollRun, mint: MessageRecord -> MintRun)
    requires StagesShaped(checked, burn, poll, mint)
    requires checked.result.Ok? && burn.result.Ok? && receipt == Ok(Success)
    requires poll(burn.result.value).outcome.Retrieved?
    ensures var r := TransferFlow(checked, burn, receipt, poll, mint); EndsOn(r, TransferPath, EndStep(r.ending))
  {
    TransferTrails();
    var r := TransferFlow(checked, burn, receipt, poll, mint);
    var minted := mint(poll(burn.result.value).outcome.record);
    if minted.outcome.Minted? {
      assert r.trace.steps == [Burning, WaitingAttestation, Minting, Completed];
    } else if minted.outcome.RetriesExhausted? {
      assert r.trace.steps == [Burning, WaitingAttestation, Minting];
    } else {
      assert r.trace.steps == [Burning, WaitingAttestation, Error]
        || r.trace.steps == [Burning, WaitingAttestation, Minting, Error];
    }
  }

  /** The contracts `executeTransfer` may write: the burn and the mint, never `approve`. */
  const TransferWrites: set<Function> := {DepositForBurn, ReceiveMessage}

  /** What the transfer-log lemmas need of the stages: no "Error:" entry of their own and
      no contract write but the burn and the mint. */
  predicate StagesQuiet(checked: Run<nat>, burn: Run<string>, poll: string -> PollRun, mint: MessageRecord -> MintRun) {
    && Quiet(checked.trace, TransferWrites) && Quiet(burn.trace, TransferWrites)
    && (burn.result.Ok? ==> Quiet(poll(burn.result.value).trace, TransferWrites))
    && (burn.result.Ok? && poll(burn.result.value).outcome.Retrieved? ==>
          Quiet(mint(poll(burn.result.value).outcome.record).trace, TransferWrites))
  }

  /** The only "Error:" entry of a transfer is the catch block's, last; and it never
      writes an approval. */
  lemma FlowQuiet(checked: Run<nat>, burn: Run<string>, receipt: Result<ReceiptStatus>,
                  poll: string -> PollRun, mint: MessageRecord -> MintRun)
    requires StagesQuiet(checked, burn, poll, mint)
    ensures var r := TransferFlow(checked, burn, receipt, poll, mint);
      ErrorOnlyAtAbort(r) && WritesOnly(r.trace.effects, TransferWrites)
  {
    if checked.result.Err? {
      AbortQuiet(checked.trace, checked.result.fault, TransferWrites);
      return;
    }
    var t1 := Then(checked.trace, burn.trace);
    ThenQuiet(checked.trace, burn.trace, TransferWrites);
    if burn.result.Err? {
      AbortQuiet(t1, burn.result.fault, TransferWrites);
      return;
    }
    var wait := Trace([], [WaitingForBurnConfirmation], [AwaitReceipt(burn.result.value)], None);
    var t2 := Then(t1, wait);
    ThenQuiet(t1, wait, TransferWrites);
    if receipt.Err? {
      AbortQuiet(t2, receipt.fault, TransferWrites);
      return;
    }
    var t3 := Then(t2, Log(BurnConfirmed(receipt.value)));
    ThenQuiet(t2, Log(BurnConfirmed(receipt.value)), TransferWrites);
    if receipt.value != Success {
      AbortQuiet(t3, BurnTransactionFailed, TransferWrites);
      return;
    }
    var attestation := poll(burn.result.value);
    ThenQuiet(t3, Log(ProceedingToAttestation), TransferWrites);
    var t4 := Then(Then(t3, Log(ProceedingToAttestation)), attestation.trace);
    ThenQuiet(Then(t3, Log(ProceedingToAttestation)), attestation.trace, TransferWrites);
    match attestation.outcome
    case StillPolling =>
    case Failed(f) =>
      AbortQuiet(t4, f, TransferWrites);
    case Retrieved(record) =>
      var minted := mint(record);
      ThenQuiet(t4, minted.trace, TransferWrites);
      if minted.outcome.Threw? {
        AbortQuiet(Then(t4, minted.trace), minted.outcome.fault, TransferWrites);
      }
  }

  /** The hook's own stages set the steps and keep the logs and writes the flow lemmas
      ask of them. */
  lemma TransferStages(owner: string, source: int, destination: int, amount: nat, kind: TransferType, sc: TransferScript)
    ensures var checked := FeeCheck(kind, source, destination, sc.probe);
      var burn := OwnBurn(owner, source, destination, amount, kind, sc);
      && StagesShaped(checked, burn, AttestationStage(kind, source, sc), MintStage(kind, destination, sc))
      && StagesQuiet(checked, burn, AttestationStage(kind, source, sc), MintStage(kind, destination, sc))
  {
    if kind.Fast? {
      ProbeQuiet(source, destination, sc.probe);
    }
    QuietWeaken(FeeCheck(kind, source, destination, sc.probe).trace, {}, TransferWrites);
    var burn := OwnBurn(owner, source, destination, amount, kind, sc);
    BurnQuiet(source, destination, amount, owner, kind, sc.switchSource, sc.burn);
    QuietWeaken(burn.trace, {DepositForBurn}, TransferWrites);
    if burn.result.Ok? {
      var poll := RetrieveRun(kind, source, burn.result.value, sc.replies, sc.keccak);
      RetrieveQuiet(kind, source, burn.result.value, sc.replies, sc.keccak);
      QuietWeaken(poll.trace, {}, TransferWrites);
      if poll.outcome.Retrieved? {
        var minted := MintUSDC(kind, destination, poll.outcome.record, sc.switchDestination, sc.mintWrites);
        MintSteps(kind, destination, poll.outcome.record, sc.switchDestination, sc.mintWrites);
        QuietWeaken(minted.trace, {ReceiveMessage}, TransferWrites);
      }
    }
  }

  /** A transfer session moves along burning, waiting-attestation, minting, completed,
      possibly cut short by "error", and the step it ends on tells how it ended. It gets
      to minting only after the burn went through and its receipt reported success, and
      the attestation of that burn was retrieved. */
  lemma TransferSteps(owner: string, source: int, destination: int, amount: nat, kind: TransferType, sc: TransferScript)
    ensures var r := TransferRun(owner, source, destination, amount, kind, sc); EndsOn(r, TransferPath, EndStep(r.ending))
    ensures var r := TransferRun(owner, source, destination, amount, kind, sc);
      Minting in r.trace.steps || r.ending.Finished? || r.ending.RetriesRanOut? ==>
        && FeeCheck(kind, source, destination, sc.probe).result.Ok?
        && sc.switchSource.Pass? && sc.burn.Ok? && sc.receipt == Ok(Success)
        && RetrieveRun(kind, source, sc.burn.value, sc.replies, sc.keccak).outcome.Retrieved?
  {
    TransferStages(owner, source, destination, amount, kind, sc);
    FlowSteps(FeeCheck(kind, source, destination, sc.probe), OwnBurn(owner, source, destination, amount, kind, sc),
      sc.receipt, AttestationStage(kind, source, sc), MintStage(kind, destination, sc));
  }

  /** `executeTransfer` never approves: it never sets "approving" and writes no contract
      but the burn and the mint; its only "Error:" entry is the catch block's, last. */
  lemma TransferNeverApproves(owner: string, source: int, destination: int, amount: nat, kind: TransferType, sc: TransferScript)
    ensures var r := TransferRun(owner, source, destination, amount, kind, sc);
      && Approving !in r.trace.steps && Advancing(r.trace.steps, true)
      && WritesOnly(r.trace.effects, TransferWrites)
      && ErrorOnlyAtAbort(r)
  {
    TransferStages(owner, source, destination, amount, kind, sc);
    TransferSteps(owner, source, destination, amount, kind, sc);
    TransferTrailAdvances(TransferRun(owner, source, destination, amount, kind, sc).trace.steps);
    FlowQuiet(FeeCheck(kind, source, destination, sc.probe), OwnBurn(owner, source, destination, amount, kind, sc),
      sc.receipt, AttestationStage(kind, source, sc), MintStage(kind, destination, sc));
  }

  /** The session error a transfer leaves is the one its burn or its poll recorded: the
      catch block records none of its own. */
  lemma FlowError(checked: Run<nat>, burn: Run<string>, receipt: Result<ReceiptStatus>,
                  poll: string -> PollRun, mint: MessageRecord -> MintRun)
    requires checked.trace.error.None?
    requires burn.result.Ok? ==> burn.trace.error.None?
    requires burn.result.Ok? ==>
      poll(burn.result.value).trace.error == if poll(burn.result.value).outcome.Failed? then Some(AttestationRetrievalFailed) else None
    requires burn.result.Ok? && poll(burn.result.value).outcome.Retrieved? ==>
      mint(poll(burn.result.value).outcome.record).trace.error.None?
    ensures var r := TransferFlow(checked, burn, receipt, poll, mint);
      r.trace.error ==
        if checked.result.Ok? && burn.result.Err? then burn.trace.error
        else if checked.result.Ok? && receipt == Ok(Success) && poll(burn.result.value).outcome.Failed? then Some(AttestationRetrievalFailed)
        else None
    ensures var r := TransferFlow(checked, burn, receipt, poll, mint);
      && (r.trace.error.Some? ==> r.ending.Aborted?)
      && (checked.result.Ok? && burn.result.Err? ==> r.ending == Aborted(burn.result.fault))
  {
  }

  /** The transfer session shows an error only after "error" was set: "Burn failed: …"
      exactly when the burn write itself failed, with the fault the session stopped on,
      and "Attestation retrieval failed" exactly when the poll ended in a fault. A failed
      probe, chain switch, receipt or mint sets "error" and leaves the error empty. */
  lemma TransferErrorField(owner: string, source: int, destination: int, amount: nat, kind: TransferType, sc: TransferScript)
    ensures var r := TransferRun(owner, source, destination, amount, kind, sc);
      var reachesBurn := FeeCheck(kind, source, destination, sc.probe).result.Ok? && sc.switchSource.Pass?;
      && (r.trace.error.Some? ==> r.ending.Aborted?)
      && (r.trace.error.Some? && r.trace.error.value.BurnFailed? <==> reachesBurn && sc.burn.Err?)
      && (r.trace.error.Some? && r.trace.error.value.BurnFailed? ==> r.trace.error.value.cause == r.ending.fault)
      && (r.trace.error == Some(AttestationRetrievalFailed) <==>
            reachesBurn && sc.burn.Ok? && sc.receipt == Ok(Success)
            && RetrieveRun(kind, source, sc.burn.value, sc.replies, sc.keccak).outcome.Failed?)
  {
    var burn := OwnBurn(owner, source, destination, amount, kind, sc);
    if burn.result.Ok? {
      var poll := RetrieveRun(kind, source, burn.result.value, sc.replies, sc.keccak);
      if poll.outcome.Retrieved? {
        MintSteps(kind, destination, poll.outcome.record, sc.switchDestination, sc.mintWrites);
      }
    }
    FlowError(FeeCheck(kind, source, destination, sc.probe), burn,
      sc.receipt, AttestationStage(kind, source, sc), MintStage(kind, destination, sc));
  }
}
