/** The state of `useCrossChainTransfer` and the operations it hands out: the transfer
    session (step, log, error) written by `executeApprove` and `executeTransfer`, the
    resume session written by `resumeTransfer`, the two resets, and the calls the hook
    makes to wallets, chains and the attestation service, in order. */
module Hook {
  import opened Types
  import opened Steps
  import opened Traces
  import opened Attestation
  import opened Minting
  import opened Workflow
  import opened ExecuteApprove
  import opened ExecuteTransfer
  import opened ResumeTransfer

  /** `retrieveAttestation` with its polling loop run pass by pass: `done` gathers what
      the passes so far logged and requested. It ends as `RetrieveRun` says. */
  method RetrieveAttestation(kind: TransferType, source: int, txHash: string, replies: seq<Reply>,
                             keccak: seq<Byte> -> string) returns (r: PollRun)
    ensures r == RetrieveRun(kind, source, txHash, replies, keccak)
  {
    var url := MessagesEndpoint(kind, source, txHash);
    var start := Trace([WaitingAttestation], [RetrievingAttestation, ApiUrl(url)], [], None);
    ghost var goal := Poll(kind, url, keccak, replies);
    var rest := replies;
    var done := Nothing;
    var outcome := StillPolling;
    ThenNothing(goal.trace);
    while true
      invariant Poll(kind, url, keccak, rest).outcome == goal.outcome
      invariant Then(done, Poll(kind, url, keccak, rest).trace) == goal.trace
      decreases |rest|
    {
      var pass := Round(kind, url, keccak, rest);
      ghost var before := done;
      done := Then(done, pass.trace);
      match pass.verdict
      case Return(record) =>
        outcome := Retrieved(record);
        break;
      case Throw(f) =>
        outcome := Failed(f);
        break;
      case OutOfReplies =>
        outcome := StillPolling;
        break;
      case Again =>
        ThenAssoc(before, pass.trace, Poll(kind, url, keccak, rest[pass.used..]).trace);
        rest := rest[pass.used..];
    }
    r := PollRun(outcome, Then(Then(start, done), if outcome.Failed? then Record(AttestationRetrievalFailed) else Nothing));
  }

  /** `mintUSDC` with its retry loop run attempt by attempt: at most three
      `receiveMessage` attempts, a new one only after an execution error. It ends as
      `MintUSDC` says. */
  method MintUsdc(kind: TransferType, destination: int, record: MessageRecord, switchReply: Outcome,
                  writes: nat -> Result<string>) returns (r: MintRun)
    ensures r == MintUSDC(kind, destination, record, switchReply, writes)
  {
    var switched := Trace([], [], [SwitchChain(destination)], None);
    if switchReply.Fail? {
      return MintRun(Threw(switchReply.fault), switched);
    }
    var call := ReceiveMessageCall(kind, destination, record);
    ghost var goal := MintLoop(call, writes, 0);
    var retries := 0;
    var done := Nothing;
    var outcome := RetriesExhausted;
    ThenNothing(goal.trace);
    while retries < MaxRetries
      invariant retries <= MaxRetries
      invariant MintLoop(call, writes, retries).outcome == goal.outcome
      invariant Then(done, MintLoop(call, writes, retries).trace) == goal.trace
      decreases MaxRetries - retries
    {
      match writes(retries)
      case Ok(tx) =>
        done := Then(done, Trace([Completed], [MintTx(tx)], [WriteContract(call)], None));
        outcome := Minted(tx);
        break;
      case Err(f) =>
        if !IsExecutionError(f) {
          done := Then(done, Trace([], [], [WriteContract(call)], None));
          outcome := Threw(f);
          break;
        }
        var failed := Trace([], [RetryAttempt(retries + 1, MaxRetries)], [WriteContract(call), Sleep(RetryUnitMs * (retries + 1))], None);
        ThenAssoc(done, failed, MintLoop(call, writes, retries + 1).trace);
        done := Then(done, failed);
        retries := retries + 1;
    }
    if outcome.RetriesExhausted? {
      ThenNothing(done);
    }
    r := MintRun(outcome, Then(Then(switched, Trace([Minting], [MintingUsdc], [], None)), done));
  }

  class CrossChainTransfer {
    var currentStep: Step
    var logs: seq<LogEntry>
    ghost var trail: seq<Step>             // every step set since the transfer session was cleared
    var error: Option<SessionError>
    var resumeStep: Step
    var resumeLogs: seq<LogEntry>
    ghost var resumeTrail: seq<Step>       // every step set since the resume session was cleared
    var resumeError: Option<SessionError>
    var isResuming: bool
    ghost var effects: seq<Effect>         // every call made to the outside world, in order

    ghost function Transfer(): Session
      reads this
    {
      Session(currentStep, logs, trail, error)
    }

    ghost function Resume(): Session
      reads this
    {
      Session(resumeStep, resumeLogs, resumeTrail, resumeError)
    }

    /** The session an operation writes to: `isResume` picks the resume session. */
    ghost function SessionOf(isResume: bool): Session
      reads this
    {
      if isResume then Resume() else Transfer()
    }

    /** Between operations each session shows the last step set since it was cleared,
        and no resume is in progress. */
    ghost predicate Valid()
      reads this
    {
      Consistent(Transfer()) && Consistent(Resume()) && !isResuming
    }

    /** Both sessions start idle, with empty logs and no error. */
    constructor()
      ensures Transfer() == Cleared && Resume() == Cleared
      ensures effects == [] && !isResuming && Valid()
    {
      currentStep, logs, error := Idle, [], None;
      trail := [];
      resumeStep, resumeLogs, resumeError := Idle, [], None;
      resumeTrail := [];
      isResuming := false;
      effects := [];
    }

    /** A stretch of an operation's work on one session: set its steps, append its
        entries, record its error, make its calls. The other session is left alone. */
    method Append(t: Trace, isResume: bool)
      modifies this
      ensures SessionOf(isResume) == Apply(old(SessionOf(isResume)), t)
      ensures SessionOf(!isResume) == old(SessionOf(!isResume))
      ensures effects == old(effects) + t.effects && isResuming == old(isResuming)
    {
      if isResume {
        resumeStep := LastOr(resumeStep, t.steps);
        resumeLogs := resumeLogs + t.entries;
        resumeTrail := resumeTrail + t.steps;
        if t.error.Some? {
          resumeError := t.error;
        }
      } else {
        currentStep := LastOr(currentStep, t.steps);
        logs := logs + t.entries;
        trail := trail + t.steps;
        if t.error.Some? {
          error := t.error;
        }
      }
      effects := effects + t.effects;
    }

    /** `Append` for an operation that started from session `s0` and effects `e0` and has
        so far done `t`: afterwards it has done `t` then `x`. */
    method Extend(x: Trace, isResume: bool, ghost s0: Session, ghost e0: seq<Effect>, ghost t: Trace)
      requires SessionOf(isResume) == Apply(s0, t) && effects == e0 + t.effects
      modifies this
      ensures SessionOf(isResume) == Apply(s0, Then(t, x)) && effects == e0 + Then(t, x).effects
      ensures SessionOf(!isResume) == old(SessionOf(!isResume)) && isResuming == old(isResuming)
    {
      Append(x, isResume);
      ApplyThen(s0, t, x);
      assert e0 + t.effects + x.effects == e0 + (t.effects + x.effects);
    }

    /** `executeApprove`: the fast probe, then `approveUSDC`; whatever either throws ends
        the session on "error" with an "Error:" entry. The session ends on "approving"
        exactly when nothing threw. */
    method ExecuteApprove(owner: string, source: int, destination: int, amount: nat, kind: TransferType,
                          probe: FastProbe, sc: ApproveScript)
      requires Valid()
      modifies this
      ensures var r := ExecuteApproveRun(owner, source, destination, amount, kind, probe, sc);
        && Transfer() == Apply(old(Transfer()), r.trace)
        && effects == old(effects) + r.trace.effects
        && currentStep == (if r.result.Err? then Error else Approving)
      ensures Resume() == old(Resume()) && Valid()
    {
      ghost var s0, e0 := Transfer(), effects;
      var checked := FeeCheck(kind, source, destination, probe);
      Append(checked.trace, false);
      if checked.result.Err? {
        Extend(Trace([Error], [ErrorEntry(checked.result.fault)], [], None), false, s0, e0, checked.trace);
      } else {
        var approve := ApproveRun(owner, source, amount, kind, sc);
        Extend(approve.trace, false, s0, e0, checked.trace);
        if approve.result.Err? {
          Extend(Trace([Error], [ErrorEntry(approve.result.fault)], [], None), false, s0, e0, Then(checked.trace, approve.trace));
        }
      }
      ExecuteApproveSteps(owner, source, destination, amount, kind, probe, sc);
      ApplyConsistent(s0, ExecuteApproveRun(owner, source, destination, amount, kind, probe, sc).trace);
    }

    /** `executeTransfer`: the fast probe, the burn, the wait for the burn's receipt, the
        attestation, the mint; whatever throws ends the session on "error" with an
        "Error:" entry. The step the session ends on tells how the transfer ended. */
    method ExecuteTransfer(owner: string, source: int, destination: int, amount: nat, kind: TransferType,
                           sc: TransferScript)
      requires Valid()
      modifies this
      ensures var r := TransferRun(owner, source, destination, amount, kind, sc);
        && Transfer() == Apply(old(Transfer()), r.trace)
        && effects == old(effects) + r.trace.effects
        && currentStep == EndStep(r.ending)
      ensures Resume() == old(Resume()) && Valid()
    {
      ghost var s0, e0 := Transfer(), effects;
      var checked := FeeCheck(kind, source, destination, sc.probe);
      Append(checked.trace, false);
      if checked.result.Err? {
        Extend(Trace([Error], [ErrorEntry(checked.result.fault)], [], None), false, s0, e0, checked.trace);
      } else {
        var burn := OwnBurn(owner, source, destination, amount, kind, sc);
        Extend(burn.trace, false, s0, e0, checked.trace);
        ghost var t1 := Then(checked.trace, burn.trace);
        if burn.result.Err? {
          Extend(Trace([Error], [ErrorEntry(burn.result.fault)], [], None), false, s0, e0, t1);
        } else {
          AwaitAndMint(burn.result.value, source, destination, kind, sc, s0, e0, t1);
        }
      }
      TransferSteps(owner, source, destination, amount, kind, sc);
      ApplyConsistent(s0, TransferRun(owner, source, destination, amount, kind, sc).trace);
    }

    /** The rest of `executeTransfer` once the burn with hash `tx` went out: the receipt,
        the attestation and the mint. */
    method AwaitAndMint(tx: string, source: int, destination: int, kind: TransferType, sc: TransferScript,
                        ghost s0: Session, ghost e0: seq<Effect>, ghost t1: Trace)
      requires Transfer() == Apply(s0, t1) && effects == e0 + t1.effects
      modifies this
      ensures var r := AfterBurn(t1, tx, sc.receipt, AttestationStage(kind, source, sc), MintStage(kind, destination, sc));
        Transfer() == Apply(s0, r.trace) && effects == e0 + r.trace.effects
      ensures Resume() == old(Resume()) && isResuming == old(isResuming)
    {
      var waiting := Trace([], [WaitingForBurnConfirmation], [AwaitReceipt(tx)], None);
      Extend(waiting, false, s0, e0, t1);
      ghost var t2 := Then(t1, waiting);
      match sc.receipt
      case Err(f) =>
        Extend(Trace([Error], [ErrorEntry(f)], [], None), false, s0, e0, t2);
      case Ok(status) =>
        Extend(Log(BurnConfirmed(status)), false, s0, e0, t2);
        ghost var t3 := Then(t2, Log(BurnConfirmed(status)));
        if status != Success {
          Extend(Trace([Error], [ErrorEntry(BurnTransactionFailed)], [], None), false, s0, e0, t3);
        } else {
          Extend(Log(ProceedingToAttestation), false, s0, e0, t3);
          var attestation := RetrieveAttestation(kind, source, tx, sc.replies, sc.keccak);
          assert AttestationStage(kind, source, sc)(tx) == attestation;
          Extend(attestation.trace, false, s0, e0, Then(t3, Log(ProceedingToAttestation)));
          ghost var t4 := Then(Then(t3, Log(ProceedingToAttestation)), attestation.trace);
          MintAttested(attestation.outcome, destination, kind, sc, s0, e0, t4);
        }
    }

    /** The rest of `executeTransfer` once the attestation poll ended with `outcome`: the
        mint, when a record came back. */
    method MintAttested(outcome: PollOutcome, destination: int, kind: TransferType, sc: TransferScript,
                        ghost s0: Session, ghost e0: seq<Effect>, ghost t: Trace)
      requires Transfer() == Apply(s0, t) && effects == e0 + t.effects
      modifies this
      ensures var r := AfterAttestation(t, outcome, MintStage(kind, destination, sc));
        Transfer() == Apply(s0, r.trace) && effects == e0 + r.trace.effects
      ensures Resume() == old(Resume()) && isResuming == old(isResuming)
    {
      match outcome
      case StillPolling =>
      case Failed(f) =>
        Extend(Trace([Error], [ErrorEntry(f)], [], None), false, s0, e0, t);
      case Retrieved(record) =>
        var minted := MintUsdc(kind, destination, record, sc.switchDestination, sc.mintWrites);
        assert MintStage(kind, destination, sc)(record) == minted;
        Extend(minted.trace, false, s0, e0, t);
        if minted.outcome.Threw? {
          Extend(Trace([Error], [ErrorEntry(minted.outcome.fault)], [], None), false, s0, e0, Then(t, minted.trace));
        }
    }

    /** `resumeTransfer`: mark a resume in progress, poll the attestation of an earlier
        burn, read the destination chain from its message, mint there and mark the resume
        session completed; whatever throws ends it on "error", with the fault as its error
        and an "Error:" entry. No resume is in progress afterwards, and the step the
        session ends on tells how the resume ended. */
    method ResumeTransfer(txHash: string, chain: int, kind: TransferType, sc: ResumeScript)
      requires Valid()
      modifies this
      ensures var r := ResumeRun(txHash, chain, kind, sc);
        && Resume() == Apply(old(Resume()), r.trace)
        && effects == old(effects) + r.trace.effects
        && resumeStep == ResumeEndStep(r.ending)
      ensures Transfer() == old(Transfer()) && Valid()
    {
      isResuming := true;
      Resuming(txHash, chain, kind, sc);
      isResuming := false;
      ResumeSteps(txHash, chain, kind, sc);
      ApplyConsistent(old(Resume()), ResumeRun(txHash, chain, kind, sc).trace);
    }

    /** The try block of `resumeTransfer`. */
    method Resuming(txHash: string, chain: int, kind: TransferType, sc: ResumeScript)
      modifies this
      ensures var r := ResumeFlow(txHash, chain, RetrieveRun(kind, chain, txHash, sc.replies, sc.keccak), ResumeMintStage(kind, sc));
        && Resume() == Apply(old(Resume()), r.trace)
        && effects == old(effects) + r.trace.effects
      ensures Transfer() == old(Transfer()) && isResuming == old(isResuming)
    {
      ghost var s0, e0 := Resume(), effects;
      var start := Trace([WaitingAttestation], [ResumingTransfer(txHash, chain)], [], None);
      Append(start, true);
      var attestation := RetrieveAttestation(kind, chain, txHash, sc.replies, sc.keccak);
      Extend(attestation.trace, true, s0, e0, start);
      ghost var t1 := Then(start, attestation.trace);
      match attestation.outcome
      case StillPolling =>
      case Failed(f) =>
        Extend(Trace([Error], [ErrorEntry(f)], [], Some(Raised(f))), true, s0, e0, t1);
      case Retrieved(record) =>
        var parsed := Trace([], [AttestationRetrievedSuccessfully] + ParsedEntries(record), [], None);
        Extend(parsed, true, s0, e0, t1);
        MintOnMessageChain(record, kind, sc, s0, e0, Then(t1, parsed));
    }

    /** The rest of `resumeTransfer` once the record is retrieved: find the destination
        chain in its message, then mint there. */
    method MintOnMessageChain(record: MessageRecord, kind: TransferType, sc: ResumeScript,
                              ghost s0: Session, ghost e0: seq<Effect>, ghost t: Trace)
      requires Resume() == Apply(s0, t) && effects == e0 + t.effects
      modifies this
      ensures var r := ResumeFromRecord(t, record, ResumeMintStage(kind, sc));
        Resume() == Apply(s0, r.trace) && effects == e0 + r.trace.effects
      ensures Transfer() == old(Transfer()) && isResuming == old(isResuming)
    {
      match MintTarget(record)
      case Err(f) =>
        Extend(Trace([Error], [ErrorEntry(f)], [], Some(Raised(f))), true, s0, e0, t);
      case Ok((_, destination)) =>
        Extend(Log(ConnectedToDestination(destination)), true, s0, e0, t);
        var minted := MintUsdc(kind, destination, record, sc.switchDestination, sc.mintWrites);
        assert ResumeMintStage(kind, sc)(destination, record) == minted;
        FinishResume(minted, s0, e0, Then(t, Log(ConnectedToDestination(destination))));
    }

    /** The end of `resumeTransfer` once the mint helper ran as `minted`. */
    method FinishResume(minted: MintRun, ghost s0: Session, ghost e0: seq<Effect>, ghost t: Trace)
      requires Resume() == Apply(s0, t) && effects == e0 + t.effects
      modifies this
      ensures var r := ResumeMinted(t, minted);
        Resume() == Apply(s0, r.trace) && effects == e0 + r.trace.effects
      ensures Transfer() == old(Transfer()) && isResuming == old(isResuming)
    {
      Extend(minted.trace, true, s0, e0, t);
      if minted.outcome.Threw? {
        Extend(Trace([Error], [ErrorEntry(minted.outcome.fault)], [], Some(Raised(minted.outcome.fault))), true, s0, e0, Then(t, minted.trace));
      } else {
        Extend(StepTo(Completed), true, s0, e0, Then(t, minted.trace));
      }
    }

    /** `reset`: the transfer session back to idle, with an empty log and no error; the
        resume session is left alone. */
    method Reset()
      requires Valid()
      modifies this
      ensures Transfer() == Cleared && Resume() == old(Resume())
      ensures effects == old(effects) && Valid()
    {
      currentStep, logs, error := Idle, [], None;
      trail := [];
    }

    /** `resetResume`: the resume session back to idle, with an empty log and no error;
        the transfer session is left alone. */
    method ResetResume()
      requires Valid()
      modifies this
      ensures Resume() == Cleared && Transfer() == old(Transfer())
      ensures effects == old(effects) && Valid()
    {
      resumeStep, resumeLogs, resumeError := Idle, [], None;
      resumeTrail := [];
    }
  }
}
