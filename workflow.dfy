/** The operations of the hook as functions of what their collaborators answer:
    the fast-transfer probe, `approveUSDC`, `burnUSDC`, `retrieveAttestation`, and
    the three session operations `executeApprove`, `executeTransfer` and
    `resumeTransfer`, each with the trace it leaves on its session. */
module Workflow {
  import opened Types
  import opened Steps
  import opened Traces
  import opened TransferArgs
  import opened MessageCodec
  import opened DomainLookup
  import opened Attestation
  import opened Minting

  /** A result and the trace of the operation that produced it. */
  datatype Run<T> = Run(result: Result<T>, trace: Trace)

  /** What `getFastTransferFees` hands back to the caller. */
  datatype FeeReply =
    | FeeRequestFailed                      // the GET threw: the probe logs the failure and yields null
    | FeeAnswered(minimumFee: Option<Result<nat>>)
      // None: the body has no minimumFee; otherwise what parseUnits makes of its text

  /** The replies of the two fast-transfer endpoints: whether the allowance GET was
      answered, and what the fee GET gave. */
  datatype FastProbe = FastProbe(allowanceAnswered: bool, fee: FeeReply)

  /** `checkFastTransferAllowance` then `getFastTransferFees`, then `parseUnits(fee.toString())`
      in the caller. Each probe swallows its own failure; the caller's `toString` on the
      null or undefined fee throws a TypeError. */
  function ProbeRun(source: int, destination: int, probe: FastProbe): (r: Run<nat>)
    ensures r.trace.steps == [] && r.trace.error.None?
    ensures r.result.Err? <==> probe.fee.FeeRequestFailed? || probe.fee.minimumFee.None? || probe.fee.minimumFee.value.Err?
  {
    var trace := Trace([],
      [CheckingFastTransfer, FastAllowanceChecked(probe.allowanceAnswered), FastFeeChecked(probe.fee.FeeAnswered?)],
      [HttpGet(FastBurnAllowance), HttpGet(FastBurnFees(SourceDomain(Fast, source), SourceDomain(Fast, destination)))],
      None);
    match probe.fee
    case FeeRequestFailed => Run(Err(TypeError(FeeOfNull)), trace)
    case FeeAnswered(None) => Run(Err(TypeError(FeeOfUndefined)), trace)
    case FeeAnswered(Some(parsed)) => Run(parsed, trace)
  }

  /** The fast probe of a fast transfer; a standard transfer skips it and keeps a zero fee. */
  function FeeCheck(kind: TransferType, source: int, destination: int, probe: FastProbe): (r: Run<nat>)
    ensures r.trace.steps == [] && r.trace.error.None?
    ensures kind.Standard? ==> r == Run(Ok(0), Nothing)
  {
    if kind.Fast? then ProbeRun(source, destination, probe) else Run(Ok(0), Nothing)
  }

  /** The answers `approveUSDC` gets: from `switchChain`, from the allowance read, and
      from the approval write (its transaction hash). */
  datatype ApproveScript = ApproveScript(switchReply: Outcome, allowance: Result<nat>, approve: Result<string>)

  /** `approveUSDC`: switch to the source chain (a failure there propagates untouched),
      set "approving", read the allowance, and approve amount plus fee unless the
      allowance already covers it. A failure inside records "Approval failed". */
  function ApproveRun(owner: string, source: int, amount: nat, kind: TransferType, sc: ApproveScript): (r: Run<()>)
    ensures r.result.Ok? <==>
      sc.switchReply.Pass? && sc.allowance.Ok? && (NeedsApproval(sc.allowance.value, amount) ==> sc.approve.Ok?)
    ensures r.result.Err? ==>
      r.result.fault == (if sc.switchReply.Fail? then sc.switchReply.fault
                         else if sc.allowance.Err? then sc.allowance.fault
                         else sc.approve.fault)
    ensures r.trace.error == if r.result.Err? && sc.switchReply.Pass? then Some(ApprovalFailed) else None
  {
    var switched := Call(SwitchChain(source));
    if sc.switchReply.Fail? then Run(Err(sc.switchReply.fault), switched)
    else
      var start := Then(switched, Trace([Approving], [ApprovingUsdc, ApprovingTotal(ApprovalTotal(amount), amount, Fee(amount))],
                                        [ReadContract(AllowanceCall(owner, source))], None));
      match sc.allowance
      case Err(f) => Run(Err(f), Then(start, Record(ApprovalFailed)))
      case Ok(allowance) =>
        if !NeedsApproval(allowance, amount) then Run(Ok(()), Then(start, Log(AllowanceSufficient)))
        else
          var wrote := Then(start, Call(WriteContract(ApproveCall(kind, source, amount))));
          match sc.approve
          case Ok(tx) => Run(Ok(()), Then(wrote, Log(ApprovalTx(tx))))
          case Err(f) => Run(Err(f), Then(wrote, Record(ApprovalFailed)))
  }

  /** `burnUSDC`: switch to the source chain (a failure there propagates untouched), set
      "burning", and call `depositForBurn` for the kind with the padded recipient. A failed
      write records "Burn failed: …"; the transaction hash is returned. */
  function BurnRun(source: int, destination: int, amount: nat, destinationAddress: string, kind: TransferType,
                   switchReply: Outcome, burn: Result<string>): (r: Run<string>)
    ensures r.trace.steps == if switchReply.Fail? then [] else [Burning]
    ensures r.result.Ok? <==> switchReply.Pass? && burn.Ok?
    ensures r.result.Ok? ==> r.result == burn
    ensures r.trace.error == if switchReply.Pass? && burn.Err? then Some(BurnFailed(burn.fault)) else None
  {
    var switched := Call(SwitchChain(source));
    if switchReply.Fail? then Run(Err(switchReply.fault), switched)
    else
      var call := BurnCall(kind, source, destination, amount, MintRecipient(destinationAddress));
      var wrote := Then(switched, Trace([Burning], [BurningUsdc], [WriteContract(call)], None));
      match burn
      case Ok(tx) => Run(Ok(tx), Then(wrote, Log(BurnTx(tx))))
      case Err(f) => Run(Err(f), Then(wrote, Record(BurnFailed(f))))
  }

  /** `retrieveAttestation`: set "waiting-attestation", log the endpoint, poll; a fault
      that ends the poll records "Attestation retrieval failed" before it is rethrown. */
  function RetrieveRun(kind: TransferType, source: int, txHash: string, replies: seq<Reply>, keccak: seq<Byte> -> string): (r: PollRun)
    ensures r.trace.steps == [WaitingAttestation]
    ensures r.trace.error == if r.outcome.Failed? then Some(AttestationRetrievalFailed) else None
    ensures r.outcome == Poll(kind, MessagesEndpoint(kind, source, txHash), keccak, replies).outcome
  {
    var url := MessagesEndpoint(kind, source, txHash);
    var poll := Poll(kind, url, keccak, replies);
    PollQuiet(kind, url, keccak, replies);
    var start := Trace([WaitingAttestation], [RetrievingAttestation, ApiUrl(url)], [], None);
    PollRun(poll.outcome, Then(Then(start, poll.trace), if poll.outcome.Failed? then Record(AttestationRetrievalFailed) else Nothing))
  }

  /** How a transfer or resume session ends. */
  datatype Ending =
    | Finished(txHash: string)  // the mint went through
    | RetriesRanOut             // three failed mint attempts: the mint helper gave up silently
    | AwaitingAttestation       // the replies given run out while polling
    | Aborted(fault: Fault)     // the session's catch block ran with this fault

  datatype SessionRun = SessionRun(ending: Ending, trace: Trace)

  /** The catch block of `executeApprove` and `executeTransfer`: "error" and an "Error:" entry. */
  function Abort(t: Trace, f: Fault): (r: SessionRun)
    ensures r.ending == Aborted(f) && r.trace.steps == t.steps + [Error]
    ensures r.trace.steps[|r.trace.steps| - 1] == Error
  {
    SessionRun(Aborted(f), Then(t, Trace([Error], [ErrorEntry(f)], [], None)))
  }

  /** The step a transfer session shows when it ends this way. */
  function EndStep(e: Ending): Step {
    match e
    case Finished(_) => Completed
    case RetriesRanOut => Minting
    case AwaitingAttestation => WaitingAttestation
    case Aborted(_) => Error
  }

  /** The step a resume session shows when it ends this way: "completed" also when the
      mint helper gave up. */
  function ResumeEndStep(e: Ending): Step {
    match e
    case Finished(_) => Completed
    case RetriesRanOut => Completed
    case AwaitingAttestation => WaitingAttestation
    case Aborted(_) => Error
  }

  /** The session's steps follow `path`, possibly cut short by "error", and the step it
      ends on tells how it ended. */
  predicate EndsOn(r: SessionRun, path: seq<Step>, last: Step) {
    && FollowsPath(r.trace.steps, path)
    && 0 < |r.trace.steps| && r.trace.steps[|r.trace.steps| - 1] == last
  }

  /** The steps a mint stage can set, as `mintUSDC` sets them. */
  predicate MintShaped(m: MintRun) {
    && (m.outcome.Minted? ==> m.trace.steps == [Minting, Completed])
    && (m.outcome.RetriesExhausted? ==> m.trace.steps == [Minting])
    && (m.outcome.Threw? ==> m.trace.steps == [] || m.trace.steps == [Minting])
  }

  /** The probe logs no "Error:" entry and writes no contract. */
  lemma ProbeQuiet(source: int, destination: int, probe: FastProbe)
    ensures Quiet(ProbeRun(source, destination, probe).trace, {})
  {
  }

  /** `burnUSDC` logs no "Error:" entry and writes only `depositForBurn`. */
  lemma BurnQuiet(source: int, destination: int, amount: nat, destinationAddress: string, kind: TransferType,
                  switchReply: Outcome, burn: Result<string>)
    ensures Quiet(BurnRun(source, destination, amount, destinationAddress, kind, switchReply, burn).trace, {DepositForBurn})
  {
    var names := {DepositForBurn};
    var switched := Call(SwitchChain(source));
    assert Quiet(switched, names);
    if switchReply.Pass? {
      var call := BurnCall(kind, source, destination, amount, MintRecipient(destinationAddress));
      var wrote := Trace([Burning], [BurningUsdc], [WriteContract(call)], None);
      assert Quiet(wrote, names);
      ThenQuiet(switched, wrote, names);
      var last := if burn.Ok? then Log(BurnTx(burn.value)) else Record(BurnFailed(burn.fault));
      assert Quiet(last, names);
      ThenQuiet(Then(switched, wrote), last, names);
    }
  }

  /** `retrieveAttestation` logs no "Error:" entry and writes no contract. */
  lemma RetrieveQuiet(kind: TransferType, source: int, txHash: string, replies: seq<Reply>, keccak: seq<Byte> -> string)
    ensures Quiet(RetrieveRun(kind, source, txHash, replies, keccak).trace, {})
  {
    var url := MessagesEndpoint(kind, source, txHash);
    PollQuiet(kind, url, keccak, replies);
    var poll := Poll(kind, url, keccak, replies);
    var start := Trace([WaitingAttestation], [RetrievingAttestation, ApiUrl(url)], [], None);
    ThenQuiet(start, poll.trace, {});
    ThenQuiet(Then(start, poll.trace), if poll.outcome.Failed? then Record(AttestationRetrievalFailed) else Nothing, {});
  }

  /** The "Error:" entry of a session is the one its catch block writes, last. */
  predicate ErrorOnlyAtAbort(r: SessionRun) {
    var e := r.trace.entries;
    if r.ending.Aborted? then 0 < |e| && e[|e| - 1] == ErrorEntry(r.ending.fault) && NoErrorEntry(e[..|e| - 1])
    else NoErrorEntry(e)
  }

  lemma AbortQuiet(t: Trace, f: Fault, names: set<Function>)
    requires Quiet(t, names)
    ensures ErrorOnlyAtAbort(Abort(t, f)) && WritesOnly(Abort(t, f).trace.effects, names)
  {
    var e := Abort(t, f).trace.entries;
    assert e == t.entries + [ErrorEntry(f)];
    assert e[..|e| - 1] == t.entries;
    assert Abort(t, f).trace.effects == t.effects;
  }

  /** `approveUSDC` first switches to the source chain, then (if that worked) reads the
      allowance; it writes `approve` for amount plus fee exactly when the read succeeded
      and fell short, and it writes nothing else. */
  lemma ApproveCalls(owner: string, source: int, amount: nat, kind: TransferType, sc: ApproveScript)
    ensures var r := ApproveRun(owner, source, amount, kind, sc);
      var writes := sc.switchReply.Pass? && sc.allowance.Ok? && NeedsApproval(sc.allowance.value, amount);
      && 0 < |r.trace.effects| && r.trace.effects[0] == SwitchChain(source)
      && (sc.switchReply.Pass? ==> 1 < |r.trace.effects| && r.trace.effects[1] == ReadContract(AllowanceCall(owner, source)))
      && WritesOnly(r.trace.effects, {Approve})
      && (WritesOnly(r.trace.effects, {}) <==> !writes)
      && (writes ==> r.trace.effects[|r.trace.effects| - 1] == WriteContract(ApproveCall(kind, source, amount)))
  {
    var r := ApproveRun(owner, source, amount, kind, sc);
    if sc.switchReply.Pass? && sc.allowance.Ok? && NeedsApproval(sc.allowance.value, amount) {
      var i := |r.trace.effects| - 1;
      assert r.trace.effects[i].WriteContract? && r.trace.effects[i].call.name == Approve;
    }
  }

  /** `approveUSDC` sets "approving" once the switch worked, logs no "Error:" entry, and
      records "Approval failed" exactly when the allowance read or the approval write
      failed; a failed switch is thrown without it. */
  lemma ApproveErrors(owner: string, source: int, amount: nat, kind: TransferType, sc: ApproveScript)
    ensures var r := ApproveRun(owner, source, amount, kind, sc);
      var failed := sc.switchReply.Pass? && (sc.allowance.Err? || (NeedsApproval(sc.allowance.value, amount) && sc.approve.Err?));
      && r.trace.steps == (if sc.switchReply.Fail? then [] else [Approving])
      && NoErrorEntry(r.trace.entries)
      && (r.trace.error == if failed then Some(ApprovalFailed) else None)
      && (r.result.Err? <==> sc.switchReply.Fail? || failed)
  {
  }
}
