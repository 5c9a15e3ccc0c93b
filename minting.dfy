/** The `receiveMessage` call of `mintUSDC` and its retry loop, as a function of the
    outcomes of the successive write attempts. */
module Minting {
  import opened Types
  import opened Steps
  import opened Chains
  import opened Traces
  import opened TransferArgs
  import opened Attestation

  const MaxRetries: nat := 3

  /** The backoff after the n-th failed attempt is n times this, in milliseconds. */
  const RetryUnitMs: nat := 2000

  /** `err instanceof TransactionExecutionError`: the only fault the loop retries. */
  predicate IsExecutionError(f: Fault) {
    f.ExecutionError?
  }

  /** An attempt that failed in a way the loop retries. */
  predicate Retryable(outcome: Result<string>) {
    outcome.Err? && IsExecutionError(outcome.fault)
  }

  /** The message transmitter of the kind's generation. */
  function Transmitter(kind: TransferType): map<int, string> {
    if kind.Fast? then MessageTransmitterV2 else MessageTransmitterV1
  }

  function MessageArg(s: Slot<seq<Byte>>): (a: Arg)
    ensures s.Absent? <==> a.Undefined?
    ensures s.Null? <==> a.NullArg?
    ensures s.Present? ==> a == Bytes(s.value)
  {
    match s
    case Absent => Undefined
    case Null => NullArg
    case Present(m) => Bytes(m)
  }

  function AttestationArg(s: Slot<string>): (a: Arg)
    ensures s.Absent? <==> a.Undefined?
    ensures s.Null? <==> a.NullArg?
    ensures s.Present? ==> a == Hex(s.value)
  {
    match s
    case Absent => Undefined
    case Null => NullArg
    case Present(t) => Hex(t)
  }

  /** `receiveMessage(message, attestation)` on the destination chain's message
      transmitter of the kind's generation, with the two fields of the retrieved record. */
  function ReceiveMessageCall(kind: TransferType, destination: int, record: MessageRecord): (c: ContractCall)
    ensures c.name == ReceiveMessage && c.target == Lookup(Transmitter(kind), destination)
    ensures c.args == [MessageArg(record.message), AttestationArg(record.attestation)]
  {
    ContractCall(Lookup(Transmitter(kind), destination), ReceiveMessage,
      [MessageArg(record.message), AttestationArg(record.attestation)])
  }

  /** On a chain registered for its generation, the mint calls that chain's message
      transmitter of the generation with the record's message bytes and attestation; a
      null or missing field of the record is passed on as `null` or `undefined`. */
  lemma ReceiveMessageOnRegistry(kind: TransferType, destination: int, record: MessageRecord)
    requires destination in (if kind.Fast? then SupportedChainsV2 else SupportedChainsV1)
    ensures record.message.Present? && record.attestation.Present? ==>
      ReceiveMessageCall(kind, destination, record) ==
        ContractCall(Hex((if kind.Fast? then MessageTransmitterV2 else MessageTransmitterV1)[destination]), ReceiveMessage,
          [Bytes(record.message.value), Hex(record.attestation.value)])
    ensures record.attestation.Null? ==> ReceiveMessageCall(kind, destination, record).args[1] == NullArg
    ensures record.attestation.Absent? ==> ReceiveMessageCall(kind, destination, record).args[1] == Undefined
  {
    SupportedV2Covered();
    SupportedV1Covered();
  }

  datatype MintOutcome =
    | Minted(txHash: string)  // an attempt went through: "Mint Tx" and "completed"
    | RetriesExhausted        // three execution errors: the loop ends without throwing
    | Threw(fault: Fault)     // any other fault is rethrown at once

  datatype MintRun = MintRun(outcome: MintOutcome, trace: Trace)

  /** The retry loop with `retries` attempts already failed; `writes(k)` is the outcome
      of the attempt made after k failures. */
  function MintLoop(call: ContractCall, writes: nat -> Result<string>, retries: nat): (r: MintRun)
    requires retries <= MaxRetries
    ensures r.outcome.Minted? ==> exists k :: retries <= k < MaxRetries && writes(k) == Ok(r.outcome.txHash)
    ensures r.outcome.Threw? ==>
      !IsExecutionError(r.outcome.fault) && exists k :: retries <= k < MaxRetries && writes(k) == Err(r.outcome.fault)
    ensures r.outcome.RetriesExhausted? <==> forall k :: retries <= k < MaxRetries ==> Retryable(writes(k))
    decreases MaxRetries - retries
  {
    if retries == MaxRetries then MintRun(RetriesExhausted, Nothing)
    else match writes(retries)
      case Ok(tx) => MintRun(Minted(tx), Trace([Completed], [MintTx(tx)], [WriteContract(call)], None))
      case Err(f) =>
        if IsExecutionError(f) then
          var rest := MintLoop(call, writes, retries + 1);
          MintRun(rest.outcome,
            Then(Trace([], [RetryAttempt(retries + 1, MaxRetries)], [WriteContract(call), Sleep(RetryUnitMs * (retries + 1))], None),
                 rest.trace))
        else MintRun(Threw(f), Trace([], [], [WriteContract(call)], None))
  }

  /** How many attempts from `from` on fail with an execution error, in a row. */
  function FailedAttempts(writes: nat -> Result<string>, from: nat): (k: nat)
    requires from <= MaxRetries
    ensures from + k <= MaxRetries
    decreases MaxRetries - from
  {
    if from == MaxRetries || !Retryable(writes(from)) then 0 else 1 + FailedAttempts(writes, from + 1)
  }

  /** The count stops at the first attempt that is not retried, or at three. */
  lemma {:induction false} FailedAttemptsCount(writes: nat -> Result<string>, from: nat)
    requires from <= MaxRetries
    ensures var k := FailedAttempts(writes, from);
      && (forall j :: from <= j < from + k ==> Retryable(writes(j)))
      && (from + k < MaxRetries ==> !Retryable(writes(from + k)))
    decreases MaxRetries - from
  {
    if from < MaxRetries && Retryable(writes(from)) {
      FailedAttemptsCount(writes, from + 1);
    }
  }

  /** The writes and backoffs of the failed attempts `from`+1 to `to`. */
  function Backoffs(call: ContractCall, from: nat, to: nat): (effects: seq<Effect>)
    ensures |effects| == (if from < to then 2 * (to - from) else 0)
    decreases if to <= from then 0 else to - from
  {
    if to <= from then [] else [WriteContract(call), Sleep(RetryUnitMs * (from + 1))] + Backoffs(call, from + 1, to)
  }

  /** The "Retry n/3" entries of the failed attempts `from`+1 to `to`. */
  function RetryEntries(from: nat, to: nat): (entries: seq<LogEntry>)
    decreases if to <= from then 0 else to - from
  {
    if to <= from then [] else [RetryAttempt(from + 1, MaxRetries)] + RetryEntries(from + 1, to)
  }

  /** The attempt that ends the loop: the first one that does not fail with an execution
      error decides, and after three such failures the loop gives up. */
  lemma {:induction false} MintLoopOutcome(call: ContractCall, writes: nat -> Result<string>, from: nat)
    requires from <= MaxRetries
    ensures var n := from + FailedAttempts(writes, from);
      MintLoop(call, writes, from).outcome ==
        if n == MaxRetries then RetriesExhausted
        else if writes(n).Ok? then Minted(writes(n).value)
        else Threw(writes(n).fault)
    decreases MaxRetries - from
  {
    if from < MaxRetries && Retryable(writes(from)) {
      MintLoopOutcome(call, writes, from + 1);
    }
  }

  /** The loop's calls in closed form: each failed attempt's write and backoff, then the
      write that ended the loop unless three attempts failed. */
  lemma {:induction false} MintLoopEffects(call: ContractCall, writes: nat -> Result<string>, from: nat)
    requires from <= MaxRetries
    ensures var n := from + FailedAttempts(writes, from);
      MintLoop(call, writes, from).trace.effects == Backoffs(call, from, n) + (if n < MaxRetries then [WriteContract(call)] else [])
    decreases MaxRetries - from
  {
    if from < MaxRetries && Retryable(writes(from)) {
      MintLoopEffects(call, writes, from + 1);
      var n := from + FailedAttempts(writes, from);
      var rest := MintLoop(call, writes, from + 1).trace.effects;
      var head := [WriteContract(call), Sleep(RetryUnitMs * (from + 1))];
      var last: seq<Effect> := if n < MaxRetries then [WriteContract(call)] else [];
      calc {
        MintLoop(call, writes, from).trace.effects;
        head + rest;
        head + (Backoffs(call, from + 1, n) + last);
        (head + Backoffs(call, from + 1, n)) + last;
      }
    }
  }

  /** The loop's log in closed form: a "Retry n/3" entry per failed attempt, then "Mint Tx"
      if an attempt went through. */
  lemma {:induction false} MintLoopEntries(call: ContractCall, writes: nat -> Result<string>, from: nat)
    requires from <= MaxRetries
    ensures var n := from + FailedAttempts(writes, from);
      MintLoop(call, writes, from).trace.entries ==
        RetryEntries(from, n) + (if n < MaxRetries && writes(n).Ok? then [MintTx(writes(n).value)] else [])
    decreases MaxRetries - from
  {
    if from < MaxRetries && Retryable(writes(from)) {
      MintLoopEntries(call, writes, from + 1);
      var n := from + FailedAttempts(writes, from);
      var rest := MintLoop(call, writes, from + 1).trace.entries;
      var head := [RetryAttempt(from + 1, MaxRetries)];
      var minted: seq<LogEntry> := if n < MaxRetries && writes(n).Ok? then [MintTx(writes(n).value)] else [];
      calc {
        MintLoop(call, writes, from).trace.entries;
        head + rest;
        head + (RetryEntries(from + 1, n) + minted);
        (head + RetryEntries(from + 1, n)) + minted;
      }
    }
  }

  /** The loop sets "completed" exactly when an attempt went through, sets nothing else,
      records no error and logs no "Error:" entry; it only rethrows faults that are not
      execution errors. */
  lemma {:induction false} MintLoopQuiet(call: ContractCall, writes: nat -> Result<string>, from: nat)
    requires from <= MaxRetries
    ensures var r := MintLoop(call, writes, from);
      && r.trace.steps == (if r.outcome.Minted? then [Completed] else [])
      && r.trace.error.None? && NoErrorEntry(r.trace.entries)
      && WritesOnly(r.trace.effects, {call.name})
      && (r.outcome.Threw? ==> !IsExecutionError(r.outcome.fault))
    decreases MaxRetries - from
  {
    if from < MaxRetries && Retryable(writes(from)) {
      MintLoopQuiet(call, writes, from + 1);
      var rest := MintLoop(call, writes, from + 1);
      NoErrorEntryAppend([RetryAttempt(from + 1, MaxRetries)], rest.trace.entries);
      WritesOnlyAppend([WriteContract(call), Sleep(RetryUnitMs * (from + 1))], rest.trace.effects, {call.name});
    }
  }

  /** The loop gives up silently exactly when the first three attempts all fail with an
      execution error; it mints exactly when an attempt succeeds before that. */
  lemma MintOutcomes(call: ContractCall, writes: nat -> Result<string>)
    ensures MintLoop(call, writes, 0).outcome.RetriesExhausted? <==>
      Retryable(writes(0)) && Retryable(writes(1)) && Retryable(writes(2))
    ensures MintLoop(call, writes, 0).outcome.Minted? <==>
      exists k :: 0 <= k < MaxRetries && writes(k).Ok? && forall j :: 0 <= j < k ==> Retryable(writes(j))
  {
    MintLoopOutcome(call, writes, 0);
    FailedAttemptsCount(writes, 0);
    var n := FailedAttempts(writes, 0);
    if MintLoop(call, writes, 0).outcome.Minted? {
      assert writes(n).Ok? && forall j :: 0 <= j < n ==> Retryable(writes(j));
    }
    if exists k :: 0 <= k < MaxRetries && writes(k).Ok? && forall j :: 0 <= j < k ==> Retryable(writes(j)) {
      var k :| 0 <= k < MaxRetries && writes(k).Ok? && forall j :: 0 <= j < k ==> Retryable(writes(j));
      assert !Retryable(writes(k));
      assert n == k;
    }
  }

  /** Three execution errors in a row: three writes, each followed by a longer wait
      (2, 4 then 6 seconds), three "Retry" entries, and no "Mint Tx". */
  lemma ExhaustedRetries(call: ContractCall, writes: nat -> Result<string>)
    requires Retryable(writes(0)) && Retryable(writes(1)) && Retryable(writes(2))
    ensures MintLoop(call, writes, 0).outcome == RetriesExhausted
    ensures MintLoop(call, writes, 0).trace.effects ==
      [WriteContract(call), Sleep(2000), WriteContract(call), Sleep(4000), WriteContract(call), Sleep(6000)]
    ensures MintLoop(call, writes, 0).trace.entries ==
      [RetryAttempt(1, 3), RetryAttempt(2, 3), RetryAttempt(3, 3)]
  {
    assert FailedAttempts(writes, 0) == 3;
    MintLoopOutcome(call, writes, 0);
    MintLoopEffects(call, writes, 0);
    MintLoopEntries(call, writes, 0);
  }

  /** What `mintUSDC` does: switch to the destination chain, set "minting", then retry. A
      failed switch is thrown before the step is set. */
  function MintUSDC(kind: TransferType, destination: int, record: MessageRecord, switchReply: Outcome, writes: nat -> Result<string>): (r: MintRun)
    ensures switchReply.Fail? ==> r.outcome == Threw(switchReply.fault)
    ensures r.outcome.Minted? ==>
      switchReply.Pass? && exists k :: 0 <= k < MaxRetries && writes(k) == Ok(r.outcome.txHash)
    ensures r.outcome.RetriesExhausted? <==>
      switchReply.Pass? && forall k :: 0 <= k < MaxRetries ==> Retryable(writes(k))
  {
    var switched := Trace([], [], [SwitchChain(destination)], None);
    if switchReply.Fail? then MintRun(Threw(switchReply.fault), switched)
    else
      var loop := MintLoop(ReceiveMessageCall(kind, destination, record), writes, 0);
      MintRun(loop.outcome, Then(Then(switched, Trace([Minting], [MintingUsdc], [], None)), loop.trace))
  }

  /** `mintUSDC` switches to the destination chain first; a failed switch is thrown before
      "minting" is set; otherwise it sets "minting", then "completed" only when an attempt
      went through, and records no error. */
  lemma MintSteps(kind: TransferType, destination: int, record: MessageRecord, switchReply: Outcome, writes: nat -> Result<string>)
    ensures var r := MintUSDC(kind, destination, record, switchReply, writes);
      && 0 < |r.trace.effects| && r.trace.effects[0] == SwitchChain(destination)
      && r.trace.error.None? && NoErrorEntry(r.trace.entries)
      && WritesOnly(r.trace.effects, {ReceiveMessage})
      && (switchReply.Fail? ==> r.outcome == Threw(switchReply.fault) && r.trace.steps == [])
      && (switchReply.Pass? ==> r.trace.steps == if r.outcome.Minted? then [Minting, Completed] else [Minting])
      && (r.outcome.Threw? && switchReply.Pass? ==> !IsExecutionError(r.outcome.fault))
  {
    var call := ReceiveMessageCall(kind, destination, record);
    MintLoopQuiet(call, writes, 0);
    if switchReply.Pass? {
      var loop := MintLoop(call, writes, 0);
      NoErrorEntryAppend([MintingUsdc], loop.trace.entries);
      WritesOnlyAppend([SwitchChain(destination)], loop.trace.effects, {ReceiveMessage});
    }
  }
}
