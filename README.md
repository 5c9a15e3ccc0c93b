# Cross-chain USDC transfer hook, modelled in Dafny

This project models `useCrossChainTransfer`, the React hook that moves USDC between chains
with Circle's Cross-Chain Transfer Protocol. It also models the static chain registry that
the hook reads. The hook supports two kinds of transfer:

- a **standard** transfer runs on CCTP V1: approve, then `depositForBurn` on TokenMessenger V1,
  then poll `/v1/messages` and `/v1/attestations`, then `receiveMessage` on MessageTransmitter V1;
- a **fast** transfer runs on CCTP V2: probe the fast-burn allowance and fee endpoints, burn with
  a fee cap and finality threshold 1000, poll `/v2/messages`, then mint on MessageTransmitter V2.

The model has these parts:

| file | module | what it holds |
|---|---|---|
| `types.dfy` | `Types` | The shared values: the transfer kinds, the faults the hook's catch blocks see, adapter arguments, contract calls, attestation endpoints, log entries and session errors. |
| `chains.dfy` | `Chains` | The registry in `src/lib/chains.ts`: the `SupportedChainId` enum, the name, USDC, messenger, transmitter and domain tables, and the two supported-chain lists. Each is a constant map or sequence, with lemmas for injectivity and coverage. |
| `bytes.dfy` | `Bytes` | Big-endian uint32, lowercase hex, `toLowerCase` on ASCII letters, `padStart` and the `^0x` strip. |
| `message_codec.dfy` | `MessageCodec` | `parseCrossChainMessage`, plus CCTP V1 and V2 header encoders used to state round trips. |
| `domain_lookup.dfy` | `DomainLookup` | `getChainIdFromDomain` as a search over the V2 domain table in key order. |
| `transfer_args.dfy` | `TransferArgs` | The fee, the approval total, the allowance and approve calls, `mintRecipient` and the `depositForBurn` argument lists. |
| `attestation.dfy` | `Attestation` | One pass of the `retrieveAttestation` loop (`Round`) and the loop over a sequence of service replies (`Poll`). |
| `minting.dfy` | `Minting` | The `mintUSDC` retry loop over the outcomes of successive `receiveMessage` writes. |
| `steps.dfy`, `traces.dfy` | `Steps`, `Traces` | The `TransferStep`/`ResumeStep` values and their order. A `Trace` is what one operation does to a session: steps set, log entries appended, calls made and the error recorded. |
| `workflow.dfy` | `Workflow` | The fast probe, `approveUSDC`, `burnUSDC` and `retrieveAttestation` as functions of what their collaborators answer. |
| `execute_approve.dfy`, `execute_transfer.dfy`, `resume_transfer.dfy` | `ExecuteApprove`, `ExecuteTransfer`, `ResumeTransfer` | The three session operations as specification functions, with lemmas about step order, errors, logs and contract writes. |
| `hook.dfy` | `Hook` | The hook itself. The class `CrossChainTransfer` has the hook's state fields: `currentStep`, `logs`, `error`, `resumeStep`, `resumeLogs`, `resumeError` and `isResuming`. Its methods update those fields in place. The polling and mint loops are `while` loops proved equal to the specification functions. |

Every wallet, RPC and HTTP call is a scripted input. This covers `switchChain`, `readContract`, `writeContract`, `waitForTransactionReceipt` and `axios.get`. The inputs are:

- one answer per call;
- a finite sequence of replies for the polling loop;
- a function from attempt number to outcome for the mint loop;
- an uninterpreted function for `keccak256`.

The class also records, in its ghost field `effects`, every call the hook makes, in order: switches, reads, writes, receipt waits, HTTP GETs and sleeps with their durations. The ghost fields `trail` and `resumeTrail` record every step value set since the last reset. These three fields exist only for the proofs; the hook has no such state.

The model follows the code in these places:

- **The fee parameter of `approveUSDC` is never used.** `approveUSDC` takes a parameter `maxFee` that defaults to 0 (src/hooks/use-cross-chain-transfer.ts:227). Inside its `try` block it declares a new `maxFee = ceil(amount / 10000)` (line 240), which shadows the parameter for both kinds. The approval total is therefore `amount + fee` for a standard transfer too.
- **Worked example.** For `amount = 1_000_000` the fee is 100 (`FeeExamples`).

The model is faithful to these code behaviours:

- **Decoder offsets.** `parseCrossChainMessage` reads the same offsets for both generations. On a V2 message, bytes [76,108) are the header's recipient field, and the 20 bytes read, [88,108), are its low 20 bytes. On a V1 message the recipient field is [52,84) and the destination-caller field is [84,116), so the 20 bytes read are bytes 4 to 23 of the destination-caller field (`ParseV1`).
- **Allowance spender.** `approveUSDC` reads the allowance with the V2 token messenger as spender, even for a standard transfer, whose approval is given to the V1 messenger (`StandardAllowanceReadsFastSpender`).

## Model

| member | source | states |
|---|---|---|
| `Bytes.UInt32RoundTrip` | src/hooks/use-cross-chain-transfer.ts:81-82 | reading a big-endian uint32 back from the 4 bytes that encode it gives the value |
| `Bytes.ReadUInt32BE` | src/hooks/use-cross-chain-transfer.ts:81-82 | a big-endian uint32 read is below 2^32 |
| `Bytes.ReadUInt32Inverse` | src/hooks/use-cross-chain-transfer.ts:81-82 | re-encoding the value read gives back the four bytes read: the first byte is the most significant |
| `Bytes.ParseLowerHex` | src/hooks/use-cross-chain-transfer.ts:86 | the lowercase hex text of a byte string decodes back to the same bytes |
| `Bytes.LowerHexInjective` | src/hooks/use-cross-chain-transfer.ts:86 | two byte strings with the same hex text are equal |
| `Bytes.ToLower` | src/hooks/use-cross-chain-transfer.ts:371-372 | lower-casing keeps the length, maps each character through ASCII `toLowerCase`, and leaves no upper-case ASCII letter |
| `Bytes.StripHexPrefix` | src/hooks/use-cross-chain-transfer.ts:373 | the result is the input with one leading "0x" removed: it differs from the input exactly when the input starts with "0x" |
| `Bytes.ToLowerIdempotent` | src/hooks/use-cross-chain-transfer.ts:371-372 | lowercasing an already lowercased string changes nothing |
| `Bytes.PadStart` | src/hooks/use-cross-chain-transfer.ts:374 | `padStart` yields a string of the requested width, or the string's own length when it is already wider |
| `Bytes.LowerHexOfZeros` | src/hooks/use-cross-chain-transfer.ts:374 | n zero bytes are written as 2n '0' characters, which is what left-padding with '0' adds |
| `MessageCodec.ParseCrossChainMessage` | src/hooks/use-cross-chain-transfer.ts:77-93 | the decoder throws iff the message has fewer than 12 bytes: a range error at offset 4 below 8 bytes, at offset 8 below 12. On success the source and destination domains are the big-endian words whose bytes are [4,8) and [8,12), and the recipient is "0x" followed by hex text that decodes back to exactly the clamped recipient slice, at most 42 characters |
| `MessageCodec.RecipientBytes` | src/hooks/use-cross-chain-transfer.ts:85-86 | the recipient bytes are [88,108) when the message has at least 108 bytes, [88,end) when it has between 89 and 107, empty when it has at most 88, and never more than 20 |
| `MessageCodec.ParseV2` | src/hooks/use-cross-chain-transfer.ts:77-93 | encoding a well-formed CCTP V2 message and decoding it returns its source domain, its destination domain and the low 20 bytes of its recipient field as lowercase hex |
| `MessageCodec.ParseV1` | src/hooks/use-cross-chain-transfer.ts:77-93 | on a well-formed CCTP V1 message the same offsets return its domains, and as "recipient" bytes 4 to 24 of its destinationCaller field |
| `MessageCodec.PaddedAddressRecovered` | src/hooks/use-cross-chain-transfer.ts:85-86 | a 20-byte address left-padded into the bytes32 recipient field is decoded exactly and parses back to the same bytes |
| `MessageCodec.RecipientPaddingIgnored` | src/hooks/use-cross-chain-transfer.ts:85-86 | two V2 messages whose recipient fields differ only in the high 12 bytes decode identically |
| `Chains.ChainIdsDistinct` | src/lib/chains.ts:3-23 | the enum's chain ids are pairwise distinct, and neither supported-chain list repeats a chain |
| `Chains.DomainsV2Injective` | src/lib/chains.ts:144-155 | no two chains share a V2 domain, and the V2 domains are exactly 0, 1, 3, 6 and 11 |
| `Chains.DomainsV1Injective` | src/lib/chains.ts:157-165 | no two chains share a V1 domain, and the V1 domains are exactly 0, 1, 2, 3, 6, 7 and 10 |
| `Chains.SharedDomainsAgree` | src/lib/chains.ts:144-165 | a chain in both domain tables has the same domain in each, and those chains are exactly Ethereum, Avalanche, Arbitrum and Base |
| `Chains.SupportedV2Covered` | src/lib/chains.ts:178-189 | every chain supported for fast transfers has a V2 domain, V2 messenger, V2 transmitter, USDC address and V2 name |
| `Chains.SupportedV1Covered` | src/lib/chains.ts:167-176 | every chain supported for standard transfers has a V1 domain, V1 messenger, V1 transmitter, USDC address and V1 name |
| `Chains.GenerationOnlyDomains` | src/lib/chains.ts:144-165 | domains 2, 7 and 10 (Optimism, Polygon, Unichain) have no V2 chain, and domain 11 (Linea) has no V1 chain |
| `Chains.DomainEntryOrderV2Exact` | src/lib/chains.ts:144-155 | the order in which `Object.entries` lists the V2 domain table (integer keys ascending) visits every key exactly once |
| `DomainLookup.FindChain` | src/hooks/use-cross-chain-transfer.ts:835-837 | `find` returns a listed key whose domain is the one sought, and returns nothing only when no listed key has it |
| `DomainLookup.GetChainIdFromDomain` | src/hooks/use-cross-chain-transfer.ts:834-844 | a resolved chain has the sought domain in the V2 table; a miss throws "No chain found for domain d" and happens only when no V2 chain has that domain |
| `DomainLookup.ReverseLookupInvertsV2` | src/hooks/use-cross-chain-transfer.ts:834-844 | looking up the V2 domain of any V2 chain returns that chain |
| `DomainLookup.UnknownDomainRejected` | src/hooks/use-cross-chain-transfer.ts:834-844 | the lookup succeeds iff the domain is 0, 1, 3, 6 or 11, and otherwise throws for that domain |
| `DomainLookup.V1OnlyChainsNotResolved` | src/hooks/use-cross-chain-transfer.ts:834-844 | a message whose destination is a V1-only chain cannot be resolved, because only the V2 table is searched |
| `DomainLookup.SharedChainsResolvedFromV1` | src/hooks/use-cross-chain-transfer.ts:834-844 | the V1 domain of a chain in both tables resolves to that chain |
| `TransferArgs.Fee` | src/hooks/use-cross-chain-transfer.ts:240 | the fee is the ceiling of amount / 10000 (the least fee with fee·10000 ≥ amount) and never exceeds the amount |
| `TransferArgs.ApprovalTotal` | src/hooks/use-cross-chain-transfer.ts:241 | the approved total lies between the amount and twice the amount, and covers 1.0001 times the amount |
| `TransferArgs.FeeExamples` | src/hooks/use-cross-chain-transfer.ts:240-241 | worked values: the fee of 0 is 0, of 1 and 10000 is 1, of 10001 is 2, of 1_000_000 is 100 and of 10_000_000 is 1000 |
| `TransferArgs.AllowanceOnRegistry` | src/hooks/use-cross-chain-transfer.ts:265 | on a fast-transfer chain, the allowance is read from that chain's USDC contract for the owner and the chain's V2 token messenger, whatever the transfer kind |
| `TransferArgs.AllowanceSpenderUndefinedOffV2` | src/hooks/use-cross-chain-transfer.ts:265 | on a chain offered only for standard transfers, the spender whose allowance is read is `undefined` |
| `TransferArgs.ApproveOnRegistry` | src/hooks/use-cross-chain-transfer.ts:273-288 | on a chain of the kind's generation, the approval goes to its USDC contract, names the V1 messenger (standard) or V2 messenger (fast) as spender, and asks for amount + ceil(amount/10000) |
| `TransferArgs.FastAllowanceMatchesSpender` | src/hooks/use-cross-chain-transfer.ts:265-288 | for a fast transfer the allowance is read for the same spender that is approved |
| `TransferArgs.StandardAllowanceReadsFastSpender` | src/hooks/use-cross-chain-transfer.ts:265-288 | for a standard transfer on a V1 chain, the spender whose allowance is read differs from the spender approved |
| `TransferArgs.BurnMaxFee` | src/hooks/use-cross-chain-transfer.ts:341-345 | the burn's fee cap is 0 for standard, and for fast the same fee the approval added to the amount |
| `TransferArgs.MintRecipient` | src/hooks/use-cross-chain-transfer.ts:371-374 | the mint recipient starts with "0x" and is 66 characters (a bytes32) whenever the address has at most 64 hex digits |
| `TransferArgs.MintRecipientPadsAddress` | src/hooks/use-cross-chain-transfer.ts:371-374 | a 20-byte address written "0x"+hex becomes the hex of 12 zero bytes followed by the address: left-padding into bytes32 |
| `TransferArgs.MintRecipientIgnoresCase` | src/hooks/use-cross-chain-transfer.ts:371-372 | the mint recipient does not depend on the letter case of the address |
| `TransferArgs.FastBurnOnRegistry` | src/hooks/use-cross-chain-transfer.ts:379-408 | between fast-transfer chains, `depositForBurn` goes to the source's V2 messenger with amount, destination V2 domain, recipient, source USDC, recipient as caller, fee ceil(amount/10000), threshold 1000 |
| `TransferArgs.StandardBurnOnRegistry` | src/hooks/use-cross-chain-transfer.ts:409-436 | between standard-transfer chains, `depositForBurn` goes to the source's V1 messenger with exactly amount, destination V1 domain, recipient and source USDC |
| `TransferArgs.ApprovalCoversBurn` | src/hooks/use-cross-chain-transfer.ts:240-241 | the fast burn spends exactly the approved total (amount plus its fee cap); the standard burn spends the amount, no more than approved; a positive amount always has a positive fee |
| `TransferArgs.BurnArgumentsDefined` | src/hooks/use-cross-chain-transfer.ts:400-435 | between chains supported for the kind, the burn's target and every argument are defined |
| `Attestation.FirstRecord` | src/hooks/use-cross-chain-transfer.ts:514-521 | `messages[0]` exists iff the reply has a non-empty `messages` array |
| `Attestation.SourceDomain` | src/hooks/use-cross-chain-transfer.ts:502 | the source domain is looked up in the V2 table for fast and the V1 table for standard, and is missing exactly when the chain is not there |
| `Attestation.EndpointOnRegistry` | src/hooks/use-cross-chain-transfer.ts:502-503 | for a chain of the kind's generation, fast polls `/v2/messages` and standard `/v1/messages`, with that chain's domain and the burn's hash |
| `Attestation.Round` | src/hooks/use-cross-chain-transfer.ts:512-563 | a pass returns a record iff the replies show it finished (`ReadyRecord`: fast, first record "complete"; standard, first record has a message and the attestation endpoint says "complete"), and returns that record. A rejected GET throws exactly when it is not a 404, with its own fault |
| `Attestation.RoundShape` | src/hooks/use-cross-chain-transfer.ts:512-563 | one pass starts with a GET of the messages endpoint and sets no step, records no error and writes no contract. A pass that loops ends with its one 5000 ms wait; a pass that stops has no wait. A thrown fault is never a 404. Fast returns only a "complete" record; standard returns only a record with a message, after a GET of `/v1/attestations/{keccak256(message)}` |
| `Attestation.Poll` | src/hooks/use-cross-chain-transfer.ts:511-564 | replies that already show the attestation finished make the loop return that record; a first GET rejected with anything but a 404 makes it fail with that fault |
| `Attestation.PollQuiet` | src/hooks/use-cross-chain-transfer.ts:511-564 | the whole polling loop sets no step, records no error, logs no "Error:" line and writes no contract |
| `Attestation.PollResult` | src/hooks/use-cross-chain-transfer.ts:511-564 | the loop fails only on a non-404 error; fast returns a record whose status is "complete"; standard returns a record that has a message |
| `Attestation.PollRetrievedEntry` | src/hooks/use-cross-chain-transfer.ts:514-537 | when the loop returns, its last log line is "Attestation retrieved!" |
| `Attestation.PollRetrievedHash` | src/hooks/use-cross-chain-transfer.ts:521-537 | when a standard poll returns, its last request was `/v1/attestations/` for the keccak256 of the returned record's own message |
| `Attestation.PollSpacing` | src/hooks/use-cross-chain-transfer.ts:541-555 | successive polls of the messages endpoint are separated by exactly one 5000 ms wait, and no wait is followed by anything but a new poll |
| `Attestation.PollStartsWithRequest` | src/hooks/use-cross-chain-transfer.ts:513 | the loop's first action is a GET of the messages endpoint |
| `Attestation.NotFoundRetried` | src/hooks/use-cross-chain-transfer.ts:548-555 | a 404 is logged and followed by one wait and a retry: the loop ends as it would on the remaining replies |
| `Attestation.FastPollExample` | src/hooks/use-cross-chain-transfer.ts:511-564 | two 404s and then a "complete" reply: three GETs separated by two waits, two "not found" lines, then the record |
| `Attestation.ReadyRecordReturned` | src/hooks/use-cross-chain-transfer.ts:514-537 | when the first replies show the attestation finished, the loop returns that record at once, logging "Attestation retrieved!"; a standard poll makes exactly its two GETs, whatever the record's own status says |
| `Attestation.FastPollDecidedAt` | src/hooks/use-cross-chain-transfer.ts:511-564 | after any run of 404s and unfinished replies, a fast poll returns the record of the first "complete" reply, and fails with the first fault other than a 404 |
| `Attestation.PollRetrievedFrom` | src/hooks/use-cross-chain-transfer.ts:511-564 | every record the loop returns is the one the replies show finished at the start of some pass (`PassStart`: every earlier pass looped), and the loop run from that pass on ends the same way |
| `Minting.FailedAttempts` | src/hooks/use-cross-chain-transfer.ts:634 | the loop never attempts more than three writes |
| `Minting.FailedAttemptsCount` | src/hooks/use-cross-chain-transfer.ts:672-681 | the count of failed attempts is the length of the run of execution errors, cut off at three |
| `Minting.MintLoopOutcome` | src/hooks/use-cross-chain-transfer.ts:634-684 | after the execution errors, a success returns its hash, any other error is rethrown unchanged, and three execution errors end the loop without throwing |
| `Minting.MintLoopEffects` | src/hooks/use-cross-chain-transfer.ts:656-679 | each failed attempt is a write followed by a wait of 2000·k ms for the k-th retry, then the one final write unless retries ran out |
| `Minting.MintLoopEntries` | src/hooks/use-cross-chain-transfer.ts:663-677 | the loop logs "Retry k/3" for each failed attempt, then "Mint Tx" for a success |
| `Minting.MintLoopQuiet` | src/hooks/use-cross-chain-transfer.ts:663-682 | "completed" is set iff a write succeeded. The loop records no error and writes only `receiveMessage`. A rethrown fault is never an execution error |
| `Minting.MintOutcomes` | src/hooks/use-cross-chain-transfer.ts:634-684 | retries run out iff all three writes fail with execution errors; the mint succeeds iff some write among the first three succeeds after only execution errors |
| `Minting.ExhaustedRetries` | src/hooks/use-cross-chain-transfer.ts:672-679 | three execution errors give three writes with waits of 2000, 4000 and 6000 ms and the lines "Retry 1/3" to "Retry 3/3" |
| `Minting.MintSteps` | src/hooks/use-cross-chain-transfer.ts:613-685 | minting first switches to the destination chain; a failed switch sets no step; otherwise it sets "minting", then "completed" only on success |
| `Minting.ReceiveMessageOnRegistry` | src/hooks/use-cross-chain-transfer.ts:636-661 | on a chain of the kind's generation, `receiveMessage` goes to that chain's V1 or V2 transmitter with the record's message bytes and attestation; a null or missing attestation is passed as `null` or `undefined` |
| `Minting.MintLoop` | src/hooks/use-cross-chain-transfer.ts:634-684 | a minted hash is the answer of one of the three attempts; a rethrown fault is an attempt's own fault and never an execution error; retries run out iff every attempt failed with an execution error |
| `Minting.MintUSDC` | src/hooks/use-cross-chain-transfer.ts:613-685 | a failed switch is rethrown; a mint happens only after a successful switch, with one attempt's hash; retries run out iff the switch worked and all three attempts failed with execution errors |
| `Workflow.ProbeRun` | src/hooks/use-cross-chain-transfer.ts:567-611 | the fast probe sets no step and records no error, and fails exactly when the fee request failed or its reply has no usable `minimumFee` |
| `Workflow.FeeCheck` | src/hooks/use-cross-chain-transfer.ts:735-742 | a standard transfer skips the probe and does nothing; neither kind sets a step or records an error here |
| `Workflow.BurnRun` | src/hooks/use-cross-chain-transfer.ts:325-485 | the burn sets "burning" unless the switch fails. It returns the write's hash iff the switch and write succeed. It records "Burn failed" with the write's cause exactly when the write fails |
| `Workflow.RetrieveRun` | src/hooks/use-cross-chain-transfer.ts:487-565 | retrieval sets "waiting-attestation", ends as the polling loop ends, and records "Attestation retrieval failed" exactly when the loop fails |
| `Workflow.Abort` | src/hooks/use-cross-chain-transfer.ts:781-786 | a caught error ends the session on "error" |
| `Workflow.ProbeQuiet` | src/hooks/use-cross-chain-transfer.ts:567-611 | the probe logs no "Error:" line and writes no contract |
| `Workflow.BurnQuiet` | src/hooks/use-cross-chain-transfer.ts:325-485 | the burn logs no "Error:" line and writes only `depositForBurn` |
| `Workflow.RetrieveQuiet` | src/hooks/use-cross-chain-transfer.ts:487-565 | retrieval logs no "Error:" line and writes no contract |
| `Workflow.AbortQuiet` | src/hooks/use-cross-chain-transfer.ts:781-786 | after a quiet run, a caught error adds exactly one "Error:" line, the last, and no contract write |
| `Workflow.ApproveCalls` | src/hooks/use-cross-chain-transfer.ts:222-323 | approval first switches to the source chain, then reads the allowance. It writes only `approve`, and does so iff the allowance read succeeds and is below the total; that write is its last call |
| `Workflow.ApproveErrors` | src/hooks/use-cross-chain-transfer.ts:222-323 | approval sets "approving" unless the switch fails. It logs no "Error:" line. It records "Approval failed" exactly when the allowance read or the approve write fails, and fails exactly then or when the switch fails |
| `Workflow.ApproveRun` | src/hooks/use-cross-chain-transfer.ts:222-323 | approval succeeds iff the switch and the allowance read work and, when the allowance falls short, the approve write works; a failure carries the first fault; "Approval failed" is recorded exactly for failures after the switch |
| `ExecuteApprove.ExecuteApproveSteps` | src/hooks/use-cross-chain-transfer.ts:687-710 | the session shows "approving" or "error", and "error" exactly when the fast probe or the approval failed |
| `ExecuteApprove.ExecuteApproveWrites` | src/hooks/use-cross-chain-transfer.ts:687-710 | the only contract write is the one `approve`, issued iff the allowance read succeeded and fell short of the total |
| `ExecuteApprove.ExecuteApproveEffects` | src/hooks/use-cross-chain-transfer.ts:687-710 | the calls are those of the fast probe, then, unless the probe threw, those of the approval |
| `ExecuteApprove.ExecuteApproveErrors` | src/hooks/use-cross-chain-transfer.ts:687-710 | a failure ends the log with exactly one "Error:" line naming the fault. "Approval failed" is recorded exactly when the probe passed and the allowance read or the approve write failed |
| `ExecuteApprove.ExecuteApproveRun` | src/hooks/use-cross-chain-transfer.ts:687-710 | the session succeeds iff the fast probe and the approval succeed; a failure carries the first fault and ends the log with an "Error:" line naming it |
| `ExecuteTransfer.TransferTrails` | src/hooks/use-cross-chain-transfer.ts:712-787 | every trail a transfer can leave (cut short by "error" at each stage, or waiting on the attestation) follows the transfer order |
| `ExecuteTransfer.FlowSteps` | src/hooks/use-cross-chain-transfer.ts:712-787 | a transfer's steps follow burning, waiting-attestation, minting, completed, possibly cut short by "error", and the last step tells how it ended. Minting is reached only after the probe, the burn, a "success" receipt and the attestation all succeeded |
| `ExecuteTransfer.FlowStepsBeforeAttestation` | src/hooks/use-cross-chain-transfer.ts:747-768 | a failed probe, a failed burn or a receipt that is not "success" aborts the transfer before minting |
| `ExecuteTransfer.FlowStepsWhilePolling` | src/hooks/use-cross-chain-transfer.ts:770-772 | a transfer whose attestation is not retrieved is still waiting or aborted, and never mints |
| `ExecuteTransfer.FlowStepsAfterAttestation` | src/hooks/use-cross-chain-transfer.ts:772-779 | after a retrieved attestation the trail still follows the transfer order and ends on the step for its ending |
| `ExecuteTransfer.FlowQuiet` | src/hooks/use-cross-chain-transfer.ts:712-787 | a transfer logs an "Error:" line only when it aborts, as its last line, and writes only `depositForBurn` and `receiveMessage` |
| `ExecuteTransfer.TransferStages` | src/hooks/use-cross-chain-transfer.ts:712-787 | the hook's own probe, burn, polling and mint stages set the steps and write the contracts the transfer order allows |
| `ExecuteTransfer.TransferSteps` | src/hooks/use-cross-chain-transfer.ts:712-787 | an `executeTransfer` run follows the transfer order and ends on the step for its ending. It reaches minting only after a successful probe, switch and burn, a "success" receipt and a retrieved attestation |
| `ExecuteTransfer.TransferNeverApproves` | src/hooks/use-cross-chain-transfer.ts:744 | a transfer never sets "approving" and never sets a step earlier than the one before. An "Error:" line appears only when it aborts, and it writes only `depositForBurn` and `receiveMessage` |
| `ExecuteTransfer.FlowError` | src/hooks/use-cross-chain-transfer.ts:747-772 | the error field is set only by the burn or the poll, and only when the transfer aborts; a failed burn aborts with the burn's own fault |
| `ExecuteTransfer.TransferErrorField` | src/hooks/use-cross-chain-transfer.ts:712-787 | the error field is set only when the transfer aborts. It reads "Burn failed" exactly when the burn write failed, with the fault that aborted the transfer. It reads "Attestation retrieval failed" exactly when polling failed after a confirmed burn |
| `ExecuteTransfer.TransferFlow` | src/hooks/use-cross-chain-transfer.ts:735-755 | a failed probe or burn aborts with its own fault; a transfer that does not abort had a working probe and burn and a "success" receipt; a finished transfer minted the retrieved record with the reported hash |
| `ExecuteTransfer.AfterBurn` | src/hooks/use-cross-chain-transfer.ts:756-772 | after the earlier calls comes the receipt wait for the burn's hash; a failed wait aborts with its fault and a reverted burn with "Burn transaction failed"; the session waits on the attestation iff the receipt succeeded and polling did not finish |
| `ExecuteTransfer.AfterAttestation` | src/hooks/use-cross-chain-transfer.ts:772-779 | earlier steps, logs and calls are kept; the session waits iff polling did not finish, aborts with the polling fault or the mint's thrown fault, finishes iff the mint went through (with its hash), and runs out of retries iff the mint did |
| `ExecuteTransfer.TransferRun` | src/hooks/use-cross-chain-transfer.ts:712-787 | a failed probe aborts with its fault; a transfer that does not abort had a working probe, switch, burn and "success" receipt; a finished one also switched to the destination, retrieved the attestation and minted with one attempt's hash |
| `ResumeTransfer.ResumeAbort` | src/hooks/use-cross-chain-transfer.ts:869-872 | a caught error ends the resume on "error" and records the thrown fault in `resumeError`, with no further call |
| `ResumeTransfer.MintTarget` | src/hooks/use-cross-chain-transfer.ts:857-862 | a mint target is found only for a record that has a message, decodes, and names a destination domain in the V2 table; the chain is that domain's chain |
| `ResumeTransfer.ResumeTrails` | src/hooks/use-cross-chain-transfer.ts:846-876 | every trail a resume can leave follows the resume order |
| `ResumeTransfer.ResumeFlowSteps` | src/hooks/use-cross-chain-transfer.ts:846-876 | a resume's steps follow waiting-attestation (set twice), minting, completed (twice), possibly cut short by "error", and the last step tells how it ended |
| `ResumeTransfer.ResumeFromRecordSteps` | src/hooks/use-cross-chain-transfer.ts:857-868 | from a retrieved record, the resume goes on in the resume order and ends on the step for its ending |
| `ResumeTransfer.ResumeFlowErrors` | src/hooks/use-cross-chain-transfer.ts:846-876 | `resumeError` is set iff the resume aborted, and then holds the fault that aborted it |
| `ResumeTransfer.ResumeFlowEffects` | src/hooks/use-cross-chain-transfer.ts:854-866 | the resume makes the polling calls, then, only when it reaches minting, the calls of the mint on the decoded chain |
| `ResumeTransfer.ResumeSteps` | src/hooks/use-cross-chain-transfer.ts:846-876 | a `resumeTransfer` run follows the resume order and ends on the step for its ending ("completed" also when mint retries ran out). `resumeError` is set iff it aborted, and holds the fault |
| `ResumeTransfer.ResumeUnknownDomain` | src/hooks/use-cross-chain-transfer.ts:862 | a decoded destination domain with no V2 chain aborts the resume with "No chain found for domain d", making no call after polling |
| `ResumeTransfer.ResumeMintsOnMessageChain` | src/hooks/use-cross-chain-transfer.ts:857-866 | a resume calls anything after polling iff it reaches minting. Its next call is then a switch to the chain that the reverse lookup gives for the message's own destination domain |
| `ResumeTransfer.ResumeAbortQuiet` | src/hooks/use-cross-chain-transfer.ts:869-872 | after a quiet run, a caught error adds exactly one "Error:" line, the last, and no contract write |
| `ResumeTransfer.ResumeFlowQuiet` | src/hooks/use-cross-chain-transfer.ts:846-876 | with quiet polling and minting, a resume logs an "Error:" line only when it aborts, as its last line, and writes only `receiveMessage` |
| `ResumeTransfer.ResumeMintQuiet` | src/hooks/use-cross-chain-transfer.ts:857-872 | from a retrieved record, the resume logs an "Error:" line only when it aborts, and writes only `receiveMessage` |
| `ResumeTransfer.ResumeQuiet` | src/hooks/use-cross-chain-transfer.ts:846-876 | a `resumeTransfer` run logs an "Error:" line only when it aborts, as its last line, and writes only `receiveMessage` |
| `ResumeTransfer.ResumeFlow` | src/hooks/use-cross-chain-transfer.ts:850-858 | the resume waits iff polling did not finish and aborts with the polling fault; a record with no usable mint target aborts with that fault; otherwise it aborts iff the mint threw and finishes iff the mint went through |
| `ResumeTransfer.ResumeFromRecord` | src/hooks/use-cross-chain-transfer.ts:857-866 | a record with no mint target aborts with the decoding or lookup fault; otherwise the resume aborts iff the mint on the decoded chain threw, and a finished resume has that mint's hash |
| `ResumeTransfer.ResumeMinted` | src/hooks/use-cross-chain-transfer.ts:866-872 | the resume aborts iff the mint helper threw, recording that fault; otherwise it finishes with the mint's hash or runs out of retries, and sets "completed" after the mint's own steps |
| `ResumeTransfer.ResumeRun` | src/hooks/use-cross-chain-transfer.ts:846-876 | the resume waits iff polling did not finish; a finished or exhausted resume retrieved a record that decodes to a known chain and switched there; a finished one has one attempt's hash |
| `Steps.TransferTrailAdvances` | src/hooks/use-cross-chain-transfer.ts:55-62 | a trail that follows the transfer order never goes back or repeats a step, and contains neither "approving" nor "idle" |
| `Steps.ResumeTrailAdvances` | src/hooks/use-cross-chain-transfer.ts:64-69 | a trail that follows the resume order never goes back, and uses only resume steps |
| `Traces.ApplyThen` | src/hooks/use-cross-chain-transfer.ts:138-148 | running two operations one after the other on a session is running their concatenated trace; logs are only appended |
| `Traces.ApplyConsistent` | src/hooks/use-cross-chain-transfer.ts:126-131 | after any operation the displayed step is the last step set since the session was cleared |
| `Hook.RetrieveAttestation` | src/hooks/use-cross-chain-transfer.ts:511-564 | the `while (true)` polling loop, run on the replies, ends exactly as the retrieval specification does, with the same steps, logs, calls and error |
| `Hook.MintUsdc` | src/hooks/use-cross-chain-transfer.ts:613-685 | the `while (retries < MAX_RETRIES)` loop ends exactly as the mint specification does, with the same steps, logs, calls and outcome |
| `Hook.CrossChainTransfer.constructor` | src/hooks/use-cross-chain-transfer.ts:125-134 | both sessions start idle, with empty logs, no error, and no resume running |
| `Hook.CrossChainTransfer.ExecuteApprove` | src/hooks/use-cross-chain-transfer.ts:687-710 | updates the transfer session by the approval's trace and shows "approving", or "error" when it failed; the resume session is untouched |
| `Hook.CrossChainTransfer.ExecuteTransfer` | src/hooks/use-cross-chain-transfer.ts:712-787 | updates the transfer session by the transfer's trace and shows the step for how it ended; the resume session is untouched |
| `Hook.CrossChainTransfer.AwaitAndMint` | src/hooks/use-cross-chain-transfer.ts:756-779 | after the burn: the receipt wait, the polling and the mint, applied to the transfer session |
| `Hook.CrossChainTransfer.MintAttested` | src/hooks/use-cross-chain-transfer.ts:779 | after the attestation: the mint, or the abort, applied to the transfer session |
| `Hook.CrossChainTransfer.ResumeTransfer` | src/hooks/use-cross-chain-transfer.ts:846-876 | updates the resume session by the resume's trace and shows the step for how it ended; `isResuming` is false again afterwards; the transfer session is untouched |
| `Hook.CrossChainTransfer.Resuming` | src/hooks/use-cross-chain-transfer.ts:850-872 | the body of the resume's `try`/`catch`, applied to the resume session |
| `Hook.CrossChainTransfer.MintOnMessageChain` | src/hooks/use-cross-chain-transfer.ts:857-866 | decoding, reverse lookup and mint from a retrieved record, applied to the resume session |
| `Hook.CrossChainTransfer.FinishResume` | src/hooks/use-cross-chain-transfer.ts:866-872 | "completed" after the mint helper returns, or the abort when it threw, applied to the resume session |
| `Hook.CrossChainTransfer.Reset` | src/hooks/use-cross-chain-transfer.ts:828-832 | the transfer session becomes idle with empty logs and no error; nothing else changes |
| `Hook.CrossChainTransfer.ResetResume` | src/hooks/use-cross-chain-transfer.ts:878-884 | the resume session becomes idle with empty logs and no error; nothing else changes |

## Left out

- Network, wallet and RPC calls are scripted inputs; the model records the calls in order but not what the services do with them. This covers `switchChain`, `readContract`, `writeContract`, `waitForTransactionReceipt` (its 120 s timeout and confirmation count), `axios.get` and the client constructors `getClients`/`getPublicClient`.
- `keccak256` is an uninterpreted function supplied by the caller.
- The attestation message is modelled as the bytes its hex text encodes. `Buffer.from(messageHex.slice(2), 'hex')` (src/hooks/use-cross-chain-transfer.ts:78) drops the first two characters without checking them and stops at the first pair that is not hex; those parsing quirks are not modelled.
- `getBalance` and `getAllowance`'s formatting are not modelled: they are read-only adapter calls. The allowance is taken as the base-unit number `parseUnits` would produce.
- `parseUnits`/`formatUnits` decimal strings are not modelled. Amounts, allowances and fees are natural numbers in 6-decimal base units, and a malformed amount string (a throw from `parseUnits`) is not modelled.
- Log text is not modelled: timestamps, `toLocaleTimeString` and number formatting are left out, and each log line is a `LogEntry` value. `console.log` is left out.
- `resumeElapsedSeconds` and `showResumeFinalTime` are UI timer state and are not modelled.
- Sleeps are recorded with their durations but take no time.
- `Bytes.ToLower`: models `toLowerCase` on ASCII letters only, because the addresses it is applied to are ASCII hex; other Unicode case mappings are left out.
- `TransferArgs.MintRecipientIgnoresCase`: states case-insensitivity for ASCII letters only, since lower-casing is modelled on ASCII.
- `Hook.RetrieveAttestation`: the `while (true)` loop can poll forever; the model runs it on a finite sequence of replies and reports "still polling" when they run out.
- React's batched state updates, and async interleaving between a transfer and a resume sharing one hook, are not modelled: each operation runs to completion atomically.
- `handleApproveUSDC` and `handleBurnUSDC` are not modelled separately. They repeat `executeApprove`'s approval and the burn step of `executeTransfer`, without a catch.
- The RPC URL table and its environment overrides (src/lib/chains.ts:52-79) are not modelled; the hook only passes them to client constructors.
- The `wagmi` configuration, the page and the progress component are UI and are not modelled.
