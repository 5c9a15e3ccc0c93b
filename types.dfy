/** Values shared by every part of the cross-chain USDC transfer model: what the
    hook hands to its chain adapter and to the attestation service, what those
    collaborators can answer, what it throws, and what it writes to its logs. */
module Types {

  /** One byte of a decoded hex payload. */
  type Byte = b: int | 0 <= b < 256

  datatype Option<+T> = None | Some(value: T)

  /** The two transfer kinds: "fast" runs on CCTP V2, "standard" on CCTP V1. */
  datatype TransferType = Fast | Standard

  /** What a thrown value is, as far as the hook's catch blocks can tell them apart. */
  datatype Fault =
    | ExecutionError(detail: string)   // viem's TransactionExecutionError
    | HttpError(status: nat)           // an axios error that carries a response status
    | NetworkError(detail: string)     // any other failure reported by an adapter
    | TypeError(site: Unreadable)      // a property read or call on undefined or null
    | BufferOutOfRange(offset: nat)    // Buffer.readUInt32BE past the end of the buffer
    | BurnTransactionFailed            // the burn receipt's status is not "success"
    | NoChainForDomain(domain: nat)    // the reverse domain lookup found nothing

  /** Where the hook reads a property of `undefined` or `null`. */
  datatype Unreadable =
    | FeeOfNull             // `fee.toString()` after the fee request failed and yielded null
    | FeeOfUndefined        // `fee.toString()` on a reply without `minimumFee`
    | FirstRecordMissing    // `messages[0].message` when `messages` is empty
    | MessageMissing        // hashing the `message` of a record that has none
    | ResumeMessageMissing  // `message.slice` in `resumeTransfer` on a record without a message

  /** A value or the fault an operation threw. */
  datatype Result<+T> = Ok(value: T) | Err(fault: Fault)

  /** An adapter call that returns nothing useful: it either completes or throws. */
  datatype Outcome = Pass | Fail(fault: Fault)

  /** A field of a JSON record: absent (undefined), null, or present. */
  datatype Slot<+T> = Absent | Null | Present(value: T)

  /** A value handed to the chain adapter as a call target or argument. `Undefined` is
      what indexing a registry table with a chain it lacks produces in JavaScript. */
  datatype Arg =
    | Undefined
    | NullArg
    | Uint(n: nat)
    | Hex(text: string)
    | Bytes(data: seq<Byte>)

  /** The ABI functions the hook calls. */
  datatype Function = Allowance | Approve | DepositForBurn | ReceiveMessage

  /** A contract read or write: the contract address, the ABI function and its arguments. */
  datatype ContractCall = ContractCall(target: Arg, name: Function, args: seq<Arg>)

  /** The attestation service's endpoints; a missing domain is rendered "undefined" in the URL. */
  datatype Endpoint =
    | MessagesV2(sourceDomain: Option<nat>, txHash: string)  // /v2/messages/{domain}?transactionHash={tx}
    | MessagesV1(sourceDomain: Option<nat>, txHash: string)  // /v1/messages/{domain}/{tx}
    | AttestationV1(messageHash: string)                     // /v1/attestations/{keccak256(message)}
    | FastBurnAllowance                                       // /v2/fastBurn/USDC/allowance
    | FastBurnFees(sourceDomain: Option<nat>, destinationDomain: Option<nat>)

  /** One interaction of the hook with the outside world, in the order it happens. */
  datatype Effect =
    | SwitchChain(chainId: int)
    | ReadContract(call: ContractCall)
    | WriteContract(call: ContractCall)
    | AwaitReceipt(txHash: string)
    | HttpGet(endpoint: Endpoint)
    | Sleep(ms: nat)

  datatype ReceiptStatus = Success | Reverted

  /** Each message the hook appends to a session log (timestamps and number formatting left out). */
  datatype LogEntry =
    | CheckingFastTransfer                                   // "Checking Fast Transfer availability..."
    | FastAllowanceChecked(answered: bool)                   // "Fast Transfer Allowance: …" / "Failed to check …"
    | FastFeeChecked(answered: bool)                         // "Fast Transfer Fee: … USDC" / "Failed to retrieve …"
    | ApprovingUsdc                                          // "Approving USDC transfer..."
    | ApprovingTotal(total: nat, amount: nat, fee: nat)      // "Approving {total} USDC (amount: …, fee: …)"
    | AllowanceSufficient                                    // "Allowance is sufficient"
    | ApprovalTx(txHash: string)                             // "Approval Tx: …"
    | BurningUsdc                                            // "Burning USDC..."
    | BurnTx(txHash: string)                                 // "Burn Tx: …"
    | WaitingForBurnConfirmation                             // "Waiting for burn transaction to be confirmed..."
    | BurnConfirmed(status: ReceiptStatus)                   // "Burn transaction confirmed with status: …"
    | ProceedingToAttestation                                // "Proceeding to retrieve attestation..."
    | RetrievingAttestation                                  // "Retrieving attestation..."
    | ApiUrl(endpoint: Endpoint)                             // "API URL: …"
    | AttestationRetrieved                                   // "Attestation retrieved!"
    | WaitingForAttestation                                  // "Waiting for attestation..."
    | AttestationNotFoundRetrying                            // "Attestation not found yet, retrying..."
    | MintingUsdc                                            // "Minting USDC..."
    | MintTx(txHash: string)                                 // "Mint Tx: …"
    | RetryAttempt(attempt: nat, max: nat)                   // "Retry {attempt}/{max}..."
    | ErrorEntry(fault: Fault)                               // "Error: {message}"
    | ResumingTransfer(txHash: string, chainId: int)         // "Resuming transfer: … on chain: …"
    | AttestationRetrievedSuccessfully                       // "Attestation retrieved successfully"
    | SourceDomainEntry(domain: nat)                         // "Source Domain: …"
    | DestinationDomainEntry(domain: nat)                    // "Destination Domain: …"
    | RecipientAddressEntry(address: string)                 // "Recipient Address: …"
    | ConnectedToDestination(chainId: int)                   // "Connected to destination chain: …"

  /** The value a session's `error` / `resumeError` field holds. */
  datatype SessionError =
    | ApprovalFailed                 // "Approval failed"
    | BurnFailed(cause: Fault)       // "Burn failed: {message}"
    | AttestationRetrievalFailed     // "Attestation retrieval failed"
    | Raised(fault: Fault)           // the thrown error's own message
}
