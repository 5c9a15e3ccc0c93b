/** The polling loop of `retrieveAttestation`, as a function of the replies the
    attestation service gives, in order. A reply to an endpoint is the JSON body
    the service answered with, or the fault the request failed with. */
module Attestation {
  import opened Types
  import opened Chains
  import opened Traces

  /** Milliseconds waited after each round that did not return. */
  const PollIntervalMs: nat := 5000

  /** One entry of a reply's `messages` array. `message` is the hex text of the CCTP
      message (its bytes here); `attestation` is the text as sent ("PENDING" while the
      attestation is not ready). */
  datatype MessageRecord = MessageRecord(status: Slot<string>, message: Slot<seq<Byte>>, attestation: Slot<string>)

  /** The fields of a reply body the hook reads: `messages` (absent, null or not an array
      is `None`) and, on the attestation endpoint, `status`. */
  datatype Body = Body(messages: Option<seq<MessageRecord>>, status: Slot<string>)

  datatype Reply = Answered(body: Body) | Rejected(fault: Fault)

  /** An axios error whose response status is 404: the message is not indexed yet. */
  predicate IsNotFound(f: Fault) {
    f == HttpError(404)
  }

  /** `body.messages?.[0]`. */
  function FirstRecord(body: Body): (r: Option<MessageRecord>)
    ensures r.Some? <==> body.messages.Some? && |body.messages.value| > 0
  {
    if body.messages.Some? && |body.messages.value| > 0 then Some(body.messages.value[0]) else None
  }

  /** The source domain of the kind's generation, `None` (rendered "undefined") if the
      chain has none. */
  function SourceDomain(kind: TransferType, source: int): (d: Option<nat>)
    ensures kind.Fast? ==> (d.Some? <==> source in DestinationDomainsV2)
    ensures kind.Standard? ==> (d.Some? <==> source in DestinationDomainsV1)
  {
    var table := if kind.Fast? then DestinationDomainsV2 else DestinationDomainsV1;
    if source in table then Some(table[source]) else None
  }

  /** The messages endpoint polled for a burn: `/v2/messages/{domain}?transactionHash={tx}`
      for fast transfers, `/v1/messages/{domain}/{tx}` for standard ones. */
  function MessagesEndpoint(kind: TransferType, source: int, txHash: string): (e: Endpoint)
    ensures e.MessagesV2? <==> kind.Fast?
    ensures e.MessagesV2? || e.MessagesV1?
    ensures e.txHash == txHash && e.sourceDomain == SourceDomain(kind, source)
  {
    if kind.Fast? then MessagesV2(SourceDomain(kind, source), txHash)
    else MessagesV1(SourceDomain(kind, source), txHash)
  }

  /** For a chain registered for its generation, the messages endpoint names that chain's
      domain of the generation: the V2 path for fast transfers, the V1 path for standard. */
  lemma EndpointOnRegistry(kind: TransferType, source: int, txHash: string)
    requires source in (if kind.Fast? then SupportedChainsV2 else SupportedChainsV1)
    ensures MessagesEndpoint(kind, source, txHash) ==
      if kind.Fast? then MessagesV2(Some(DestinationDomainsV2[source]), txHash)
      else MessagesV1(Some(DestinationDomainsV1[source]), txHash)
  {
    SupportedV2Covered();
    SupportedV1Covered();
  }

  /** How one pass through the loop body ends. */
  datatype Verdict =
    | Return(record: MessageRecord)  // the attestation is complete: the record is returned
    | Throw(fault: Fault)            // a fault other than a 404: the loop rethrows it
    | Again                          // wait and poll again
    | OutOfReplies                   // the replies given do not reach the end of the pass

  /** One pass: the verdict, how many replies it consumed, and what it logged and did. */
  datatype RoundRun = RoundRun(verdict: Verdict, used: nat, trace: Trace)

  /** The log entry and the wait of a pass that ends in `continue` or falls through. */
  function Retry(entry: LogEntry, requests: seq<Effect>, used: nat): RoundRun {
    RoundRun(Again, used, Trace([], [entry], requests + [Sleep(PollIntervalMs)], None))
  }

  /** The record the attestation service has finished, judged from the replies at the
      start of a pass. Fast: the first reply's first record has status "complete".
      Standard: the first reply's first record carries a message and the next reply, from
      the attestation endpoint, has status "complete"; the record's own status is not read. */
  function ReadyRecord(kind: TransferType, replies: seq<Reply>): Option<MessageRecord> {
    if replies == [] || !replies[0].Answered? || FirstRecord(replies[0].body).None? then None
    else
      var record := FirstRecord(replies[0].body).value;
      var ready :=
        if kind.Fast? then record.status == Present("complete")
        else record.message.Present? && 2 <= |replies| && replies[1].Answered?
             && replies[1].body.status == Present("complete");
      if ready then Some(record) else None
  }

  /** A standard pass reaches the attestation endpoint: the first reply's first record
      carries a message, and a second reply is there to answer the hash lookup. */
  predicate HashLookedUp(replies: seq<Reply>) {
    && 2 <= |replies| && replies[0].Answered?
    && FirstRecord(replies[0].body).Some? && FirstRecord(replies[0].body).value.message.Present?
  }

  /** One pass through the body of the `while (true)` loop.
      Fast: one GET; the first record is returned when its status is "complete".
      Standard: one GET; when the first record's message is not null its keccak-256 hash is
      looked up on the V1 attestation endpoint, and the first record is returned when that
      endpoint's status is "complete". A 404 on either request logs "not found" and waits;
      any other fault, including the TypeError of reading a record that is not there, ends
      the loop. A pass that neither returns nor fails logs "waiting" and waits. */
  function Round(kind: TransferType, url: Endpoint, keccak: seq<Byte> -> string, replies: seq<Reply>): (r: RoundRun)
    ensures r.used <= |replies| && (r.verdict.Again? ==> 0 < r.used)
    ensures r.verdict.Return? <==> ReadyRecord(kind, replies).Some?
    ensures r.verdict.Return? ==> r.verdict.record == ReadyRecord(kind, replies).value
    ensures 0 < |replies| && replies[0].Rejected? ==>
      && (r.verdict.Throw? <==> !IsNotFound(replies[0].fault))
      && (r.verdict.Throw? ==> r.verdict.fault == replies[0].fault)
    ensures kind.Standard? && HashLookedUp(replies) && replies[1].Rejected? ==>
      && (r.verdict.Throw? <==> !IsNotFound(replies[1].fault))
      && (r.verdict.Throw? ==> r.verdict.fault == replies[1].fault)
  {
    if replies == [] then RoundRun(OutOfReplies, 0, Nothing)
    else
      var get := [HttpGet(url)];
      match replies[0]
      case Rejected(f) =>
        if IsNotFound(f) then Retry(AttestationNotFoundRetrying, get, 1)
        else RoundRun(Throw(f), 1, Trace([], [], get, None))
      case Answered(body) =>
        if kind.Fast? then
          if FirstRecord(body).Some? && FirstRecord(body).value.status == Present("complete") then
            RoundRun(Return(FirstRecord(body).value), 1, Trace([], [AttestationRetrieved], get, None))
          else Retry(WaitingForAttestation, get, 1)
        else
          match FirstRecord(body)
          case None => RoundRun(Throw(TypeError(FirstRecordMissing)), 1, Trace([], [], get, None))
          case Some(record) =>
            match record.message
            case Null => Retry(WaitingForAttestation, get, 1)
            case Absent => RoundRun(Throw(TypeError(MessageMissing)), 1, Trace([], [], get, None))
            case Present(m) =>
              var second := get + [HttpGet(AttestationV1(keccak(m)))];
              if |replies| < 2 then RoundRun(OutOfReplies, 1, Trace([], [], get, None))
              else match replies[1]
                case Rejected(f) =>
                  if IsNotFound(f) then Retry(AttestationNotFoundRetrying, second, 2)
                  else RoundRun(Throw(f), 2, Trace([], [], second, None))
                case Answered(answer) =>
                  if answer.status == Present("complete") then
                    RoundRun(Return(record), 2, Trace([], [AttestationRetrieved], second, None))
                  else Retry(WaitingForAttestation, second, 2)
  }

  /** The requests a pass issued: the messages GET, then, if it was reached, the hash GET. */
  function RequestsOf(r: RoundRun, url: Endpoint, keccak: seq<Byte> -> string, replies: seq<Reply>): seq<Effect>
    requires 0 < r.used <= |replies|
  {
    if r.used == 1 then [HttpGet(url)]
    else [HttpGet(url), HttpGet(AttestationV1(keccak(SecondHop(replies[0]))))]
  }

  /** The message a standard pass hashes, read from the first reply. */
  function SecondHop(reply: Reply): seq<Byte> {
    if reply.Answered? && FirstRecord(reply.body).Some? && FirstRecord(reply.body).value.message.Present?
    then FirstRecord(reply.body).value.message.value else []
  }

  /** What one pass does: it sets no step and records no error; it first asks the messages
      endpoint; a pass that asks for another has made its requests and then waits the
      poll interval; it throws only faults other than a 404. */
  lemma RoundShape(kind: TransferType, url: Endpoint, keccak: seq<Byte> -> string, replies: seq<Reply>)
    ensures var r := Round(kind, url, keccak, replies);
      && r.trace.steps == [] && r.trace.error.None? && NoErrorEntry(r.trace.entries)
      && WritesOnly(r.trace.effects, {})
      && (replies == [] ==> r.verdict.OutOfReplies? && r.trace.effects == [])
      && (replies != [] ==> 0 < |r.trace.effects| && r.trace.effects[0] == HttpGet(url))
      && (r.verdict.Again? ==>
            && 0 < |r.trace.effects|
            && r.trace.effects[..|r.trace.effects| - 1] == RequestsOf(r, url, keccak, replies)
            && r.trace.effects[|r.trace.effects| - 1] == Sleep(PollIntervalMs))
      && (!r.verdict.Again? ==> forall i :: 0 <= i < |r.trace.effects| ==> !r.trace.effects[i].Sleep?)
      && (r.verdict.Throw? ==> !IsNotFound(r.verdict.fault))
      && (r.verdict.Return? ==> r.trace.entries == [AttestationRetrieved])
      && (kind.Fast? && r.verdict.Return? ==> r.verdict.record.status == Present("complete"))
      && (kind.Standard? && r.verdict.Return? ==>
            && r.verdict.record.message.Present?
            && r.trace.effects == [HttpGet(url), HttpGet(AttestationV1(keccak(r.verdict.record.message.value)))])
  {
  }

  datatype PollOutcome =
    | Retrieved(record: MessageRecord)  // the loop returned this record
    | Failed(fault: Fault)              // the loop threw this fault
    | StillPolling                      // the replies given run out before the loop ends

  datatype PollRun = PollRun(outcome: PollOutcome, trace: Trace)

  /** Every wait in `effects` lasts the poll interval and, unless it is the last effect,
      is followed by a new request to the messages endpoint `url`. */
  predicate SpacedPolls(effects: seq<Effect>, url: Endpoint) {
    forall i :: 0 <= i < |effects| && effects[i].Sleep? ==>
      effects[i] == Sleep(PollIntervalMs) && (i + 1 < |effects| ==> effects[i + 1] == HttpGet(url))
  }

  /** The whole `while (true)` loop: passes are run until one returns, throws, or runs
      out of replies. */
  function Poll(kind: TransferType, url: Endpoint, keccak: seq<Byte> -> string, replies: seq<Reply>): (r: PollRun)
    ensures ReadyRecord(kind, replies).Some? ==> r.outcome == Retrieved(ReadyRecord(kind, replies).value)
    ensures 0 < |replies| && replies[0].Rejected? && !IsNotFound(replies[0].fault) ==> r.outcome == Failed(replies[0].fault)
    decreases |replies|
  {
    var pass := Round(kind, url, keccak, replies);
    match pass.verdict
    case Return(record) => PollRun(Retrieved(record), pass.trace)
    case Throw(f) => PollRun(Failed(f), pass.trace)
    case OutOfReplies => PollRun(StillPolling, pass.trace)
    case Again =>
      var rest := Poll(kind, url, keccak, replies[pass.used..]);
      PollRun(rest.outcome, Then(pass.trace, rest.trace))
  }

  /** The loop sets no step, records no error, logs no "Error:" entry and writes no contract. */
  lemma {:induction false} PollQuiet(kind: TransferType, url: Endpoint, keccak: seq<Byte> -> string, replies: seq<Reply>)
    ensures var r := Poll(kind, url, keccak, replies);
      r.trace.steps == [] && r.trace.error.None? && NoErrorEntry(r.trace.entries) && WritesOnly(r.trace.effects, {})
    decreases |replies|
  {
    var pass := Round(kind, url, keccak, replies);
    RoundShape(kind, url, keccak, replies);
    if pass.verdict.Again? {
      var rest := Poll(kind, url, keccak, replies[pass.used..]);
      PollQuiet(kind, url, keccak, replies[pass.used..]);
      NoErrorEntryAppend(pass.trace.entries, rest.trace.entries);
      WritesOnlyAppend(pass.trace.effects, rest.trace.effects, {});
    }
  }

  /** The loop fails only with a fault other than a 404; the record it returns is
      "complete" for a fast transfer and carries a message for a standard one. */
  lemma {:induction false} PollResult(kind: TransferType, url: Endpoint, keccak: seq<Byte> -> string, replies: seq<Reply>)
    ensures var r := Poll(kind, url, keccak, replies);
      && (r.outcome.Failed? ==> !IsNotFound(r.outcome.fault))
      && (kind.Fast? && r.outcome.Retrieved? ==> r.outcome.record.status == Present("complete"))
      && (kind.Standard? && r.outcome.Retrieved? ==> r.outcome.record.message.Present?)
    decreases |replies|
  {
    var pass := Round(kind, url, keccak, replies);
    RoundShape(kind, url, keccak, replies);
    if pass.verdict.Again? {
      PollResult(kind, url, keccak, replies[pass.used..]);
    }
  }

  /** A loop that returns a record ends with "Attestation retrieved". */
  lemma {:induction false} PollRetrievedEntry(kind: TransferType, url: Endpoint, keccak: seq<Byte> -> string, replies: seq<Reply>)
    ensures var r := Poll(kind, url, keccak, replies);
      r.outcome.Retrieved? ==> 0 < |r.trace.entries| && r.trace.entries[|r.trace.entries| - 1] == AttestationRetrieved
    decreases |replies|
  {
    var pass := Round(kind, url, keccak, replies);
    RoundShape(kind, url, keccak, replies);
    if pass.verdict.Again? {
      var rest := Poll(kind, url, keccak, replies[pass.used..]);
      PollRetrievedEntry(kind, url, keccak, replies[pass.used..]);
      LastOfThen(pass.trace, rest.trace);
    }
  }

  /** For a standard transfer, the last thing a loop that returns a record asked for is
      the hash of the record's message. */
  lemma {:induction false} PollRetrievedHash(url: Endpoint, keccak: seq<Byte> -> string, replies: seq<Reply>)
    ensures var r := Poll(Standard, url, keccak, replies);
      r.outcome.Retrieved? ==>
        && r.outcome.record.message.Present?
        && 0 < |r.trace.effects|
        && r.trace.effects[|r.trace.effects| - 1] == HttpGet(AttestationV1(keccak(r.outcome.record.message.value)))
    decreases |replies|
  {
    var pass := Round(Standard, url, keccak, replies);
    RoundShape(Standard, url, keccak, replies);
    if pass.verdict.Again? {
      var rest := Poll(Standard, url, keccak, replies[pass.used..]);
      PollRetrievedHash(url, keccak, replies[pass.used..]);
      LastOfThen(pass.trace, rest.trace);
    }
  }

  /** The loop only ever waits the poll interval, and every wait is followed by a new
      request to the same messages endpoint. */
  lemma {:induction false} PollSpacing(kind: TransferType, url: Endpoint, keccak: seq<Byte> -> string, replies: seq<Reply>)
    ensures SpacedPolls(Poll(kind, url, keccak, replies).trace.effects, url)
    decreases |replies|
  {
    var pass := Round(kind, url, keccak, replies);
    RoundShape(kind, url, keccak, replies);
    if pass.verdict.Again? {
      var rest := Poll(kind, url, keccak, replies[pass.used..]);
      PollSpacing(kind, url, keccak, replies[pass.used..]);
      PollStartsWithRequest(kind, url, keccak, replies[pass.used..]);
      var e := pass.trace.effects;
      var requests := RequestsOf(pass, url, keccak, replies);
      assert e == requests + [Sleep(PollIntervalMs)];
      SpacedAfterWait(requests, rest.trace.effects, url);
    }
  }

  /** The loop's first interaction, if any, is a request to the messages endpoint. */
  lemma PollStartsWithRequest(kind: TransferType, url: Endpoint, keccak: seq<Byte> -> string, replies: seq<Reply>)
    ensures var e := Poll(kind, url, keccak, replies).trace.effects;
      e == [] || e[0] == HttpGet(url)
  {
    RoundShape(kind, url, keccak, replies);
  }

  /** Requests, one wait, then a spaced run that starts with a request to `url`. */
  lemma SpacedAfterWait(requests: seq<Effect>, rest: seq<Effect>, url: Endpoint)
    requires forall i :: 0 <= i < |requests| ==> requests[i].HttpGet?
    requires SpacedPolls(rest, url) && (rest == [] || rest[0] == HttpGet(url))
    ensures SpacedPolls(requests + [Sleep(PollIntervalMs)] + rest, url)
  {
    var all := requests + [Sleep(PollIntervalMs)] + rest;
    var n := |requests|;
    forall i | 0 <= i < |all|
      ensures all[i].Sleep? ==> all[i] == Sleep(PollIntervalMs) && (i + 1 < |all| ==> all[i + 1] == HttpGet(url))
    {
      if i < n {
        assert all[i] == requests[i];
      } else if i == n {
        if i + 1 < |all| {
          assert all[i + 1] == rest[0];
        }
      } else {
        assert all[i] == rest[i - n - 1];
        if i + 1 < |all| {
          assert all[i + 1] == rest[i - n];
        }
      }
    }
  }

  /** A 404 never ends the loop: it is logged, waited out, and the poll goes on with the
      next reply. */
  lemma NotFoundRetried(kind: TransferType, url: Endpoint, keccak: seq<Byte> -> string, replies: seq<Reply>)
    requires 0 < |replies| && replies[0] == Rejected(HttpError(404))
    ensures Poll(kind, url, keccak, replies).outcome == Poll(kind, url, keccak, replies[1..]).outcome
    ensures Poll(kind, url, keccak, replies).trace
      == Then(Trace([], [AttestationNotFoundRetrying], [HttpGet(url), Sleep(PollIntervalMs)], None),
              Poll(kind, url, keccak, replies[1..]).trace)
  {
    var pass := Round(kind, url, keccak, replies);
    assert pass == Retry(AttestationNotFoundRetrying, [HttpGet(url)], 1);
  }

  /** A fast poll answered 404, 404, then a complete record: two "not found" waits,
      then the record. */
  lemma FastPollExample(url: Endpoint, keccak: seq<Byte> -> string, record: MessageRecord)
    requires record.status == Present("complete")
    ensures var complete := Answered(Body(Some([record]), Absent));
      var r := Poll(Fast, url, keccak, [Rejected(HttpError(404)), Rejected(HttpError(404)), complete]);
      && r.outcome == Retrieved(record)
      && r.trace.effects == [HttpGet(url), Sleep(5000), HttpGet(url), Sleep(5000), HttpGet(url)]
      && r.trace.entries == [AttestationNotFoundRetrying, AttestationNotFoundRetrying, AttestationRetrieved]
  {
    var complete := Answered(Body(Some([record]), Absent));
    var replies := [Rejected(HttpError(404)), Rejected(HttpError(404)), complete];
    assert replies[1..] == [Rejected(HttpError(404)), complete];
    assert replies[1..][1..] == [complete];
    var last := Poll(Fast, url, keccak, [complete]);
    assert Round(Fast, url, keccak, [complete]).verdict == Return(record);
    assert last == PollRun(Retrieved(record), Trace([], [AttestationRetrieved], [HttpGet(url)], None));
    NotFoundRetried(Fast, url, keccak, replies[1..]);
    NotFoundRetried(Fast, url, keccak, replies);
  }

  /** A poll whose first replies finish the attestation returns at once: for a standard
      transfer the record of the messages endpoint, whatever its own status or
      `attestation` field says, after exactly the two requests of the two-hop check. */
  lemma ReadyRecordReturned(kind: TransferType, url: Endpoint, keccak: seq<Byte> -> string, replies: seq<Reply>)
    requires ReadyRecord(kind, replies).Some?
    ensures var r := Poll(kind, url, keccak, replies);
      && r.outcome == Retrieved(ReadyRecord(kind, replies).value)
      && r.trace.entries == [AttestationRetrieved]
      && r.trace.effects ==
           if kind.Fast? then [HttpGet(url)]
           else [HttpGet(url), HttpGet(AttestationV1(keccak(ReadyRecord(kind, replies).value.message.value)))]
  {
    RoundShape(kind, url, keccak, replies);
  }

  /** A reply after which a fast pass waits and polls again: a 404, or an answer whose
      first record is missing or not yet "complete". */
  predicate FastWaits(reply: Reply) {
    reply == Rejected(HttpError(404)) || (reply.Answered? && ReadyRecord(Fast, [reply]).None?)
  }

  /** A fast poll is decided by the first reply that is not a wait: it returns the record
      of the first "complete" answer, and it fails with the first fault other than a 404. */
  lemma {:induction false} FastPollDecidedAt(url: Endpoint, keccak: seq<Byte> -> string, replies: seq<Reply>, k: nat)
    requires k < |replies| && forall j :: 0 <= j < k ==> FastWaits(replies[j])
    ensures ReadyRecord(Fast, [replies[k]]).Some? ==>
      Poll(Fast, url, keccak, replies).outcome == Retrieved(ReadyRecord(Fast, [replies[k]]).value)
    ensures replies[k].Rejected? && !IsNotFound(replies[k].fault) ==>
      Poll(Fast, url, keccak, replies).outcome == Failed(replies[k].fault)
    decreases k
  {
    if k == 0 {
      assert ReadyRecord(Fast, replies) == ReadyRecord(Fast, [replies[0]]);
    } else {
      assert FastWaits(replies[0]);
      assert ReadyRecord(Fast, replies) == ReadyRecord(Fast, [replies[0]]);
      var pass := Round(Fast, url, keccak, replies);
      assert pass.verdict.Again? && pass.used == 1;
      forall j | 0 <= j < k - 1 ensures FastWaits(replies[1..][j]) {
        assert replies[1..][j] == replies[j + 1];
      }
      FastPollDecidedAt(url, keccak, replies[1..], k - 1);
    }
  }

  /** `i` is where a pass of the loop begins when it runs on `replies`: the first pass
      begins at 0, and each pass that loops is followed by one that begins just after
      the replies it used. */
  predicate PassStart(kind: TransferType, url: Endpoint, keccak: seq<Byte> -> string, replies: seq<Reply>, i: nat)
    decreases |replies|
  {
    i == 0 ||
      var pass := Round(kind, url, keccak, replies);
      && pass.verdict.Again? && pass.used <= i
      && PassStart(kind, url, keccak, replies[pass.used..], i - pass.used)
  }

  /** A record the loop returns is one the service had finished at the start of some
      pass, every pass before which looped; the loop run from there ends the same way. */
  lemma {:induction false} PollRetrievedFrom(kind: TransferType, url: Endpoint, keccak: seq<Byte> -> string, replies: seq<Reply>)
    ensures var r := Poll(kind, url, keccak, replies);
      r.outcome.Retrieved? ==>
        exists i :: && 0 <= i < |replies| && PassStart(kind, url, keccak, replies, i)
                    && ReadyRecord(kind, replies[i..]) == Some(r.outcome.record)
                    && Poll(kind, url, keccak, replies[i..]).outcome == r.outcome
    decreases |replies|
  {
    var pass := Round(kind, url, keccak, replies);
    var r := Poll(kind, url, keccak, replies);
    if pass.verdict.Return? {
      assert replies[0..] == replies;
      assert PassStart(kind, url, keccak, replies, 0);
      assert ReadyRecord(kind, replies[0..]) == Some(r.outcome.record);
    } else if pass.verdict.Again? {
      var u := pass.used;
      var rest := Poll(kind, url, keccak, replies[u..]);
      PollRetrievedFrom(kind, url, keccak, replies[u..]);
      if rest.outcome.Retrieved? {
        var i :| && 0 <= i < |replies[u..]| && PassStart(kind, url, keccak, replies[u..], i)
                 && ReadyRecord(kind, replies[u..][i..]) == Some(rest.outcome.record)
                 && Poll(kind, url, keccak, replies[u..][i..]).outcome == rest.outcome;
        assert replies[u..][i..] == replies[u + i..];
        assert PassStart(kind, url, keccak, replies, u + i);
        assert ReadyRecord(kind, replies[u + i..]) == Some(r.outcome.record);
      }
    }
  }


}
