/** `executeApprove`: the fast-transfer probe, then `approveUSDC`, and the catch block
    that marks the transfer session "error". */
module ExecuteApprove {
  import opened Types
  import opened Steps
  import opened Traces
  import opened TransferArgs
  import opened MessageCodec
  import opened DomainLookup
  import opened Attestation
  import opened Minting
  import opened Workflow

  /** `executeApprove`: the fast probe for fast transfers, then `approveUSDC`. */
  function ExecuteApproveRun(owner: string, source: int, destination: int, amount: nat, kind: TransferType,
                             probe: FastProbe, sc: ApproveScript): (r: Run<()>)
    ensures r.result.Ok? <==>
      FeeCheck(kind, source, destination, probe).result.Ok? && ApproveRun(owner, source, amount, kind, sc).result.Ok?
    ensures r.result.Err? ==>
      r.result.fault == (if FeeCheck(kind, source, destination, probe).result.Err? then FeeCheck(kind, source, destination, probe).result.fault
                         else ApproveRun(owner, source, amount, kind, sc).result.fault)
    ensures r.result.Err? ==> |r.trace.entries| > 0 && r.trace.entries[|r.trace.entries| - 1] == ErrorEntry(r.result.fault)
  {
    var checked := FeeCheck(kind, source, destination, probe);
    if checked.result.Err? then
      Run(Err(checked.result.fault), Then(checked.trace, Trace([Error], [ErrorEntry(checked.result.fault)], [], None)))
    else
      var approve := ApproveRun(owner, source, amount, kind, sc);
      var t := Then(checked.trace, approve.trace);
      if approve.result.Err? then Run(approve.result, Then(t, Trace([Error], [ErrorEntry(approve.result.fault)], [], None)))
      else Run(Ok(()), t)
  }

  /** An approval session sets at most "approving" and then possibly "error", which it
      ends on exactly when something threw. */
  lemma ExecuteApproveSteps(owner: string, source: int, destination: int, amount: nat, kind: TransferType,
                            probe: FastProbe, sc: ApproveScript)
    ensures var r := ExecuteApproveRun(owner, source, destination, amount, kind, probe, sc);
      && FollowsPath(r.trace.steps, ApprovePath) && 0 < |r.trace.steps|
      && r.trace.steps[|r.trace.steps| - 1] == (if r.result.Err? then Error else Approving)
      && (r.result.Err? <==>
            FeeCheck(kind, source, destination, probe).result.Err? || ApproveRun(owner, source, amount, kind, sc).result.Err?)
  {
    ApproveErrors(owner, source, amount, kind, sc);
    var checked := FeeCheck(kind, source, destination, probe);
    var approve := ApproveRun(owner, source, amount, kind, sc);
    var r := ExecuteApproveRun(owner, source, destination, amount, kind, probe, sc);
    if checked.result.Err? {
      assert r.trace.steps == [Error];
      assert [Error][..0] <= ApprovePath;
    } else if approve.result.Err? {
      assert r.trace.steps == approve.trace.steps + [Error];
      assert [Approving, Error][..1] <= ApprovePath;
    } else {
      assert r.trace.steps == [Approving];
    }
  }

  /** The approval the session writes, if any, is for the amount plus the one-basis-point
      fee, whatever fee the fast probe reported; it writes nothing else. It writes one
      exactly when the probe passed, the switch worked and the allowance read fell short. */
  lemma ExecuteApproveWrites(owner: string, source: int, destination: int, amount: nat, kind: TransferType,
                             probe: FastProbe, sc: ApproveScript)
    ensures var r := ExecuteApproveRun(owner, source, destination, amount, kind, probe, sc);
      var writes := FeeCheck(kind, source, destination, probe).result.Ok? && sc.switchReply.Pass?
        && sc.allowance.Ok? && NeedsApproval(sc.allowance.value, amount);
      && WritesOnly(r.trace.effects, {Approve})
      && (WritesOnly(r.trace.effects, {}) <==> !writes)
      && (writes ==> r.trace.effects[|r.trace.effects| - 1] == WriteContract(ApproveCall(kind, source, amount)))
  {
    var checked := FeeCheck(kind, source, destination, probe);
    if kind.Fast? {
      ProbeQuiet(source, destination, probe);
    }
    ExecuteApproveEffects(owner, source, destination, amount, kind, probe, sc);
    if checked.result.Ok? {
      var approve := ApproveRun(owner, source, amount, kind, sc);
      ApproveCalls(owner, source, amount, kind, sc);
      WritesOnlyAppend(checked.trace.effects, approve.trace.effects, {Approve});
      var all := checked.trace.effects + approve.trace.effects;
      if sc.switchReply.Pass? && sc.allowance.Ok? && NeedsApproval(sc.allowance.value, amount) {
        assert all[|all| - 1] == approve.trace.effects[|approve.trace.effects| - 1];
        assert all[|all| - 1].WriteContract? && all[|all| - 1].call.name == Approve;
      } else {
        WritesOnlyAppend(checked.trace.effects, approve.trace.effects, {});
      }
    }
  }

  /** The calls of the session: the probe's, then `approveUSDC`'s when the probe passed. */
  lemma ExecuteApproveEffects(owner: string, source: int, destination: int, amount: nat, kind: TransferType,
                              probe: FastProbe, sc: ApproveScript)
    ensures var checked := FeeCheck(kind, source, destination, probe);
      ExecuteApproveRun(owner, source, destination, amount, kind, probe, sc).trace.effects ==
        if checked.result.Err? then checked.trace.effects
        else checked.trace.effects + ApproveRun(owner, source, amount, kind, sc).trace.effects
  {
  }

  /** The session's only "Error:" entry is the catch block's, last, and "Approval failed"
      is recorded exactly when the allowance read or the approval write failed: a failed
      probe or chain switch marks the session "error" with no error message. */
  lemma ExecuteApproveErrors(owner: string, source: int, destination: int, amount: nat, kind: TransferType,
                             probe: FastProbe, sc: ApproveScript)
    ensures var r := ExecuteApproveRun(owner, source, destination, amount, kind, probe, sc);
      var e := r.trace.entries;
      && (r.result.Err? ==> 0 < |e| && e[|e| - 1] == ErrorEntry(r.result.fault) && NoErrorEntry(e[..|e| - 1]))
      && (r.result.Ok? ==> NoErrorEntry(e))
      && (r.trace.error == Some(ApprovalFailed) <==>
            && FeeCheck(kind, source, destination, probe).result.Ok? && sc.switchReply.Pass?
            && (sc.allowance.Err? || (NeedsApproval(sc.allowance.value, amount) && sc.approve.Err?)))
      && (r.trace.error.Some? ==> r.trace.error == Some(ApprovalFailed))
  {
    var checked := FeeCheck(kind, source, destination, probe);
    if kind.Fast? {
      ProbeQuiet(source, destination, probe);
    }
    var r := ExecuteApproveRun(owner, source, destination, amount, kind, probe, sc);
    if checked.result.Err? {
      assert r.trace.entries[..|r.trace.entries| - 1] == checked.trace.entries;
    } else {
      var approve := ApproveRun(owner, source, amount, kind, sc);
      ApproveErrors(owner, source, amount, kind, sc);
      NoErrorEntryAppend(checked.trace.entries, approve.trace.entries);
      if approve.result.Err? {
        assert r.trace.entries[..|r.trace.entries| - 1] == checked.trace.entries + approve.trace.entries;
      }
    }
  }
}
