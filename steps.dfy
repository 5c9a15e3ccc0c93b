/** The progress steps shown for a transfer session (`TransferStep`) and for a
    resume session (`ResumeStep`), and the order in which the hook sets them. */
module Steps {

  datatype Step = Idle | Approving | Burning | WaitingAttestation | Minting | Completed | Error {

    /** Position in the forward order idle → approving → burning → waiting-attestation
        → minting → completed; `error` is terminal and has no place in that order. */
    function Rank(): nat {
      match this
      case Idle => 0
      case Approving => 1
      case Burning => 2
      case WaitingAttestation => 3
      case Minting => 4
      case Completed => 5
      case Error => 6
    }

    /** The values of the `ResumeStep` union: a resume session never approves or burns. */
    predicate IsResumeStep() {
      !Approving? && !Burning?
    }
  }

  type ResumeStep = s: Step | s.IsResumeStep() witness Idle

  /** Steps set by one `executeTransfer` run that reaches the end. */
  const TransferPath: seq<Step> := [Burning, WaitingAttestation, Minting, Completed]

  /** Steps set by one `executeApprove` run. */
  const ApprovePath: seq<Step> := [Approving]

  /** Steps set by one `resumeTransfer` run: waiting-attestation and completed are each
      set twice, once by the session and once by the polling or minting helper. */
  const ResumePath: seq<Step> := [WaitingAttestation, WaitingAttestation, Minting, Completed, Completed]

  /** `trail` is a prefix of `path`, possibly followed by one final `error`. */
  predicate FollowsPath(trail: seq<Step>, path: seq<Step>) {
    trail <= path || (|trail| > 0 && trail[|trail| - 1] == Error && trail[..|trail| - 1] <= path)
  }

  /** `error` can only come last, and every other step is at least as far along
      (strictly further along when `strict`) as every step set before it. */
  ghost predicate Advancing(trail: seq<Step>, strict: bool) {
    && (forall i :: 0 <= i < |trail| - 1 ==> trail[i] != Error)
    && (forall i, j :: 0 <= i < j < |trail| && trail[j] != Error ==>
          if strict then trail[i].Rank() < trail[j].Rank() else trail[i].Rank() <= trail[j].Rank())
  }

  lemma {:induction false} PrefixAdvancing(trail: seq<Step>, path: seq<Step>, strict: bool)
    requires trail <= path && Advancing(path, strict) && Error !in path
    ensures Advancing(trail, strict)
  {
    forall i, j | 0 <= i < j < |trail|
      ensures if strict then trail[i].Rank() < trail[j].Rank() else trail[i].Rank() <= trail[j].Rank()
    {
      assert trail[i] == path[i] && trail[j] == path[j];
    }
    forall i | 0 <= i < |trail| - 1 ensures trail[i] != Error {
      assert trail[i] == path[i];
    }
  }

  lemma {:induction false} FollowsAdvancingPath(trail: seq<Step>, path: seq<Step>, strict: bool)
    requires FollowsPath(trail, path) && Advancing(path, strict) && Error !in path
    ensures Advancing(trail, strict)
  {
    if trail <= path {
      PrefixAdvancing(trail, path, strict);
    } else {
      var n := |trail| - 1;
      PrefixAdvancing(trail[..n], path, strict);
      forall i | 0 <= i < |trail| - 1 ensures trail[i] != Error {
        assert trail[i] == trail[..n][i] == path[i];
      }
      forall i, j | 0 <= i < j < |trail| && trail[j] != Error
        ensures if strict then trail[i].Rank() < trail[j].Rank() else trail[i].Rank() <= trail[j].Rank()
      {
        assert trail[i] == trail[..n][i] && trail[j] == trail[..n][j];
      }
    }
  }

  /** A transfer session never re-enters a step it has left and never sets "approving":
      `executeTransfer` does not call the approval (its call is commented out). */
  lemma {:induction false} TransferTrailAdvances(trail: seq<Step>)
    requires FollowsPath(trail, TransferPath)
    ensures Advancing(trail, true)
    ensures Approving !in trail && Idle !in trail
  {
    assert Advancing(TransferPath, true);
    FollowsAdvancingPath(trail, TransferPath, true);
    if trail <= TransferPath {
      assert forall i :: 0 <= i < |trail| ==> trail[i] == TransferPath[i];
    } else {
      var n := |trail| - 1;
      assert forall i :: 0 <= i < n ==> trail[i] == trail[..n][i] == TransferPath[i];
    }
  }

  /** A resume session only moves forward and never sets "approving" or "burning". */
  lemma {:induction false} ResumeTrailAdvances(trail: seq<Step>)
    requires FollowsPath(trail, ResumePath)
    ensures Advancing(trail, false)
    ensures forall i :: 0 <= i < |trail| ==> trail[i].IsResumeStep()
  {
    assert Advancing(ResumePath, false);
    FollowsAdvancingPath(trail, ResumePath, false);
    if trail <= ResumePath {
      assert forall i :: 0 <= i < |trail| ==> trail[i] == ResumePath[i];
    } else {
      var n := |trail| - 1;
      assert forall i :: 0 <= i < n ==> trail[i] == trail[..n][i] == ResumePath[i];
    }
  }
}
