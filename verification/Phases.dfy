// The phase table of a remediation run.
module Phases {
  datatype RunPhase =
    | Created | PreflightValidated | SnapshotReady | BaselineVerified | Investigating | FindingConfirmed
    | PatchEnabled | PatchValidating | WorkingVerification | Repairing | CleanReplayVerified | AwaitingApproval
    | Exported | ModelUnavailable | SourceRejected | BaselineFailed | FindingNotReproducible | InvalidModelOutput
    | PatchApplicationFailed | VerificationFailed | CleanReplayFailed | BudgetExhausted | SandboxError | Cancelled
    | UserRejected

  predicate CanTransition(current: RunPhase, target: RunPhase) {
    match current
    case Created => target in {PreflightValidated, ModelUnavailable, SourceRejected, Cancelled}
    case PreflightValidated => target in {SnapshotReady, SourceRejected, SandboxError, Cancelled}
    case SnapshotReady =>
      target in {BaselineVerified, BaselineFailed, FindingNotReproducible, SandboxError, Cancelled}
    case BaselineVerified => target in {Investigating, SandboxError, Cancelled}
    case Investigating =>
      target in {FindingConfirmed, FindingNotReproducible, InvalidModelOutput, ModelUnavailable, BudgetExhausted,
                 SandboxError, Cancelled}
    case FindingConfirmed => target in {PatchEnabled, SandboxError, Cancelled}
    case PatchEnabled => target in {PatchValidating, InvalidModelOutput, BudgetExhausted, SandboxError, Cancelled}
    case PatchValidating =>
      target in {WorkingVerification, PatchApplicationFailed, BudgetExhausted, SandboxError, Cancelled}
    case WorkingVerification =>
      target in {CleanReplayVerified, Repairing, VerificationFailed, CleanReplayFailed, BudgetExhausted,
                 SandboxError, Cancelled}
    case Repairing =>
      target in {PatchValidating, InvalidModelOutput, ModelUnavailable, VerificationFailed, BudgetExhausted,
                 SandboxError, Cancelled}
    case CleanReplayVerified => target in {AwaitingApproval, Cancelled}
    case AwaitingApproval => target in {Exported, UserRejected, Cancelled}
    case _ => false
  }

  predicate IsTerminal(phase: RunPhase) {
    phase in {Exported, ModelUnavailable, SourceRejected, BaselineFailed, FindingNotReproducible,
              InvalidModelOutput, PatchApplicationFailed, VerificationFailed, CleanReplayFailed, BudgetExhausted,
              SandboxError, Cancelled, UserRejected}
  }

  /** The phases in which a run hands out a result. */
  predicate IsResultPhase(phase: RunPhase) {
    IsTerminal(phase) || phase == AwaitingApproval
  }

  /** A path through the table: each phase allows the next. */
  ghost predicate IsPath(path: seq<RunPhase>) {
    forall i {:trigger Linked(path, i)} :: 0 < i < |path| ==> Linked(path, i)
  }

  ghost predicate Linked(path: seq<RunPhase>, i: nat)
    requires 0 < i < |path|
  {
    CanTransition(path[i - 1], path[i])
  }

  lemma PathGrows(path: seq<RunPhase>, target: RunPhase)
    requires |path| > 0 && IsPath(path) && CanTransition(path[|path| - 1], target)
    ensures IsPath(path + [target])
  {
    forall i | 0 < i < |path| + 1 ensures Linked(path + [target], i) {
      assert i < |path| ==> Linked(path, i);
    }
  }

  /** A phase is terminal exactly if nothing may follow it, and every other one can be cancelled. */
  lemma TerminalIsDeadEnd(phase: RunPhase)
    ensures IsTerminal(phase) <==> forall target :: !CanTransition(phase, target)
    ensures !IsTerminal(phase) ==> CanTransition(phase, Cancelled)
  {
    if !IsTerminal(phase) {
      assert CanTransition(phase, Cancelled);
    }
  }

  /** The table read backwards: where each phase may be entered from. A cancelled run was not over; a sandbox error
      comes from a phase that has a sandbox and is not verified yet. */
  function EnteredFrom(target: RunPhase): set<RunPhase> {
    match target
    case Created => {}
    case PreflightValidated => {Created}
    case SnapshotReady => {PreflightValidated}
    case BaselineVerified => {SnapshotReady}
    case Investigating => {BaselineVerified}
    case FindingConfirmed => {Investigating}
    case PatchEnabled => {FindingConfirmed}
    case PatchValidating => {PatchEnabled, Repairing}
    case WorkingVerification => {PatchValidating}
    case Repairing => {WorkingVerification}
    case CleanReplayVerified => {WorkingVerification}
    case AwaitingApproval => {CleanReplayVerified}
    case Exported => {AwaitingApproval}
    case UserRejected => {AwaitingApproval}
    case ModelUnavailable => {Created, Investigating, Repairing}
    case SourceRejected => {Created, PreflightValidated}
    case BaselineFailed => {SnapshotReady}
    case FindingNotReproducible => {SnapshotReady, Investigating}
    case InvalidModelOutput => {Investigating, PatchEnabled, Repairing}
    case PatchApplicationFailed => {PatchValidating}
    case VerificationFailed => {WorkingVerification, Repairing}
    case CleanReplayFailed => {WorkingVerification}
    case BudgetExhausted => {Investigating, PatchEnabled, PatchValidating, WorkingVerification, Repairing}
    case SandboxError =>
      {PreflightValidated, SnapshotReady, BaselineVerified, Investigating, FindingConfirmed, PatchEnabled,
       PatchValidating, WorkingVerification, Repairing}
    case Cancelled =>
      {Created, PreflightValidated, SnapshotReady, BaselineVerified, Investigating, FindingConfirmed, PatchEnabled,
       PatchValidating, WorkingVerification, Repairing, CleanReplayVerified, AwaitingApproval}
  }

  /** Forwards and backwards the table is the same. */
  lemma TableReadBackwards(current: RunPhase, target: RunPhase)
    ensures CanTransition(current, target) <==> current in EnteredFrom(target)
  {
    match target {
      case Cancelled => TerminalIsDeadEnd(current);
      case _ =>
    }
  }

  /** No path reaches approval around verification: on the way there it passes the verified baseline,
      and its last steps are the working verification and the clean replay. */
  lemma ApprovalNeedsVerification(path: seq<RunPhase>)
    requires |path| > 0 && path[0] == Created && IsPath(path)
    requires path[|path| - 1] == AwaitingApproval
    ensures |path| >= 6
    ensures path[|path| - 2] == CleanReplayVerified && path[|path| - 3] == WorkingVerification
    ensures path[..4] == [Created, PreflightValidated, SnapshotReady, BaselineVerified]
  {
    var n := |path|;
    assert Linked(path, n - 1);
    assert Linked(path, n - 2);
    StaysLive(path, 1);
    StaysLive(path, 2);
    StaysLive(path, 3);
  }

  lemma StaysLive(path: seq<RunPhase>, i: nat)
    requires 0 < i < |path| - 1 && IsPath(path)
    ensures path[i - 1] == Created ==> path[i] == PreflightValidated
    ensures path[i - 1] == PreflightValidated ==> path[i] == SnapshotReady
    ensures path[i - 1] == SnapshotReady ==> path[i] == BaselineVerified
  {
    assert Linked(path, i);
    assert Linked(path, i + 1);
  }
}
