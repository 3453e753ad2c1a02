// From the run to the export: whatever patch leaves the machine was replayed in a fresh session.
module RunExport {
  import opened Wrappers
  import opened Phases
  import opened Checks
  import opened Environments
  import opened RunHistory
  import opened Runner
  import opened Persistence

  /** The phase as it is written to the state file; only the name that matters to the export is spelled. */
  function PhaseName(phase: RunPhase): (name: string)
    ensures name == AWAITING <==> phase == AwaitingApproval
  {
    if phase == AwaitingApproval then AWAITING else "other"
  }

  /** What the runner saves of a result. */
  function RecordOf(result: RunResult, evidence: string): Persistence.Record {
    Persistence.Record(PhaseName(result.phase), result.candidatePatch, result.candidateSha256, evidence)
  }

  lemma BackedIsApprovable(runner: HarnessRunner, result: RunResult, lib: Library, evidence: string)
    requires runner.Backed(result) && lib.sha256 == runner.env.sha256
    ensures Approvable(lib, RecordOf(result, evidence))
  {
    if result.phase == AwaitingApproval {
      var a :| runner.EarnedBy(a, result, runner.trace.before);
    }
  }

  /** Save the result of a run, crash anywhere on the way or not at all, and export. What comes out, if anything,
      is a candidate with this past, told by the answers of the sessions themselves: the baseline was as expected,
      the model asked for a diff that the policy lets pass, the work session took it and gave back the candidate,
      all checks there were met, and all were met again after a fresh session took that very candidate. */
  lemma ExportedPatchWasReplayed(runner: HarnessRunner, result: RunResult, lib: Library, evidence: string,
                                 d: Disk, dir: Path, pending: string, d': Disk, out: Path, expected: Option<string>)
    requires runner.Backed(result) && lib.sha256 == runner.env.sha256 && lib.RoundTrips() && Fresh(pending)
    requires RUN_STATE !in Files(d, dir)
    requires Crashed(d, PersistPlan(lib, dir, RecordOf(result, evidence), pending), d')
    ensures var r := Gate(d', lib, dir, out, expected);
      r.Ok? ==> exists a: Approval ::
        && LaddersPassed(a, runner.request.manifest) && Happened(runner.env, a)
        && SaysAll(runner.request.manifest, a.base, true)
        && SaysAll(runner.request.manifest, a.work, false) && SaysAll(runner.request.manifest, a.replay, false)
        && r.value == Bundle(a.candidate, evidence)
  {
    BackedIsApprovable(runner, result, lib, evidence);
    CrashNeverForges(lib, d, dir, RecordOf(result, evidence), pending, d', out, expected);
    var r := Gate(d', lib, dir, out, expected);
    if r.Ok? {
      runner.ApprovalHappened(result);
    }
  }
}
