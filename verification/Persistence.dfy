// Crash-ordered persistence of a run and the gated export. A crash can hit between any two file
// operations and in the middle of a write.
module Persistence {
  import opened Wrappers

  type Path = seq<string>

  /** Each directory and the files directly in it. */
  type Disk = map<Path, map<string, string>>

  datatype Step =
    | MakeDirs(dir: Path)
    | Write(dir: Path, name: string, content: string)
    | Replace(dir: Path, from: string, to: string)
    | Unlink(dir: Path, name: string)
    | RenameDir(source: Path, target: Path)

  function Parent(p: Path): Path {
    if p == [] then [] else p[..|p| - 1]
  }

  function MakeAll(d: Disk, p: Path): (d': Disk)
    ensures p in d'
    ensures forall q :: q in d ==> q in d' && d'[q] == d[q]
    ensures forall q :: q in d' && q !in d ==> q <= p && d'[q] == map[]
  {
    var above := if p == [] then d else MakeAll(d, Parent(p));
    if p in above then above else above[p := map[]]
  }

  function Files(d: Disk, p: Path): map<string, string> {
    if p in d then d[p] else map[]
  }

  function Apply(d: Disk, s: Step): (d': Disk) {
    match s
    case MakeDirs(dir) => MakeAll(d, dir)
    case Write(dir, name, content) => d[dir := Files(d, dir)[name := content]]
    case Replace(dir, from, to) =>
      if from in Files(d, dir) then d[dir := (d[dir] - {from})[to := d[dir][from]]] else d
    case Unlink(dir, name) => if dir in d then d[dir := d[dir] - {name}] else d
    case RenameDir(source, target) => if source in d then (d - {source})[target := d[source]] else d
  }

  function ApplyAll(d: Disk, plan: seq<Step>): (d': Disk) {
    if plan == [] then d else Apply(ApplyAll(d, plan[..|plan| - 1]), plan[|plan| - 1])
  }

  /** The disk after a crash in step `n`: the steps before it are done, and if it is a write, some
      part of the content may have reached the file. */
  ghost predicate CrashIn(d: Disk, plan: seq<Step>, n: nat, d': Disk)
    requires n < |plan|
  {
    var done := ApplyAll(d, plan[..n]);
    || d' == done
    || (plan[n].Write? &&
        exists cut :: 0 <= cut <= |plan[n].content| &&
          d' == Apply(done, Write(plan[n].dir, plan[n].name, plan[n].content[..cut])))
  }

  ghost predicate Crashed(d: Disk, plan: seq<Step>, d': Disk) {
    d' == ApplyAll(d, plan) || exists n :: 0 <= n < |plan| && CrashIn(d, plan, n, d')
  }

  const RUN_STATE := "run_state.json"
  const CANDIDATE := "candidate.patch"
  const EVIDENCE := "evidence.json"
  const FINAL_PATCH := "final.patch"
  const AWAITING := "awaiting_approval"

  datatype StateDoc = StateDoc(phase: string, candidateSha256: Option<string>, evidenceSha256: Option<string>)

  /** JSON and SHA-256, as far as the code relies on them. */
  datatype Library = Library(
    render: StateDoc -> string, parse: string -> Option<StateDoc>, sha256: string -> string)
  {
    ghost predicate RoundTrips() {
      forall doc :: parse(render(doc)) == Some(doc)
    }

    ghost predicate Injective() {
      forall a, b :: sha256(a) == sha256(b) ==> a == b
    }
  }

  /** What a run has to save. */
  datatype Record = Record(phase: string, candidate: Option<string>, candidateSha256: Option<string>,
                           evidence: string) {
    function State(lib: Library): StateDoc {
      StateDoc(phase, candidateSha256, Some(lib.sha256(evidence)))
    }
  }

  /** The candidate and the directory, before the evidence. */
  function FirstSteps(dir: Path, record: Record): seq<Step> {
    [MakeDirs(dir)] +
    (if record.candidate.Some? then [Write(dir, CANDIDATE, record.candidate.value)] else [])
  }

  /** The writes of one run: the state file comes last and appears at once. */
  function PersistPlan(lib: Library, dir: Path, record: Record, pending: string): (plan: seq<Step>) {
    FirstSteps(dir, record) +
    [Write(dir, EVIDENCE, record.evidence),
     Write(dir, pending, lib.render(record.State(lib))),
     Replace(dir, pending, RUN_STATE),
     Unlink(dir, pending)]
  }

  datatype Refusal =
    | OutInsideRun | NoState | BadState | WrongPhase | NoCandidateHash | NoCandidate | NoEvidence | CandidateMismatch
    | NotTheReviewedPatch | EvidenceMismatch | OutExists

  datatype Bundle = Bundle(patch: string, evidence: string)

  /** The root always exists; other paths as a directory or as a file of their parent. */
  predicate Exists(d: Disk, p: Path) {
    p == [] || p in d || p[|p| - 1] in Files(d, Parent(p))
  }

  /** The guards of an export, in the order of the code. */
  function Gate(d: Disk, lib: Library, run: Path, out: Path, expected: Option<string>): (r: Result<Bundle, Refusal>) {
    var files := Files(d, run);
    if run <= out then Err(OutInsideRun)
    else if RUN_STATE !in files then Err(NoState)
    else
      var state := lib.parse(files[RUN_STATE]);
      if state.None? then Err(BadState)
      else if state.value.phase != AWAITING then Err(WrongPhase)
      else if state.value.candidateSha256.None? || state.value.candidateSha256.value == "" then Err(NoCandidateHash)
      else if CANDIDATE !in files then Err(NoCandidate)
      else if EVIDENCE !in files then Err(NoEvidence)
      else if lib.sha256(files[CANDIDATE]) != state.value.candidateSha256.value then Err(CandidateMismatch)
      else if expected.Some? && lib.sha256(files[CANDIDATE]) != expected.value then Err(NotTheReviewedPatch)
      else if state.value.evidenceSha256 != Some(lib.sha256(files[EVIDENCE])) then Err(EvidenceMismatch)
      else if Exists(d, out) then Err(OutExists)
      else Ok(Bundle(files[CANDIDATE], files[EVIDENCE]))
  }

  /** What stands in the way of an export, each obstacle told by the files, the saved state and the arguments. */
  ghost predicate Obstacle(d: Disk, lib: Library, run: Path, out: Path, expected: Option<string>, why: Refusal) {
    var files := Files(d, run);
    var state := if RUN_STATE in files then lib.parse(files[RUN_STATE]) else None;
    match why
    case OutInsideRun => |run| <= |out| && out[..|run|] == run
    case NoState => RUN_STATE !in files
    case BadState => RUN_STATE in files && state == None
    case WrongPhase => state.Some? && state.value.phase != "awaiting_approval"
    case NoCandidateHash =>
      state.Some? && (state.value.candidateSha256.None? || state.value.candidateSha256 == Some(""))
    case NoCandidate => CANDIDATE !in files
    case NoEvidence => EVIDENCE !in files
    case CandidateMismatch =>
      && state.Some? && state.value.candidateSha256.Some? && CANDIDATE in files
      && lib.sha256(files[CANDIDATE]) != state.value.candidateSha256.value
    case NotTheReviewedPatch =>
      expected.Some? && CANDIDATE in files && lib.sha256(files[CANDIDATE]) != expected.value
    case EvidenceMismatch =>
      && state.Some? && EVIDENCE in files
      && (state.value.evidenceSha256.None? || state.value.evidenceSha256.value != lib.sha256(files[EVIDENCE]))
    case OutExists => out == [] || out in d || out[|out| - 1] in Files(d, out[..|out| - 1])
  }

  ghost predicate NoObstacle(d: Disk, lib: Library, run: Path, out: Path, expected: Option<string>) {
    forall why :: !Obstacle(d, lib, run, out, expected, why)
  }

  /** The order in which an export looks for obstacles. */
  function Rank(why: Refusal): nat {
    match why
    case OutInsideRun => 0
    case NoState => 1
    case BadState => 2
    case WrongPhase => 3
    case NoCandidateHash => 4
    case NoCandidate => 5
    case NoEvidence => 6
    case CandidateMismatch => 7
    case NotTheReviewedPatch => 8
    case EvidenceMismatch => 9
    case OutExists => 10
  }

  /** An export is refused for its first obstacle, and goes through exactly if there is none; then it hands out the
      candidate and the evidence of the run as they are. */
  lemma GateMeans(d: Disk, lib: Library, run: Path, out: Path, expected: Option<string>)
    ensures var r := Gate(d, lib, run, out, expected);
      && (r.Ok? <==> NoObstacle(d, lib, run, out, expected))
      && (r.Err? ==> Obstacle(d, lib, run, out, expected, r.error))
      && (r.Err? ==> forall why :: Rank(why) < Rank(r.error) ==> !Obstacle(d, lib, run, out, expected, why))
      && (r.Ok? ==> CANDIDATE in Files(d, run) && EVIDENCE in Files(d, run) &&
                    r.value == Bundle(Files(d, run)[CANDIDATE], Files(d, run)[EVIDENCE]))
      && (r.Ok? && expected.Some? ==> lib.sha256(r.value.patch) == expected.value)
  {
    var r := Gate(d, lib, run, out, expected);
    if r.Ok? {
      forall why ensures !Obstacle(d, lib, run, out, expected, why) {
      }
    } else {
      assert Obstacle(d, lib, run, out, expected, r.error);
    }
  }

  /** A step that cannot make a state file appear in `dir`. */
  predicate KeepsStateAbsent(s: Step, dir: Path) {
    s.MakeDirs? || s.Unlink? || (s.Write? && (s.dir != dir || s.name != RUN_STATE))
  }

  lemma HarmlessStep(d: Disk, s: Step, dir: Path)
    requires KeepsStateAbsent(s, dir) && RUN_STATE !in Files(d, dir)
    ensures RUN_STATE !in Files(Apply(d, s), dir)
  {
  }

  lemma {:induction false} HarmlessPlan(d: Disk, plan: seq<Step>, dir: Path)
    requires forall i :: 0 <= i < |plan| ==> KeepsStateAbsent(plan[i], dir)
    requires RUN_STATE !in Files(d, dir)
    ensures RUN_STATE !in Files(ApplyAll(d, plan), dir)
  {
    if plan != [] {
      HarmlessPlan(d, plan[..|plan| - 1], dir);
      HarmlessStep(ApplyAll(d, plan[..|plan| - 1]), plan[|plan| - 1], dir);
    }
  }

  /** A temporary name that collides with none of the artifacts. */
  predicate Fresh(pending: string) {
    pending !in {RUN_STATE, CANDIDATE, EVIDENCE}
  }

  /** Up to and including a crash in the replacing step there is no state file. */
  lemma NoStateBeforeReplace(lib: Library, d: Disk, dir: Path, record: Record, pending: string, n: nat, d': Disk)
    requires RUN_STATE !in Files(d, dir) && Fresh(pending)
    requires n < |PersistPlan(lib, dir, record, pending)| - 1
    requires CrashIn(d, PersistPlan(lib, dir, record, pending), n, d')
    ensures RUN_STATE !in Files(d', dir)
  {
    var plan := PersistPlan(lib, dir, record, pending);
    HarmlessPlan(d, plan[..n], dir);
    var done := ApplyAll(d, plan[..n]);
    if d' != done {
      var cut :| 0 <= cut <= |plan[n].content| &&
        d' == Apply(done, Write(plan[n].dir, plan[n].name, plan[n].content[..cut]));
      HarmlessStep(done, Write(plan[n].dir, plan[n].name, plan[n].content[..cut]), dir);
    }
  }

  /** All artifacts of the run are in place. */
  ghost predicate InPlace(lib: Library, d: Disk, dir: Path, record: Record) {
    var files := Files(d, dir);
    && RUN_STATE in files && files[RUN_STATE] == lib.render(record.State(lib))
    && EVIDENCE in files && files[EVIDENCE] == record.evidence
    && (record.candidate.Some? ==> CANDIDATE in files && files[CANDIDATE] == record.candidate.value)
  }

  lemma ApplyAllSnoc(d: Disk, plan: seq<Step>, s: Step)
    ensures ApplyAll(d, plan + [s]) == Apply(ApplyAll(d, plan), s)
  {
    assert (plan + [s])[..|plan|] == plan;
  }

  lemma CandidateWritten(d: Disk, dir: Path, record: Record)
    ensures var files := Files(ApplyAll(d, FirstSteps(dir, record)), dir);
            record.candidate.Some? ==> CANDIDATE in files && files[CANDIDATE] == record.candidate.value
  {
    if record.candidate.Some? {
      ApplyAllSnoc(d, [MakeDirs(dir)], Write(dir, CANDIDATE, record.candidate.value));
    }
  }

  /** Once the state file is replaced, everything is in place, with or without the last step. */
  lemma ReplaceCompletes(lib: Library, d: Disk, dir: Path, record: Record, pending: string)
    requires Fresh(pending)
    ensures var plan := PersistPlan(lib, dir, record, pending);
            && InPlace(lib, ApplyAll(d, plan[..|plan| - 1]), dir, record)
            && InPlace(lib, ApplyAll(d, plan), dir, record)
  {
    var plan := PersistPlan(lib, dir, record, pending);
    var p0 := FirstSteps(dir, record);
    var e, w := Write(dir, EVIDENCE, record.evidence), Write(dir, pending, lib.render(record.State(lib)));
    var r, u := Replace(dir, pending, RUN_STATE), Unlink(dir, pending);
    CandidateWritten(d, dir, record);
    ApplyAllSnoc(d, p0, e);
    ApplyAllSnoc(d, p0 + [e], w);
    ApplyAllSnoc(d, p0 + [e] + [w], r);
    ApplyAllSnoc(d, p0 + [e] + [w] + [r], u);
    assert plan == p0 + [e] + [w] + [r] + [u];
    assert plan[..|plan| - 1] == p0 + [e] + [w] + [r];
    LastSteps(lib, ApplyAll(d, p0), dir, record, pending);
  }

  /** Nothing differs but these files of the directory. */
  ghost predicate OnlyTouches(d: Disk, d': Disk, dir: Path, names: set<string>) {
    && (forall q :: q in d && q != dir ==> q in d' && d'[q] == d[q])
    && (forall name :: name !in names ==>
          (name in Files(d', dir) <==> name in Files(d, dir)) &&
          (name in Files(d, dir) ==> Files(d', dir)[name] == Files(d, dir)[name]))
  }

  /** A step that makes directories or works on these files of the directory. */
  predicate WorksOn(s: Step, dir: Path, names: set<string>) {
    match s
    case MakeDirs(_) => true
    case Write(at, name, _) => at == dir && name in names
    case Replace(at, from, to) => at == dir && from in names && to in names
    case Unlink(at, name) => at == dir && name in names
    case RenameDir(_, _) => false
  }

  lemma StepTouches(d: Disk, s: Step, dir: Path, names: set<string>)
    requires WorksOn(s, dir, names)
    ensures OnlyTouches(d, Apply(d, s), dir, names)
  {
  }

  lemma {:induction false} PlanTouches(d: Disk, plan: seq<Step>, dir: Path, names: set<string>)
    requires forall i :: 0 <= i < |plan| ==> WorksOn(plan[i], dir, names)
    ensures OnlyTouches(d, ApplyAll(d, plan), dir, names)
  {
    if plan != [] {
      PlanTouches(d, plan[..|plan| - 1], dir, names);
      StepTouches(ApplyAll(d, plan[..|plan| - 1]), plan[|plan| - 1], dir, names);
    }
  }

  /** A run that was saved leaves just its artifacts behind, beside what was there before; no pending file stays, and
      no other directory changes. */
  lemma NothingElseSaved(lib: Library, d: Disk, dir: Path, record: Record, pending: string)
    requires Fresh(pending)
    ensures var d' := ApplyAll(d, PersistPlan(lib, dir, record, pending));
      OnlyTouches(d, d', dir, {RUN_STATE, CANDIDATE, EVIDENCE, pending}) && pending !in Files(d', dir)
  {
    var plan := PersistPlan(lib, dir, record, pending);
    PlanTouches(d, plan, dir, {RUN_STATE, CANDIDATE, EVIDENCE, pending});
    assert plan[|plan| - 1] == Unlink(dir, pending);
  }

  lemma LastSteps(lib: Library, d: Disk, dir: Path, record: Record, pending: string)
    requires Fresh(pending)
    requires record.candidate.Some? ==>
               CANDIDATE in Files(d, dir) && Files(d, dir)[CANDIDATE] == record.candidate.value
    ensures var d1 := Apply(d, Write(dir, EVIDENCE, record.evidence));
            var d2 := Apply(d1, Write(dir, pending, lib.render(record.State(lib))));
            var d3 := Apply(d2, Replace(dir, pending, RUN_STATE));
            InPlace(lib, d3, dir, record) && InPlace(lib, Apply(d3, Unlink(dir, pending)), dir, record)
  {
  }

  /** A run that asks for approval has a candidate, and its record carries that candidate's hash. */
  ghost predicate Approvable(lib: Library, record: Record) {
    record.phase == AWAITING ==>
      record.candidate.Some? && record.candidateSha256 == Some(lib.sha256(record.candidate.value))
  }

  /** What an export may hand out for a run: its own candidate and evidence, if it awaits approval. */
  ghost predicate OnlyItsOwn(record: Record, r: Result<Bundle, Refusal>) {
    r.Ok? ==> record.phase == AWAITING && record.candidate == Some(r.value.patch) && r.value.evidence == record.evidence
  }

  lemma InPlaceIsItsOwn(lib: Library, d: Disk, dir: Path, record: Record, out: Path, expected: Option<string>)
    requires lib.RoundTrips() && Approvable(lib, record) && InPlace(lib, d, dir, record)
    ensures OnlyItsOwn(record, Gate(d, lib, dir, out, expected))
  {
    assert lib.parse(lib.render(record.State(lib))) == Some(record.State(lib));
  }

  /** A run that awaits approval with everything in place is refused exactly if the destination is inside the run or
      exists, or another patch was reviewed. */
  lemma InPlaceIsRefusedIff(lib: Library, d: Disk, dir: Path, record: Record, out: Path, expected: Option<string>)
    requires lib.RoundTrips() && Approvable(lib, record) && InPlace(lib, d, dir, record)
    requires record.phase == AWAITING && record.candidateSha256 != Some("")
    ensures Gate(d, lib, dir, out, expected).Err? <==>
            dir <= out || Exists(d, out) || (expected.Some? && expected != record.candidateSha256)
  {
    assert lib.parse(lib.render(record.State(lib))) == Some(record.State(lib));
  }

  /** Wherever a crash hits, an export refuses or hands out exactly what the run saved. */
  lemma CrashNeverForges(lib: Library, d: Disk, dir: Path, record: Record, pending: string, d': Disk, out: Path,
                         expected: Option<string>)
    requires lib.RoundTrips() && Approvable(lib, record) && Fresh(pending)
    requires RUN_STATE !in Files(d, dir)
    requires Crashed(d, PersistPlan(lib, dir, record, pending), d')
    ensures OnlyItsOwn(record, Gate(d', lib, dir, out, expected))
  {
    var plan := PersistPlan(lib, dir, record, pending);
    ReplaceCompletes(lib, d, dir, record, pending);
    if d' == ApplyAll(d, plan) {
      InPlaceIsItsOwn(lib, d', dir, record, out, expected);
    } else {
      var n :| 0 <= n < |plan| && CrashIn(d, plan, n, d');
      if n < |plan| - 1 {
        NoStateBeforeReplace(lib, d, dir, record, pending, n, d');
      } else {
        InPlaceIsItsOwn(lib, d', dir, record, out, expected);
      }
    }
  }

  /** A run that awaits approval and was saved to the end can be exported. */
  lemma SavedRunIsExportable(lib: Library, d: Disk, dir: Path, record: Record, pending: string, out: Path,
                             expected: Option<string>)
    requires lib.RoundTrips() && Approvable(lib, record) && Fresh(pending)
    requires record.phase == AWAITING && record.candidateSha256 != Some("")
    requires !(dir <= out) && !Exists(ApplyAll(d, PersistPlan(lib, dir, record, pending)), out)
    requires expected.None? || expected == record.candidateSha256
    ensures Gate(ApplyAll(d, PersistPlan(lib, dir, record, pending)), lib, dir, out, expected) ==
              Ok(Bundle(record.candidate.value, record.evidence))
  {
    ReplaceCompletes(lib, d, dir, record, pending);
  }

  /** Even if every other file was changed after the run, its state file lets through nothing but
      its own candidate and evidence. */
  lemma TamperingIsRefused(lib: Library, d: Disk, dir: Path, record: Record, out: Path, expected: Option<string>)
    requires lib.RoundTrips() && lib.Injective() && Approvable(lib, record)
    requires RUN_STATE in Files(d, dir) && Files(d, dir)[RUN_STATE] == lib.render(record.State(lib))
    ensures OnlyItsOwn(record, Gate(d, lib, dir, out, expected))
  {
    assert lib.parse(lib.render(record.State(lib))) == Some(record.State(lib));
  }

  /** The bundle is staged beside its destination and appears there by one rename. */
  function ExportPlan(out: Path, stage: Path, bundle: Bundle): (plan: seq<Step>) {
    [MakeDirs(Parent(out)), MakeDirs(stage), Write(stage, FINAL_PATCH, bundle.patch),
     Write(stage, EVIDENCE, bundle.evidence), RenameDir(stage, out)]
  }

  /** A temporary directory name beside `out` that nothing uses. */
  ghost predicate FreshStage(d: Disk, out: Path, stage: Path) {
    out != [] && stage != [] && Parent(stage) == Parent(out) && stage != out && stage !in d
  }

  /** A step that leaves the directory `dir` as it is. */
  predicate Spares(s: Step, dir: Path) {
    match s
    case MakeDirs(_) => true
    case Write(d, _, _) => d != dir
    case Replace(d, _, _) => d != dir
    case Unlink(d, _) => d != dir
    case RenameDir(source, target) => source != dir && target != dir
  }

  lemma {:induction false} SparedPlan(d: Disk, plan: seq<Step>, dir: Path)
    requires dir in d
    requires forall i :: 0 <= i < |plan| ==> Spares(plan[i], dir)
    ensures var d' := ApplyAll(d, plan); dir in d' && d'[dir] == d[dir]
  {
    if plan != [] {
      SparedPlan(d, plan[..|plan| - 1], dir);
    }
  }

  /** No step before the rename makes `out` a directory. */
  lemma {:induction false} OutStaysAbsent(d: Disk, out: Path, stage: Path, bundle: Bundle, n: nat)
    requires FreshStage(d, out, stage) && out !in d && n <= 4
    ensures out !in ApplyAll(d, ExportPlan(out, stage, bundle)[..n])
  {
    var plan := ExportPlan(out, stage, bundle);
    if n > 0 {
      OutStaysAbsent(d, out, stage, bundle, n - 1);
      assert plan[..n][..n - 1] == plan[..n - 1];
      assert !(out <= Parent(out)) && !(out <= stage);
    }
  }

  /** After any crash during an export, the destination is absent or complete. */
  lemma ExportIsAtomic(d: Disk, out: Path, stage: Path, bundle: Bundle, d': Disk)
    requires FreshStage(d, out, stage) && out !in d
    requires Crashed(d, ExportPlan(out, stage, bundle), d')
    ensures out in d' ==> d'[out] == map[FINAL_PATCH := bundle.patch, EVIDENCE := bundle.evidence]
  {
    var plan := ExportPlan(out, stage, bundle);
    if d' == ApplyAll(d, plan) {
      BundleArrives(d, out, stage, bundle);
    } else {
      var n :| 0 <= n < |plan| && CrashIn(d, plan, n, d');
      OutStaysAbsent(d, out, stage, bundle, n);
    }
  }

  lemma BundleArrives(d: Disk, out: Path, stage: Path, bundle: Bundle)
    requires FreshStage(d, out, stage) && out !in d
    ensures var d' := ApplyAll(d, ExportPlan(out, stage, bundle));
            out in d' && d'[out] == map[FINAL_PATCH := bundle.patch, EVIDENCE := bundle.evidence]
  {
    var m, t := MakeDirs(Parent(out)), MakeDirs(stage);
    var p, e := Write(stage, FINAL_PATCH, bundle.patch), Write(stage, EVIDENCE, bundle.evidence);
    var r := RenameDir(stage, out);
    ApplyAllSnoc(d, [], m);
    ApplyAllSnoc(d, [m], t);
    ApplyAllSnoc(d, [m, t], p);
    ApplyAllSnoc(d, [m, t, p], e);
    ApplyAllSnoc(d, [m, t, p, e], r);
    assert [] + [m] == [m] && [m] + [t] == [m, t] && [m, t] + [p] == [m, t, p] && [m, t, p] + [e] == [m, t, p, e];
    assert [m, t, p, e] + [r] == ExportPlan(out, stage, bundle);
    assert !(stage <= Parent(out));
    assert ApplyAll(d, [m, t])[stage] == map[];
    assert ApplyAll(d, [m, t, p])[stage] == map[FINAL_PATCH := bundle.patch];
    assert ApplyAll(d, [m, t, p, e])[stage] == map[FINAL_PATCH := bundle.patch, EVIDENCE := bundle.evidence];
  }

  lemma PlanGrows(first: seq<Step>, a: Step, b: Step, c: Step, d: Step)
    ensures first + [a] + [b] + [c] + [d] == first + [a, b, c, d]
  {
  }

  /** The files of a machine, changed one step at a time. `steps` are those of the latest operation,
      which began with the files in `origin`. */
  class FileSystem {
    var disk: Disk
    ghost var origin: Disk
    ghost var steps: seq<Step>

    ghost predicate Valid()
      reads this
    {
      disk == ApplyAll(origin, steps)
    }

    ghost method Begin()
      modifies this`origin, this`steps
      ensures Valid() && origin == disk && steps == []
    {
      origin, steps := disk, [];
    }

    method Do(s: Step)
      requires Valid()
      modifies this`disk, this`steps
      ensures Valid() && disk == Apply(old(disk), s) && steps == old(steps) + [s]
    {
      ApplyAllSnoc(origin, steps, s);
      disk := Apply(disk, s);
      steps := steps + [s];
    }

    method WriteCandidate(dir: Path, record: Record)
      requires Valid() && steps == []
      modifies this`disk, this`steps
      ensures Valid() && steps == FirstSteps(dir, record)
    {
      Do(MakeDirs(dir));
      if record.candidate.Some? {
        Do(Write(dir, CANDIDATE, record.candidate.value));
      }
    }

    /** Saves a run: exactly the planned steps, in that order. */
    method Persist(lib: Library, dir: Path, record: Record, pending: string)
      modifies this
      ensures Valid() && origin == old(disk) && steps == PersistPlan(lib, dir, record, pending)
    {
      Begin();
      WriteCandidate(dir, record);
      ghost var first := steps;
      Do(Write(dir, EVIDENCE, record.evidence));
      Do(Write(dir, pending, lib.render(record.State(lib))));
      Do(Replace(dir, pending, RUN_STATE));
      Do(Unlink(dir, pending));
      PlanGrows(first, Write(dir, EVIDENCE, record.evidence), Write(dir, pending, lib.render(record.State(lib))),
                Replace(dir, pending, RUN_STATE), Unlink(dir, pending));
    }

    /** Exports a run that passes every guard, and touches nothing otherwise. */
    method ExportRun(lib: Library, run: Path, out: Path, expected: Option<string>, stage: Path)
      returns (r: Result<string, Refusal>)
      requires Exists(disk, out) || FreshStage(disk, out, stage)
      modifies this
      ensures Valid() && origin == old(disk)
      ensures match Gate(old(disk), lib, run, out, expected)
              case Err(refusal) => r == Err(refusal) && disk == old(disk)
              case Ok(bundle) => r == Ok(lib.sha256(bundle.patch)) && steps == ExportPlan(out, stage, bundle)
      ensures r.Ok? <==> NoObstacle(old(disk), lib, run, out, expected)
      ensures r.Err? ==> Obstacle(old(disk), lib, run, out, expected, r.error) && disk == old(disk)
      ensures r.Ok? && expected.Some? ==> r.value == expected.value
      ensures r.Ok? ==>
        var files := Files(old(disk), run);
        && CANDIDATE in files && EVIDENCE in files && r.value == lib.sha256(files[CANDIDATE])
        && out in disk && disk[out] == map[FINAL_PATCH := files[CANDIDATE], EVIDENCE := files[EVIDENCE]]
    {
      GateMeans(disk, lib, run, out, expected);
      hide Obstacle;
      Begin();
      var files := Files(disk, run);
      if run <= out { return Err(OutInsideRun); }
      if RUN_STATE !in files { return Err(NoState); }
      var state := lib.parse(files[RUN_STATE]);
      if state.None? { return Err(BadState); }
      if state.value.phase != AWAITING { return Err(WrongPhase); }
      var stored := state.value.candidateSha256;
      if stored.None? || stored.value == "" { return Err(NoCandidateHash); }
      if CANDIDATE !in files { return Err(NoCandidate); }
      if EVIDENCE !in files { return Err(NoEvidence); }
      var digest := lib.sha256(files[CANDIDATE]);
      if digest != stored.value { return Err(CandidateMismatch); }
      if expected.Some? && digest != expected.value { return Err(NotTheReviewedPatch); }
      if state.value.evidenceSha256 != Some(lib.sha256(files[EVIDENCE])) { return Err(EvidenceMismatch); }
      if Exists(disk, out) { return Err(OutExists); }
      BundleArrives(disk, out, stage, Bundle(files[CANDIDATE], files[EVIDENCE]));
      WriteBundle(out, stage, Bundle(files[CANDIDATE], files[EVIDENCE]));
      return Ok(digest);
    }

    method WriteBundle(out: Path, stage: Path, bundle: Bundle)
      requires Valid() && steps == []
      modifies this`disk, this`steps
      ensures Valid() && steps == ExportPlan(out, stage, bundle)
    {
      Do(MakeDirs(Parent(out)));
      Do(MakeDirs(stage));
      Do(Write(stage, FINAL_PATCH, bundle.patch));
      Do(Write(stage, EVIDENCE, bundle.evidence));
      Do(RenameDir(stage, out));
    }
  }

  /** An export never changes the run directory, wherever a crash hits it. */
  lemma ExportSparesTheRun(d: Disk, run: Path, out: Path, stage: Path, bundle: Bundle, d': Disk)
    requires FreshStage(d, out, stage) && run in d && !(run <= out)
    requires Crashed(d, ExportPlan(out, stage, bundle), d')
    ensures run in d' && d'[run] == d[run]
  {
    var plan := ExportPlan(out, stage, bundle);
    SparedPlan(d, plan, run);
    if d' != ApplyAll(d, plan) {
      var n :| 0 <= n < |plan| && CrashIn(d, plan, n, d');
      SparedPlan(d, plan[..n], run);
    }
  }
}
