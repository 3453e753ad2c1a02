// Host checks and their expectations.
module Checks {
  import opened Wrappers

  datatype CheckStatus = StatusPassed | StatusFailed | StatusError | StatusSkipped

  datatype CheckExpectation = ExpectPassed | FindingPresent | FindingAbsent | VulnerabilityReproduced

  datatype CheckResult = CheckResult(name: string, status: CheckStatus, exitCode: Option<int>, summary: string)

  datatype CommandSpec = CommandSpec(
    baselineExpectation: CheckExpectation, patchedExpectation: CheckExpectation, requiredMarker: Option<string>)

  /** The four checks in the order in which a ladder runs them. */
  datatype CheckName = Compile | Scanner | Security | Unit

  const CHECK_ORDER: seq<CheckName> := [Compile, Scanner, Security, Unit]

  type Manifest = CheckName -> CommandSpec

  predicate OccursIn(part: string, text: string) {
    exists i :: 0 <= i <= |text| - |part| && OccursAt(part, text, i)
  }

  predicate OccursAt(part: string, text: string, i: nat)
    requires i + |part| <= |text|
  {
    forall k :: 0 <= k < |part| ==> text[i + k] == part[k]
  }

  predicate ExpectationMet(spec: CommandSpec, result: CheckResult, baseline: bool) {
    match (if baseline then spec.baselineExpectation else spec.patchedExpectation)
    case ExpectPassed => result.status == StatusPassed
    case FindingPresent => result.status == StatusFailed && result.exitCode == Some(1)
    case FindingAbsent => result.status == StatusPassed
    case VulnerabilityReproduced =>
      && result.status == StatusFailed
      && result.exitCode == Some(1)
      && spec.requiredMarker.Some?
      && OccursIn(spec.requiredMarker.value, result.summary)
  }

  /** The number of results of so many complete ladders. */
  function ResultsOf(ladders: nat): (n: nat) { 4 * ladders }

  /** The results so far are all as expected. */
  ghost predicate MetSoFar(manifest: Manifest, results: seq<CheckResult>, baseline: bool)
    requires |results| <= |CHECK_ORDER|
  {
    forall i :: 0 <= i < |results| ==> ExpectationMet(manifest(CHECK_ORDER[i]), results[i], baseline)
  }

  /** One result per check, in order, each as expected. */
  ghost predicate LadderMet(manifest: Manifest, results: seq<CheckResult>, baseline: bool) {
    |results| == |CHECK_ORDER| && MetSoFar(manifest, results, baseline)
  }

  /** The part stands somewhere in the text. */
  ghost predicate Contains(text: string, part: string) {
    exists head: string, tail: string :: text == head + part + tail
  }

  lemma OccursIsContains(part: string, text: string)
    ensures OccursIn(part, text) <==> Contains(text, part)
  {
    if OccursIn(part, text) {
      var i :| 0 <= i <= |text| - |part| && OccursAt(part, text, i);
      assert text == text[..i] + part + text[i + |part|..];
    }
    if Contains(text, part) {
      var head, tail :| text == head + part + tail;
      assert OccursAt(part, text, |head|);
    }
  }

  /** What the i-th check of a ladder must have said. A check that is to pass, or to find nothing, passed. One that
      is to find something failed with exit code 1; one that is to reproduce the vulnerability also showed its
      marker. */
  ghost predicate Says(manifest: Manifest, results: seq<CheckResult>, baseline: bool, i: nat)
    requires i < |CHECK_ORDER| && i < |results|
  {
    var spec, said := manifest(CHECK_ORDER[i]), results[i];
    var want := if baseline then spec.baselineExpectation else spec.patchedExpectation;
    && (want == ExpectPassed || want == FindingAbsent ==> said.status == StatusPassed)
    && (want == FindingPresent || want == VulnerabilityReproduced ==>
          said.status == StatusFailed && said.exitCode == Some(1))
    && (want == VulnerabilityReproduced ==>
          spec.requiredMarker.Some? && Contains(said.summary, spec.requiredMarker.value))
  }

  /** All four checks were run, and each said what it must. */
  ghost predicate SaysAll(manifest: Manifest, results: seq<CheckResult>, baseline: bool) {
    |results| == |CHECK_ORDER| && forall i: nat :: i < |CHECK_ORDER| ==> Says(manifest, results, baseline, i)
  }

  lemma MetIffSays(manifest: Manifest, results: seq<CheckResult>, baseline: bool, i: nat)
    requires i < |CHECK_ORDER| && i < |results|
    ensures ExpectationMet(manifest(CHECK_ORDER[i]), results[i], baseline) <==> Says(manifest, results, baseline, i)
  {
    var marker := manifest(CHECK_ORDER[i]).requiredMarker;
    if marker.Some? {
      OccursIsContains(marker.value, results[i].summary);
    }
  }

  /** A ladder is met if and only if every check said what it must: no failed check is taken for a passed one, and
      no check that said the right thing is refused. */
  lemma LadderMetIff(manifest: Manifest, results: seq<CheckResult>, baseline: bool)
    ensures LadderMet(manifest, results, baseline) <==> SaysAll(manifest, results, baseline)
  {
    if |results| == |CHECK_ORDER| {
      forall i: nat | i < |CHECK_ORDER|
        ensures ExpectationMet(manifest(CHECK_ORDER[i]), results[i], baseline) <==>
                Says(manifest, results, baseline, i)
      {
        MetIffSays(manifest, results, baseline, i);
      }
    }
  }

  lemma MetOneMore(manifest: Manifest, results: seq<CheckResult>, result: CheckResult, baseline: bool)
    requires |results| < |CHECK_ORDER|
    ensures MetSoFar(manifest, results + [result], baseline) <==>
              (MetSoFar(manifest, results, baseline) &&
               ExpectationMet(manifest(CHECK_ORDER[|results|]), result, baseline))
  {
    var all := results + [result];
    assert MetSoFar(manifest, all, baseline) ==> forall i :: 0 <= i < |results| ==> all[i] == results[i];
  }
}
