// Loop supervision: repeated failing actions, A-B-A patch oscillation, stagnation.
module Supervision {
  import opened Wrappers
  import opened Phases

  /** What a turn did, without the model's prose. The source hashes this; here it is compared. */
  datatype ActionKey =
    | ToolKey(tool: string, arguments: string)
    | PatchKey(diffSha256: string)
    | CompletionKey(evidence: seq<string>)

  datatype Signature = Signature(action: ActionKey, phase: RunPhase, repositoryHash: string, patchHash: Option<string>)

  /** One recorded turn; `allowed` says whether the action had been let through. */
  datatype Turn = Turn(signature: Signature, allowed: bool, succeeded: bool, progress: bool)

  /** The turns on record, the latest outermost. */
  datatype TurnLog = NoTurns | Logged(before: TurnLog, last: Turn)

  /** How often the signature failed. */
  function Failures(turns: TurnLog, s: Signature): (n: nat) {
    match turns
    case NoTurns => 0
    case Logged(before, last) => Failures(before, s) + (if last.signature == s && !last.succeeded then 1 else 0)
  }

  /** How often the signature was let through and failed. */
  function LetThroughFailures(turns: TurnLog, s: Signature): (n: nat)
    ensures n <= Failures(turns, s)
  {
    match turns
    case NoTurns => 0
    case Logged(before, last) =>
      LetThroughFailures(before, s) + (if last.signature == s && last.allowed && !last.succeeded then 1 else 0)
  }

  /** The number of turns since one made progress. */
  function NoProgress(turns: TurnLog): (n: nat) {
    match turns
    case NoTurns => 0
    case Logged(before, last) => if last.progress then 0 else NoProgress(before) + 1
  }

  function Length(turns: TurnLog): (n: nat) {
    match turns
    case NoTurns => 0
    case Logged(before, _) => Length(before) + 1
  }

  /** The k-th turn on record. */
  function TurnAt(turns: TurnLog, k: nat): (turn: Turn)
    requires k < Length(turns)
  {
    if k == Length(turns) - 1 then turns.last else TurnAt(turns.before, k)
  }

  /** The turns on record under this signature that failed. */
  ghost function FailedTurns(turns: TurnLog, s: Signature): set<nat> {
    set k: nat | k < Length(turns) && TurnAt(turns, k).signature == s && !TurnAt(turns, k).succeeded
  }

  /** The failures of a signature are the failed turns under it, each counted once. */
  lemma {:induction false} FailuresAreFailedTurns(turns: TurnLog, s: Signature)
    ensures Failures(turns, s) == |FailedTurns(turns, s)|
  {
    match turns
    case NoTurns =>
    case Logged(before, last) =>
      FailuresAreFailedTurns(before, s);
      var n := Length(before);
      forall k: nat | k < n ensures TurnAt(turns, k) == TurnAt(before, k) {
      }
      assert TurnAt(turns, n) == last;
      if last.signature == s && !last.succeeded {
        assert FailedTurns(turns, s) == FailedTurns(before, s) + {n};
      } else {
        assert FailedTurns(turns, s) == FailedTurns(before, s);
      }
  }

  /** The stagnation counter is the length of the stretch of turns without progress at the end of the record. */
  lemma {:induction false} NoProgressIsTheTail(turns: TurnLog)
    ensures NoProgress(turns) <= Length(turns)
    ensures forall k: nat :: Length(turns) - NoProgress(turns) <= k < Length(turns) ==> !TurnAt(turns, k).progress
    ensures NoProgress(turns) < Length(turns) ==> TurnAt(turns, Length(turns) - NoProgress(turns) - 1).progress
  {
    match turns
    case NoTurns =>
    case Logged(before, last) =>
      NoProgressIsTheTail(before);
      forall k: nat | k < Length(before) ensures TurnAt(turns, k) == TurnAt(before, k) {
      }
  }

  /** No patch comes back right after being replaced by a different one. */
  ghost predicate NoOscillation(history: seq<string>) {
    forall i :: 0 <= i < |history| - 2 ==> !FlipsBack(history, i)
  }

  ghost predicate FlipsBack(history: seq<string>, i: nat)
    requires i + 2 < |history|
  {
    history[i] == history[i + 2] && history[i] != history[i + 1]
  }

  lemma OneMorePatch(history: seq<string>, hash: string)
    requires NoOscillation(history)
    ensures NoOscillation(history + [hash]) <==>
              !(|history| >= 2 && hash == history[|history| - 2] && hash != history[|history| - 1])
  {
    var after := history + [hash];
    forall i | 0 <= i < |after| - 2
      ensures FlipsBack(after, i) <==> i == |history| - 2 && hash == history[i] && hash != history[i + 1]
    {
      if i < |history| - 2 {
        assert !FlipsBack(history, i);
      }
    }
    if |history| >= 2 {
      assert FlipsBack(after, |history| - 2) <==> hash == history[|history| - 2] && hash != history[|history| - 1];
    }
  }

  datatype Verdict = Allow | RepeatedFailedAction | PatchOscillation | StateStagnation

  const MAX_STAGNANT_TURNS := 3

  class LoopSupervisor {
    const maxIdenticalFailures: nat
    const maxStagnantTurns: nat := MAX_STAGNANT_TURNS
    var failedActions: map<Signature, nat>
    var patchHistory: seq<string>
    var stagnantTurns: nat
    ghost var turns: TurnLog

    constructor (maxIdenticalFailures: nat)
      requires maxIdenticalFailures >= 1
      ensures Valid() && this.maxIdenticalFailures == maxIdenticalFailures && patchHistory == [] && turns == NoTurns
    {
      this.maxIdenticalFailures := maxIdenticalFailures;
      failedActions := map[];
      patchHistory := [];
      stagnantTurns := 0;
      turns := NoTurns;
    }

    /** The counters are those of the turns recorded, and no let-through action failed too often. */
    ghost predicate Valid()
      reads this`failedActions, this`stagnantTurns, this`turns
    {
      && maxIdenticalFailures >= 1
      && (forall s :: Counted(s))
      && stagnantTurns == NoProgress(turns)
    }

    ghost predicate Counted(s: Signature)
      reads this`failedActions, this`turns
    {
      FailureCount(s) == Failures(turns, s) && LetThroughFailures(turns, s) <= maxIdenticalFailures
    }

    function FailureCount(s: Signature): nat
      reads this`failedActions
    {
      if s in failedActions then failedActions[s] else 0
    }

    function EvaluateAction(s: Signature): (v: Verdict)
      requires Valid()
      reads this`failedActions, this`stagnantTurns, this`turns
      ensures v == (if Failures(turns, s) < maxIdenticalFailures then Allow else RepeatedFailedAction)
    {
      assert Counted(s);
      if FailureCount(s) >= maxIdenticalFailures then RepeatedFailedAction else Allow
    }

    method RecordActionResult(s: Signature, succeeded: bool, madeProgress: bool, ghost allowed: bool)
      returns (v: Verdict)
      requires Valid()
      requires allowed ==> EvaluateAction(s) == Allow
      modifies this`failedActions, this`stagnantTurns, this`turns
      ensures Valid()
      ensures turns == Logged(old(turns), Turn(s, allowed, succeeded, madeProgress))
      ensures stagnantTurns == (if madeProgress then 0 else old(stagnantTurns) + 1)
      ensures v == (if stagnantTurns >= maxStagnantTurns then StateStagnation else Allow)
    {
      if !succeeded {
        failedActions := failedActions[s := FailureCount(s) + 1];
      }
      stagnantTurns := if madeProgress then 0 else stagnantTurns + 1;
      turns := Logged(turns, Turn(s, allowed, succeeded, madeProgress));
      forall s' ensures Counted(s') {
        assert old(Counted(s'));
      }
      return if stagnantTurns >= maxStagnantTurns then StateStagnation else Allow;
    }

    /** Refuses exactly the patches that would complete an A-B-A pattern. */
    function EvaluatePatch(hash: string): (v: Verdict)
      reads this`patchHistory
      ensures NoOscillation(patchHistory) ==> (v == Allow <==> NoOscillation(patchHistory + [hash]))
      ensures v == Allow || v == PatchOscillation
    {
      var n := |patchHistory|;
      assert NoOscillation(patchHistory) ==> (OneMorePatch(patchHistory, hash); true);
      if n >= 2 && hash == patchHistory[n - 2] && hash != patchHistory[n - 1] then PatchOscillation else Allow
    }

    method RecordPatch(hash: string)
      modifies this`patchHistory
      ensures patchHistory == old(patchHistory) + [hash]
    {
      patchHistory := patchHistory + [hash];
    }
  }
}
