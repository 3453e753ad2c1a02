// The record of a run, operation by operation, and what can be read off it: that it is true to the
// environment, and that every operation for the model was supervised.
module RunHistory {
  import opened Wrappers
  import opened Phases
  import opened Supervision
  import opened Checks
  import opened Environments

  datatype RunResult = RunResult(
    phase: RunPhase, candidatePatch: Option<string>, candidateSha256: Option<string>, checkResults: seq<CheckResult>)

  /** What the runner does, in order. A question put to the environment carries its tick and what came of it;
      `Turned` is a turn put on record. */
  datatype Op =
    | Enter(session: Session, at: nat, entered: bool)
    | Ladder(session: Session, baseline: bool)
    | Check(session: Session, at: nat, name: CheckName, result: CheckResult)
    | Answer(at: nat, action: Action)
    | ModelCall(at: nat, tool: string, arguments: string, ok: bool)
    | Propose(session: Session, at: nat, diff: string, accepted: bool)
    | ReadDiff(at: nat, diff: string)
    | Turned(turn: Turn)
    | Leave(session: Session, at: nat, clean: bool)
    | Save(saved: RunResult)

  /** How often the runner did what its budgets pay for. */
  datatype Tally = Tally(
    answers: nat, modelCalls: nat, workPatches: nat, workLadders: nat, replays: nat, saves: nat)
  {
    function After(op: Op): Tally {
      match op
      case Answer(_, _) => this.(answers := answers + 1)
      case ModelCall(_, _, _, _) => this.(modelCalls := modelCalls + 1)
      case Propose(session, _, _, _) => if session == Work then this.(workPatches := workPatches + 1) else this
      case Ladder(session, baseline) =>
        if session == Work && !baseline then this.(workLadders := workLadders + 1) else this
      case Enter(session, _, _) => if session == Replay then this.(replays := replays + 1) else this
      case Save(_) => this.(saves := saves + 1)
      case _ => this
    }
  }

  const NO_OPS := Tally(0, 0, 0, 0, 0, 0)

  /** What the environment has to say about the operations so far: when the next question may be put, which
      sessions are open, and whether all that is on record is what it answered. */
  datatype Ground = Ground(now: nat, open: set<Session>, genuine: bool) {
    /** A question put at this tick, no earlier than the last one is over. */
    ghost function Put(at: nat, answered: bool): Ground {
      Ground(at + 1, open, genuine && now <= at && answered)
    }

    ghost function After(op: Op, env: Environment): Ground {
      match op
      case Enter(s, at, entered) =>
        Put(at, env.Admits() && s !in open && entered == env.enter(at, s).Got?).(
          open := if entered then open + {s} else open)
      case Ladder(s, _) => this.(genuine := genuine && s in open)
      case Check(s, at, name, result) => Put(at, s in open && env.check(at, s, name) == Got(result))
      case Answer(at, action) => Put(at, env.action(at) == Got(action))
      case ModelCall(at, tool, arguments, ok) =>
        Put(at, Work in open && ok == env.call(at, Work, CallTool(tool, arguments)).Got?)
      case Propose(s, at, diff, accepted) =>
        Put(at, s in open && accepted == env.call(at, s, ProposePatch(diff)).Got?)
      case ReadDiff(at, diff) => Put(at, Work in open && env.call(at, Work, CurrentDiff) == Got(diff))
      case Leave(s, at, clean) =>
        Put(at, s in open && clean == env.leave(at, s).None?).(open := open - {s})
      case _ => this
    }
  }

  const NO_GROUND := Ground(0, {}, true)

  /** What the runner owes the model's last answer: an operation, if it is let through, and a turn on record
      under the signature that the answer had when it came. */
  datatype Duty = Idle | Due(action: Action, signature: Signature, outcome: Option<bool>)

  /** Every failed operation is on record as a failed turn. */
  ghost predicate AllOnRecord(failedOps: multiset<Signature>, turns: TurnLog) {
    forall s :: failedOps[s] <= Failures(turns, s)
  }

  /** What supervision must know of the operations so far: the turns on record, the failed operations by
      signature, the hashes of the diffs that landed, what goes into the next signature, and whether every
      operation was in order. */
  datatype Books = Books(turns: TurnLog, failedOps: multiset<Signature>, landed: seq<string>, phase: RunPhase,
                         candidate: Option<string>, duty: Duty, disciplined: bool) {
    ghost predicate Settled() {
      AllOnRecord(failedOps, turns)
    }

    /** All failed operations are on record, but for `n` under this signature. */
    ghost predicate Owing(s: Signature, n: nat) {
      forall s' ::
        failedOps[s'] <= Failures(turns, s') + (if s' == s then n else 0)
    }

    ghost function SignatureOf(action: Action, env: Environment): Signature {
      var patched := if candidate.Some? then candidate.value else "clean";
      Signature(env.KeyOf(action), phase, env.baselineSha + ":" + patched, candidate)
    }

    /** An operation for the model. It is in order if it is what the model last asked for, not carried out
        before, and its signature has failed less often than allowed, with every earlier failure on record. */
    ghost function Performed(action: Action, ok: bool, max: nat): Books {
      if duty.Due? && duty.action == action && duty.outcome.None? then
        this.(disciplined := disciplined && Failures(turns, duty.signature) < max && Settled(),
              failedOps := if ok then failedOps else failedOps + multiset{duty.signature},
              duty := duty.(outcome := Some(ok)))
      else
        this.(disciplined := false)
    }

    /** What is due need not be carried out even if it is let through: a tool that the model may not see, a diff
        that the policy rejects or that would bring back the patch before the last, a claim to be done. */
    ghost predicate Excused(env: Environment)
      requires duty.Due?
    {
      match duty.action
      case ToolAction(tool, _) => tool !in env.ModelTools()
      case PatchAction(diff) =>
        env.inspectPatch(diff).None? || !NoOscillation(landed + [env.inspectPatch(diff).value])
      case CompletionAction(_) => true
    }

    /** A turn put on record. It is in order if it is the one that is due, marked as let through exactly if its
        signature had failed less often than allowed, and as successful exactly if its operation was; if it was
        let through, there was an operation or an excuse. */
    ghost function Recording(turn: Turn, max: nat, env: Environment): Books {
      this.(turns := Logged(turns, turn), duty := Idle,
            disciplined := disciplined && duty.Due? && turn.signature == duty.signature &&
                           turn.allowed == (Failures(turns, turn.signature) < max) &&
                           turn.succeeded == turn.progress == (duty.outcome == Some(true)) &&
                           (turn.allowed && duty.outcome.None? ==> Excused(env)))
    }

    ghost function After(op: Op, max: nat, env: Environment): Books {
      match op
      case Answer(_, action) =>
        this.(duty := Due(action, SignatureOf(action, env), None), disciplined := disciplined && duty.Idle?)
      case ModelCall(_, tool, arguments, ok) =>
        var b := Performed(ToolAction(tool, arguments), ok, max);
        b.(disciplined := b.disciplined && tool in env.ModelTools())
      case Propose(Work, _, diff, accepted) =>
        Performed(PatchAction(diff), accepted, max).Inspected(diff, accepted, env)
      case Turned(turn) => Recording(turn, max, env)
      case ReadDiff(_, diff) => this.(candidate := Some(env.sha256(diff)))
      case Ladder(session, baseline) => if session == Work && !baseline then this.(phase := Repairing) else this
      case _ => this
    }

    /** Only diffs that the policy lets pass may be proposed; those that land join the list. */
    ghost function Inspected(diff: string, accepted: bool, env: Environment): Books {
      match env.inspectPatch(diff)
      case Some(hash) => if accepted then this.(landed := landed + [hash]) else this
      case None => this.(disciplined := false)
    }
  }

  const NO_BOOKS := Books(NoTurns, multiset{}, [], Investigating, None, Idle, true)

  /** A failed operation is settled by the failed turn that follows it. */
  lemma TurnSettles(b: Books, turn: Turn, max: nat, env: Environment)
    requires b.Owing(turn.signature, if turn.succeeded then 0 else 1)
    ensures b.Recording(turn, max, env).Settled()
  {
    forall s ensures b.failedOps[s] <= Failures(Logged(b.turns, turn), s) {
    }
  }

  /** The operations so far, the latest outermost. */
  datatype History = Start | Then(before: History, op: Op) {
    function Tallied(): (t: Tally) {
      match this
      case Start => NO_OPS
      case Then(before, op) => before.Tallied().After(op)
    }

    ghost function Grounded(env: Environment): (g: Ground) {
      match this
      case Start => NO_GROUND
      case Then(before, op) => before.Grounded(env).After(op, env)
    }

    ghost function Booked(max: nat, env: Environment): (b: Books) {
      match this
      case Start => NO_BOOKS
      case Then(before, op) => before.Booked(max, env).After(op, max, env)
    }

    /** `earlier` is this history at some earlier moment. */
    ghost predicate Extends(earlier: History) {
      this == earlier || (Then? && before.Extends(earlier))
    }

    /** Everything on record happened as recorded, and everything done for the model was in order. */
    ghost predicate Real(max: nat, env: Environment) {
      Grounded(env).genuine && Booked(max, env).disciplined
    }
  }

  /** How many operations of a history are of this kind. */
  ghost function Count(h: History, kind: Op -> bool): (n: nat) {
    match h
    case Start => 0
    case Then(before, op) => Count(before, kind) + (if kind(op) then 1 else 0)
  }

  predicate IsAnswer(op: Op) { op.Answer? }

  predicate IsToolCall(op: Op) { op.ModelCall? }

  predicate IsWorkPatch(op: Op) { op.Propose? && op.session == Work }

  predicate IsWorkLadder(op: Op) { op.Ladder? && op.session == Work && !op.baseline }

  predicate IsReplay(op: Op) { op.Enter? && op.session == Replay }

  predicate IsSave(op: Op) { op.Save? }

  function Unit(b: bool): nat { if b then 1 else 0 }

  lemma SumsStep(t: Tally, op: Op)
    ensures t.After(op) == Tally(
      t.answers + Unit(IsAnswer(op)), t.modelCalls + Unit(IsToolCall(op)), t.workPatches + Unit(IsWorkPatch(op)),
      t.workLadders + Unit(IsWorkLadder(op)), t.replays + Unit(IsReplay(op)), t.saves + Unit(IsSave(op)))
  {
  }

  /** The sums are those of the operations: answers, tool calls, diffs proposed and ladders of the patched code on the
      work session, replay sessions asked for, results saved. */
  lemma {:induction false} SumsAreCounts(h: History)
    ensures h.Tallied() == Tally(Count(h, IsAnswer), Count(h, IsToolCall), Count(h, IsWorkPatch),
                                 Count(h, IsWorkLadder), Count(h, IsReplay), Count(h, IsSave))
  {
    if h.Then? {
      SumsAreCounts(h.before);
      SumsStep(h.before.Tallied(), h.op);
      hide Tally.After, IsAnswer, IsToolCall, IsWorkPatch, IsWorkLadder, IsReplay, IsSave;
    }
  }

  /** Two actions do the same: the same tool with the same arguments, a diff with the same hash, a claim with the same
      evidence. */
  predicate SameDeed(a: Action, b: Action, env: Environment) {
    || (a.ToolAction? && b.ToolAction? && a.tool == b.tool && a.arguments == b.arguments)
    || (a.PatchAction? && b.PatchAction? && env.sha256(a.diff) == env.sha256(b.diff))
    || (a.CompletionAction? && b.CompletionAction? && a.evidence == b.evidence)
  }

  /** Two answers are supervised as the same action exactly if they do the same in the same phase on the same
      candidate. */
  lemma SameSignatureIff(x: Books, a: Action, y: Books, b: Action, env: Environment)
    ensures x.SignatureOf(a, env) == y.SignatureOf(b, env) <==>
            SameDeed(a, b, env) && x.phase == y.phase && x.candidate == y.candidate
  {
  }

  /** These are the sums, the ground and the books that a history comes to. */
  ghost predicate Tells(h: History, tally: Tally, ground: Ground, books: Books, max: nat, env: Environment) {
    tally == h.Tallied() && ground == h.Grounded(env) && books == h.Booked(max, env)
  }

  lemma {:induction false} ExtendsIsTransitive(a: History, b: History, c: History)
    requires a.Extends(b) && b.Extends(c)
    ensures a.Extends(c)
  {
    if a != b {
      ExtendsIsTransitive(a.before, b, c);
    }
  }

  /** What was real stays part of what is real. */
  lemma {:induction false} RealThroughout(h: History, earlier: History, max: nat, env: Environment)
    requires h.Extends(earlier) && h.Real(max, env)
    ensures earlier.Real(max, env) && earlier.Grounded(env).now <= h.Grounded(env).now
  {
    if h != earlier {
      RealThroughout(h.before, earlier, max, env);
    }
  }

  /** One operation more, carried out in order, fails no signature more often than allowed. */
  lemma FailsOnceMore(b: Books, op: Op, max: nat, env: Environment, s: Signature)
    requires b.After(op, max, env).disciplined
    ensures b.disciplined
    ensures b.After(op, max, env).failedOps[s] <= b.failedOps[s] || b.After(op, max, env).failedOps[s] <= max
  {
  }

  /** Sessions are open only in runs that were admitted. */
  lemma {:induction false} OpenMeansAdmitted(h: History, env: Environment)
    requires h.Grounded(env).genuine && h.Grounded(env).open != {}
    ensures env.Admits()
  {
    if !h.op.Enter? {
      OpenMeansAdmitted(h.before, env);
    }
  }

  /** In a disciplined history no signature was carried out and failed more often than allowed. */
  lemma {:induction false} FailsAtMost(h: History, max: nat, env: Environment, s: Signature)
    requires h.Booked(max, env).disciplined
    ensures h.Booked(max, env).failedOps[s] <= max
  {
    if h.Then? {
      FailsOnceMore(h.before.Booked(max, env), h.op, max, env, s);
      hide Books.After;
      FailsAtMost(h.before, max, env, s);
    }
  }

  /** The operation of the model that this is, if it is one. */
  function ForModel(op: Op): (action: Option<Action>) {
    match op
    case ModelCall(_, tool, arguments, _) => Some(ToolAction(tool, arguments))
    case Propose(Work, _, diff, _) => Some(PatchAction(diff))
    case _ => None
  }

  /** Only an answer brings a duty, and only a turn on record ends it. */
  lemma DutyStands(b: Books, op: Op, max: nat, env: Environment)
    requires b.After(op, max, env).duty.Due? && !op.Answer?
    ensures b.duty.Due? && b.duty.action == b.After(op, max, env).duty.action
    ensures b.duty.signature == b.After(op, max, env).duty.signature
  {
  }

  /** An operation for the model that failed. */
  predicate FailedForModel(op: Op) {
    (op.ModelCall? && !op.ok) || (op.Propose? && op.session == Work && !op.accepted)
  }

  /** How many operations for the model failed while this signature was due. */
  ghost function FailedUnder(h: History, s: Signature, max: nat, env: Environment): (n: nat) {
    match h
    case Start => 0
    case Then(before, op) =>
      var duty := before.Booked(max, env).duty;
      FailedUnder(before, s, max, env) + (if FailedForModel(op) && duty.Due? && duty.signature == s then 1 else 0)
  }

  /** The hashes of the diffs that the work session took, in order. */
  ghost function Taken(h: History, env: Environment): (hashes: seq<string>) {
    match h
    case Start => []
    case Then(before, op) =>
      if op.Propose? && op.session == Work && op.accepted && env.inspectPatch(op.diff).Some? then
        Taken(before, env) + [env.inspectPatch(op.diff).value]
      else Taken(before, env)
  }

  /** The turns put on record, in order. */
  ghost function TurnsIn(h: History): (turns: TurnLog) {
    match h
    case Start => NoTurns
    case Then(before, op) => if op.Turned? then Logged(TurnsIn(before), op.turn) else TurnsIn(before)
  }

  /** The books of a disciplined history are those of its operations. */
  lemma {:induction false} BooksAreTrue(h: History, s: Signature, max: nat, env: Environment)
    requires h.Booked(max, env).disciplined
    ensures h.Booked(max, env).failedOps[s] == FailedUnder(h, s, max, env)
    ensures h.Booked(max, env).landed == Taken(h, env) && h.Booked(max, env).turns == TurnsIn(h)
  {
    if h.Then? {
      BooksStep(h.before.Booked(max, env), h.op, s, max, env);
      hide Books.After;
      BooksAreTrue(h.before, s, max, env);
    }
  }

  lemma BooksStep(b: Books, op: Op, s: Signature, max: nat, env: Environment)
    requires b.After(op, max, env).disciplined
    ensures b.disciplined
    ensures b.After(op, max, env).failedOps[s] ==
      b.failedOps[s] + (if FailedForModel(op) && b.duty.Due? && b.duty.signature == s then 1 else 0)
    ensures b.After(op, max, env).landed ==
      if op.Propose? && op.session == Work && op.accepted && env.inspectPatch(op.diff).Some? then
        b.landed + [env.inspectPatch(op.diff).value]
      else b.landed
    ensures b.After(op, max, env).turns == if op.Turned? then Logged(b.turns, op.turn) else b.turns
  {
  }

  /** The duty is owed to an answer that the environment really gave, after any moment at which nothing was due,
      and its signature names the action of that answer. */
  lemma {:induction false} DutyWasAnswered(h: History, idle: History, max: nat, env: Environment)
    requires h.Real(max, env) && h.Booked(max, env).duty.Due?
    requires h.Extends(idle) && idle.Booked(max, env).duty.Idle?
    ensures var b := h.Booked(max, env);
      && (exists t: nat :: idle.Grounded(env).now <= t < h.Grounded(env).now && env.action(t) == Got(b.duty.action))
      && b.duty.signature.action == env.KeyOf(b.duty.action)
  {
    RealThroughout(h, h.before, max, env);
    RealThroughout(h.before, idle, max, env);
    if h.op.Answer? {
      assert idle.Grounded(env).now <= h.op.at < h.Grounded(env).now && env.action(h.op.at) == Got(h.op.action);
    } else {
      DutyStands(h.before.Booked(max, env), h.op, max, env);
      hide Books.After, Ground.After;
      DutyWasAnswered(h.before, idle, max, env);
      var t: nat :| idle.Grounded(env).now <= t < h.before.Grounded(env).now &&
                    env.action(t) == Got(h.Booked(max, env).duty.action);
      assert t < h.Grounded(env).now;
    }
  }

  lemma {:induction false} ExtendsStart(h: History)
    ensures h.Extends(Start)
  {
    if h.Then? {
      ExtendsStart(h.before);
    }
  }

  /** Wherever an operation for the model stands in a real history, the model had asked for it, the signature of
      that action had failed less often than allowed, in turns on record and in operations alike, a tool is one
      that the model may see and a diff one that the policy lets pass. */
  lemma {:induction false} CarriedOutInOrder(h: History, earlier: History, max: nat, env: Environment)
    requires h.Extends(earlier) && h.Real(max, env) && earlier.Then? && ForModel(earlier.op).Some?
    ensures var b := earlier.before.Booked(max, env);
      var action := ForModel(earlier.op).value;
      && b.duty.Due? && b.duty.action == action && b.duty.signature.action == env.KeyOf(action)
      && (exists t: nat :: t < earlier.op.at && env.action(t) == Got(action))
      && b.failedOps[b.duty.signature] <= Failures(b.turns, b.duty.signature) < max
      && (action.ToolAction? ==> action.tool in env.ModelTools())
      && (action.PatchAction? ==> env.inspectPatch(action.diff).Some?)
  {
    if h != earlier {
      CarriedOutInOrder(h.before, earlier, max, env);
    } else {
      var b := earlier.before.Booked(max, env);
      ExtendsStart(earlier.before);
      DutyWasAnswered(earlier.before, Start, max, env);
      var t: nat :| t < earlier.before.Grounded(env).now && env.action(t) == Got(b.duty.action);
      assert t < earlier.op.at;
    }
  }

  /** A history continued by one ladder whose checks, one tick each, produced these results. */
  function LadderOn(h: History, session: Session, baseline: bool, at: nat, results: seq<CheckResult>): (h': History)
    requires |results| <= |CHECK_ORDER|
  {
    if results == [] then Then(h, Ladder(session, baseline))
    else
      var n := |results| - 1;
      Then(LadderOn(h, session, baseline, at, results[..n]), Check(session, at + n, CHECK_ORDER[n], results[n]))
  }

  lemma {:induction false} LadderExtends(h: History, session: Session, baseline: bool, at: nat,
                                         results: seq<CheckResult>)
    requires |results| <= |CHECK_ORDER|
    ensures LadderOn(h, session, baseline, at, results).Extends(h)
  {
    if results != [] {
      LadderExtends(h, session, baseline, at, results[..|results| - 1]);
    }
  }

  /** A ladder extended by one check. */
  lemma LadderSnoc(h: History, session: Session, baseline: bool, at: nat, results: seq<CheckResult>,
                   result: CheckResult)
    requires |results| < |CHECK_ORDER|
    ensures LadderOn(h, session, baseline, at, results + [result]) ==
              Then(LadderOn(h, session, baseline, at, results),
                   Check(session, at + |results|, CHECK_ORDER[|results|], result))
  {
    assert (results + [result])[..|results|] == results;
  }

  /** The environment gave these results to the checks of a ladder. */
  ghost predicate ChecksGave(env: Environment, session: Session, at: nat, results: seq<CheckResult>)
    requires |results| <= |CHECK_ORDER|
  {
    forall i :: 0 <= i < |results| ==> env.check(at + i, session, CHECK_ORDER[i]) == Got(results[i])
  }

  lemma OneMoreGiven(env: Environment, session: Session, at: nat, results: seq<CheckResult>, result: CheckResult)
    requires |results| < |CHECK_ORDER| && ChecksGave(env, session, at, results)
    requires env.check(at + |results|, session, CHECK_ORDER[|results|]) == Got(result)
    ensures ChecksGave(env, session, at, results + [result])
  {
  }

  /** A ladder begins and checks are run only on open sessions, and what a check said is on record. */
  lemma OpIsReal(h: History, op: Op, max: nat, env: Environment)
    requires (op.Ladder? || op.Check?) && Then(h, op).Real(max, env)
    ensures h.Real(max, env) && op.session in h.Grounded(env).open
    ensures Then(h, op).Grounded(env).open == h.Grounded(env).open
    ensures Then(h, op).Booked(max, env).duty == h.Booked(max, env).duty
    ensures op.Check? ==> env.check(op.at, op.session, op.name) == Got(op.result)
    ensures op.Check? ==> Then(h, op).Grounded(env).now == op.at + 1
  {
  }

  /** The results of a ladder in a real history are what the checks of an open session said. */
  lemma {:induction false} LadderIsReal(h: History, session: Session, baseline: bool, at: nat,
                                        results: seq<CheckResult>, max: nat, env: Environment)
    requires |results| <= |CHECK_ORDER| && LadderOn(h, session, baseline, at, results).Real(max, env)
    ensures h.Real(max, env) && session in h.Grounded(env).open && ChecksGave(env, session, at, results)
    ensures LadderOn(h, session, baseline, at, results).Grounded(env).open == h.Grounded(env).open
    ensures results != [] ==> LadderOn(h, session, baseline, at, results).Grounded(env).now == at + |results|
    ensures LadderOn(h, session, baseline, at, results).Booked(max, env).duty == h.Booked(max, env).duty
  {
    hide History.Grounded, History.Booked, History.Real;
    if results == [] {
      OpIsReal(h, Ladder(session, baseline), max, env);
    } else {
      var n := |results| - 1;
      OpIsReal(LadderOn(h, session, baseline, at, results[..n]),
               Check(session, at + n, CHECK_ORDER[n], results[n]), max, env);
      LadderIsReal(h, session, baseline, at, results[..n], max, env);
      assert forall i :: 0 <= i < n ==> results[..n][i] == results[i];
    }
  }
}
