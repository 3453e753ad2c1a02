// The remediation run, against any environment.
module Runner {
  import opened Wrappers
  import opened Phases
  import opened Budgets
  import opened Supervision
  import opened Checks
  import opened Environments
  import opened RunHistory

  datatype Exception = Raised(fault: Fault) | OutOfBudget | BadTransition | AlreadyStarted

  datatype Reply<+T> = Return(value: T) | Raise(exception: Exception)

  datatype Request = Request(manifest: Manifest, limits: RunLimits)

  /** Evidence that a run earned its approval. */
  datatype Approval = Approval(
    base: seq<CheckResult>, middle: History, at: nat, signature: Signature, diff: string, candidate: string,
    repairs: seq<CheckResult>, work: seq<CheckResult>, replay: seq<CheckResult>)

  ghost predicate LaddersPassed(a: Approval, manifest: Manifest) {
    && LadderMet(manifest, a.base, true)
    && LadderMet(manifest, a.work, false)
    && LadderMet(manifest, a.replay, false)
  }

  /** The replay of a candidate in a fresh session, beginning at this tick. */
  function ReplayOn(h: History, at: nat, candidate: string, results: seq<CheckResult>): (h': History)
    requires |results| <= |CHECK_ORDER|
  {
    var proposed := Then(Then(h, Enter(Replay, at, true)), Propose(Replay, at + 1, candidate, true));
    Then(LadderOn(proposed, Replay, false, at + 2, results), Leave(Replay, at + 2 + |results|, true))
  }

  /** The tick of the first question of a run. */
  const FIRST_TICK: nat := 1

  const ENTERED := Then(Start, Enter(Work, FIRST_TICK, true))

  /** The first operations of every run that gets past its baseline. */
  ghost function Opening(base: seq<CheckResult>): History
    requires |base| <= |CHECK_ORDER|
  {
    LadderOn(ENTERED, Work, true, FIRST_TICK + 1, base)
  }

  /** A diff that landed on the work session, the candidate read back, and the turn put on record. */
  function Patched(middle: History, at: nat, s: Signature, diff: string, candidate: string): History {
    Then(Then(Then(middle, Propose(Work, at, diff, true)), ReadDiff(at + 1, candidate)),
         Turned(Turn(s, true, true, true)))
  }

  /** The patched history, and the checks of the candidate on the work session. */
  ghost function CheckedHistory(a: Approval): History
    requires |a.work| <= |CHECK_ORDER|
  {
    LadderOn(Patched(a.middle, a.at, a.signature, a.diff, a.candidate), Work, false, a.at + 2, a.work)
  }

  /** The whole history of an approved run: after the baseline and whatever happened since
      (`middle`), the accepted diff, the candidate read back, its checks on the work session, and
      the replay of exactly that candidate. */
  ghost function ApprovedHistory(a: Approval): History
    requires |a.work| == |a.replay| == |CHECK_ORDER|
  {
    ReplayOn(CheckedHistory(a), a.at + 2 + |a.work|, a.candidate, a.replay)
  }

  /** What really happened in an approved run, said of the environment alone: the checks of the work session
      gave the baseline results before anything was patched; the model asked for the diff, which the policy
      lets pass; the work session took it and gave back the candidate, and its checks gave the working results;
      then a fresh session was opened, took that very candidate, its checks gave the replay results, and it was
      left in order. All in this order, one tick after the other from the diff on. */
  ghost predicate Happened(env: Environment, a: Approval)
    requires |a.base| == |a.work| == |a.replay| == |CHECK_ORDER|
  {
    && env.Admits() && env.enter(FIRST_TICK, Work).Got?
    && ChecksGave(env, Work, FIRST_TICK + 1, a.base)
    && (exists t: nat :: FIRST_TICK + 4 < t < a.at && env.action(t) == Got(PatchAction(a.diff)))
    && env.inspectPatch(a.diff).Some?
    && env.call(a.at, Work, ProposePatch(a.diff)).Got?
    && env.call(a.at + 1, Work, CurrentDiff) == Got(a.candidate)
    && ChecksGave(env, Work, a.at + 2, a.work)
    && env.enter(a.at + 6, Replay).Got?
    && env.call(a.at + 7, Replay, ProposePatch(a.candidate)).Got?
    && ChecksGave(env, Replay, a.at + 8, a.replay)
    && env.leave(a.at + 12, Replay).None?
  }

  /** The end of a real history that replays a candidate. */
  lemma ReplayHappened(h: History, at: nat, candidate: string, results: seq<CheckResult>, max: nat, env: Environment)
    requires |results| == |CHECK_ORDER| && ReplayOn(h, at, candidate, results).Real(max, env)
    ensures h.Real(max, env)
    ensures env.enter(at, Replay).Got? && env.call(at + 1, Replay, ProposePatch(candidate)).Got?
    ensures ChecksGave(env, Replay, at + 2, results) && env.leave(at + 6, Replay).None?
  {
    var entered := Then(h, Enter(Replay, at, true));
    var proposed := Then(entered, Propose(Replay, at + 1, candidate, true));
    LadderIsReal(proposed, Replay, false, at + 2, results, max, env);
    assert entered.Real(max, env);
  }

  /** A real history in which a diff landed and the candidate was read back. */
  lemma PatchHappened(middle: History, idle: History, at: nat, s: Signature, diff: string, candidate: string,
                      max: nat, env: Environment)
    requires Patched(middle, at, s, diff, candidate).Real(max, env)
    requires middle.Extends(idle) && idle.Booked(max, env).duty.Idle?
    ensures middle.Real(max, env) && env.inspectPatch(diff).Some?
    ensures env.call(at, Work, ProposePatch(diff)).Got? && env.call(at + 1, Work, CurrentDiff) == Got(candidate)
    ensures exists t: nat :: idle.Grounded(env).now <= t < at && env.action(t) == Got(PatchAction(diff))
  {
    var proposed := Then(middle, Propose(Work, at, diff, true));
    var read := Then(proposed, ReadDiff(at + 1, candidate));
    assert read.Real(max, env);
    assert proposed.Real(max, env);
    assert middle.Real(max, env) && middle.Booked(max, env).duty.Due?;
    DutyWasAnswered(middle, idle, max, env);
    var t: nat :| idle.Grounded(env).now <= t < middle.Grounded(env).now && env.action(t) == Got(PatchAction(diff));
    assert t < at;
  }

  /** The beginning of a real history that got past its baseline. */
  lemma OpeningHappened(base: seq<CheckResult>, max: nat, env: Environment)
    requires |base| == |CHECK_ORDER| && Opening(base).Real(max, env)
    ensures env.Admits() && env.enter(FIRST_TICK, Work).Got? && ChecksGave(env, Work, FIRST_TICK + 1, base)
    ensures Opening(base).Grounded(env).now == FIRST_TICK + 5 && Opening(base).Booked(max, env).duty.Idle?
  {
    LadderIsReal(ENTERED, Work, true, FIRST_TICK + 1, base, max, env);
  }

  /** The history of an approved run, if it is real, happened. */
  lemma ApprovedHappened(a: Approval, max: nat, env: Environment)
    requires |a.base| == |a.work| == |a.replay| == |CHECK_ORDER|
    requires a.middle.Extends(Opening(a.base)) && ApprovedHistory(a).Real(max, env)
    ensures Happened(env, a)
  {
    ReplayHappened(CheckedHistory(a), a.at + 6, a.candidate, a.replay, max, env);
    var patched := Patched(a.middle, a.at, a.signature, a.diff, a.candidate);
    LadderIsReal(patched, Work, false, a.at + 2, a.work, max, env);
    assert a.middle.Real(max, env) by {
      assert patched.before.Real(max, env);
      assert patched.before.before.Real(max, env);
    }
    RealThroughout(a.middle, Opening(a.base), max, env);
    OpeningHappened(a.base, max, env);
    PatchHappened(a.middle, Opening(a.base), a.at, a.signature, a.diff, a.candidate, max, env);
  }

  /** The counters that drive the loop are as they were. */
  ghost predicate SameTurns(before: Counts, after: Counts) {
    after == before.(toolCalls := after.toolCalls, policyViolations := after.policyViolations)
  }

  class HarnessRunner {
    const env: Environment
    const request: Request
    const budgets: BudgetTracker
    const supervisor: LoopSupervisor
    var phase: RunPhase
    var started: bool
    var concluded: bool
    var final: Option<RunResult>
    var checkResults: seq<CheckResult>
    var candidatePatch: Option<string>
    var candidateSha256: Option<string>
    /** Counts the questions put to the environment. */
    var tick: nat
    var trace: History
    ghost var tally: Tally
    ghost var ground: Ground
    ghost var books: Books
    var path: seq<RunPhase>
    /** Transitions asked for that the table does not allow. */
    var refused: seq<(RunPhase, RunPhase)>
    var iterations: nat

    constructor (env: Environment, request: Request)
      requires request.limits.identicalFailedActions >= 1
      ensures SettingUp() && phase == Created && checkResults == [] && Untouched()
      ensures fresh(budgets) && fresh(supervisor)
      ensures this.env == env && this.request == request && !started
    {
      this.env := env;
      this.request := request;
      budgets := new BudgetTracker(request.limits, env.clock(0));
      supervisor := new LoopSupervisor(request.limits.identicalFailedActions);
      phase := Created;
      started, concluded, final := false, false, None;
      checkResults, candidatePatch, candidateSha256 := [], None, None;
      tick, iterations := FIRST_TICK, 0;
      trace, path, refused := Start, [Created], [];
      tally, ground, books := NO_OPS, NO_GROUND, NO_BOOKS;
    }

    /** The supervisor is in order, and what it knows is what happened: its turns are those on record, its
        patch history is the list of diffs that landed, and every operation was carried out in order. */
    ghost predicate Supervised()
      reads this`books, supervisor
    {
      && supervisor.Valid() && supervisor.maxIdenticalFailures == request.limits.identicalFailedActions
      && books.turns == supervisor.turns && books.landed == supervisor.patchHistory && books.disciplined
    }

    ghost predicate Steady()
      reads supervisor`patchHistory
    {
      NoOscillation(supervisor.patchHistory)
    }

    ghost predicate OnPath()
      reads this`phase, this`path
    {
      |path| > 0 && path[0] == Created && path[|path| - 1] == phase && IsPath(path)
    }

    /** The ghosts tell what the history does, and the history tells what happened. */
    ghost predicate Recorded()
      reads this`tick, this`trace, this`tally, this`ground, this`books
    {
      && Tells(trace, tally, ground, books, supervisor.maxIdenticalFailures, env)
      && ground.genuine && ground.now <= tick
    }

    /** Nothing has been asked yet. */
    ghost predicate Untouched()
      reads this`tick, this`trace, this`ground
    {
      trace == Start && tick == FIRST_TICK && ground.open == {}
    }

    /** The counted operations stay within the budgets that pay for them. */
    ghost predicate Paid()
      reads this`tally, budgets
    {
      && budgets.Valid() && budgets.limits == request.limits
      && tally.answers <= budgets.used.modelTurns
      && tally.modelCalls <= budgets.used.toolCalls
      && tally.workPatches <= budgets.used.patchAttempts
      && tally.workLadders <= budgets.used.repairCycles + 1
    }

    ghost predicate Unfinished()
      reads this`concluded, this`final, this`tally, this`phase
    {
      !concluded && final.None? && tally.saves == 0 && !IsResultPhase(phase)
    }

    /** Records an operation that is none of the supervisor's business. */
    method Log(op: Op)
      requires Recorded() && ForModel(op).None? && !op.Answer? && !op.Turned? && !op.ReadDiff?
      requires op.Ladder? ==> op.session == Replay || op.baseline
      requires ground.After(op, env).genuine && ground.After(op, env).now <= tick
      modifies this`trace, this`tally, this`ground
      ensures Recorded() && trace == Then(old(trace), op) && tally == old(tally).After(op)
      ensures ground == old(ground).After(op, env)
    {
      trace := Then(trace, op);
      tally := tally.After(op);
      ground := ground.After(op, env);
    }

    /** Records an operation that concerns the supervisor. */
    method LogOp(op: Op)
      requires Recorded() && ground.After(op, env).genuine && ground.After(op, env).now <= tick
      modifies this`trace, this`tally, this`ground, this`books
      ensures Recorded() && trace == Then(old(trace), op) && tally == old(tally).After(op)
      ensures ground == old(ground).After(op, env)
      ensures books == old(books).After(op, supervisor.maxIdenticalFailures, env)
    {
      trace := Then(trace, op);
      tally := tally.After(op);
      ground := ground.After(op, env);
      books := books.After(op, supervisor.maxIdenticalFailures, env);
    }

    method Tick() returns (t: nat)
      modifies this`tick
      ensures t == old(tick) && tick == old(tick) + 1
    {
      t := tick;
      tick := tick + 1;
    }

    method Advance(target: RunPhase) returns (ok: bool)
      requires OnPath()
      modifies this`phase, this`path, this`refused
      ensures OnPath()
      ensures ok <==> CanTransition(old(phase), target)
      ensures ok ==> phase == target && refused == old(refused)
      ensures !ok ==> phase == old(phase) && refused == old(refused) + [(phase, target)]
    {
      ok := CanTransition(phase, target);
      if ok {
        PathGrows(path, target);
        phase := target;
        path := path + [target];
      } else {
        refused := refused + [(phase, target)];
      }
    }

    ghost predicate Finished(result: RunResult)
      reads this`concluded, this`final, this`tally, this`phase
    {
      && concluded && final == Some(result) && result.phase == phase && tally.saves == 1
      && IsResultPhase(phase)
    }

    /** Saves the result of a run whose final phase is reached. */
    method SaveResult(patch: Option<string>, sha: Option<string>) returns (result: RunResult)
      requires Recorded() && !concluded && tally.saves == 0 && IsResultPhase(phase)
      modifies this`final, this`trace, this`tally, this`ground, this`concluded
      ensures Recorded() && Finished(result) && result == RunResult(phase, patch, sha, checkResults)
      ensures trace == Then(old(trace), Save(result)) && tally == old(tally).(saves := 1) && ground == old(ground)
    {
      result := RunResult(phase, patch, sha, checkResults);
      final := Some(result);
      Log(Save(result));
      concluded := true;
    }

    /** Ends the run: one transition, one saved result. */
    method Conclude(target: RunPhase, patch: Option<string>, sha: Option<string>) returns (r: Reply<RunResult>)
      requires OnPath() && Recorded() && Unfinished() && IsResultPhase(target)
      modifies this`phase, this`path, this`refused, this`final, this`trace, this`tally, this`ground, this`concluded
      ensures OnPath() && Recorded()
      ensures tally == old(tally).(saves := tally.saves) && ground == old(ground)
      ensures CanTransition(old(phase), target) ==>
                r == Return(RunResult(target, patch, sha, checkResults)) && Finished(r.value) &&
                refused == old(refused) && trace == Then(old(trace), Save(r.value)) && phase == target
      ensures !CanTransition(old(phase), target) ==>
                r == Raise(BadTransition) && Unfinished() && refused == old(refused) + [(phase, target)] &&
                phase == old(phase) && trace == old(trace)
    {
      var ok := Advance(target);
      if !ok { return Raise(BadTransition); }
      var result := SaveResult(patch, sha);
      return Return(result);
    }

    /** A budget is used up, or time is. */
    ghost predicate Overdrawn()
      reads budgets
    {
      || (exists b: BudgetName :: budgets.used.Of(b) == request.limits.counts.Of(b))
      || (exists t: nat :: !budgets.WithinWallClock(env.clock(t)))
    }

    /** An exception with a reason: the environment raised it, or a budget ran out. */
    ghost predicate Founded(e: Exception)
      reads budgets
    {
      match e
      case Raised(fault) => env.CanRaise(fault)
      case OutOfBudget => Overdrawn()
      case _ => false
    }

    /** A whole ladder on this session really missed an expectation. */
    ghost predicate Missed(session: Session) {
      exists at: nat, results: seq<CheckResult> ::
        |results| == |CHECK_ORDER| && ChecksGave(env, session, at, results) &&
        !LadderMet(request.manifest, results, false)
    }

    /** What must really have happened for a run to end in this phase. */
    ghost predicate Warrants(target: RunPhase)
      reads this`checkResults, budgets, supervisor
    {
      match target
      case ModelUnavailable => env.health == Got(false) || exists t: nat :: env.action(t) == Fails(ModelLost)
      case SourceRejected => env.snapshot == Fails(SnapshotRejected)
      case BaselineFailed => BaselineMissed()
      case FindingNotReproducible => BaselineMissed()
      case InvalidModelOutput => Overdrawn() && exists t: nat :: env.action(t) == Fails(InvalidOutput)
      case VerificationFailed => Overdrawn() && Missed(Work)
      case CleanReplayFailed => Missed(Replay)
      case BudgetExhausted => Overdrawn() || supervisor.stagnantTurns >= supervisor.maxStagnantTurns
      case SandboxError => exists fault: Fault :: env.CanRaise(fault)
      case Cancelled => env.CanRaise(Cancellation)
      case AwaitingApproval => true
      case _ => false
    }

    /** The checks of the untouched code, as far as they went, missed an expectation. */
    ghost predicate BaselineMissed()
      reads this`checkResults
    {
      && 0 < |checkResults| <= |CHECK_ORDER| && ChecksGave(env, Work, FIRST_TICK + 1, checkResults)
      && !LadderMet(request.manifest, checkResults, true)
    }

    lemma CheckRaises(t: nat, session: Session, name: CheckName)
      requires env.check(t, session, name).Fails?
      ensures Founded(Raised(env.check(t, session, name).fault))
    {
      assert env.RaisesAt(t, env.check(t, session, name).fault);
    }

    lemma CallRaises(t: nat, session: Session, command: Command)
      requires env.call(t, session, command).Fails?
      ensures Founded(Raised(env.call(t, session, command).fault))
    {
      assert env.RaisesAt(t, env.call(t, session, command).fault);
    }

    lemma DoorRaises(t: nat, session: Session)
      ensures env.enter(t, session).Fails? ==> Founded(Raised(env.enter(t, session).fault))
      ensures env.leave(t, session).Some? ==> Founded(Raised(env.leave(t, session).value))
    {
      if env.enter(t, session).Fails? {
        assert env.RaisesAt(t, env.enter(t, session).fault);
      }
      if env.leave(t, session).Some? {
        assert env.RaisesAt(t, env.leave(t, session).value);
      }
    }

    lemma AnswerRaises(t: nat)
      requires env.action(t).Fails?
      ensures Founded(Raised(env.action(t).fault))
    {
      assert env.RaisesAt(t, env.action(t).fault);
    }

    /** A budget that refuses to pay is used up, or time is. */
    lemma RefusalMeans(b: BudgetName, t: nat)
      requires budgets.Valid() && budgets.limits == request.limits
      requires !budgets.WithinWallClock(env.clock(t)) || budgets.used.Of(b) + 1 > request.limits.counts.Of(b)
      ensures Overdrawn()
    {
      if budgets.WithinWallClock(env.clock(t)) {
        assert budgets.used.Of(b) == request.limits.counts.Of(b);
      }
    }

    /** Runs one check on an open session and records what it says. */
    method RunCheck(session: Session, name: CheckName) returns (r: Foreign<CheckResult>)
      requires Recorded() && session in ground.open
      modifies this`tick, this`trace, this`tally, this`ground
      ensures Recorded() && tally == old(tally) && ground.open == old(ground).open
      ensures r == env.check(old(tick), session, name) && tick == old(tick) + 1
      ensures trace == (if r.Got? then Then(old(trace), Check(session, old(tick), name, r.value)) else old(trace))
    {
      var t := Tick();
      r := env.check(t, session, name);
      if r.Got? { Log(Check(session, t, name, r.value)); }
    }

    /** A ladder begins. */
    method BeginLadder(session: Session, baseline: bool)
      requires Recorded() && session in ground.open
      modifies this`trace, this`tally, this`ground, this`books
      ensures Recorded() && tally == old(tally).After(Ladder(session, baseline)) && ground == old(ground)
      ensures trace == Then(old(trace), Ladder(session, baseline))
      ensures books == if session == Work && !baseline then old(books).(phase := Repairing) else old(books)
    {
      LogOp(Ladder(session, baseline));
    }

    /** Runs the four checks in order on a session; with `failFast` it stops at the first miss. */
    method RunLadder(session: Session, baseline: bool, failFast: bool) returns (r: Reply<(bool, seq<CheckResult>)>)
      requires Recorded() && session in ground.open
      modifies this`tick, this`trace, this`tally, this`ground, this`books
      ensures Recorded() && tally == old(tally).After(Ladder(session, baseline)) && ground.open == old(ground).open
      ensures books == if session == Work && !baseline then old(books).(phase := Repairing) else old(books)
      ensures r.Raise? ==> r.exception.Raised? && Founded(r.exception)
      ensures r.Return? ==>
                && 0 < |r.value.1| <= |CHECK_ORDER| && tick == old(tick) + |r.value.1|
                && trace == LadderOn(old(trace), session, baseline, old(tick), r.value.1)
                && ChecksGave(env, session, old(tick), r.value.1)
                && (r.value.0 <==> LadderMet(request.manifest, r.value.1, baseline))
                && (r.value.0 <==> SaysAll(request.manifest, r.value.1, baseline))
                && (|r.value.1| < |CHECK_ORDER| ==> failFast)
    {
      hide Tells;
      var results: seq<CheckResult> := [];
      var ok := true;
      BeginLadder(session, baseline);
      ghost var begun := books;
      for i := 0 to |CHECK_ORDER|
        invariant Recorded() && tally == old(tally).After(Ladder(session, baseline)) && ground.open == old(ground).open
        invariant books == begun && tick == old(tick) + i
        invariant |results| == i && ChecksGave(env, session, old(tick), results)
        invariant trace == LadderOn(old(trace), session, baseline, old(tick), results)
        invariant ok <==> MetSoFar(request.manifest, results, baseline)
        invariant failFast ==> ok
      {
        var reply := RunCheck(session, CHECK_ORDER[i]);
        if reply.Fails? {
          CheckRaises(old(tick) + i, session, CHECK_ORDER[i]);
          return Raise(Raised(reply.fault));
        }
        LadderSnoc(old(trace), session, baseline, old(tick), results, reply.value);
        OneMoreGiven(env, session, old(tick), results, reply.value);
        MetOneMore(request.manifest, results, reply.value, baseline);
        results := results + [reply.value];
        if !ExpectationMet(request.manifest(CHECK_ORDER[i]), reply.value, baseline) {
          ok := false;
          if failFast {
            LadderMetIff(request.manifest, results, baseline);
            return Return((ok, results));
          }
        }
      }
      LadderMetIff(request.manifest, results, baseline);
      return Return((ok, results));
    }

    /** The model's last answer is this action, and nothing has been done about it yet. */
    ghost predicate Deciding(action: Action, s: Signature)
      reads this`tick, this`trace, this`tally, this`ground, this`books, supervisor
    {
      Recorded() && Supervised() && books.Settled() && Work in ground.open && books.duty == Due(action, s, None)
    }

    /** So far this came of the model's last answer, and the failures on record are complete but for it. */
    ghost predicate Decided(action: Action, s: Signature, outcome: Option<bool>)
      reads this`tick, this`trace, this`tally, this`ground, this`books, supervisor
    {
      && Recorded() && Supervised() && Work in ground.open && books.duty == Due(action, s, outcome)
      && books.Owing(s, if outcome == Some(true) then 0 else 1)
      && (outcome.None? && supervisor.EvaluateAction(s) == Allow ==> books.Excused(env))
    }

    /** A tool was called for the model, which asked for it and was let through. */
    method Called(s: Signature, t: nat, tool: string, arguments: string, ok: bool)
      requires Deciding(ToolAction(tool, arguments), s) && supervisor.EvaluateAction(s) == Allow
      requires tool in env.ModelTools() && ground.now <= t < tick
      requires ok == env.call(t, Work, CallTool(tool, arguments)).Got?
      modifies this`trace, this`tally, this`ground, this`books
      ensures Decided(ToolAction(tool, arguments), s, Some(ok))
      ensures trace == Then(old(trace), ModelCall(t, tool, arguments, ok)) && ground.open == old(ground).open
      ensures tally == old(tally).(modelCalls := old(tally).modelCalls + 1) && OnlyBooked(old(books), books)
    {
      LogOp(ModelCall(t, tool, arguments, ok));
    }

    /** A diff of the model that was let through did not land. */
    method Bounced(s: Signature, t: nat, diff: string)
      requires Deciding(PatchAction(diff), s) && supervisor.EvaluateAction(s) == Allow
      requires env.inspectPatch(diff).Some? && ground.now <= t < tick && env.call(t, Work, ProposePatch(diff)).Fails?
      modifies this`trace, this`tally, this`ground, this`books
      ensures Decided(PatchAction(diff), s, Some(false))
      ensures trace == Then(old(trace), Propose(Work, t, diff, false)) && ground.open == old(ground).open
      ensures tally == old(tally).(workPatches := old(tally).workPatches + 1) && OnlyBooked(old(books), books)
    {
      LogOp(Propose(Work, t, diff, false));
    }

    /** Puts a turn on record, with the supervisor and in the history. */
    method Book(action: Action, s: Signature, outcome: Option<bool>) returns (v: Verdict)
      requires Decided(action, s, outcome) && (outcome.Some? ==> supervisor.EvaluateAction(s) == Allow)
      modifies this`trace, this`tally, this`ground, this`books
      modifies supervisor`failedActions, supervisor`stagnantTurns, supervisor`turns
      ensures Recorded() && Supervised() && books.Settled() && books.duty == Idle
      ensures tally == old(tally) && ground == old(ground) && OnlyBooked(old(books), books)
      ensures supervisor.turns == Logged(old(supervisor.turns), TurnOf(s, old(supervisor.EvaluateAction(s)), outcome))
      ensures trace == Then(old(trace), Turned(supervisor.turns.last))
      ensures supervisor.stagnantTurns == if outcome == Some(true) then 0 else old(supervisor.stagnantTurns) + 1
      ensures v == if supervisor.stagnantTurns >= supervisor.maxStagnantTurns then StateStagnation else Allow
    {
      var succeeded := outcome == Some(true);
      var turn := TurnOf(s, supervisor.EvaluateAction(s), outcome);
      TurnSettles(books, turn, supervisor.maxIdenticalFailures, env);
      v := supervisor.RecordActionResult(s, succeeded, succeeded, turn.allowed);
      LogTurn(turn);
    }

    /** The turn that the supervisor has just recorded goes into the history. */
    method LogTurn(turn: Turn)
      requires Recorded() && supervisor.Valid()
      requires supervisor.maxIdenticalFailures == request.limits.identicalFailedActions
      requires supervisor.turns == Logged(books.turns, turn) && books.landed == supervisor.patchHistory
      requires books.Recording(turn, supervisor.maxIdenticalFailures, env).disciplined
      requires books.Recording(turn, supervisor.maxIdenticalFailures, env).Settled()
      modifies this`trace, this`tally, this`ground, this`books
      ensures Recorded() && Supervised() && books.Settled() && books.duty == Idle
      ensures tally == old(tally) && ground == old(ground) && OnlyBooked(old(books), books)
      ensures trace == Then(old(trace), Turned(turn))
    {
      LogOp(Turned(turn));
    }

    /** Takes one from a budget, if there is one and time for it. */
    method Pay(b: BudgetName, t: nat) returns (ok: bool)
      requires Paid()
      modifies budgets
      ensures Paid()
      ensures ok == old(budgets.WithinWallClock(env.clock(t)) && budgets.used.Of(b) < request.limits.counts.Of(b))
      ensures budgets.used == if ok then old(budgets.used).With(b, old(budgets.used).Of(b) + 1) else old(budgets.used)
      ensures !ok ==> Overdrawn()
    {
      var paid := budgets.Consume(b, 1, env.clock(t));
      ok := paid.Ok?;
      if !ok { RefusalMeans(b, t); }
    }

    /** Carries out a tool action of the model; the outcome is what the session said, if it was asked. */
    method RunToolAction(s: Signature, tool: string, arguments: string, tools: set<string>)
      returns (r: Reply<Option<bool>>)
      requires Deciding(ToolAction(tool, arguments), s) && Paid() && supervisor.EvaluateAction(s) == Allow
      requires tools == env.ModelTools()
      modifies this`tick, this`trace, this`tally, this`ground, this`books, budgets
      ensures Recorded() && Paid() && Supervised() && trace.Extends(old(trace)) && ground.open == old(ground).open
      ensures tally == old(tally).(modelCalls := tally.modelCalls) && OnlyBooked(old(books), books)
      ensures SameTurns(old(budgets.used), budgets.used)
      ensures r.Raise? ==> Founded(r.exception)
      ensures r.Return? ==> Decided(ToolAction(tool, arguments), s, r.value)
      ensures tool !in tools ==>
        && trace == old(trace)
        && if r == Return(None) then budgets.used.policyViolations == old(budgets.used).policyViolations + 1
           else r == Raise(OutOfBudget) && budgets.used == old(budgets.used)
      ensures tool in tools ==>
        var reply := env.call(old(tick), Work, CallTool(tool, arguments));
        || (trace == Then(old(trace), ModelCall(old(tick), tool, arguments, reply.Got?)) &&
            (r.Return? ==> r == Return(Some(reply.Got?))))
        || (trace == old(trace) && r == Raise(OutOfBudget))
    {
      hide Tells;
      var t := Tick();
      if tool !in tools {
        var paid := Pay(PolicyViolations, t);
        if !paid { return Raise(OutOfBudget); }
        return Return(None);
      }
      var paid := Pay(ToolCalls, t);
      if !paid { return Raise(OutOfBudget); }
      var reply := env.call(t, Work, CallTool(tool, arguments));
      Called(s, t, tool, arguments, reply.Got?);
      if reply.Got? { return Return(Some(true)); }
      if !reply.fault.ToolFault? {
        CallRaises(t, Work, CallTool(tool, arguments));
        return Raise(Raised(reply.fault));
      }
      if reply.fault.denied {
        t := Tick();
        paid := Pay(PolicyViolations, t);
        if !paid { return Raise(OutOfBudget); }
      }
      return Return(Some(false));
    }

    /** A diff that was inspected and let through lands: it is on record here and with the supervisor. */
    method Land(s: Signature, t: nat, diff: string, hash: string)
      requires Deciding(PatchAction(diff), s) && Steady() && supervisor.EvaluateAction(s) == Allow
      requires env.inspectPatch(diff) == Some(hash) && supervisor.EvaluatePatch(hash) == Allow
      requires ground.now <= t < tick && env.call(t, Work, ProposePatch(diff)).Got?
      modifies this`trace, this`tally, this`ground, this`books, supervisor`patchHistory
      ensures Decided(PatchAction(diff), s, Some(true)) && Steady()
      ensures trace == Then(old(trace), Propose(Work, t, diff, true)) && ground.open == old(ground).open
      ensures tally == old(tally).(workPatches := old(tally).workPatches + 1) && OnlyBooked(old(books), books)
      ensures supervisor.patchHistory == old(supervisor.patchHistory) + [hash]
    {
      LogOp(Propose(Work, t, diff, true));
      supervisor.RecordPatch(hash);
    }

    /** Validates a patch and applies it to the work session; the outcome is what the session said, if it was
        asked. */
    method RunPatchAction(s: Signature, diff: string) returns (r: Reply<Option<bool>>)
      requires Deciding(PatchAction(diff), s) && Paid() && Steady() && supervisor.EvaluateAction(s) == Allow
      requires tally.workPatches < budgets.used.patchAttempts
      modifies this`tick, this`trace, this`tally, this`ground, this`books, budgets, supervisor`patchHistory
      ensures Recorded() && Paid() && Steady() && Supervised() && trace.Extends(old(trace))
      ensures ground.open == old(ground).open
      ensures tally == old(tally).(workPatches := tally.workPatches) && OnlyBooked(old(books), books)
      ensures SameTurns(old(budgets.used), budgets.used)
      ensures r.Raise? ==> Founded(r.exception)
      ensures r.Return? ==> Decided(PatchAction(diff), s, r.value)
      ensures r == Return(Some(true)) ==>
        && env.inspectPatch(diff).Some? && env.call(old(tick), Work, ProposePatch(diff)).Got?
        && trace == Then(old(trace), Propose(Work, old(tick), diff, true)) && tick == old(tick) + 1
        && supervisor.patchHistory == old(supervisor.patchHistory) + [env.inspectPatch(diff).value]
      ensures r != Return(Some(true)) ==> supervisor.patchHistory == old(supervisor.patchHistory)
      ensures env.inspectPatch(diff).None? ==> trace == old(trace)
      ensures old(Rejects(diff)) ==>
        r == Return(None) &&
        budgets.used == old(budgets.used).(policyViolations := old(budgets.used).policyViolations + 1)
    {
      var t := Tick();
      var metadata := env.inspectPatch(diff);
      if metadata.None? {
        var paid := Pay(PolicyViolations, t);
        if !paid { return Raise(OutOfBudget); }
        return Return(None);
      }
      if supervisor.EvaluatePatch(metadata.value) != Allow { return Return(None); }
      var reply := env.call(t, Work, ProposePatch(diff));
      if reply.Fails? {
        Bounced(s, t, diff);
        if reply.fault.ToolFault? { return Return(Some(false)); }
        CallRaises(t, Work, ProposePatch(diff));
        return Raise(Raised(reply.fault));
      }
      Land(s, t, diff, metadata.value);
      return Return(Some(true));
    }

    /** The policy rejects the diff, and there is time and budget to say so. */
    ghost predicate Rejects(diff: string)
      reads budgets
    {
      && env.inspectPatch(diff).None? && InTime()
      && budgets.used.policyViolations < request.limits.counts.policyViolations
    }

    /** The clock never reaches the limit. */
    ghost predicate InTime()
      reads budgets
    {
      forall t: nat :: budgets.WithinWallClock(env.clock(t))
    }

    /** The candidate applied to the fresh session, then its ladder. */
    method ReplayCandidate(candidate: string) returns (r: Reply<(bool, seq<CheckResult>)>)
      requires Recorded() && Replay in ground.open
      modifies this`tick, this`trace, this`tally, this`ground, this`books
      ensures Recorded() && tally == old(tally) && ground.open == old(ground).open && books == old(books)
      ensures r.Raise? ==> r.exception.Raised? && Founded(r.exception)
      ensures r.Return? ==>
                && |r.value.1| == |CHECK_ORDER| && tick == old(tick) + 1 + |CHECK_ORDER|
                && (r.value.0 <==> LadderMet(request.manifest, r.value.1, false))
                && env.call(old(tick), Replay, ProposePatch(candidate)).Got?
                && (!r.value.0 ==> Missed(Replay))
                && trace == LadderOn(Then(old(trace), Propose(Replay, old(tick), candidate, true)), Replay, false,
                                     old(tick) + 1, r.value.1)
    {
      var t := Tick();
      var reply := env.call(t, Replay, ProposePatch(candidate));
      Log(Propose(Replay, t, candidate, reply.Got?));
      if reply.Fails? {
        CallRaises(t, Replay, ProposePatch(candidate));
        return Raise(Raised(reply.fault));
      }
      r := RunLadder(Replay, false, false);
    }

    /** Opens a session. */
    method Open(session: Session) returns (entered: Foreign<()>)
      requires Recorded() && session !in ground.open && env.Admits()
      modifies this`tick, this`trace, this`tally, this`ground
      ensures Recorded() && tick == old(tick) + 1
      ensures entered == env.enter(old(tick), session)
      ensures trace == Then(old(trace), Enter(session, old(tick), entered.Got?)) && tally == old(tally).After(trace.op)
      ensures ground.open == if entered.Got? then old(ground).open + {session} else old(ground).open
    {
      var t := Tick();
      entered := env.enter(t, session);
      Log(Enter(session, t, entered.Got?));
    }

    /** Leaves a session, whatever it says. */
    method Close(session: Session) returns (left: Option<Fault>)
      requires Recorded() && session in ground.open
      modifies this`tick, this`trace, this`tally, this`ground
      ensures Recorded() && tally == old(tally)
      ensures left == env.leave(old(tick), session)
      ensures trace == Then(old(trace), Leave(session, old(tick), left.None?))
      ensures ground.open == old(ground).open - {session}
    {
      var t := Tick();
      left := env.leave(t, session);
      Log(Leave(session, t, left.None?));
    }

    /** Applies the candidate to a fresh session and runs the patched ladder there. */
    method CleanReplay(candidate: string) returns (r: Reply<(bool, seq<CheckResult>)>)
      requires Recorded() && ground.open == {Work}
      modifies this`tick, this`trace, this`tally, this`ground, this`books
      ensures Recorded() && ground.open == {Work} && books == old(books)
      ensures tally == old(tally).(replays := old(tally).replays + 1)
      ensures r.Raise? ==> r.exception.Raised? && Founded(r.exception)
      ensures r.Return? ==>
                && |r.value.1| == |CHECK_ORDER|
                && (r.value.0 <==> LadderMet(request.manifest, r.value.1, false))
                && trace == ReplayOn(old(trace), old(tick), candidate, r.value.1)
                && env.enter(old(tick), Replay).Got?
                && env.call(old(tick) + 1, Replay, ProposePatch(candidate)).Got?
                && env.leave(old(tick) + 2 + |CHECK_ORDER|, Replay).None?
                && (!r.value.0 ==> Missed(Replay))
    {
      OpenMeansAdmitted(trace, env);
      hide Tells;
      ghost var t := tick;
      var entered := Open(Replay);
      DoorRaises(t, Replay);
      if entered.Fails? { return Raise(Raised(entered.fault)); }
      r := ReplayCandidate(candidate);
      DoorRaises(tick, Replay);
      var left := Close(Replay);
      if left.Some? { return Raise(Raised(left.value)); }
    }

    /** What holds from the verified baseline, with these results, to the end of the last turn. */
    ghost predicate Sound(base: seq<CheckResult>)
      reads this, budgets, supervisor
    {
      && Supervised() && Steady() && OnPath() && Recorded() && Paid() && Unfinished()
      && ground.open == {Work} && books.candidate == candidateSha256
      && LadderMet(request.manifest, base, true)
      && base <= checkResults
      && |checkResults| == ResultsOf(budgets.used.repairCycles + 1)
      && tally.workLadders == budgets.used.repairCycles
      && tally.replays == 0
    }

    /** What holds in the middle of a turn, while its outcome is not on record. */
    ghost predicate Midturn(base: seq<CheckResult>)
      reads this, budgets, supervisor
    {
      Sound(base) && InLoop() && books.phase == phase && trace.Extends(Opening(base)) && refused == []
    }

    /** What the loop keeps between turns. */
    ghost predicate Looping(base: seq<CheckResult>)
      reads this, budgets, supervisor
    {
      Midturn(base) && books.Settled() && books.duty == Idle
    }

    /** The model has answered, and its action is to be supervised. */
    ghost predicate Facing(base: seq<CheckResult>, action: Action)
      reads this, budgets, supervisor
    {
      Midturn(base) && books.Settled() && books.duty == Due(action, SignatureOf(action), None)
    }

    ghost predicate InLoop()
      reads this`phase
    {
      phase == Investigating || phase == Repairing
    }

    /** The outcome of a finished or interrupted turn, as the handlers of the run will see it. */
    ghost predicate Settled(r: Reply<RunResult>)
      reads this, budgets, supervisor
    {
      && Supervised() && Steady() && OnPath() && Recorded() && Paid() && refused == [] && tally.replays <= 1
      && ground.open == {Work}
      && match r
         case Return(result) =>
           && Finished(result) && Warrants(phase)
           && (phase == AwaitingApproval ==> exists a :: EarnedBy(a, result, trace))
         case Raise(e) =>
           && Unfinished()
           && Founded(e) && (e.OutOfBudget? ==> InLoop())
           && phase != Created && phase != CleanReplayVerified
    }

    /** The run went the whole way, and its result is what the evidence says. */
    ghost predicate EarnedBy(a: Approval, result: RunResult, history: History)
      reads budgets
    {
      && LaddersPassed(a, request.manifest)
      && a.middle.Extends(Opening(a.base))
      && history == Then(ApprovedHistory(a), Save(result)) && history.Real(request.limits.identicalFailedActions, env)
      && result.phase == AwaitingApproval
      && result.candidatePatch == Some(a.candidate)
      && result.candidateSha256 == Some(env.sha256(a.candidate))
      && result.checkResults == a.base + a.repairs + a.work + a.replay
      && |a.repairs| == ResultsOf(budgets.used.repairCycles)
      && |result.checkResults| == ResultsOf(budgets.used.repairCycles + 3)
    }

    lemma LoopingCanRaise(base: seq<CheckResult>, e: Exception)
      requires Midturn(base) && Founded(e)
      ensures Settled(Raise(e))
    {
    }

    /** Ends the run from inside the loop. */
    method StopIn(target: RunPhase, ghost base: seq<CheckResult>) returns (r: Reply<RunResult>)
      requires Midturn(base) && IsTerminal(target) && CanTransition(phase, target) && Warrants(target)
      modifies this`phase, this`path, this`refused, this`final, this`trace, this`tally, this`ground, this`concluded
      ensures Settled(r) && r.Return? && phase == target
    {
      r := Conclude(target, None, None);
    }

    /** The answer of the model, paid for, goes on record and is due. */
    method LogAnswer(t: nat, action: Action, ghost base: seq<CheckResult>)
      requires Looping(base) && ground.now <= t < tick && env.action(t) == Got(action)
      requires tally.answers < budgets.used.modelTurns
      modifies this`trace, this`tally, this`ground, this`books
      ensures Facing(base, action)
    {
      ghost var before := trace;
      LogOp(Answer(t, action));
      assert trace.before == before;
    }

    /** The model gave no answer, and not for want of a valid one. */
    method LoseModel(fault: Fault, ghost t: nat, ghost base: seq<CheckResult>) returns (r: Reply<RunResult>)
      requires Looping(base) && env.action(t) == Fails(fault)
      modifies this`phase, this`path, this`refused, this`final, this`trace, this`tally, this`ground, this`concluded
      ensures Settled(r)
      ensures if fault == ModelLost then r.Return? && phase == ModelUnavailable else r == Raise(Raised(fault))
    {
      if fault == ModelLost {
        r := StopIn(ModelUnavailable, base);
      } else {
        AnswerRaises(t);
        LoopingCanRaise(base, Raised(fault));
        r := Raise(Raised(fault));
      }
    }

    /** There is no budget for the answer of the model. */
    method RefuseAnswer(valid: bool, ghost t: nat, ghost base: seq<CheckResult>) returns (r: Reply<RunResult>)
      requires Looping(base) && Overdrawn() && (!valid ==> env.action(t) == Fails(InvalidOutput))
      modifies this`phase, this`path, this`refused, this`final, this`trace, this`tally, this`ground, this`concluded
      ensures Settled(r)
      ensures if valid then r == Raise(OutOfBudget) else r.Return? && phase == InvalidModelOutput
    {
      if valid {
        LoopingCanRaise(base, OutOfBudget);
        r := Raise(OutOfBudget);
      } else {
        r := StopIn(InvalidModelOutput, base);
      }
    }

    method PayForAnswer(valid: bool, ghost base: seq<CheckResult>) returns (ok: bool)
      requires Looping(base)
      modifies this`tick, budgets
      ensures Looping(base) && ok == old(Affordable(valid, env.clock(tick))) && (!ok ==> Overdrawn())
      ensures tick == old(tick) + 1
      ensures budgets.used ==
        if !ok then old(budgets.used)
        else if valid then old(budgets.used).(modelTurns := old(budgets.used).modelTurns + 1)
        else old(budgets.used).(invalidOutputs := old(budgets.used).invalidOutputs + 1)
    {
      var t := Tick();
      ok := Pay(if valid then ModelTurns else InvalidOutputs, t);
    }

    /** There is time and budget for one more answer, valid or not. */
    ghost predicate Affordable(valid: bool, now: real)
      reads budgets
    {
      && budgets.WithinWallClock(now)
      && if valid then budgets.used.modelTurns < request.limits.counts.modelTurns
         else budgets.used.invalidOutputs < request.limits.counts.invalidOutputs
    }

    /** Pays for what the model answered, if anything. */
    method TakeAnswer(asked: nat, ghost base: seq<CheckResult>) returns (ask: Ask)
      requires Looping(base) && ground.now <= asked < tick
      modifies this`tick, this`phase, this`path, this`refused, this`final, this`trace, this`tally, this`ground
      modifies this`books, this`concluded, budgets
      ensures Asked(ask, base, old(budgets.used)) && (ask.Act? ==> phase == old(phase))
      ensures ask.Act? ==> env.action(asked) == Got(ask.action)
      ensures env.action(asked).Got? && old(HasTurn()) ==> ask == Act(env.action(asked).value)
    {
      var answer := env.action(asked);
      if answer.Fails? && answer.fault != InvalidOutput {
        var r := LoseModel(answer.fault, asked, base);
        return Stop(r);
      }
      var paid := PayForAnswer(answer.Got?, base);
      if !paid {
        var r := RefuseAnswer(answer.Got?, asked, base);
        return Stop(r);
      }
      if answer.Fails? { return Retry; }
      LogAnswer(asked, answer.value, base);
      return Act(answer.value);
    }

    /** The state after asking the model, and what the answer cost. */
    ghost predicate Asked(ask: Ask, base: seq<CheckResult>, before: Counts)
      reads this, budgets, supervisor
    {
      match ask
      case Stop(reply) => Settled(reply) && budgets.used == before
      case Retry =>
        Looping(base) && budgets.used == before.(invalidOutputs := before.invalidOutputs + 1)
      case Act(action) =>
        Facing(base, action) && budgets.used == before.(modelTurns := before.modelTurns + 1)
    }

    /** There is time and budget for an answer of the model. */
    ghost predicate HasTurn()
      reads budgets
    {
      InTime() && budgets.used.modelTurns < request.limits.counts.modelTurns
    }

    /** Asks the model for an action, within the clock and the budgets. */
    method AskModel(ghost base: seq<CheckResult>) returns (ask: Ask)
      requires Looping(base)
      modifies this`tick, this`phase, this`path, this`refused, this`final, this`trace, this`tally, this`ground
      modifies this`books, this`concluded, budgets
      ensures Asked(ask, base, old(budgets.used)) && (ask.Act? ==> phase == old(phase))
      ensures ask.Act? ==> env.action(old(tick)) == Got(ask.action)
      ensures !budgets.WithinWallClock(env.clock(old(tick))) ==> ask == Stop(Raise(OutOfBudget)) && trace == old(trace)
      ensures env.action(old(tick)).Got? && old(HasTurn()) ==> ask == Act(env.action(old(tick)).value)
    {
      var t := Tick();
      assert Looping(base);
      if !budgets.WithinWallClock(env.clock(t)) {
        RefusalMeans(ModelTurns, t);
        LoopingCanRaise(base, OutOfBudget);
        return Stop(Raise(OutOfBudget));
      }
      ask := TakeAnswer(t, base);
    }

    method BookTurn(action: Action, s: Signature, outcome: Option<bool>, ghost base: seq<CheckResult>)
      returns (v: Verdict)
      requires Midturn(base) && Decided(action, s, outcome)
      requires outcome.Some? ==> supervisor.EvaluateAction(s) == Allow
      modifies this`trace, this`tally, this`ground, this`books
      modifies supervisor`failedActions, supervisor`stagnantTurns, supervisor`turns
      ensures Looping(base)
      ensures supervisor.turns == Logged(old(supervisor.turns), TurnOf(s, old(supervisor.EvaluateAction(s)), outcome))
      ensures trace == Then(old(trace), Turned(supervisor.turns.last))
      ensures supervisor.stagnantTurns == if outcome == Some(true) then 0 else old(supervisor.stagnantTurns) + 1
      ensures v == if supervisor.stagnantTurns >= supervisor.maxStagnantTurns then StateStagnation else Allow
    {
      hide Tells;
      ghost var before := trace;
      v := Book(action, s, outcome);
      assert trace.before == before;
    }

    /** Records a turn; a run that stagnates for too long ends here. */
    method RecordTurn(action: Action, s: Signature, outcome: Option<bool>, ghost base: seq<CheckResult>)
      returns (stop: Option<Reply<RunResult>>)
      requires Midturn(base) && Decided(action, s, outcome)
      requires outcome.Some? ==> supervisor.EvaluateAction(s) == Allow
      modifies this`phase, this`path, this`refused, this`final, this`trace, this`tally, this`ground, this`books
      modifies this`concluded, supervisor
      ensures budgets.used == old(budgets.used)
      ensures stop.Some? ==> Settled(stop.value)
      ensures stop.None? ==> Looping(base)
      ensures supervisor.turns == Logged(old(supervisor.turns), TurnOf(s, old(supervisor.EvaluateAction(s)), outcome))
      ensures stop.None? <==> supervisor.stagnantTurns < supervisor.maxStagnantTurns
    {
      hide HarnessRunner.Sound, HarnessRunner.Settled, HarnessRunner.Decided;
      var verdict := BookTurn(action, s, outcome, base);
      if verdict == Allow { return None; }
      var r := StopIn(BudgetExhausted, base);
      return Some(r);
    }

    method HandleTool(s: Signature, tool: string, arguments: string, tools: set<string>, ghost base: seq<CheckResult>)
      returns (stop: Option<Reply<RunResult>>)
      requires Facing(base, ToolAction(tool, arguments)) && s == SignatureOf(ToolAction(tool, arguments))
      requires supervisor.EvaluateAction(s) == Allow && tools == env.ModelTools()
      modifies this, budgets, supervisor
      ensures stop.Some? ==> Settled(stop.value)
      ensures stop.None? ==> Looping(base)
      ensures SameTurns(old(budgets.used), budgets.used) && iterations == old(iterations)
      ensures Judged(stop.None?, old(supervisor.turns))
    {
      hide Tells;
      var done := RunToolAction(s, tool, arguments, tools);
      ExtendsIsTransitive(trace, old(trace), Opening(base));
      assert Midturn(base);
      if done.Raise? {
        LoopingCanRaise(base, done.exception);
        return Some(Raise(done.exception));
      }
      stop := RecordTurn(ToolAction(tool, arguments), s, done.value, base);
    }

    /** How a pass of the loop treats stagnation. It puts at most one turn on record; if it does and the run
        has stagnated for too long, the run goes on exactly after a patch that was let through and did not
        land. */
    ghost predicate Judged(goesOn: bool, before: TurnLog)
      reads supervisor
    {
      || supervisor.turns == before
      || (&& supervisor.turns.Logged? && supervisor.turns.before == before
          && (supervisor.stagnantTurns >= supervisor.maxStagnantTurns ==>
                (goesOn <==> RejectedPatch(supervisor.turns.last))))
    }

    /** A landed patch has been read back and awaits its ladder. */
    ghost predicate Verifying(base: seq<CheckResult>, middle: History, at: nat, s: Signature, diff: string,
                              candidate: string)
      reads this, budgets, supervisor
    {
      && Sound(base) && books.Settled() && books.duty == Idle
      && phase == WorkingVerification && refused == []
      && middle.Extends(Opening(base))
      && trace == Patched(middle, at, s, diff, candidate) && tick == at + 2
      && candidatePatch == Some(candidate) && candidateSha256 == Some(env.sha256(candidate))
    }

    /** A step of the table that is known to be allowed. */
    method Move(target: RunPhase)
      requires OnPath() && CanTransition(phase, target)
      modifies this`phase, this`path, this`refused
      ensures OnPath() && phase == target && refused == old(refused)
    {
      var ok := Advance(target);
    }

    /** Walks the phases from the loop to the verification of a landed patch. */
    method WalkToVerification()
      requires OnPath() && InLoop()
      modifies this`phase, this`path, this`refused
      ensures OnPath() && phase == WorkingVerification && refused == old(refused)
    {
      if phase == Repairing {
        Move(PatchValidating);
      } else {
        Move(FindingConfirmed);
        Move(PatchEnabled);
        Move(PatchValidating);
      }
      Move(WorkingVerification);
    }

    method AdvanceToVerification(ghost base: seq<CheckResult>)
      requires Sound(base) && InLoop()
      modifies this`phase, this`path, this`refused
      ensures Sound(base) && phase == WorkingVerification && refused == old(refused)
    {
      WalkToVerification();
    }

    /** Reads back the text that the landed diff amounts to. */
    method ReadCandidate(ghost base: seq<CheckResult>) returns (failed: Option<Fault>)
      requires Sound(base)
      modifies this`tick, this`trace, this`tally, this`ground, this`books, this`candidatePatch, this`candidateSha256
      ensures Sound(base) && books == old(books).(candidate := books.candidate) && tick == old(tick) + 1
      ensures failed.Some? ==> trace == old(trace) && env.call(old(tick), Work, CurrentDiff) == Fails(failed.value)
      ensures failed.Some? ==> Founded(Raised(failed.value))
      ensures failed.None? ==>
                && candidatePatch.Some? && candidateSha256 == Some(env.sha256(candidatePatch.value))
                && env.call(old(tick), Work, CurrentDiff) == Got(candidatePatch.value)
                && trace == Then(old(trace), ReadDiff(old(tick), candidatePatch.value))
    {
      hide Tells, AllOnRecord, MetSoFar, HarnessRunner.Steady, HarnessRunner.OnPath;
      var t := Tick();
      var reply := env.call(t, Work, CurrentDiff);
      if reply.Fails? {
        CallRaises(t, Work, CurrentDiff);
        return Some(reply.fault);
      }
      candidatePatch, candidateSha256 := Some(reply.value), Some(env.sha256(reply.value));
      LogOp(ReadDiff(t, reply.value));
      return None;
    }

    /** Takes up a landed diff: reads the candidate back, puts the turn on record, and moves on to its
        verification. */
    method TakeCandidate(s: Signature, diff: string, ghost base: seq<CheckResult>, ghost middle: History,
                         ghost at: nat)
      returns (failed: Option<Fault>)
      requires Midturn(base) && Decided(PatchAction(diff), s, Some(true)) && supervisor.EvaluateAction(s) == Allow
      requires middle.Extends(Opening(base)) && tick == at + 1
      requires trace == Then(middle, Propose(Work, at, diff, true))
      modifies this, supervisor`failedActions, supervisor`stagnantTurns, supervisor`turns
      ensures failed.Some? ==> Midturn(base) && supervisor.turns == old(supervisor.turns)
      ensures failed.Some? ==> Founded(Raised(failed.value))
      ensures failed.None? ==>
        && candidatePatch.Some? && Verifying(base, middle, at, s, diff, candidatePatch.value)
        && supervisor.turns == Logged(old(supervisor.turns), Turn(s, true, true, true)) && supervisor.stagnantTurns == 0
      ensures iterations == old(iterations)
    {
      hide Tells;
      failed := ReadCandidate(base);
      if failed.None? { BookCandidate(PatchAction(diff), s, base); }
    }

    /** Puts the turn of a landed diff on record and moves on to the verification. */
    method BookCandidate(action: Action, s: Signature, ghost base: seq<CheckResult>)
      requires Midturn(base) && Decided(action, s, Some(true)) && supervisor.EvaluateAction(s) == Allow
      modifies this`phase, this`path, this`refused, this`trace, this`tally, this`ground, this`books
      modifies supervisor`failedActions, supervisor`stagnantTurns, supervisor`turns
      ensures Sound(base) && books.Settled() && books.duty == Idle && phase == WorkingVerification && refused == []
      ensures trace == Then(old(trace), Turned(Turn(s, true, true, true)))
      ensures supervisor.turns == Logged(old(supervisor.turns), Turn(s, true, true, true))
      ensures supervisor.stagnantTurns == 0
    {
      var verdict := BookTurn(action, s, Some(true), base);
      AdvanceToVerification(base);
    }

    /** Common to all moments of a verification. */
    ghost predicate Alive()
      reads this, budgets, supervisor
    {
      && Supervised() && Steady() && OnPath() && Recorded() && Paid() && Unfinished() && refused == []
      && ground.open == {Work} && books.candidate == candidateSha256 && books.phase == Repairing
      && books.Settled() && books.duty == Idle
      && phase == WorkingVerification
    }

    /** The work ladder of the candidate is done; `a.replay` is still to come. */
    ghost predicate Laddered(a: Approval)
      reads this, budgets
    {
      && LadderMet(request.manifest, a.base, true)
      && |a.work| == |CHECK_ORDER|
      && a.middle.Extends(Opening(a.base))
      && trace == CheckedHistory(a) && tick == a.at + 2 + |a.work|
      && checkResults == a.base + a.repairs + a.work
      && |a.repairs| == ResultsOf(budgets.used.repairCycles)
      && tally.workLadders == budgets.used.repairCycles + 1
      && tally.replays == 0
    }

    /** Runs the patched ladder on the work session. */
    method RunWorkLadder(ghost base: seq<CheckResult>, ghost middle: History, ghost at: nat, ghost s: Signature,
                         ghost diff: string, candidate: string)
      returns (r: Reply<bool>, ghost a: Approval)
      requires Verifying(base, middle, at, s, diff, candidate)
      modifies this`tick, this`trace, this`tally, this`ground, this`books, this`checkResults
      ensures Alive() && tally.replays == 0
      ensures r.Raise? ==> r.exception.Raised? && Founded(r.exception)
      ensures r.Return? ==>
                && a == Approval(base, middle, at, s, diff, candidate, a.repairs, a.work, [])
                && Laddered(a) && (!r.value ==> Missed(Work))
                && (r.value <==> LadderMet(request.manifest, a.work, false))
    {
      hide Tells, AllOnRecord, MetSoFar, ChecksGave, SaysAll, History.Extends, Opening;
      hide HarnessRunner.Steady, HarnessRunner.OnPath, HarnessRunner.Recorded;
      ghost var repairs := checkResults[|base|..];
      assert checkResults == base + repairs;
      var ladder := RunLadder(Work, false, false);
      if ladder.Raise? {
        a := Approval(base, middle, at, s, diff, candidate, repairs, [], []);
        return Raise(ladder.exception), a;
      }
      checkResults := checkResults + ladder.value.1;
      a := Approval(base, middle, at, s, diff, candidate, repairs, ladder.value.1, []);
      return Return(ladder.value.0), a;
    }

    /** Ends the run from a verification. */
    method StopVerifying(target: RunPhase) returns (r: Reply<RunResult>)
      requires Alive() && tally.replays <= 1 && IsTerminal(target) && CanTransition(WorkingVerification, target)
      requires Warrants(target)
      modifies this`phase, this`path, this`refused, this`final, this`trace, this`tally, this`ground, this`concluded
      ensures Settled(r)
    {
      r := Conclude(target, None, None);
    }

    /** All the evidence is in, the replay included. */
    ghost predicate Replayed(a: Approval)
      reads this, budgets
    {
      && LaddersPassed(a, request.manifest)
      && a.middle.Extends(Opening(a.base))
      && trace == ApprovedHistory(a)
      && candidatePatch == Some(a.candidate) && candidateSha256 == Some(env.sha256(a.candidate))
      && checkResults == a.base + a.repairs + a.work + a.replay
      && |a.repairs| == ResultsOf(budgets.used.repairCycles)
    }

    method Approve(ghost a: Approval) returns (r: Reply<RunResult>)
      requires Alive() && tally.replays == 1 && Replayed(a)
      modifies this`phase, this`path, this`refused, this`final, this`trace, this`tally, this`ground, this`concluded
      ensures Settled(r)
    {
      Move(CleanReplayVerified);
      r := Conclude(AwaitingApproval, candidatePatch, candidateSha256);
      assert EarnedBy(a, r.value, trace);
    }

    /** Replays a candidate whose work ladder passed. */
    method ReplayStep(ghost a: Approval, candidate: string) returns (r: Reply<bool>, ghost full: Approval)
      requires Alive() && Laddered(a) && LadderMet(request.manifest, a.work, false)
      requires a.candidate == candidate && candidatePatch == Some(candidate)
      requires candidateSha256 == Some(env.sha256(candidate))
      modifies this`tick, this`trace, this`tally, this`ground, this`books, this`checkResults
      ensures Alive() && tally.replays == 1
      ensures r.Raise? ==> r.exception.Raised? && Founded(r.exception)
      ensures r == Return(true) ==> Replayed(full)
      ensures r == Return(false) ==> Missed(Replay)
    {
      hide Tells, AllOnRecord, MetSoFar, ChecksGave, LadderMet, Opening, History.Extends;
      hide HarnessRunner.Steady, HarnessRunner.OnPath, HarnessRunner.Missed, HarnessRunner.Supervised;
      hide HarnessRunner.Founded, HarnessRunner.Recorded;
      var replay := CleanReplay(candidate);
      full := a;
      if replay.Raise? { return Raise(replay.exception), full; }
      checkResults := checkResults + replay.value.1;
      full := a.(replay := replay.value.1);
      return Return(replay.value.0), full;
    }

    /** Replays a candidate whose work ladder passed, and concludes. */
    method ReplayAndConclude(ghost a: Approval, candidate: string) returns (r: Reply<RunResult>)
      requires Alive() && Laddered(a) && LadderMet(request.manifest, a.work, false)
      requires a.candidate == candidate && candidatePatch == Some(candidate)
      requires candidateSha256 == Some(env.sha256(candidate))
      modifies this
      ensures Settled(r) && iterations == old(iterations)
    {
      hide Tells, AllOnRecord, MetSoFar, HarnessRunner.Steady, HarnessRunner.OnPath;
      var replayed;
      ghost var full;
      replayed, full := ReplayStep(a, candidate);
      if replayed.Raise? { return Raise(replayed.exception); }
      if replayed.value {
        r := Approve(full);
      } else {
        r := StopVerifying(CleanReplayFailed);
      }
    }

    /** A failed ladder's repair cycle has been paid for. */
    ghost predicate RepairPaid(a: Approval)
      reads this, budgets
    {
      && LadderMet(request.manifest, a.base, true) && a.base <= checkResults
      && trace.Extends(Opening(a.base)) && tally.replays == 0
      && |checkResults| == ResultsOf(budgets.used.repairCycles + 1)
      && tally.workLadders == budgets.used.repairCycles
    }

    method PayForRepair(ghost a: Approval) returns (ok: bool)
      requires Alive() && Laddered(a)
      modifies this`tick, budgets
      ensures Alive() && tally.replays == 0
      ensures if ok then RepairPaid(a) else Overdrawn()
      ensures SameTurnsButRepairs(old(budgets.used), budgets.used)
    {
      LadderedExtends(a);
      var t := Tick();
      ok := Pay(RepairCycles, t);
    }

    method BackToLoop(ghost a: Approval)
      requires Alive() && RepairPaid(a)
      modifies this`phase, this`path, this`refused
      ensures Looping(a.base)
    {
      Move(Repairing);
    }

    /** Pays for another repair cycle, or ends the run with a failed verification. */
    method RepairOrStop(ghost a: Approval) returns (stop: Option<Reply<RunResult>>)
      requires Alive() && Laddered(a) && Missed(Work)
      modifies this, budgets
      ensures stop.Some? ==> Settled(stop.value)
      ensures stop.None? ==> Looping(a.base)
      ensures SameTurnsButRepairs(old(budgets.used), budgets.used) && iterations == old(iterations)
    {
      hide HarnessRunner.Alive, HarnessRunner.Laddered, HarnessRunner.Looping, HarnessRunner.Settled;
      var paid := PayForRepair(a);
      if paid {
        BackToLoop(a);
        return None;
      }
      var r := StopVerifying(VerificationFailed);
      return Some(r);
    }

    lemma LadderedExtends(a: Approval)
      requires |a.base| <= |CHECK_ORDER| && |a.work| <= |CHECK_ORDER|
      requires a.middle.Extends(Opening(a.base))
      ensures CheckedHistory(a).Extends(Opening(a.base))
    {
      var patched := Patched(a.middle, a.at, a.signature, a.diff, a.candidate);
      LadderExtends(patched, Work, false, a.at + 2, a.work);
      assert patched.before.before.Extends(Opening(a.base));
      assert patched.before.Extends(Opening(a.base));
      assert patched.Extends(Opening(a.base));
      ExtendsIsTransitive(CheckedHistory(a), patched, Opening(a.base));
    }

    /** Verifies a landed candidate to the end: approval, another repair cycle, or a failed run. The run goes on to
        repair only if its checks really missed an expectation. */
    method Verify(ghost base: seq<CheckResult>, ghost middle: History, ghost at: nat, ghost s: Signature,
                  ghost diff: string, candidate: string)
      returns (stop: Option<Reply<RunResult>>)
      requires Verifying(base, middle, at, s, diff, candidate)
      modifies this, budgets
      ensures stop.Some? ==> Settled(stop.value)
      ensures stop.None? ==> Looping(base) && Missed(Work)
      ensures SameTurnsButRepairs(old(budgets.used), budgets.used) && iterations == old(iterations)
    {
      hide Tells;
      var verified;
      ghost var a;
      verified, a := RunWorkLadder(base, middle, at, s, diff, candidate);
      if verified.Raise? { return Some(Raise(verified.exception)); }
      if verified.value {
        var r := ReplayAndConclude(a, candidate);
        return Some(r);
      }
      stop := RepairOrStop(a);
    }

    method PayForPatch(ghost base: seq<CheckResult>, ghost action: Action) returns (ok: bool)
      requires Facing(base, action)
      modifies this`tick, budgets
      ensures Facing(base, action)
      ensures if ok then tally.workPatches < budgets.used.patchAttempts else Overdrawn()
      ensures budgets.used == if ok then old(budgets.used).(patchAttempts := old(budgets.used).patchAttempts + 1)
                              else old(budgets.used)
      ensures old(InTime()) && old(budgets.used).patchAttempts < request.limits.counts.patchAttempts ==> ok
    {
      var t := Tick();
      ok := Pay(PatchAttempts, t);
    }

    /** Pays for a patch attempt and submits the diff. */
    method SubmitPatch(s: Signature, diff: string, ghost base: seq<CheckResult>) returns (r: Reply<Option<bool>>)
      requires Facing(base, PatchAction(diff)) && s == SignatureOf(PatchAction(diff))
      requires supervisor.EvaluateAction(s) == Allow
      modifies this`tick, this`trace, this`tally, this`ground, this`books, budgets, supervisor`patchHistory
      ensures Midturn(base) && (r.Return? ==> Decided(PatchAction(diff), s, r.value))
      ensures SameLoopTurns(old(budgets.used), budgets.used)
      ensures budgets.used.repairCycles == old(budgets.used).repairCycles
      ensures r.Raise? ==> Founded(r.exception)
      ensures r == Return(Some(true)) ==> tick > 0 && trace == Then(old(trace), Propose(Work, tick - 1, diff, true))
      ensures old(Rejects(diff)) && old(budgets.used).patchAttempts < request.limits.counts.patchAttempts ==>
        r == Return(None) && budgets.used == OneRejected(old(budgets.used))
    {
      hide Tells, MetSoFar, ChecksGave;
      var paid := PayForPatch(base, PatchAction(diff));
      if !paid { return Raise(OutOfBudget); }
      ghost var before := trace;
      r := RunPatchAction(s, diff);
      ExtendsIsTransitive(trace, before, Opening(base));
    }

    /** A patch of the model: rejected, or verified to the end. After a rejected one the verdict on stagnation
        is not looked at. */
    method HandlePatch(s: Signature, diff: string, ghost base: seq<CheckResult>)
      returns (stop: Option<Reply<RunResult>>)
      requires Facing(base, PatchAction(diff)) && s == SignatureOf(PatchAction(diff))
      requires supervisor.EvaluateAction(s) == Allow
      modifies this, budgets, supervisor
      ensures stop.Some? ==> Settled(stop.value)
      ensures stop.None? ==> Looping(base)
      ensures SameLoopTurns(old(budgets.used), budgets.used) && iterations == old(iterations)
      ensures Judged(stop.None?, old(supervisor.turns))
      ensures old(Rejects(diff)) && old(budgets.used).patchAttempts < request.limits.counts.patchAttempts ==>
        && Rejected(stop, s, old(supervisor.turns), old(supervisor.stagnantTurns), old(budgets.used))
        && phase == old(phase) && candidateSha256 == old(candidateSha256)
    {
      hide Tells, AllOnRecord, MetSoFar, LadderMet, ChecksGave;
      ghost var middle := trace;
      var landed := SubmitPatch(s, diff, base);
      if landed == Return(Some(true)) {
        stop := HandleLanded(s, diff, base, middle);
      } else {
        stop := HandleBounced(landed, s, diff, base);
      }
    }

    /** A diff that did not land: the turn goes on record, and that is all. */
    method HandleBounced(landed: Reply<Option<bool>>, s: Signature, diff: string, ghost base: seq<CheckResult>)
      returns (stop: Option<Reply<RunResult>>)
      requires Midturn(base) && supervisor.EvaluateAction(s) == Allow && s.action.PatchKey?
      requires landed != Return(Some(true)) && (landed.Return? ==> Decided(PatchAction(diff), s, landed.value))
      requires landed.Raise? ==> Founded(landed.exception)
      modifies this`trace, this`tally, this`ground, this`books
      modifies supervisor`failedActions, supervisor`stagnantTurns, supervisor`turns
      ensures stop.Some? ==> Settled(stop.value)
      ensures stop.None? ==> Looping(base)
      ensures Judged(stop.None?, old(supervisor.turns))
      ensures landed.Return? ==>
        && stop.None? && supervisor.turns == Logged(old(supervisor.turns), Turn(s, true, false, false))
        && supervisor.stagnantTurns == old(supervisor.stagnantTurns) + 1
    {
      if landed.Raise? {
        LoopingCanRaise(base, landed.exception);
        return Some(Raise(landed.exception));
      }
      var verdict := BookTurn(PatchAction(diff), s, landed.value, base);
      return None;
    }

    /** A diff that landed is taken up and verified to the end. */
    method HandleLanded(s: Signature, diff: string, ghost base: seq<CheckResult>, ghost middle: History)
      returns (stop: Option<Reply<RunResult>>)
      requires Midturn(base) && Decided(PatchAction(diff), s, Some(true)) && supervisor.EvaluateAction(s) == Allow
      requires middle.Extends(Opening(base)) && tick > 0 && trace == Then(middle, Propose(Work, tick - 1, diff, true))
      modifies this, budgets, supervisor`failedActions, supervisor`stagnantTurns, supervisor`turns
      ensures stop.Some? ==> Settled(stop.value)
      ensures stop.None? ==> Looping(base)
      ensures SameTurnsButRepairs(old(budgets.used), budgets.used) && iterations == old(iterations)
      ensures Judged(stop.None?, old(supervisor.turns))
    {
      hide Tells;
      ghost var at := tick - 1;
      var failed := TakeCandidate(s, diff, base, middle, at);
      if failed.Some? {
        LoopingCanRaise(base, Raised(failed.value));
        return Some(Raise(Raised(failed.value)));
      }
      stop := Verify(base, middle, at, s, diff, candidatePatch.value);
    }

    /** A patch was rejected: the turn is on record as failed, and the run goes on. */
    ghost predicate Rejected(stop: Option<Reply<RunResult>>, s: Signature, turns: TurnLog, stagnant: nat, used: Counts)
      reads budgets, supervisor
    {
      && stop.None? && supervisor.turns == Logged(turns, Turn(s, true, false, false))
      && supervisor.stagnantTurns == stagnant + 1
      && budgets.used == OneRejected(used)
    }

    function SignatureOf(action: Action): Signature
      reads this`phase, this`candidateSha256
    {
      var patched := if candidateSha256.Some? then candidateSha256.value else "clean";
      Signature(env.KeyOf(action), phase, env.baselineSha + ":" + patched, candidateSha256)
    }

    /** Supervises one action of the model and carries it out. */
    method HandleAction(action: Action, tools: set<string>, ghost base: seq<CheckResult>)
      returns (stop: Option<Reply<RunResult>>)
      requires Facing(base, action) && tools == env.ModelTools()
      modifies this, budgets, supervisor
      ensures stop.Some? ==> Settled(stop.value)
      ensures stop.None? ==> Looping(base)
      ensures SameLoopTurns(old(budgets.used), budgets.used) && iterations == old(iterations)
      ensures Judged(stop.None?, old(supervisor.turns))
      ensures old(WillReject(action)) ==>
        && Rejected(stop, old(SignatureOf(action)), old(supervisor.turns), old(supervisor.stagnantTurns),
                    old(budgets.used))
        && phase == old(phase) && candidateSha256 == old(candidateSha256)
    {
      hide Tells;
      var s := SignatureOf(action);
      if supervisor.EvaluateAction(s) != Allow {
        stop := RecordTurn(action, s, None, base);
        return;
      }
      match action {
        case ToolAction(tool, arguments) => stop := HandleTool(s, tool, arguments, tools, base);
        case PatchAction(diff) => stop := HandlePatch(s, diff, base);
        case CompletionAction(_) => stop := RecordTurn(action, s, None, base);
      }
    }

    /** The action is a patch that will be let through, paid for and rejected by the policy. */
    ghost predicate WillReject(action: Action)
      reads this`phase, this`candidateSha256, budgets, supervisor
    {
      && action.PatchAction? && Rejects(action.diff)
      && budgets.used.patchAttempts < request.limits.counts.patchAttempts
      && supervisor.Valid() && supervisor.EvaluateAction(SignatureOf(action)) == Allow
    }

    /** The next answer of the model is a patch that will be let through, paid for and rejected. */
    ghost predicate Doomed()
      reads this`tick, this`phase, this`candidateSha256, budgets, supervisor
    {
      env.action(tick).Got? && HasTurn() && WillReject(env.action(tick).value)
    }

    method Follow(ask: Ask, tools: set<string>, ghost base: seq<CheckResult>, ghost before: Counts)
      returns (stop: Option<Reply<RunResult>>)
      requires Asked(ask, base, before) && tools == env.ModelTools()
      modifies this, budgets, supervisor
      ensures stop.Some? ==> Settled(stop.value)
      ensures stop.None? ==> Looping(base)
      ensures iterations == old(iterations)
      ensures stop.None? ==> Turns() == before.modelTurns + before.invalidOutputs + 1
      ensures stop.Some? ==> before.modelTurns + before.invalidOutputs <= Turns()
      ensures Judged(stop.None?, old(supervisor.turns))
      ensures ask.Stop? ==> stop == Some(ask.reply) && trace == old(trace)
      ensures ask.Act? && old(WillReject(ask.action)) ==>
        && Rejected(stop, old(SignatureOf(ask.action)), old(supervisor.turns), old(supervisor.stagnantTurns),
                    before.(modelTurns := before.modelTurns + 1))
        && phase == old(phase) && candidateSha256 == old(candidateSha256)
    {
      match ask {
        case Stop(reply) => stop := Some(reply);
        case Retry => stop := None;
        case Act(action) => stop := HandleAction(action, tools, base);
      }
    }

    /** One round of the run loop. */
    method TakeTurn(tools: set<string>, ghost base: seq<CheckResult>) returns (stop: Option<Reply<RunResult>>)
      requires Looping(base) && tools == env.ModelTools()
      modifies this, budgets, supervisor
      ensures stop.Some? ==> Settled(stop.value)
      ensures stop.None? ==> Looping(base)
      ensures iterations == old(iterations)
      ensures stop.None? ==> Turns() == old(Turns()) + 1
      ensures stop.Some? ==> old(Turns()) <= Turns()
      ensures Judged(stop.None?, old(supervisor.turns))
      ensures !budgets.WithinWallClock(env.clock(old(tick))) ==> stop == Some(Raise(OutOfBudget)) && trace == old(trace)
      ensures old(Doomed()) ==>
        && Rejected(stop, old(SignatureOf(env.action(tick).value)), old(supervisor.turns),
                    old(supervisor.stagnantTurns),
                    old(budgets.used).(modelTurns := old(budgets.used).modelTurns + 1))
        && phase == old(phase) && candidateSha256 == old(candidateSha256)
    {
      hide Tells, HarnessRunner.Sound, HarnessRunner.Settled;
      var ask := AskModel(base);
      stop := Follow(ask, tools, base, old(budgets.used));
    }

    /** Answers of the model that were paid for, valid or not. */
    ghost function Turns(): nat
      reads budgets
    {
      budgets.used.modelTurns + budgets.used.invalidOutputs
    }

    /** How many answers of the model the budgets pay for. */
    ghost function MaxTurns(): nat {
      request.limits.counts.modelTurns + request.limits.counts.invalidOutputs
    }

    ghost predicate WithinTurns()
      reads this`iterations, budgets
    {
      iterations <= Turns() + 1 && iterations <= MaxTurns() + 1
    }

    /** The run loop, which the budgets bring to an end whatever the model answers. */
    method RunLoop(tools: set<string>, ghost base: seq<CheckResult>) returns (r: Reply<RunResult>)
      requires Looping(base) && iterations == Turns() && tools == env.ModelTools()
      modifies this, budgets, supervisor
      ensures Settled(r) && WithinTurns()
    {
      hide Tells, AllOnRecord, MetSoFar, LadderMet, ChecksGave;
      var stop: Option<Reply<RunResult>> := None;
      while stop.None?
        invariant stop.None? ==> Looping(base) && iterations == Turns()
        invariant stop.Some? ==> Settled(stop.value) && WithinTurns()
        decreases if stop.Some? then 0 else 1 + MaxTurns() - iterations
      {
        ghost var before := Turns();
        iterations := iterations + 1;
        stop := TakeTurn(tools, base);
      }
      r := stop.value;
    }

    /** Nothing has been asked of the model yet. */
    ghost predicate SettingUp()
      reads this, budgets, supervisor
    {
      && Supervised() && Steady() && OnPath() && Recorded() && Paid() && Unfinished() && refused == []
      && budgets.used == UNUSED && iterations == 0 && tally == NO_OPS && books == NO_BOOKS
      && phase != CleanReplayVerified && candidateSha256.None?
    }

    lemma SetupCanRaise(fault: Fault)
      requires SettingUp() && phase != Created && ground.open == {Work} && env.CanRaise(fault)
      ensures Settled(Raise(Raised(fault))) && WithinTurns()
    {
    }

    /** Ends the run before its loop. */
    method StopSetup(target: RunPhase) returns (r: Reply<RunResult>)
      requires SettingUp() && IsTerminal(target) && CanTransition(phase, target) && Warrants(target)
      modifies this`phase, this`path, this`refused, this`final, this`trace, this`tally, this`ground, this`concluded
      ensures old(ground).open == {Work} ==> Settled(r)
      ensures InOrder() && refused == [] && ground == old(ground)
      ensures r.Return? && Finished(r.value) && phase == target && Warrants(phase)
    {
      r := Conclude(target, None, None);
    }

    method BaselineLadder() returns (r: Reply<bool>)
      requires SettingUp() && checkResults == [] && Entered()
      modifies this`tick, this`trace, this`tally, this`ground, this`books, this`checkResults
      ensures SettingUp() && ground.open == {Work}
      ensures r.Raise? ==> r.exception.Raised? && Founded(r.exception)
      ensures r.Return? ==>
        && 0 < |checkResults| <= |CHECK_ORDER| && trace == Opening(checkResults)
        && (if r.value then LadderMet(request.manifest, checkResults, true) else BaselineMissed())
    {
      var ladder := RunLadder(Work, true, true);
      if ladder.Raise? { return Raise(ladder.exception); }
      checkResults := ladder.value.1;
      return Return(ladder.value.0);
    }

    /** Checks that the untouched code shows the finding and is otherwise healthy. */
    method RunBaseline() returns (stop: Option<Reply<RunResult>>)
      requires SettingUp() && phase == SnapshotReady && checkResults == [] && Entered()
      modifies this
      ensures stop.Some? ==> Settled(stop.value) && WithinTurns()
      ensures stop.None? ==>
                && SettingUp() && phase == BaselineVerified && ground.open == {Work}
                && LadderMet(request.manifest, checkResults, true) && trace == Opening(checkResults)
    {
      hide Tells;
      var baseline := BaselineLadder();
      if baseline.Raise? {
        SetupCanRaise(baseline.exception.fault);
        return Some(Raise(baseline.exception));
      }
      if baseline.value {
        Move(BaselineVerified);
        return None;
      }
      var r := FailBaseline();
      return Some(r);
    }

    /** A baseline that is not as expected: the finding does not show, or the code was broken before. */
    method FailBaseline() returns (r: Reply<RunResult>)
      requires SettingUp() && phase == SnapshotReady && BaselineMissed() && ground.open == {Work}
      modifies this`phase, this`path, this`refused, this`final, this`trace, this`tally, this`ground, this`concluded
      ensures Settled(r) && WithinTurns() && r.Return?
      ensures phase == if checkResults[|checkResults| - 1].name in {"scanner", "security"} then FindingNotReproducible
                       else BaselineFailed
    {
      hide Tells;
      var last := checkResults[|checkResults| - 1];
      r := StopSetup(if last.name in {"scanner", "security"} then FindingNotReproducible else BaselineFailed);
    }

    method EnterLoop()
      requires SettingUp() && phase == BaselineVerified && ground.open == {Work}
      requires LadderMet(request.manifest, checkResults, true) && trace == Opening(checkResults)
      modifies this`phase, this`path, this`refused
      ensures Looping(checkResults) && iterations == Turns()
    {
      hide Tells;
      Move(Investigating);
    }

    /** The body of the work session. */
    method RunInSession() returns (r: Reply<RunResult>)
      requires SettingUp() && phase == SnapshotReady && checkResults == [] && Entered()
      modifies this, budgets, supervisor
      ensures Settled(r) && WithinTurns()
    {
      var stop := RunBaseline();
      if stop.Some? { return stop.value; }
      if env.tools.Fails? {
        SetupCanRaise(env.tools.fault);
        return Raise(Raised(env.tools.fault));
      }
      EnterLoop();
      r := RunLoop(env.ModelTools(), checkResults);
    }

    /** Budgets, supervision, phase path and record are in order at the end of the run. */
    ghost predicate InOrder()
      reads this, budgets, supervisor
    {
      && Supervised() && Steady() && OnPath() && Recorded() && Paid() && WithinTurns()
      && tally.replays <= 1 && tally.saves <= 1
    }

    /** The work session is open, and nothing has been done there. */
    ghost predicate Entered()
      reads this`tick, this`trace, this`ground
    {
      trace == ENTERED && tick == FIRST_TICK + 1 && ground.open == {Work}
    }

    /** A result in the approval phase is backed by evidence; the session was left after it was saved. */
    ghost predicate Backed(result: RunResult)
      reads this`trace, budgets
    {
      result.phase == AwaitingApproval ==> trace.Then? && exists a :: EarnedBy(a, result, trace.before)
    }

    /** How the body of the run can end, before its exception handlers. */
    ghost predicate BodyEnds(r: Reply<RunResult>)
      reads this, budgets, supervisor
    {
      && InOrder() && refused == [] && ground.open == {}
      && (concluded ==> final.Some? && Finished(final.value) && Backed(final.value) && Warrants(phase))
      && (r.Return? ==> concluded && final == Some(r.value))
      && (r.Raise? && !concluded ==> Unfinished() && phase != CleanReplayVerified)
      && (r.Raise? ==> Founded(r.exception) && (r.exception.OutOfBudget? ==> !concluded && InLoop()))
      && (r.Raise? && phase == Created ==> env.health == Fails(r.exception.fault))
      && (env.health.Fails? ==> phase == Created && r == Raise(Raised(env.health.fault)))
    }

    lemma SetupEnds(fault: Fault)
      requires SettingUp() && ground.open == {} && env.CanRaise(fault)
      requires if phase == Created then env.health == Fails(fault) else env.health.Got?
      ensures BodyEnds(Raise(Raised(fault)))
    {
    }

    method EnterSession() returns (entered: Foreign<()>)
      requires SettingUp() && Untouched() && env.Admits()
      modifies this`tick, this`trace, this`tally, this`ground
      ensures SettingUp() && (if entered.Got? then Entered() else ground.open == {})
      ensures entered == env.enter(FIRST_TICK, Work)
    {
      entered := Open(Work);
    }

    /** Leaves the session; a fault on the way out takes the place of what happened inside. */
    method LeaveSession(inner: Reply<RunResult>) returns (r: Reply<RunResult>)
      requires Settled(inner) && WithinTurns() && env.health.Got?
      modifies this`tick, this`trace, this`tally, this`ground
      ensures BodyEnds(r)
      ensures r == (match env.leave(old(tick), Work) case Some(fault) => Raise(Raised(fault)) case None => inner)
    {
      hide Tells;
      ghost var backed := inner.Return? && phase == AwaitingApproval;
      ghost var a: Approval :| backed ==> EarnedBy(a, inner.value, trace);
      DoorRaises(tick, Work);
      var left := Close(Work);
      assert backed ==> EarnedBy(a, inner.value, trace.before);
      r := if left.Some? then Raise(Raised(left.value)) else inner;
    }

    /** The run inside its sandboxed session, which is left whatever happens. */
    method WithSession() returns (r: Reply<RunResult>)
      requires SettingUp() && phase == SnapshotReady && checkResults == [] && Untouched() && env.Admits()
      modifies this, budgets, supervisor
      ensures BodyEnds(r)
    {
      DoorRaises(tick, Work);
      var entered := EnterSession();
      if entered.Fails? {
        SetupEnds(entered.fault);
        return Raise(Raised(entered.fault));
      }
      r := RunInSession();
      r := LeaveSession(r);
    }

    method StopBody(target: RunPhase) returns (r: Reply<RunResult>)
      requires SettingUp() && IsTerminal(target) && CanTransition(phase, target) && env.health.Got?
      requires ground.open == {} && Warrants(target)
      modifies this`phase, this`path, this`refused, this`final, this`trace, this`tally, this`ground, this`concluded
      ensures BodyEnds(r)
    {
      r := StopSetup(target);
    }

    /** The run from its snapshot on. */
    method RunSnapshot() returns (r: Reply<RunResult>)
      requires SettingUp() && phase == PreflightValidated && checkResults == [] && Untouched()
      requires env.health == Got(true)
      modifies this, budgets, supervisor
      ensures BodyEnds(r)
    {
      if env.snapshot == Fails(SnapshotRejected) {
        r := StopBody(SourceRejected);
      } else if env.snapshot.Fails? {
        SetupEnds(env.snapshot.fault);
        r := Raise(Raised(env.snapshot.fault));
      } else {
        Move(SnapshotReady);
        assert SettingUp();
        r := WithSession();
      }
    }

    /** The body of the run: health, snapshot, session. */
    method RunBody() returns (r: Reply<RunResult>)
      requires SettingUp() && phase == Created && checkResults == [] && Untouched()
      modifies this, budgets, supervisor
      ensures BodyEnds(r)
    {
      if env.health.Fails? {
        SetupEnds(env.health.fault);
        r := Raise(Raised(env.health.fault));
      } else if !env.health.value {
        r := StopBody(ModelUnavailable);
      } else {
        Move(PreflightValidated);
        assert SettingUp();
        r := RunSnapshot();
      }
    }

    /** The cancellation handler: the cancelled run is saved, then the cancellation goes on. */
    method Cancel() returns (r: Reply<RunResult>)
      requires BodyEnds(Raise(Raised(Cancellation)))
      modifies this`phase, this`path, this`refused, this`trace, this`tally, this`ground
      ensures InOrder() && refused == [] && ground.open == {}
      ensures Warrants(phase)
      ensures if old(concluded) then r == Return(final.value) && Finished(r.value) && Backed(r.value)
              else r == Raise(Raised(Cancellation)) && phase == Cancelled && tally.saves == 1
    {
      hide Tells;
      if concluded { return Return(final.value); }
      TerminalIsDeadEnd(phase);
      Move(Cancelled);
      Log(Save(RunResult(phase, None, None, checkResults)));
      return Raise(Raised(Cancellation));
    }

    /** The handlers of errors that end a run with a saved result. */
    method Recover(e: Exception) returns (r: Reply<RunResult>)
      requires BodyEnds(Raise(e)) && e != Raised(Cancellation) && e != Raised(OsError)
      modifies this`phase, this`path, this`refused, this`final, this`trace, this`tally, this`ground, this`concluded
      ensures InOrder() && ground.open == {}
      ensures if old(phase) == Created
              then r == Raise(BadTransition) && refused == [(Created, SandboxError)] && tally.saves == 0 && !concluded
              else refused == [] && r.Return? && Finished(r.value) && Backed(r.value) && Warrants(phase)
    {
      hide Tells;
      if concluded { return Return(final.value); }
      r := Conclude(if e == OutOfBudget then BudgetExhausted else SandboxError, None, None);
    }

    /** How a run ends, for every environment: */
    ghost predicate RunEnds(r: Reply<RunResult>)
      reads this, budgets, supervisor
    {
      // budgets, supervision and the phase table are kept, at most one result is saved and at most one clean
      // replay runs; everything on record is what the environment answered, and every session that was opened
      // has been left;
      && InOrder() && ground.open == {}
      // a transition outside the table is asked for exactly if the health question fails unexpectedly;
      && refused == (if HealthBreaks(env.health) then [(Created, SandboxError)] else [])
      // a result that was saved, whether or not it gets out, is in a terminal phase or awaits approval, and
      // then it is backed by evidence; any other final phase has what warrants it, in the environment or in the
      // budgets;
      && (concluded ==> final.Some? && Finished(final.value) && Backed(final.value) && Warrants(phase))
      && (r.Return? ==> concluded && final == Some(r.value))
      // and only a cancellation, an operating-system error or the refused transition gets out.
      && (r.Raise? ==>
            || (r.exception == Raised(Cancellation) && phase == Cancelled && tally.saves == 1 && Warrants(phase))
            || (r.exception == Raised(OsError) && env.CanRaise(OsError))
            || (r.exception == BadTransition && HealthBreaks(env.health) && tally.saves == 0))
    }

    /** The exception handlers of a run. */
    method Handle(e: Exception) returns (r: Reply<RunResult>)
      requires BodyEnds(Raise(e))
      modifies this`phase, this`path, this`refused, this`final, this`trace, this`tally, this`ground, this`concluded
      ensures RunEnds(r)
    {
      if e == Raised(OsError) {
        r := Raise(e);
      } else if e == Raised(Cancellation) {
        r := Cancel();
      } else {
        r := Recover(e);
      }
    }

    /** The whole run. */
    method Run() returns (r: Reply<RunResult>)
      requires !started ==> SettingUp() && phase == Created && checkResults == [] && Untouched()
      modifies this, budgets, supervisor
      ensures old(started) ==> r == Raise(AlreadyStarted) && trace == old(trace) && phase == old(phase)
      ensures !old(started) ==> RunEnds(r)
    {
      if started { return Raise(AlreadyStarted); }
      started := true;
      assert SettingUp();
      r := RunBody();
      if r.Raise? {
        r := Handle(r.exception);
      }
    }

    /** An approval is earned in the environment, not on paper: whatever result a run hands out or saves for
        approval, the checks of the work session really met the baseline expectations, the model really asked
        for a diff that the policy lets pass, the session really took it and gave back this candidate, whose
        checks there were met, and a fresh session that was really opened took this very candidate and met
        them again. */
    lemma ApprovalHappened(result: RunResult)
      requires Backed(result) && result.phase == AwaitingApproval
      ensures exists a: Approval ::
        && LaddersPassed(a, request.manifest) && Happened(env, a)
        && SaysAll(request.manifest, a.base, true)
        && SaysAll(request.manifest, a.work, false) && SaysAll(request.manifest, a.replay, false)
        && result.candidatePatch == Some(a.candidate) && result.candidateSha256 == Some(env.sha256(a.candidate))
        && result.checkResults == a.base + a.repairs + a.work + a.replay
    {
      var a :| EarnedBy(a, result, trace.before);
      ApprovedHappened(a, request.limits.identicalFailedActions, env);
      LadderMetIff(request.manifest, a.base, true);
      LadderMetIff(request.manifest, a.work, false);
      LadderMetIff(request.manifest, a.replay, false);
    }

    /** What supervision means for the operations of a run: no signature was carried out and failed more often
        than allowed, and the diffs that landed never flip back. */
    lemma SupervisionHolds(s: Signature)
      requires InOrder()
      ensures var b := trace.Booked(request.limits.identicalFailedActions, env);
        && trace.Real(request.limits.identicalFailedActions, env)
        && FailedUnder(trace, s, request.limits.identicalFailedActions, env) <= request.limits.identicalFailedActions
        && Taken(trace, env) == supervisor.patchHistory && NoOscillation(Taken(trace, env))
        && TurnsIn(trace) == supervisor.turns
        && b.failedOps[s] <= request.limits.identicalFailedActions
        && b.landed == supervisor.patchHistory && NoOscillation(b.landed)
        && b.turns == supervisor.turns && supervisor.stagnantTurns == NoProgress(b.turns)
    {
      FailsAtMost(trace, request.limits.identicalFailedActions, env, s);
      BooksAreTrue(trace, s, request.limits.identicalFailedActions, env);
    }

    /** What the budgets mean for the operations of a run: so many answers, tool calls, patches, ladders of the
        patched code and replays stand on record at most. */
    lemma BudgetsHold()
      requires InOrder()
      ensures var limits := request.limits.counts;
        && Count(trace, IsAnswer) <= limits.modelTurns && Count(trace, IsToolCall) <= limits.toolCalls
        && Count(trace, IsWorkPatch) <= limits.patchAttempts
        && Count(trace, IsWorkLadder) <= limits.repairCycles + 1
        && Count(trace, IsReplay) <= 1 && Count(trace, IsSave) <= 1
    {
      SumsAreCounts(trace);
    }

    /** A model that only offers one patch, which the policy rejects, and room for `n` more passes. */
    ghost predicate OffersRejectedPatch(diff: string, n: nat)
      reads this`phase, this`candidateSha256, budgets, supervisor
    {
      && (forall t: nat :: env.action(t) == Got(PatchAction(diff)))
      && env.inspectPatch(diff).None? && InTime()
      && Spent(budgets.used, n).Within(request.limits.counts)
      && Failures(supervisor.turns, SignatureOf(PatchAction(diff))) + n <= supervisor.maxIdenticalFailures
    }

    method OneRejectedPass(diff: string, tools: set<string>, ghost base: seq<CheckResult>, ghost n: nat)
      requires Looping(base) && OffersRejectedPatch(diff, n) && n > 0 && tools == env.ModelTools()
      modifies this, budgets, supervisor
      ensures Looping(base) && OffersRejectedPatch(diff, n - 1)
      ensures supervisor.stagnantTurns == old(supervisor.stagnantTurns) + 1
    {
      assert env.action(tick) == Got(PatchAction(diff));
      var stop := TakeTurn(tools, base);
    }

    /** The failing input: three rejected patches in a row are as much stagnation as ends a run after any other
        three turns, and yet the loop goes on. */
    method StagnatesUnnoticed(diff: string, tools: set<string>, ghost base: seq<CheckResult>)
      requires Looping(base) && OffersRejectedPatch(diff, 3) && supervisor.stagnantTurns == 0
      requires tools == env.ModelTools()
      modifies this, budgets, supervisor
      ensures Looping(base) && supervisor.stagnantTurns == supervisor.maxStagnantTurns
    {
      hide HarnessRunner.Looping, HarnessRunner.OffersRejectedPatch;
      OneRejectedPass(diff, tools, base, 3);
      OneRejectedPass(diff, tools, base, 2);
      OneRejectedPass(diff, tools, base, 1);
    }
  }

  /** What goes into the next signature is as it was. */
  ghost predicate OnlyBooked(before: Books, after: Books) {
    after.phase == before.phase && after.candidate == before.candidate
  }

  /** The turn that an answer of the model comes to. */
  function TurnOf(s: Signature, verdict: Verdict, outcome: Option<bool>): Turn {
    Turn(s, verdict == Allow, outcome == Some(true), outcome == Some(true))
  }

  /** The cost of `n` passes whose patch is rejected. */
  ghost function Spent(used: Counts, n: nat): Counts {
    used.(modelTurns := used.modelTurns + n, patchAttempts := used.patchAttempts + n,
          policyViolations := used.policyViolations + n)
  }

  /** The health question fails with an error that no handler of the first phase expects. */
  predicate HealthBreaks(health: Foreign<bool>) {
    health.Fails? && health.fault != Cancellation && health.fault != OsError
  }

  ghost predicate SameTurnsButRepairs(before: Counts, after: Counts) {
    after == before.(repairCycles := after.repairCycles)
  }

  /** A patch that was let through and did not land. */
  predicate RejectedPatch(turn: Turn) {
    turn.signature.action.PatchKey? && turn.allowed && !turn.succeeded
  }

  /** The cost of a patch that the policy rejects. */
  ghost function OneRejected(used: Counts): Counts {
    used.(patchAttempts := used.patchAttempts + 1, policyViolations := used.policyViolations + 1)
  }

  /** The two counters that bound the number of turns are as they were. */
  ghost predicate SameLoopTurns(before: Counts, after: Counts) {
    after.modelTurns == before.modelTurns && after.invalidOutputs == before.invalidOutputs
  }

  datatype Ask = Act(action: Action) | Retry | Stop(reply: Reply<RunResult>)
}
