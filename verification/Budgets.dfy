// Run budgets: counters with limits, and a wall clock read from outside.
module Budgets {
  import opened Wrappers

  datatype BudgetName = ModelTurns | ToolCalls | InvalidOutputs | PolicyViolations | PatchAttempts | RepairCycles

  /** One number per budget: limits, or what has been used. */
  datatype Counts = Counts(
    modelTurns: nat, toolCalls: nat, invalidOutputs: nat, policyViolations: nat, patchAttempts: nat, repairCycles: nat)
  {
    function Of(budget: BudgetName): nat {
      match budget
      case ModelTurns => modelTurns
      case ToolCalls => toolCalls
      case InvalidOutputs => invalidOutputs
      case PolicyViolations => policyViolations
      case PatchAttempts => patchAttempts
      case RepairCycles => repairCycles
    }

    function With(budget: BudgetName, n: nat): (c: Counts)
      ensures forall b :: c.Of(b) == if b == budget then n else Of(b)
    {
      match budget
      case ModelTurns => this.(modelTurns := n)
      case ToolCalls => this.(toolCalls := n)
      case InvalidOutputs => this.(invalidOutputs := n)
      case PolicyViolations => this.(policyViolations := n)
      case PatchAttempts => this.(patchAttempts := n)
      case RepairCycles => this.(repairCycles := n)
    }

    predicate Within(limits: Counts) {
      modelTurns <= limits.modelTurns && toolCalls <= limits.toolCalls && invalidOutputs <= limits.invalidOutputs &&
      policyViolations <= limits.policyViolations && patchAttempts <= limits.patchAttempts &&
      repairCycles <= limits.repairCycles
    }
  }

  const UNUSED := Counts(0, 0, 0, 0, 0, 0)

  datatype RunLimits = RunLimits(counts: Counts, identicalFailedActions: nat, runWallClockSeconds: real)

  datatype ConsumeError = NotPositive | OutOfTime | Exceeded(budget: BudgetName)

  function Elapsed(startedAt: real, now: real): (e: real) {
    if now - startedAt < 0.0 then 0.0 else now - startedAt
  }

  class BudgetTracker {
    const limits: RunLimits
    const startedAt: real
    var used: Counts

    constructor (limits: RunLimits, startedAt: real)
      ensures Valid() && this.limits == limits && this.startedAt == startedAt && used == UNUSED
    {
      this.limits := limits;
      this.startedAt := startedAt;
      used := UNUSED;
    }

    /** No budget is ever overdrawn. */
    ghost predicate Valid()
      reads this
    {
      used.Within(limits.counts)
    }

    predicate WithinWallClock(now: real) {
      Elapsed(startedAt, now) < limits.runWallClockSeconds
    }

    /** Time is up exactly once as many seconds have passed since the start as the limit says; a clock that went
        back counts as no time. */
    lemma ClockMeans(now: real)
      ensures limits.runWallClockSeconds > 0.0 ==>
        (WithinWallClock(now) <==> now < startedAt + limits.runWallClockSeconds)
      ensures limits.runWallClockSeconds <= 0.0 ==> !WithinWallClock(now)
    {
    }

    function Remaining(budget: BudgetName): (n: nat)
      requires Valid()
      reads this
      ensures used.Of(budget) + n == limits.counts.Of(budget)
    {
      limits.counts.Of(budget) - used.Of(budget)
    }

    /** Takes the amount in full or leaves every counter alone. */
    method Consume(budget: BudgetName, amount: int, now: real) returns (r: Result<nat, ConsumeError>)
      requires Valid()
      modifies this
      ensures Valid()
      ensures r.Ok? <==>
                amount > 0 && WithinWallClock(now) && old(used.Of(budget)) + amount <= limits.counts.Of(budget)
      ensures r.Ok? ==> used == old(used).With(budget, old(used).Of(budget) + amount) && r.value == Remaining(budget)
      ensures r.Err? ==> used == old(used)
      ensures r == Err(NotPositive) <==> amount <= 0
      ensures r == Err(OutOfTime) <==> amount > 0 && !WithinWallClock(now)
    {
      if amount <= 0 { return Err(NotPositive); }
      if !WithinWallClock(now) { return Err(OutOfTime); }
      var updated := used.Of(budget) + amount;
      var limit := limits.counts.Of(budget);
      if updated > limit { return Err(Exceeded(budget)); }
      used := used.With(budget, updated);
      return Ok(limit - updated);
    }
  }
}
