// Model refreshes of one provider: generations, abort signals, and the chain of publications. Each
// stretch of code between two awaits is one step; any step may come next.
module Publication {
  import opened Wrappers

  type Entry = string
  type Models = string

  /** What a publication does to the store before it updates the models in memory. */
  datatype Persist = Untouched | Delete | Put(entry: Entry)

  datatype Stage =
    | Waiting            // for the publication before it in the chain
    | Storing            // its store mutation is running
    | Stored(ok: bool)   // the mutation ended, the publication has not resumed yet
    | Settled(published: bool)

  datatype Refresh = Refresh(generation: nat, aborted: bool)

  /** `previous` is the publication that was last in the chain when this one was queued. */
  datatype Job = Job(refresh: nat, persist: Persist, update: Models, previous: Option<nat>, stage: Stage)

  /** One update of the models in memory: whose it was, and what held at that moment. */
  datatype Applied = Applied(generation: nat, current: nat, persist: Persist, store: Option<Entry>, update: Models)

  datatype State = State(
    generation: nat,
    controller: Option<nat>,
    refreshes: seq<Refresh>,
    jobs: seq<Job>,
    chain: Option<nat>,
    store: Option<Entry>,
    memory: Option<Models>,
    applied: seq<Applied>,
    started: seq<nat>)

  const INITIAL := State(0, None, [], [], None, None, None, [], [])

  datatype Step =
    | Supersede
    | Begin
    | Finish(refresh: nat)
    | AbortCaller(refresh: nat)
    | Publish(refresh: nat, persist: Persist, update: Models)
    | Resume(job: nat)
    | MutationEnds(job: nat, ok: bool, left: Option<Entry>)
    | CleanUp(job: nat)

  function Aborted(s: State, refresh: nat): State {
    if refresh < |s.refreshes| then s.(refreshes := s.refreshes[refresh := s.refreshes[refresh].(aborted := true)])
    else s
  }

  function Superseded(s: State): State {
    var next := s.(generation := s.generation + 1);
    if s.controller.Some? then Aborted(next.(controller := None), s.controller.value) else next
  }

  /** The refresh of the job is neither aborted nor superseded. */
  predicate Live(s: State, job: Job) {
    job.refresh < |s.refreshes| && !s.refreshes[job.refresh].aborted &&
    s.refreshes[job.refresh].generation == s.generation
  }

  function WithStage(s: State, i: nat, stage: Stage): State
    requires i < |s.jobs|
  {
    s.(jobs := s.jobs[i := s.jobs[i].(stage := stage)])
  }

  function Update(s: State, i: nat): State
    requires i < |s.jobs| && Live(s, s.jobs[i])
  {
    var job := s.jobs[i];
    var entry := Applied(s.refreshes[job.refresh].generation, s.generation, job.persist, s.store, job.update);
    WithStage(s, i, Settled(true)).(memory := Some(job.update), applied := s.applied + [entry])
  }

  /** The publication before this one in the chain, if any, is over. */
  predicate ChainClear(s: State, job: Job) {
    job.previous.None? ||
    (job.previous.value < |s.jobs| && s.jobs[job.previous.value].stage.Settled?)
  }

  /** A publication resumes: after its predecessor, or after its store mutation. */
  function Resumed(s: State, i: nat): State
    requires i < |s.jobs|
  {
    var job := s.jobs[i];
    match job.stage
    case Waiting =>
      if !ChainClear(s, job) then s
      else if !Live(s, job) then WithStage(s, i, Settled(false))
      else if job.persist.Untouched? then Update(s, i)
      else WithStage(s, i, Storing).(started := s.started + [s.generation])
    case Stored(ok) =>
      if !ok || !Live(s, job) then WithStage(s, i, Settled(false)) else Update(s, i)
    case _ => s
  }

  /** The store after a successful mutation. */
  function Target(persist: Persist): Option<Entry> {
    if persist.Put? then Some(persist.entry) else None
  }

  /** Any step; one that is not possible in a state changes nothing. */
  function Next(s: State, step: Step): (s': State) {
    match step
    case Supersede => Superseded(s)
    case Begin =>
      var s' := Superseded(s);
      s'.(refreshes := s'.refreshes + [Refresh(s'.generation, false)], controller := Some(|s'.refreshes|))
    case Finish(r) => if s.controller == Some(r) then s.(controller := None) else s
    case AbortCaller(r) => Aborted(s, r)
    case Publish(r, persist, update) =>
      if r < |s.refreshes| then
        s.(jobs := s.jobs + [Job(r, persist, update, s.chain, Waiting)], chain := Some(|s.jobs|))
      else s
    case Resume(i) => if i < |s.jobs| then Resumed(s, i) else s
    case MutationEnds(i, ok, left) =>
      if i < |s.jobs| && s.jobs[i].stage.Storing? then
        WithStage(s, i, Stored(ok)).(store := if ok then Target(s.jobs[i].persist) else left)
      else s
    case CleanUp(i) =>
      if s.chain == Some(i) && i < |s.jobs| && s.jobs[i].stage.Settled? then s.(chain := None) else s
  }

  function Run(steps: seq<Step>): (s: State) {
    if steps == [] then INITIAL else Next(Run(steps[..|steps| - 1]), steps[|steps| - 1])
  }

  predicate Over(s: State, n: nat)
    requires n <= |s.jobs|
  {
    forall k :: 0 <= k < n ==> s.jobs[k].stage.Settled?
  }

  /** The chain is a queue: a job that has left the waiting stage has only finished jobs before it. */
  ghost predicate Queued(s: State) {
    && (forall i :: 0 <= i < |s.jobs| ==>
          match s.jobs[i].previous
          case None => Over(s, i)
          case Some(p) => p + 1 == i)
    && (forall i :: 0 <= i < |s.jobs| && !s.jobs[i].stage.Waiting? ==> Over(s, i))
    && (match s.chain
        case None => Over(s, |s.jobs|)
        case Some(c) => c + 1 == |s.jobs|)
  }

  /** A finished mutation is what the store still shows when its publication resumes. */
  ghost predicate StoreMatches(s: State) {
    forall i :: 0 <= i < |s.jobs| && s.jobs[i].stage == Stored(true) ==> s.store == Target(s.jobs[i].persist)
  }

  ghost predicate Ordered(gens: seq<nat>, limit: nat) {
    && (forall i, j :: 0 <= i < j < |gens| ==> gens[i] <= gens[j])
    && (forall i :: 0 <= i < |gens| ==> gens[i] <= limit)
  }

  function Generations(applied: seq<Applied>): (gens: seq<nat>)
    ensures |gens| == |applied|
    ensures forall i :: 0 <= i < |applied| ==> gens[i] == applied[i].generation
  {
    if applied == [] then [] else Generations(applied[..|applied| - 1]) + [applied[|applied| - 1].generation]
  }

  /** Each update ran under the generation current at that moment, with its entry in the store, and
      the models in memory are those of the last one. */
  ghost predicate UpdatesSound(s: State) {
    && (forall i :: 0 <= i < |s.applied| ==>
          && s.applied[i].generation == s.applied[i].current
          && (s.applied[i].persist.Put? ==> s.applied[i].store == Some(s.applied[i].persist.entry))
          && (s.applied[i].persist.Delete? ==> s.applied[i].store == None))
    && Ordered(Generations(s.applied), s.generation)
    && s.memory == (if s.applied == [] then None else Some(s.applied[|s.applied| - 1].update))
  }

  ghost predicate Invariant(s: State) {
    Queued(s) && StoreMatches(s) && UpdatesSound(s) && Ordered(s.started, s.generation)
  }

  lemma OnlyOneUnderway(s: State, i: nat, k: nat)
    requires Queued(s) && i < |s.jobs| && k < |s.jobs| && i != k
    requires !s.jobs[i].stage.Waiting? && !s.jobs[i].stage.Settled?
    ensures if k < i then s.jobs[k].stage.Settled? else s.jobs[k].stage.Waiting?
  {
  }

  lemma ClearMeansFirst(s: State, i: nat)
    requires Queued(s) && i < |s.jobs| && ChainClear(s, s.jobs[i])
    ensures Over(s, i)
  {
    if s.jobs[i].previous.Some? {
      assert Over(s, i - 1);
    }
  }

  lemma StageKeepsQueue(s: State, i: nat, stage: Stage)
    requires Queued(s) && i < |s.jobs| && Over(s, i)
    requires !s.jobs[i].stage.Settled? && !stage.Waiting?
    ensures Queued(WithStage(s, i, stage))
  {
    var s' := WithStage(s, i, stage);
    forall j | 0 <= j < |s.jobs|
      ensures j <= i ==> (Over(s', j) <==> Over(s, j))
      ensures j > i ==> !Over(s, j)
    {
      if j > i { assert !s.jobs[i].stage.Settled?; }
    }
    assert s.chain.Some?;
  }

  lemma PublishKeepsQueue(s: State, job: Job)
    requires Queued(s) && job.previous == s.chain && job.stage.Waiting?
    ensures Queued(s.(jobs := s.jobs + [job], chain := Some(|s.jobs|)))
  {
    var s' := s.(jobs := s.jobs + [job], chain := Some(|s.jobs|));
    forall j | 0 <= j <= |s.jobs| ensures Over(s', j) <==> Over(s, j) {
      assert forall k :: 0 <= k < j ==> s'.jobs[k] == s.jobs[k];
    }
  }

  lemma OrderedGrows(gens: seq<nat>, g: nat)
    requires Ordered(gens, g)
    ensures Ordered(gens + [g], g)
  {
  }

  lemma UpdateKeepsInvariant(s: State, i: nat)
    requires Invariant(s) && i < |s.jobs| && Over(s, i) && !s.jobs[i].stage.Settled? && Live(s, s.jobs[i])
    requires s.jobs[i].persist.Untouched? || s.store == Target(s.jobs[i].persist)
    ensures Invariant(Update(s, i))
  {
    StageKeepsQueue(s, i, Settled(true));
    OrderedGrows(Generations(s.applied), s.generation);
    var s' := Update(s, i);
    assert s'.applied[..|s.applied|] == s.applied;
  }

  lemma ResumeKeepsInvariant(s: State, i: nat)
    requires Invariant(s) && i < |s.jobs|
    ensures Invariant(Resumed(s, i))
  {
    var job := s.jobs[i];
    if job.stage.Waiting? && ChainClear(s, job) {
      ClearMeansFirst(s, i);
      if Live(s, job) && job.persist.Untouched? {
        UpdateKeepsInvariant(s, i);
      } else {
        StageKeepsQueue(s, i, if Live(s, job) then Storing else Settled(false));
        OrderedGrows(s.started, s.generation);
      }
    } else if job.stage.Stored? {
      if job.stage.ok && Live(s, job) {
        UpdateKeepsInvariant(s, i);
      } else {
        StageKeepsQueue(s, i, Settled(false));
      }
    }
  }

  lemma MutationKeepsInvariant(s: State, i: nat, ok: bool, left: Option<Entry>)
    requires Invariant(s)
    ensures Invariant(Next(s, MutationEnds(i, ok, left)))
  {
    if i < |s.jobs| && s.jobs[i].stage.Storing? {
      StageKeepsQueue(s, i, Stored(ok));
      forall k | 0 <= k < |s.jobs| && k != i ensures !s.jobs[k].stage.Stored? {
        OnlyOneUnderway(s, i, k);
      }
    }
  }

  /** Steps that only touch generations, controllers and signals. */
  lemma RefreshStepsKeepInvariant(s: State, s': State)
    requires Invariant(s) && s.generation <= s'.generation
    requires s' == s.(generation := s'.generation, controller := s'.controller, refreshes := s'.refreshes)
    ensures Invariant(s')
  {
    assert forall n :: 0 <= n <= |s.jobs| ==> (Over(s', n) <==> Over(s, n));
  }

  lemma CleanUpKeepsInvariant(s: State, i: nat)
    requires Invariant(s) && s.chain == Some(i) && i < |s.jobs| && s.jobs[i].stage.Settled?
    ensures Invariant(s.(chain := None))
  {
    var s' := s.(chain := None);
    assert Over(s, i);
    assert forall n :: 0 <= n <= |s.jobs| ==> (Over(s', n) <==> Over(s, n));
  }

  lemma StepKeepsInvariant(s: State, step: Step)
    requires Invariant(s)
    ensures Invariant(Next(s, step))
  {
    match step
    case Publish(r, persist, update) =>
      PublishKeepsQueue(s, Job(r, persist, update, s.chain, Waiting));
    case Resume(i) =>
      if i < |s.jobs| { ResumeKeepsInvariant(s, i); }
    case MutationEnds(i, ok, left) =>
      MutationKeepsInvariant(s, i, ok, left);
    case CleanUp(i) =>
      if s.chain == Some(i) && i < |s.jobs| && s.jobs[i].stage.Settled? { CleanUpKeepsInvariant(s, i); }
    case _ =>
      RefreshStepsKeepInvariant(s, Next(s, step));
  }

  /** In every interleaving of refreshes, provider changes, aborts and publications: */
  lemma {:induction false} EveryRunIsSafe(steps: seq<Step>)
    ensures Invariant(Run(steps))
  {
    if steps != [] {
      EveryRunIsSafe(steps[..|steps| - 1]);
      StepKeepsInvariant(Run(steps[..|steps| - 1]), steps[|steps| - 1]);
    }
  }

  /** Store mutations never overlap. */
  lemma MutationsNeverOverlap(steps: seq<Step>, i: nat, j: nat)
    requires i < |Run(steps).jobs| && j < |Run(steps).jobs|
    requires Run(steps).jobs[i].stage.Storing? && Run(steps).jobs[j].stage.Storing?
    ensures i == j
  {
    EveryRunIsSafe(steps);
    if i != j {
      OnlyOneUnderway(Run(steps), i, j);
    }
  }

  /** Updates of the models in memory follow the order of the generations: after an update of one
      generation, no update of an earlier generation ever runs. */
  lemma SupersededNeverOverwrites(steps: seq<Step>, i: nat, j: nat)
    requires i < j < |Run(steps).applied|
    ensures Run(steps).applied[i].generation <= Run(steps).applied[j].generation
    ensures Run(steps).applied[j].generation == Run(steps).applied[j].current
  {
    EveryRunIsSafe(steps);
    var gens := Generations(Run(steps).applied);
    assert gens[i] <= gens[j];
  }

  /** When a publication updates the models in memory, the store shows exactly what it persisted. */
  lemma UpdateSeesItsEntry(steps: seq<Step>, i: nat)
    requires i < |Run(steps).applied| && !Run(steps).applied[i].persist.Untouched?
    ensures Run(steps).applied[i].store == Target(Run(steps).applied[i].persist)
  {
    EveryRunIsSafe(steps);
  }

  /** Store mutations start in the order of the generations. */
  lemma MutationsStartInOrder(steps: seq<Step>, i: nat, j: nat)
    requires i < j < |Run(steps).started|
    ensures Run(steps).started[i] <= Run(steps).started[j]
  {
    EveryRunIsSafe(steps);
  }
}
