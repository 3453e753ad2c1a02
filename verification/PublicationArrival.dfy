// What a publication achieves: when it reaches the store and the models in memory, and when it is given up.
module PublicationArrival {
  import opened Wrappers
  import opened Publication

  /** The refresh has not been aborted, and no newer generation has begun. */
  ghost predicate Current(s: State, r: nat) {
    r < |s.refreshes| && !s.refreshes[r].aborted && s.refreshes[r].generation == s.generation
  }

  /** Generations only count up, and jobs belong to refreshes that were begun. */
  ghost predicate Bounded(s: State) {
    && (forall r :: 0 <= r < |s.refreshes| ==> s.refreshes[r].generation <= s.generation)
    && (forall i :: 0 <= i < |s.jobs| ==> s.jobs[i].refresh < |s.refreshes|)
  }

  lemma RunSnoc(steps: seq<Step>, step: Step)
    ensures Run(steps + [step]) == Next(Run(steps), step)
  {
    assert (steps + [step])[..|steps|] == steps;
  }

  lemma StepKeepsBounded(s: State, step: Step)
    requires Bounded(s)
    ensures Bounded(Next(s, step))
  {
  }

  lemma {:induction false} RunIsBounded(steps: seq<Step>)
    ensures Bounded(Run(steps))
  {
    if steps != [] {
      RunIsBounded(steps[..|steps| - 1]);
      StepKeepsBounded(Run(steps[..|steps| - 1]), steps[|steps| - 1]);
    }
  }

  // ---- How long a refresh is current ----

  /** A refresh that was just begun is current, and can be stopped. */
  lemma BegunIsCurrent(s: State)
    ensures Current(Next(s, Begin), |s.refreshes|) && Next(s, Begin).controller == Some(|s.refreshes|)
    ensures Next(s, Begin).generation == s.generation + 1
  {
  }

  /** A refresh stays current until it is superseded, another one begins, or its caller aborts it; nothing else ends it
      and nothing brings it back. */
  lemma CurrentUntil(s: State, step: Step, r: nat)
    requires Bounded(s) && r < |s.refreshes|
    ensures Current(Next(s, step), r) <==>
            Current(s, r) && step != Supersede && step != Begin && step != AbortCaller(r)
  {
  }

  /** A newer refresh also raises the abort signal of the one that was under way. */
  lemma SupersededIsAborted(s: State)
    requires s.controller.Some? && s.controller.value < |s.refreshes|
    ensures Next(s, Supersede).refreshes[s.controller.value].aborted && Next(s, Supersede).controller.None?
    ensures forall r :: 0 <= r < |s.refreshes| && r != s.controller.value ==>
      Next(s, Supersede).refreshes[r] == s.refreshes[r]
  {
  }

  /** The refresh under way can be stopped until it is superseded, another one begins, or it finishes itself. */
  lemma StoppableUntil(s: State, step: Step, r: nat)
    requires s.controller == Some(r) && r < |s.refreshes|
    ensures Next(s, step).controller == Some(r) <==> step != Supersede && step != Begin && step != Finish(r)
  {
  }

  /** Nobody has finished, superseded or replaced the refresh that these steps follow. */
  ghost predicate LeaveRunning(steps: seq<Step>, r: nat) {
    forall k :: 0 <= k < |steps| ==> steps[k] != Supersede && steps[k] != Begin && steps[k] != Finish(r)
  }

  /** Over every run: a refresh that was begun and has not finished is stopped by the next change of its provider. */
  lemma {:induction false} ChangeStopsTheRefresh(steps: seq<Step>, more: seq<Step>)
    requires LeaveRunning(more, |Run(steps).refreshes|)
    ensures var r, all := |Run(steps).refreshes|, steps + [Begin] + more;
      && Run(all).controller == Some(r) && r < |Run(all).refreshes|
      && r < |Run(all + [Supersede]).refreshes| && Run(all + [Supersede]).refreshes[r].aborted
      && !Current(Run(all + [Supersede]), r)
  {
    var r, all := |Run(steps).refreshes|, steps + [Begin] + more;
    if more == [] {
      assert all == steps + [Begin];
      RunSnoc(steps, Begin);
      BegunIsCurrent(Run(steps));
    } else {
      var n := |more| - 1;
      ChangeStopsTheRefresh(steps, more[..n]);
      assert all == steps + [Begin] + more[..n] + [more[n]];
      RunSnoc(steps + [Begin] + more[..n], more[n]);
      StoppableUntil(Run(steps + [Begin] + more[..n]), more[n], r);
    }
    RunSnoc(all, Supersede);
    SupersededIsAborted(Run(all));
    hide Run;
  }

  // ---- One publication ----

  /** Only the stage of this job differs. */
  ghost predicate OnlyStage(s: State, s': State, i: nat, stage: Stage) {
    && i < |s.jobs| == |s'.jobs| && s'.jobs[i] == s.jobs[i].(stage := stage)
    && forall k :: 0 <= k < |s.jobs| && k != i ==> s'.jobs[k] == s.jobs[k]
  }

  /** The job is published: its update is what the models in memory are now, as one more update, made under the current
      generation; the store is as it was. */
  ghost predicate Published(s: State, s': State, i: nat) {
    && OnlyStage(s, s', i, Settled(true))
    && s'.memory == Some(s.jobs[i].update) && s'.store == s.store
    && |s'.applied| == |s.applied| + 1 && s.applied <= s'.applied
    && s'.applied[|s.applied|].update == s.jobs[i].update && s'.applied[|s.applied|].generation == s.generation
    && s'.generation == s.generation && s'.refreshes == s.refreshes
  }

  /** The job is given up: nothing but its stage changes. */
  ghost predicate GivenUp(s: State, s': State, i: nat) {
    OnlyStage(s, s', i, Settled(false)) && s'.memory == s.memory && s'.applied == s.applied && s'.store == s.store
  }

  /** A publication queues up behind the last one. */
  lemma PublishQueues(s: State, r: nat, persist: Persist, update: Models)
    requires r < |s.refreshes|
    ensures var s' := Next(s, Publish(r, persist, update));
      && |s'.jobs| == |s.jobs| + 1 && s.jobs <= s'.jobs && s'.chain == Some(|s.jobs|)
      && s'.jobs[|s.jobs|] == Job(r, persist, update, s.chain, Waiting)
      && s'.memory == s.memory && s'.store == s.store && s'.applied == s.applied
  {
  }

  lemma OverIsClear(s: State, i: nat)
    requires Queued(s) && i < |s.jobs| && Over(s, i)
    ensures ChainClear(s, s.jobs[i])
  {
  }

  /** A publication that has nothing to store, or has stored it, publishes when it resumes, if its refresh is current;
      otherwise it is given up. */
  lemma ResumePublishesIff(s: State, i: nat)
    requires Invariant(s) && i < |s.jobs| && Over(s, i)
    requires s.jobs[i].stage == Stored(true) || (s.jobs[i].stage.Waiting? && s.jobs[i].persist.Untouched?)
    ensures if Current(s, s.jobs[i].refresh) then Published(s, Next(s, Resume(i)), i)
            else GivenUp(s, Next(s, Resume(i)), i)
  {
    OverIsClear(s, i);
  }

  /** One that has something to store begins to, if its refresh is current; otherwise it is given up. */
  lemma ResumeStoresIff(s: State, i: nat)
    requires Invariant(s) && i < |s.jobs| && Over(s, i)
    requires s.jobs[i].stage.Waiting? && !s.jobs[i].persist.Untouched?
    ensures var s' := Next(s, Resume(i));
      if Current(s, s.jobs[i].refresh) then
        OnlyStage(s, s', i, Storing) && s'.memory == s.memory && s'.applied == s.applied && s'.store == s.store
      else GivenUp(s, s', i)
  {
    OverIsClear(s, i);
  }

  /** While one before it is not over, a publication waits. */
  lemma WaitsItsTurn(s: State, i: nat)
    requires Invariant(s) && i < |s.jobs| && s.jobs[i].stage.Waiting? && !Over(s, i)
    ensures Next(s, Resume(i)) == s
  {
    if ChainClear(s, s.jobs[i]) {
      ClearMeansFirst(s, i);
    }
  }

  /** A mutation that went well leaves just the entry put, or none after a deletion. */
  lemma MutationArrives(s: State, i: nat, left: Option<Entry>)
    requires i < |s.jobs| && s.jobs[i].stage.Storing?
    ensures var s' := Next(s, MutationEnds(i, true, left));
      && OnlyStage(s, s', i, Stored(true)) && s'.memory == s.memory && s'.applied == s.applied
      && (s.jobs[i].persist.Put? ==> s'.store == Some(s.jobs[i].persist.entry))
      && (s.jobs[i].persist.Delete? ==> s'.store == None)
  {
  }

  /** A publication whose mutation failed is given up, and the models in memory stay. */
  lemma FailedMutationGivesUp(s: State, i: nat)
    requires i < |s.jobs| && s.jobs[i].stage == Stored(false)
    ensures GivenUp(s, Next(s, Resume(i)), i)
  {
  }

  // ---- Over whole runs ----

  lemma JobStands(s: State, step: Step, i: nat)
    requires i < |s.jobs|
    requires s.jobs[i].stage.Storing? ==> !(step.MutationEnds? && step.job == i)
    requires s.jobs[i].stage.Stored? ==> step != Resume(i)
    requires s.jobs[i].stage.Storing? || s.jobs[i].stage.Stored?
    ensures i < |Next(s, step).jobs| && Next(s, step).jobs[i] == s.jobs[i]
  {
  }

  /** These steps leave a job alone whose mutation is running, or has ended. */
  ghost predicate LeaveAlone(steps: seq<Step>, i: nat, storing: bool) {
    forall k :: 0 <= k < |steps| ==>
      if storing then !(steps[k].MutationEnds? && steps[k].job == i) else steps[k] != Resume(i)
  }

  lemma {:induction false} JobStandsOver(steps: seq<Step>, more: seq<Step>, i: nat)
    requires i < |Run(steps).jobs|
    requires Run(steps).jobs[i].stage.Storing? || Run(steps).jobs[i].stage.Stored?
    requires LeaveAlone(more, i, Run(steps).jobs[i].stage.Storing?)
    ensures i < |Run(steps + more).jobs| && Run(steps + more).jobs[i] == Run(steps).jobs[i]
  {
    hide Run, Next;
    if more == [] {
      assert steps + more == steps;
    } else {
      var n := |more| - 1;
      JobStandsOver(steps, more[..n], i);
      assert steps + more == (steps + more[..n]) + [more[n]];
      RunSnoc(steps + more[..n], more[n]);
      JobStands(Run(steps + more[..n]), more[n], i);
    }
  }

  /** A publication arrives. It resumes while current, with everything before it over; whatever happens meanwhile, its
      mutation goes well; whatever happens then, it resumes while still current: the store shows its entry, the models
      in memory are its update, and it counts as published. */
  lemma PublicationArrives(steps: seq<Step>, between: seq<Step>, left: Option<Entry>, later: seq<Step>, i: nat)
    requires i < |Run(steps).jobs| && Over(Run(steps), i)
    requires Run(steps).jobs[i].stage.Waiting? && !Run(steps).jobs[i].persist.Untouched?
    requires Current(Run(steps), Run(steps).jobs[i].refresh)
    requires LeaveAlone(between, i, true) && LeaveAlone(later, i, false)
    requires var b := steps + [Resume(i)] + between + [MutationEnds(i, true, left)] + later;
      Current(Run(b), Run(steps).jobs[i].refresh)
    ensures var b := steps + [Resume(i)] + between + [MutationEnds(i, true, left)] + later;
      var persist, update := Run(steps).jobs[i].persist, Run(steps).jobs[i].update;
      && i < |Run(b).jobs| && Published(Run(b), Run(b + [Resume(i)]), i)
      && Run(b + [Resume(i)]).memory == Some(update) && Run(b + [Resume(i)]).jobs[i].stage == Settled(true)
      && Run(b + [Resume(i)]).store == (if persist.Put? then Some(persist.entry) else None)
  {
    var a := steps + [Resume(i)];
    EveryRunIsSafe(steps);
    RunSnoc(steps, Resume(i));
    ResumeStoresIff(Run(steps), i);
    JobStandsOver(a, between, i);
    var m := a + between + [MutationEnds(i, true, left)];
    RunSnoc(a + between, MutationEnds(i, true, left));
    MutationArrives(Run(a + between), i, left);
    JobStandsOver(m, later, i);
    var b := m + later;
    EveryRunIsSafe(b);
    RunSnoc(b, Resume(i));
    ResumePublishesIff(Run(b), i);
  }

  /** The mutation of this job failed at some step. */
  ghost predicate MutationFailed(steps: seq<Step>, i: nat) {
    exists k :: 0 <= k < |steps| && steps[k].MutationEnds? && steps[k].job == i && !steps[k].ok
  }

  /** Why a job is where it is: it was given up only because its refresh is no longer current or its mutation failed. */
  ghost predicate Explained(s: State, steps: seq<Step>, i: nat)
    requires i < |s.jobs|
  {
    && (s.jobs[i].stage == Stored(false) ==> MutationFailed(steps, i))
    && (s.jobs[i].stage == Settled(false) ==> !Current(s, s.jobs[i].refresh) || MutationFailed(steps, i))
  }

  lemma ExplainedOn(s: State, steps: seq<Step>, step: Step, i: nat)
    requires Bounded(s) && i < |s.jobs| && Explained(s, steps, i)
    ensures i < |Next(s, step).jobs| && Explained(Next(s, step), steps + [step], i)
  {
    assert MutationFailed(steps, i) ==> MutationFailed(steps + [step], i) by {
      if MutationFailed(steps, i) {
        var k :| 0 <= k < |steps| && steps[k].MutationEnds? && steps[k].job == i && !steps[k].ok;
        assert (steps + [step])[k] == steps[k];
      }
    }
    assert (steps + [step])[|steps|] == step;
    CurrentUntil(s, step, s.jobs[i].refresh);
  }

  /** Over every run, a publication is given up only because its refresh was aborted or superseded, or because its store
      mutation failed. */
  lemma {:induction false} GivenUpForAReason(steps: seq<Step>, i: nat)
    requires i < |Run(steps).jobs|
    ensures Explained(Run(steps), steps, i)
  {
    var n := |steps| - 1;
    var before, step := steps[..n], steps[n];
    assert steps == before + [step];
    RunIsBounded(before);
    if i < |Run(before).jobs| {
      GivenUpForAReason(before, i);
      ExplainedOn(Run(before), before, step, i);
    }
  }

  /** The shortest way: one refresh, one publication. */
  lemma OnePublication(e: Entry, u: Models)
    ensures var waiting := Next(Next(INITIAL, Begin), Publish(0, Put(e), u));
      var stored := Next(Next(waiting, Resume(0)), MutationEnds(0, true, None));
      var s := Next(stored, Resume(0));
      s.memory == Some(u) && s.store == Some(e) && |s.jobs| == 1 && s.jobs[0].stage == Settled(true)
  {
    var waiting := Next(Next(INITIAL, Begin), Publish(0, Put(e), u));
    assert waiting.jobs == [Job(0, Put(e), u, None, Waiting)] && waiting.refreshes == [Refresh(1, false)];
    var storing := Next(waiting, Resume(0));
    assert storing.jobs == [Job(0, Put(e), u, None, Storing)];
  }
}
