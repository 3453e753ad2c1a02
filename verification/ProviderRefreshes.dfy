// The registry of providers as the program keeps it: one map per concern, keyed by provider, changed
// in place. Every method is one step of the publication protocol for its provider and leaves the
// others alone, so the protocol's invariant holds of every provider at all times.
module ProviderRefreshes {
  import opened Wrappers
  import opened Publication

  lemma OneMoreStep(s: State, s': State, trail: seq<Step>, step: Step)
    requires s == Run(trail) && s' == Next(s, step)
    ensures s' == Run(trail + [step])
  {
    assert (trail + [step])[..|trail|] == trail;
  }

  class ModelsRegistry {
    var refreshGenerations: map<string, nat>
    var refreshControllers: map<string, nat>
    var publicationChains: map<string, nat>
    var modelsStore: map<string, Entry>
    var models: map<string, Models>
    var refreshes: map<string, seq<Refresh>>
    var publications: map<string, seq<Job>>
    ghost var applied: map<string, seq<Applied>>
    ghost var started: map<string, seq<nat>>
    ghost var trails: map<string, seq<Step>>

    /** The state of the protocol for one provider. */
    ghost function Of(p: string): State
      reads this`refreshGenerations, this`refreshControllers, this`publicationChains, this`modelsStore, this`models
      reads this`refreshes, this`publications, this`applied, this`started
    {
      State(FindOr(refreshGenerations, p, 0), Find(refreshControllers, p), FindOr(refreshes, p, []),
            FindOr(publications, p, []), Find(publicationChains, p), Find(modelsStore, p), Find(models, p),
            FindOr(applied, p, []), FindOr(started, p, []))
    }

    /** The steps taken for one provider so far. */
    ghost function Trail(p: string): seq<Step> reads this`trails { FindOr(trails, p, []) }

    /** For every provider the registry is where some run of the protocol leads. */
    ghost predicate Valid() reads this {
      forall p :: Of(p) == Run(Trail(p))
    }

    /** One step for one provider, nothing for the others. */
    twostate predicate Does(p: string, step: Step) reads this {
      Of(p) == Next(old(Of(p)), step) && forall q :: q != p ==> Of(q) == old(Of(q))
    }

    /** So the invariant of the protocol holds for every provider at all times. */
    lemma EveryProvider(p: string)
      requires Valid()
      ensures Invariant(Of(p))
    {
      EveryRunIsSafe(Trail(p));
    }

    /** Puts a step that was just taken on the trail of its provider. */
    ghost method Note(p: string, step: Step, before: State)
      requires before == Run(Trail(p)) && Of(p) == Next(before, step)
      requires forall q :: q != p ==> Of(q) == Run(Trail(q))
      modifies this`trails
      ensures Valid()
    {
      OneMoreStep(before, Of(p), Trail(p), step);
      trails := trails[p := Trail(p) + [step]];
    }

    constructor ()
      ensures Valid() && forall p :: Of(p) == INITIAL
    {
      refreshGenerations, refreshControllers, publicationChains := map[], map[], map[];
      modelsStore, models, refreshes, publications := map[], map[], map[], map[];
      applied, started, trails := map[], map[], map[];
    }

    method Abort(p: string, r: nat)
      modifies this`refreshes
      ensures Of(p) == Aborted(old(Of(p)), r) && forall q :: q != p ==> Of(q) == old(Of(q))
    {
      var signals := FindOr(refreshes, p, []);
      if r < |signals| {
        refreshes := refreshes[p := signals[r := signals[r].(aborted := true)]];
      }
    }

    /** Stops the refresh that is under way, if any. */
    method DropController(p: string)
      modifies this`refreshControllers, this`refreshes
      ensures var s := old(Of(p));
        Of(p) == if s.controller.Some? then Aborted(s.(controller := None), s.controller.value) else s
      ensures forall q :: q != p ==> Of(q) == old(Of(q))
    {
      if p in refreshControllers {
        var previous := refreshControllers[p];
        refreshControllers := refreshControllers - {p};
        Abort(p, previous);
      }
    }

    method NewGeneration(p: string) returns (generation: nat)
      modifies this`refreshGenerations, this`refreshControllers, this`refreshes
      ensures Of(p) == Superseded(old(Of(p))) && generation == Of(p).generation
      ensures forall q :: q != p ==> Of(q) == old(Of(q))
    {
      generation := FindOr(refreshGenerations, p, 0) + 1;
      refreshGenerations := refreshGenerations[p := generation];
      DropController(p);
    }

    /** A newer refresh, or a change of the provider itself, makes the current one stale. */
    method SupersedeProviderRefresh(p: string) returns (generation: nat)
      requires Valid()
      modifies this`refreshGenerations, this`refreshControllers, this`refreshes, this`trails
      ensures Valid() && Does(p, Supersede) && generation == old(Of(p)).generation + 1
    {
      generation := NewGeneration(p);
      Note(p, Supersede, old(Of(p)));
    }

    method NewController(p: string, generation: nat) returns (controller: nat)
      modifies this`refreshControllers, this`refreshes
      ensures var s := old(Of(p));
        && controller == |s.refreshes|
        && Of(p) == s.(refreshes := s.refreshes + [Refresh(generation, false)], controller := Some(controller))
      ensures forall q :: q != p ==> Of(q) == old(Of(q))
    {
      var signals := FindOr(refreshes, p, []);
      controller := |signals|;
      refreshes := refreshes[p := signals + [Refresh(generation, false)]];
      refreshControllers := refreshControllers[p := controller];
    }

    method BeginProviderRefresh(p: string) returns (generation: nat, controller: nat)
      requires Valid()
      modifies this`refreshGenerations, this`refreshControllers, this`refreshes, this`trails
      ensures Valid() && Does(p, Begin)
      ensures generation == Of(p).generation && Of(p).controller == Some(controller)
    {
      generation := NewGeneration(p);
      controller := NewController(p, generation);
      Note(p, Begin, old(Of(p)));
    }

    /** A refresh ends; its controller is forgotten unless a newer one took its place. */
    method FinishRefresh(p: string, controller: nat)
      requires Valid()
      modifies this`refreshControllers, this`trails
      ensures Valid() && Does(p, Finish(controller))
    {
      if Find(refreshControllers, p) == Some(controller) {
        refreshControllers := refreshControllers - {p};
      }
      Note(p, Finish(controller), old(Of(p)));
    }

    method AbortByCaller(p: string, refresh: nat)
      requires Valid()
      modifies this`refreshes, this`trails
      ensures Valid() && Does(p, AbortCaller(refresh))
    {
      Abort(p, refresh);
      Note(p, AbortCaller(refresh), old(Of(p)));
    }

    /** A publication queues up behind the last one of its provider. */
    method PublishProviderModels(p: string, refresh: nat, persist: Persist, update: Models)
      requires Valid()
      modifies this`publications, this`publicationChains, this`trails
      ensures Valid() && Does(p, Publish(refresh, persist, update))
    {
      if refresh < |FindOr(refreshes, p, [])| {
        var jobs := FindOr(publications, p, []);
        publications := publications[p := jobs + [Job(refresh, persist, update, Find(publicationChains, p), Waiting)]];
        publicationChains := publicationChains[p := |jobs|];
      }
      Note(p, Publish(refresh, persist, update), old(Of(p)));
    }

    /** The publication may go on: its signal is clear and its generation is the current one. */
    method MayGoOn(p: string, job: Job) returns (r: bool)
      ensures r == Live(Of(p), job)
    {
      var signals := FindOr(refreshes, p, []);
      r := job.refresh < |signals| && !signals[job.refresh].aborted &&
        signals[job.refresh].generation == FindOr(refreshGenerations, p, 0);
    }

    method SetStage(p: string, i: nat, stage: Stage)
      requires i < |FindOr(publications, p, [])|
      modifies this`publications
      ensures Of(p) == WithStage(old(Of(p)), i, stage) && forall q :: q != p ==> Of(q) == old(Of(q))
    {
      var jobs := FindOr(publications, p, []);
      publications := publications[p := jobs[i := jobs[i].(stage := stage)]];
    }

    method UpdateModels(p: string, i: nat)
      requires i < |FindOr(publications, p, [])| && Live(Of(p), FindOr(publications, p, [])[i])
      modifies this`publications, this`models, this`applied
      ensures Of(p) == Update(old(Of(p)), i) && forall q :: q != p ==> Of(q) == old(Of(q))
    {
      var job := FindOr(publications, p, [])[i];
      applied := applied[p := Update(Of(p), i).applied];
      models := models[p := job.update];
      SetStage(p, i, Settled(true));
    }

    method GoOn(p: string, i: nat)
      requires i < |FindOr(publications, p, [])|
      modifies this`publications, this`models, this`applied, this`started
      ensures Of(p) == Resumed(old(Of(p)), i) && forall q :: q != p ==> Of(q) == old(Of(q))
    {
      var jobs := FindOr(publications, p, []);
      var job := jobs[i];
      var live := MayGoOn(p, job);
      if job.stage.Waiting? {
        var clear := job.previous.None? || (job.previous.value < |jobs| && jobs[job.previous.value].stage.Settled?);
        if clear && !live {
          SetStage(p, i, Settled(false));
        } else if clear && job.persist.Untouched? {
          UpdateModels(p, i);
        } else if clear {
          started := started[p := FindOr(started, p, []) + [FindOr(refreshGenerations, p, 0)]];
          SetStage(p, i, Storing);
        }
      } else if job.stage.Stored? {
        if job.stage.ok && live {
          UpdateModels(p, i);
        } else {
          SetStage(p, i, Settled(false));
        }
      }
    }

    /** A publication goes on after its predecessor, or after its store mutation. */
    method ResumePublication(p: string, i: nat)
      requires Valid() && i < |FindOr(publications, p, [])|
      modifies this`publications, this`models, this`applied, this`started, this`trails
      ensures Valid() && Does(p, Resume(i))
    {
      GoOn(p, i);
      Note(p, Resume(i), old(Of(p)));
    }

    method SetStore(p: string, entry: Option<Entry>)
      modifies this`modelsStore
      ensures Of(p) == old(Of(p)).(store := entry) && forall q :: q != p ==> Of(q) == old(Of(q))
    {
      modelsStore := if entry.Some? then modelsStore[p := entry.value] else modelsStore - {p};
    }

    /** A store mutation ends: well, with the entry written or deleted, or with anything left behind. */
    method EndMutation(p: string, i: nat, ok: bool, left: Option<Entry>)
      requires Valid() && i < |FindOr(publications, p, [])| && FindOr(publications, p, [])[i].stage.Storing?
      modifies this`publications, this`modelsStore, this`trails
      ensures Valid() && Does(p, MutationEnds(i, ok, left))
    {
      SetStore(p, if ok then Target(FindOr(publications, p, [])[i].persist) else left);
      SetStage(p, i, Stored(ok));
      Note(p, MutationEnds(i, ok, left), old(Of(p)));
    }

    /** A settled publication that is still the last of its chain takes the chain down. */
    method ForgetChain(p: string, i: nat)
      requires Valid() && i < |FindOr(publications, p, [])| && FindOr(publications, p, [])[i].stage.Settled?
      modifies this`publicationChains, this`trails
      ensures Valid() && Does(p, CleanUp(i))
    {
      if Find(publicationChains, p) == Some(i) {
        publicationChains := publicationChains - {p};
      }
      Note(p, CleanUp(i), old(Of(p)));
    }

    /** All providers are removed: every refresh of theirs becomes stale. */
    method ClearProviders(ids: set<string>)
      requires Valid()
      modifies this`refreshGenerations, this`refreshControllers, this`refreshes, this`trails
      ensures Valid()
      ensures forall q :: Of(q) == if q in ids then Next(old(Of(q)), Supersede) else old(Of(q))
    {
      var left := ids;
      while left != {}
        invariant left <= ids && Valid()
        invariant forall q :: Of(q) == if q in ids - left then Next(old(Of(q)), Supersede) else old(Of(q))
        decreases left
      {
        var p :| p in left;
        var _ := SupersedeProviderRefresh(p);
        left := left - {p};
      }
    }
  }
}
