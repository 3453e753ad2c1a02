// The lease bookkeeping as the client keeps it: maps and sets keyed by session, changed in place.
// Every method is one step of the lease protocol for its session and leaves the others alone; losing
// the connection is one step for all of them.
module LeaseTables {
  import opened Wrappers
  import opened SessionLeases

  lemma OneMoreStep(trail: seq<Step>, step: Step)
    ensures Run(trail + [step]) == Next(Run(trail), step)
  {
    assert (trail + [step])[..|trail|] == trail;
  }

  /** A count is on record only while there are leases. */
  type Positive = n: nat | n > 0 witness 1

  class LeaseTable {
    var tokens: map<string, seq<Token>>
    var leaseCounts: map<string, Positive>
    var exclusiveLeases: map<string, nat>
    var leaseGenerations: map<string, nat>
    var detachments: map<string, nat>
    var cleanupRequired: set<string>
    var reconciliations: set<string>
    var attached: set<string>
    ghost var detaches: map<string, seq<Detach>>
    ghost var releases: map<string, multiset<nat>>
    ghost var trails: string -> seq<Step>

    /** The state of the protocol for one session. */
    ghost function Of(p: string): Session
      reads this`tokens, this`leaseCounts, this`exclusiveLeases, this`leaseGenerations, this`detachments
      reads this`cleanupRequired, this`reconciliations, this`attached, this`detaches, this`releases
    {
      Session(FindOr(tokens, p, []), Count(p), Find(exclusiveLeases, p), FindOr(leaseGenerations, p, 0),
              Find(detachments, p), p in cleanupRequired, p in reconciliations, p in attached,
              FindOr(detaches, p, []), FindOr(releases, p, multiset{}))
    }

    twostate predicate Others(p: string) reads this {
      forall q :: q != p ==> Of(q) == old(Of(q))
    }

    /** One step for one session, nothing for the others. */
    twostate predicate Does(p: string, step: Step) reads this {
      && Of(p) == Next(old(Of(p)), step) && Others(p)
      && trails(p) == old(trails)(p) + [step] && forall q :: q != p ==> trails(q) == old(trails)(q)
    }

    /** For every session the table is where some run of the protocol leads. */
    ghost predicate Valid() reads this {
      forall p :: Of(p) == Run(trails(p))
    }

    /** So a session keeps its promises at every moment if and only if every step taken for it was harmless,
        and then its whole invariant holds. */
    lemma EverySession(p: string)
      requires Valid()
      ensures AlwaysHolds(trails(p)) <==> AllSafe(trails(p))
      ensures AllSafe(trails(p)) ==> Invariant(Of(p)) && Promised(Of(p))
    {
      RunsAreSoundIffSafe(trails(p));
      if AllSafe(trails(p)) {
        InvariantPromises(Of(p));
      }
    }

    /** Puts a step that was just taken on the trail of its session. */
    ghost method Note(p: string, step: Step, before: Session)
      requires before == Run(trails(p)) && Of(p) == Next(before, step)
      requires forall q :: q != p ==> Of(q) == Run(trails(q))
      modifies this`trails
      ensures Valid()
      ensures trails(p) == old(trails)(p) + [step] && forall q :: q != p ==> trails(q) == old(trails)(q)
    {
      OneMoreStep(trails(p), step);
      var earlier := trails;
      trails := q => if q == p then earlier(p) + [step] else earlier(q);
    }

    constructor ()
      ensures Valid() && forall p :: Of(p) == NEW_SESSION && trails(p) == []
    {
      tokens, leaseCounts, exclusiveLeases, leaseGenerations, detachments := map[], map[], map[], map[], map[];
      cleanupRequired, reconciliations, attached := {}, {}, {};
      detaches, releases, trails := map[], map[], p => [];
    }

    method SetStatus(p: string, t: nat, status: Status)
      requires t < |FindOr(tokens, p, [])|
      modifies this`tokens
      ensures Of(p) == Put(old(Of(p)), t, status) && Others(p)
    {
      var ts := FindOr(tokens, p, []);
      SetTokens(p, ts[t := ts[t].(status := status)]);
    }

    function Count(p: string): nat reads this`leaseCounts {
      if p in leaseCounts then leaseCounts[p] else 0
    }

    method ForgetExclusive(p: string, t: nat)
      modifies this`exclusiveLeases
      ensures var s := old(Of(p)); Of(p) == s.(exclusive := if s.exclusive == Some(t) then None else s.exclusive)
      ensures Others(p)
    {
      if Find(exclusiveLeases, p) == Some(t) {
        exclusiveLeases := exclusiveLeases - {p};
      }
    }

    method AddToken(p: string, mode: Mode, status: Status) returns (t: nat)
      modifies this`tokens, this`exclusiveLeases
      ensures var s := old(Of(p));
        && t == |s.tokens|
        && Of(p) == s.(tokens := s.tokens + [Token(mode, status)],
                       exclusive := if mode == Exclusive then Some(t) else s.exclusive)
      ensures Others(p)
    {
      var ts := FindOr(tokens, p, []);
      t := |ts|;
      tokens := tokens[p := ts + [Token(mode, status)]];
      if mode == Exclusive {
        exclusiveLeases := exclusiveLeases[p := t];
      }
    }

    method SetCount(p: string, n: nat)
      modifies this`leaseCounts
      ensures Of(p) == old(Of(p)).(count := n) && Others(p)
    {
      leaseCounts := if n == 0 then leaseCounts - {p} else leaseCounts[p := n];
    }

    /** The last lease of a session takes its count along; the generation is not looked at. */
    method ReleaseSessionLease(p: string, t: nat)
      requires t < |FindOr(tokens, p, [])|
      modifies this`tokens, this`leaseCounts, this`exclusiveLeases, this`releases
      ensures Of(p) == GiveBack(old(Of(p)), t) && Others(p)
    {
      var count := Count(p);
      SetCount(p, if count <= 1 then 0 else count - 1);
      ForgetExclusive(p, t);
      releases := releases[p := FindOr(releases, p, multiset{}) + multiset{t}];
      SetStatus(p, t, Over);
    }

    method ReserveSessionLease(p: string, mode: Mode, status: Status) returns (token: Option<nat>)
      modifies this`tokens, this`leaseCounts, this`exclusiveLeases
      ensures token.None? <==> Refused(old(Of(p)), mode)
      ensures token.None? ==> Of(p) == old(Of(p))
      ensures token.Some? ==> token.value == |old(Of(p)).tokens| && Of(p) == Reserve(old(Of(p)), mode, status)
      ensures Others(p)
    {
      var count := Count(p);
      if (mode == Exclusive && count > 0) || (mode == Shared && p in exclusiveLeases) {
        return None;
      }
      SetCount(p, count + 1);
      var t := AddToken(p, mode, status);
      token := Some(t);
    }

    method SetDetachment(p: string, t: Option<nat>)
      modifies this`detachments
      ensures Of(p) == old(Of(p)).(detachment := t) && Others(p)
    {
      detachments := if t.Some? then detachments[p := t.value] else detachments - {p};
    }

    method SetCleanup(p: string, owed: bool)
      modifies this`cleanupRequired
      ensures Of(p) == old(Of(p)).(cleanup := owed) && Others(p)
    {
      cleanupRequired := if owed then cleanupRequired + {p} else cleanupRequired - {p};
    }

    method SetReconciling(p: string, now: bool)
      modifies this`reconciliations
      ensures Of(p) == old(Of(p)).(reconciling := now) && Others(p)
    {
      reconciliations := if now then reconciliations + {p} else reconciliations - {p};
    }

    method SetTokens(p: string, ts: seq<Token>)
      modifies this`tokens
      ensures Of(p) == old(Of(p)).(tokens := ts) && Others(p)
    {
      tokens := tokens[p := ts];
    }

    method Mark(p: string, now: bool)
      modifies this`attached
      ensures Of(p) == old(Of(p)).(attached := now) && Others(p)
    {
      attached := if now then attached + {p} else attached - {p};
    }

    method NoteDetach(p: string, t: nat, ghost others: set<nat>)
      modifies this`detaches
      ensures Of(p) == old(Of(p)).(detaches := old(Of(p)).detaches + [Detach(t, others)]) && Others(p)
    {
      detaches := detaches[p := FindOr(detaches, p, []) + [Detach(t, others)]];
    }

    /** An acquisition from its clean-up check on. */
    method GoOn(p: string, t: nat)
      requires t < |FindOr(tokens, p, [])|
      modifies this`tokens, this`reconciliations, this`detaches
      ensures Of(p) == AfterDetachment(old(Of(p)), t) && Others(p)
    {
      if p in cleanupRequired {
        if p !in reconciliations {
          NoteDetach(p, t, ActiveLeases(Of(p)));
          SetReconciling(p, true);
        }
        SetStatus(p, t, Reconciling(false));
      } else if p !in attached {
        SetStatus(p, t, Attaching(false));
      } else {
        SetStatus(p, t, Active(FindOr(leaseGenerations, p, 0)));
      }
    }

    method AcquireSession(p: string, mode: Mode)
      requires Valid()
      modifies this`tokens, this`leaseCounts, this`exclusiveLeases, this`reconciliations, this`detaches, this`trails
      ensures Valid() && Does(p, Acquire(mode))
    {
      var detacher := Find(detachments, p);
      var token := ReserveSessionLease(p, mode, Waiting(if detacher.Some? then detacher.value else 0));
      if token.Some? && detacher.None? {
        GoOn(p, token.value);
      }
      Note(p, Acquire(mode), old(Of(p)));
    }

    method CreatedSession(p: string)
      requires Valid()
      modifies this`tokens, this`leaseCounts, this`exclusiveLeases, this`trails
      ensures Valid() && Does(p, CreateReply)
    {
      var _ := ReserveSessionLease(p, Exclusive, Active(FindOr(leaseGenerations, p, 0)));
      Note(p, CreateReply, old(Of(p)));
    }

    /** An acquisition resumes after the detachment or the clean-up it waited for. */
    method ResumeAcquire(p: string, t: nat)
      requires Valid()
      modifies this`tokens, this`reconciliations, this`detaches
      modifies this`leaseCounts, this`exclusiveLeases, this`releases, this`trails
      ensures Valid() && Does(p, Proceed(t))
    {
      var ts := FindOr(tokens, p, []);
      if t < |ts| {
        match ts[t].status {
          case Waiting(detacher) =>
            if detacher >= |ts| || !ts[detacher].status.Detaching? {
              GoOn(p, t);
            }
          case Reconciled(ok) =>
            if ok {
              SetStatus(p, t, Attaching(false));
            } else {
              ReleaseSessionLease(p, t);
            }
          case _ =>
        }
      }
      Note(p, Proceed(t), old(Of(p)));
    }

    method AttachAnswered(p: string, t: nat, ok: bool)
      requires Valid()
      modifies this`tokens, this`leaseCounts, this`exclusiveLeases, this`releases, this`trails
      ensures Valid() && Does(p, AttachReply(t, ok))
    {
      var ts := FindOr(tokens, p, []);
      if t < |ts| && ts[t].status.Attaching? && !(ok && ts[t].status.lost) {
        if ok {
          SetStatus(p, t, Active(FindOr(leaseGenerations, p, 0)));
        } else {
          ReleaseSessionLease(p, t);
        }
      }
      Note(p, AttachReply(t, ok), old(Of(p)));
    }

    method LetGo(p: string, t: nat, relinquish: bool)
      modifies this`tokens, this`leaseCounts, this`exclusiveLeases
      modifies this`releases, this`detachments, this`detaches
      ensures Of(p) == Next(old(Of(p)), Release(t, relinquish)) && Others(p)
    {
      var ts, generation := FindOr(tokens, p, []), FindOr(leaseGenerations, p, 0);
      if t < |ts| && ts[t].status == Active(generation) && p in attached {
        if Count(p) <= 1 {
          NoteDetach(p, t, ActiveLeases(Of(p)) - {t});
          SetDetachment(p, Some(t));
          SetStatus(p, t, Detaching(generation, relinquish, false));
        } else {
          ReleaseSessionLease(p, t);
        }
      }
    }

    /** The last lease detaches from the server; any other is just given back. */
    method ReleaseLease(p: string, t: nat, relinquish: bool)
      requires Valid()
      modifies this`tokens, this`leaseCounts, this`exclusiveLeases
      modifies this`releases, this`detachments, this`detaches, this`trails
      ensures Valid() && Does(p, Release(t, relinquish))
    {
      LetGo(p, t, relinquish);
      Note(p, Release(t, relinquish), old(Of(p)));
    }

    method EndDetach(p: string, t: nat, ok: bool)
      modifies this`tokens, this`leaseCounts, this`exclusiveLeases, this`releases, this`detachments
      ensures Of(p) == Next(old(Of(p)), DetachReply(t, ok)) && Others(p)
    {
      var ts := FindOr(tokens, p, []);
      if t < |ts| && ts[t].status.Detaching? && !(ok && ts[t].status.lost) {
        if Find(detachments, p) == Some(t) {
          SetDetachment(p, None);
        }
        if ok {
          ReleaseSessionLease(p, t);
        } else {
          SetStatus(p, t, DetachFailed(ts[t].status.generation, ts[t].status.relinquish));
        }
      }
    }

    method DetachAnswered(p: string, t: nat, ok: bool)
      requires Valid()
      modifies this`tokens, this`leaseCounts, this`exclusiveLeases, this`releases, this`detachments, this`trails
      ensures Valid() && Does(p, DetachReply(t, ok))
    {
      EndDetach(p, t, ok);
      Note(p, DetachReply(t, ok), old(Of(p)));
    }

    method DropDetach(p: string, t: nat)
      modifies this`tokens, this`leaseCounts, this`exclusiveLeases, this`releases, this`cleanupRequired
      ensures Of(p) == Next(old(Of(p)), CatchFailure(t)) && Others(p)
    {
      var ts, generation := FindOr(tokens, p, []), FindOr(leaseGenerations, p, 0);
      if t < |ts| && ts[t].status.DetachFailed? {
        if ts[t].status.generation != generation {
          SetStatus(p, t, Over);
        } else if ts[t].status.relinquish {
          ReleaseSessionLease(p, t);
          SetCleanup(p, true);
        } else {
          SetStatus(p, t, Active(generation));
        }
      }
    }

    /** A failed detach: nothing more if the lease was invalidated meanwhile, otherwise the lease is given
        up and a clean-up owed, or it is active again. */
    method DetachRejected(p: string, t: nat)
      requires Valid()
      modifies this`tokens, this`leaseCounts, this`exclusiveLeases, this`releases, this`cleanupRequired, this`trails
      ensures Valid() && Does(p, CatchFailure(t))
    {
      DropDetach(p, t);
      Note(p, CatchFailure(t), old(Of(p)));
    }

    method SetAttached(p: string, now: bool)
      requires Valid()
      modifies this`attached, this`trails
      ensures Valid() && Does(p, Snapshot(now))
    {
      Mark(p, now);
      Note(p, Snapshot(now), old(Of(p)));
    }

    method InvalidateSessionLeases(p: string)
      modifies this`leaseCounts, this`exclusiveLeases, this`cleanupRequired, this`leaseGenerations
      ensures Of(p) == Invalidate(old(Of(p))) && Others(p)
    {
      SetCount(p, 0);
      SetCleanup(p, false);
      exclusiveLeases := exclusiveLeases - {p};
      leaseGenerations := leaseGenerations[p := FindOr(leaseGenerations, p, 0) + 1];
    }

    method SessionRemoved(p: string)
      requires Valid()
      modifies this`leaseCounts, this`exclusiveLeases, this`cleanupRequired
      modifies this`leaseGenerations, this`attached, this`trails
      ensures Valid() && Does(p, Removed)
    {
      InvalidateSessionLeases(p);
      Mark(p, false);
      Note(p, Removed, old(Of(p)));
    }

    /** The reply to a clean-up detach reaches everyone who waits for it. */
    method CleanupAnswered(p: string, ok: bool)
      requires Valid()
      modifies this`tokens, this`reconciliations, this`cleanupRequired, this`trails
      ensures Valid() && Does(p, ReconcileReply(ok))
    {
      var ts := FindOr(tokens, p, []);
      if p in reconciliations && !(ok && exists t :: 0 <= t < |ts| && ts[t].status == Reconciling(true)) {
        SetTokens(p, RepliedTokens(ts, ok));
        SetReconciling(p, false);
        if ok {
          SetCleanup(p, false);
        }
      }
      Note(p, ReconcileReply(ok), old(Of(p)));
    }

    /** All sessions that have leases are invalidated, and no clean-up is owed any more. */
    method InvalidateAllSessionLeases()
      modifies this`leaseCounts, this`exclusiveLeases, this`cleanupRequired, this`leaseGenerations
      ensures forall p :: Of(p) == Forgotten(old(Of(p)))
    {
      InvalidateListed();
      cleanupRequired := {};
    }

    method InvalidateListed()
      modifies this`leaseCounts, this`exclusiveLeases, this`cleanupRequired, this`leaseGenerations
      ensures forall p :: Of(p) == if old(Of(p)).count > 0 then Invalidate(old(Of(p))) else old(Of(p))
    {
      var left := leaseCounts.Keys;
      while left != {}
        invariant left <= old(leaseCounts).Keys
        invariant forall p ::
          Of(p) == if p in old(leaseCounts) && p !in left then Invalidate(old(Of(p))) else old(Of(p))
        decreases left
      {
        var p :| p in left;
        InvalidateSessionLeases(p);
        left := left - {p};
      }
    }

    method LoseReplies()
      modifies this`tokens, this`attached
      ensures forall p :: Of(p) == old(Of(p)).(tokens := LostTokens(old(Of(p)).tokens), attached := false)
    {
      tokens := map p | p in tokens :: LostTokens(tokens[p]);
      attached := {};
    }

    /** The connection is gone: every reply still due is lost, every attachment and every lease. This is one
        step of the protocol for every session. */
    method ConnectionLost()
      requires Valid()
      modifies this
      ensures Valid()
      ensures forall p :: Of(p) == Next(old(Of(p)), Disconnect) && trails(p) == old(trails)(p) + [Disconnect]
    {
      ghost var earlier := trails;
      LoseReplies();
      InvalidateAllSessionLeases();
      trails := p => earlier(p) + [Disconnect];
      forall p ensures Of(p) == Run(trails(p)) {
        OneMoreStep(earlier(p), Disconnect);
      }
    }
  }

  ghost function Forgotten(s: Session): Session {
    if s.count > 0 then Invalidate(s) else s.(cleanup := false)
  }
}
