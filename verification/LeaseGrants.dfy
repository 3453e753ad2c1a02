// What callers get from the leases on a session: when an acquisition is granted, how it comes to a lease, and the only
// ways in which an acquisition or a lease ends.
module LeaseGrants {
  import opened Wrappers
  import opened SessionLeases

  /** The token may be taken beside those in hand: a shared one beside shared ones, an exclusive one alone. */
  ghost predicate Compatible(s: Session, mode: Mode) {
    match mode
    case Exclusive => Live(s) == {}
    case Shared => forall t :: t in Live(s) ==> s.tokens[t].mode == Shared
  }

  /** `s'` has one token more than `s`, of this mode and in hand, and the others as they were. */
  ghost predicate Granted(s: Session, s': Session, mode: Mode) {
    && |s'.tokens| == |s.tokens| + 1 && s'.tokens[..|s.tokens|] == s.tokens
    && s'.tokens[|s.tokens|].mode == mode && Live(s') == Live(s) + {|s.tokens|}
  }

  lemma RefusedIff(s: Session, mode: Mode)
    requires Invariant(s)
    ensures Refused(s, mode) <==> !Compatible(s, mode)
  {
    if s.count == 0 {
      NobodyLive(s);
    }
  }

  lemma CleanupCheckGrants(s: Session, mode: Mode)
    ensures Granted(s, AfterDetachment(Reserve(s, mode, Waiting(0)), |s.tokens|), mode)
  {
    var r, n := Reserve(s, mode, Waiting(0)), |s.tokens|;
    LiveAfterReserve(s, mode, Waiting(0));
    var status := AfterDetachment(r, n).tokens[n].status;
    LiveAfterPut(r, n, status);
    assert Live(AfterDetachment(r, n)) == Live(Put(r, n, status));
  }

  /** An acquisition is granted if and only if the token may be taken beside those in hand; one that is not changes
      nothing. A new session is granted to its creator on the same terms, and is a lease at once. */
  lemma GrantedIff(s: Session, mode: Mode)
    requires Invariant(s)
    ensures if Compatible(s, mode) then Granted(s, Next(s, Acquire(mode)), mode) else Next(s, Acquire(mode)) == s
    ensures if Compatible(s, Exclusive)
            then Granted(s, Next(s, CreateReply), Exclusive) && |s.tokens| in ActiveLeases(Next(s, CreateReply))
            else Next(s, CreateReply) == s
  {
    hide Invariant, Live, AfterDetachment;
    RefusedIff(s, mode);
    RefusedIff(s, Exclusive);
    if Compatible(s, mode) {
      if s.detachment.Some? {
        LiveAfterReserve(s, mode, Waiting(s.detachment.value));
      } else {
        CleanupCheckGrants(s, mode);
      }
    }
    LiveAfterReserve(s, Exclusive, Active(s.generation));
  }

  /** On every safe run: callers can share a session for as long as nobody holds it alone. */
  lemma SharedIsShared(steps: seq<Step>)
    requires AllSafe(steps)
    requires forall t :: t in Live(Run(steps)) ==> Run(steps).tokens[t].mode == Shared
    ensures Granted(Run(steps), Next(Run(steps), Acquire(Shared)), Shared)
  {
    RunsAreSoundIffSafe(steps);
    GrantedIff(Run(steps), Shared);
  }

  // ---- How an acquisition goes on ----

  /** An acquisition that nothing stands in the way of is a lease at once if the session is attached, and otherwise
      once its attach request is answered well. */
  lemma AcquisitionArrives(s: Session, mode: Mode)
    requires Invariant(s) && Compatible(s, mode) && s.detachment.None? && !s.cleanup
    ensures var s', t := Next(s, Acquire(mode)), |s.tokens|;
      if s.attached then t in ActiveLeases(s')
      else s'.tokens[t].status == Attaching(false) && t in ActiveLeases(Next(s', AttachReply(t, true)))
  {
    RefusedIff(s, mode);
  }

  /** While a detachment is under way an acquisition waits for it, and sends nothing. */
  lemma AcquisitionWaits(s: Session, mode: Mode)
    requires Invariant(s) && Compatible(s, mode) && s.detachment.Some?
    ensures var s', t := Next(s, Acquire(mode)), |s.tokens|;
      && Acquiring(s'.tokens[t].status) && t !in ActiveLeases(s') && s'.detaches == s.detaches
      && (IsDetaching(s, s.detachment.value) ==> Next(s', Proceed(t)) == s')
  {
    RefusedIff(s, mode);
  }

  /** With a clean-up owed, no acquisition attaches before a detach request was answered well: it sends one, or waits
      for the one that was sent. */
  lemma CleanupComesFirst(s: Session, t: nat)
    requires GoesOn(s, t) && s.cleanup
    ensures var s' := Next(s, Proceed(t));
      && s'.tokens[t].status == Reconciling(false) && s'.reconciling && s'.cleanup
      && (if s.reconciling then s'.detaches == s.detaches
          else |s'.detaches| == |s.detaches| + 1 && s'.detaches[|s.detaches|].sender == t)
      && (LoseNothing(s') ==>
            var answered := Next(s', ReconcileReply(true));
            !answered.cleanup && Next(answered, Proceed(t)).tokens[t].status == Attaching(false))
      && (var failed := Next(s', ReconcileReply(false));
          failed.cleanup && !failed.reconciling && Next(failed, Proceed(t)).tokens[t].status == Over)
  {
  }

  /** No clean-up reply was lost with the connection. */
  ghost predicate LoseNothing(s: Session) {
    forall t :: 0 <= t < |s.tokens| ==> s.tokens[t].status != Reconciling(true)
  }

  /** The step is about this token. */
  predicate Concerns(step: Step, t: nat) {
    match step
    case Proceed(u) => u == t
    case AttachReply(u, _) => u == t
    case Release(u, _) => u == t
    case DetachReply(u, _) => u == t
    case CatchFailure(u) => u == t
    case _ => false
  }

  /** A step about something else leaves a token as it was, except that a clean-up reply reaches all that wait for it
      and a lost connection loses the replies that are due. */
  lemma OthersAreLeftAlone(s: Session, step: Step, t: nat)
    requires t < |s.tokens| && !Concerns(step, t)
    ensures |s.tokens| <= |Next(s, step).tokens|
    ensures var was, now := s.tokens[t].status, Next(s, step).tokens[t].status;
      || now == was
      || (step.ReconcileReply? && now == Replied(was, step.ok))
      || (step == Disconnect && now == Lost(was))
  {
    hide Live, ActiveLeases, Lost, Replied;
    if step.Acquire? {
      hide AfterDetachment;
      LeavesOthers(Reserve(s, step.mode, Waiting(0)), |s.tokens|, t);
    } else if step.Proceed? && step.token < |s.tokens| {
      hide AfterDetachment;
      LeavesOthers(s, step.token, t);
    }
  }

  lemma LeavesOthers(s: Session, u: nat, t: nat)
    requires u < |s.tokens| && t < |s.tokens| && u != t
    ensures |AfterDetachment(s, u).tokens| == |s.tokens| && AfterDetachment(s, u).tokens[t] == s.tokens[t]
  {
  }

  /** What an acquisition can come to in one step: it goes on; or it is a lease, because its attach request was answered
      well, or the session was attached with no clean-up owed when its turn came; or it is given back, because its
      attach or its clean-up failed. */
  lemma AcquisitionEndsForAReason(s: Session, step: Step, t: nat)
    requires t < |s.tokens| && Acquiring(s.tokens[t].status)
    ensures |s.tokens| <= |Next(s, step).tokens|
    ensures Becomes(s, step, t, s.tokens[t].status, Next(s, step).tokens[t].status)
  {
    if Concerns(step, t) {
      OwnStepDecides(s, step, t);
    } else {
      OthersAreLeftAlone(s, step, t);
      hide Next;
    }
  }

  predicate Becomes(s: Session, step: Step, t: nat, was: Status, now: Status) {
    || Acquiring(now)
    || (now == Active(s.generation) && was == Attaching(false) && step == AttachReply(t, true))
    || (now == Active(s.generation) && was.Waiting? && step == Proceed(t) && s.attached && !s.cleanup)
    || (now == Over && was.Attaching? && step == AttachReply(t, false))
    || (now == Over && was == Reconciled(false) && step == Proceed(t))
  }

  lemma OwnStepDecides(s: Session, step: Step, t: nat)
    requires t < |s.tokens| && Acquiring(s.tokens[t].status) && Concerns(step, t)
    ensures |s.tokens| <= |Next(s, step).tokens|
    ensures Becomes(s, step, t, s.tokens[t].status, Next(s, step).tokens[t].status)
  {
    hide Live, ActiveLeases;
  }

  // ---- How a lease ends ----

  /** A lease stays usable until its holder releases it, the session is removed, or the connection goes. */
  lemma LeaseEndsForAReason(s: Session, step: Step, t: nat)
    requires t in ActiveLeases(s) && t !in ActiveLeases(Next(s, step))
    ensures (step.Release? && step.token == t) || step == Removed || step == Disconnect
  {
    if !Concerns(step, t) {
      OthersAreLeftAlone(s, step, t);
      SameGeneration(s, step);
      hide Next;
    }
  }

  lemma SameGeneration(s: Session, step: Step)
    ensures step != Removed && step != Disconnect ==> Next(s, step).generation == s.generation
  {
    hide Live, ActiveLeases;
  }

  /** No lease outlives the removal of its session or the loss of the connection. */
  lemma InvalidationEndsAll(s: Session)
    requires Invariant(s)
    ensures ActiveLeases(Next(s, Removed)) == {} && ActiveLeases(Next(s, Disconnect)) == {}
    ensures Next(s, Removed).count == 0 && Next(s, Disconnect).count == 0
  {
    if s.count == 0 {
      NobodyLive(s);
    }
    EndsActive(s, Next(s, Removed));
    EndsActive(s, Next(s, Disconnect));
  }

  lemma EndsActive(s: Session, s': Session)
    requires |s'.tokens| == |s.tokens| && NoFutureLease(s)
    requires forall t :: 0 <= t < |s.tokens| ==>
               s'.tokens[t].status == s.tokens[t].status || s'.tokens[t].status == Lost(s.tokens[t].status)
    requires s'.generation > s.generation || (s'.generation == s.generation && forall t :: t !in Live(s))
    ensures ActiveLeases(s') == {}
  {
    forall t | 0 <= t < |s.tokens| ensures s'.tokens[t].status != Active(s'.generation) {
      assert GenerationOf(s.tokens[t].status) <= s.generation;
      assert t in Live(s) <==> IsLive(s, t);
    }
  }

  /** Releasing one of several leases just gives it back; releasing the last one asks the server to detach first, and
      keeps the token in hand meanwhile. */
  lemma ReleaseIsSparing(s: Session, t: nat, relinquish: bool)
    requires Invariant(s) && t in ActiveLeases(s) && s.attached
    ensures var s' := Next(s, Release(t, relinquish));
      && t !in ActiveLeases(s')
      && (Live(s) != {t} ==> Live(s') == Live(s) - {t} && s'.detaches == s.detaches && s'.releases[t] == 1)
      && (Live(s) == {t} ==>
            && Live(s') == {t} && s'.detaches == s.detaches + [Detach(t, {})]
            && s'.tokens[t].status == Detaching(s.generation, relinquish, false))
  {
    var s' := Next(s, Release(t, relinquish));
    assert t in Live(s);
    if s.count <= 1 {
      OnlyMember(Live(s), t);
      ActiveAreLive(s);
      assert ActiveLeases(s) - {t} == {};
      LiveAfterPut(s, t, Detaching(s.generation, relinquish, false));
      assert Live(s') == Live(Put(s, t, Detaching(s.generation, relinquish, false)));
    } else {
      LiveAfterPut(s, t, Over);
      assert Live(s') == Live(Put(s, t, Over));
      assert s.releases[t] == 0;
    }
  }

  /** A detach that succeeds gives the token back. One that fails leaves the lease as it was; or, if it was to be given
      up in any case, gives it back and leaves a clean-up owed. */
  lemma DetachIsDecided(s: Session, t: nat, relinquish: bool)
    requires Invariant(s) && t < |s.tokens| && s.tokens[t].status == Detaching(s.generation, relinquish, false)
    ensures Live(Next(s, DetachReply(t, true))) == Live(s) - {t}
    ensures Next(s, DetachReply(t, true)).cleanup == s.cleanup
    ensures var s' := Next(Next(s, DetachReply(t, false)), CatchFailure(t));
      if relinquish then Live(s') == Live(s) - {t} && s'.cleanup
      else t in ActiveLeases(s') && Live(s') == Live(s) && s'.cleanup == s.cleanup
  {
    var ok := Next(s, DetachReply(t, true));
    LiveAfterPut(s, t, Over);
    assert Live(ok) == Live(Put(s, t, Over));
    FailureIsHandled(s, t, relinquish);
  }

  lemma FailureIsHandled(s: Session, t: nat, relinquish: bool)
    requires Invariant(s) && t < |s.tokens| && s.tokens[t].status == Detaching(s.generation, relinquish, false)
    ensures var s' := Next(Next(s, DetachReply(t, false)), CatchFailure(t));
      if relinquish then Live(s') == Live(s) - {t} && s'.cleanup
      else t in ActiveLeases(s') && Live(s') == Live(s) && s'.cleanup == s.cleanup
  {
    var failed := Next(s, DetachReply(t, false));
    var s' := Next(failed, CatchFailure(t));
    var status := if relinquish then Over else Active(s.generation);
    LiveAfterPut(s, t, status);
    assert s'.tokens == Put(s, t, status).tokens;
    assert Live(s') == Live(Put(s, t, status));
    assert t in Live(s);
    assert Live(s) + {t} == Live(s);
  }
}
