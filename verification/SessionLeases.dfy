// Shared and exclusive leases on one session: reservations, attach and detach requests in flight,
// and invalidation. Each stretch of code between two awaits is one step.
module SessionLeases {
  import opened Wrappers

  datatype Mode = Shared | Exclusive

  /** Where the holder of a token stands. A lease carries the generation it was created in. */
  datatype Status =
    | Waiting(detacher: nat)     // acquiring: for a detachment that was under way
    | Reconciling(lost: bool)    // acquiring: its reply to a clean-up detach is due
    | Reconciled(ok: bool)       // acquiring: that reply is in
    | Attaching(lost: bool)      // acquiring: its reply to an attach is due
    | Active(generation: nat)
    | Detaching(generation: nat, relinquish: bool, lost: bool)
    | DetachFailed(generation: nat, relinquish: bool)
    | Over

  datatype Token = Token(mode: Mode, status: Status)

  /** A detach request as sent: by whom, and which other leases were active at that moment. */
  datatype Detach = Detach(sender: nat, others: set<nat>)

  datatype Session = Session(
    tokens: seq<Token>,
    count: nat,
    exclusive: Option<nat>,
    generation: nat,
    detachment: Option<nat>,
    cleanup: bool,
    reconciling: bool,
    attached: bool,
    detaches: seq<Detach>,
    releases: multiset<nat>)

  const NEW_SESSION := Session([], 0, None, 0, None, false, false, false, [], multiset{})

  datatype Step =
    | Acquire(mode: Mode)
    | CreateReply
    | Proceed(token: nat)
    | ReconcileReply(ok: bool)
    | AttachReply(token: nat, ok: bool)
    | Release(token: nat, relinquish: bool)
    | DetachReply(token: nat, ok: bool)
    | CatchFailure(token: nat)
    | Snapshot(attached: bool)
    | Removed
    | Disconnect

  predicate Acquiring(status: Status) {
    status.Waiting? || status.Reconciling? || status.Reconciled? || status.Attaching?
  }

  /** The status is that of a lease of this generation. */
  predicate LeaseOf(status: Status, generation: nat) {
    match status
    case Active(g) => g == generation
    case Detaching(g, _, _) => g == generation
    case DetachFailed(g, _) => g == generation
    case _ => false
  }

  predicate IsLive(s: Session, t: nat) {
    t < |s.tokens| && (Acquiring(s.tokens[t].status) || LeaseOf(s.tokens[t].status, s.generation))
  }

  /** The tokens in hand: being acquired, or leases that no invalidation has hit. */
  function Live(s: Session): set<nat> {
    set t | 0 <= t < |s.tokens| && IsLive(s, t)
  }

  /** The leases a caller can use right now. */
  function ActiveLeases(s: Session): set<nat> {
    set t | 0 <= t < |s.tokens| && s.tokens[t].status == Active(s.generation)
  }

  function Put(s: Session, t: nat, status: Status): Session
    requires t < |s.tokens|
  {
    s.(tokens := s.tokens[t := s.tokens[t].(status := status)])
  }

  /** Gives a token back. The generation is not looked at. */
  function GiveBack(s: Session, t: nat): Session
    requires t < |s.tokens|
  {
    var s' := Put(s, t, Over);
    s'.(count := if s.count <= 1 then 0 else s.count - 1,
        exclusive := if s.exclusive == Some(t) then None else s.exclusive,
        releases := s.releases + multiset{t})
  }

  predicate Refused(s: Session, mode: Mode) {
    match mode
    case Exclusive => s.count > 0
    case Shared => s.exclusive.Some?
  }

  /** Takes a new token, the last of the list. */
  function Reserve(s: Session, mode: Mode, status: Status): Session {
    s.(tokens := s.tokens + [Token(mode, status)],
       count := s.count + 1,
       exclusive := if mode == Exclusive then Some(|s.tokens|) else s.exclusive)
  }

  /** An acquisition from its clean-up check on. */
  function AfterDetachment(s: Session, t: nat): Session
    requires t < |s.tokens|
  {
    if s.cleanup then
      var s' := Put(s, t, Reconciling(false));
      if s.reconciling then s'
      else s'.(reconciling := true, detaches := s.detaches + [Detach(t, ActiveLeases(s))])
    else if !s.attached then Put(s, t, Attaching(false))
    else Put(s, t, Active(s.generation))
  }

  function Replied(status: Status, ok: bool): Status {
    if status.Reconciling? then Reconciled(ok) else status
  }

  function Lost(status: Status): Status {
    match status
    case Reconciling(_) => Reconciling(true)
    case Attaching(_) => Attaching(true)
    case Detaching(g, relinquish, _) => Detaching(g, relinquish, true)
    case _ => status
  }

  function RepliedTokens(tokens: seq<Token>, ok: bool): seq<Token> {
    seq(|tokens|, i requires 0 <= i < |tokens| => tokens[i].(status := Replied(tokens[i].status, ok)))
  }

  function LostTokens(tokens: seq<Token>): seq<Token> {
    seq(|tokens|, i requires 0 <= i < |tokens| => tokens[i].(status := Lost(tokens[i].status)))
  }

  function Invalidate(s: Session): Session {
    s.(count := 0, exclusive := None, cleanup := false, generation := s.generation + 1)
  }

  predicate IsDetaching(s: Session, t: nat) {
    t < |s.tokens| && s.tokens[t].status.Detaching?
  }

  /** Any step; one that is not possible in a state changes nothing. */
  function Next(s: Session, step: Step): (s': Session) {
    match step
    case Acquire(mode) =>
      if Refused(s, mode) then s
      else
        if s.detachment.Some? then Reserve(s, mode, Waiting(s.detachment.value))
        else AfterDetachment(Reserve(s, mode, Waiting(0)), |s.tokens|)
    case CreateReply =>
      if Refused(s, Exclusive) then s else Reserve(s, Exclusive, Active(s.generation))
    case Proceed(t) =>
      if t < |s.tokens| && s.tokens[t].status.Waiting? && !IsDetaching(s, s.tokens[t].status.detacher) then
        AfterDetachment(s, t)
      else if t < |s.tokens| && s.tokens[t].status.Reconciled? then
        if s.tokens[t].status.ok then Put(s, t, Attaching(false)) else GiveBack(s, t)
      else s
    case ReconcileReply(ok) =>
      if !s.reconciling || (ok && exists t :: 0 <= t < |s.tokens| && s.tokens[t].status == Reconciling(true)) then s
      else
        s.(tokens := RepliedTokens(s.tokens, ok),
           reconciling := false,
           cleanup := s.cleanup && !ok)
    case AttachReply(t, ok) =>
      if t < |s.tokens| && s.tokens[t].status.Attaching? && !(ok && s.tokens[t].status.lost) then
        if ok then Put(s, t, Active(s.generation)) else GiveBack(s, t)
      else s
    case Release(t, relinquish) =>
      if t < |s.tokens| && s.tokens[t].status == Active(s.generation) && s.attached then
        if s.count <= 1 then
          Put(s, t, Detaching(s.generation, relinquish, false)).(
            detachment := Some(t), detaches := s.detaches + [Detach(t, ActiveLeases(s) - {t})])
        else GiveBack(s, t)
      else s
    case DetachReply(t, ok) =>
      if t < |s.tokens| && s.tokens[t].status.Detaching? && !(ok && s.tokens[t].status.lost) then
        var s' := s.(detachment := if s.detachment == Some(t) then None else s.detachment);
        if ok then GiveBack(s', t)
        else Put(s', t, DetachFailed(s.tokens[t].status.generation, s.tokens[t].status.relinquish))
      else s
    case CatchFailure(t) =>
      if t < |s.tokens| && s.tokens[t].status.DetachFailed? then
        if s.tokens[t].status.generation != s.generation then Put(s, t, Over)
        else if s.tokens[t].status.relinquish then GiveBack(s, t).(cleanup := true)
        else Put(s, t, Active(s.generation))
      else s
    case Snapshot(attached) => s.(attached := attached)
    case Removed => Invalidate(s).(attached := false)
    case Disconnect =>
      var s' := s.(attached := false, tokens := LostTokens(s.tokens));
      if s.count > 0 then Invalidate(s') else s'.(cleanup := false)
  }

  /** The count is the number of tokens in hand. */
  ghost predicate Counted(s: Session) {
    s.count == |Live(s)|
  }

  /** An exclusive token in hand is the only one, and it is the one on record. */
  ghost predicate Exclusivity(s: Session) {
    && (forall t :: t in Live(s) && s.tokens[t].mode == Exclusive ==> s.exclusive == Some(t) && Live(s) == {t})
    && (s.exclusive.Some? ==> s.exclusive.value in Live(s) && s.tokens[s.exclusive.value].mode == Exclusive)
  }

  /** No detach request was sent while another lease was active. */
  ghost predicate DetachesAlone(s: Session) {
    forall i :: 0 <= i < |s.detaches| ==> s.detaches[i].others == {}
  }

  /** No token is given back twice. */
  ghost predicate GivenBackOnce(s: Session) {
    forall t :: s.releases[t] <= 1 && (s.releases[t] == 1 ==> t < |s.tokens| && s.tokens[t].status.Over?)
  }

  function GenerationOf(status: Status): nat {
    if status.Active? || status.Detaching? || status.DetachFailed? then status.generation else 0
  }

  ghost predicate NoFutureLease(s: Session) {
    forall t :: 0 <= t < |s.tokens| ==> GenerationOf(s.tokens[t].status) <= s.generation
  }

  ghost predicate Invariant(s: Session) {
    Counted(s) && Exclusivity(s) && DetachesAlone(s) && GivenBackOnce(s) && NoFutureLease(s)
  }

  /** What the client promises, and nothing else: the count is the number of tokens in hand, an exclusive
      token in hand is the only one, no token is given back twice, and no detach request is sent while
      another lease is active. */
  ghost predicate Promised(s: Session) {
    && Counted(s)
    && (forall t :: t in Live(s) && s.tokens[t].mode == Exclusive ==> Live(s) == {t})
    && (forall t :: s.releases[t] <= 1)
    && DetachesAlone(s)
  }

  ghost predicate SomeoneAcquires(s: Session) {
    exists t :: 0 <= t < |s.tokens| && Acquiring(s.tokens[t].status)
  }

  /** An acquisition that reaches its clean-up check now would send a detach request. */
  predicate OwesDetach(s: Session) { s.cleanup && !s.reconciling }

  /** The acquisition of this token goes on to its clean-up check. */
  predicate GoesOn(s: Session, t: nat) {
    t < |s.tokens| && s.tokens[t].status.Waiting? && !IsDetaching(s, s.tokens[t].status.detacher)
  }

  /** The steps that do no harm. The others: an invalidation during an acquisition, the late success of a
      detach whose lease was invalidated while another token is in hand, and an acquisition that comes to
      its clean-up check, with the clean-up still to be sent, while a lease is active. */
  ghost predicate Safe(s: Session, step: Step) {
    match step
    case Removed => !SomeoneAcquires(s)
    case Disconnect => !SomeoneAcquires(s)
    case DetachReply(t, ok) =>
      IsDetaching(s, t) && ok && !s.tokens[t].status.lost ==>
        s.tokens[t].status.generation == s.generation || s.count == 0
    case Acquire(mode) =>
      !Refused(s, mode) && s.detachment.None? && OwesDetach(s) ==> ActiveLeases(s) == {}
    case Proceed(t) => GoesOn(s, t) && OwesDetach(s) ==> ActiveLeases(s) == {}
    case _ => true
  }

  lemma LiveAfterPut(s: Session, t: nat, status: Status)
    requires t < |s.tokens|
    ensures Live(Put(s, t, status)) ==
              if Acquiring(status) || LeaseOf(status, s.generation) then Live(s) + {t} else Live(s) - {t}
  {
  }

  lemma LiveAfterReserve(s: Session, mode: Mode, status: Status)
    requires Acquiring(status) || LeaseOf(status, s.generation)
    ensures Live(Reserve(s, mode, status)) == Live(s) + {|s.tokens|}
  {
    var s' := Reserve(s, mode, status);
    assert forall t :: 0 <= t < |s.tokens| ==> s'.tokens[t] == s.tokens[t];
  }

  lemma ReserveKeeps(s: Session, mode: Mode, status: Status)
    requires Invariant(s) && !Refused(s, mode)
    requires Acquiring(status) || status == Active(s.generation)
    ensures Invariant(Reserve(s, mode, status))
  {
    LiveAfterReserve(s, mode, status);
    assert mode == Exclusive ==> Live(s) == {};
  }

  /** A token moves on without being given back. */
  lemma PutKeeps(s: Session, t: nat, status: Status)
    requires Invariant(s) && t in Live(s)
    requires Acquiring(status) || LeaseOf(status, s.generation)
    ensures Invariant(Put(s, t, status))
  {
    LiveAfterPut(s, t, status);
    assert Live(s) + {t} == Live(s);
  }

  lemma GiveBackKeeps(s: Session, t: nat)
    requires Invariant(s) && t in Live(s)
    ensures Invariant(GiveBack(s, t))
  {
    LiveAfterPut(s, t, Over);
    assert Live(GiveBack(s, t)) == Live(s) - {t};
  }

  /** Giving back a token that is not in hand does harm exactly if another one is. */
  lemma StaleGiveBack(s: Session, t: nat)
    requires Invariant(s) && t < |s.tokens| && t !in Live(s) && !s.tokens[t].status.Over?
    ensures if s.count == 0 then Invariant(GiveBack(s, t)) else !Counted(GiveBack(s, t))
  {
    LiveAfterGiveBack(s, t);
    assert Live(s) - {t} == Live(s);
    hide Live;
    if s.count == 0 {
      assert Live(s) == {};
    }
  }

  lemma LiveAfterGiveBack(s: Session, t: nat)
    requires t < |s.tokens|
    ensures Live(GiveBack(s, t)) == Live(s) - {t}
  {
    LiveAfterPut(s, t, Over);
    assert Live(GiveBack(s, t)) == Live(Put(s, t, Over));
  }

  lemma ActiveAreLive(s: Session)
    ensures ActiveLeases(s) <= Live(s)
  {
  }

  /** Fields that do not take part in the invariant, and a detach sent alone. */
  lemma SideFieldsKeep(s: Session, s': Session)
    requires Invariant(s)
    requires s' == s.(detachment := s'.detachment, reconciling := s'.reconciling, attached := s'.attached,
                      detaches := s'.detaches)
    requires DetachesAlone(s')
    ensures Invariant(s')
  {
    assert Live(s') == Live(s);
  }

  lemma AfterDetachmentIff(s: Session, t: nat)
    requires Invariant(s) && t in Live(s) && Acquiring(s.tokens[t].status)
    ensures var s' := AfterDetachment(s, t);
      if OwesDetach(s) && ActiveLeases(s) != {} then !DetachesAlone(s') else Invariant(s')
  {
    if s.cleanup {
      PutKeeps(s, t, Reconciling(false));
      var s' := AfterDetachment(s, t);
      if s.reconciling || ActiveLeases(s) == {} {
        SideFieldsKeep(Put(s, t, Reconciling(false)), s');
      } else {
        assert s'.detaches[|s.detaches|].others == ActiveLeases(s);
      }
    } else {
      PutKeeps(s, t, if s.attached then Active(s.generation) else Attaching(false));
    }
  }

  lemma SameActive(s: Session, mode: Mode)
    ensures ActiveLeases(Reserve(s, mode, Waiting(0))) == ActiveLeases(s)
  {
    var s' := Reserve(s, mode, Waiting(0));
    assert forall t :: 0 <= t < |s.tokens| ==> s'.tokens[t] == s.tokens[t];
  }

  /** What a step does: a safe one keeps the invariant, any other breaks a promise. */
  ghost predicate Decides(s: Session, step: Step) {
    if Safe(s, step) then Invariant(Next(s, step)) else !Promised(Next(s, step))
  }

  lemma AcquireIff(s: Session, mode: Mode)
    requires Invariant(s)
    ensures Decides(s, Acquire(mode))
  {
    if !Refused(s, mode) {
      if s.detachment.Some? {
        ReserveKeeps(s, mode, Waiting(s.detachment.value));
      } else {
        ReserveKeeps(s, mode, Waiting(0));
        SameActive(s, mode);
        LiveAfterReserve(s, mode, Waiting(0));
        AfterDetachmentIff(Reserve(s, mode, Waiting(0)), |s.tokens|);
      }
    }
  }

  lemma ReleaseKeeps(s: Session, t: nat, relinquish: bool)
    requires Invariant(s)
    ensures Invariant(Next(s, Release(t, relinquish)))
  {
    if t < |s.tokens| && s.tokens[t].status == Active(s.generation) && s.attached {
      assert t in Live(s);
      if s.count <= 1 {
        OnlyMember(Live(s), t);
        ActiveAreLive(s);
        assert ActiveLeases(s) - {t} == {};
        var s1 := Put(s, t, Detaching(s.generation, relinquish, false));
        PutKeeps(s, t, Detaching(s.generation, relinquish, false));
        SideFieldsKeep(s1, Next(s, Release(t, relinquish)));
      } else {
        GiveBackKeeps(s, t);
      }
    }
  }

  lemma OnlyMember(x: set<nat>, t: nat)
    requires t in x && |x| <= 1
    ensures x == {t}
  {
    assert |x - {t}| == |x| - 1;
  }

  lemma DetachReplyIff(s: Session, t: nat, ok: bool)
    requires Invariant(s)
    ensures Decides(s, DetachReply(t, ok))
  {
    if IsDetaching(s, t) && !(ok && s.tokens[t].status.lost) {
      var s' := s.(detachment := if s.detachment == Some(t) then None else s.detachment);
      SideFieldsKeep(s, s');
      assert Live(s') == Live(s);
      var g, relinquish := s.tokens[t].status.generation, s.tokens[t].status.relinquish;
      if t in Live(s) {
        if ok { GiveBackKeeps(s', t); } else { PutKeeps(s', t, DetachFailed(g, relinquish)); }
      } else if ok {
        StaleGiveBack(s', t);
      } else {
        StalePutKeeps(s', t, DetachFailed(g, relinquish));
      }
    }
  }

  /** A lease that was invalidated moves on without becoming live. */
  lemma StalePutKeeps(s: Session, t: nat, status: Status)
    requires Invariant(s) && t < |s.tokens| && t !in Live(s) && !s.tokens[t].status.Over?
    requires !Acquiring(status) && !LeaseOf(status, s.generation) && GenerationOf(status) <= s.generation
    ensures Invariant(Put(s, t, status))
  {
    LiveAfterPut(s, t, status);
    assert Live(s) - {t} == Live(s);
  }

  lemma CatchFailureKeeps(s: Session, t: nat)
    requires Invariant(s)
    ensures Invariant(Next(s, CatchFailure(t)))
  {
    if t < |s.tokens| && s.tokens[t].status.DetachFailed? {
      if s.tokens[t].status.generation != s.generation {
        StalePutKeeps(s, t, Over);
      } else if s.tokens[t].status.relinquish {
        GiveBackKeeps(s, t);
        assert Live(GiveBack(s, t).(cleanup := true)) == Live(GiveBack(s, t));
      } else {
        PutKeeps(s, t, Active(s.generation));
      }
    }
  }

  lemma ReconcileReplyKeeps(s: Session, ok: bool)
    requires Invariant(s)
    ensures Invariant(Next(s, ReconcileReply(ok)))
  {
    assert Live(Next(s, ReconcileReply(ok))) == Live(s);
  }

  /** An invalidation leaves only the tokens being acquired in hand, and counts none. */
  lemma InvalidateIff(s: Session, s': Session)
    requires Invariant(s) && |s'.tokens| == |s.tokens|
    requires forall t :: 0 <= t < |s.tokens| ==>
               s'.tokens[t].mode == s.tokens[t].mode && s'.tokens[t].status in {s.tokens[t].status,
                   Lost(s.tokens[t].status)}
    requires s'.count == 0 && s'.exclusive == None && s'.generation == s.generation + 1
    requires s'.detaches == s.detaches && s'.releases == s.releases
    ensures if SomeoneAcquires(s) then !Counted(s') else Invariant(s')
  {
    if SomeoneAcquires(s) {
      var t :| 0 <= t < |s.tokens| && Acquiring(s.tokens[t].status);
      assert t in Live(s');
    } else {
      assert Live(s') == {};
    }
  }

  lemma NobodyLive(s: Session)
    requires Counted(s) && s.count == 0
    ensures forall t :: 0 <= t < |s.tokens| ==> !IsLive(s, t)
  {
    forall t | 0 <= t < |s.tokens| ensures !IsLive(s, t) {
      assert t !in Live(s);
    }
  }

  lemma DisconnectIff(s: Session)
    requires Invariant(s)
    ensures Decides(s, Disconnect)
  {
    var s' := Next(s, Disconnect);
    if s.count > 0 {
      InvalidateIff(s, s');
    } else {
      NobodyLive(s);
      assert Live(s') == {};
    }
  }

  lemma ProceedIff(s: Session, t: nat)
    requires Invariant(s)
    ensures Decides(s, Proceed(t))
  {
    if t < |s.tokens| && Acquiring(s.tokens[t].status) {
      assert t in Live(s);
      if s.tokens[t].status.Waiting? {
        AfterDetachmentIff(s, t);
      } else if s.tokens[t].status.Reconciled? {
        if s.tokens[t].status.ok { PutKeeps(s, t, Attaching(false)); } else { GiveBackKeeps(s, t); }
      }
    }
  }

  lemma AttachReplyKeeps(s: Session, t: nat, ok: bool)
    requires Invariant(s)
    ensures Invariant(Next(s, AttachReply(t, ok)))
  {
    if t < |s.tokens| && s.tokens[t].status.Attaching? {
      assert t in Live(s);
      if ok { PutKeeps(s, t, Active(s.generation)); } else { GiveBackKeeps(s, t); }
    }
  }

  lemma StepDecides(s: Session, step: Step)
    requires Invariant(s)
    ensures Decides(s, step)
  {
    match step
    case Acquire(mode) => AcquireIff(s, mode);
    case CreateReply => if !Refused(s, Exclusive) { ReserveKeeps(s, Exclusive, Active(s.generation)); }
    case Proceed(t) => ProceedIff(s, t);
    case ReconcileReply(ok) => ReconcileReplyKeeps(s, ok);
    case AttachReply(t, ok) => AttachReplyKeeps(s, t, ok);
    case Release(t, relinquish) => ReleaseKeeps(s, t, relinquish);
    case DetachReply(t, ok) => DetachReplyIff(s, t, ok);
    case CatchFailure(t) => CatchFailureKeeps(s, t);
    case Snapshot(attached) => SideFieldsKeep(s, s.(attached := attached));
    case Removed => InvalidateIff(s, Next(s, Removed));
    case Disconnect => DisconnectIff(s);
  }

  lemma InvariantPromises(s: Session)
    requires Invariant(s)
    ensures Promised(s)
  {
  }

  /** From a sound state, exactly the safe steps keep the promises; they keep the whole invariant. */
  lemma StepIff(s: Session, step: Step)
    requires Invariant(s)
    ensures Promised(Next(s, step)) <==> Safe(s, step)
    ensures Invariant(Next(s, step)) <==> Safe(s, step)
  {
    StepDecides(s, step);
    if Safe(s, step) {
      InvariantPromises(Next(s, step));
    } else if Invariant(Next(s, step)) {
      InvariantPromises(Next(s, step));
    }
  }

  function Run(steps: seq<Step>): (s: Session) {
    if steps == [] then NEW_SESSION else Next(Run(steps[..|steps| - 1]), steps[|steps| - 1])
  }

  /** The promises hold at every moment of the run. */
  ghost predicate AlwaysHolds(steps: seq<Step>) {
    Promised(Run(steps)) && (steps != [] ==> AlwaysHolds(steps[..|steps| - 1]))
  }

  /** Every step of the run was safe when it was taken. */
  ghost predicate AllSafe(steps: seq<Step>) {
    steps != [] ==>
      var earlier := steps[..|steps| - 1];
      AllSafe(earlier) && Safe(Run(earlier), steps[|steps| - 1])
  }

  lemma RunSnoc(steps: seq<Step>)
    requires steps != []
    ensures Run(steps) == Next(Run(steps[..|steps| - 1]), steps[|steps| - 1])
  {
  }

  lemma NewSessionIsSound()
    ensures Invariant(NEW_SESSION)
  {
    assert Live(NEW_SESSION) == {};
  }

  /** Over whole runs, both ways: the promises hold at every moment exactly if every step of the run was
      safe when it was taken. */
  lemma {:induction false} RunsAreSoundIffSafe(steps: seq<Step>)
    ensures AlwaysHolds(steps) <==> AllSafe(steps)
    ensures AllSafe(steps) ==> Invariant(Run(steps))
  {
    if steps == [] {
      NewSessionIsSound();
      InvariantPromises(NEW_SESSION);
    } else {
      var earlier := steps[..|steps| - 1];
      RunsAreSoundIffSafe(earlier);
      RunSnoc(steps);
      if AllSafe(earlier) {
        StepIff(Run(earlier), steps[|steps| - 1]);
      }
    }
  }

  /** What the invariant means to a caller. */
  lemma SoundRunMeans(steps: seq<Step>, t: nat, u: nat)
    requires AllSafe(steps) && t in ActiveLeases(Run(steps)) && u in ActiveLeases(Run(steps)) && t != u
    ensures Run(steps).tokens[t].mode == Shared && Run(steps).tokens[u].mode == Shared
    ensures Run(steps).count >= 2
  {
    RunsAreSoundIffSafe(steps);
    var s := Run(steps);
    ActiveAreLive(s);
    assert {t, u} <= Live(s);
    SubsetSize({t, u}, Live(s));
  }

  lemma SubsetSize(x: set<nat>, y: set<nat>)
    requires x <= y
    ensures |x| <= |y|
  {
    assert |y - x| == |y| - |x|;
  }

  /** Unsafe: the session is removed during an acquisition. A shared and an exclusive lease end up
      active together. */
  lemma RemovedDuringAcquire()
    ensures var s1 := Next(NEW_SESSION, Acquire(Shared));
            var s2 := Next(s1, Removed);
            var s3 := Next(s2, Acquire(Exclusive));
            var s4 := Next(s3, AttachReply(0, true));
            var s5 := Next(s4, AttachReply(1, true));
            !Safe(s1, Removed) && ActiveLeases(s5) == {0, 1} && s5.tokens[1].mode == Exclusive
  {
    var s1 := Next(NEW_SESSION, Acquire(Shared));
    assert Acquiring(s1.tokens[0].status);
  }

  /** Unsafe: the session is removed while a detach is under way, acquired again, and then the detach
      succeeds. Two exclusive tokens end up in hand together. */
  lemma RemovedDuringDetach()
    ensures var s1 := Next(NEW_SESSION, Acquire(Shared));
            var s2 := Next(Next(s1, AttachReply(0, true)), Snapshot(true));
            var s3 := Next(Next(s2, Release(0, false)), Removed);
            var s4 := Next(s3, Acquire(Exclusive));
            var s5 := Next(s4, DetachReply(0, true));
            var s6 := Next(s5, Acquire(Exclusive));
            && !SomeoneAcquires(Next(s2, Release(0, false)))
            && !Safe(s4, DetachReply(0, true))
            && {1, 2} <= Live(s6) && s6.tokens[1].mode == Exclusive && s6.tokens[2].mode == Exclusive
  {
  }

  /** Unsafe: a lease comes up between the failure of a detach and its handling. The clean-up detach of
      the next acquisition is sent while that lease is active. */
  lemma LeaseInTheShadowOfAFailedDetach()
    ensures var s1 := Next(Next(Next(NEW_SESSION, Acquire(Shared)), AttachReply(0, true)), Snapshot(true));
            var s2 := Next(Next(s1, Release(0, true)), DetachReply(0, false));
            var s3 := Next(s2, Acquire(Shared));
            var s4 := Next(s3, CatchFailure(0));
            var s5 := Next(s4, Acquire(Shared));
            !Safe(s4, Acquire(Shared)) && |s5.detaches| == 2 && 1 in s5.detaches[1].others
  {
    var s1 := Next(Next(Next(NEW_SESSION, Acquire(Shared)), AttachReply(0, true)), Snapshot(true));
    var s2 := Next(Next(s1, Release(0, true)), DetachReply(0, false));
    var s3 := Next(s2, Acquire(Shared));
    assert s3.tokens[1].status == Active(0);
    var s4 := Next(s3, CatchFailure(0));
    assert 1 in ActiveLeases(s4);
  }
}
