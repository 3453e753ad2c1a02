// The agent that reduces events, and the batches of tool calls that emit them: one call after the
// other, all at once in any interleaving, or failed because the reply was cut off.
module ToolBatches {
  import opened Wrappers
  import opened AgentEvents
  import opened MessageQueue
  import opened ToolCalls
  import opened ToolTimelines

  class Agent {
    var state: AgentState
    var running: bool
    const steering: PendingMessageQueue
    const followUps: PendingMessageQueue
    ghost var log: Log

    constructor (messages: seq<Message>, steeringMode: Mode, followUpMode: Mode)
      ensures state == AgentState(messages, None, {}, None, false) && !running
      ensures fresh(steering) && fresh(followUps) && steering != followUps
      ensures steering.Valid() && steering.mode == steeringMode && steering.messages == []
      ensures followUps.Valid() && followUps.mode == followUpMode && followUps.messages == []
    {
      state := AgentState(messages, None, {}, None, false);
      running := false;
      var s := new PendingMessageQueue(steeringMode);
      var f := new PendingMessageQueue(followUpMode);
      steering := s;
      followUps := f;
    }

    /** Reduce the state by one event of the current run. */
    method Emit(e: Event, ghost origin: Origin)
      requires running
      modifies this`state, this`log
      ensures state == Reduce(old(state), e)
      ensures log == Emitted(old(log), e, origin)
    {
      match e {
        case MessageStart(m) => state := state.(streamingMessage := Some(m));
        case MessageUpdate(m) => state := state.(streamingMessage := Some(m));
        case MessageEnd(m) => state := state.(streamingMessage := None, messages := state.messages + [m]);
        case ToolStart(call) => state := state.(pendingToolCalls := state.pendingToolCalls + {call.id});
        case ToolEnd(f) => state := state.(pendingToolCalls := state.pendingToolCalls - {f.call.id});
        case TurnEnd(reply, _) =>
          if reply.errorMessage != "" {
            state := state.(errorMessage := Some(reply.errorMessage));
          }
        case AgentEnd(_) => state := state.(streamingMessage := None);
        case _ =>
      }
      log := Emitted(log, e, origin);
    }

    /** A message that enters as a whole. */
    method EmitMessage(m: Message, ghost origin: Origin)
      requires running && Steady(ViewOf(log))
      modifies this`state, this`log
      ensures Steady(ViewOf(log)) && ViewOf(log) == Entered(old(ViewOf(log)), m, origin)
      ensures state == old(state).(streamingMessage := None, messages := old(state.messages) + [m])
      ensures log == Emitted(Emitted(old(log), MessageStart(m), Nowhere), MessageEnd(m), origin)
      ensures origin == Produced ==> Seen(this) == Deliver(old(Seen(this)), [m])
    {
      Emit(MessageStart(m), Nowhere);
      ghost var v := ViewOf(log);
      Emit(MessageEnd(m), origin);
      assert ViewOf(log) == See(v, MessageEnd(m), origin);
    }

    method EmitTool(e: Event)
      requires running && Steady(ViewOf(log)) && (e.ToolStart? || e.ToolUpdate? || e.ToolEnd?)
      modifies this`state, this`log
      ensures Seen(this) == Announce(old(Seen(this)), e) && log == Emitted(old(log), e, Nowhere)
    {
      Emit(e, Nowhere);
    }
  }

  /** In a turn and between messages. */
  ghost predicate Steady(v: View) { v.stage.Busy? && !v.bracket.Open? }

  /** The view after a message from the given origin came in as a whole. */
  ghost function Entered(v: View, m: Message, origin: Origin): View {
    var w := v.(ended := v.ended + [m]);
    if origin == Steering then
      w.(steering := v.steering + [m], steeredNow := v.steeredNow + 1, crowded := v.crowded || v.steeredNow > 0)
    else if origin == FollowUp then w.(followUps := v.followUps + [m])
    else w.(others := v.others + [m])
  }

  /** What can be seen of an agent: its state and what its log says. */
  datatype Picture = Picture(view: View, state: AgentState)

  ghost function Seen(agent: Agent): Picture reads agent { Picture(ViewOf(agent.log), agent.state) }

  /** In a turn, between messages, and no call pending. */
  ghost predicate Calm(p: Picture) { Steady(p.view) && p.state.pendingToolCalls == {} }

  /** A tool event only touches the calls announced, the outcomes announced and the pending calls. */
  ghost function Announce(p: Picture, e: Event): (r: Picture)
    requires e.ToolStart? || e.ToolUpdate? || e.ToolEnd?
  {
    match e
    case ToolStart(call) =>
      Picture(p.view.(started := p.view.started + [call]),
              p.state.(pendingToolCalls := p.state.pendingToolCalls + {call.id}))
    case ToolEnd(f) =>
      Picture(p.view.(finished := p.view.finished + multiset{f}),
              p.state.(pendingToolCalls := p.state.pendingToolCalls - {f.call.id}))
    case ToolUpdate(_, _) => p
  }

  /** Messages enter, nothing else changes. */
  ghost function Deliver(p: Picture, messages: seq<Message>): (r: Picture)
    ensures Steady(p.view) ==> Steady(r.view)
    ensures r.state.pendingToolCalls == p.state.pendingToolCalls
  {
    Picture(p.view.(ended := p.view.ended + messages, others := p.view.others + messages),
            p.state.(messages := p.state.messages + messages,
                     streamingMessage := if messages == [] then p.state.streamingMessage else None))
  }

  /** The whole effect of a batch: every call is announced once and in order, every outcome once, and the
      result messages enter in order. */
  ghost function Complete(p: Picture, fs: seq<Finalized>): (r: Picture)
    ensures Steady(p.view) ==> Steady(r.view)
    ensures r.state.pendingToolCalls == p.state.pendingToolCalls
  {
    Deliver(p.(view := p.view.(started := p.view.started + Calls(fs), finished := p.view.finished + multiset(fs))),
            Messages(fs))
  }

  lemma CompleteNone(p: Picture)
    ensures Complete(p, []) == p
  {
    assert p.view.started + Calls([]) == p.view.started;
    assert p.view.finished + multiset([]) == p.view.finished;
    assert Messages([]) == [];
    DeliverNone(p.(view := p.view.(started := p.view.started + Calls([]), finished := p.view.finished + multiset([]))));
  }

  lemma CompleteOne(p: Picture, f: Finalized)
    requires p.state.pendingToolCalls == {}
    ensures Complete(p, [f]) == Deliver(Announce(Announce(p, ToolStart(f.call)), ToolEnd(f)), [ResultMessage(f)])
  {
    assert Calls([f]) == [f.call] && Messages([f]) == [ResultMessage(f)] && multiset([f]) == multiset{f};
    assert {} + {f.call.id} - {f.call.id} == {};
  }

  lemma CompleteMore(p: Picture, fs: seq<Finalized>, f: Finalized)
    ensures Complete(Complete(p, fs), [f]) == Complete(p, fs + [f])
  {
    assert Calls(fs + [f]) == Calls(fs) + Calls([f]);
    assert p.view.started + Calls(fs) + Calls([f]) == p.view.started + (Calls(fs) + Calls([f]));
    assert multiset(fs + [f]) == multiset(fs) + multiset([f]);
    assert Messages([f]) == [ResultMessage(f)];
    MessagesSnoc(fs, f);
    var q := p.(view := p.view.(started := p.view.started + Calls(fs + [f]),
                                finished := p.view.finished + multiset(fs + [f])));
    DeliverMore(q, Messages(fs), ResultMessage(f));
  }

  lemma DeliverNone(p: Picture)
    ensures Deliver(p, []) == p
  {
    assert p.view.ended + [] == p.view.ended && p.view.others + [] == p.view.others;
    assert p.state.messages + [] == p.state.messages;
  }

  lemma DeliverMore(p: Picture, messages: seq<Message>, m: Message)
    ensures Deliver(Deliver(p, messages), [m]) == Deliver(p, messages + [m])
  {
    assert p.view.ended + messages + [m] == p.view.ended + (messages + [m]);
    assert p.view.others + messages + [m] == p.view.others + (messages + [m]);
    assert p.state.messages + messages + [m] == p.state.messages + (messages + [m]);
  }

  lemma MessagesSnoc(fs: seq<Finalized>, f: Finalized)
    ensures Messages(fs) + [ResultMessage(f)] == Messages(fs + [f])
  {
  }

  /** The first `k` result messages have entered. */
  ghost predicate ResultsOut(agent: Agent, messages: seq<Message>, k: nat, p: Picture, before: Log)
    reads agent
  {
    && k <= |messages| && agent.running && Steady(ViewOf(agent.log))
    && Seen(agent) == Deliver(p, messages[..k]) && agent.log == Delivered(before, messages, k)
  }

  lemma NoResultsOut(agent: Agent, messages: seq<Message>)
    requires agent.running && Steady(ViewOf(agent.log))
    ensures ResultsOut(agent, messages, 0, Seen(agent), agent.log)
  {
    DeliverNone(Seen(agent));
    assert messages[..0] == [];
  }

  lemma AllResultsOut(agent: Agent, messages: seq<Message>, p: Picture, before: Log)
    requires ResultsOut(agent, messages, |messages|, p, before)
    ensures Seen(agent) == Deliver(p, messages) && agent.log == Delivered(before, messages, |messages|)
  {
    assert messages[..|messages|] == messages;
  }

  /** The next result message enters. */
  method EmitResult(agent: Agent, messages: seq<Message>, k: nat, ghost p: Picture, ghost before: Log)
    requires k < |messages| && ResultsOut(agent, messages, k, p, before)
    modifies agent`state, agent`log
    ensures ResultsOut(agent, messages, k + 1, p, before)
  {
    DeliverMore(p, messages[..k], messages[k]);
    assert messages[..k] + [messages[k]] == messages[..k + 1];
    agent.EmitMessage(messages[k], Produced);
  }

  /** Result messages enter in order. */
  method EmitResults(agent: Agent, fs: seq<Finalized>) returns (messages: seq<Message>)
    requires agent.running && Steady(ViewOf(agent.log))
    modifies agent`state, agent`log
    ensures messages == Messages(fs) && Seen(agent) == Deliver(old(Seen(agent)), messages)
    ensures agent.log == Delivered(old(agent.log), messages, |messages|)
  {
    hide ResultsOut, Deliver, Delivered;
    messages := Messages(fs);
    ghost var p, before := Seen(agent), agent.log;
    NoResultsOut(agent, messages);
    var k := 0;
    while k < |messages|
      invariant 0 <= k <= |messages| && ResultsOut(agent, messages, k, p, before)
    {
      EmitResult(agent, messages, k, p, before);
      k := k + 1;
    }
    AllResultsOut(agent, messages, p, before);
  }

  /** Only calls that are still open are pending. */
  ghost predicate PendingOnly(pending: set<string>, calls: seq<Call>, open: set<nat>) {
    forall id :: id in pending ==> exists i :: i in open && i < |calls| && calls[i].id == id
  }

  /** Run one prepared call to its end, with its updates on the way. */
  method ExecuteCall(agent: Agent, call: Call, t: Treatment) returns (f: Finalized)
    requires agent.running && Steady(ViewOf(agent.log))
    modifies agent`state, agent`log
    ensures f == Finalize(Execute(call, t), t) && Seen(agent) == old(Seen(agent))
    ensures agent.log == Updated(old(agent.log), call, t.updates, |t.updates|)
  {
    var k := 0;
    while k < |t.updates|
      invariant 0 <= k <= |t.updates|
      invariant Seen(agent) == old(Seen(agent)) && agent.log == Updated(old(agent.log), call, t.updates, k)
    {
      agent.EmitTool(ToolUpdate(call, t.updates[k]));
      k := k + 1;
    }
    f := Finalize(Execute(call, t), t);
  }

  method RunCall(agent: Agent, call: Call, t: Treatment) returns (f: Finalized)
    requires agent.running && Calm(Seen(agent))
    modifies agent`state, agent`log
    ensures f == Outcome(call, t, false)
    ensures Seen(agent) == Complete(old(Seen(agent)), [f]) && agent.log == CallLog(old(agent.log), call, t)
    ensures Answers(ResultMessage(f), call, t, false)
  {
    OutcomeAnswers(call, t, false);
    hide Answers;
    ghost var p := Seen(agent);
    agent.EmitTool(ToolStart(call));
    var preparation := Prepare(call, t);
    if preparation.Immediate? {
      f := Finalized(call, preparation.result, true);
    } else {
      f := ExecuteCall(agent, call, t);
    }
    agent.EmitTool(ToolEnd(f));
    CompleteOne(p, f);
    OneDelivered(agent.log, ResultMessage(f));
    agent.EmitMessage(ResultMessage(f), Produced);
  }

  lemma InOrderSnoc(fs: seq<Finalized>, f: Finalized, calls: seq<Call>, ts: Treatments, parallel: bool)
    requires InOrder(fs, calls, ts, parallel) && |fs| < |calls| && f == Outcome(calls[|fs|], ts(|fs|), parallel)
    ensures InOrder(fs + [f], calls, ts, parallel)
  {
  }

  /** No abort was seen after the first `n` calls. */
  ghost predicate Undisturbed(n: nat, ts: Treatments) {
    forall i: nat :: i < n ==> !ts(i).abortSeenAfter
  }

  lemma RunsThrough(total: nat, ts: Treatments)
    requires Undisturbed(total, ts)
    ensures RunsUpTo(total, total, ts)
  {
  }

  lemma RunsOn(n: nat, total: nat, ts: Treatments)
    requires n < total && Undisturbed(n, ts)
    ensures ts(n).abortSeenAfter ==> RunsUpTo(n + 1, total, ts)
    ensures !ts(n).abortSeenAfter ==> Undisturbed(n + 1, ts)
  {
  }

  lemma OneMoreCall(p: Picture, fs: seq<Finalized>, f: Finalized, calls: seq<Call>, ts: Treatments)
    requires InOrder(fs, calls, ts, false) && Undisturbed(|fs|, ts) && |fs| < |calls|
    requires f == Outcome(calls[|fs|], ts(|fs|), false)
    ensures Complete(Complete(p, fs), [f]) == Complete(p, fs + [f])
    ensures Messages(fs) + [ResultMessage(f)] == Messages(fs + [f])
    ensures InOrder(fs + [f], calls, ts, false)
    ensures if ts(|fs|).abortSeenAfter then RunsUpTo(|fs| + 1, |calls|, ts) else Undisturbed(|fs| + 1, ts)
  {
    CompleteMore(p, fs, f);
    MessagesSnoc(fs, f);
    InOrderSnoc(fs, f, calls, ts, false);
    RunsOn(|fs|, |calls|, ts);
  }

  /** These calls of a sequential batch have been run. */
  ghost predicate Executed(agent: Agent, calls: seq<Call>, ts: Treatments, fs: seq<Finalized>, p: Picture, before: Log)
    reads agent
  {
    && agent.running && Calm(Seen(agent)) && InOrder(fs, calls, ts, false)
    && Seen(agent) == Complete(p, fs) && agent.log == SequentialLog(before, calls, ts, |fs|)
  }

  lemma NoneExecuted(agent: Agent, calls: seq<Call>, ts: Treatments)
    requires agent.running && Calm(Seen(agent))
    ensures Executed(agent, calls, ts, [], Seen(agent), agent.log) && Undisturbed(0, ts) && Messages([]) == []
  {
    CompleteNone(Seen(agent));
  }

  /** The batch is complete: all calls were run, or an abort was seen after the last one. */
  lemma AllExecuted(agent: Agent, calls: seq<Call>, ts: Treatments, fs: seq<Finalized>, p: Picture, before: Log)
    requires Executed(agent, calls, ts, fs, p, before) && RunsUpTo(|fs|, |calls|, ts)
    ensures IsBatch(Batch(Messages(fs), ShouldTerminate(fs)), calls, ts, false)
    ensures BatchAnswers(Batch(Messages(fs), ShouldTerminate(fs)), calls, ts, false)
    ensures Seen(agent) == Complete(p, Outcomes(|fs|, calls, ts, false))
    ensures agent.log == SequentialLog(before, calls, ts, |fs|)
  {
    BatchFrom(fs, calls, ts, false);
    IsBatchAnswers(Batch(Messages(fs), ShouldTerminate(fs)), calls, ts, false);
  }

  /** One more call of a sequential batch. */
  method RunNext(agent: Agent, calls: seq<Call>, ts: Treatments, fs: seq<Finalized>, ghost p: Picture,
                 ghost before: Log)
    returns (f: Finalized)
    requires Executed(agent, calls, ts, fs, p, before) && Undisturbed(|fs|, ts) && |fs| < |calls|
    modifies agent`state, agent`log
    ensures Executed(agent, calls, ts, fs + [f], p, before)
    ensures Messages(fs) + [ResultMessage(f)] == Messages(fs + [f])
    ensures if ts(|fs|).abortSeenAfter then RunsUpTo(|fs| + 1, |calls|, ts) else Undisturbed(|fs| + 1, ts)
  {
    f := RunCall(agent, calls[|fs|], ts(|fs|));
    OneMoreCall(p, fs, f, calls, ts);
  }

  /** The calls one after the other, until an abort is seen. */
  method ExecuteToolCallsSequential(agent: Agent, calls: seq<Call>, ts: Treatments) returns (b: Batch)
    requires agent.running && Calm(Seen(agent))
    modifies agent`state, agent`log
    ensures IsBatch(b, calls, ts, false) && BatchAnswers(b, calls, ts, false)
    ensures Seen(agent) == Complete(old(Seen(agent)), Outcomes(|b.messages|, calls, ts, false))
    ensures agent.log == SequentialLog(old(agent.log), calls, ts, |b.messages|)
  {
    hide Executed, Undisturbed, RunsUpTo, IsBatch, BatchAnswers, Complete, SequentialLog;
    var fs: seq<Finalized>, messages: seq<Message> := [], [];
    ghost var p, before := Seen(agent), agent.log;
    NoneExecuted(agent, calls, ts);
    while |fs| < |calls|
      invariant |fs| <= |calls| && Executed(agent, calls, ts, fs, p, before) && Undisturbed(|fs|, ts)
      invariant messages == Messages(fs)
      decreases |calls| - |fs|
    {
      var n := |fs|;
      var f := RunNext(agent, calls, ts, fs, p, before);
      fs, messages := fs + [f], messages + [ResultMessage(f)];
      if ts(n).abortSeenAfter {
        AllExecuted(agent, calls, ts, fs, p, before);
        return Batch(messages, ShouldTerminate(fs));
      }
    }
    RunsThrough(|fs|, ts);
    AllExecuted(agent, calls, ts, fs, p, before);
    b := Batch(messages, ShouldTerminate(fs));
  }

  method FailCall(agent: Agent, call: Call) returns (m: Message)
    requires agent.running && Calm(Seen(agent))
    modifies agent`state, agent`log
    ensures m == ResultMessage(Truncated(call)) && Seen(agent) == Complete(old(Seen(agent)), [Truncated(call)])
  {
    var f := Truncated(call);
    CompleteOne(Seen(agent), f);
    agent.EmitTool(ToolStart(call));
    agent.EmitTool(ToolEnd(f));
    m := ResultMessage(f);
    agent.EmitMessage(m, Produced);
  }

  lemma TruncatedSnoc(calls: seq<Call>, k: nat)
    requires k < |calls|
    ensures AllTruncated(calls[..k]) + [Truncated(calls[k])] == AllTruncated(calls[..k + 1])
  {
  }

  /** The first `k` calls of a reply that was cut off have failed. */
  ghost predicate Failing(agent: Agent, calls: seq<Call>, k: nat, messages: seq<Message>, p: Picture)
    reads agent
  {
    && k <= |calls| && agent.running && Calm(Seen(agent)) && messages == Messages(AllTruncated(calls[..k]))
    && Seen(agent) == Complete(p, AllTruncated(calls[..k]))
  }

  lemma NoneFailed(agent: Agent, calls: seq<Call>)
    requires agent.running && Calm(Seen(agent))
    ensures Failing(agent, calls, 0, [], Seen(agent))
  {
    CompleteNone(Seen(agent));
    assert AllTruncated(calls[..0]) == [];
  }

  lemma AllFailed(agent: Agent, calls: seq<Call>, messages: seq<Message>, p: Picture)
    requires Failing(agent, calls, |calls|, messages, p)
    ensures messages == Messages(AllTruncated(calls)) && Seen(agent) == Complete(p, AllTruncated(calls))
  {
    assert calls[..|calls|] == calls;
  }

  /** Every call of a reply that was cut off is answered with an error that names it. */
  lemma TruncatedComplains(calls: seq<Call>)
    ensures var messages := Messages(AllTruncated(calls));
      |messages| == |calls| && forall i :: 0 <= i < |calls| ==>
        && Complains(messages[i], "not executed: " + calls[i].name)
        && messages[i].callId == calls[i].id && messages[i].toolName == calls[i].name
  {
  }

  method FailNext(agent: Agent, calls: seq<Call>, k: nat, messages: seq<Message>, ghost p: Picture)
    returns (m: Message)
    requires k < |calls| && Failing(agent, calls, k, messages, p)
    modifies agent`state, agent`log
    ensures Failing(agent, calls, k + 1, messages + [m], p)
  {
    ghost var fs, f := AllTruncated(calls[..k]), Truncated(calls[k]);
    CompleteMore(p, fs, f);
    MessagesSnoc(fs, f);
    TruncatedSnoc(calls, k);
    hide Complete, Messages, Truncated, AllTruncated;
    m := FailCall(agent, calls[k]);
  }

  /** Every call of a reply that was cut off fails, and the model is asked again. */
  method FailToolCallsFromTruncatedMessage(agent: Agent, calls: seq<Call>) returns (b: Batch)
    requires agent.running && Calm(Seen(agent))
    modifies agent`state, agent`log
    ensures b == Batch(Messages(AllTruncated(calls)), false)
    ensures Seen(agent) == Complete(old(Seen(agent)), AllTruncated(calls))
    ensures |b.messages| == |calls|
    ensures forall i :: 0 <= i < |calls| ==>
      && Complains(b.messages[i], "not executed: " + calls[i].name)
      && b.messages[i].callId == calls[i].id && b.messages[i].toolName == calls[i].name
  {
    hide Failing, Complete, Complains;
    var messages: seq<Message> := [];
    ghost var p := Seen(agent);
    NoneFailed(agent, calls);
    var k := 0;
    while k < |calls|
      invariant 0 <= k <= |calls| && Failing(agent, calls, k, messages, p)
    {
      var m := FailNext(agent, calls, k, messages, p);
      messages := messages + [m];
      k := k + 1;
    }
    AllFailed(agent, calls, messages, p);
    TruncatedComplains(calls);
    b := Batch(messages, false);
  }

  // ---- Parallel batches ----

  ghost function Unfinished(entries: seq<Option<Finalized>>): set<nat> {
    set i: nat | i < |entries| && entries[i].None?
  }

  /** The entries hold no outcome but that of their own call. */
  ghost predicate Sound(entries: seq<Option<Finalized>>, calls: seq<Call>, ts: Treatments) {
    && |entries| <= |calls|
    && forall i :: 0 <= i < |entries| && entries[i].Some? ==> entries[i].value == Outcome(calls[i], ts(i), true)
  }

  lemma StartedStays(pending: set<string>, calls: seq<Call>, entries: seq<Option<Finalized>>, e: Option<Finalized>)
    requires PendingOnly(pending, calls, Unfinished(entries)) && |entries| < |calls|
    ensures e.None? ==> PendingOnly(pending + {calls[|entries|].id}, calls, Unfinished(entries + [e]))
    ensures e.Some? ==> PendingOnly(pending + {calls[|entries|].id} - {calls[|entries|].id}, calls,
                                    Unfinished(entries + [e]))
  {
    var next := entries + [e];
    forall i | i in Unfinished(entries) ensures i in Unfinished(next) {
      assert next[i] == entries[i];
    }
    if e.None? {
      assert next[|entries|].None?;
      assert |entries| in Unfinished(next);
    }
  }

  ghost function One<T>(e: Option<T>): multiset<T> {
    if e.Some? then multiset{e.value} else multiset{}
  }

  /** The outcomes among the first `n` entries. */
  ghost function EndedUpTo<T>(entries: seq<Option<T>>, n: nat): multiset<T>
    requires n <= |entries|
  {
    if n == 0 then multiset{} else EndedUpTo(entries, n - 1) + One(entries[n - 1])
  }

  ghost function Ended<T>(entries: seq<Option<T>>): multiset<T> {
    EndedUpTo(entries, |entries|)
  }

  lemma {:induction false} EndedAlike<T>(a: seq<Option<T>>, b: seq<Option<T>>, n: nat)
    requires n <= |a| && n <= |b| && forall i :: 0 <= i < n ==> a[i] == b[i]
    ensures EndedUpTo(a, n) == EndedUpTo(b, n)
  {
    if n > 0 {
      EndedAlike(a, b, n - 1);
    }
  }

  lemma EndedSnoc<T>(entries: seq<Option<T>>, e: Option<T>)
    ensures Ended(entries + [e]) == Ended(entries) + One(e)
  {
    EndedAlike(entries + [e], entries, |entries|);
  }

  /** The lists differ at most at `i`. */
  ghost predicate AlikeBut<T>(a: seq<T>, b: seq<T>, i: nat) {
    |a| == |b| && forall k :: 0 <= k < |a| && k != i ==> a[k] == b[k]
  }

  lemma AlikeAt<T>(a: seq<T>, b: seq<T>, i: nat, n: nat)
    requires AlikeBut(a, b, i) && n < |a| && n != i
    ensures |a| == |b| && a[n] == b[n]
  {
  }

  lemma AlikeBefore<T>(a: seq<Option<T>>, b: seq<Option<T>>, i: nat)
    requires AlikeBut(a, b, i) && i < |a|
    ensures |a| == |b| && EndedUpTo(a, i) == EndedUpTo(b, i)
  {
    EndedAlike(a, b, i);
  }

  lemma EndedStep<T>(entries: seq<Option<T>>, n: nat)
    requires 0 < n <= |entries|
    ensures EndedUpTo(entries, n) == EndedUpTo(entries, n - 1) + One(entries[n - 1])
  {
  }

  lemma OneMoreEnded<T>(ended: multiset<T>, f: T)
    ensures ended + One(Some(f)) == ended + One<T>(None) + multiset{f}
  {
  }

  lemma Regroup<T>(a: multiset<T>, b: multiset<T>, rest: multiset<T>, f: T)
    requires b == a + multiset{f}
    ensures b + rest == a + rest + multiset{f}
  {
  }

  /** With one more outcome, that outcome is there once more, and nothing else. */
  lemma {:induction false} EndedWith<T>(a: seq<Option<T>>, b: seq<Option<T>>, i: nat, f: T, n: nat)
    requires AlikeBut(a, b, i) && i < n <= |a| && |b| == |a| && a[i] == None && b[i] == Some(f)
    ensures EndedUpTo(b, n) == EndedUpTo(a, n) + multiset{f}
  {
    hide *;
    EndedStep(a, n);
    EndedStep(b, n);
    if n == i + 1 {
      AlikeBefore(a, b, i);
      OneMoreEnded(EndedUpTo(a, i), f);
    } else {
      AlikeAt(a, b, i, n - 1);
      EndedWith(a, b, i, f, n - 1);
      Regroup(EndedUpTo(a, n - 1), EndedUpTo(b, n - 1), One(a[n - 1]), f);
    }
  }

  lemma EndedUpdate<T>(entries: seq<Option<T>>, i: nat, f: T)
    requires i < |entries| && entries[i].None?
    ensures Ended(entries[i := Some(f)]) == Ended(entries) + multiset{f}
  {
    EndedWith(entries, entries[i := Some(f)], i, f, |entries|);
  }

  /** How the agent looks while a parallel batch that began at `p` is under way. */
  ghost function Under(p: Picture, pending: set<string>, calls: seq<Call>,
                       entries: seq<Option<Finalized>>): (r: Picture)
    requires |entries| <= |calls|
    ensures Steady(p.view) ==> Steady(r.view)
  {
    Picture(p.view.(started := p.view.started + calls[..|entries|], finished := p.view.finished + Ended(entries)),
            p.state.(pendingToolCalls := pending))
  }

  lemma UnderNone(p: Picture, calls: seq<Call>)
    ensures Under(p, p.state.pendingToolCalls, calls, []) == p
  {
    assert p.view.started + calls[..0] == p.view.started;
  }

  lemma StartedGrows(started: seq<Call>, calls: seq<Call>, n: nat)
    requires n < |calls|
    ensures started + calls[..n] + [calls[n]] == started + calls[..n + 1]
  {
    assert calls[..n + 1] == calls[..n] + [calls[n]];
  }

  lemma EndedGrows(finished: multiset<Finalized>, entries: seq<Option<Finalized>>, f: Finalized)
    ensures finished + Ended(entries) + multiset{f} == finished + Ended(entries + [Some(f)])
    ensures Ended(entries) == Ended(entries + [None])
  {
    EndedSnoc(entries, Some(f));
    EndedSnoc(entries, None);
  }

  lemma UnderStart(p: Picture, pending: set<string>, calls: seq<Call>, entries: seq<Option<Finalized>>)
    requires |entries| < |calls|
    ensures Announce(Under(p, pending, calls, entries), ToolStart(calls[|entries|])) ==
            Under(p, pending + {calls[|entries|].id}, calls, entries + [None])
  {
    StartedGrows(p.view.started, calls, |entries|);
    EndedSnoc(entries, None);
  }

  lemma UnderImmediate(p: Picture, pending: set<string>, calls: seq<Call>, entries: seq<Option<Finalized>>,
                       f: Finalized)
    requires |entries| < |calls|
    ensures Announce(Under(p, pending, calls, entries + [None]), ToolEnd(f)) ==
            Under(p, pending - {f.call.id}, calls, entries + [Some(f)])
  {
    EndedGrows(p.view.finished, entries, f);
  }

  lemma UnderFinish(p: Picture, pending: set<string>, calls: seq<Call>, entries: seq<Option<Finalized>>, i: nat,
                    f: Finalized)
    requires |entries| <= |calls| && i < |entries| && entries[i].None?
    ensures var now := Announce(Under(p, pending, calls, entries), ToolEnd(f));
      now == Under(p, now.state.pendingToolCalls, calls, entries[i := Some(f)])
  {
    EndedUpdate(entries, i, f);
  }

  /** The batch as it stands, seen from its beginning `p`. */
  ghost predicate UnderWay(p: Picture, agent: Agent, calls: seq<Call>, ts: Treatments, entries: seq<Option<Finalized>>)
    reads agent
  {
    && Steady(p.view)
    && Opening(entries, calls, ts)
    && PendingOnly(agent.state.pendingToolCalls, calls, Unfinished(entries))
    && Seen(agent) == Under(p, agent.state.pendingToolCalls, calls, entries)
  }

  /** The batch as its log tells it, from where it began. */
  ghost predicate OnRecord(before: Log, agent: Agent, t: Timeline, calls: seq<Call>, ts: Treatments,
                           entries: seq<Option<Finalized>>, sent: seq<nat>)
    reads agent
  {
    agent.log == LogOf(before, t) && OnLine(t, calls, ts, entries, sent)
  }

  /** A call is announced. */
  method AnnounceCall(agent: Agent, calls: seq<Call>, ts: Treatments, entries: seq<Option<Finalized>>, ghost p: Picture,
                      ghost before: Log, ghost line: Timeline, ghost sent: seq<nat>)
    returns (ghost line': Timeline)
    requires agent.running && UnderWay(p, agent, calls, ts, entries) && |entries| < |calls|
    requires OnRecord(before, agent, line, calls, ts, entries, sent)
    modifies agent`state, agent`log
    ensures agent.state.pendingToolCalls == old(agent.state).pendingToolCalls + {calls[|entries|].id}
    ensures Seen(agent) == Under(p, agent.state.pendingToolCalls, calls, entries + [None])
    ensures Steady(ViewOf(agent.log)) && OnRecord(before, agent, line', calls, ts, entries + [None], sent + [0])
  {
    UnderStart(p, agent.state.pendingToolCalls, calls, entries);
    LineStarts(line, calls, ts, entries, sent);
    hide OnLine, Under;
    agent.EmitTool(ToolStart(calls[|entries|]));
    line' := Moment(line, |entries|, ToolStart(calls[|entries|]));
  }

  /** A call that something stands in the way of ends at once. */
  method EndAtOnce(agent: Agent, calls: seq<Call>, ts: Treatments, entries: seq<Option<Finalized>>, f: Finalized,
                   ghost p: Picture, ghost before: Log, ghost line: Timeline, ghost sent: seq<nat>)
    returns (ghost line': Timeline)
    requires agent.running && |entries| < |calls| && f.call == calls[|entries|] && Steady(ViewOf(agent.log))
    requires UpdatesDue(calls[|entries|], ts(|entries|)) == 0 && |sent| == |entries|
    requires Seen(agent) == Under(p, agent.state.pendingToolCalls, calls, entries + [None])
    requires OnRecord(before, agent, line, calls, ts, entries + [None], sent + [0])
    modifies agent`state, agent`log
    ensures agent.state.pendingToolCalls == old(agent.state).pendingToolCalls - {calls[|entries|].id}
    ensures Seen(agent) == Under(p, agent.state.pendingToolCalls, calls, entries + [Some(f)])
    ensures OnRecord(before, agent, line', calls, ts, entries + [Some(f)], sent + [0])
  {
    UnderImmediate(p, agent.state.pendingToolCalls, calls, entries, f);
    LineEnds(line, calls, ts, entries + [None], sent + [0], |entries|, f);
    assert (entries + [None])[|entries| := Some(f)] == entries + [Some(f)];
    hide OnLine, Under;
    agent.EmitTool(ToolEnd(f));
    line' := Moment(line, |entries|, ToolEnd(f));
  }

  /** One call is announced and prepared; `None` is a call left to run. */
  method StartCall(agent: Agent, calls: seq<Call>, ts: Treatments, entries: seq<Option<Finalized>>, ghost p: Picture,
                   ghost before: Log, ghost line: Timeline, ghost sent: seq<nat>)
    returns (next: seq<Option<Finalized>>, ghost line': Timeline)
    requires agent.running && UnderWay(p, agent, calls, ts, entries) && |entries| < |calls|
    requires OnRecord(before, agent, line, calls, ts, entries, sent)
    modifies agent`state, agent`log
    ensures |next| == |entries| + 1 && UnderWay(p, agent, calls, ts, next)
    ensures OnRecord(before, agent, line', calls, ts, next, sent + [0])
    ensures entries <= next && (next[|entries|].None? <==> GetsToRun(ts(|entries|), false))
  {
    var k := |entries|;
    ghost var pending := agent.state.pendingToolCalls;
    PreparedIff(calls[k], ts(k));
    hide GetsToRun, Under, LogOf;
    line' := AnnounceCall(agent, calls, ts, entries, p, before, line, sent);
    var preparation := Prepare(calls[k], ts(k));
    var entry := None;
    if preparation.Immediate? {
      var f := Finalized(calls[k], preparation.result, true);
      line' := EndAtOnce(agent, calls, ts, entries, f, p, before, line', sent);
      entry := Some(f);
    }
    StartedStays(pending, calls, entries, entry);
    OpeningSnoc(entries, entry, calls, ts);
    next := entries + [entry];
  }

  /** The entries after the first loop: outcomes of the calls that ended at once, `None` for those prepared. */
  ghost predicate Opening(entries: seq<Option<Finalized>>, calls: seq<Call>, ts: Treatments) {
    && Sound(entries, calls, ts)
    && forall i :: 0 <= i < |entries| && entries[i].None? ==> Prepare(calls[i], ts(i)).Prepared?
  }

  lemma OpeningSnoc(entries: seq<Option<Finalized>>, e: Option<Finalized>, calls: seq<Call>, ts: Treatments)
    requires Opening(entries, calls, ts) && |entries| < |calls|
    requires e.Some? ==> e.value == Outcome(calls[|entries|], ts(|entries|), true)
    requires e.None? ==> Prepare(calls[|entries|], ts(|entries|)).Prepared?
    ensures Opening(entries + [e], calls, ts)
  {
  }

  /** Announce and prepare the calls in order, until an abort is seen. */
  method StartCalls(agent: Agent, calls: seq<Call>, ts: Treatments)
    returns (entries: seq<Option<Finalized>>, ghost line: Timeline)
    requires agent.running && Calm(Seen(agent))
    modifies agent`state, agent`log
    ensures UnderWay(old(Seen(agent)), agent, calls, ts, entries) && RunsUpTo(|entries|, |calls|, ts)
    ensures OnRecord(old(agent.log), agent, line, calls, ts, entries, NoneSent(|entries|))
    ensures LeftToRun(entries, ts)
  {
    entries, line := [], Quiet;
    ghost var p := Seen(agent);
    UnderNone(p, calls);
    LineBegins(calls, ts);
    while |entries| < |calls|
      invariant UnderWay(p, agent, calls, ts, entries) && Undisturbed(|entries|, ts)
      invariant OnRecord(old(agent.log), agent, line, calls, ts, entries, NoneSent(|entries|))
      invariant LeftToRun(entries, ts)
      decreases |calls| - |entries|
    {
      var k := |entries|;
      ghost var earlier := entries;
      entries, line := StartCall(agent, calls, ts, entries, p, old(agent.log), line, NoneSent(k));
      assert NoneSent(k) + [0] == NoneSent(k + 1);
      OneMoreLeft(earlier, entries, ts);
      RunsOn(k, |calls|, ts);
      if ts(k).abortSeenAfter {
        break;
      }
    }
  }

  /** Just the calls that nothing stands in the way of are left to run. */
  ghost predicate LeftToRun(entries: seq<Option<Finalized>>, ts: Treatments) {
    forall i: nat :: i < |entries| ==> (entries[i].None? <==> GetsToRun(ts(i), false))
  }

  lemma OneMoreLeft(entries: seq<Option<Finalized>>, next: seq<Option<Finalized>>, ts: Treatments)
    requires LeftToRun(entries, ts) && |next| == |entries| + 1 && entries <= next
    requires next[|entries|].None? <==> GetsToRun(ts(|entries|), false)
    ensures LeftToRun(next, ts)
  {
    forall i: nat | i < |next| ensures next[i].None? <==> GetsToRun(ts(i), false) {
      assert i < |entries| ==> next[i] == entries[i];
    }
  }

  function NoneSent(n: nat): (sent: seq<nat>)
    ensures |sent| == n && forall i :: 0 <= i < n ==> sent[i] == 0
  {
    seq(n, i => 0)
  }

  lemma FinishedStays(pending: set<string>, calls: seq<Call>, entries: seq<Option<Finalized>>, i: nat, f: Finalized)
    requires PendingOnly(pending, calls, Unfinished(entries)) && |entries| <= |calls|
    requires i in Unfinished(entries)
    ensures PendingOnly(pending - {calls[i].id}, calls, Unfinished(entries[i := Some(f)]))
    ensures Unfinished(entries[i := Some(f)]) == Unfinished(entries) - {i}
  {
    var next := entries[i := Some(f)];
    assert Unfinished(next) == Unfinished(entries) - {i} by {
      forall k: nat | k < |entries| ensures next[k].None? <==> entries[k].None? && k != i {
      }
    }
  }

  /** One running call ends. */
  method FinishCall(agent: Agent, calls: seq<Call>, ts: Treatments, entries: seq<Option<Finalized>>, i: nat,
                    ghost p: Picture, ghost before: Log, ghost line: Timeline, ghost sent: seq<nat>)
    returns (next: seq<Option<Finalized>>, ghost line': Timeline)
    requires agent.running && UnderWay(p, agent, calls, ts, entries)
    requires i < |entries| && entries[i].None?
    requires OnRecord(before, agent, line, calls, ts, entries, sent) && sent[i] == UpdatesDue(calls[i], ts(i))
    modifies agent`state, agent`log
    ensures UnderWay(p, agent, calls, ts, next) && |next| == |entries|
    ensures Unfinished(next) == Unfinished(entries) - {i}
    ensures OnRecord(before, agent, line', calls, ts, next, sent)
  {
    var f :=
      if ts(i).abortSeenStarting then Finalized(calls[i], ErrorResult(ABORTED), true)
      else Finalize(Execute(calls[i], ts(i)), ts(i));
    FinishedStays(agent.state.pendingToolCalls, calls, entries, i, f);
    UnderFinish(p, agent.state.pendingToolCalls, calls, entries, i, f);
    LineEnds(line, calls, ts, entries, sent, i, f);
    agent.EmitTool(ToolEnd(f));
    line' := Moment(line, i, ToolEnd(f));
    next := entries[i := Some(f)];
  }

  /** One running call sends its next update. */
  method SendUpdate(agent: Agent, calls: seq<Call>, ts: Treatments, entries: seq<Option<Finalized>>, sent: seq<nat>,
                    i: nat, ghost p: Picture, ghost before: Log, ghost line: Timeline)
    returns (next: seq<nat>, ghost line': Timeline)
    requires agent.running && UnderWay(p, agent, calls, ts, entries)
    requires i < |entries| && entries[i].None?
    requires OnRecord(before, agent, line, calls, ts, entries, sent) && sent[i] < UpdatesDue(calls[i], ts(i))
    modifies agent`state, agent`log
    ensures UnderWay(p, agent, calls, ts, entries) && next == sent[i := sent[i] + 1]
    ensures OnRecord(before, agent, line', calls, ts, entries, next)
  {
    LineUpdates(line, calls, ts, entries, sent, i);
    agent.EmitTool(ToolUpdate(calls[i], ts(i).updates[sent[i]]));
    line' := Moment(line, i, ToolUpdate(calls[i], ts(i).updates[sent[i]]));
    next := sent[i := sent[i] + 1];
  }

  /** The call has an update to send before it ends. */
  lemma WhatIsDue(calls: seq<Call>, ts: Treatments, entries: seq<Option<Finalized>>, line: Timeline, sent: seq<nat>,
                  i: nat)
    requires Opening(entries, calls, ts) && OnLine(line, calls, ts, entries, sent) && i < |entries|
    requires entries[i].None?
    ensures if !ts(i).abortSeenStarting && sent[i] < |ts(i).updates| then sent[i] < UpdatesDue(calls[i], ts(i))
            else sent[i] == UpdatesDue(calls[i], ts(i))
  {
    assert OnTime(line, i, calls[i], ts(i), entries[i], sent[i]);
  }

  /** A running call takes a step: it sends its next update, or ends once it has sent all of them. */
  method StepCall(agent: Agent, calls: seq<Call>, ts: Treatments, entries: seq<Option<Finalized>>, sent: seq<nat>,
                  i: nat, ghost p: Picture, ghost before: Log, ghost line: Timeline)
    returns (next: seq<Option<Finalized>>, sent': seq<nat>, ghost line': Timeline)
    requires agent.running && UnderWay(p, agent, calls, ts, entries)
    requires i < |entries| && entries[i].None? && OnRecord(before, agent, line, calls, ts, entries, sent)
    modifies agent`state, agent`log
    ensures UnderWay(p, agent, calls, ts, next) && |next| == |entries|
    ensures OnRecord(before, agent, line', calls, ts, next, sent')
    ensures if next == entries then sent' == sent[i := sent[i] + 1] && sent'[i] <= |ts(i).updates|
            else Unfinished(next) == Unfinished(entries) - {i}
  {
    next, sent' := entries, sent;
    WhatIsDue(calls, ts, entries, line, sent, i);
    if !ts(i).abortSeenStarting && sent[i] < |ts(i).updates| {
      sent', line' := SendUpdate(agent, calls, ts, entries, sent, i, p, before, line);
    } else {
      next, line' := FinishCall(agent, calls, ts, entries, i, p, before, line, sent);
      assert i in Unfinished(entries) && i !in Unfinished(next);
    }
  }

  /** The running calls take steps in the order of `picks`; whatever still runs after that is brought to its end in
      any order. The events of the batch are an interleaving in which every call sends all its updates, in order,
      between its start and its end. */
  method FinishCalls(agent: Agent, calls: seq<Call>, ts: Treatments, opening: seq<Option<Finalized>>, picks: seq<nat>,
                     ghost p: Picture, ghost before: Log, ghost line: Timeline)
    returns (entries: seq<Option<Finalized>>, ghost sent: seq<nat>, ghost line': Timeline)
    requires agent.running && UnderWay(p, agent, calls, ts, opening)
    requires OnRecord(before, agent, line, calls, ts, opening, NoneSent(|opening|))
    modifies agent`state, agent`log
    ensures UnderWay(p, agent, calls, ts, entries) && |entries| == |opening| && Unfinished(entries) == {}
    ensures OnRecord(before, agent, line', calls, ts, entries, sent)
  {
    entries, line' := opening, line;
    var counts := NoneSent(|opening|);
    var k := 0;
    while k < |picks|
      invariant 0 <= k <= |picks| && |entries| == |opening|
      invariant UnderWay(p, agent, calls, ts, entries) && OnRecord(before, agent, line', calls, ts, entries, counts)
    {
      var i := picks[k];
      if i < |entries| && entries[i].None? {
        entries, counts, line' := StepCall(agent, calls, ts, entries, counts, i, p, before, line');
      }
      k := k + 1;
    }
    entries, sent, line' := FinishRest(agent, calls, ts, entries, counts, p, before, line');
  }

  method FinishRest(agent: Agent, calls: seq<Call>, ts: Treatments, opening: seq<Option<Finalized>>, counts: seq<nat>,
                    ghost p: Picture, ghost before: Log, ghost line: Timeline)
    returns (entries: seq<Option<Finalized>>, ghost sent: seq<nat>, ghost line': Timeline)
    requires agent.running && UnderWay(p, agent, calls, ts, opening)
    requires OnRecord(before, agent, line, calls, ts, opening, counts)
    modifies agent`state, agent`log
    ensures UnderWay(p, agent, calls, ts, entries) && |entries| == |opening| && Unfinished(entries) == {}
    ensures OnRecord(before, agent, line', calls, ts, entries, sent)
  {
    entries, line' := opening, line;
    var left := set i: nat | i < |opening| && opening[i].None?;
    var told := counts;
    while left != {}
      invariant |entries| == |opening| && left == Unfinished(entries)
      invariant UnderWay(p, agent, calls, ts, entries) && OnRecord(before, agent, line', calls, ts, entries, told)
      decreases left
    {
      var i :| i in left;
      entries, told, line' := RunOut(agent, calls, ts, entries, told, i, p, before, line');
      left := left - {i};
    }
    sent := told;
  }

  /** A running call takes steps until it ends. */
  method RunOut(agent: Agent, calls: seq<Call>, ts: Treatments, opening: seq<Option<Finalized>>, counts: seq<nat>,
                i: nat, ghost p: Picture, ghost before: Log, ghost line: Timeline)
    returns (entries: seq<Option<Finalized>>, sent: seq<nat>, ghost line': Timeline)
    requires agent.running && UnderWay(p, agent, calls, ts, opening)
    requires i < |opening| && opening[i].None? && OnRecord(before, agent, line, calls, ts, opening, counts)
    modifies agent`state, agent`log
    ensures UnderWay(p, agent, calls, ts, entries) && |entries| == |opening|
    ensures Unfinished(entries) == Unfinished(opening) - {i} && OnRecord(before, agent, line', calls, ts, entries, sent)
  {
    sent, line' := counts, line;
    while !ts(i).abortSeenStarting && sent[i] < |ts(i).updates|
      invariant UnderWay(p, agent, calls, ts, opening) && OnRecord(before, agent, line', calls, ts, opening, sent)
      invariant |sent| == |opening|
      decreases |ts(i).updates| - sent[i]
    {
      WhatIsDue(calls, ts, opening, line', sent, i);
      sent, line' := SendUpdate(agent, calls, ts, opening, sent, i, p, before, line');
    }
    WhatIsDue(calls, ts, opening, line', sent, i);
    entries, line' := FinishCall(agent, calls, ts, opening, i, p, before, line', sent);
  }

  /** The outcomes of a batch whose calls all ended. */
  method Collect(entries: seq<Option<Finalized>>, ghost calls: seq<Call>, ghost ts: Treatments)
    returns (fs: seq<Finalized>)
    requires Opening(entries, calls, ts) && Unfinished(entries) == {}
    ensures InOrder(fs, calls, ts, true) && |fs| == |entries|
    ensures forall i :: 0 <= i < |fs| ==> entries[i] == Some(fs[i])
  {
    fs := [];
    while |fs| < |entries|
      invariant |fs| <= |entries| && InOrder(fs, calls, ts, true)
      invariant forall i :: 0 <= i < |fs| ==> entries[i] == Some(fs[i])
      decreases |entries| - |fs|
    {
      assert |fs| !in Unfinished(entries);
      InOrderSnoc(fs, entries[|fs|].value, calls, ts, true);
      fs := fs + [entries[|fs|].value];
    }
  }

  lemma {:induction false} AllEndedUpTo<T>(entries: seq<Option<T>>, fs: seq<T>, n: nat)
    requires n <= |fs| == |entries| && forall i :: 0 <= i < |fs| ==> entries[i] == Some(fs[i])
    ensures EndedUpTo(entries, n) == multiset(fs[..n])
  {
    if n > 0 {
      AllEndedUpTo(entries, fs, n - 1);
      assert fs[..n] == fs[..n - 1] + [fs[n - 1]];
    }
  }

  lemma AllEnded<T>(entries: seq<Option<T>>, fs: seq<T>)
    requires |fs| == |entries| && forall i :: 0 <= i < |fs| ==> entries[i] == Some(fs[i])
    ensures Ended(entries) == multiset(fs)
  {
    AllEndedUpTo(entries, fs, |fs|);
    assert fs[..|fs|] == fs;
  }

  lemma UnderAll(p: Picture, calls: seq<Call>, entries: seq<Option<Finalized>>, fs: seq<Finalized>)
    requires |fs| == |entries| <= |calls|
    requires forall i :: 0 <= i < |fs| ==> entries[i] == Some(fs[i]) && fs[i].call == calls[i]
    requires p.state.pendingToolCalls == {}
    ensures Deliver(Under(p, {}, calls, entries), Messages(fs)) == Complete(p, fs)
  {
    AllEnded(entries, fs);
    assert Calls(fs) == calls[..|fs|];
  }

  /** All calls at once: whatever order they complete in, the results enter in the order of the calls; the events
      before them are an interleaving of what each call has to tell. */
  method ExecuteToolCallsParallel(agent: Agent, calls: seq<Call>, ts: Treatments, picks: seq<nat>)
    returns (b: Batch, ghost line: Timeline)
    requires agent.running && Calm(Seen(agent))
    modifies agent`state, agent`log
    ensures IsBatch(b, calls, ts, true) && BatchAnswers(b, calls, ts, true)
    ensures Seen(agent) == Complete(old(Seen(agent)), Outcomes(|b.messages|, calls, ts, true))
    ensures ParallelLog(old(agent.log), agent.log, line, calls, ts, b.messages)
  {
    ghost var p, before := Seen(agent), agent.log;
    var opening, entries;
    ghost var sent;
    opening, line := StartCalls(agent, calls, ts);
    entries, sent, line := FinishCalls(agent, calls, ts, opening, picks, p, before, line);
    NonePending(agent.state.pendingToolCalls, calls, entries);
    var fs := Collect(entries, calls, ts);
    UnderAll(p, calls, entries, fs);
    AllTold(line, calls, ts, entries, sent, fs);
    var messages := EmitResults(agent, fs);
    BatchFrom(fs, calls, ts, true);
    b := Batch(messages, ShouldTerminate(fs));
    IsBatchAnswers(b, calls, ts, true);
  }

  lemma NonePending(pending: set<string>, calls: seq<Call>, entries: seq<Option<Finalized>>)
    requires PendingOnly(pending, calls, Unfinished(entries)) && Unfinished(entries) == {}
    ensures pending == {}
  {
  }

  predicate AnySequential(n: nat, ts: Treatments) {
    exists i: nat :: i < n && ts(i).sequentialTool
  }

  /** One sequential tool makes the whole batch sequential. */
  method ExecuteToolCalls(agent: Agent, calls: seq<Call>, ts: Treatments, sequential: bool, picks: seq<nat>)
    returns (b: Batch)
    requires agent.running && Calm(Seen(agent))
    modifies agent`state, agent`log
    ensures var parallel := !sequential && !AnySequential(|calls|, ts);
      && IsBatch(b, calls, ts, parallel) && BatchAnswers(b, calls, ts, parallel)
      && Seen(agent) == Complete(old(Seen(agent)), Outcomes(|b.messages|, calls, ts, parallel))
      && if parallel then exists line :: ParallelLog(old(agent.log), agent.log, line, calls, ts, b.messages)
         else agent.log == SequentialLog(old(agent.log), calls, ts, |b.messages|)
  {
    if sequential || AnySequential(|calls|, ts) {
      b := ExecuteToolCallsSequential(agent, calls, ts);
    } else {
      ghost var line;
      b, line := ExecuteToolCallsParallel(agent, calls, ts, picks);
    }
  }

  /** What a batch for these calls comes to: all of them failed if the reply was cut off. */
  ghost predicate BatchFor(b: Batch, calls: seq<Call>, ts: Treatments, sequential: bool, truncated: bool) {
    if truncated then b == Batch(Messages(AllTruncated(calls)), false)
    else IsBatch(b, calls, ts, !sequential && !AnySequential(|calls|, ts))
  }

  /** The outcomes of a batch, which its calls and their treatments determine. */
  ghost function BatchOutcomes(calls: seq<Call>, ts: Treatments, sequential: bool, truncated: bool): seq<Finalized> {
    if truncated then AllTruncated(calls)
    else Outcomes(Ran(0, |calls|, ts), calls, ts, !sequential && !AnySequential(|calls|, ts))
  }

  lemma BatchHasResults(b: Batch, calls: seq<Call>, ts: Treatments, sequential: bool, truncated: bool)
    requires BatchFor(b, calls, ts, sequential, truncated)
    ensures b.messages == Messages(BatchOutcomes(calls, ts, sequential, truncated))
  {
    if !truncated {
      BatchMessages(b, calls, ts, !sequential && !AnySequential(|calls|, ts));
    }
  }

  /** Whether the model is to be asked again after these calls. */
  ghost predicate AsksAgain(calls: seq<Call>, ts: Treatments, sequential: bool, truncated: bool) {
    truncated || !Terminates(calls, ts, !sequential && !AnySequential(|calls|, ts))
  }

  lemma BatchAsksAgain(b: Batch, calls: seq<Call>, ts: Treatments, sequential: bool, truncated: bool)
    requires BatchFor(b, calls, ts, sequential, truncated)
    ensures !b.terminate == AsksAgain(calls, ts, sequential, truncated)
  {
    if !truncated {
      BatchTerminates(b, calls, ts, !sequential && !AnySequential(|calls|, ts));
    }
  }

  method RunBatch(agent: Agent, calls: seq<Call>, ts: Treatments, sequential: bool, picks: seq<nat>, truncated: bool)
    returns (b: Batch, ghost fs: seq<Finalized>)
    requires agent.running && Calm(Seen(agent))
    modifies agent`state, agent`log
    ensures BatchFor(b, calls, ts, sequential, truncated)
    ensures fs == BatchOutcomes(calls, ts, sequential, truncated)
    ensures b.messages == Messages(fs) && Seen(agent) == Complete(old(Seen(agent)), fs)
  {
    if truncated {
      b := FailToolCallsFromTruncatedMessage(agent, calls);
      fs := AllTruncated(calls);
    } else {
      b := ExecuteToolCalls(agent, calls, ts, sequential, picks);
      fs := Outcomes(|b.messages|, calls, ts, !sequential && !AnySequential(|calls|, ts));
      SameLength(|b.messages|, Ran(0, |calls|, ts), |calls|, ts);
    }
  }
}
