// The events of a batch of tool calls that run at the same time: an interleaving of what each call has to tell.
module ToolTimelines {
  import opened Wrappers
  import opened AgentEvents
  import opened ToolCalls

  /** The tool events of a batch, the latest outermost, each with the call it belongs to. */
  datatype Timeline = Quiet | Moment(before: Timeline, who: nat, event: Event)

  /** The events of one call, in order. */
  ghost function EventsOf(t: Timeline, who: nat): (r: seq<Event>) {
    match t
    case Quiet => []
    case Moment(before, w, event) => EventsOf(before, who) + (if w == who then [event] else [])
  }

  /** A log continued by all of them, in the order they happened. */
  ghost function LogOf(log: Log, t: Timeline): (r: Log) {
    match t
    case Quiet => log
    case Moment(before, _, event) => Emitted(LogOf(log, before), event, Nowhere)
  }

  ghost function UpdateEvents(call: Call, updates: seq<string>, n: nat): seq<Event>
    requires n <= |updates|
  {
    if n == 0 then [] else UpdateEvents(call, updates, n - 1) + [ToolUpdate(call, updates[n - 1])]
  }

  /** How many updates a call of a parallel batch sends: all of them, unless it does not get to run. */
  ghost function UpdatesDue(call: Call, t: Treatment): (n: nat)
    ensures n <= |t.updates|
  {
    if Prepare(call, t).Prepared? && !t.abortSeenStarting then |t.updates| else 0
  }

  /** What a call has told: its start, its first `n` updates in order and, once it has sent all it has to send, its
      end. */
  ghost function Told(call: Call, t: Treatment, n: nat, entry: Option<Finalized>): seq<Event>
    requires n <= |t.updates|
  {
    [ToolStart(call)] + UpdateEvents(call, t.updates, n) + (if entry.Some? then [ToolEnd(entry.value)] else [])
  }

  /** What a call tells from its start to its end. */
  ghost function WholeStory(call: Call, t: Treatment): seq<Event> {
    Told(call, t, UpdatesDue(call, t), Some(Outcome(call, t, true)))
  }

  ghost predicate OnTime(t: Timeline, who: nat, call: Call, treatment: Treatment, entry: Option<Finalized>, sent: nat) {
    && sent <= UpdatesDue(call, treatment) && (entry.Some? ==> sent == UpdatesDue(call, treatment))
    && EventsOf(t, who) == Told(call, treatment, sent, entry)
  }

  /** A batch as far as it has come: `sent` updates of every call announced. */
  ghost predicate OnLine(t: Timeline, calls: seq<Call>, ts: Treatments, entries: seq<Option<Finalized>>,
                         sent: seq<nat>) {
    && |sent| == |entries| <= |calls|
    && (forall i: nat :: i < |entries| ==> OnTime(t, i, calls[i], ts(i), entries[i], sent[i]))
    && (forall i: nat :: i >= |entries| ==> EventsOf(t, i) == [])
  }

  lemma LineBegins(calls: seq<Call>, ts: Treatments)
    ensures OnLine(Quiet, calls, ts, [], [])
  {
  }

  lemma Append(t: Timeline, who: nat, event: Event)
    ensures EventsOf(Moment(t, who, event), who) == EventsOf(t, who) + [event]
    ensures forall i: nat :: i != who ==> EventsOf(Moment(t, who, event), i) == EventsOf(t, i)
  {
    forall i: nat | i != who ensures EventsOf(Moment(t, who, event), i) == EventsOf(t, i) {
      assert EventsOf(t, i) + [] == EventsOf(t, i);
    }
  }

  /** The next call starts. */
  lemma LineStarts(t: Timeline, calls: seq<Call>, ts: Treatments, entries: seq<Option<Finalized>>, sent: seq<nat>)
    requires OnLine(t, calls, ts, entries, sent) && |entries| < |calls|
    ensures OnLine(Moment(t, |entries|, ToolStart(calls[|entries|])), calls, ts, entries + [None], sent + [0])
  {
    var k := |entries|;
    var now := Moment(t, k, ToolStart(calls[k]));
    Append(t, k, ToolStart(calls[k]));
    assert OnTime(now, k, calls[k], ts(k), None, 0) by {
      assert EventsOf(now, k) == [ToolStart(calls[k])] + [] + [];
    }
    forall i: nat | i < k ensures OnTime(now, i, calls[i], ts(i), (entries + [None])[i], (sent + [0])[i]) {
      assert OnTime(t, i, calls[i], ts(i), entries[i], sent[i]);
    }
  }

  /** A call sends its next update. */
  lemma LineUpdates(t: Timeline, calls: seq<Call>, ts: Treatments, entries: seq<Option<Finalized>>, sent: seq<nat>,
                    i: nat)
    requires OnLine(t, calls, ts, entries, sent) && i < |entries| && entries[i].None?
    requires sent[i] < UpdatesDue(calls[i], ts(i))
    ensures OnLine(Moment(t, i, ToolUpdate(calls[i], ts(i).updates[sent[i]])), calls, ts, entries,
                   sent[i := sent[i] + 1])
  {
    var e := ToolUpdate(calls[i], ts(i).updates[sent[i]]);
    var now := Moment(t, i, e);
    Append(t, i, e);
    assert OnTime(t, i, calls[i], ts(i), entries[i], sent[i]);
    assert OnTime(now, i, calls[i], ts(i), entries[i], sent[i] + 1) by {
      TellMore([ToolStart(calls[i])], UpdateEvents(calls[i], ts(i).updates, sent[i]), e);
    }
    forall j: nat | j < |entries| && j != i
      ensures OnTime(now, j, calls[j], ts(j), entries[j], sent[i := sent[i] + 1][j])
    {
      assert OnTime(t, j, calls[j], ts(j), entries[j], sent[j]);
    }
  }

  lemma TellMore(a: seq<Event>, b: seq<Event>, e: Event)
    ensures a + b + [] + [e] == a + (b + [e]) + []
  {
  }

  /** A call that has sent all its updates ends. */
  lemma LineEnds(t: Timeline, calls: seq<Call>, ts: Treatments, entries: seq<Option<Finalized>>, sent: seq<nat>,
                 i: nat, f: Finalized)
    requires OnLine(t, calls, ts, entries, sent) && i < |entries| && entries[i].None?
    requires sent[i] == UpdatesDue(calls[i], ts(i))
    ensures OnLine(Moment(t, i, ToolEnd(f)), calls, ts, entries[i := Some(f)], sent)
  {
    var now := Moment(t, i, ToolEnd(f));
    Append(t, i, ToolEnd(f));
    assert OnTime(t, i, calls[i], ts(i), entries[i], sent[i]);
    assert OnTime(now, i, calls[i], ts(i), Some(f), sent[i]) by {
      var told := [ToolStart(calls[i])] + UpdateEvents(calls[i], ts(i).updates, sent[i]);
      assert told + [] == told;
    }
    forall j: nat | j < |entries| && j != i
      ensures OnTime(now, j, calls[j], ts(j), entries[i := Some(f)][j], sent[j])
    {
      assert OnTime(t, j, calls[j], ts(j), entries[j], sent[j]);
    }
  }

  /** The tool events are an interleaving of the whole stories of the first `n` calls. */
  ghost predicate Interleaves(t: Timeline, calls: seq<Call>, ts: Treatments, n: nat)
    requires n <= |calls|
  {
    && (forall i: nat :: i < n ==> EventsOf(t, i) == WholeStory(calls[i], ts(i)))
    && (forall i: nat :: i >= n ==> EventsOf(t, i) == [])
  }

  /** When all calls have ended with their outcomes, every story is told. */
  lemma AllTold(t: Timeline, calls: seq<Call>, ts: Treatments, entries: seq<Option<Finalized>>, sent: seq<nat>,
                fs: seq<Finalized>)
    requires OnLine(t, calls, ts, entries, sent) && |fs| == |entries| && InOrder(fs, calls, ts, true)
    requires forall i :: 0 <= i < |fs| ==> entries[i] == Some(fs[i])
    ensures Interleaves(t, calls, ts, |fs|)
  {
    forall i: nat | i < |fs| ensures EventsOf(t, i) == WholeStory(calls[i], ts(i)) {
      assert OnTime(t, i, calls[i], ts(i), entries[i], sent[i]);
    }
  }

  /** A log continued by the first `n` of these result messages. */
  ghost function Delivered(log: Log, messages: seq<Message>, n: nat): (r: Log)
    requires n <= |messages|
  {
    if n == 0 then log
    else
      var m := messages[n - 1];
      Emitted(Emitted(Delivered(log, messages, n - 1), MessageStart(m), Nowhere), MessageEnd(m), Produced)
  }

  lemma OneDelivered(log: Log, m: Message)
    ensures Delivered(log, [m], 1) == Emitted(Emitted(log, MessageStart(m), Nowhere), MessageEnd(m), Produced)
  {
    assert Delivered(log, [m], 0) == log;
  }

  /** A call tells updates exactly if its tool is executed and has some; it tells all of them, between its start and
      its end. */
  lemma {:induction false} UpdatesTold(call: Call, t: Treatment, k: nat)
    requires k < |WholeStory(call, t)|
    ensures |WholeStory(call, t)| == 2 + (if GetsToRun(t, true) then |t.updates| else 0)
    ensures WholeStory(call, t)[k] ==
      if k == 0 then ToolStart(call)
      else if k == |WholeStory(call, t)| - 1 then ToolEnd(Outcome(call, t, true))
      else ToolUpdate(call, t.updates[k - 1])
  {
    OutcomeAnswers(call, t, true);
    UpdateEventsAt(call, t.updates, UpdatesDue(call, t));
  }

  lemma {:induction false} UpdateEventsAt(call: Call, updates: seq<string>, n: nat)
    requires n <= |updates|
    ensures |UpdateEvents(call, updates, n)| == n
    ensures forall k :: 0 <= k < n ==> UpdateEvents(call, updates, n)[k] == ToolUpdate(call, updates[k])
  {
    if n > 0 {
      UpdateEventsAt(call, updates, n - 1);
    }
  }

  /** A call of a sequential batch that is not executed leaves just its start, its end and its answer in the log. */
  lemma NoUpdatesUnlessRun(log: Log, call: Call, t: Treatment)
    requires !GetsToRun(t, false)
    ensures CallLog(log, call, t) ==
      Delivered(Emitted(Emitted(log, ToolStart(call), Nowhere), ToolEnd(Outcome(call, t, false)), Nowhere),
                [ResultMessage(Outcome(call, t, false))], 1)
  {
    OutcomeAnswers(call, t, false);
  }

  /** One that is executed has all its updates in the log, in order. */
  lemma AllUpdatesIfRun(log: Log, call: Call, t: Treatment)
    requires GetsToRun(t, false)
    ensures CallLog(log, call, t) ==
      Delivered(Emitted(Updated(Emitted(log, ToolStart(call), Nowhere), call, t.updates, |t.updates|),
                        ToolEnd(Outcome(call, t, false)), Nowhere),
                [ResultMessage(Outcome(call, t, false))], 1)
  {
    OutcomeAnswers(call, t, false);
  }

  /** The log of a parallel batch: the interleaved events of its calls, then the result messages in order. */
  ghost predicate ParallelLog(before: Log, after: Log, t: Timeline, calls: seq<Call>, ts: Treatments,
                              messages: seq<Message>)
    requires |messages| <= |calls|
  {
    Interleaves(t, calls, ts, |messages|) && after == Delivered(LogOf(before, t), messages, |messages|)
  }

  /** The log after the first `n` updates of a call, each announced once and in order. */
  ghost function Updated(log: Log, call: Call, updates: seq<string>, n: nat): Log
    requires n <= |updates|
  {
    if n == 0 then log else Emitted(Updated(log, call, updates, n - 1), ToolUpdate(call, updates[n - 1]), Nowhere)
  }

  /** The log after one call of a sequential batch: start, updates, end, result. */
  ghost function CallLog(log: Log, call: Call, t: Treatment): Log {
    var f := Outcome(call, t, false);
    var n := if Prepare(call, t).Prepared? then |t.updates| else 0;
    var updated := Updated(Emitted(log, ToolStart(call), Nowhere), call, t.updates, n);
    Delivered(Emitted(updated, ToolEnd(f), Nowhere), [ResultMessage(f)], 1)
  }

  /** The log of a sequential batch: one call after the other. */
  ghost function SequentialLog(log: Log, calls: seq<Call>, ts: Treatments, n: nat): (r: Log)
    requires n <= |calls|
  {
    if n == 0 then log else CallLog(SequentialLog(log, calls, ts, n - 1), calls[n - 1], ts(n - 1))
  }
}
