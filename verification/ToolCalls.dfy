// What becomes of one tool call: preparation, execution, the hooks around them, the result message.
module ToolCalls {
  import opened Wrappers
  import opened AgentEvents

  /** The verdict of the hook before a call. */
  datatype Verdict = Allowed | Blocked(reason: string, terminate: bool)

  /** What the hook after a call replaces. */
  datatype Override = Override(
    content: Option<seq<string>>, details: Option<string>, usage: Option<string>, terminate: Option<bool>,
    isError: Option<bool>)

  /** How the environment treats one call: its tool, its hooks (`None` is an absent hook, `Err` one
      that raises), and whether the abort signal is seen raised at each point where it is read. */
  datatype Treatment = Treatment(
    found: bool,
    sequentialTool: bool,
    invalid: Option<string>,
    before: Option<Result<Verdict, string>>,
    abortSeenPreparing: bool,
    abortSeenStarting: bool,
    abortSeenAfter: bool,
    updates: seq<string>,
    execution: Result<ToolResult, string>,
    after: Option<Result<Option<Override>, string>>)

  type Treatments = nat -> Treatment

  datatype Verdicted = Immediate(result: ToolResult) | Prepared

  function ErrorResult(message: string): ToolResult {
    ToolResult(Some([message]), "{}", None, [], None)
  }

  const ABORTED := "Operation aborted"

  function Prepare(call: Call, t: Treatment): (r: Verdicted) {
    if !t.found then Immediate(ErrorResult("Tool " + call.name + " not found"))
    else if t.invalid.Some? then Immediate(ErrorResult(t.invalid.value))
    else if t.before.Some? && t.before.value.Err? then Immediate(ErrorResult(t.before.value.error))
    else if t.abortSeenPreparing then Immediate(ErrorResult(ABORTED))
    else if t.before.Some? && t.before.value.value.Blocked? then
      var b := t.before.value.value;
      var result := ErrorResult(if b.reason == "" then "Tool execution was blocked" else b.reason);
      Immediate(if b.terminate then result.(terminate := Some(true)) else result)
    else Prepared
  }

  function Value<T>(a: Option<T>, b: T): T { if a.Some? then a.value else b }

  function Execute(call: Call, t: Treatment): (r: Finalized) {
    match t.execution
    case Ok(result) => Finalized(call, result, false)
    case Err(error) => Finalized(call, ErrorResult(error), true)
  }

  function Finalize(f: Finalized, t: Treatment): (r: Finalized)
    ensures r.call == f.call
  {
    match t.after
    case None => f
    case Some(Err(error)) => Finalized(f.call, ErrorResult(error), true)
    case Some(Ok(None)) => f
    case Some(Ok(Some(o))) =>
      var r := f.result;
      Finalized(f.call,
                ToolResult(Either(o.content, r.content), Value(o.details, r.details), Either(o.usage, r.usage),
                           r.addedToolNames, Either(o.terminate, r.terminate)),
                Value(o.isError, f.isError))
  }

  /** What a call comes to. In a parallel batch a prepared call still looks at the signal before it starts. */
  function Outcome(call: Call, t: Treatment, parallel: bool): (r: Finalized)
    ensures r.call == call
  {
    match Prepare(call, t)
    case Immediate(result) => Finalized(call, result, true)
    case Prepared =>
      if parallel && t.abortSeenStarting then Finalized(call, ErrorResult(ABORTED), true)
      else Finalize(Execute(call, t), t)
  }

  function ResultMessage(f: Finalized): (m: Message) {
    ToolAnswer(f.call.id, f.call.name, Value(f.result.content, []), f.result.details, f.result.usage,
               f.result.addedToolNames, f.isError)
  }

  predicate AsksToStop(f: Finalized) { f.result.terminate == Some(true) }

  function Messages(fs: seq<Finalized>): (r: seq<Message>)
    ensures |r| == |fs| && forall i :: 0 <= i < |r| ==> r[i] == ResultMessage(fs[i])
  {
    seq(|fs|, i requires 0 <= i < |fs| => ResultMessage(fs[i]))
  }

  function Calls(fs: seq<Finalized>): (r: seq<Call>)
    ensures |r| == |fs| && forall i :: 0 <= i < |r| ==> r[i] == fs[i].call
  {
    seq(|fs|, i requires 0 <= i < |fs| => fs[i].call)
  }

  predicate ShouldTerminate(fs: seq<Finalized>) {
    |fs| > 0 && forall i :: 0 <= i < |fs| ==> AsksToStop(fs[i])
  }

  /** The calls of a reply, in the order they stand in it. */
  function CallsOf(parts: seq<Part>): (r: seq<Call>) {
    if parts == [] then []
    else
      var p := parts[|parts| - 1];
      CallsOf(parts[..|parts| - 1]) + (if p.Invoke? then [p.call] else [])
  }

  /** A call that is not executed because its reply was cut off (the notice is abridged). */
  function Truncated(call: Call): Finalized {
    Finalized(call, ErrorResult("not executed: " + call.name), true)
  }

  // ---- What a call is answered with ----

  const BLOCKED := "Tool execution was blocked"

  /** The call gets to its hook: there is such a tool and it takes the arguments. */
  predicate Proper(t: Treatment) {
    t.found && t.invalid.None?
  }

  /** The hook before the call raises nothing. */
  predicate HookReturns(t: Treatment) {
    t.before.None? || t.before.value.Ok?
  }

  predicate IsBlocked(t: Treatment) {
    t.before.Some? && t.before.value.Ok? && t.before.value.value.Blocked?
  }

  /** The tool is executed: nothing stands in the way of the call, and in a parallel batch no abort is seen before it
      starts. */
  predicate GetsToRun(t: Treatment, parallel: bool) {
    Proper(t) && HookReturns(t) && !t.abortSeenPreparing && !IsBlocked(t) && !(parallel && t.abortSeenStarting)
  }

  /** An error message with just this text. */
  predicate Complains(m: Message, text: string) {
    m.ToolAnswer? && m.isError && m.content == [text] && m.details == "{}" && m.usage.None? && m.addedToolNames == []
  }

  /** The message carries this result, field by field. */
  predicate Carries(m: Message, r: ToolResult) {
    && m.ToolAnswer? && m.content == (if r.content.Some? then r.content.value else [])
    && m.details == r.details && m.usage == r.usage && m.addedToolNames == r.addedToolNames
  }

  /** What a hook after the call says wins over what the tool said, field by field. */
  predicate Overrides(m: Message, o: Override, r: ToolResult, isError: bool) {
    && m.ToolAnswer?
    && (o.content.Some? ==> m.content == o.content.value)
    && (o.content.None? ==> m.content == (if r.content.Some? then r.content.value else []))
    && (if o.details.Some? then m.details == o.details.value else m.details == r.details)
    && (if o.usage.Some? then m.usage == o.usage else m.usage == r.usage)
    && m.addedToolNames == r.addedToolNames
    && m.isError == (if o.isError.Some? then o.isError.value else isError)
  }

  /** A tool that was executed: the answer is its result or its error, unless the hook after it raises or overrides. */
  ghost predicate AnswersRun(m: Message, t: Treatment) {
    && (t.after.None? || t.after == Some(Ok(None)) ==>
          && (t.execution.Ok? ==> Carries(m, t.execution.value) && !m.isError)
          && (t.execution.Err? ==> Complains(m, t.execution.error)))
    && (t.after.Some? && t.after.value.Err? ==> Complains(m, t.after.value.error))
    && (t.after.Some? && t.after.value.Ok? && t.after.value.value.Some? ==>
          && (t.execution.Ok? ==> Overrides(m, t.after.value.value.value, t.execution.value, false))
          && (t.execution.Err? ==> Overrides(m, t.after.value.value.value, ErrorResult(t.execution.error), true)))
  }

  /** What a call must be answered with, told from how the environment treats it. The first thing that stands in its
      way is the answer. */
  ghost predicate Answers(m: Message, call: Call, t: Treatment, parallel: bool) {
    && m.ToolAnswer? && m.callId == call.id && m.toolName == call.name
    && (!t.found ==> Complains(m, "Tool " + call.name + " not found"))
    && (t.found && t.invalid.Some? ==> Complains(m, t.invalid.value))
    && (Proper(t) && !HookReturns(t) ==> Complains(m, t.before.value.error))
    && (Proper(t) && HookReturns(t) && t.abortSeenPreparing ==> Complains(m, ABORTED))
    && (Proper(t) && !t.abortSeenPreparing && IsBlocked(t) ==>
          Complains(m, if t.before.value.value.reason == "" then BLOCKED else t.before.value.value.reason))
    && (Proper(t) && HookReturns(t) && !t.abortSeenPreparing && !IsBlocked(t) && parallel && t.abortSeenStarting ==>
          Complains(m, ABORTED))
    && (GetsToRun(t, parallel) ==> AnswersRun(m, t))
  }

  /** The call asks the agent to stop: the hook that blocks it says so; or it was executed and the hook after it says
      so, or leaves it to the tool, which says so. */
  ghost predicate SaysStop(t: Treatment, parallel: bool) {
    if !GetsToRun(t, parallel) then
      Proper(t) && !t.abortSeenPreparing && IsBlocked(t) && t.before.value.value.terminate
    else if t.after.Some? && t.after.value.Err? then false
    else if t.after.Some? && t.after.value.value.Some? && t.after.value.value.value.terminate.Some? then
      t.after.value.value.value.terminate == Some(true)
    else t.execution.Ok? && t.execution.value.terminate == Some(true)
  }

  /** The outcome of a call is what its treatment calls for. */
  lemma OutcomeAnswers(call: Call, t: Treatment, parallel: bool)
    ensures Answers(ResultMessage(Outcome(call, t, parallel)), call, t, parallel)
    ensures AsksToStop(Outcome(call, t, parallel)) <==> SaysStop(t, parallel)
    ensures Prepare(call, t).Prepared? && !(parallel && t.abortSeenStarting) <==> GetsToRun(t, parallel)
  {
  }

  lemma PreparedIff(call: Call, t: Treatment)
    ensures Prepare(call, t).Prepared? <==> GetsToRun(t, false)
  {
  }

  /** Every message of a batch answers its call, and the batch asks to stop exactly if it ran some calls and all of
      them do. */
  ghost predicate BatchAnswers(b: Batch, calls: seq<Call>, ts: Treatments, parallel: bool) {
    && |b.messages| <= |calls|
    && (forall i: nat :: i < |b.messages| ==> Answers(b.messages[i], calls[i], ts(i), parallel))
    && (b.terminate <==> |b.messages| > 0 && forall i: nat :: i < |b.messages| ==> SaysStop(ts(i), parallel))
  }

  lemma IsBatchAnswers(b: Batch, calls: seq<Call>, ts: Treatments, parallel: bool)
    requires IsBatch(b, calls, ts, parallel)
    ensures BatchAnswers(b, calls, ts, parallel)
  {
    forall i: nat | i < |b.messages|
      ensures Answers(b.messages[i], calls[i], ts(i), parallel)
      ensures AsksToStop(Outcome(calls[i], ts(i), parallel)) <==> SaysStop(ts(i), parallel)
    {
      OutcomeAnswers(calls[i], ts(i), parallel);
    }
  }

  /** The number of calls among the first `n` parts of a reply. */
  function CallsAmong(parts: seq<Part>, n: nat): (k: nat)
    requires n <= |parts|
  {
    if n == 0 then 0 else CallsAmong(parts, n - 1) + (if parts[n - 1].Invoke? then 1 else 0)
  }

  /** The calls of a reply are all of its call parts, in the order they stand in it. */
  lemma {:induction false} CallsOfAll(parts: seq<Part>)
    ensures |CallsOf(parts)| == CallsAmong(parts, |parts|)
    ensures forall i: nat :: i < |parts| && parts[i].Invoke? ==>
      CallsAmong(parts, i) < |CallsOf(parts)| && CallsOf(parts)[CallsAmong(parts, i)] == parts[i].call
  {
    if parts != [] {
      var n := |parts| - 1;
      var init := parts[..n];
      CallsOfAll(init);
      forall i: nat | i <= n ensures CallsAmong(parts, i) == CallsAmong(init, i) {
        CallsAmongPrefix(parts, init, i);
      }
      forall i: nat | i < |parts| && parts[i].Invoke?
        ensures CallsAmong(parts, i) < |CallsOf(parts)| && CallsOf(parts)[CallsAmong(parts, i)] == parts[i].call
      {
        if i < n {
          assert init[i] == parts[i];
        }
      }
    }
  }

  lemma {:induction false} CallsAmongPrefix(a: seq<Part>, b: seq<Part>, n: nat)
    requires n <= |a| && n <= |b| && forall i :: 0 <= i < n ==> a[i] == b[i]
    ensures CallsAmong(a, n) == CallsAmong(b, n)
  {
    if n > 0 {
      CallsAmongPrefix(a, b, n - 1);
    }
  }

  // ---- Batches ----

  /** `n` of the `total` calls are run: all of them, or up to the first after which an abort is seen. */
  ghost predicate RunsUpTo(n: nat, total: nat, ts: Treatments) {
    && n <= total
    && (n < total ==> n > 0 && ts(n - 1).abortSeenAfter)
    && forall i: nat :: i + 1 < n ==> !ts(i).abortSeenAfter
  }

  datatype Batch = Batch(messages: seq<Message>, terminate: bool)

  /** The outcomes are those of the calls, one by one and in their order. */
  ghost predicate InOrder(fs: seq<Finalized>, calls: seq<Call>, ts: Treatments, parallel: bool) {
    && |fs| <= |calls|
    && forall i :: 0 <= i < |fs| ==> fs[i] == Outcome(calls[i], ts(i), parallel)
  }

  /** What a batch must come to, whatever the order in which its calls complete. */
  ghost predicate IsBatch(b: Batch, calls: seq<Call>, ts: Treatments, parallel: bool) {
    && RunsUpTo(|b.messages|, |calls|, ts)
    && (forall i :: 0 <= i < |b.messages| ==> b.messages[i] == ResultMessage(Outcome(calls[i], ts(i), parallel)))
    && (b.terminate <==>
        |b.messages| > 0 && forall i :: 0 <= i < |b.messages| ==> AsksToStop(Outcome(calls[i], ts(i), parallel)))
  }

  /** The outcomes behind the messages of a batch. */
  ghost function Outcomes(n: nat, calls: seq<Call>, ts: Treatments, parallel: bool): (fs: seq<Finalized>)
    requires n <= |calls|
    ensures |fs| == n && InOrder(fs, calls, ts, parallel)
  {
    seq(n, i requires 0 <= i < n => Outcome(calls[i], ts(i), parallel))
  }

  ghost function AllTruncated(calls: seq<Call>): (fs: seq<Finalized>)
    ensures |fs| == |calls| && forall i :: 0 <= i < |fs| ==> fs[i] == Truncated(calls[i])
  {
    seq(|calls|, i requires 0 <= i < |calls| => Truncated(calls[i]))
  }

  lemma BatchFrom(fs: seq<Finalized>, calls: seq<Call>, ts: Treatments, parallel: bool)
    requires InOrder(fs, calls, ts, parallel) && RunsUpTo(|fs|, |calls|, ts)
    ensures IsBatch(Batch(Messages(fs), ShouldTerminate(fs)), calls, ts, parallel)
    ensures fs == Outcomes(|fs|, calls, ts, parallel)
  {
  }

  ghost predicate AbortNeverSeen(ts: Treatments, n: nat) {
    forall i: nat :: i < n ==> !ts(i).abortSeenPreparing && !ts(i).abortSeenStarting && !ts(i).abortSeenAfter
  }

  lemma SameLength(m: nat, n: nat, total: nat, ts: Treatments)
    requires RunsUpTo(m, total, ts) && RunsUpTo(n, total, ts)
    ensures m == n
  {
  }

  /** How many calls are run, counting from the `k`-th. */
  ghost function Ran(k: nat, total: nat, ts: Treatments): (n: nat)
    requires k <= total
    ensures k <= n <= total && (n < total ==> n > k && ts(n - 1).abortSeenAfter)
    ensures forall i: nat :: k <= i && i + 1 < n ==> !ts(i).abortSeenAfter
    decreases total - k
  {
    if k == total then total else if ts(k).abortSeenAfter then k + 1 else Ran(k + 1, total, ts)
  }

  /** Whether a batch asks to stop: some calls were run and all of them ask to. */
  ghost predicate Terminates(calls: seq<Call>, ts: Treatments, parallel: bool) {
    ShouldTerminate(Outcomes(Ran(0, |calls|, ts), calls, ts, parallel))
  }

  lemma BatchTerminates(b: Batch, calls: seq<Call>, ts: Treatments, parallel: bool)
    requires IsBatch(b, calls, ts, parallel)
    ensures b.terminate == Terminates(calls, ts, parallel)
  {
    SameLength(|b.messages|, Ran(0, |calls|, ts), |calls|, ts);
  }

  lemma SameMessages(ms: seq<Message>, fs: seq<Finalized>)
    requires |ms| == |fs| && forall i :: 0 <= i < |fs| ==> ms[i] == ResultMessage(fs[i])
    ensures ms == Messages(fs)
  {
  }

  lemma MessagesInOrder(ms: seq<Message>, fs: seq<Finalized>, calls: seq<Call>, ts: Treatments, parallel: bool)
    requires |ms| == |fs| && InOrder(fs, calls, ts, parallel)
    requires forall i :: 0 <= i < |ms| ==> ms[i] == ResultMessage(Outcome(calls[i], ts(i), parallel))
    ensures ms == Messages(fs)
  {
    SameMessages(ms, fs);
  }

  lemma BatchMessages(b: Batch, calls: seq<Call>, ts: Treatments, parallel: bool)
    requires IsBatch(b, calls, ts, parallel)
    ensures b.messages == Messages(Outcomes(Ran(0, |calls|, ts), calls, ts, parallel))
  {
    var n := Ran(0, |calls|, ts);
    SameLength(|b.messages|, n, |calls|, ts);
    MessagesInOrder(b.messages, Outcomes(n, calls, ts, parallel), calls, ts, parallel);
  }

  /** Two runs of a batch come to the same, in whatever order their calls completed. */
  lemma CompletionOrderIsInvisible(a: Batch, b: Batch, calls: seq<Call>, ts: Treatments, parallel: bool)
    requires IsBatch(a, calls, ts, parallel) && IsBatch(b, calls, ts, parallel)
    ensures a == b
  {
    SameLength(|a.messages|, |b.messages|, |calls|, ts);
    assert a.messages == b.messages;
  }

  /** A batch whose signal is never seen raised has one result for every call. */
  lemma UnabortedRunsAll(b: Batch, calls: seq<Call>, ts: Treatments, parallel: bool)
    requires IsBatch(b, calls, ts, parallel) && AbortNeverSeen(ts, |calls|)
    ensures |b.messages| == |calls|
  {
  }

  /** Without an abort, parallel and sequential batches come to the same. */
  lemma ModesAgree(sequential: Batch, parallel: Batch, calls: seq<Call>, ts: Treatments)
    requires IsBatch(sequential, calls, ts, false) && IsBatch(parallel, calls, ts, true)
    requires AbortNeverSeen(ts, |calls|)
    ensures sequential == parallel
  {
    UnabortedRunsAll(sequential, calls, ts, false);
    UnabortedRunsAll(parallel, calls, ts, true);
    forall i: nat | i < |calls| ensures Outcome(calls[i], ts(i), true) == Outcome(calls[i], ts(i), false) {
    }
    assert sequential.messages == parallel.messages;
  }
}
