// What a turn of the agent comes to, told from the reply of the model and from how its calls are treated.
module AgentTurns {
  import opened Wrappers
  import opened AgentEvents
  import opened MessageQueue
  import opened ToolCalls
  import opened ToolBatches
  import opened AgentPlay
  import opened AgentRunning

  // ---- What a response leaves behind ----

  /** Nothing among the first `n` events finishes the stream. */
  ghost predicate Unfinished(stream: seq<StreamStep>, n: nat)
    requires n <= |stream|
  {
    forall j :: 0 <= j < n ==> stream[j] != Finish
  }

  /** A stream is listened to until its first `done` or `error`. */
  lemma {:induction false} HeardMeans(stream: seq<StreamStep>, k: nat)
    requires k <= |stream|
    ensures var n := Heard(stream, k);
      (n == |stream| || stream[n] == Finish) && forall j :: k <= j < n ==> stream[j] != Finish
    decreases |stream| - k
  {
    if k < |stream| && stream[k] != Finish {
      HeardMeans(stream, k + 1);
    }
  }

  /** A partial message stands in the context as it was last told: the last one by the last event, an earlier one by
      the event just before the `start` of the next. */
  lemma {:induction false} PartialsMean(stream: seq<StreamStep>, k: nat)
    requires k <= |stream| && Unfinished(stream, k)
    ensures StartsIn(stream, k) > 0 ==>
      Partials(stream, k)[StartsIn(stream, k) - 1] == Assistant(stream[k - 1].partial)
    ensures forall j: nat :: j < k && stream[j].Begin? && StartsIn(stream, j) > 0 ==>
      && StartsIn(stream, j) < StartsIn(stream, k)
      && Partials(stream, k)[StartsIn(stream, j) - 1] == Assistant(stream[j - 1].partial)
  {
    if k > 0 {
      PartialsMean(stream, k - 1);
    }
  }

  /** What a whole response leaves in the context: its reply last, and before it one message for every `start` that was
      followed by another, as it was last told. */
  lemma TrailMeans(r: Response)
    ensures var trail, n := Trail(r), Heard(r.stream, 0);
      && |trail| > 0 && trail[|trail| - 1] == Assistant(r.reply)
      && forall j: nat :: j < n && r.stream[j].Begin? && StartsIn(r.stream, j) > 0 ==>
           && StartsIn(r.stream, j) < |trail| && r.stream[j - 1] != Finish
           && trail[StartsIn(r.stream, j) - 1] == Assistant(r.stream[j - 1].partial)
  {
    var n := Heard(r.stream, 0);
    HeardMeans(r.stream, 0);
    PartialsMean(r.stream, n);
  }

  // ---- What a turn says ----

  predicate Failed(reply: Reply) { reply.stopReason in {Failure, Aborted} }

  /** Each outcome is that of its call, as the environment treats it; all calls are run, or those up to the first after
      which an abort is seen. */
  ghost predicate Answered(fs: seq<Finalized>, calls: seq<Call>, ts: Treatments, parallel: bool) {
    && RunsUpTo(|fs|, |calls|, ts)
    && forall i: nat :: i < |fs| ==> fs[i].call == calls[i] && Answers(ResultMessage(fs[i]), calls[i], ts(i), parallel)
  }

  /** The batch is run one call after the other: the agent is set so, or one of the tools called is. */
  ghost predicate OneByOne(turn: TurnScript, calls: seq<Call>) {
    turn.sequential || exists i: nat :: i < |calls| && turn.treatments(i).sequentialTool
  }

  ghost predicate AllSayStop(n: nat, ts: Treatments, parallel: bool) {
    n > 0 && forall i: nat :: i < n ==> SaysStop(ts(i), parallel)
  }

  /** What comes of a reply. One that failed or was aborted runs no call and ends the run. One that was cut off answers
      every call with an error and asks again. Any other has its calls treated one by one, and asks again exactly if it
      made some and not all that were run say to stop. Nothing but a failure or the callback ends the run. */
  lemma SpokenMeans(turn: TurnScript, sent: seq<Message>)
    ensures var said, reply := SpokenOf(turn, sent), turn.respond(sent).reply;
      var calls := CallsOf(reply.content);
      var parallel := !OneByOne(turn, calls);
      && said.reply == Assistant(reply)
      && (said.stops <==> Failed(reply) || turn.stop)
      && (Failed(reply) ==> said.outcomes == [])
      && (reply.stopReason == Length ==>
            && |said.outcomes| == |calls| && (said.wantsMore <==> calls != [])
            && forall i: nat :: i < |calls| ==>
                 said.outcomes[i].call == calls[i] && ResultMessage(said.outcomes[i]).isError)
      && (!Failed(reply) && reply.stopReason != Length ==>
            && Answered(said.outcomes, calls, turn.treatments, parallel)
            && (said.wantsMore <==> calls != [] && !AllSayStop(|said.outcomes|, turn.treatments, parallel)))
  {
    hide Answers, SaysStop, Outcomes, Terminates, CallsOf, Ran, Trail;
    var reply := turn.respond(sent).reply;
    var calls := CallsOf(reply.content);
    if !Failed(reply) && reply.stopReason != Length && calls != [] {
      BatchMeans(turn, calls);
    }
  }

  lemma BatchMeans(turn: TurnScript, calls: seq<Call>)
    ensures var ts, parallel := turn.treatments, !OneByOne(turn, calls);
      var fs := BatchOutcomes(calls, ts, turn.sequential, false);
      && Answered(fs, calls, ts, parallel)
      && (AsksAgain(calls, ts, turn.sequential, false) <==> !AllSayStop(|fs|, ts, parallel))
  {
    hide Outcome, Answers, SaysStop, AsksToStop, ResultMessage;
    var ts, parallel := turn.treatments, !OneByOne(turn, calls);
    var fs := BatchOutcomes(calls, ts, turn.sequential, false);
    forall i: nat | i < |fs|
      ensures Answers(ResultMessage(fs[i]), calls[i], ts(i), parallel)
      ensures AsksToStop(fs[i]) <==> SaysStop(ts(i), parallel)
    {
      OutcomeAnswers(calls[i], ts(i), parallel);
    }
  }
}
