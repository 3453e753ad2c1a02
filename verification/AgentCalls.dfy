// Asking the agent for a run: a prompt, or going on from the transcript as it stands.
module AgentCalls {
  import opened Wrappers
  import opened AgentEvents
  import opened MessageQueue
  import opened ToolCalls
  import opened ToolBatches
  import opened AgentPlay
  import opened AgentRunning

  ghost predicate Sound(agent: Agent)
    reads agent, agent.steering, agent.followUps
  {
    && agent.steering != agent.followUps && agent.steering.Valid() && agent.followUps.Valid()
    && (!agent.running ==> agent.state.pendingToolCalls == {})
  }

  /** How far a run came: the turns played, where the play of those turns leads, and the queue from which the
      messages come that are drained but not entered yet. */
  datatype Course = Course(turns: nat, end: Play, from: Origin)

  /** What holds of every run, at its end or while it goes on: */
  ghost predicate Report(agent: Agent, base: seq<Message>, steeredBefore: seq<Message>, followedBefore: seq<Message>,
                         rest: seq<Message>, from: Origin)
    reads agent, agent.steering, agent.followUps
  {
    var v := ViewOf(agent.log);
    // the transcript grew by exactly the messages that ended;
    && v.base == base && agent.state.messages == base + v.ended
    // turns alternate between one start and one end of the run;
    && v.stage != Disordered
    // no message is left open, and every `turn_end` told its own turn;
    && !v.bracket.Open? && v.told
    // whatever was drained from a queue entered once and in the order it was queued, or still waits;
    && Drained(agent.steering.gone) == steeredBefore + v.steering + Waiting(rest, from, Steering)
    && Drained(agent.followUps.gone) == followedBefore + v.followUps + Waiting(rest, from, FollowUp)
    // and unless the steering queue was drained all at once, no turn took more than one of its messages.
    && (!agent.steering.bulk ==> !v.crowded)
  }

  /** The run is where its play leads: just these messages entered, just these of them come from no queue, just
      these requests were made, just these calls and outcomes announced, just so many turns marked, and messages
      were bracketed or not as the play says; just these messages are left in the queues; and the run is over
      exactly if and when the play is. */
  ghost predicate Comes(agent: Agent, p: Play, script: Script, c: Course, finished: bool)
    reads agent, agent.steering, agent.followUps
  {
    && Shows(ViewOf(agent.log), c.end.scene) && QueuesOf(agent) == c.end.queues && c.turns <= |script.turns|
    && if finished then IsOver(p, BeatsOf(script.turns), c.turns, c.end)
       else c.turns == |script.turns| && Stands(p, BeatsOf(script.turns), c.turns, c.end)
  }

  /** The log shows what the play says was done. */
  ghost predicate Shows(v: View, s: Scene) {
    && v.base == s.base && v.ended == s.entered && v.others == s.own && v.asked == s.asked
    && (v.bracket == Shut <==> s.bracketed) && v.started == s.started && v.finished == s.finished
    && TurnsOf(v.stage) == s.turns
  }

  ghost function QueuesOf(agent: Agent): Queues
    reads agent, agent.steering, agent.followUps
  {
    Queues(agent.steering.messages, agent.steering.mode, agent.followUps.messages, agent.followUps.mode)
  }

  /** A run that begins with these prompts and these queues. */
  ghost function Begun(q: Queues, base: seq<Message>, prompts: seq<Message>, origin: Origin): Play {
    Play(q, [],
         Scene(base, prompts, OwnPrompts(prompts, origin), base + prompts, [], true, [], multiset{}, 0), false)
  }

  /** Steering messages are taken one at a time, at the start and whatever others ask for. */
  ghost predicate OneByOne(mode: Mode, script: Script) {
    mode == OneAtATime && GentleScript(script)
  }

  /** What holds once a run is over. */
  ghost predicate Over(agent: Agent)
    reads agent
  {
    var v := ViewOf(agent.log);
    && v.stage.Over? && v.final == Some(v.ended)
    && !agent.running && !agent.state.isStreaming && agent.state.streamingMessage == None
    && agent.state.pendingToolCalls == {}
  }

  /** The play has not begun. */
  ghost predicate Fresh(p: Play, base: seq<Message>) {
    && p.scene.base == base && p.scene.context == base + p.scene.entered && p.scene.asked == []
    && p.scene.bracketed && p.scene.started == [] && p.scene.finished == multiset{} && p.scene.turns == 0
  }

  /** No response to the first `n` requests that were made brings a second `start`. */
  ghost predicate SingleStarts(turns: seq<TurnScript>, asked: seq<Request>, n: nat)
    requires n <= |turns| && n <= |asked|
  {
    forall k: nat :: k < n ==> Starts(turns[k].respond(asked[k].sent).stream) <= 1
  }

  /** No callback replaces the context before the first `n` turns; the first turn has no callback. */
  ghost predicate NeverReplaced(turns: seq<TurnScript>, n: nat)
    requires n <= |turns|
  {
    forall k: nat :: 0 < k < n ==> turns[k].replacement.None?
  }

  /** What the log says of turns, brackets and requests, decided by the script: just the turns played are marked,
      and each made one request; every message is closed by its own end before the next one starts if and only if
      no response brought a second `start`; and if besides no callback replaced the context, every request sent the
      transcript as it stood. */
  ghost predicate Faithful(v: View, turns: seq<TurnScript>, n: nat) {
    && n <= |turns| && |v.asked| == n && TurnsOf(v.stage) == n
    && (v.bracket == Shut <==> SingleStarts(turns, v.asked, n))
    && (NeverReplaced(turns, n) && v.bracket == Shut ==>
          forall k :: 0 <= k < n ==> v.asked[k].sent == v.asked[k].stood)
  }

  /** Everything promised of a run. */
  ghost predicate Promised(agent: Agent, base: seq<Message>, steeredBefore: seq<Message>, followedBefore: seq<Message>,
                           p: Play, script: Script, c: Course, finished: bool, gentle: bool)
    reads agent, agent.steering, agent.followUps
  {
    && Report(agent, base, steeredBefore, followedBefore, c.end.waiting, c.from)
    && Comes(agent, p, script, c, finished) && Faithful(ViewOf(agent.log), script.turns, c.turns)
    && (finished ==> c.end.waiting == [] && Over(agent))
    && (gentle ==> !ViewOf(agent.log).crowded)
  }

  /** In words. The transcript is the old one and the messages that entered, of which every one is a prompt, a
      reply or result of the turns played, or drained from a queue, each counted once. */
  lemma PromisedMeans(agent: Agent, base: seq<Message>, steeredBefore: seq<Message>, followedBefore: seq<Message>,
                      p: Play, script: Script, c: Course, finished: bool, gentle: bool)
    requires Promised(agent, base, steeredBefore, followedBefore, p, script, c, finished, gentle)
    ensures var v := ViewOf(agent.log);
      && agent.state.messages == base + v.ended && p.scene.entered <= v.ended
      && multiset(v.ended) == multiset(v.steering) + multiset(v.followUps) + multiset(v.others)
      && c.turns <= |script.turns| && v.others == p.scene.own + ProducedBy(p, BeatsOf(script.turns), c.turns)
  {
    var beats := BeatsOf(script.turns);
    OwnMessages(p, beats, c.turns);
    EnteredGrows(p, beats, c.turns);
    EveryPayloadIsCounted(agent.log);
  }

  /** The calls announced are those of the turns played, in order, and each outcome once; the turns marked are the
      turns played. */
  lemma TurnsAndCallsAreTold(agent: Agent, base: seq<Message>, steeredBefore: seq<Message>,
                             followedBefore: seq<Message>, p: Play, script: Script, c: Course, finished: bool,
                             gentle: bool)
    requires Promised(agent, base, steeredBefore, followedBefore, p, script, c, finished, gentle) && Fresh(p, base)
    ensures var v := ViewOf(agent.log);
      && TurnsOf(v.stage) == c.turns <= |script.turns| && (finished ==> v.stage == AgentEvents.Over(c.turns))
      && v.started == Calls(OutcomesBy(p, BeatsOf(script.turns), c.turns))
      && v.finished == multiset(OutcomesBy(p, BeatsOf(script.turns), c.turns))
  {
    var beats := BeatsOf(script.turns);
    TurnsAreCounted(p, beats, c.turns);
    CallsAnnounced(p, beats, c.turns);
    assert [] + Calls(OutcomesBy(p, beats, c.turns)) == Calls(OutcomesBy(p, beats, c.turns));
  }

  lemma AskedInOrder(p: Play, beats: seq<Beat>, n: nat)
    requires n <= |beats| && p.scene.asked == []
    ensures var asked := Played(p, beats, n).scene.asked;
      |asked| == n && forall k: nat :: k < n ==> asked[k] == RequestIn(p, beats, k)
  {
    hide *;
    OneRequestPerTurn(p, beats, n);
    assert [] + Requests(p, beats, n) == Requests(p, beats, n);
    forall k: nat | k < n ensures Requests(p, beats, n)[k] == RequestIn(p, beats, k) {
      RequestsInOrder(p, beats, n, k);
    }
  }

  lemma BracketsAsSaid(p: Play, turns: seq<TurnScript>, n: nat)
    requires n <= |turns| && p.scene.asked == [] && p.scene.bracketed
    ensures var s := Played(p, BeatsOf(turns), n).scene;
      |s.asked| == n && (s.bracketed <==> SingleStarts(turns, s.asked, n))
  {
    var beats := BeatsOf(turns);
    var s := Played(p, beats, n).scene;
    AskedInOrder(p, beats, n);
    BracketedIff(p, beats, n);
    forall k: nat | k < n
      ensures |Said(p, beats, k).trail| <= 1 <==> Starts(turns[k].respond(s.asked[k].sent).stream) <= 1
    {
      assert s.asked[k].sent == Sent(p, beats, k);
      assert beats[k] == BeatOf(turns[k]);
      assert Said(p, beats, k) == SpokenOf(turns[k], Sent(p, beats, k));
    }
  }

  lemma RequestsAreFaithful(p: Play, turns: seq<TurnScript>, n: nat, base: seq<Message>)
    requires n <= |turns| && Fresh(p, base) && NeverReplaced(turns, n)
    ensures var s := Played(p, BeatsOf(turns), n).scene;
      |s.asked| == n && (s.bracketed ==> forall k :: 0 <= k < n ==> s.asked[k].sent == s.asked[k].stood)
  {
    var beats := BeatsOf(turns);
    var s := Played(p, beats, n).scene;
    AskedInOrder(p, beats, n);
    if s.bracketed {
      BeatsLeaveThemselves(turns);
      RequestsSendTheTranscript(p, beats, n);
      forall k: nat | k < n ensures s.asked[k].sent == s.asked[k].stood {
        assert InStep(Poised(Played(p, beats, k), beats[k], k == 0).scene);
        PoisedKeepsBase(p, beats, k);
      }
    }
  }

  /** Whatever is played, the log that shows it is faithful to the script. */
  lemma PlayIsFaithful(v: View, p: Play, turns: seq<TurnScript>, n: nat, base: seq<Message>)
    requires n <= |turns| && Fresh(p, base) && Shows(v, Played(p, BeatsOf(turns), n).scene)
    ensures Faithful(v, turns, n)
  {
    TurnsAreCounted(p, BeatsOf(turns), n);
    BracketsAsSaid(p, turns, n);
    if NeverReplaced(turns, n) && v.bracket == Shut {
      RequestsAreFaithful(p, turns, n, base);
    }
  }

  lemma BeatsLeaveThemselves(turns: seq<TurnScript>)
    ensures forall k: nat :: k < |turns| ==> LeavesItself(BeatsOf(turns)[k])
  {
    forall k: nat | k < |turns| ensures LeavesItself(BeatsOf(turns)[k]) {
      assert BeatsOf(turns)[k] == BeatOf(turns[k]);
    }
  }

  lemma PoisedKeepsBase(p: Play, beats: seq<Beat>, k: nat)
    requires k < |beats| && p.scene.asked == []
    ensures Poised(Played(p, beats, k), beats[k], k == 0).scene.base == p.scene.base
  {
    OneRequestPerTurn(p, beats, k);
  }

  /** A run whose books are balanced reports well. */
  lemma ValidReports(run: AgentRun, rest: seq<Message>)
    requires run.Valid(rest) && run.StageNow() != Disordered
    ensures Report(run.agent, run.base, run.steeredBefore, run.followedBefore, rest, run.from)
    ensures run.gentle ==> !ViewOf(run.agent.log).crowded
    ensures run.newMessages == ViewOf(run.agent.log).ended
  {
  }

  method BeginRun(agent: Agent, prompts: seq<Message>, skip: bool, ghost origin: Origin,
                  ghost steeredBefore: seq<Message>, ghost followedBefore: seq<Message>, ghost gentle: bool)
    returns (run: AgentRun)
    requires Sound(agent) && !agent.running
    requires Drained(agent.steering.gone) == steeredBefore + Waiting(prompts, origin, Steering)
    requires Drained(agent.followUps.gone) == followedBefore + Waiting(prompts, origin, FollowUp)
    requires !agent.steering.bulk ==> |Waiting(prompts, origin, Steering)| <= 1
    requires gentle ==> agent.steering.mode == OneAtATime && !agent.steering.bulk
    requires skip || origin != Steering
    modifies agent
    ensures fresh(run) && run.agent == agent && run.Valid([]) && run.pending == [] && run.StageNow() == Busy(0)
    ensures run.base == old(agent.state.messages) && run.gentle == gentle
    ensures run.steeredBefore == steeredBefore && run.followedBefore == followedBefore
    ensures run.skipInitialSteeringPoll == skip && (skip || ViewOf(agent.log).steeredNow == 0)
    ensures run.Here(false) == Begun(old(QueuesOf(agent)), run.base, prompts, origin)
    ensures Fresh(run.Here(false), run.base)
  {
    agent.running := true;
    agent.state := agent.state.(isStreaming := true, streamingMessage := None, errorMessage := None);
    agent.log := Nothing(agent.state.messages);
    run := new AgentRun(agent, prompts, skip, steeredBefore, followedBefore, gentle);
    run.Start(prompts, origin);
  }

  method FinishRun(agent: Agent)
    modifies agent`state, agent`running
    ensures !agent.running
    ensures agent.state == old(agent.state).(isStreaming := false, streamingMessage := None, pendingToolCalls := {})
  {
    agent.state := agent.state.(isStreaming := false, streamingMessage := None, pendingToolCalls := {});
    agent.running := false;
  }

  method PlayRun(run: AgentRun, script: Script) returns (finished: bool, ghost c: Course)
    requires run.Valid([]) && run.pending == [] && run.StageNow() == Busy(0) && (run.gentle ==> GentleScript(script))
    requires run.skipInitialSteeringPoll || ViewOf(run.agent.log).steeredNow == 0
    requires Fresh(run.Here(false), run.base)
    modifies run, run.agent`state, run.agent`log, run.agent.steering, run.agent.followUps
    ensures run.Valid(run.pending) && run.StageNow() != Disordered && (finished ==> run.Finished())
    ensures c.end.waiting == run.pending && c.from == run.from
    ensures Faithful(ViewOf(run.agent.log), script.turns, c.turns)
    ensures Comes(run.agent, Opened(old(run.Here(false)), script.opening, old(run.skipInitialSteeringPoll)), script, c,
                  finished)
  {
    var t;
    ghost var p := Opened(run.Here(false), script.opening, run.skipInitialSteeringPoll);
    finished, t := run.RunLoop(script);
    c := Course(t, run.Here(finished), run.from);
    ValidReports(run, run.pending);
    PlayIsFaithful(ViewOf(run.agent.log), p, script.turns, t, run.base);
  }

  method RunPromptMessages(agent: Agent, prompts: seq<Message>, skip: bool, script: Script, ghost origin: Origin,
                           ghost steeredBefore: seq<Message>, ghost followedBefore: seq<Message>, ghost gentle: bool)
    returns (finished: bool, ghost c: Course)
    requires Sound(agent) && !agent.running
    requires Drained(agent.steering.gone) == steeredBefore + Waiting(prompts, origin, Steering)
    requires Drained(agent.followUps.gone) == followedBefore + Waiting(prompts, origin, FollowUp)
    requires !agent.steering.bulk ==> |Waiting(prompts, origin, Steering)| <= 1
    requires gentle ==> OneByOne(agent.steering.mode, script) && !agent.steering.bulk
    requires skip || origin != Steering
    modifies agent, agent.steering, agent.followUps
    ensures Sound(agent)
    ensures Promised(agent, old(agent.state.messages), steeredBefore, followedBefore,
                     Opened(Begun(old(QueuesOf(agent)), old(agent.state.messages), prompts, origin), script.opening,
                            skip),
                     script, c, finished, gentle)
  {
    hide Faithful, Stands, IsOver, Opened, Shows, Balanced;
    var run := BeginRun(agent, prompts, skip, origin, steeredBefore, followedBefore, gentle);
    finished, c := PlayRun(run, script);
    ValidReports(run, run.pending);
    if finished {
      FinishRun(agent);
    }
  }

  const BUSY := "Agent is already processing."

  /** A prompt of one or more messages. */
  method Prompt(agent: Agent, messages: seq<Message>, script: Script)
    returns (r: Result<bool, string>, ghost c: Course)
    requires Sound(agent)
    modifies agent, agent.steering, agent.followUps
    ensures r.Err? <==> old(agent.running)
    ensures Sound(agent)
    ensures r.Ok? ==>
      Promised(agent, old(agent.state.messages), old(Drained(agent.steering.gone)), old(Drained(agent.followUps.gone)),
               Opened(Begun(old(QueuesOf(agent)), old(agent.state.messages), messages, Prompted), script.opening,
                      false),
               script, c, r.value, OneByOne(old(agent.steering.mode), script))
  {
    hide Promised, Opened;
    c := Course(0, Begun(QueuesOf(agent), agent.state.messages, messages, Prompted), Nowhere);
    if agent.running {
      return Err(BUSY), c;
    }
    agent.steering.bulk := false;
    var finished;
    finished, c := RunPromptMessages(agent, messages, false, script, Prompted, Drained(agent.steering.gone),
                                     Drained(agent.followUps.gone), OneByOne(agent.steering.mode, script));
    r := Ok(finished);
  }

  /** What a continued run begins with: nothing new, or what is queued behind a reply. */
  ghost function Resumed(q: Queues, transcript: seq<Message>): Play {
    if transcript == [] || !transcript[|transcript| - 1].Assistant? then Begun(q, transcript, [], Prompted)
    else if q.steering != [] then
      Begun(q.(steering := Kept(q.steering, q.steeringMode)), transcript, Taken(q.steering, q.steeringMode), Steering)
    else
      Begun(q.(followUps := Kept(q.followUps, q.followUpMode)), transcript, Taken(q.followUps, q.followUpMode),
            FollowUp)
  }

  /** A run that begins with steering messages skips its first poll, or its first turn would take two. */
  predicate SkipsPoll(q: Queues, transcript: seq<Message>) {
    transcript != [] && transcript[|transcript| - 1].Assistant? && q.steering != []
  }

  /** There is nothing to go on from: no transcript, or a reply with nothing queued behind it. */
  predicate CannotContinue(q: Queues, transcript: seq<Message>) {
    transcript == [] || (transcript[|transcript| - 1].Assistant? && q.steering == [] && q.followUps == [])
  }

  /** Going on: from queued messages after a reply, from the transcript itself otherwise. */
  method Continue(agent: Agent, script: Script) returns (r: Result<bool, string>, ghost c: Course)
    requires Sound(agent)
    modifies agent, agent.steering, agent.followUps
    ensures Sound(agent)
    ensures r.Ok? ==>
      var q, transcript := old(QueuesOf(agent)), old(agent.state.messages);
      Promised(agent, transcript, old(Drained(agent.steering.gone)), old(Drained(agent.followUps.gone)),
               Opened(Resumed(q, transcript), script.opening, SkipsPoll(q, transcript)), script, c, r.value,
               OneByOne(q.steeringMode, script))
    ensures r.Err? == (old(agent.running) || CannotContinue(old(QueuesOf(agent)), old(agent.state.messages)))
    ensures r.Err? ==>
      && Drained(agent.steering.gone) == old(Drained(agent.steering.gone))
      && Drained(agent.followUps.gone) == old(Drained(agent.followUps.gone))
      && agent.state == old(agent.state) && QueuesOf(agent) == old(QueuesOf(agent))
  {
    hide Promised, Opened;
    c := Course(0, Begun(QueuesOf(agent), agent.state.messages, [], Prompted), Nowhere);
    if agent.running {
      return Err(BUSY), c;
    }
    if |agent.state.messages| == 0 {
      return Err("No messages to continue from"), c;
    }
    if agent.state.messages[|agent.state.messages| - 1].Assistant? {
      r, c := ContinueFromQueues(agent, script);
    } else {
      r, c := ContinueFromTranscript(agent, script);
    }
  }

  method ContinueFromTranscript(agent: Agent, script: Script) returns (r: Result<bool, string>, ghost c: Course)
    requires Sound(agent) && !agent.running
    requires agent.state.messages != [] && !agent.state.messages[|agent.state.messages| - 1].Assistant?
    modifies agent, agent.steering, agent.followUps
    ensures Sound(agent)
    ensures r.Ok? &&
      var q, transcript := old(QueuesOf(agent)), old(agent.state.messages);
      Promised(agent, transcript, old(Drained(agent.steering.gone)), old(Drained(agent.followUps.gone)),
               Opened(Resumed(q, transcript), script.opening, SkipsPoll(q, transcript)), script, c, r.value,
               OneByOne(q.steeringMode, script))
  {
    hide Promised, Opened;
    agent.steering.bulk := false;
    var finished;
    finished, c := RunPromptMessages(agent, [], false, script, Prompted, Drained(agent.steering.gone),
                                     Drained(agent.followUps.gone), OneByOne(agent.steering.mode, script));
    r := Ok(finished);
  }

  /** After a reply: steering messages first, then follow-ups. */
  method ContinueFromQueues(agent: Agent, script: Script) returns (r: Result<bool, string>, ghost c: Course)
    requires Sound(agent) && !agent.running
    requires agent.state.messages != [] && agent.state.messages[|agent.state.messages| - 1].Assistant?
    modifies agent, agent.steering, agent.followUps
    ensures Sound(agent)
    ensures r.Ok? ==>
      var q, transcript := old(QueuesOf(agent)), old(agent.state.messages);
      Promised(agent, transcript, old(Drained(agent.steering.gone)), old(Drained(agent.followUps.gone)),
               Opened(Resumed(q, transcript), script.opening, SkipsPoll(q, transcript)), script, c, r.value,
               OneByOne(q.steeringMode, script))
    ensures r.Err? == (old(QueuesOf(agent)).steering == [] && old(QueuesOf(agent)).followUps == [])
    ensures r.Err? ==>
      && Drained(agent.steering.gone) == old(Drained(agent.steering.gone))
      && Drained(agent.followUps.gone) == old(Drained(agent.followUps.gone))
      && agent.state == old(agent.state) && QueuesOf(agent) == old(QueuesOf(agent))
  {
    hide Promised, Opened;
    agent.steering.bulk := false;
    ghost var steered, followed := Drained(agent.steering.gone), Drained(agent.followUps.gone);
    ghost var gentle := OneByOne(agent.steering.mode, script);
    var finished;
    var prompts := agent.steering.Drain();
    if |prompts| > 0 {
      finished, c := RunPromptMessages(agent, prompts, true, script, Steering, steered, followed, gentle);
      return Ok(finished), c;
    }
    prompts := agent.followUps.Drain();
    if |prompts| > 0 {
      finished, c := RunPromptMessages(agent, prompts, false, script, FollowUp, steered, followed, gentle);
      return Ok(finished), c;
    }
    c := Course(0, Begun(QueuesOf(agent), agent.state.messages, [], Prompted), Nowhere);
    return Err("Cannot continue from message role: assistant"), c;
  }
}
