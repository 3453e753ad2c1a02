// What an agent run comes to, told turn by turn: which messages enter the transcript and what is left in
// the queues, for every environment.
module AgentPlay {
  import opened Wrappers
  import opened AgentEvents
  import opened MessageQueue
  import opened ToolCalls

  /** What others do to the queues while the loop waits. */
  datatype Command =
    | Steer(message: Message)
    | Follow(message: Message)
    | ClearSteering
    | ClearFollowUps
    | SetSteeringMode(mode: Mode)
    | SetFollowUpMode(mode: Mode)

  // ---- The queues ----

  datatype Queues = Queues(steering: seq<Message>, steeringMode: Mode, followUps: seq<Message>, followUpMode: Mode)

  function Obeying(q: Queues, c: Command): (r: Queues) {
    match c
    case Steer(m) => q.(steering := q.steering + [m])
    case Follow(m) => q.(followUps := q.followUps + [m])
    case ClearSteering => q.(steering := [])
    case ClearFollowUps => q.(followUps := [])
    case SetSteeringMode(mode) => q.(steeringMode := mode)
    case SetFollowUpMode(mode) => q.(followUpMode := mode)
  }

  /** The queues after the first `n` of these commands. */
  function Obeyed(q: Queues, commands: seq<Command>, n: nat): (r: Queues)
    requires n <= |commands|
  {
    if n == 0 then q else Obeying(Obeyed(q, commands, n - 1), commands[n - 1])
  }

  /** The steering queue is never asked to be drained all at once. */
  ghost predicate Gentle(commands: seq<Command>) {
    forall i :: 0 <= i < |commands| ==> commands[i] != SetSteeringMode(All)
  }

  lemma {:induction false} GentleKeeps(q: Queues, commands: seq<Command>, n: nat)
    requires n <= |commands| && Gentle(commands) && q.steeringMode == OneAtATime
    ensures Obeyed(q, commands, n).steeringMode == OneAtATime
  {
    if n > 0 {
      GentleKeeps(q, commands, n - 1);
    }
  }

  // ---- What a turn says ----

  /** What comes of a request: the reply, what its stream leaves in the context, the outcomes of its calls,
      whether the model must be asked again, and whether the run stops here. */
  datatype Spoken = Spoken(
    reply: Message, trail: seq<Message>, outcomes: seq<Finalized>, wantsMore: bool, stops: bool)
  {
    /** What enters the transcript. */
    function Produced(): seq<Message> {
      [reply] + Messages(outcomes)
    }
  }

  /** What a run needs to know of a turn: the commands given while it is prepared, while it runs and while
      the run is about to stop, the context that a callback may put in place, and what the model and the tools
      make of the messages sent. */
  datatype Beat = Beat(
    preparing: seq<Command>, during: seq<Command>, idle: seq<Command>, replacement: Option<seq<Message>>,
    answer: seq<Message> -> Spoken)

  // ---- The play ----

  /** What a run has done: the transcript before it, the messages entered since, those of them that come from no
      queue, the context it holds, the requests it made, whether every message was closed by its own end before
      the next one started, the calls and outcomes announced, the turns completed. */
  datatype Scene = Scene(
    base: seq<Message>, entered: seq<Message>, own: seq<Message>, context: seq<Message>, asked: seq<Request>,
    bracketed: bool, started: seq<Call>, finished: multiset<Finalized>, turns: nat)
  {
    /** Queued messages enter. */
    function Joined(messages: seq<Message>): Scene {
      this.(entered := entered + messages, context := context + messages)
    }

    /** The model is asked with the context, and its reply enters. */
    function Answered(reply: Message, trail: seq<Message>): Scene {
      this.(asked := asked + [Request(context, base + entered)], entered := entered + [reply], own := own + [reply],
            context := context + trail, bracketed := bracketed && |trail| <= 1)
    }

    /** The calls of the reply are run, and their results enter. */
    function Worked(fs: seq<Finalized>): Scene {
      this.(started := started + Calls(fs), finished := finished + multiset(fs), entered := entered + Messages(fs),
            own := own + Messages(fs), context := context + Messages(fs))
    }

    function Turned(): Scene {
      this.(turns := turns + 1)
    }
  }

  /** Where a run stands: the queues, the messages drained but not entered, what it has done, whether it is over. */
  datatype Play = Play(queues: Queues, waiting: seq<Message>, scene: Scene, over: bool)

  function After(p: Play, commands: seq<Command>): Play {
    p.(queues := Obeyed(p.queues, commands, |commands|))
  }

  /** The steering queue is polled. */
  function Polled(p: Play): (r: Play) {
    var q := p.queues;
    p.(queues := q.(steering := Kept(q.steering, q.steeringMode)), waiting := Taken(q.steering, q.steeringMode))
  }

  function PolledFollowUps(p: Play): (r: Play) {
    var q := p.queues;
    p.(queues := q.(followUps := Kept(q.followUps, q.followUpMode)), waiting := Taken(q.followUps, q.followUpMode))
  }

  /** The first poll, which a run that began with steering messages skips. */
  function Opened(p: Play, commands: seq<Command>, skip: bool): Play {
    if skip then After(p, commands) else Polled(After(p, commands))
  }

  /** Before every turn but the first, a callback may replace the context, and steering is polled unless messages
      wait already. */
  function Readied(p: Play, beat: Beat): Play {
    var q := After(Replaced(p, beat.replacement), beat.preparing);
    if p.waiting == [] then Polled(q) else q
  }

  function Replaced(p: Play, replacement: Option<seq<Message>>): Play {
    if replacement.Some? then p.(scene := p.scene.(context := replacement.value)) else p
  }

  /** Waiting messages enter. */
  function Entering(p: Play): Play {
    p.(waiting := [], scene := p.scene.Joined(p.waiting))
  }

  /** A turn up to its request. */
  function Poised(p: Play, beat: Beat, first: bool): Play {
    Entering(if first then p else Readied(p, beat))
  }

  /** The request, the reply and its calls. */
  function Spoke(p: Play, said: Spoken): Play {
    p.(scene := p.scene.Answered(said.reply, said.trail).Worked(said.outcomes).Turned())
  }

  /** A turn up to the steering poll that follows it, or to the end of the run if it stops it. */
  function Struck(p: Play, beat: Beat, first: bool): Play {
    var a := Poised(p, beat, first);
    var said := beat.answer(a.scene.context);
    var b := Spoke(a, said);
    if said.stops then b.(over := true) else Polled(After(b, beat.during))
  }

  /** What the last request sent. */
  function LastSent(s: Scene): seq<Message> {
    if s.asked == [] then [] else s.asked[|s.asked| - 1].sent
  }

  /** The turn just played asks for nothing more, and nothing waits. */
  predicate WouldStop(p: Play, beat: Beat) {
    !p.over && !beat.answer(LastSent(p.scene)).wantsMore && p.waiting == []
  }

  /** Where the run would stop, the follow-up queue is polled; it is over if that is empty too. */
  function Rested(p: Play, beat: Beat): Play {
    if WouldStop(p, beat) then
      var r := PolledFollowUps(After(p, beat.idle));
      r.(over := r.waiting == [])
    else p
  }

  /** The run after its first `n` turns. */
  function Played(p: Play, beats: seq<Beat>, n: nat): (r: Play)
    requires n <= |beats|
  {
    if n == 0 then p else Rested(Struck(Played(p, beats, n - 1), beats[n - 1], n == 1), beats[n - 1])
  }

  /** The run was not over after any of the first `n` turns. */
  predicate Going(p: Play, beats: seq<Beat>, n: nat)
    requires n <= |beats|
  {
    !Played(p, beats, n).over && (n == 0 || Going(p, beats, n - 1))
  }

  /** After `n` turns the play stands here, and it was never over before. */
  ghost predicate Stands(p: Play, beats: seq<Beat>, n: nat, now: Play) {
    n <= |beats| && Going(p, beats, n) && now == Played(p, beats, n)
  }

  /** After `n` turns the play is about to stop. */
  ghost predicate Stops(p: Play, beats: seq<Beat>, n: nat, now: Play) {
    && 0 < n <= |beats| && Going(p, beats, n - 1) && now == Struck(Played(p, beats, n - 1), beats[n - 1], n == 1)
    && WouldStop(now, beats[n - 1])
  }

  /** After `n` turns the play is over, and it was not before. */
  ghost predicate IsOver(p: Play, beats: seq<Beat>, n: nat, now: Play) {
    0 < n <= |beats| && Going(p, beats, n - 1) && now == Played(p, beats, n) && now.over
  }

  lemma Begins(p: Play, beats: seq<Beat>)
    requires !p.over
    ensures Stands(p, beats, 0, p)
  {
  }

  /** After one more turn the play is over, about to stop, or goes on. */
  lemma TurnLeads(p: Play, beats: seq<Beat>, n: nat, before: Play, now: Play)
    requires Stands(p, beats, n, before) && n < |beats| && now == Struck(before, beats[n], n == 0)
    ensures if now.over then IsOver(p, beats, n + 1, now)
            else if WouldStop(now, beats[n]) then Stops(p, beats, n + 1, now)
            else Stands(p, beats, n + 1, now)
  {
    assert Played(p, beats, n + 1) == Rested(now, beats[n]);
  }

  lemma RestLeads(p: Play, beats: seq<Beat>, n: nat, before: Play, now: Play)
    requires Stops(p, beats, n, before) && 0 < n <= |beats| && now == Rested(before, beats[n - 1])
    ensures if now.over then IsOver(p, beats, n, now) else Stands(p, beats, n, now)
  {
    assert Played(p, beats, n) == now;
  }

  // ---- What the play means ----

  /** The messages that the request of the turn after the first `k` sends. */
  function Sent(p: Play, beats: seq<Beat>, k: nat): seq<Message>
    requires k < |beats|
  {
    Poised(Played(p, beats, k), beats[k], k == 0).scene.context
  }

  /** What comes of that request. */
  function Said(p: Play, beats: seq<Beat>, k: nat): Spoken
    requires k < |beats|
  {
    beats[k].answer(Sent(p, beats, k))
  }

  /** A poll finds nothing only if nothing is queued, and leaves in order what it does not take. */
  lemma PollTakesInOrder(p: Play)
    ensures Polled(p).waiting + Polled(p).queues.steering == p.queues.steering
    ensures Polled(p).waiting == [] <==> p.queues.steering == []
    ensures p.queues.steeringMode == OneAtATime ==> |Polled(p).waiting| <= 1
  {
    NothingLost(p.queues.steering, p.queues.steeringMode);
  }

  /** The queued messages that enter a turn. */
  function Comers(p: Play, beat: Beat, first: bool): seq<Message> {
    if first then p.waiting else Readied(p, beat).waiting
  }

  /** The context may be replaced before every turn but the first. */
  function Held(s: Scene, beat: Beat, first: bool): Scene {
    if first || beat.replacement.None? then s else s.(context := beat.replacement.value)
  }

  /** What a turn does, apart from the queues. */
  lemma SceneOfTurn(p: Play, beats: seq<Beat>, n: nat)
    requires 0 < n <= |beats|
    ensures var before, beat, said := Played(p, beats, n - 1), beats[n - 1], Said(p, beats, n - 1);
      var poised := Poised(before, beat, n == 1).scene;
      && poised == Held(before.scene, beat, n == 1).Joined(Comers(before, beat, n == 1))
      && Played(p, beats, n).scene == poised.Answered(said.reply, said.trail).Worked(said.outcomes).Turned()
  {
  }

  /** A turn ends a run that was not over if and only if it stopped it, or it asked for nothing more, the steering
      poll after it found nothing, and neither did the poll of the follow-up queue. */
  lemma EndsForAReason(before: Play, beat: Beat, first: bool)
    requires !before.over
    ensures var poised := Poised(before, beat, first);
      var said := beat.answer(poised.scene.context);
      var spoke := After(Spoke(poised, said), beat.during);
      var end := Rested(Struck(before, beat, first), beat);
      && (end.over <==>
            || said.stops
            || (&& !said.wantsMore && spoke.queues.steering == []
                && After(Polled(spoke), beat.idle).queues.followUps == []))
      && (end.over ==> end.waiting == [])
  {
    var poised := Poised(before, beat, first);
    var said := beat.answer(poised.scene.context);
    if !said.stops {
      var struck := Struck(before, beat, first);
      assert LastSent(struck.scene) == poised.scene.context;
      PollTakesInOrder(After(Spoke(poised, said), beat.during));
      var q := After(struck, beat.idle).queues;
      NothingLost(q.followUps, q.followUpMode);
    }
  }

  /** What enters a turn: whatever waits already; otherwise, before every turn but the first, the steering queue is
      asked, and it hands over something if it holds anything. */
  lemma EntersATurn(before: Play, beat: Beat, first: bool)
    ensures var q := Obeyed(before.queues, beat.preparing, |beat.preparing|);
      var comers, left := Comers(before, beat, first), Poised(before, beat, first).queues;
      && (first || before.waiting != [] ==> comers == before.waiting)
      && (first ==> left == before.queues)
      && (!first && before.waiting != [] ==> left == q)
      && (!first && before.waiting == [] ==>
            && comers + left.steering == q.steering && (comers == [] <==> q.steering == [])
            && left == q.(steering := left.steering))
  {
    PollTakesInOrder(After(Replaced(before, beat.replacement), beat.preparing));
  }

  /** What a turn that goes on leaves waiting: what the steering queue hands over; and if nothing comes of that and no
      call asks for more, what the follow-up queue hands over, which is not asked otherwise. */
  lemma WaitsAfterATurn(before: Play, beat: Beat, first: bool)
    ensures var poised := Poised(before, beat, first);
      var struck, end := Struck(before, beat, first), Rested(Struck(before, beat, first), beat);
      var said := beat.answer(poised.scene.context);
      var q := Obeyed(poised.queues, beat.during, |beat.during|);
      && (said.stops ==> end == struck && end.queues == poised.queues)
      && (!said.stops ==>
            && struck.waiting + struck.queues.steering == q.steering
            && struck.queues == q.(steering := struck.queues.steering))
      && (!said.stops && !before.over && (said.wantsMore || struck.waiting != []) ==> end == struck)
      && (!said.stops && !before.over && !said.wantsMore && struck.waiting == [] ==>
            var f := Obeyed(struck.queues, beat.idle, |beat.idle|);
            end.waiting + end.queues.followUps == f.followUps && end.queues == f.(followUps := end.queues.followUps))
  {
    var poised := Poised(before, beat, first);
    var said := beat.answer(poised.scene.context);
    if !said.stops {
      var struck := Struck(before, beat, first);
      assert LastSent(struck.scene) == poised.scene.context;
      PollTakesInOrder(After(Spoke(poised, said), beat.during));
      var q := After(struck, beat.idle).queues;
      NothingLost(q.followUps, q.followUpMode);
    }
  }

  /** What the request of that turn sends, with the transcript as it stands then beside it. */
  function RequestIn(p: Play, beats: seq<Beat>, k: nat): Request
    requires k < |beats|
  {
    var poised := Poised(Played(p, beats, k), beats[k], k == 0).scene;
    Request(poised.context, poised.base + poised.entered)
  }

  /** The requests of the first `n` turns. */
  function Requests(p: Play, beats: seq<Beat>, n: nat): (r: seq<Request>)
    requires n <= |beats|
    ensures |r| == n
  {
    if n == 0 then [] else Requests(p, beats, n - 1) + [RequestIn(p, beats, n - 1)]
  }

  lemma {:induction false} RequestsInOrder(p: Play, beats: seq<Beat>, n: nat, k: nat)
    requires k < n <= |beats|
    ensures Requests(p, beats, n)[k] == RequestIn(p, beats, k)
  {
    hide RequestIn;
    if k < n - 1 {
      RequestsInOrder(p, beats, n - 1, k);
    }
  }

  /** Every turn makes one request, and it sends the context held when the turn is poised. */
  lemma {:induction false} OneRequestPerTurn(p: Play, beats: seq<Beat>, n: nat)
    requires n <= |beats|
    ensures Played(p, beats, n).scene.asked == p.scene.asked + Requests(p, beats, n)
    ensures Played(p, beats, n).scene.base == p.scene.base
  {
    hide Struck, Rested, Poised, Comers;
    if n == 0 {
      assert p.scene.asked + [] == p.scene.asked;
    } else {
      OneRequestPerTurn(p, beats, n - 1);
      SceneOfTurn(p, beats, n);
      Associate(p.scene.asked, Requests(p, beats, n - 1), [RequestIn(p, beats, n - 1)]);
    }
  }

  /** The turns completed are counted one by one. */
  lemma {:induction false} TurnsAreCounted(p: Play, beats: seq<Beat>, n: nat)
    requires n <= |beats|
    ensures Played(p, beats, n).scene.turns == p.scene.turns + n
  {
    hide Struck, Rested, Poised, Comers;
    if n > 0 {
      TurnsAreCounted(p, beats, n - 1);
      SceneOfTurn(p, beats, n);
    }
  }

  /** Messages stay bracketed if and only if no reply of the turns played leaves more than itself behind. */
  lemma {:induction false} BracketedIff(p: Play, beats: seq<Beat>, n: nat)
    requires n <= |beats|
    ensures Played(p, beats, n).scene.bracketed <==>
      p.scene.bracketed && forall k: nat :: k < n ==> |Said(p, beats, k).trail| <= 1
  {
    hide Struck, Rested, Poised, Comers;
    if n > 0 {
      BracketedIff(p, beats, n - 1);
      SceneOfTurn(p, beats, n);
    }
  }

  /** The replies and results of the first `n` turns. */
  function ProducedBy(p: Play, beats: seq<Beat>, n: nat): seq<Message>
    requires n <= |beats|
  {
    if n == 0 then [] else ProducedBy(p, beats, n - 1) + Said(p, beats, n - 1).Produced()
  }

  /** The outcomes of the calls of the first `n` turns. */
  function OutcomesBy(p: Play, beats: seq<Beat>, n: nat): seq<Finalized>
    requires n <= |beats|
  {
    if n == 0 then [] else OutcomesBy(p, beats, n - 1) + Said(p, beats, n - 1).outcomes
  }

  lemma Associate<T>(a: seq<T>, b: seq<T>, c: seq<T>)
    ensures a + b + c == a + (b + c)
  {
  }

  /** Apart from what came from the queues, a run adds exactly the replies and results of its turns, in order. */
  lemma {:induction false} OwnMessages(p: Play, beats: seq<Beat>, n: nat)
    requires n <= |beats|
    ensures Played(p, beats, n).scene.own == p.scene.own + ProducedBy(p, beats, n)
  {
    hide Struck, Rested, Poised, Comers;
    if n == 0 {
      assert p.scene.own + [] == p.scene.own;
    } else {
      OwnMessages(p, beats, n - 1);
      SceneOfTurn(p, beats, n);
      var said, own := Said(p, beats, n - 1), Played(p, beats, n - 1).scene.own;
      Associate(own, [said.reply], Messages(said.outcomes));
      Associate(p.scene.own, ProducedBy(p, beats, n - 1), said.Produced());
    }
  }

  lemma CallsOfBoth(a: seq<Finalized>, b: seq<Finalized>)
    ensures Calls(a + b) == Calls(a) + Calls(b)
  {
  }

  /** The calls announced are those of the turns played, each once and in order, and so are the outcomes. */
  lemma {:induction false} CallsAnnounced(p: Play, beats: seq<Beat>, n: nat)
    requires n <= |beats|
    ensures Played(p, beats, n).scene.started == p.scene.started + Calls(OutcomesBy(p, beats, n))
    ensures Played(p, beats, n).scene.finished == p.scene.finished + multiset(OutcomesBy(p, beats, n))
  {
    hide Struck, Rested, Poised, Comers;
    if n == 0 {
      assert p.scene.started + Calls([]) == p.scene.started;
    } else {
      CallsAnnounced(p, beats, n - 1);
      SceneOfTurn(p, beats, n);
      var earlier, fs := OutcomesBy(p, beats, n - 1), Said(p, beats, n - 1).outcomes;
      CallsOfBoth(earlier, fs);
      Associate(p.scene.started, Calls(earlier), Calls(fs));
      assert multiset(earlier + fs) == multiset(earlier) + multiset(fs);
    }
  }

  lemma SceneGrows(p: Play, beats: seq<Beat>, n: nat)
    requires 0 < n <= |beats|
    ensures Played(p, beats, n - 1).scene.entered <= Poised(Played(p, beats, n - 1), beats[n - 1], n == 1).scene.entered
    ensures Played(p, beats, n - 1).scene.entered <= Played(p, beats, n).scene.entered
  {
    hide Struck, Rested, Poised, Comers;
    SceneOfTurn(p, beats, n);
  }

  /** What entered stays: the transcript only grows, and the prompts stay in front. */
  lemma {:induction false} EnteredGrows(p: Play, beats: seq<Beat>, n: nat)
    requires n <= |beats|
    ensures p.scene.entered <= Played(p, beats, n).scene.entered
  {
    hide Struck, Rested, Poised, Comers;
    if n > 0 {
      EnteredGrows(p, beats, n - 1);
      SceneGrows(p, beats, n);
    }
  }

  /** No callback replaces the context before one of the first `n` turns; the first turn has no callback. */
  ghost predicate Unreplaced(beats: seq<Beat>, n: nat)
    requires n <= |beats|
  {
    forall k: nat :: 0 < k < n ==> beats[k].replacement.None?
  }

  /** The context is the transcript, as long as none is replaced and the replies leave just themselves behind. */
  ghost predicate InStep(s: Scene) {
    s.context == s.base + s.entered
  }

  lemma JoinedInStep(s: Scene, messages: seq<Message>)
    requires InStep(s)
    ensures InStep(s.Joined(messages))
  {
    Associate(s.base, s.entered, messages);
  }

  lemma SpokenInStep(s: Scene, said: Spoken)
    requires InStep(s) && said.trail == [said.reply]
    ensures InStep(s.Answered(said.reply, said.trail).Worked(said.outcomes).Turned())
  {
    Associate(s.base, s.entered, [said.reply]);
    Associate(s.base, s.entered + [said.reply], Messages(said.outcomes));
  }

  /** A reply that brings at most one `start` leaves just itself behind. */
  ghost predicate LeavesItself(beat: Beat) {
    forall sent :: |beat.answer(sent).trail| <= 1 ==> beat.answer(sent).trail == [beat.answer(sent).reply]
  }

  /** Every request sends the transcript as it stood, unless a callback replaced the context or an earlier reply
      left a stray message in it. */
  lemma {:induction false} RequestsSendTheTranscript(p: Play, beats: seq<Beat>, n: nat)
    requires n <= |beats| && InStep(p.scene) && Unreplaced(beats, n)
    requires forall k: nat :: k < n ==> LeavesItself(beats[k])
    requires Played(p, beats, n).scene.bracketed
    ensures InStep(Played(p, beats, n).scene)
    ensures forall k: nat :: k < n ==> InStep(Poised(Played(p, beats, k), beats[k], k == 0).scene)
  {
    hide Struck, Rested, Poised, Comers;
    if n > 0 {
      SceneOfTurn(p, beats, n);
      RequestsSendTheTranscript(p, beats, n - 1);
      var before := Played(p, beats, n - 1);
      JoinedInStep(before.scene, Comers(before, beats[n - 1], n == 1));
      SpokenInStep(Poised(before, beats[n - 1], n == 1).scene, Said(p, beats, n - 1));
    }
  }
}
