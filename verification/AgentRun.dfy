// One run of the agent loop: turns of a streamed reply and its tool calls, with messages from the
// steering and follow-up queues entering between them.
module AgentRunning {
  import opened Wrappers
  import opened AgentEvents
  import opened MessageQueue
  import opened ToolCalls
  import opened ToolBatches
  import opened AgentPlay

  /** One event of a streamed response; `Finish` is its `done` or `error`. */
  datatype StreamStep = Begin(partial: Reply) | Change(partial: Reply) | Finish

  /** What the model says when it is asked: the events of its stream, and its reply. */
  datatype Response = Response(stream: seq<StreamStep>, reply: Reply)

  /** How the environment behaves in one turn: the commands given while the turn is prepared, the context
      a callback may put in place, the response to whatever is sent, the treatment of its calls and the order in
      which parallel ones take steps, whether to stop, and the commands given before either queue is polled. */
  datatype TurnScript = TurnScript(
    preparing: seq<Command>,
    replacement: Option<seq<Message>>,
    respond: seq<Message> -> Response,
    sequential: bool,
    treatments: Treatments,
    picks: seq<nat>,
    stop: bool,
    during: seq<Command>,
    idle: seq<Command>)

  datatype Script = Script(opening: seq<Command>, turns: seq<TurnScript>)

  // ---- A response ----

  /** Where a stream is not listened to any more: at its first `done` or `error` from `k` on, or at its end. */
  function Heard(stream: seq<StreamStep>, k: nat): (n: nat)
    requires k <= |stream|
    ensures k <= n <= |stream|
    decreases |stream| - k
  {
    if k == |stream| || stream[k] == Finish then k else Heard(stream, k + 1)
  }

  /** The `start` events among the first `k`. */
  function StartsIn(stream: seq<StreamStep>, k: nat): (n: nat)
    requires k <= |stream|
  {
    if k == 0 then 0 else StartsIn(stream, k - 1) + (if stream[k - 1].Begin? then 1 else 0)
  }

  /** The `start` events a response brings before it finishes. */
  function Starts(stream: seq<StreamStep>): (n: nat) {
    StartsIn(stream, Heard(stream, 0))
  }

  /** The partial messages that the first `k` events leave in the context: each `start` adds one, and the other
      events change the last one. */
  function Partials(stream: seq<StreamStep>, k: nat): (r: seq<Message>)
    requires k <= |stream|
    ensures |r| == StartsIn(stream, k)
  {
    if k == 0 then []
    else
      var before := Partials(stream, k - 1);
      match stream[k - 1]
      case Begin(partial) => before + [Assistant(partial)]
      case Change(partial) => Closed(before, partial, false)
      case Finish => before
  }

  /** The last partial message gives way to this one; if there is none, the message is added if it is final. */
  function Closed(partials: seq<Message>, reply: Reply, final: bool): (r: seq<Message>)
    ensures |partials| > 0 ==> |r| == |partials|
  {
    if partials == [] then (if final then [Assistant(reply)] else []) else partials[|partials| - 1 := Assistant(reply)]
  }

  /** What a whole response leaves in the context: just the reply, unless there was a second `start`. */
  function Trail(r: Response): (trail: seq<Message>)
    ensures |trail| == if Starts(r.stream) == 0 then 1 else Starts(r.stream)
    ensures Starts(r.stream) <= 1 ==> trail == [Assistant(r.reply)]
  {
    Closed(Partials(r.stream, Heard(r.stream, 0)), r.reply, true)
  }

  predicate Fails(reply: Reply) { reply.stopReason == Failure || reply.stopReason == Aborted }

  /** The calls of the reply that are run or failed, with their outcomes; a reply that fails has none. */
  ghost function OutcomesOf(turn: TurnScript, reply: Reply): seq<Finalized> {
    var calls := CallsOf(reply.content);
    if Fails(reply) || calls == [] then []
    else BatchOutcomes(calls, turn.treatments, turn.sequential, reply.stopReason == Length)
  }

  /** The turn made calls whose results the model must see. */
  ghost predicate WantsMore(turn: TurnScript, reply: Reply) {
    var calls := CallsOf(reply.content);
    calls != [] && AsksAgain(calls, turn.treatments, turn.sequential, reply.stopReason == Length)
  }

  /** Nobody asks for the steering queue to be drained all at once. */
  ghost predicate GentleTurn(turn: TurnScript) {
    Gentle(turn.preparing) && Gentle(turn.during) && Gentle(turn.idle)
  }

  ghost predicate GentleTurns(turns: seq<TurnScript>) {
    forall i :: 0 <= i < |turns| ==> GentleTurn(turns[i])
  }

  ghost predicate GentleScript(script: Script) {
    Gentle(script.opening) && GentleTurns(script.turns)
  }

  /** What comes of a request with these messages. */
  ghost function SpokenOf(turn: TurnScript, sent: seq<Message>): Spoken {
    var r := turn.respond(sent);
    Spoken(Assistant(r.reply), Trail(r), OutcomesOf(turn, r.reply), WantsMore(turn, r.reply),
           Fails(r.reply) || turn.stop)
  }

  /** The turn as the play sees it. */
  ghost function BeatOf(turn: TurnScript): Beat {
    Beat(turn.preparing, turn.during, turn.idle, turn.replacement, sent => SpokenOf(turn, sent))
  }

  ghost function BeatsOf(turns: seq<TurnScript>): (beats: seq<Beat>)
    ensures |beats| == |turns| && forall i :: 0 <= i < |turns| ==> beats[i] == BeatOf(turns[i])
  {
    seq(|turns|, i requires 0 <= i < |turns| => BeatOf(turns[i]))
  }

  // ---- The books of a run ----

  /** Everything the books of a run are about. */
  datatype Ledger = Ledger(
    view: View,
    transcript: seq<Message>,
    newMessages: seq<Message>,
    steeredBefore: seq<Message>,  // what had been drained from the steering queue before the run
    steered: seq<Message>,        // and what has been by now
    followedBefore: seq<Message>, // the same for the follow-up queue
    followed: seq<Message>,
    bulk: bool)

  /** Prompts that were not drained from a queue. */
  ghost function OwnPrompts(prompts: seq<Message>, origin: Origin): seq<Message> {
    if origin == Steering || origin == FollowUp then [] else prompts
  }

  /** The messages not yet entered that come from `origin`. */
  ghost function Waiting(rest: seq<Message>, from: Origin, origin: Origin): seq<Message> {
    if from == origin then rest else []
  }

  /** The books are balanced, with `rest` drained but not entered yet. */
  ghost predicate Balanced(l: Ledger, rest: seq<Message>, from: Origin) {
    && l.view.ended == l.newMessages
    && l.transcript == l.view.base + l.view.ended
    && !l.view.bracket.Open? && l.view.told
    && l.steered == l.steeredBefore + l.view.steering + Waiting(rest, from, Steering)
    && l.followed == l.followedBefore + l.view.followUps + Waiting(rest, from, FollowUp)
    && (!l.bulk ==> !l.view.crowded && |Waiting(rest, from, Steering)| <= 1)
  }

  /** A steering message may enter the current turn. */
  ghost predicate Room(l: Ledger, rest: seq<Message>, from: Origin) {
    !l.bulk && Waiting(rest, from, Steering) != [] ==> l.view.steeredNow == 0
  }

  ghost function Injected(l: Ledger, m: Message, from: Origin): Ledger {
    l.(view := Entered(l.view, m, from), transcript := l.transcript + [m],
       newMessages := l.newMessages + [m])
  }

  lemma InjectedBalances(l: Ledger, rest: seq<Message>, from: Origin)
    requires Balanced(l, rest, from) && Room(l, rest, from) && rest != []
    ensures Balanced(Injected(l, rest[0], from), rest[1..], from)
    ensures Room(Injected(l, rest[0], from), rest[1..], from)
  {
    assert rest == [rest[0]] + rest[1..];
    assert l.view.base + l.view.ended + [rest[0]] == l.view.base + (l.view.ended + [rest[0]]);
    if from == Steering {
      assert l.steered == l.steeredBefore + (l.view.steering + [rest[0]]) + rest[1..];
    } else if from == FollowUp {
      assert l.followed == l.followedBefore + (l.view.followUps + [rest[0]]) + rest[1..];
    }
  }

  /** The books after a response. */
  ghost function Responded(l: Ledger, sent: seq<Message>, reply: Reply, starts: nat): Ledger {
    l.(view := Streamed(l.view, sent, reply, starts), transcript := l.transcript + [Assistant(reply)],
       newMessages := l.newMessages + [Assistant(reply)])
  }

  /** The view after a response, whose `start` events decide the bracketing. */
  ghost function Streamed(v: View, sent: seq<Message>, reply: Reply, starts: nat): View {
    Ask(v, sent).(
      ended := v.ended + [Assistant(reply)], others := v.others + [Assistant(reply)],
      bracket := if starts <= 1 then v.bracket else Crossed)
  }

  /** A response with a second `start` leaves a message unclosed for good, and a stray one in the context. */
  lemma SecondStartCrosses(v: View, sent: seq<Message>, a: Reply, b: Reply, reply: Reply)
    requires v.bracket == Shut
    ensures var r := Response([Begin(a), Begin(b), Finish], reply);
      && Streamed(v, sent, reply, Starts(r.stream)).bracket == Crossed
      && Trail(r) == [Assistant(a), Assistant(reply)]
  {
    var stream := [Begin(a), Begin(b), Finish];
    assert Heard(stream, 2) == 2;
    assert Heard(stream, 1) == 2;
    assert Heard(stream, 0) == 2;
    assert Partials(stream, 1) == [Assistant(a)];
    assert Partials(stream, 2) == [Assistant(a), Assistant(b)];
  }

  lemma RespondedBalances(l: Ledger, sent: seq<Message>, reply: Reply, starts: nat)
    requires Balanced(l, [], Nowhere)
    ensures Balanced(Responded(l, sent, reply, starts), [], Nowhere)
  {
    assert l.view.base + l.view.ended + [Assistant(reply)] == l.view.base + (l.view.ended + [Assistant(reply)]);
  }

  /** The books after a batch of tool calls. */
  ghost function Worked(l: Ledger, fs: seq<Finalized>): Ledger {
    var messages := Messages(fs);
    l.(view := l.view.(started := l.view.started + Calls(fs), finished := l.view.finished + multiset(fs),
                       ended := l.view.ended + messages, others := l.view.others + messages),
       transcript := l.transcript + messages, newMessages := l.newMessages + messages)
  }

  lemma WorkedBalances(l: Ledger, fs: seq<Finalized>)
    requires Balanced(l, [], Nowhere)
    ensures Balanced(Worked(l, fs), [], Nowhere)
  {
    var messages := Messages(fs);
    assert l.view.base + l.view.ended + messages == l.view.base + (l.view.ended + messages);
  }

  /** A drain hands over messages that now wait to enter. */
  lemma SteeringBalances(l: Ledger, r: seq<Message>, bulk: bool)
    requires Balanced(l, [], Nowhere) && (l.bulk ==> bulk) && (!bulk ==> |r| <= 1)
    ensures Balanced(l.(steered := l.steered + r, bulk := bulk), r, Steering)
  {
    assert l.steeredBefore + l.view.steering + [] == l.steeredBefore + l.view.steering;
  }

  lemma FollowUpsBalance(l: Ledger, r: seq<Message>)
    requires Balanced(l, [], Nowhere)
    ensures Balanced(l.(followed := l.followed + r), r, FollowUp)
  {
    assert l.followedBefore + l.view.followUps + [] == l.followedBefore + l.view.followUps;
  }

  lemma NothingWaits(l: Ledger, from: Origin)
    requires Balanced(l, [], from)
    ensures Balanced(l, [], Nowhere)
  {
  }

  /** A mark of the run changes the stage and nothing the books are about. */
  lemma MarkBalances(l: Ledger, e: Event, rest: seq<Message>, from: Origin)
    requires Balanced(l, rest, from) && (e.TurnStart? || e.TurnEnd? || e.AgentEnd?)
    requires e.TurnEnd? ==> EndsWith(l.view.ended, [Assistant(e.reply)] + e.toolResults)
    ensures Balanced(l.(view := See(l.view, e, Nowhere)), rest, from)
    ensures e.TurnStart? ==> Room(l.(view := See(l.view, e, Nowhere)), rest, from)
  {
  }

  /** One more of the waiting messages joins. */
  lemma JoinNext(s: Scene, pending: seq<Message>, k: nat)
    requires k < |pending|
    ensures pending[k..][0] == pending[k] && pending[k..][1..] == pending[k + 1..]
    ensures s.Joined(pending[..k]).Joined([pending[k]]) == s.Joined(pending[..k + 1])
  {
    JoinMore(s, pending[..k], pending[k]);
    assert pending[..k] + [pending[k]] == pending[..k + 1];
  }

  lemma Advance(prompts: seq<Message>, k: nat, base: seq<Message>)
    requires k < |prompts|
    ensures prompts[k..][0] == prompts[k] && prompts[k..][1..] == prompts[k + 1..]
    ensures prompts[..k] + [prompts[k]] == prompts[..k + 1]
    ensures base + prompts[..k] + [prompts[k]] == base + prompts[..k + 1]
  {
  }

  lemma ViewStep(log: Log, e: Event, origin: Origin)
    ensures ViewOf(Emitted(log, e, origin)) == See(ViewOf(log), e, origin)
  {
  }

  lemma FirstView(base: seq<Message>)
    ensures ViewOf(Emitted(Emitted(Nothing(base), AgentStart, Nowhere), TurnStart, Nowhere)) ==
            ViewOf(Nothing(base)).(stage := Busy(0))
  {
    ViewStep(Nothing(base), AgentStart, Nowhere);
    ViewStep(Emitted(Nothing(base), AgentStart, Nowhere), TurnStart, Nowhere);
  }

  lemma FirstBooks(l: Ledger, prompts: seq<Message>, origin: Origin)
    requires l.view == ViewOf(Nothing(l.transcript)).(stage := Busy(0))
    requires l.newMessages == []
    requires l.steered == l.steeredBefore + Waiting(prompts, origin, Steering)
    requires l.followed == l.followedBefore + Waiting(prompts, origin, FollowUp)
    requires !l.bulk ==> |Waiting(prompts, origin, Steering)| <= 1
    ensures Balanced(l, prompts, origin) && Room(l, prompts, origin)
  {
    assert l.transcript + [] == l.transcript;
    assert l.steeredBefore + [] == l.steeredBefore && l.followedBefore + [] == l.followedBefore;
  }

  /** A response that began between messages: what its `start` events have made of the bracketing. */
  ghost predicate Bracketing(began: Bracket, s: nat, now: Bracket) {
    if s == 0 then now == began
    else if s == 1 && began == Shut then now.Open? && now.message.Assistant?
    else now == Crossed
  }

  lemma AllAnnounced(l: Ledger, now: Ledger, prompts: seq<Message>, origin: Origin, from: Origin)
    requires Balanced(l, prompts[|prompts|..], origin)
    requires l == now.(newMessages := prompts[..|prompts|]) && now.newMessages == prompts
    ensures Balanced(now, [], from)
  {
    assert prompts[..|prompts|] == prompts && prompts[|prompts|..] == [];
  }

  function TurnsOf(stage: Stage): nat {
    match stage
    case Idle(n) => n
    case Busy(n) => n
    case Over(n) => n
    case _ => 0
  }

  lemma JoinMore(s: Scene, a: seq<Message>, m: Message)
    ensures s.Joined(a).Joined([m]) == s.Joined(a + [m])
  {
    Associate(s.entered, a, [m]);
    Associate(s.context, a, [m]);
  }

  lemma JoinNone(s: Scene)
    ensures s.Joined([]) == s
  {
    assert s.entered + [] == s.entered && s.context + [] == s.context;
  }

  class AgentRun {
    const agent: Agent
    var context: seq<Message>
    var newMessages: seq<Message>
    var pending: seq<Message>
    var skipInitialSteeringPoll: bool
    ghost var from: Origin
    ghost const base: seq<Message>
    ghost const steeredBefore: seq<Message>
    ghost const followedBefore: seq<Message>
    /** The steering queue is known to be drained one message at a time. */
    ghost const gentle: bool

    ghost function Waits(): Queues
      reads agent, agent.steering, agent.followUps
    {
      Queues(agent.steering.messages, agent.steering.mode, agent.followUps.messages, agent.followUps.mode)
    }

    /** What the run has done. */
    ghost function SceneNow(): Scene
      reads this, agent
    {
      var v := ViewOf(agent.log);
      Scene(base, newMessages, v.others, context, v.asked, v.bracket == Shut, v.started, v.finished, TurnsOf(v.stage))
    }

    /** Where the run stands. */
    ghost function Here(over: bool): Play
      reads this, agent, agent.steering, agent.followUps
    {
      Play(Waits(), pending, SceneNow(), over)
    }

    ghost function Now(): Ledger
      reads this, agent, agent.steering, agent.followUps
    {
      Ledger(ViewOf(agent.log), agent.state.messages, newMessages,
             steeredBefore, Drained(agent.steering.gone), followedBefore, Drained(agent.followUps.gone),
             agent.steering.bulk)
    }

    /** A run in progress: an active agent, sound queues, no call pending, balanced books. */
    ghost predicate Valid(rest: seq<Message>)
      reads this, agent, agent.steering, agent.followUps
    {
      Ready() && (rest != [] ==> from == Steering || from == FollowUp) && Balanced(Now(), rest, from)
    }

    ghost predicate Ready()
      reads this, agent, agent.steering, agent.followUps
    {
      && agent.running
      && agent.steering != agent.followUps && agent.steering.Valid() && agent.followUps.Valid()
      && agent.state.pendingToolCalls == {}
      && ViewOf(agent.log).base == base
      && (gentle ==> agent.steering.mode == OneAtATime && !agent.steering.bulk)
    }

    /** The run begins with prompts that may have been drained from a queue just before. */
    constructor (agent: Agent, prompts: seq<Message>, skip: bool,
                 ghost steeredBefore: seq<Message>, ghost followedBefore: seq<Message>, ghost gentle: bool)
      ensures this.agent == agent && this.gentle == gentle && context == agent.state.messages + prompts
      ensures newMessages == prompts
      ensures pending == [] && skipInitialSteeringPoll == skip && from == Nowhere
      ensures base == agent.state.messages
      ensures this.steeredBefore == steeredBefore && this.followedBefore == followedBefore
    {
      this.agent := agent;
      context, newMessages, pending := agent.state.messages + prompts, prompts, [];
      skipInitialSteeringPoll := skip;
      from, base := Nowhere, agent.state.messages;
      this.steeredBefore, this.followedBefore, this.gentle := steeredBefore, followedBefore, gentle;
    }

    /** The books as they stand once the first `k` prompts have been announced. */
    ghost function Opening(prompts: seq<Message>, k: nat): Ledger
      requires k <= |prompts|
      reads this, agent, agent.steering, agent.followUps
    {
      Now().(newMessages := prompts[..k])
    }

    /** The first `k` prompts have been announced. */
    ghost predicate Announced(prompts: seq<Message>, k: nat, origin: Origin, base: seq<Message>)
      requires k <= |prompts|
      reads this, agent, agent.steering, agent.followUps
    {
      && StageNow() == Busy(0) && ViewOf(agent.log).base == base && agent.state.pendingToolCalls == {}
      && (origin != Steering ==> ViewOf(agent.log).steeredNow == 0)
      && ViewOf(agent.log).others == OwnPrompts(prompts[..k], origin) && ViewOf(agent.log).bracket == Shut
      && NothingDone(ViewOf(agent.log))
      && Balanced(Opening(prompts, k), prompts[k..], origin)
      && Room(Opening(prompts, k), prompts[k..], origin)
    }

    method AnnouncePrompt(prompts: seq<Message>, k: nat, ghost origin: Origin, ghost base: seq<Message>)
      requires k < |prompts| && agent.running && Announced(prompts, k, origin, base)
      modifies agent`state, agent`log
      ensures Announced(prompts, k + 1, origin, base)
    {
      InjectedBalances(Opening(prompts, k), prompts[k..], origin);
      Advance(prompts, k, base);
      assert OwnPrompts(prompts[..k + 1], origin) ==
        if origin == Steering || origin == FollowUp then OwnPrompts(prompts[..k], origin)
        else OwnPrompts(prompts[..k], origin) + [prompts[k]];
      agent.EmitMessage(prompts[k], origin);
    }

    method Start(prompts: seq<Message>, ghost origin: Origin)
      requires agent.running && agent.log == Nothing(agent.state.messages) && base == agent.state.messages
      requires agent.steering != agent.followUps && agent.steering.Valid() && agent.followUps.Valid()
      requires agent.state.pendingToolCalls == {}
      requires context == agent.state.messages + prompts && newMessages == prompts
      requires Drained(agent.steering.gone) == steeredBefore + Waiting(prompts, origin, Steering)
      requires Drained(agent.followUps.gone) == followedBefore + Waiting(prompts, origin, FollowUp)
      requires !agent.steering.bulk ==> |Waiting(prompts, origin, Steering)| <= 1
      requires gentle ==> agent.steering.mode == OneAtATime && !agent.steering.bulk
      modifies agent`state, agent`log
      ensures Valid([]) && StageNow() == Busy(0)
      ensures Here(false) == old(Here(false)).(scene := old(SceneNow()).(own := OwnPrompts(prompts, origin)))
      ensures old(SceneNow()) == Scene(base, prompts, [], base + prompts, [], true, [], multiset{}, 0)
      ensures origin != Steering ==> ViewOf(agent.log).steeredNow == 0
    {
      hide Balanced, See, NextStage, NextBracket, EndsWith;
      agent.Emit(AgentStart, Nowhere);
      agent.Emit(TurnStart, Nowhere);
      FirstView(base);
      FirstBooks(Opening(prompts, 0), prompts, origin);
      assert prompts[0..] == prompts;
      AnnouncePrompts(prompts, origin);
      AllAnnounced(Opening(prompts, |prompts|), Now(), prompts, origin, from);
      assert prompts[..|prompts|] == prompts;
    }

    method AnnouncePrompts(prompts: seq<Message>, ghost origin: Origin)
      requires agent.running && Announced(prompts, 0, origin, base)
      modifies agent`state, agent`log
      ensures Announced(prompts, |prompts|, origin, base)
    {
      var k := 0;
      while k < |prompts|
        invariant 0 <= k <= |prompts|
        invariant Announced(prompts, k, origin, base)
      {
        AnnouncePrompt(prompts, k, origin, base);
        k := k + 1;
      }
    }

    ghost function StageNow(): Stage
      reads this, agent
    {
      ViewOf(agent.log).stage
    }

    /** A mark of the run. */
    method EmitMark(e: Event)
      requires Valid(pending) && (e.TurnStart? || e.TurnEnd? || e.AgentEnd?)
      requires e.TurnEnd? ==> EndsWith(newMessages, [Assistant(e.reply)] + e.toolResults)
      requires NextStage(StageNow(), e) != Disordered
      modifies agent`state, agent`log
      ensures Valid(pending) && StageNow() == NextStage(old(StageNow()), e)
      ensures ViewOf(agent.log) == See(old(ViewOf(agent.log)), e, Nowhere) && agent.state == Reduce(old(agent.state), e)
      ensures SceneNow() == if e.TurnEnd? then old(SceneNow()).Turned() else old(SceneNow())
      ensures e.TurnStart? ==> Room(Now(), pending, from)
    {
      MarkBalances(Now(), e, pending, from);
      agent.Emit(e, Nowhere);
    }

    method InjectOne(m: Message, ghost rest: seq<Message>)
      requires rest != [] && rest[0] == m && Valid(rest) && Room(Now(), rest, from) && StageNow().Busy?
      modifies this`context, this`newMessages, agent`state, agent`log
      ensures Valid(rest[1..]) && Room(Now(), rest[1..], from) && StageNow() == old(StageNow())
      ensures SceneNow() == old(SceneNow()).Joined([m])
    {
      InjectedBalances(Now(), rest, from);
      agent.EmitMessage(m, from);
      context, newMessages := context + [m], newMessages + [m];
    }

    /** Messages that wait enter before the next response. */
    method Inject()
      requires Valid(pending) && Room(Now(), pending, from) && StageNow().Busy?
      modifies this`context, this`newMessages, this`pending, this`from, agent`state, agent`log
      ensures Valid([]) && pending == [] && from == Nowhere && StageNow() == old(StageNow())
      ensures SceneNow() == old(SceneNow()).Joined(old(pending))
    {
      var k := 0;
      ghost var before := SceneNow();
      JoinNone(before);
      assert pending[0..] == pending && pending[..0] == [];
      while k < |pending|
        invariant 0 <= k <= |pending| && from == old(from)
        invariant Valid(pending[k..]) && Room(Now(), pending[k..], from)
        invariant StageNow() == old(StageNow())
        invariant pending == old(pending) && SceneNow() == before.Joined(pending[..k])
      {
        hide Scene.Joined, Balanced;
        JoinNext(before, pending, k);
        InjectOne(pending[k], pending[k..]);
        k := k + 1;
      }
      assert pending[..k] == pending && pending[k..] == [];
      NothingWaits(Now(), from);
      pending, from := [], Nowhere;
    }

    // ---- Queues ----

    /** One command of others to the queues. */
    method ObeyOne(c: Command)
      requires agent.steering != agent.followUps && agent.steering.Valid() && agent.followUps.Valid()
      modifies agent.steering, agent.followUps
      ensures agent.steering.Valid() && agent.followUps.Valid() && Waits() == Obeying(old(Waits()), c)
      ensures SameDrains(old(Drained(agent.steering.gone)), old(Drained(agent.followUps.gone)),
                         old(agent.steering.bulk))
    {
      match c {
        case Steer(m) => agent.steering.Enqueue(m);
        case Follow(m) => agent.followUps.Enqueue(m);
        case ClearSteering => agent.steering.Clear();
        case ClearFollowUps => agent.followUps.Clear();
        case SetSteeringMode(mode) => agent.steering.SetMode(mode);
        case SetFollowUpMode(mode) => agent.followUps.SetMode(mode);
      }
    }

    ghost predicate SameDrains(steered: seq<Message>, followed: seq<Message>, bulk: bool)
      reads agent, agent.steering, agent.followUps
    {
      && Drained(agent.steering.gone) == steered && Drained(agent.followUps.gone) == followed
      && agent.steering.bulk == bulk
    }

    /** What others did to the queues in the meantime. */
    method Obey(commands: seq<Command>)
      requires agent.steering != agent.followUps && agent.steering.Valid() && agent.followUps.Valid()
      modifies agent.steering, agent.followUps
      ensures agent.steering.Valid() && agent.followUps.Valid()
      ensures Waits() == Obeyed(old(Waits()), commands, |commands|)
      ensures SameDrains(old(Drained(agent.steering.gone)), old(Drained(agent.followUps.gone)),
                         old(agent.steering.bulk))
    {
      var k := 0;
      while k < |commands|
        invariant 0 <= k <= |commands|
        invariant agent.steering.Valid() && agent.followUps.Valid()
        invariant Waits() == Obeyed(old(Waits()), commands, k)
        invariant SameDrains(old(Drained(agent.steering.gone)), old(Drained(agent.followUps.gone)),
                             old(agent.steering.bulk))
      {
        ObeyOne(commands[k]);
        k := k + 1;
      }
    }

    /** Commands in the middle of a run. */
    method Wait(commands: seq<Command>, ghost rest: seq<Message>)
      requires Valid(rest) && (gentle ==> Gentle(commands))
      modifies agent.steering, agent.followUps
      ensures Valid(rest) && Now() == old(Now()) && Here(false) == After(old(Here(false)), commands)
    {
      if gentle { GentleKeeps(Waits(), commands, |commands|); }
      Obey(commands);
    }

    /** The steering poller; a run that began with steering messages skips its first poll. */
    method GetSteeringMessages()
      requires Valid([]) && pending == []
      modifies this`pending, this`from, this`skipInitialSteeringPoll, agent.steering
      ensures Valid(pending) && Now() == old(Now()).(steered := Now().steered, bulk := Now().bulk)
      ensures from == Steering && !skipInitialSteeringPoll
      ensures Here(false) == if old(skipInitialSteeringPoll) then old(Here(false)) else Polled(old(Here(false)))
    {
      NothingWaits(Now(), from);
      if skipInitialSteeringPoll {
        skipInitialSteeringPoll := false;
        pending := [];
        from := Steering;
        return;
      }
      ghost var before := Now();
      pending := agent.steering.Drain();
      from := Steering;
      SteeringBalances(before, pending, agent.steering.bulk);
    }

    method GetFollowUpMessages()
      requires Valid([]) && pending == []
      modifies this`pending, this`from, agent.followUps
      ensures Valid(pending) && Now() == old(Now()).(followed := Now().followed)
      ensures from == FollowUp && Here(false) == PolledFollowUps(old(Here(false)))
    {
      NothingWaits(Now(), from);
      ghost var before := Now();
      pending := agent.followUps.Drain();
      from := FollowUp;
      FollowUpsBalance(before, pending);
    }

    /** Before every turn but the first: callbacks run, and steering that came in meanwhile is picked up
        unless messages wait already. */
    method PrepareTurn(turn: TurnScript)
      requires Valid(pending) && StageNow().Idle? && !skipInitialSteeringPoll && (gentle ==> GentleTurn(turn))
      modifies this, agent`state, agent`log, agent.steering, agent.followUps
      ensures Valid(pending) && Room(Now(), pending, from) && StageNow() == Busy(old(StageNow()).turns)
      ensures !skipInitialSteeringPoll && Here(false) == Readied(old(Here(false)), BeatOf(turn))
    {
      if turn.replacement.Some? {
        context := turn.replacement.value;
      }
      PollIfIdle(turn.preparing);
      EmitMark(TurnStart);
    }

    /** Steering is polled only if nothing waits; otherwise one turn would take two messages. */
    method PollIfIdle(commands: seq<Command>)
      requires Valid(pending) && !skipInitialSteeringPoll && (gentle ==> Gentle(commands))
      modifies this`pending, this`from, this`skipInitialSteeringPoll, agent.steering, agent.followUps
      ensures Valid(pending) && !skipInitialSteeringPoll
      ensures Here(false) == if old(pending) == [] then Polled(After(old(Here(false)), commands))
                             else After(old(Here(false)), commands)
    {
      Wait(commands, pending);
      if |pending| == 0 {
        GetSteeringMessages();
      }
    }

    // ---- The response ----

    /** A response is under way: `v` is the view when it was asked for, `partials` what it has left in the context
        so far, one message per `start`. */
    ghost predicate Midway(v: View, state: AgentState, before: seq<Message>, partials: seq<Message>)
      reads this, agent
    {
      && agent.running && v.stage.Busy? && !v.bracket.Open?
      && ViewOf(agent.log) == v.(bracket := ViewOf(agent.log).bracket)
      && Bracketing(v.bracket, |partials|, ViewOf(agent.log).bracket)
      && agent.state == state.(streamingMessage := agent.state.streamingMessage)
      && context == before + partials
    }

    method OnStart(partial: Reply, ghost v: View, ghost state: AgentState, ghost before: seq<Message>,
                   ghost partials: seq<Message>)
      requires Midway(v, state, before, partials)
      modifies this`context, agent`state, agent`log
      ensures Midway(v, state, before, partials + [Assistant(partial)])
    {
      Associate(before, partials, [Assistant(partial)]);
      context := context + [Assistant(partial)];
      agent.Emit(MessageStart(Assistant(partial)), Nowhere);
    }

    method OnUpdate(partial: Reply, ghost v: View, ghost state: AgentState, ghost before: seq<Message>,
                    ghost partials: seq<Message>)
      requires Midway(v, state, before, partials) && partials != []
      modifies this`context, agent`state, agent`log
      ensures Midway(v, state, before, Closed(partials, partial, false))
    {
      context := context[|context| - 1 := Assistant(partial)];
      agent.Emit(MessageUpdate(Assistant(partial)), Nowhere);
    }

    method OnEnd(added: bool, reply: Reply, ghost v: View, ghost state: AgentState, ghost before: seq<Message>,
                 ghost partials: seq<Message>)
      requires Midway(v, state, before, partials) && added == (partials != [])
      modifies this`context, agent`state, agent`log
      ensures ViewOf(agent.log) ==
        v.(ended := v.ended + [Assistant(reply)], others := v.others + [Assistant(reply)],
           bracket := if |partials| <= 1 then v.bracket else Crossed)
      ensures agent.state == state.(streamingMessage := None, messages := state.messages + [Assistant(reply)])
      ensures context == before + Closed(partials, reply, true)
    {
      if added {
        context := context[|context| - 1 := Assistant(reply)];
      } else {
        context := context + [Assistant(reply)];
        agent.Emit(MessageStart(Assistant(reply)), Nowhere);
      }
      agent.Emit(MessageEnd(Assistant(reply)), Produced);
    }

    /** One event of the stream that does not end it. */
    method OnStep(step: StreamStep, added: bool, ghost stream: seq<StreamStep>, ghost k: nat, ghost v: View,
                  ghost state: AgentState, ghost before: seq<Message>)
      returns (nowAdded: bool)
      requires k < |stream| && step == stream[k] && step != Finish
      requires Midway(v, state, before, Partials(stream, k)) && added == (Partials(stream, k) != [])
      modifies this`context, agent`state, agent`log
      ensures Midway(v, state, before, Partials(stream, k + 1)) && nowAdded == (Partials(stream, k + 1) != [])
    {
      nowAdded := added;
      if step.Begin? {
        OnStart(step.partial, v, state, before, Partials(stream, k));
        nowAdded := true;
      } else if added {
        OnUpdate(step.partial, v, state, before, Partials(stream, k));
      }
    }

    /** Asks the model with the context, and follows its stream to the end. */
    method StreamAssistantResponse(respond: seq<Message> -> Response) returns (response: Response)
      requires agent.running && Steady(ViewOf(agent.log))
      modifies this`context, agent`state, agent`log
      ensures response == respond(old(context))
      ensures ViewOf(agent.log) ==
        Streamed(old(ViewOf(agent.log)), old(context), response.reply, Starts(response.stream))
      ensures agent.state ==
        old(agent.state).(streamingMessage := None, messages := old(agent.state.messages) + [Assistant(response.reply)])
      ensures context == old(context) + Trail(response)
    {
      ghost var before, state := context, agent.state;
      agent.log := Asked(agent.log, context);
      response := respond(context);
      ghost var v := ViewOf(agent.log);
      var stream, added, k := response.stream, false, 0;
      assert before + [] == before;
      while k < |stream| && stream[k] != Finish
        invariant 0 <= k <= |stream| && Heard(stream, k) == Heard(stream, 0)
        invariant Midway(v, state, before, Partials(stream, k)) && added == (Partials(stream, k) != [])
      {
        added := OnStep(stream[k], added, stream, k, v, state, before);
        k := k + 1;
      }
      OnEnd(added, response.reply, v, state, before, Partials(stream, k));
    }

    /** The response of a turn, entered in the books. */
    method Respond(turn: TurnScript) returns (reply: Reply)
      requires Valid([]) && from == Nowhere && StageNow().Busy?
      modifies this`context, this`newMessages, agent`state, agent`log
      ensures Valid([]) && StageNow() == old(StageNow()) && reply == turn.respond(old(context)).reply
      ensures SceneNow() == old(SceneNow()).Answered(Assistant(reply), Trail(turn.respond(old(context))))
    {
      ghost var l, sent := Now(), context;
      var response := StreamAssistantResponse(turn.respond);
      reply := response.reply;
      RespondedBalances(l, sent, reply, Starts(response.stream));
      newMessages := newMessages + [Assistant(reply)];
    }

    method WorkOn(calls: seq<Call>, turn: TurnScript, truncated: bool) returns (hasMore: bool, results: seq<Message>)
      requires Valid([]) && from == Nowhere && StageNow().Busy?
      modifies this`context, this`newMessages, agent`state, agent`log
      ensures Valid([]) && StageNow() == old(StageNow())
      ensures var fs := BatchOutcomes(calls, turn.treatments, turn.sequential, truncated);
        SceneNow() == old(SceneNow()).Worked(fs) && results == Messages(fs)
      ensures hasMore == AsksAgain(calls, turn.treatments, turn.sequential, truncated)
    {
      ghost var l := Now();
      var b, fs := RunBatch(agent, calls, turn.treatments, turn.sequential, turn.picks, truncated);
      hasMore, results := !b.terminate, b.messages;
      BatchAsksAgain(b, calls, turn.treatments, turn.sequential, truncated);
      TakeIn(results, l, fs);
    }

    /** The results of a batch enter the context and the new messages. */
    method TakeIn(results: seq<Message>, ghost l: Ledger, ghost fs: seq<Finalized>)
      requires Balanced(l, [], Nowhere) && results == Messages(fs) && from == Nowhere && Ready()
      requires Now() == Worked(l, fs).(newMessages := l.newMessages)
      modifies this`context, this`newMessages
      ensures Valid([]) && context == old(context) + results && newMessages == old(newMessages) + results
    {
      WorkedBalances(l, fs);
      context, newMessages := context + results, newMessages + results;
    }

    /** The tool calls of a turn; more follow unless there were none or all of them ask to stop. */
    method Work(turn: TurnScript, reply: Reply) returns (hasMore: bool, results: seq<Message>)
      requires Valid([]) && from == Nowhere && StageNow().Busy? && !Fails(reply)
      modifies this`context, this`newMessages, agent`state, agent`log
      ensures Valid([]) && StageNow() == old(StageNow())
      ensures SceneNow() == old(SceneNow()).Worked(OutcomesOf(turn, reply)) && hasMore == WantsMore(turn, reply)
      ensures results == Messages(OutcomesOf(turn, reply))
    {
      var calls := CallsOf(reply.content);
      if |calls| == 0 {
        WorkNone(SceneNow());
        return false, [];
      }
      hasMore, results := WorkOn(calls, turn, reply.stopReason == Length);
    }

    /** The turn is opened unless it is the first, and waiting messages enter. */
    method OpenTurn(turn: TurnScript, completed: bool)
      requires Valid(pending) && Between(completed) && (gentle ==> GentleTurn(turn))
      modifies this, agent`state, agent`log, agent.steering, agent.followUps
      ensures Valid([]) && pending == [] && from == Nowhere && StageNow().Busy? && !skipInitialSteeringPoll
      ensures Here(false) == Poised(old(Here(false)), BeatOf(turn), !completed)
    {
      if completed {
        PrepareTurn(turn);
      }
      Inject();
    }

    method CloseTurn(reply: Reply, results: seq<Message>, ghost entered: seq<Message>)
      requires Valid([]) && pending == [] && StageNow().Busy?
      requires newMessages == entered + [Assistant(reply)] + results
      modifies agent`state, agent`log
      ensures Valid([]) && StageNow().Idle? && StageNow().turns > 0 && SceneNow() == old(SceneNow()).Turned()
    {
      TurnTold(entered, reply, results);
      EmitMark(TurnEnd(reply, results));
    }

    method CloseRun()
      requires Valid([]) && pending == [] && StageNow().Idle? && StageNow().turns > 0
      modifies agent`state, agent`log
      ensures Valid([]) && Finished() && Here(false) == old(Here(false))
    {
      EmitMark(AgentEnd(newMessages));
    }

    method PollSteering(commands: seq<Command>)
      requires Valid([]) && pending == [] && StageNow().Idle? && StageNow().turns > 0 && !skipInitialSteeringPoll
      requires gentle ==> Gentle(commands)
      modifies this`pending, this`from, this`skipInitialSteeringPoll, agent.steering, agent.followUps
      ensures Valid(pending) && Between(true) && Here(false) == Polled(After(old(Here(false)), commands))
    {
      Wait(commands, []);
      GetSteeringMessages();
    }

    method PollFollowUps(commands: seq<Command>)
      requires Valid([]) && pending == [] && StageNow().Idle? && StageNow().turns > 0 && !skipInitialSteeringPoll
      requires gentle ==> Gentle(commands)
      modifies this`pending, this`from, agent.steering, agent.followUps
      ensures Valid(pending) && Between(true) && Here(false) == PolledFollowUps(After(old(Here(false)), commands))
    {
      Wait(commands, []);
      GetFollowUpMessages();
    }

    /** The response and its calls, to the end of the turn. */
    method Answer(turn: TurnScript) returns (hasMore: bool, failed: bool)
      requires Valid([]) && pending == [] && from == Nowhere && StageNow().Busy?
      modifies this`context, this`newMessages, agent`state, agent`log
      ensures Valid([]) && StageNow().Idle? && StageNow().turns > 0
      ensures var reply := turn.respond(old(context)).reply;
        failed == Fails(reply) && (!failed ==> hasMore == WantsMore(turn, reply))
      ensures Here(false) == Spoke(old(Here(false)), SpokenOf(turn, old(context)))
      ensures LastSent(SceneNow()) == old(context)
    {
      ghost var entered := newMessages;
      var reply := Respond(turn);
      failed := Fails(reply);
      var results := [];
      hasMore := false;
      if failed {
        WorkNone(SceneNow());
        assert newMessages + [] == newMessages;
      } else {
        hasMore, results := Work(turn, reply);
      }
      CloseTurn(reply, results, entered);
    }

    /** One pass of the inner loop. */
    method Turn(turn: TurnScript, completed: bool, ghost beat: Beat) returns (hasMore: bool, over: bool)
      requires Valid(pending) && Between(completed) && (gentle ==> GentleTurn(turn)) && beat == BeatOf(turn)
      modifies this, agent`state, agent`log, agent.steering, agent.followUps
      ensures Valid(pending) && (over ==> Finished()) && (!over ==> Between(true))
      ensures !over ==> hasMore == beat.answer(LastSent(SceneNow())).wantsMore
      ensures Here(over) == Struck(old(Here(false)), beat, !completed)
    {
      hide Balanced, Poised, Spoke, Polled, LastSent;
      OpenTurn(turn, completed);
      var failed;
      hasMore, failed := Answer(turn);
      if failed || turn.stop {
        CloseRun();
        return false, true;
      }
      PollSteering(turn.during);
      over := false;
    }

    /** Before a turn: the first one is open already, the others are not. */
    ghost predicate Between(completed: bool)
      reads this, agent, agent.steering, agent.followUps
    {
      && !skipInitialSteeringPoll
      && if completed then StageNow().Idle? && StageNow().turns > 0
         else StageNow() == Busy(0) && Room(Now(), pending, from)
    }

    ghost predicate Finished()
      reads this, agent
    {
      && pending == [] && StageNow().Over?
      && ViewOf(agent.log).final == Some(ViewOf(agent.log).ended)
      && agent.state.streamingMessage == None
    }

    /** The first poll, skipped when the run began with steering messages. */
    method OpenRun(commands: seq<Command>)
      requires Valid([]) && pending == [] && StageNow() == Busy(0) && (gentle ==> Gentle(commands))
      requires skipInitialSteeringPoll || ViewOf(agent.log).steeredNow == 0
      modifies this`pending, this`from, this`skipInitialSteeringPoll, agent.steering, agent.followUps
      ensures Valid(pending) && Between(false)
      ensures Here(false) == Opened(old(Here(false)), commands, old(skipInitialSteeringPoll))
    {
      Wait(commands, []);
      GetSteeringMessages();
    }

    /** A run that plays these turns has come this far and is not over. */
    ghost predicate Playing(p: Play, turns: seq<TurnScript>, beats: seq<Beat>, t: nat)
      reads this, agent, agent.steering, agent.followUps
    {
      && Scored(beats, turns) && t <= |turns| && (gentle ==> GentleTurns(turns))
      && Valid(pending) && Between(t > 0) && Stands(p, beats, t, Here(false))
    }

    /** The run would stop after the last of these turns. */
    ghost predicate Pausing(p: Play, turns: seq<TurnScript>, beats: seq<Beat>, t: nat)
      reads this, agent, agent.steering, agent.followUps
    {
      && Scored(beats, turns) && 0 < t <= |turns| && (gentle ==> GentleTurns(turns))
      && pending == [] && Valid([]) && Between(true) && Stops(p, beats, t, Here(false))
    }

    /** The run is over, and this is where the play ends. */
    ghost predicate Ended(p: Play, beats: seq<Beat>, t: nat)
      reads this, agent, agent.steering, agent.followUps
    {
      t <= |beats| && Valid([]) && Finished() && IsOver(p, beats, t, Here(true))
    }

    /** One more turn of the inner loop. */
    method PlayTurn(turns: seq<TurnScript>, t: nat, ghost p: Play, ghost beats: seq<Beat>)
      returns (hasMore: bool, over: bool)
      requires Playing(p, turns, beats, t) && t < |turns|
      modifies this, agent`state, agent`log, agent.steering, agent.followUps
      ensures over ==> Ended(p, beats, t + 1)
      ensures !over && (hasMore || |pending| > 0) ==> Playing(p, turns, beats, t + 1)
      ensures !over && !hasMore && |pending| == 0 ==> Pausing(p, turns, beats, t + 1)
    {
      ghost var before := Here(false);
      hasMore, over := Turn(turns[t], t > 0, beats[t]);
      TurnLeads(p, beats, t, before, Here(over));
    }

    /** The inner loop: turns, as long as the model must see results or messages wait. */
    method RunTurns(turns: seq<TurnScript>, first: nat, ghost p: Play, ghost beats: seq<Beat>)
      returns (leg: Leg, t: nat)
      requires Playing(p, turns, beats, first)
      modifies this, agent`state, agent`log, agent.steering, agent.followUps
      ensures first <= t <= |turns|
      ensures leg == Cut ==> t == |turns| && Playing(p, turns, beats, t)
      ensures leg == Stopped ==> t > first && Ended(p, beats, t)
      ensures leg == Paused ==> t > first && Pausing(p, turns, beats, t)
    {
      hide Stands, Stops, IsOver;
      var hasMore := true;
      t := first;
      while hasMore || |pending| > 0
        invariant first <= t <= |turns|
        invariant if hasMore || |pending| > 0 then Playing(p, turns, beats, t)
                  else t > first && Pausing(p, turns, beats, t)
        decreases |turns| - t
      {
        if t == |turns| {
          return Cut, t;
        }
        var over;
        hasMore, over := PlayTurn(turns, t, p, beats);
        t := t + 1;
        if over {
          return Stopped, t;
        }
      }
      leg := Paused;
    }

    /** Where the run would stop, the follow-up queue decides. */
    method Rest(turns: seq<TurnScript>, t: nat, ghost p: Play, ghost beats: seq<Beat>) returns (over: bool)
      requires Pausing(p, turns, beats, t)
      modifies this, agent`state, agent`log, agent.steering, agent.followUps
      ensures if over then Ended(p, beats, t) else Playing(p, turns, beats, t)
    {
      ghost var before := Here(false);
      PollFollowUps(turns[t - 1].idle);
      over := |pending| == 0;
      RestLeads(p, beats, t, before, Here(over));
      if over {
        CloseRun();
      }
    }

    /** One pass of the outer loop: turns, and a look at the follow-up queue where the run would stop. */
    method RunOn(turns: seq<TurnScript>, first: nat, ghost p: Play, ghost beats: seq<Beat>) returns (leg: Leg, t: nat)
      requires Playing(p, turns, beats, first)
      modifies this, agent`state, agent`log, agent.steering, agent.followUps
      ensures first <= t <= |turns|
      ensures leg == Cut ==> t == |turns| && Playing(p, turns, beats, t)
      ensures leg == Stopped ==> Ended(p, beats, t)
      ensures leg == Paused ==> t > first && Playing(p, turns, beats, t)
    {
      hide Stands, Stops, IsOver;
      leg, t := RunTurns(turns, first, p, beats);
      if leg == Paused {
        var over := Rest(turns, t, p, beats);
        if over {
          leg := Stopped;
        }
      }
    }

    /** The loop, for as many turns as the environment plays: the run is where the play of these turns leads, and
        over exactly if and when the play is. */
    method RunLoop(script: Script) returns (finished: bool, t: nat)
      requires Valid([]) && pending == [] && StageNow() == Busy(0) && (gentle ==> GentleScript(script))
      requires skipInitialSteeringPoll || ViewOf(agent.log).steeredNow == 0
      modifies this, agent`state, agent`log, agent.steering, agent.followUps
      ensures Valid(pending) && StageNow() != Disordered && t <= |script.turns|
      ensures var p := Opened(old(Here(false)), script.opening, old(skipInitialSteeringPoll));
        if finished then Ended(p, BeatsOf(script.turns), t)
        else t == |script.turns| && Playing(p, script.turns, BeatsOf(script.turns), t)
    {
      hide Stands, Stops, IsOver;
      ghost var p := Opened(Here(false), script.opening, skipInitialSteeringPoll);
      ghost var beats := BeatsOf(script.turns);
      OpenRun(script.opening);
      Begins(p, beats);
      t := 0;
      while true
        invariant 0 <= t <= |script.turns| && Playing(p, script.turns, beats, t)
        decreases |script.turns| - t
      {
        var leg;
        leg, t := RunOn(script.turns, t, p, beats);
        if leg != Paused {
          return leg == Stopped, t;
        }
      }
    }
  }

  /** How a stretch of turns ends: the environment plays no further, the run is over, or it would stop. */
  datatype Leg = Cut | Stopped | Paused

  ghost predicate Scored(beats: seq<Beat>, turns: seq<TurnScript>) {
    |beats| == |turns| && forall i :: 0 <= i < |turns| ==> beats[i] == BeatOf(turns[i])
  }

  /** Nothing has been asked or announced. */
  ghost predicate NothingDone(v: View) {
    v.asked == [] && v.started == [] && v.finished == multiset{}
  }

  lemma WorkNone(s: Scene)
    ensures s.Worked([]) == s
  {
    assert s.started + Calls([]) == s.started && s.finished + multiset([]) == s.finished && Messages([]) == [];
    assert s.entered + [] == s.entered && s.own + [] == s.own && s.context + [] == s.context;
  }

  lemma TurnTold(entered: seq<Message>, reply: Reply, results: seq<Message>)
    ensures EndsWith(entered + [Assistant(reply)] + results, [Assistant(reply)] + results)
  {
    var all, tail := entered + [Assistant(reply)] + results, [Assistant(reply)] + results;
    assert all == entered + tail;
    assert all[|entered|..] == tail;
  }
}
