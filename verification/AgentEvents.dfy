// Messages, the events of an agent run, and what a log of events says about the run.
module AgentEvents {
  import opened Wrappers

  datatype Call = Call(id: string, name: string, arguments: string)

  datatype Part = Prose(text: string) | Thought(text: string) | Invoke(call: Call)

  datatype StopReason = Finished | Length | ToolUse | Failure | Aborted

  /** An assistant message; an empty error message is an absent one. */
  datatype Reply = Reply(content: seq<Part>, stopReason: StopReason, errorMessage: string)

  datatype ToolResult = ToolResult(
    content: Option<seq<string>>, details: string, usage: Option<string>, addedToolNames: seq<string>,
    terminate: Option<bool>)

  /** How a tool call came out. */
  datatype Finalized = Finalized(call: Call, result: ToolResult, isError: bool)

  datatype Message =
    | Given(text: string)
    | Assistant(reply: Reply)
    | ToolAnswer(callId: string, toolName: string, content: seq<string>, details: string, usage: Option<string>,
                 addedToolNames: seq<string>, isError: bool)

  datatype Event =
    | AgentStart
    | TurnStart
    | MessageStart(message: Message)
    | MessageUpdate(message: Message)
    | MessageEnd(message: Message)
    | ToolStart(call: Call)
    | ToolUpdate(call: Call, partialResult: string)
    | ToolEnd(outcome: Finalized)
    | TurnEnd(reply: Reply, toolResults: seq<Message>)
    | AgentEnd(messages: seq<Message>)

  // ---- The reducer ----

  datatype AgentState = AgentState(
    messages: seq<Message>, streamingMessage: Option<Message>, pendingToolCalls: set<string>,
    errorMessage: Option<string>, isStreaming: bool)

  function Reduce(s: AgentState, e: Event): (r: AgentState) {
    match e
    case MessageStart(m) => s.(streamingMessage := Some(m))
    case MessageUpdate(m) => s.(streamingMessage := Some(m))
    case MessageEnd(m) => s.(streamingMessage := None, messages := s.messages + [m])
    case ToolStart(call) => s.(pendingToolCalls := s.pendingToolCalls + {call.id})
    case ToolEnd(f) => s.(pendingToolCalls := s.pendingToolCalls - {f.call.id})
    case TurnEnd(reply, _) => if reply.errorMessage == "" then s else s.(errorMessage := Some(reply.errorMessage))
    case AgentEnd(_) => s.(streamingMessage := None)
    case _ => s
  }

  // ---- The log of a run ----

  /** Where a message that enters the transcript comes from. */
  datatype Origin = Nowhere | Prompted | Steering | FollowUp | Produced

  /** What happened in a run so far: the transcript it began with, the events emitted, and the requests
      made to the model, each with the messages sent. */
  datatype Log =
    | Nothing(transcript: seq<Message>)
    | Emitted(before: Log, event: Event, origin: Origin)
    | Asked(before: Log, context: seq<Message>)

  /** `agent_start`, then turns, then `agent_end`; anything else is `Disordered` for good. */
  datatype Stage = Unstarted | Idle(turns: nat) | Busy(turns: nat) | Over(turns: nat) | Disordered

  /** Whether a message is open; a start or end out of place is `Crossed` for good. */
  datatype Bracket = Shut | Open(message: Message) | Crossed

  /** What a request sent, and the transcript as it stood then. */
  datatype Request = Request(sent: seq<Message>, stood: seq<Message>)

  datatype View = View(
    base: seq<Message>,       // the transcript before the run
    stage: Stage,
    bracket: Bracket,
    ended: seq<Message>,      // the `message_end` payloads
    steering: seq<Message>,   // those among them that come from the steering queue
    followUps: seq<Message>,  // and from the follow-up queue
    others: seq<Message>,     // and from neither: prompts, replies, tool results
    started: seq<Call>,       // the calls announced
    finished: multiset<Finalized>, // the outcomes announced
    steeredNow: nat,          // steering messages of the current turn
    crowded: bool,            // some turn had more than one of them
    final: Option<seq<Message>>, // the messages of `agent_end`
    told: bool,               // every `turn_end` told the reply and results that ended its turn
    asked: seq<Request>)      // the requests to the model

  function NextStage(s: Stage, e: Event): (r: Stage) {
    match e
    case AgentStart => if s == Unstarted then Idle(0) else Disordered
    case TurnStart => if s.Idle? then Busy(s.turns) else Disordered
    case TurnEnd(_, _) => if s.Busy? then Idle(s.turns + 1) else Disordered
    case AgentEnd(_) => if s.Idle? && s.turns > 0 then Over(s.turns) else Disordered
    case _ => if s.Busy? then s else Disordered
  }

  /** A message ends as it started, except that a response grows in between. */
  predicate Closes(started: Message, ended: Message) {
    started == ended || (started.Assistant? && ended.Assistant?)
  }

  function NextBracket(b: Bracket, e: Event): (r: Bracket) {
    match e
    case MessageStart(m) => if b == Shut then Open(m) else Crossed
    case MessageUpdate(m) => if b.Open? && Closes(b.message, m) then b else Crossed
    case MessageEnd(m) => if b.Open? && Closes(b.message, m) then Shut else Crossed
    case _ => if b.Open? then Crossed else b
  }

  predicate EndsWith(messages: seq<Message>, tail: seq<Message>) {
    |tail| <= |messages| && messages[|messages| - |tail|..] == tail
  }

  function See(v: View, e: Event, origin: Origin): (r: View) {
    var w := v.(stage := NextStage(v.stage, e), bracket := NextBracket(v.bracket, e));
    match e
    case TurnStart => w.(steeredNow := 0)
    case TurnEnd(reply, results) => w.(told := v.told && EndsWith(v.ended, [Assistant(reply)] + results))
    case AgentEnd(messages) => w.(final := Some(messages))
    case MessageEnd(m) =>
      var x := w.(ended := v.ended + [m]);
      if origin == Steering then
        x.(steering := v.steering + [m], steeredNow := v.steeredNow + 1, crowded := v.crowded || v.steeredNow > 0)
      else if origin == FollowUp then x.(followUps := v.followUps + [m])
      else x.(others := v.others + [m])
    case ToolStart(call) => w.(started := v.started + [call])
    case ToolEnd(f) => w.(finished := v.finished + multiset{f})
    case _ => w
  }

  function Ask(v: View, context: seq<Message>): (r: View) {
    v.(asked := v.asked + [Request(context, v.base + v.ended)])
  }

  function ViewOf(log: Log): (v: View) {
    match log
    case Nothing(transcript) =>
      View(transcript, Unstarted, Shut, [], [], [], [], [], multiset{}, 0, false, None, true, [])
    case Emitted(before, e, origin) => See(ViewOf(before), e, origin)
    case Asked(before, context) => Ask(ViewOf(before), context)
  }

  // ---- What the stage means ----

  datatype Mark = RunBegins | TurnBegins | TurnEnds | RunEnds

  function MarkOf(e: Event): seq<Mark> {
    match e
    case AgentStart => [RunBegins]
    case TurnStart => [TurnBegins]
    case TurnEnd(_, _) => [TurnEnds]
    case AgentEnd(_) => [RunEnds]
    case _ => []
  }

  function Marks(log: Log): (r: seq<Mark>) {
    match log
    case Nothing(_) => []
    case Emitted(before, e, _) => Marks(before) + MarkOf(e)
    case Asked(before, _) => Marks(before)
  }

  function Turns(n: nat): (r: seq<Mark>) {
    if n == 0 then [] else Turns(n - 1) + [TurnBegins, TurnEnds]
  }

  function MarksAt(s: Stage): (r: seq<Mark>) {
    match s
    case Unstarted => []
    case Idle(n) => [RunBegins] + Turns(n)
    case Busy(n) => [RunBegins] + Turns(n) + [TurnBegins]
    case Over(n) => [RunBegins] + Turns(n) + [RunEnds]
    case Disordered => []
  }

  lemma MarksStep(s: Stage, e: Event)
    requires NextStage(s, e) != Disordered
    ensures MarksAt(s) + MarkOf(e) == MarksAt(NextStage(s, e))
    ensures NextStage(s, e).Over? ==> NextStage(s, e).turns > 0
  {
    match e
    case TurnEnd(_, _) =>
      assert Turns(s.turns + 1) == Turns(s.turns) + [TurnBegins, TurnEnds];
    case _ =>
  }

  lemma StageStep(v: View, e: Event, origin: Origin)
    ensures See(v, e, origin).stage == NextStage(v.stage, e)
    ensures v.stage == Disordered ==> NextStage(v.stage, e) == Disordered
  {
  }

  /** A run that is over began once, had at least one turn, its turns strictly alternate, and it ended once. */
  lemma {:induction false} StageMeansMarks(log: Log)
    requires ViewOf(log).stage != Disordered
    ensures Marks(log) == MarksAt(ViewOf(log).stage)
    ensures ViewOf(log).stage.Over? ==> ViewOf(log).stage.turns > 0
  {
    match log
    case Nothing(_) =>
    case Emitted(before, e, origin) =>
      StageStep(ViewOf(before), e, origin);
      StageMeansMarks(before);
      MarksStep(ViewOf(before).stage, e);
    case Asked(before, _) =>
      StageMeansMarks(before);
  }

  /** Every message that ended is counted once: as a steering message, as a follow-up, or as neither. */
  lemma {:induction false} EveryPayloadIsCounted(log: Log)
    ensures var v := ViewOf(log);
      multiset(v.ended) == multiset(v.steering) + multiset(v.followUps) + multiset(v.others)
  {
    match log
    case Nothing(_) =>
    case Emitted(before, e, origin) =>
      EveryPayloadIsCounted(before);
      PayloadStep(ViewOf(before), e, origin);
    case Asked(before, _) =>
      EveryPayloadIsCounted(before);
  }

  lemma PayloadStep(v: View, e: Event, origin: Origin)
    requires multiset(v.ended) == multiset(v.steering) + multiset(v.followUps) + multiset(v.others)
    ensures var w := See(v, e, origin);
      multiset(w.ended) == multiset(w.steering) + multiset(w.followUps) + multiset(w.others)
  {
    if e.MessageEnd? {
      var m := e.message;
      assert multiset(v.ended + [m]) == multiset(v.ended) + multiset{m};
      assert multiset(v.steering + [m]) == multiset(v.steering) + multiset{m};
      assert multiset(v.followUps + [m]) == multiset(v.followUps) + multiset{m};
      assert multiset(v.others + [m]) == multiset(v.others) + multiset{m};
    }
  }
}
