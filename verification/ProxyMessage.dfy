// A streamed assistant message rebuilt from events that carry only what changed.
module ProxyMessage {
  import opened Wrappers

  datatype ToolCall = ToolCall(
    id: string, name: string, arguments: string, thoughtSignature: Option<string>, namespace: Option<string>)

  datatype Block =
    | Text(text: string, textSignature: Option<string>)
    | Thinking(thinking: string, thinkingSignature: Option<string>)
    | Call(call: ToolCall, partialJson: Option<string>)

  datatype Kind = TextKind | ThinkingKind | CallKind

  /** What an event does to the block at its content index. */
  datatype Change =
    | Open(kind: Kind, id: string, name: string)
    | Delta(kind: Kind, delta: string)
    | CloseText(signature: Option<string>)
    | CloseThinking(signature: Option<string>)
    | CloseCall(toolCall: ToolCall)

  datatype ProxyEvent =
    | Start
    | Content(index: nat, change: Change)
    | Done(reason: string, usage: string)
    | Failed(reason: string, message: Option<string>, usage: string)
    | Unhandled

  /** What is pushed to the message's listeners. */
  datatype StreamEvent =
    | Started
    | Opened(index: nat, kind: Kind)
    | Grown(index: nat, kind: Kind, delta: string)
    | Closed(index: nat, block: Block)
    | Finished(reason: string)
    | Broken(reason: string, message: Option<string>)

  datatype Partial = Partial(
    content: map<nat, Block>, stopReason: string, errorMessage: Option<string>, usage: string)

  /** The reading of unfinished JSON arguments. */
  type JsonReader = string -> string

  function KindOf(b: Block): Kind {
    match b
    case Text(_, _) => TextKind
    case Thinking(_, _) => ThinkingKind
    case Call(_, _) => CallKind
  }

  /** A field that was deleted reads as `undefined` when text is appended to it. */
  function Appended(partialJson: Option<string>, delta: string): string {
    (if partialJson.Some? then partialJson.value else UNDEFINED) + delta
  }

  function Fresh(kind: Kind, id: string, name: string): (b: Block)
    ensures KindOf(b) == kind
  {
    match kind
    case TextKind => Text("", None)
    case ThinkingKind => Thinking("", None)
    case CallKind => Call(ToolCall(id, name, "{}", None, None), Some(""))
  }

  function Grow(b: Block, delta: string, json: JsonReader): (r: Block)
    ensures KindOf(r) == KindOf(b)
  {
    match b
    case Text(text, s) => Text(text + delta, s)
    case Thinking(thinking, s) => Thinking(thinking + delta, s)
    case Call(call, partialJson) =>
      var whole := Appended(partialJson, delta);
      Call(call.(arguments := json(whole)), Some(whole))
  }

  function Assign(b: Block, toolCall: ToolCall): (r: Block)
    requires b.Call?
    ensures r.Call? && r.partialJson == None
  {
    var c := b.call;
    Call(ToolCall(toolCall.id, toolCall.name, toolCall.arguments,
                  Either(toolCall.thoughtSignature, c.thoughtSignature), Either(toolCall.namespace, c.namespace)),
         None)
  }

  function Misplaced(kind: Kind, what: string): string {
    match kind
    case TextKind => "Received text" + what + " for non-text content"
    case ThinkingKind => "Received thinking" + what + " for non-thinking content"
    case CallKind => "Received toolcall" + what + " for non-toolCall content"
  }

  datatype Slot = Slot(block: Option<Block>)

  /** One event at its own index, given what that index holds; `Err` is an exception. */
  function ChangeSlot(slot: Slot, c: Change, json: JsonReader): (r: Result<Slot, string>) {
    match c
    case Open(kind, id, name) => Ok(Slot(Some(Fresh(kind, id, name))))
    case Delta(kind, delta) =>
      if slot.block.Some? && KindOf(slot.block.value) == kind then Ok(Slot(Some(Grow(slot.block.value, delta, json))))
      else Err(Misplaced(kind, "_delta"))
    case CloseText(signature) =>
      if slot.block.Some? && slot.block.value.Text? then Ok(Slot(Some(slot.block.value.(textSignature := signature))))
      else Err(Misplaced(TextKind, "_end"))
    case CloseThinking(signature) =>
      if slot.block.Some? && slot.block.value.Thinking? then
        Ok(Slot(Some(slot.block.value.(thinkingSignature := signature))))
      else Err(Misplaced(ThinkingKind, "_end"))
    case CloseCall(toolCall) =>
      if slot.block.Some? && slot.block.value.Call? then Ok(Slot(Some(Assign(slot.block.value, toolCall))))
      else Ok(slot)
  }

  function At(content: map<nat, Block>, i: nat): (s: Slot) {
    Slot(if i in content then Some(content[i]) else None)
  }

  function Put(content: map<nat, Block>, i: nat, s: Slot): (r: map<nat, Block>)
    requires s.block.None? ==> i !in content
    ensures At(r, i) == s
    ensures forall k :: k != i ==> At(r, k) == At(content, k)
  {
    if s.block.Some? then content[i := s.block.value] else content
  }

  lemma ChangeKeeps(slot: Slot, c: Change, json: JsonReader)
    ensures var r := ChangeSlot(slot, c, json); r.Ok? && r.value.block.None? ==> slot.block.None?
  {
  }

  function Apply(p: Partial, e: ProxyEvent, json: JsonReader): (r: Result<Partial, string>) {
    match e
    case Start => Ok(p)
    case Unhandled => Ok(p)
    case Done(reason, usage) => Ok(p.(stopReason := reason, usage := usage))
    case Failed(reason, message, usage) => Ok(p.(stopReason := reason, errorMessage := message, usage := usage))
    case Content(i, c) =>
      ChangeKeeps(At(p.content, i), c, json);
      match ChangeSlot(At(p.content, i), c, json)
      case Err(error) => Err(error)
      case Ok(slot) => Ok(p.(content := Put(p.content, i, slot)))
  }

  /** What is pushed once the event has been applied; a closing call without its block pushes nothing. */
  function Emission(p: Partial, e: ProxyEvent): (r: Option<StreamEvent>) {
    match e
    case Start => Some(Started)
    case Unhandled => None
    case Done(reason, _) => Some(Finished(reason))
    case Failed(reason, message, _) => Some(Broken(reason, message))
    case Content(i, Open(kind, _, _)) => Some(Opened(i, kind))
    case Content(i, Delta(kind, delta)) => Some(Grown(i, kind, delta))
    case Content(i, CloseText(_)) => if i in p.content then Some(Closed(i, p.content[i])) else None
    case Content(i, CloseThinking(_)) => if i in p.content then Some(Closed(i, p.content[i])) else None
    case Content(i, CloseCall(_)) => if i in p.content && p.content[i].Call? then Some(Closed(i,
        p.content[i])) else None
  }

  // ---- Every index is rebuilt from its own events alone ----

  function Changes(events: seq<ProxyEvent>, i: nat): (r: seq<Change>) {
    if events == [] then []
    else
      var e := events[|events| - 1];
      Changes(events[..|events| - 1], i) + (if e.Content? && e.index == i then [e.change] else [])
  }

  /** The block that a sequence of changes builds from nothing. */
  function Build(changes: seq<Change>, json: JsonReader): (r: Result<Slot, string>) {
    if changes == [] then Ok(Slot(None))
    else
      match Build(changes[..|changes| - 1], json)
      case Err(error) => Err(error)
      case Ok(slot) => ChangeSlot(slot, changes[|changes| - 1], json)
  }

  function ApplyAll(p: Partial, events: seq<ProxyEvent>, json: JsonReader): (r: Result<Partial, string>) {
    if events == [] then Ok(p)
    else
      match ApplyAll(p, events[..|events| - 1], json)
      case Err(error) => Err(error)
      case Ok(q) => Apply(q, events[|events| - 1], json)
  }

  /** What each index holds after these events, or the error that its own events raise. */
  ghost function Slots(events: seq<ProxyEvent>, json: JsonReader): nat -> Result<Slot, string> {
    (i: nat) => Build(Changes(events, i), json)
  }

  ghost predicate Agrees(content: map<nat, Block>, events: seq<ProxyEvent>, json: JsonReader) {
    forall i: nat :: Slots(events, json)(i) == Ok(At(content, i))
  }

  lemma ChangesSnoc(events: seq<ProxyEvent>, e: ProxyEvent, i: nat)
    ensures Changes(events + [e], i) == Changes(events, i) + (if e.Content? && e.index == i then [e.change] else [])
  {
    assert (events + [e])[..|events|] == events;
  }

  lemma BuildSnoc(changes: seq<Change>, c: Change, json: JsonReader)
    ensures Build(changes + [c], json) ==
      (match Build(changes, json) case Err(error) => Err(error) case Ok(slot) => ChangeSlot(slot, c, json))
  {
    assert (changes + [c])[..|changes|] == changes;
  }

  lemma SlotAfter(events: seq<ProxyEvent>, e: ProxyEvent, i: nat, json: JsonReader)
    ensures !(e.Content? && e.index == i) ==>
      Build(Changes(events + [e], i), json) == Build(Changes(events, i), json)
    ensures e.Content? && e.index == i ==>
      Build(Changes(events + [e], i), json) ==
      (match Build(Changes(events, i), json)
       case Err(error) => Err(error)
       case Ok(slot) => ChangeSlot(slot, e.change, json))
  {
    ChangesSnoc(events, e, i);
    if e.Content? && e.index == i {
      BuildSnoc(Changes(events, i), e.change, json);
    } else {
      assert Changes(events, i) + [] == Changes(events, i);
    }
  }

  lemma OneMoreEvent(p: Partial, events: seq<ProxyEvent>, e: ProxyEvent, json: JsonReader)
    requires Agrees(p.content, events, json)
    ensures Apply(p, e, json).Ok? <==> forall i: nat :: Slots(events + [e], json)(i).Ok?
    ensures Apply(p, e, json).Ok? ==> Agrees(Apply(p, e, json).value.content, events + [e], json)
  {
    forall i: nat ensures Slots(events + [e], json)(i) == Changed(Slots(events, json)(i), i, e, json) {
      SlotAfter(events, e, i, json);
    }
    SlotsFollow(p, e, Slots(events, json), Slots(events + [e], json), json);
  }

  /** One more event, seen from index `i`. */
  function Changed(slot: Result<Slot, string>, i: nat, e: ProxyEvent, json: JsonReader): Result<Slot, string> {
    if slot.Ok? && e.Content? && e.index == i then ChangeSlot(slot.value, e.change, json) else slot
  }

  /** The content follows its slots through one event. */
  lemma SlotsFollow(p: Partial, e: ProxyEvent, before: nat -> Result<Slot, string>, after: nat -> Result<Slot, string>,
                    json: JsonReader)
    requires forall i: nat :: before(i) == Ok(At(p.content, i))
    requires forall i: nat :: after(i) == Changed(before(i), i, e, json)
    ensures Apply(p, e, json).Ok? <==> forall i: nat :: after(i).Ok?
    ensures Apply(p, e, json).Ok? ==> forall i: nat :: after(i) == Ok(At(Apply(p, e, json).value.content, i))
  {
    if e.Content? {
      ChangeKeeps(At(p.content, e.index), e.change, json);
      assert after(e.index) == ChangeSlot(At(p.content, e.index), e.change, json);
    }
  }

  lemma OneMoreFails(events: seq<ProxyEvent>, e: ProxyEvent, i: nat, json: JsonReader)
    requires Slots(events, json)(i).Err?
    ensures Slots(events + [e], json)(i).Err?
  {
    SlotAfter(events, e, i, json);
  }

  /** However the events of different blocks are interleaved: the message can be rebuilt exactly when
      each block can be rebuilt from its own events, and then holds just those blocks. */
  lemma {:induction false} BlocksAreIndependent(p: Partial, events: seq<ProxyEvent>, json: JsonReader)
    requires p.content == map[]
    ensures ApplyAll(p, events, json).Ok? <==> forall i: nat :: Slots(events, json)(i).Ok?
    ensures ApplyAll(p, events, json).Ok? ==> Agrees(ApplyAll(p, events, json).value.content, events, json)
  {
    if events != [] {
      var before, e := events[..|events| - 1], events[|events| - 1];
      assert events == before + [e];
      BlocksAreIndependent(p, before, json);
      if ApplyAll(p, before, json).Ok? {
        OneMoreEvent(ApplyAll(p, before, json).value, before, e, json);
      } else {
        var i: nat :| Slots(before, json)(i).Err?;
        OneMoreFails(before, e, i, json);
      }
    }
  }

  /** Two interleavings of the same blocks rebuild the same content. */
  lemma InterleavingIsInvisible(p: Partial, a: seq<ProxyEvent>, b: seq<ProxyEvent>, json: JsonReader)
    requires p.content == map[] && forall i: nat :: Changes(a, i) == Changes(b, i)
    ensures ApplyAll(p, a, json).Ok? <==> ApplyAll(p, b, json).Ok?
    ensures ApplyAll(p, a, json).Ok? ==> ApplyAll(p, a, json).value.content == ApplyAll(p, b, json).value.content
  {
    SlotsAgree(a, b, json);
    SameOutcome(ApplyAll(p, a, json), ApplyAll(p, b, json), Slots(a, json), Slots(b, json)) by {
      BlocksAreIndependent(p, a, json);
      BlocksAreIndependent(p, b, json);
    }
  }

  lemma SlotsAgree(a: seq<ProxyEvent>, b: seq<ProxyEvent>, json: JsonReader)
    requires forall i: nat :: Changes(a, i) == Changes(b, i)
    ensures forall i: nat :: Slots(a, json)(i) == Slots(b, json)(i)
  {
  }

  /** Messages that are rebuilt exactly when all of the same slots are, and then hold just those. */
  lemma SameOutcome(x: Result<Partial, string>, y: Result<Partial, string>, f: nat -> Result<Slot, string>,
                    g: nat -> Result<Slot, string>)
    requires forall i: nat :: f(i) == g(i)
    requires x.Ok? <==> forall i: nat :: f(i).Ok?
    requires y.Ok? <==> forall i: nat :: g(i).Ok?
    requires x.Ok? ==> forall i: nat :: f(i) == Ok(At(x.value.content, i))
    requires y.Ok? ==> forall i: nat :: g(i) == Ok(At(y.value.content, i))
    ensures x.Ok? <==> y.Ok?
    ensures x.Ok? ==> x.value.content == y.value.content
  {
    if x.Ok? && y.Ok? {
      SameSlots(x.value.content, y.value.content, f, g);
    }
  }

  lemma SameSlots(x: map<nat, Block>, y: map<nat, Block>, f: nat -> Result<Slot, string>,
                  g: nat -> Result<Slot, string>)
    requires forall i: nat :: f(i) == g(i)
    requires forall i: nat :: f(i) == Ok(At(x, i))
    requires forall i: nat :: g(i) == Ok(At(y, i))
    ensures x == y
  {
    forall i: nat ensures At(x, i) == At(y, i) {
      assert f(i) == g(i);
    }
    assert forall i: nat :: i in x <==> At(x, i).block.Some?;
    assert forall i: nat :: i in y <==> At(y, i).block.Some?;
  }

  // ---- What one well-formed block becomes ----

  function DeltasOf(changes: seq<Change>): (text: string) {
    if changes == [] then ""
    else
      var c := changes[|changes| - 1];
      DeltasOf(changes[..|changes| - 1]) + (if c.Delta? then c.delta else "")
  }

  /** An opening of some kind and then only growth of that kind. */
  ghost predicate Growing(changes: seq<Change>) {
    && |changes| > 0 && changes[0].Open?
    && forall k :: 1 <= k < |changes| ==> changes[k].Delta? && changes[k].kind == changes[0].kind
  }

  ghost predicate Closes(c: Change, kind: Kind) {
    match c
    case CloseText(_) => kind == TextKind
    case CloseThinking(_) => kind == ThinkingKind
    case CloseCall(_) => kind == CallKind
    case _ => false
  }

  /** The events a server sends for one block: its start, its deltas, its end. */
  ghost predicate WellFormed(changes: seq<Change>) {
    && |changes| >= 2
    && Growing(changes[..|changes| - 1])
    && Closes(changes[|changes| - 1], changes[0].kind)
  }

  /** The block while it grows. */
  ghost predicate Grown?(b: Block, changes: seq<Change>)
    requires Growing(changes)
  {
    && KindOf(b) == changes[0].kind
    && match b
       case Text(text, s) => text == DeltasOf(changes) && s == None
       case Thinking(thinking, s) => thinking == DeltasOf(changes) && s == None
       case Call(call, partialJson) =>
         && partialJson == Some(DeltasOf(changes))
         && call.thoughtSignature == None && call.namespace == None
  }

  /** The finished block: all of its text, or the final tool call as the server sent it. */
  ghost function Expected(changes: seq<Change>): Block
    requires WellFormed(changes)
  {
    var text, last := DeltasOf(changes), changes[|changes| - 1];
    match changes[0].kind
    case TextKind => Text(text, last.signature)
    case ThinkingKind => Thinking(text, last.signature)
    case CallKind => Call(last.toolCall, None)
  }

  lemma DeltasSnoc(changes: seq<Change>, c: Change)
    ensures DeltasOf(changes + [c]) == DeltasOf(changes) + (if c.Delta? then c.delta else "")
  {
    assert (changes + [c])[..|changes|] == changes;
  }

  lemma OpenBuilds(c: Change, json: JsonReader)
    requires c.Open?
    ensures Build([c], json) == Ok(Slot(Some(Fresh(c.kind, c.id, c.name)))) && DeltasOf([c]) == ""
  {
    BuildSnoc([], c, json);
    DeltasSnoc([], c);
    assert [] + [c] == [c];
  }

  lemma {:induction false} GrowingBuilds(changes: seq<Change>, json: JsonReader)
    requires Growing(changes)
    ensures var r := Build(changes, json); r.Ok? && r.value.block.Some? && Grown?(r.value.block.value, changes)
  {
    var n := |changes| - 1;
    var before, c := changes[..n], changes[n];
    if n == 0 {
      assert changes == [c];
      OpenBuilds(c, json);
    } else {
      GrowingBuilds(before, json);
      DeltasSnoc(before, c);
      assert changes == before + [c];
    }
  }

  /** A well-formed block is rebuilt in full. */
  lemma WellFormedBuilds(changes: seq<Change>, json: JsonReader)
    requires WellFormed(changes)
    ensures Build(changes, json) == Ok(Slot(Some(Expected(changes))))
  {
    var n := |changes| - 1;
    GrowingBuilds(changes[..n], json);
    DeltasSnoc(changes[..n], changes[n]);
    assert changes == changes[..n] + [changes[n]];
    BuildSnoc(changes[..n], changes[n], json);
    assert changes[..n][0] == changes[0];
    assert DeltasOf(changes[..n]) + "" == DeltasOf(changes[..n]);
  }

  /** Any interleaving of well-formed blocks is rebuilt without an error, block by block. */
  lemma WellFormedMessageIsRebuilt(p: Partial, events: seq<ProxyEvent>, json: JsonReader)
    requires p.content == map[]
    requires forall i: nat :: Changes(events, i) == [] || WellFormed(Changes(events, i))
    ensures ApplyAll(p, events, json).Ok?
    ensures var content := ApplyAll(p, events, json).value.content;
      forall i: nat :: if Changes(events, i) == [] then i !in content
                  else i in content && content[i] == Expected(Changes(events, i))
  {
    forall i: nat ensures Build(Changes(events, i), json) ==
      Ok(Slot(if Changes(events, i) == [] then None else Some(Expected(Changes(events, i)))))
    {
      if Changes(events, i) != [] {
        WellFormedBuilds(Changes(events, i), json);
      }
    }
    BlocksAreIndependent(p, events, json);
    var content := ApplyAll(p, events, json).value.content;
    forall i: nat ensures if Changes(events, i) == [] then i !in content
                  else i in content && content[i] == Expected(Changes(events, i))
    {
      assert Build(Changes(events, i), json) == Ok(At(content, i));
    }
  }

  // ---- The arguments of a call while it is streamed ----

  /** The text of the deltas since the block was last opened. */
  function SinceOpen(changes: seq<Change>): (text: string) {
    if changes == [] then ""
    else
      var c, before := changes[|changes| - 1], SinceOpen(changes[..|changes| - 1]);
      if c.Open? then "" else if c.Delta? then before + c.delta else before
  }

  /** The text that the last end of a call cut off, if one came after the last opening. */
  function CutOff(changes: seq<Change>): (text: Option<string>) {
    if changes == [] then None
    else
      var c, init := changes[|changes| - 1], changes[..|changes| - 1];
      if c.Open? then None else if c.CloseCall? then Some(SinceOpen(init)) else CutOff(init)
  }

  const UNDEFINED := "undefined"

  /** What the code has accumulated: all deltas since the opening, or, once an end has come between, the
      text `undefined` and the deltas since that end. */
  ghost predicate Accumulated(slot: Slot, changes: seq<Change>) {
    slot.block.Some? && slot.block.value.Call? ==>
      match slot.block.value.partialJson
      case Some(json) =>
        (match CutOff(changes)
         case None => json == SinceOpen(changes)
         case Some(cut) =>
           && cut <= SinceOpen(changes) && json == UNDEFINED + SinceOpen(changes)[|cut|..])
      case None => CutOff(changes) == Some(SinceOpen(changes))
  }

  lemma AccumulatedStep(slot: Slot, changes: seq<Change>, c: Change, json: JsonReader)
    requires Accumulated(slot, changes) && ChangeSlot(slot, c, json).Ok?
    ensures Accumulated(ChangeSlot(slot, c, json).value, changes + [c])
  {
    assert (changes + [c])[..|changes|] == changes;
    if c.Delta? && slot.block.Some? && slot.block.value.Call? && CutOff(changes).Some? {
      var cut, text := CutOff(changes).value, SinceOpen(changes);
      assert (text + c.delta)[|cut|..] == text[|cut|..] + c.delta;
      assert UNDEFINED + (text[|cut|..] + c.delta) == UNDEFINED + text[|cut|..] + c.delta;
    }
  }

  lemma {:induction false} CallsAccumulate(changes: seq<Change>, json: JsonReader)
    requires Build(changes, json).Ok?
    ensures Accumulated(Build(changes, json).value, changes)
  {
    if changes != [] {
      var n := |changes| - 1;
      CallsAccumulate(changes[..n], json);
      assert changes == changes[..n] + [changes[n]];
      AccumulatedStep(Build(changes[..n], json).value, changes[..n], changes[n], json);
    }
  }

  lemma SameTail(cut: string, text: string, head: string)
    requires cut <= text
    ensures text == head + text[|cut|..] <==> cut == head
  {
    assert text == cut + text[|cut|..];
    if text == head + text[|cut|..] {
      assert |cut| == |head| && cut == text[..|cut|] && head == text[..|head|];
    }
  }

  /** While a call is streamed, the text its arguments are read from is that of all its deltas if and only if
      no end came since its opening, or what that end cut off happens to spell `undefined`. */
  lemma ArgumentsAreIntactIff(changes: seq<Change>, json: JsonReader)
    requires Build(changes, json).Ok?
    requires var b := Build(changes, json).value.block; b.Some? && b.value.Call? && b.value.partialJson.Some?
    ensures Build(changes, json).value.block.value.partialJson == Some(SinceOpen(changes)) <==>
            (CutOff(changes).None? || CutOff(changes) == Some(UNDEFINED))
  {
    CallsAccumulate(changes, json);
    if CutOff(changes).Some? {
      SameTail(CutOff(changes).value, SinceOpen(changes), UNDEFINED);
    }
  }

  /** The failing input: a delta after the end of its call. */
  lemma DeltaAfterEnd(id: string, name: string, toolCall: ToolCall, json: JsonReader)
    ensures var changes := [Open(CallKind, id, name), Delta(CallKind, "{"), CloseCall(toolCall), Delta(CallKind, "}")];
      && Build(changes, json).Ok? && SinceOpen(changes) == "{}"
      && Build(changes, json).value.block.Some? && Build(changes, json).value.block.value.Call?
      && Build(changes, json).value.block.value.partialJson == Some("undefined}")
      && Build(changes, json).value.block.value.call.arguments == json("undefined}")
  {
    var a, b, c, d := Open(CallKind, id, name), Delta(CallKind, "{"), CloseCall(toolCall), Delta(CallKind, "}");
    OpenBuilds(a, json);
    BuildSnoc([a], b, json);
    BuildSnoc([a, b], c, json);
    BuildSnoc([a, b, c], d, json);
    assert [a] + [b] == [a, b] && [a, b] + [c] == [a, b, c] && [a, b, c] + [d] == [a, b, c, d];
    DeltaAfterEndText(a, b, c, d);
    assert UNDEFINED + "}" == "undefined}" && "{" + "}" == "{}";
  }

  lemma DeltaAfterEndText(a: Change, b: Change, c: Change, d: Change)
    requires a.Open? && b.Delta? && c.CloseCall? && d.Delta?
    ensures SinceOpen([a, b, c, d]) == b.delta + d.delta
  {
    SinceSnoc([], a);
    SinceSnoc([a], b);
    SinceSnoc([a, b], c);
    SinceSnoc([a, b, c], d);
    assert [] + [a] == [a] && [a] + [b] == [a, b] && [a, b] + [c] == [a, b, c] && [a, b, c] + [d] == [a, b, c, d];
    assert "" + b.delta == b.delta;
  }

  lemma SinceSnoc(changes: seq<Change>, c: Change)
    ensures var before := SinceOpen(changes);
      SinceOpen(changes + [c]) == if c.Open? then "" else if c.Delta? then before + c.delta else before
  {
    assert (changes + [c])[..|changes|] == changes;
  }
}
