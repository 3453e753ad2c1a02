// What a proxied response comes to: when it can be rebuilt, what its listeners are told, and how it ends.
module ProxyOutcomes {
  import opened Wrappers
  import opened ProxyLines
  import opened ProxyMessage
  import opened ProxyStreaming

  // ---- When a block can be rebuilt ----

  /** The kind as which the block was last opened by the first `n` changes. */
  function OpenedAs(changes: seq<Change>, n: nat): (kind: Option<Kind>)
    requires n <= |changes|
  {
    if n == 0 then None
    else if changes[n - 1].Open? then Some(changes[n - 1].kind)
    else OpenedAs(changes, n - 1)
  }

  /** The kind of block that a change is meant for; an end of a call is for anything. */
  function MeantFor(c: Change): (kind: Option<Kind>) {
    match c
    case Delta(kind, _) => Some(kind)
    case CloseText(_) => Some(TextKind)
    case CloseThinking(_) => Some(ThinkingKind)
    case _ => None
  }

  /** The `k`-th change comes for a kind of block that the index does not hold. */
  predicate IsMisplaced(changes: seq<Change>, k: nat) {
    k < |changes| && MeantFor(changes[k]).Some? && OpenedAs(changes, k) != MeantFor(changes[k])
  }

  function SlotKind(s: Slot): (kind: Option<Kind>) {
    if s.block.Some? then Some(KindOf(s.block.value)) else None
  }

  lemma ChangeFailsIff(slot: Slot, c: Change, json: JsonReader)
    ensures ChangeSlot(slot, c, json).Err? <==> MeantFor(c).Some? && SlotKind(slot) != MeantFor(c)
    ensures ChangeSlot(slot, c, json).Ok? ==>
      SlotKind(ChangeSlot(slot, c, json).value) == if c.Open? then Some(c.kind) else SlotKind(slot)
  {
  }

  /** The first `n` changes build a block if and only if none of them is misplaced, and it is of the kind as which it
      was last opened. */
  lemma {:induction false} BuildsTo(changes: seq<Change>, n: nat, json: JsonReader)
    requires n <= |changes|
    ensures Build(changes[..n], json).Ok? <==> forall k: nat :: k < n ==> !IsMisplaced(changes, k)
    ensures Build(changes[..n], json).Ok? ==> SlotKind(Build(changes[..n], json).value) == OpenedAs(changes, n)
  {
    if n > 0 {
      var m := n - 1;
      BuildsTo(changes, m, json);
      BuildSnoc(changes[..m], changes[m], json);
      assert changes[..n] == changes[..m] + [changes[m]];
      if Build(changes[..m], json).Ok? {
        ChangeFailsIff(Build(changes[..m], json).value, changes[m], json);
      }
      hide Build, ChangeSlot;
      assert Build(changes[..n], json).Ok? <==> Build(changes[..m], json).Ok? && !IsMisplaced(changes, m);
    }
  }

  ghost predicate WellPlaced(changes: seq<Change>) {
    forall k: nat :: k < |changes| ==> !IsMisplaced(changes, k)
  }

  /** A block can be rebuilt if and only if each of its changes is for the kind as which it was last opened. */
  lemma BuildsIff(changes: seq<Change>, json: JsonReader)
    ensures Build(changes, json).Ok? <==> WellPlaced(changes)
  {
    BuildsTo(changes, |changes|, json);
    assert changes[..|changes|] == changes;
  }

  /** The events at this index are in place. */
  ghost predicate InPlace(events: seq<ProxyEvent>, i: nat) {
    WellPlaced(Changes(events, i))
  }

  /** A message can be rebuilt if and only if no change of any block is misplaced among those of its own block. */
  lemma MessageRebuildsIff(p: Partial, events: seq<ProxyEvent>, json: JsonReader)
    requires p.content == map[]
    ensures ApplyAll(p, events, json).Ok? <==> forall i: nat :: InPlace(events, i)
  {
    BlocksAreIndependent(p, events, json);
    if ApplyAll(p, events, json).Ok? {
      forall i: nat ensures InPlace(events, i) {
        assert Slots(events, json)(i).Ok?;
        BuildsIff(Changes(events, i), json);
      }
    } else {
      var i: nat :| Slots(events, json)(i).Err?;
      BuildsIff(Changes(events, i), json);
      assert !InPlace(events, i);
    }
  }

  // ---- How a message ends ----

  predicate Ends(e: ProxyEvent) { e.Done? || e.Failed? }

  /** The last of the first `n` events that tells how the message ended. */
  ghost predicate LastEnd(events: seq<ProxyEvent>, n: nat, k: nat) {
    k < n <= |events| && Ends(events[k]) && forall j :: k < j < n ==> !Ends(events[j])
  }

  ghost predicate LastFailure(events: seq<ProxyEvent>, n: nat, k: nat) {
    k < n <= |events| && events[k].Failed? && forall j :: k < j < n ==> !events[j].Failed?
  }

  /** The reason and the usage of the message are those of its last end. */
  ghost predicate Concluded(p: Partial, q: Partial, events: seq<ProxyEvent>, n: nat) {
    && (forall k: nat :: LastEnd(events, n, k) ==> q.stopReason == events[k].reason && q.usage == events[k].usage)
    && ((exists k: nat :: LastEnd(events, n, k)) || (q.stopReason == p.stopReason && q.usage == p.usage))
  }

  /** The error of the message is that of its last failure. */
  ghost predicate Blamed(p: Partial, q: Partial, events: seq<ProxyEvent>, n: nat) {
    && (forall k: nat :: LastFailure(events, n, k) ==> q.errorMessage == events[k].message)
    && ((exists k: nat :: LastFailure(events, n, k)) || q.errorMessage == p.errorMessage)
  }

  ghost predicate EndsAsTold(p: Partial, q: Partial, events: seq<ProxyEvent>, n: nat) {
    Concluded(p, q, events, n) && Blamed(p, q, events, n)
  }

  lemma LastEndStep(events: seq<ProxyEvent>, n: nat, k: nat)
    requires 0 < n <= |events|
    ensures LastEnd(events, n, k) <==> if Ends(events[n - 1]) then k == n - 1 else LastEnd(events, n - 1, k)
  {
  }

  lemma LastFailureStep(events: seq<ProxyEvent>, n: nat, k: nat)
    requires 0 < n <= |events|
    ensures LastFailure(events, n, k) <==> if events[n - 1].Failed? then k == n - 1 else LastFailure(events, n - 1, k)
  {
  }

  lemma ConcludedStep(p: Partial, q: Partial, r: Partial, events: seq<ProxyEvent>, n: nat)
    requires 0 < n <= |events| && Concluded(p, q, events, n - 1)
    requires var e := events[n - 1];
      && (r.stopReason == if Ends(e) then e.reason else q.stopReason)
      && (r.usage == if Ends(e) then e.usage else q.usage)
    ensures Concluded(p, r, events, n)
  {
    hide LastEnd;
    var m := n - 1;
    forall k: nat ensures LastEnd(events, n, k) <==> if Ends(events[m]) then k == m else LastEnd(events, m, k) {
      LastEndStep(events, n, k);
    }
    if Ends(events[m]) {
      assert LastEnd(events, n, m);
    } else if k: nat :| LastEnd(events, m, k) {
      assert LastEnd(events, n, k);
    }
  }

  lemma BlamedStep(p: Partial, q: Partial, r: Partial, events: seq<ProxyEvent>, n: nat)
    requires 0 < n <= |events| && Blamed(p, q, events, n - 1)
    requires var e := events[n - 1]; r.errorMessage == if e.Failed? then e.message else q.errorMessage
    ensures Blamed(p, r, events, n)
  {
    hide LastFailure;
    var m := n - 1;
    forall k: nat
      ensures LastFailure(events, n, k) <==> if events[m].Failed? then k == m else LastFailure(events, m, k)
    {
      LastFailureStep(events, n, k);
    }
    if events[m].Failed? {
      assert LastFailure(events, n, m);
    } else if k: nat :| LastFailure(events, m, k) {
      assert LastFailure(events, n, k);
    }
  }

  lemma AppliedEnds(q: Partial, e: ProxyEvent, json: JsonReader)
    requires Apply(q, e, json).Ok?
    ensures var r := Apply(q, e, json).value;
      && (r.stopReason == if Ends(e) then e.reason else q.stopReason)
      && (r.usage == if Ends(e) then e.usage else q.usage)
      && (r.errorMessage == if e.Failed? then e.message else q.errorMessage)
  {
  }

  lemma {:induction false} MessageEndsAsTold(p: Partial, events: seq<ProxyEvent>, n: nat, json: JsonReader)
    requires n <= |events| && ApplyAll(p, events[..n], json).Ok?
    ensures EndsAsTold(p, ApplyAll(p, events[..n], json).value, events, n)
  {
    if n > 0 {
      var m := n - 1;
      assert events[..n] == events[..m] + [events[m]];
      ApplySnoc(p, events[..m], events[m], json);
      MessageEndsAsTold(p, events, m, json);
      var q := ApplyAll(p, events[..m], json).value;
      AppliedEnds(q, events[m], json);
      hide Concluded, Blamed;
      ConcludedStep(p, q, ApplyAll(p, events[..n], json).value, events, n);
      BlamedStep(p, q, ApplyAll(p, events[..n], json).value, events, n);
    }
  }

  // ---- What the listeners are told ----

  /** What is pushed for the first `n` events, each applied to what those before it built. */
  ghost function PushedBy(p: Partial, events: seq<ProxyEvent>, n: nat, json: JsonReader): (r: seq<StreamEvent>)
    requires n <= |events|
  {
    if n == 0 then []
    else
      var q := ApplyAll(p, events[..n], json);
      Pushing(PushedBy(p, events, n - 1, json), if q.Ok? then Emission(q.value, events[n - 1]) else None)
  }

  /** What a listener of a well-formed message is told by the `k`-th event: each start, each piece as it came, and each
      block in full when it ends. */
  ghost function Tells(events: seq<ProxyEvent>, k: nat): (e: StreamEvent)
    requires k < |events| && !events[k].Unhandled?
    requires forall i: nat :: Changes(events, i) == [] || WellFormed(Changes(events, i))
  {
    match events[k]
    case Start => Started
    case Done(reason, _) => Finished(reason)
    case Failed(reason, message, _) => Broken(reason, message)
    case Content(i, Open(kind, _, _)) => Opened(i, kind)
    case Content(i, Delta(kind, delta)) => Grown(i, kind, delta)
    case Content(i, _) => if Changes(events, i) == [] then Started else Closed(i, Expected(Changes(events, i)))
  }

  ghost function Told(events: seq<ProxyEvent>, n: nat): (r: seq<StreamEvent>)
    requires n <= |events|
    requires forall i: nat :: Changes(events, i) == [] || WellFormed(Changes(events, i))
  {
    if n == 0 then []
    else Told(events, n - 1) + (if events[n - 1].Unhandled? then [] else [Tells(events, n - 1)])
  }

  lemma {:induction false} ChangesGrow(events: seq<ProxyEvent>, n: nat, i: nat)
    requires n <= |events|
    ensures Changes(events[..n], i) <= Changes(events, i)
    decreases |events|
  {
    if n == |events| {
      assert events[..n] == events;
    } else {
      var init := events[..|events| - 1];
      ChangesGrow(init, n, i);
      assert init[..n] == events[..n];
    }
  }

  predicate IsClose(c: Change) { c.CloseText? || c.CloseThinking? || c.CloseCall? }

  /** The end of a well-formed block is its last change. */
  lemma CloseIsLast(changes: seq<Change>, k: nat)
    requires WellFormed(changes) && k < |changes| && IsClose(changes[k])
    ensures k == |changes| - 1
  {
    var init := changes[..|changes| - 1];
    assert forall j :: 0 <= j < |init| ==> init[j] == changes[j];
  }

  /** When a well-formed block ends, all of its changes have come. */
  lemma AllHaveCome(events: seq<ProxyEvent>, k: nat, i: nat)
    requires k < |events| && events[k].Content? && events[k].index == i && IsClose(events[k].change)
    requires WellFormed(Changes(events, i))
    ensures Changes(events[..k + 1], i) == Changes(events, i)
  {
    var now := Changes(events[..k + 1], i);
    assert events[..k + 1] == events[..k] + [events[k]];
    ChangesSnoc(events[..k], events[k], i);
    ChangesGrow(events, k + 1, i);
    assert now[|now| - 1] == events[k].change && Changes(events, i)[|now| - 1] == now[|now| - 1];
    CloseIsLast(Changes(events, i), |now| - 1);
  }

  lemma {:induction false} PrefixApplies(p: Partial, events: seq<ProxyEvent>, n: nat, json: JsonReader)
    requires n <= |events| && ApplyAll(p, events, json).Ok?
    ensures ApplyAll(p, events[..n], json).Ok?
    decreases |events|
  {
    if n == |events| {
      assert events[..n] == events;
    } else {
      var init := events[..|events| - 1];
      PrefixApplies(p, init, n, json);
      assert init[..n] == events[..n];
    }
  }

  lemma HasCome(events: seq<ProxyEvent>, k: nat)
    requires k < |events| && events[k].Content?
    ensures Changes(events, events[k].index) != []
  {
    var i := events[k].index;
    assert events[..k + 1] == events[..k] + [events[k]];
    ChangesSnoc(events[..k], events[k], i);
    ChangesGrow(events, k + 1, i);
  }

  lemma EmissionTells(p: Partial, events: seq<ProxyEvent>, k: nat, json: JsonReader)
    requires p.content == map[] && k < |events| && ApplyAll(p, events, json).Ok?
    requires forall i: nat :: Changes(events, i) == [] || WellFormed(Changes(events, i))
    ensures ApplyAll(p, events[..k + 1], json).Ok?
    ensures Emission(ApplyAll(p, events[..k + 1], json).value, events[k]) ==
            if events[k].Unhandled? then None else Some(Tells(events, k))
  {
    PrefixApplies(p, events, k + 1, json);
    if events[k].Content? && IsClose(events[k].change) {
      ClosedBlockIsExpected(p, events, k, json);
    }
    hide ApplyAll, Changes, Expected, WellFormed;
  }

  lemma ClosedBlockIsExpected(p: Partial, events: seq<ProxyEvent>, k: nat, json: JsonReader)
    requires p.content == map[] && k < |events| && ApplyAll(p, events[..k + 1], json).Ok?
    requires events[k].Content? && IsClose(events[k].change)
    requires forall i: nat :: Changes(events, i) == [] || WellFormed(Changes(events, i))
    ensures var i, content := events[k].index, ApplyAll(p, events[..k + 1], json).value.content;
      && Changes(events, i) != [] && i in content && content[i] == Expected(Changes(events, i))
      && (events[k].change.CloseCall? ==> content[i].Call?)
  {
    var i := events[k].index;
    HasCome(events, k);
    AllHaveCome(events, k, i);
    WellFormedBuilds(Changes(events, i), json);
    BlocksAreIndependent(p, events[..k + 1], json);
    assert Slots(events[..k + 1], json)(i) == Ok(At(ApplyAll(p, events[..k + 1], json).value.content, i));
    ClosedAs(events, k);
  }

  lemma ClosedAs(events: seq<ProxyEvent>, k: nat)
    requires k < |events| && events[k].Content? && IsClose(events[k].change)
    requires WellFormed(Changes(events, events[k].index))
    ensures events[k].change.CloseCall? ==> Expected(Changes(events, events[k].index)).Call?
  {
    hide WellFormed, Expected, Changes;
    var i := events[k].index;
    AllHaveCome(events, k, i);
    assert events[..k + 1] == events[..k] + [events[k]];
    ChangesSnoc(events[..k], events[k], i);
    CallsEndAsCalls(Changes(events, i));
  }

  lemma CallsEndAsCalls(changes: seq<Change>)
    requires WellFormed(changes)
    ensures changes != [] && (changes[|changes| - 1].CloseCall? ==> Expected(changes).Call?)
  {
  }

  /** For any interleaving of well-formed blocks, the listeners are told every event once and in order. */
  lemma {:induction false} ListenersAreTold(p: Partial, events: seq<ProxyEvent>, n: nat, json: JsonReader)
    requires p.content == map[] && n <= |events| && ApplyAll(p, events, json).Ok?
    requires forall i: nat :: Changes(events, i) == [] || WellFormed(Changes(events, i))
    ensures PushedBy(p, events, n, json) == Told(events, n)
  {
    if n > 0 {
      ListenersAreTold(p, events, n - 1, json);
      EmissionTells(p, events, n - 1, json);
      hide Tells, Emission, ApplyAll, Changes, WellFormed;
    }
  }

  // ---- A whole response ----

  lemma {:induction false} PushedBefore(p: Partial, events: seq<ProxyEvent>, e: ProxyEvent, n: nat, json: JsonReader)
    requires n <= |events|
    ensures PushedBy(p, events + [e], n, json) == PushedBy(p, events, n, json)
  {
    hide ApplyAll, Emission;
    if n > 0 {
      PushedBefore(p, events, e, n - 1, json);
      assert (events + [e])[..n] == events[..n];
    }
  }

  lemma {:induction false} LinesPush(lines: seq<string>, n: nat, readers: Readers)
    requires Readable(lines, readers) && n <= |lines|
    ensures var events := EventsTo(lines, n, readers);
      ApplyAll(BLANK, events, readers.json).Ok? ==>
        Handled(lines, n, readers).pushed == PushedBy(BLANK, events, |events|, readers.json)
  {
    if n > 0 {
      var m := n - 1;
      LinesPush(lines, m, readers);
      LinesApplyTo(lines, m, readers);
      LinesApplyTo(lines, n, readers);
      assert lines[m] in lines;
      var events := EventsTo(lines, m, readers);
      if Payload(lines[m]) != "" {
        LinePushes(Handled(lines, m, readers), lines[m], events, readers);
      }
    }
  }

  lemma LinePushes(p: Progress, line: string, events: seq<ProxyEvent>, readers: Readers)
    requires Payload(line) != "" && readers.parse(Payload(line)).Ok?
    requires var r := ApplyAll(BLANK, events, readers.json);
      if r.Ok? then p.thrown.None? && p.partial == r.value else p.thrown.Some?
    requires ApplyAll(BLANK, events, readers.json).Ok? ==>
      p.pushed == PushedBy(BLANK, events, |events|, readers.json)
    ensures var all := events + [readers.parse(Payload(line)).value];
      ApplyAll(BLANK, all, readers.json).Ok? ==>
        HandleLine(p, line, readers).pushed == PushedBy(BLANK, all, |all|, readers.json)
  {
    var e := readers.parse(Payload(line)).value;
    var all := events + [e];
    ApplySnoc(BLANK, events, e, readers.json);
    PushedBefore(BLANK, events, e, |events|, readers.json);
    assert all[..|all|] == all;
    hide ApplyAll, Emission, Apply, Payload;
  }

  /** A response whose lines are an interleaving of well-formed blocks, however it was cut into chunks: its listeners
      are told every event once and in order, and it ends as its last end says. */
  lemma ResponseIsTold(results: seq<ReadResult>, readers: Readers)
    requires Reading(results, false).1 == Drained
    requires Readable(Lines(Reading(results, false).0), readers)
    requires var events := EventsOf(Lines(Reading(results, false).0), readers);
      forall i: nat :: Changes(events, i) == [] || WellFormed(Changes(events, i))
    ensures var end := Outcome(Reading(results, false).0, Drained, readers);
      var events := EventsOf(Lines(Reading(results, false).0), readers);
      end.pushed == Told(events, |events|) && EndsAsTold(BLANK, end.partial, events, |events|)
  {
    var lines := Lines(Reading(results, false).0);
    var events := EventsOf(lines, readers);
    LinesApplyEvents(lines, readers);
    WellFormedMessageIsRebuilt(BLANK, events, readers.json);
    LinesPush(lines, |lines|, readers);
    ListenersAreTold(BLANK, events, |events|, readers.json);
    assert events[..|events|] == events;
    MessageEndsAsTold(BLANK, events, |events|, readers.json);
    hide ApplyAll, Told, PushedBy, EndsAsTold, Changes, WellFormed, Handled;
  }

  /** A reading that fails, or that finds the signal raised, keeps just the text before it and stops there; the signal
      is looked at once more at the end. */
  lemma {:induction false} ReadingStops(texts: seq<string>, bad: ReadResult, more: seq<ReadResult>, abortedAtEnd: bool)
    requires bad.ReadError? || bad.aborted
    ensures Reading(Chunks(texts) + [bad] + more, abortedAtEnd) ==
      (Concat(texts), Raised(if bad.ReadError? then bad.message else ABORT_MESSAGE, bad.aborted))
    ensures Reading(Chunks(texts), true) == (Concat(texts), Raised(ABORT_MESSAGE, true))
  {
    var all := Chunks(texts) + [bad] + more;
    if texts == [] {
      assert all[0] == bad;
    } else {
      ReadingStops(texts[1..], bad, more, abortedAtEnd);
      assert Chunks(texts)[1..] == Chunks(texts[1..]);
      assert all[0] == Chunk(texts[0], false);
      assert all[1..] == Chunks(texts[1..]) + [bad] + more;
    }
  }

  /** A response that raised ends with the error: as its message, as its reason, and as the last event pushed, after
      just the events of the lines before it. One that did not adds nothing to its lines. */
  lemma OutcomeMeans(text: string, stop: Stop, readers: Readers)
    ensures var lines, end := HandleLines(Lines(text), readers), Outcome(text, stop, readers);
      && (lines.thrown.None? && stop == Drained ==> end == lines)
      && (end.thrown.None? <==> lines.thrown.None? && stop == Drained)
      && (end.thrown.Some? ==>
            && end.thrown == (if lines.thrown.Some? then lines.thrown else Some(stop.message))
            && end.partial.errorMessage == end.thrown && end.partial.content == lines.partial.content
            && end.partial.stopReason == (if lines.thrown.None? && stop.aborted then "aborted" else "error")
            && end.pushed == lines.pushed + [Broken(end.partial.stopReason, end.thrown)])
  {
  }

  // ---- What a line carries ----

  ghost predicate Blank(s: string) { forall i :: 0 <= i < |s| ==> IsSpace(s[i]) }

  /** A text without blanks at either end. */
  predicate Bare(s: string) { s != "" && !IsSpace(s[0]) && !IsSpace(s[|s| - 1]) }

  /** Trimming takes away the blanks around a text and nothing else. */
  lemma TrimMeans(before: string, core: string, after: string)
    requires Blank(before) && Blank(after) && Bare(core)
    ensures Trim(before + core + after) == core && Trim(before) == ""
  {
    var s := before + core + after;
    var from := SkipSpaces(s, 0);
    assert s[|before|] == core[0];
    assert from == |before|;
    var end := |before| + |core|;
    assert s[end - 1] == core[|core| - 1];
    var to := DropSpaces(s, from, |s|);
    assert forall i :: end <= i < |s| ==> s[i] == after[i - end];
    assert to == end;
    assert s[|before|..end] == core;
  }

  /** A line carries what follows `data: ` without the blanks around it, and nothing if it starts otherwise. */
  lemma PayloadMeans(before: string, core: string, after: string, line: string)
    requires Blank(before) && Blank(after) && Bare(core)
    ensures Payload("data: " + (before + core + after)) == core && Payload("data: " + before) == ""
    ensures !("data: " <= line) ==> Payload(line) == ""
  {
    TrimMeans(before, core, after);
    assert ("data: " + (before + core + after))[6..] == before + core + after;
    assert ("data: " + before)[6..] == before;
  }
}
