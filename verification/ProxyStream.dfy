// The read loop of a proxied response: text chunks arrive cut anywhere, complete lines are handled
// at once, and any exception ends the message with an error event.
module ProxyStreaming {
  import opened Wrappers
  import opened ProxyLines
  import opened ProxyMessage

  /** The JSON readers the loop is given; parsing an event may raise. */
  datatype Readers = Readers(parse: string -> Result<ProxyEvent, string>, json: JsonReader)

  /** One result of reading the response body, with the abort signal as it stands then. */
  datatype ReadResult = Chunk(text: string, aborted: bool) | ReadError(message: string, aborted: bool)

  datatype Stop = Drained | Raised(message: string, aborted: bool)

  const ABORT_MESSAGE := "Request aborted by user"

  datatype Progress = Progress(partial: Partial, pushed: seq<StreamEvent>, thrown: Option<string>)

  const BLANK := Partial(map[], "pending", None, "0")
  const BEGIN := Progress(BLANK, [], None)

  function Pushing(pushed: seq<StreamEvent>, e: Option<StreamEvent>): seq<StreamEvent> {
    if e.Some? then pushed + [e.value] else pushed
  }

  function HandleLine(p: Progress, line: string, readers: Readers): (r: Progress) {
    var data := Payload(line);
    if p.thrown.Some? || data == "" then p
    else
      match readers.parse(data)
      case Err(error) => p.(thrown := Some(error))
      case Ok(e) =>
        match Apply(p.partial, e, readers.json)
        case Err(error) => p.(thrown := Some(error))
        case Ok(partial) => Progress(partial, Pushing(p.pushed, Emission(partial, e)), None)
  }

  /** The first `n` lines handled. */
  function Handled(lines: seq<string>, n: nat, readers: Readers): (p: Progress)
    requires n <= |lines|
  {
    if n == 0 then BEGIN else HandleLine(Handled(lines, n - 1, readers), lines[n - 1], readers)
  }

  function HandleLines(lines: seq<string>, readers: Readers): (p: Progress) {
    Handled(lines, |lines|, readers)
  }

  /** The text read before the loop stops, and how it stops. */
  function Reading(results: seq<ReadResult>, abortedAtEnd: bool): (r: (string, Stop)) {
    if results == [] then ("", if abortedAtEnd then Raised(ABORT_MESSAGE, true) else Drained)
    else
      match results[0]
      case ReadError(message, aborted) => ("", Raised(message, aborted))
      case Chunk(text, aborted) =>
        if aborted then ("", Raised(ABORT_MESSAGE, true))
        else var rest := Reading(results[1..], abortedAtEnd); (text + rest.0, rest.1)
  }

  /** The message after an exception. */
  function Closing(p: Progress, message: string, aborted: bool): Progress {
    var reason := if aborted then "aborted" else "error";
    Progress(p.partial.(stopReason := reason, errorMessage := Some(message)),
             p.pushed + [Broken(reason, Some(message))], Some(message))
  }

  /** A response as one text: its newline-terminated lines, then the way reading stopped. The first
      line that raises decides; nothing after it is handled. */
  function Outcome(text: string, stop: Stop, readers: Readers): Progress {
    var p := HandleLines(Lines(text), readers);
    if p.thrown.Some? then Closing(p, p.thrown.value, false)
    else if stop.Raised? then Closing(p, stop.message, stop.aborted)
    else p
  }

  /** What comes later does not matter to what was handled before. */
  lemma {:induction false} HandledBefore(lines: seq<string>, more: seq<string>, n: nat, readers: Readers)
    requires n <= |lines|
    ensures Handled(lines + more, n, readers) == Handled(lines, n, readers)
  {
    if n > 0 {
      HandledBefore(lines, more, n - 1, readers);
    }
  }

  lemma {:induction false} ThrownStays(lines: seq<string>, n: nat, m: nat, readers: Readers)
    requires n <= m <= |lines| && Handled(lines, n, readers).thrown.Some?
    ensures Handled(lines, m, readers) == Handled(lines, n, readers)
  {
    if n < m {
      ThrownStays(lines, n, m - 1, readers);
    }
  }

  class ProxyReader {
    var content: map<nat, Block>
    var stopReason: string
    var errorMessage: Option<string>
    var usage: string
    var pushed: seq<StreamEvent>

    ghost function Value(): Partial reads this {
      Partial(content, stopReason, errorMessage, usage)
    }

    constructor ()
      ensures Value() == BLANK && pushed == []
    {
      content, stopReason, errorMessage, usage, pushed := map[], "pending", None, "0", [];
    }

    method GrowBlock(i: nat, kind: Kind, delta: string, json: JsonReader) returns (r: Result<(), string>)
      modifies this`content
      ensures r.Ok? <==> i in old(content) && KindOf(old(content)[i]) == kind
      ensures r.Ok? ==> content == old(content)[i := Grow(old(content)[i], delta, json)]
      ensures r.Err? ==> r.error == Misplaced(kind, "_delta") && content == old(content)
    {
      if i in content && KindOf(content[i]) == kind {
        content := content[i := Grow(content[i], delta, json)];
        return Ok(());
      }
      return Err(Misplaced(kind, "_delta"));
    }

    method ChangeBlock(i: nat, c: Change, json: JsonReader) returns (r: Result<(), string>)
      modifies this`content
      ensures r.Ok? <==> ChangeSlot(At(old(content), i), c, json).Ok?
      ensures r.Ok? ==> At(content, i) == ChangeSlot(At(old(content), i), c, json).value
      ensures r.Err? ==> r.error == ChangeSlot(At(old(content), i), c, json).error && content == old(content)
      ensures content - {i} == old(content) - {i}
    {
      match c
      case Open(kind, id, name) =>
        content := content[i := Fresh(kind, id, name)];
        return Ok(());
      case Delta(kind, delta) =>
        r := GrowBlock(i, kind, delta, json);
        return;
      case CloseText(signature) =>
        if i in content && content[i].Text? {
          content := content[i := content[i].(textSignature := signature)];
          return Ok(());
        }
        return Err(Misplaced(TextKind, "_end"));
      case CloseThinking(signature) =>
        if i in content && content[i].Thinking? {
          content := content[i := content[i].(thinkingSignature := signature)];
          return Ok(());
        }
        return Err(Misplaced(ThinkingKind, "_end"));
      case CloseCall(toolCall) =>
        if i in content && content[i].Call? {
          content := content[i := Assign(content[i], toolCall)];
        }
        return Ok(());
    }

    method ProcessProxyEvent(e: ProxyEvent, json: JsonReader) returns (r: Result<Option<StreamEvent>, string>)
      modifies this`content, this`stopReason, this`errorMessage, this`usage
      ensures r.Ok? <==> Apply(old(Value()), e, json).Ok?
      ensures r.Ok? ==> Value() == Apply(old(Value()), e, json).value && r.value == Emission(Value(), e)
      ensures r.Err? ==> r.error == Apply(old(Value()), e, json).error && Value() == old(Value())
    {
      match e {
        case Start =>
        case Unhandled =>
        case Done(reason, used) =>
          stopReason, usage := reason, used;
        case Failed(reason, message, used) =>
          stopReason, errorMessage, usage := reason, message, used;
        case Content(i, c) =>
          ghost var before := content;
          var changed := ChangeBlock(i, c, json);
          if changed.Err? {
            return Err(changed.error);
          }
          SlotTells(before, content, i, c, json);
      }
      return Ok(Emission(Partial(content, stopReason, errorMessage, usage), e));
    }

    method HandleOne(line: string, readers: Readers) returns (thrown: Option<string>)
      modifies this
      ensures Progress(Value(), pushed, thrown) == HandleLine(old(Progress(Value(), pushed, None)), line, readers)
    {
      var data := Payload(line);
      if data == "" {
        return None;
      }
      var parsed := readers.parse(data);
      if parsed.Err? {
        return Some(parsed.error);
      }
      var done := ProcessProxyEvent(parsed.value, readers.json);
      if done.Err? {
        return Some(done.error);
      }
      pushed := Pushing(pushed, done.value);
      return None;
    }

    /** All complete lines of one buffer. */
    method HandleBuffer(lines: seq<string>, ghost before: seq<string>, readers: Readers)
      returns (thrown: Option<string>)
      requires HandleLines(before, readers) == Progress(Value(), pushed, None)
      modifies this
      ensures Progress(Value(), pushed, thrown) == HandleLines(before + lines, readers)
    {
      thrown := None;
      var k := 0;
      HandleEnds(before, lines, readers);
      while k < |lines|
        invariant 0 <= k <= |lines|
        invariant thrown.None?
        invariant HandledUpTo(before, lines, k, readers) == Progress(Value(), pushed, None)
      {
        HandleNext(before, lines, k, readers);
        thrown := HandleOne(lines[k], readers);
        k := k + 1;
        if thrown.Some? {
          HandleStops(before, lines, k, readers);
          return;
        }
      }
    }

    method Fail(message: string, aborted: bool)
      modifies this
      ensures Progress(Value(), pushed, Some(message)) ==
        old(Closing(Progress(Value(), pushed, None), message, aborted))
    {
      stopReason := if aborted then "aborted" else "error";
      errorMessage := Some(message);
      pushed := pushed + [Broken(stopReason, errorMessage)];
    }

    /** The read loop. However the response is cut into chunks, the message and the pushed events are
        those of its text as a whole. */
    method Read(results: seq<ReadResult>, abortedAtEnd: bool, readers: Readers) returns (thrown: Option<string>)
      requires Value() == BLANK && pushed == []
      modifies this
      ensures Progress(Value(), pushed, thrown) ==
        Outcome(Reading(results, abortedAtEnd).0, Reading(results, abortedAtEnd).1, readers)
    {
      var buffer := "";
      var i := 0;
      ghost var text := "";
      ReadingBegins(results, abortedAtEnd);
      NothingYet(readers);
      while i < |results|
        invariant 0 <= i <= |results|
        invariant Progress(Value(), pushed, None) == HandleLines(Lines(text), readers)
        invariant buffer == Rest(text)
        invariant ReadUpTo(results, i, text, abortedAtEnd)
      {
        var read := results[i];
        ReadingNext(results, i, text, abortedAtEnd);
        if read.ReadError? || read.aborted {
          thrown := Some(if read.ReadError? then read.message else ABORT_MESSAGE);
          Fail(thrown.value, read.aborted);
          return;
        }
        buffer := buffer + read.text;
        var lines := Lines(buffer);
        LinesContinue(text, read.text);
        thrown := HandleBuffer(lines, Lines(text), readers);
        text := text + read.text;
        if thrown.Some? {
          ThrownDecides(text, Reading(results[i + 1..], abortedAtEnd).0, readers);
          Fail(thrown.value, false);
          return;
        }
        buffer := Rest(buffer);
        i := i + 1;
      }
      ReadingEnds(results, text, abortedAtEnd);
      thrown := None;
      if abortedAtEnd {
        thrown := Some(ABORT_MESSAGE);
        Fail(ABORT_MESSAGE, true);
      }
    }
  }

  /** All of `before` and the first `k` of `lines` handled. */
  ghost function HandledUpTo(before: seq<string>, lines: seq<string>, k: nat, readers: Readers): Progress
    requires k <= |lines|
  {
    Handled(before + lines, |before| + k, readers)
  }

  lemma HandleEnds(before: seq<string>, lines: seq<string>, readers: Readers)
    ensures HandledUpTo(before, lines, 0, readers) == HandleLines(before, readers)
    ensures HandledUpTo(before, lines, |lines|, readers) == HandleLines(before + lines, readers)
  {
    HandledBefore(before, lines, |before|, readers);
  }

  lemma HandleNext(before: seq<string>, lines: seq<string>, k: nat, readers: Readers)
    requires k < |lines|
    ensures HandledUpTo(before, lines, k + 1, readers) ==
            HandleLine(HandledUpTo(before, lines, k, readers), lines[k], readers)
  {
    assert (before + lines)[|before| + k] == lines[k];
  }

  lemma HandleStops(before: seq<string>, lines: seq<string>, k: nat, readers: Readers)
    requires k <= |lines| && HandledUpTo(before, lines, k, readers).thrown.Some?
    ensures HandleLines(before + lines, readers) == HandledUpTo(before, lines, k, readers)
  {
    ThrownStays(before + lines, |before| + k, |before + lines|, readers);
  }

  /** `text` is what the first `i` results brought, all of them chunks that were not aborted. */
  ghost predicate ReadUpTo(results: seq<ReadResult>, i: nat, text: string, abortedAtEnd: bool)
    requires i <= |results|
  {
    var rest := Reading(results[i..], abortedAtEnd);
    Reading(results, abortedAtEnd) == (text + rest.0, rest.1)
  }

  lemma ReadingBegins(results: seq<ReadResult>, abortedAtEnd: bool)
    ensures ReadUpTo(results, 0, "", abortedAtEnd)
  {
    assert results[0..] == results;
    assert "" + Reading(results, abortedAtEnd).0 == Reading(results, abortedAtEnd).0;
  }

  lemma ReadingNext(results: seq<ReadResult>, i: nat, text: string, abortedAtEnd: bool)
    requires i < |results| && ReadUpTo(results, i, text, abortedAtEnd)
    ensures
      match results[i]
      case ReadError(message, aborted) => Reading(results, abortedAtEnd) == (text, Raised(message, aborted))
      case Chunk(chunk, aborted) =>
        if aborted then Reading(results, abortedAtEnd) == (text, Raised(ABORT_MESSAGE, true))
        else ReadUpTo(results, i + 1, text + chunk, abortedAtEnd)
  {
    assert results[i..][0] == results[i] && results[i..][1..] == results[i + 1..];
    assert text + "" == text;
    if results[i].Chunk? {
      var more := Reading(results[i + 1..], abortedAtEnd);
      assert text + (results[i].text + more.0) == text + results[i].text + more.0;
    }
  }

  lemma ReadingEnds(results: seq<ReadResult>, text: string, abortedAtEnd: bool)
    requires ReadUpTo(results, |results|, text, abortedAtEnd)
    ensures Reading(results, abortedAtEnd) == (text, if abortedAtEnd then Raised(ABORT_MESSAGE, true) else Drained)
  {
    assert results[|results|..] == [] && text + "" == text;
  }

  lemma NothingYet(readers: Readers)
    ensures Lines("") == [] && Rest("") == "" && HandleLines([], readers) == BEGIN
  {
  }

  lemma ThrownDecides(text: string, more: string, readers: Readers)
    requires HandleLines(Lines(text), readers).thrown.Some?
    ensures HandleLines(Lines(text + more), readers) == HandleLines(Lines(text), readers)
  {
    var lines, later := Lines(text), Lines(Rest(text) + more);
    LinesContinue(text, more);
    HandledBefore(lines, later, |lines|, readers);
    ThrownStays(lines + later, |lines|, |lines + later|, readers);
  }

  lemma SlotTells(before: map<nat, Block>, after: map<nat, Block>, i: nat, c: Change, json: JsonReader)
    requires ChangeSlot(At(before, i), c, json).Ok? && At(after, i) == ChangeSlot(At(before, i), c, json).value
    requires after - {i} == before - {i}
    ensures At(after, i).block.None? ==> i !in before
    ensures after == Put(before, i, ChangeSlot(At(before, i), c, json).value)
  {
    ChangeKeeps(At(before, i), c, json);
    var put := Put(before, i, ChangeSlot(At(before, i), c, json).value);
    forall k: nat ensures At(after, k) == At(put, k) {
      if k != i {
        assert k in after - {i} <==> k in after;
        assert k in before - {i} <==> k in before;
        assert k in after ==> (after - {i})[k] == after[k] && (before - {i})[k] == before[k];
      }
    }
    assert forall k: nat :: k in after <==> At(after, k).block.Some?;
    assert forall k: nat :: k in put <==> At(put, k).block.Some?;
    assert forall k: nat :: k in after ==> At(after, k).block.value == after[k];
    assert forall k: nat :: k in put ==> At(put, k).block.value == put[k];
  }

  // ---- From the text to the rebuilt message ----

  ghost predicate Readable(lines: seq<string>, readers: Readers) {
    forall line :: line in lines && Payload(line) != "" ==> readers.parse(Payload(line)).Ok?
  }

  /** The events of the first `n` lines. */
  function EventsTo(lines: seq<string>, n: nat, readers: Readers): (events: seq<ProxyEvent>)
    requires Readable(lines, readers) && n <= |lines|
  {
    if n == 0 then []
    else
      var line, before := lines[n - 1], EventsTo(lines, n - 1, readers);
      if Payload(line) == "" then before else before + [readers.parse(Payload(line)).value]
  }

  function EventsOf(lines: seq<string>, readers: Readers): (events: seq<ProxyEvent>)
    requires Readable(lines, readers)
  {
    EventsTo(lines, |lines|, readers)
  }

  lemma ApplySnoc(p: Partial, events: seq<ProxyEvent>, e: ProxyEvent, json: JsonReader)
    ensures ApplyAll(p, events + [e], json) ==
      (match ApplyAll(p, events, json) case Err(error) => Err(error) case Ok(q) => Apply(q, e, json))
  {
    assert (events + [e])[..|events|] == events;
  }

  lemma {:induction false} LinesApplyTo(lines: seq<string>, n: nat, readers: Readers)
    requires Readable(lines, readers) && n <= |lines|
    ensures var p := Handled(lines, n, readers); var r := ApplyAll(BLANK, EventsTo(lines, n, readers), readers.json);
      if r.Ok? then p.thrown.None? && p.partial == r.value else p.thrown == Some(r.error)
  {
    if n > 0 {
      LinesApplyTo(lines, n - 1, readers);
      var line := lines[n - 1];
      assert line in lines;
      if Payload(line) != "" {
        ApplySnoc(BLANK, EventsTo(lines, n - 1, readers), readers.parse(Payload(line)).value, readers.json);
      }
    }
  }

  /** Handling readable lines is applying their events, and raises exactly when that does. */
  lemma LinesApplyEvents(lines: seq<string>, readers: Readers)
    requires Readable(lines, readers)
    ensures var p := HandleLines(lines, readers); var r := ApplyAll(BLANK, EventsOf(lines, readers), readers.json);
      if r.Ok? then p.thrown.None? && p.partial == r.value else p.thrown == Some(r.error)
  {
    LinesApplyTo(lines, |lines|, readers);
  }

  /** A response whose lines are an interleaving of well-formed blocks is read without an error, however
      it was cut into chunks, and gives back every block in full. */
  lemma ResponseIsRebuilt(results: seq<ReadResult>, readers: Readers)
    requires Reading(results, false).1 == Drained
    requires Readable(Lines(Reading(results, false).0), readers)
    requires var events := EventsOf(Lines(Reading(results, false).0), readers);
      forall i: nat :: Changes(events, i) == [] || WellFormed(Changes(events, i))
    ensures var end := Outcome(Reading(results, false).0, Drained, readers);
      var events := EventsOf(Lines(Reading(results, false).0), readers);
      end.thrown.None? && forall i: nat ::
        if Changes(events, i) == [] then i !in end.partial.content
        else i in end.partial.content && end.partial.content[i] == Expected(Changes(events, i))
  {
    var lines := Lines(Reading(results, false).0);
    LinesApplyEvents(lines, readers);
    WellFormedMessageIsRebuilt(BLANK, EventsOf(lines, readers), readers.json);
  }

  function Concat(texts: seq<string>): string {
    if texts == [] then "" else texts[0] + Concat(texts[1..])
  }

  function Chunks(texts: seq<string>): (results: seq<ReadResult>)
    ensures |results| == |texts|
  {
    if texts == [] then [] else [Chunk(texts[0], false)] + Chunks(texts[1..])
  }

  /** Without aborts and read errors only the concatenated text matters. */
  lemma {:induction false} ChunkingIsInvisible(texts: seq<string>)
    ensures Reading(Chunks(texts), false) == (Concat(texts), Drained)
  {
    if texts != [] {
      ChunkingIsInvisible(texts[1..]);
      assert Chunks(texts)[1..] == Chunks(texts[1..]);
    }
  }
}
