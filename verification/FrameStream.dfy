// A decoder seen from outside: what a sequence of `push` calls and a final `end` deliver,
// for every way a byte stream is cut into chunks.
module FrameStream {
  import opened Wrappers
  import opened FrameFormat

  datatype FrameError = DecoderEnded | DecoderFailed | Oversize | Truncated

  /** `carry` holds the bytes of the frame still being received, header included. */
  datatype DecoderView = Open(carry: Bytes) | Ended | Failed

  type PushResult = Result<seq<Bytes>, FrameError>

  function PushOutcome(v: DecoderView, chunk: Bytes, max: nat): (r: PushResult) {
    match v
    case Ended => Err(DecoderEnded)
    case Failed => Err(DecoderFailed)
    case Open(carry) =>
      var p := ParseStream(carry + chunk, max);
      if p.oversize then Err(Oversize) else Ok(p.frames)
  }

  function AfterPush(v: DecoderView, chunk: Bytes, max: nat): (v': DecoderView) {
    if v.Open? then
      var p := ParseStream(v.carry + chunk, max);
      if p.oversize then Failed else Open(p.rest)
    else v
  }

  function AfterPushes(v: DecoderView, chunks: seq<Bytes>, max: nat): (v': DecoderView) {
    if chunks == [] then v
    else AfterPush(AfterPushes(v, chunks[..|chunks| - 1], max), chunks[|chunks| - 1], max)
  }

  /** What the last of the pushes returns. */
  function LastOutcome(chunks: seq<Bytes>, max: nat): (r: PushResult)
    requires chunks != []
  {
    PushOutcome(AfterPushes(Open([]), chunks[..|chunks| - 1], max), chunks[|chunks| - 1], max)
  }

  /** All frames handed to the caller, in order; a push that fails hands over nothing. */
  function Delivered(chunks: seq<Bytes>, max: nat): (fs: seq<Bytes>) {
    if chunks == [] then []
    else
      Delivered(chunks[..|chunks| - 1], max) +
      (match LastOutcome(chunks, max) case Ok(fs) => fs case Err(_) => [])
  }

  function Joined(chunks: seq<Bytes>): (s: Bytes) {
    if chunks == [] then [] else Joined(chunks[..|chunks| - 1]) + chunks[|chunks| - 1]
  }

  function EndOutcome(v: DecoderView): (r: Result<(), FrameError>) {
    match v
    case Ended => Err(DecoderEnded)
    case Failed => Err(DecoderFailed)
    case Open(carry) => if carry == [] then Ok(()) else Err(Truncated)
  }

  /** After any chunks the decoder is in the state of the one-shot parse of their concatenation:
      failed exactly if that parse met an oversize header, otherwise holding the same rest and
      having delivered the same frames. */
  lemma {:induction false} ChunkingIsInvisible(chunks: seq<Bytes>, max: nat)
    ensures var p := ParseStream(Joined(chunks), max);
            AfterPushes(Open([]), chunks, max) == if p.oversize then Failed else Open(p.rest)
    ensures !ParseStream(Joined(chunks), max).oversize ==>
              Delivered(chunks, max) == ParseStream(Joined(chunks), max).frames
    decreases |chunks|
  {
    if chunks != [] {
      var earlier, chunk := chunks[..|chunks| - 1], chunks[|chunks| - 1];
      ChunkingIsInvisible(earlier, max);
      if ParseStream(Joined(earlier), max).oversize {
        ParseStaysOversize(Joined(earlier), chunk, max);
      } else {
        ParseContinues(Joined(earlier), chunk, max);
      }
    }
  }

  /** A push fails exactly when the bytes received up to and including it hold a complete oversize
      header; before that every push succeeds, after it every push fails. */
  lemma PushFailsExactlyAtOversize(chunks: seq<Bytes>, max: nat)
    requires chunks != []
    ensures LastOutcome(chunks, max).Err? <==> ParseStream(Joined(chunks), max).oversize
    ensures LastOutcome(chunks, max) == Err(Oversize) <==>
              (ParseStream(Joined(chunks), max).oversize &&
               !ParseStream(Joined(chunks[..|chunks| - 1]), max).oversize)
  {
    var earlier, chunk := chunks[..|chunks| - 1], chunks[|chunks| - 1];
    ChunkingIsInvisible(earlier, max);
    if ParseStream(Joined(earlier), max).oversize {
      ParseStaysOversize(Joined(earlier), chunk, max);
    } else {
      ParseContinues(Joined(earlier), chunk, max);
    }
  }

  /** Once failed, the decoder delivers nothing more and stays failed. */
  lemma {:induction false} FailureIsPermanent(chunks: seq<Bytes>, later: seq<Bytes>, max: nat)
    requires AfterPushes(Open([]), chunks, max) == Failed
    ensures AfterPushes(Open([]), chunks + later, max) == Failed
    ensures Delivered(chunks + later, max) == Delivered(chunks, max)
    decreases |later|
  {
    if later == [] {
      assert chunks + later == chunks;
    } else {
      assert (chunks + later)[..|chunks + later| - 1] == chunks + later[..|later| - 1];
      FailureIsPermanent(chunks, later[..|later| - 1], max);
    }
  }

  /** The frames a push would complete, were its chunk free of oversize headers. */
  function CompletedBy(earlier: seq<Bytes>, chunk: Bytes, max: nat): (fs: seq<Bytes>) {
    ParseStream(ParseStream(Joined(earlier), max).rest + chunk, max).frames
  }

  lemma JoinedSnoc(earlier: seq<Bytes>, chunk: Bytes)
    ensures Joined(earlier + [chunk]) == Joined(earlier) + chunk
  {
    assert (earlier + [chunk])[..|earlier|] == earlier;
  }

  lemma DeliveredUpToFailure(earlier: seq<Bytes>, chunk: Bytes, max: nat)
    requires LastOutcome(earlier + [chunk], max) == Err(Oversize)
    ensures AfterPushes(Open([]), earlier + [chunk], max) == Failed
    ensures Delivered(earlier + [chunk], max) == ParseStream(Joined(earlier), max).frames
    ensures !ParseStream(Joined(earlier), max).oversize && ParseStream(Joined(earlier + [chunk]), max).oversize
  {
    var upto := earlier + [chunk];
    assert upto[..|upto| - 1] == earlier;
    ChunkingIsInvisible(earlier, max);
    PushFailsExactlyAtOversize(upto, max);
  }

  /** When the stream holds an oversize header, the caller gets the frames completed before the
      failing push. Together with the frames completed inside that push, which are dropped, they
      are the frames of the one-shot parse; so they equal it exactly when it dropped none. */
  lemma FailingPushDropsItsFrames(earlier: seq<Bytes>, chunk: Bytes, later: seq<Bytes>, max: nat)
    requires LastOutcome(earlier + [chunk], max) == Err(Oversize)
    ensures var whole := ParseStream(Joined(earlier + [chunk] + later), max).frames;
            var got := Delivered(earlier + [chunk] + later, max);
            && whole == got + CompletedBy(earlier, chunk, max)
            && (got == whole <==> CompletedBy(earlier, chunk, max) == [])
  {
    var upto := earlier + [chunk];
    DeliveredUpToFailure(earlier, chunk, max);
    FailureIsPermanent(upto, later, max);
    JoinedSnoc(earlier, chunk);
    ParseContinues(Joined(earlier), chunk, max);
    JoinedConcat(upto, later);
    ParseStaysOversize(Joined(upto), Joined(later), max);
  }

  lemma {:induction false} JoinedConcat(a: seq<Bytes>, b: seq<Bytes>)
    ensures Joined(a + b) == Joined(a) + Joined(b)
    decreases |b|
  {
    if b == [] {
      assert a + b == a;
    } else {
      assert (a + b)[..|a + b| - 1] == a + b[..|b| - 1];
      JoinedConcat(a, b[..|b| - 1]);
    }
  }

  /** One whole frame and an oversize header in one chunk: the frame is lost. */
  lemma FrameBeforeOversizeIsLost(payload: Bytes, max: nat)
    requires |payload| <= max < MAX_UINT32
    ensures var chunk := Encode(payload) + HeaderBytes(max + 1);
            && ParseStream(Joined([chunk]), max).frames == [payload]
            && Delivered([chunk], max) == []
  {
    var header := HeaderBytes(max + 1);
    var chunk := Encode(payload) + header;
    HeaderRoundTrip(max + 1);
    assert header[..FRAME_HEADER_LENGTH] == header;
    assert EncodeAll([payload]) == Encode(payload) + EncodeAll([payload][1..]) == Encode(payload);
    ParseIsUnique([payload], header, max);
    JoinedSnoc([], chunk);
    assert [] + [chunk] == [chunk] && [] + chunk == chunk;
    PushFailsExactlyAtOversize([chunk], max);
  }

  /** Round trip: any list of payloads within the limit, encoded and cut into any chunks, is
      delivered again, and the decoder may then end. */
  lemma RoundTrip(payloads: seq<Bytes>, chunks: seq<Bytes>, max: nat)
    requires max <= MAX_UINT32 && AllWithin(payloads, max)
    requires Joined(chunks) == EncodeAll(payloads)
    ensures Delivered(chunks, max) == payloads
    ensures EndOutcome(AfterPushes(Open([]), chunks, max)) == Ok(())
  {
    assert EncodeAll(payloads) + [] == EncodeAll(payloads);
    ParseIsUnique(payloads, [], max);
    ChunkingIsInvisible(chunks, max);
  }

  /** The number of whole frames in the first `cut` bytes of an encoded list. */
  function WholeFrames(payloads: seq<Bytes>, cut: nat): (n: nat)
    requires cut <= |EncodeAll(payloads)|
    ensures n <= |payloads|
  {
    if payloads == [] || cut < |Encode(payloads[0])| then 0
    else 1 + WholeFrames(payloads[1..], cut - |Encode(payloads[0])|)
  }

  /** The bytes of the frame that the cut goes through. */
  function PartialFrame(payloads: seq<Bytes>, cut: nat): (rest: Bytes)
    requires cut <= |EncodeAll(payloads)|
  {
    if payloads == [] then []
    else if cut < |Encode(payloads[0])| then Encode(payloads[0])[..cut]
    else PartialFrame(payloads[1..], cut - |Encode(payloads[0])|)
  }

  ghost predicate OnBoundary(payloads: seq<Bytes>, cut: nat) {
    exists n :: 0 <= n <= |payloads| && cut == |EncodeAll(payloads[..n])|
  }

  lemma {:induction false} CutSplits(payloads: seq<Bytes>, cut: nat)
    requires cut <= |EncodeAll(payloads)|
    ensures EncodeAll(payloads)[..cut] ==
              EncodeAll(payloads[..WholeFrames(payloads, cut)]) + PartialFrame(payloads, cut)
  {
    var n := WholeFrames(payloads, cut);
    if n == 0 {
      assert payloads[..n] == [];
    } else {
      var first, more := Encode(payloads[0]), payloads[1..];
      CutSplits(more, cut - |first|);
      FirstOfSome(payloads, n);
      CutInside(first, EncodeAll(more), EncodeAll(more[..n - 1]), PartialFrame(more, cut - |first|), cut);
    }
  }

  lemma FirstOfSome(payloads: seq<Bytes>, n: nat)
    requires 0 < n <= |payloads|
    ensures EncodeAll(payloads[..n]) == Encode(payloads[0]) + EncodeAll(payloads[1..][..n - 1])
  {
    assert payloads[..n][1..] == payloads[1..][..n - 1];
  }

  lemma CutInside(first: Bytes, more: Bytes, whole: Bytes, part: Bytes, cut: nat)
    requires |first| <= cut <= |first| + |more| && more[..cut - |first|] == whole + part
    ensures (first + more)[..cut] == first + whole + part
  {
    assert (first + more)[..cut] == first + more[..cut - |first|];
  }

  lemma {:induction false} PartialFrameIsIncomplete(payloads: seq<Bytes>, cut: nat, max: nat)
    requires max <= MAX_UINT32 && AllWithin(payloads, max)
    requires cut <= |EncodeAll(payloads)|
    ensures Incomplete(PartialFrame(payloads, cut), max)
  {
    if payloads != [] {
      if cut < |Encode(payloads[0])| {
        BeginningIsIncomplete(payloads[0], cut, max);
      } else {
        PartialFrameIsIncomplete(payloads[1..], cut - |Encode(payloads[0])|, max);
      }
    }
  }

  lemma BeginningIsIncomplete(payload: Bytes, cut: nat, max: nat)
    requires |payload| <= max <= MAX_UINT32
    requires cut < |Encode(payload)|
    ensures Incomplete(Encode(payload)[..cut], max)
  {
    if cut >= FRAME_HEADER_LENGTH {
      assert Encode(payload)[..cut][..FRAME_HEADER_LENGTH] == HeaderBytes(|payload|);
      HeaderRoundTrip(|payload|);
    }
  }

  lemma BoundaryHasNoPartialFrame(payloads: seq<Bytes>, cut: nat)
    requires cut <= |EncodeAll(payloads)|
    ensures OnBoundary(payloads, cut) <==> PartialFrame(payloads, cut) == []
  {
    CutSplits(payloads, cut);
    if OnBoundary(payloads, cut) {
      var m :| 0 <= m <= |payloads| && cut == |EncodeAll(payloads[..m])|;
      NoPartialFrameAtBoundary(payloads, m);
    }
  }

  lemma {:induction false} NoPartialFrameAtBoundary(payloads: seq<Bytes>, m: nat)
    requires m <= |payloads|
    ensures |EncodeAll(payloads[..m])| <= |EncodeAll(payloads)|
    ensures PartialFrame(payloads, |EncodeAll(payloads[..m])|) == []
  {
    if m == 0 {
      assert payloads[..0] == [];
    } else {
      NoPartialFrameAtBoundary(payloads[1..], m - 1);
      assert payloads[..m][1..] == payloads[1..][..m - 1];
    }
  }

  /** A stream cut anywhere, in any chunks, delivers exactly its whole frames (a prefix of the
      list), and ending it fails exactly when the cut is not on a frame boundary. */
  lemma TruncatedStream(payloads: seq<Bytes>, cut: nat, chunks: seq<Bytes>, max: nat)
    requires max <= MAX_UINT32 && AllWithin(payloads, max)
    requires cut <= |EncodeAll(payloads)|
    requires Joined(chunks) == EncodeAll(payloads)[..cut]
    ensures Delivered(chunks, max) == payloads[..WholeFrames(payloads, cut)]
    ensures EndOutcome(AfterPushes(Open([]), chunks, max)) ==
              if OnBoundary(payloads, cut) then Ok(()) else Err(Truncated)
  {
    var n := WholeFrames(payloads, cut);
    CutSplits(payloads, cut);
    PartialFrameIsIncomplete(payloads, cut, max);
    ParseIsUnique(payloads[..n], PartialFrame(payloads, cut), max);
    BoundaryHasNoPartialFrame(payloads, cut);
    ChunkingIsInvisible(chunks, max);
  }
}
