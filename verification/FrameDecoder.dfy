// The incremental decoder and the encoder, in the imperative form of the protocol package:
// a header buffer, a list of payload blocks of at most 64 KiB, and loops over chunk bytes.
module FrameDecoding {
  import opened Wrappers
  import opened FrameFormat
  import opened FrameStream

  datatype ArgumentError = RangeError

  /** A number as a caller may pass it: a real one, or not a number, or infinite. */
  datatype Number = Finite(value: real) | NotFinite

  const MAX_SAFE_INTEGER := 0x1f_ffff_ffff_ffff

  predicate IsSafeInteger(n: Number) {
    && n.Finite? && n.value.Floor as real == n.value
    && -MAX_SAFE_INTEGER <= n.value.Floor <= MAX_SAFE_INTEGER
  }

  /** A whole number that fits an unsigned 32-bit header. */
  predicate IsLimit(n: Number) {
    n.Finite? && n.value.Floor as real == n.value && 0.0 <= n.value <= MAX_UINT32 as real
  }

  /** Fractions, infinities, negative and too large numbers are refused. */
  function ResolveMaxFrameLength(option: Option<Number>): (r: Result<nat, ArgumentError>)
    ensures r.Ok? <==> (option.Some? ==> IsLimit(option.value))
    ensures r.Ok? && option.Some? ==> option.value == Finite(r.value as real)
    ensures option.None? ==> r == Ok(DEFAULT_MAX_FRAME_LENGTH)
    ensures r.Ok? ==> r.value <= MAX_UINT32
  {
    if option.None? then Ok(DEFAULT_MAX_FRAME_LENGTH)
    else if !IsSafeInteger(option.value) then Err(RangeError)
    else
      var value := option.value.value.Floor;
      if value < 0 || value > MAX_UINT32 then Err(RangeError) else Ok(value)
  }

  /** Copies `n` bytes of `src` into `dst` (the typed array's `set` on a sub-array). */
  method Blit(dst: array<Byte>, at: nat, src: Bytes, from: nat, n: nat)
    requires at + n <= dst.Length && from + n <= |src|
    modifies dst
    ensures dst[..at + n] == old(dst[..at]) + src[from..from + n]
  {
    for i := 0 to n
      invariant dst[..at + i] == old(dst[..at]) + src[from..from + i]
    {
      dst[at + i] := src[from + i];
    }
  }

  method EncodeFrame(payload: Bytes) returns (r: Result<array<Byte>, ArgumentError>)
    ensures r.Ok? <==> |payload| <= MAX_UINT32
    ensures r.Ok? ==> fresh(r.value) && r.value[..] == Encode(payload)
  {
    if |payload| > MAX_UINT32 { return Err(RangeError); }
    var frame := new Byte[FRAME_HEADER_LENGTH + |payload|];
    var length := |payload|;
    frame[0] := (length / 0x1_000_000) % 256;
    frame[1] := (length / 0x1_0000) % 256;
    frame[2] := (length / 0x100) % 256;
    frame[3] := length % 256;
    assert frame[..FRAME_HEADER_LENGTH] == HeaderBytes(length);
    Blit(frame, FRAME_HEADER_LENGTH, payload, 0, length);
    assert frame[..] == frame[..FRAME_HEADER_LENGTH + length];
    assert payload[0..length] == payload;
    r := Ok(frame);
  }

  datatype CompleteFrameError = NoHeader | OverLimit | NotExactlyOne | BadLimit

  /** Accepts exactly the encodings of one payload within the limit. */
  method AssertCompleteFrame(frame: Bytes, option: Option<Number>) returns (r: Result<(), CompleteFrameError>)
    ensures r.Ok? <==>
              (ResolveMaxFrameLength(option).Ok? &&
               exists payload :: |payload| <= ResolveMaxFrameLength(option).value && frame == Encode(payload))
    ensures r == Err(NoHeader) <==> |frame| < FRAME_HEADER_LENGTH
    ensures ResolveMaxFrameLength(option).Ok? ==>
              (r == Err(OverLimit) <==> StartsOversize(frame, ResolveMaxFrameLength(option).value))
  {
    var limit := ResolveMaxFrameLength(option);
    if |frame| < FRAME_HEADER_LENGTH { return Err(NoHeader); }
    if limit.Err? { return Err(BadLimit); }
    r := CheckLength(frame, limit.value);
  }

  method CheckLength(frame: Bytes, max: nat) returns (r: Result<(), CompleteFrameError>)
    requires |frame| >= FRAME_HEADER_LENGTH && max <= MAX_UINT32
    ensures r.Ok? <==> exists payload :: |payload| <= max && frame == Encode(payload)
    ensures r == Err(OverLimit) <==> StartsOversize(frame, max)
    ensures r.Err? ==> r.error == OverLimit || r.error == NotExactlyOne
  {
    var length := HeaderValue(frame[..FRAME_HEADER_LENGTH]);
    CompleteFrames(frame, max);
    if length > max { return Err(OverLimit); }
    if |frame| != FRAME_HEADER_LENGTH + length { return Err(NotExactlyOne); }
    return Ok(());
  }

  lemma CompleteFrames(frame: Bytes, max: nat)
    requires |frame| >= FRAME_HEADER_LENGTH && max <= MAX_UINT32
    ensures var n := HeaderValue(frame[..FRAME_HEADER_LENGTH]);
            (n <= max && |frame| == FRAME_HEADER_LENGTH + n) <==>
            exists payload :: |payload| <= max && frame == Encode(payload)
  {
    var header := frame[..FRAME_HEADER_LENGTH];
    var n := HeaderValue(header);
    if n <= max && |frame| == FRAME_HEADER_LENGTH + n {
      HeaderIsCanonical(header);
      var payload := frame[FRAME_HEADER_LENGTH..];
      assert frame == Encode(payload);
    }
    forall payload | |payload| <= max && frame == Encode(payload)
      ensures n == |payload|
    {
      assert header == HeaderBytes(|payload|);
      HeaderRoundTrip(|payload|);
    }
  }

  /** The bytes of blocks laid end to end. */
  ghost function BlockBytes(blocks: seq<array<Byte>>): (s: Bytes)
    reads blocks
  {
    if blocks == [] then [] else BlockBytes(blocks[..|blocks| - 1]) + blocks[|blocks| - 1][..]
  }

  datatype DecoderState = StateOpen | StateEnded | StateFailed

  class FrameDecoder {
    const header: array<Byte>
    const maxFrameLength: nat
    var headerLength: nat
    var payloadBlocks: seq<array<Byte>>
    var currentPayloadBlock: array?<Byte>
    var currentPayloadBlockLength: nat
    var expectedPayloadLength: Option<nat>
    var payloadLength: nat
    var state: DecoderState
    /** The payload bytes received so far of the frame in progress. */
    ghost var received: Bytes

    /** `max` is a limit that `ResolveMaxFrameLength` lets through. */
    constructor (max: nat)
      requires max <= MAX_UINT32
      ensures Valid() && fresh(Footprint()) && maxFrameLength == max && View() == Open([])
    {
      header := new Byte[FRAME_HEADER_LENGTH];
      maxFrameLength := max;
      headerLength := 0;
      payloadBlocks := [];
      currentPayloadBlock := null;
      currentPayloadBlockLength := 0;
      expectedPayloadLength := None;
      payloadLength := 0;
      state := StateOpen;
      received := [];
    }

    ghost function Footprint(): set<array<Byte>>
      reads this
    {
      {header} + set b | b in payloadBlocks
    }

    /** No frame in progress holds any block. */
    ghost predicate NoBlocks()
      reads this
    {
      payloadBlocks == [] && currentPayloadBlock == null && currentPayloadBlockLength == 0 &&
      payloadLength == 0 && received == []
    }

    /** A frame is in progress: its length is known and positive. */
    ghost predicate InFrame()
      reads this, header
    {
      && expectedPayloadLength.Some?
      && header.Length == FRAME_HEADER_LENGTH
      && 0 < expectedPayloadLength.value <= maxFrameLength
      && HeaderValue(header[..]) == expectedPayloadLength.value
      && headerLength == 0
      && payloadLength == |received| <= expectedPayloadLength.value
      && header !in payloadBlocks
    }

    /** The blocks before the current one are full, the filled bytes are the payload received so
        far, and the blocks together never exceed the declared length. */
    ghost predicate BlocksHold()
      reads this, Footprint()
    {
      && currentPayloadBlock != null
      && expectedPayloadLength.Some?
      && var last := |payloadBlocks| - 1;
      && last >= 0
      && payloadBlocks[last] == currentPayloadBlock
      && currentPayloadBlock !in payloadBlocks[..last]
      && currentPayloadBlockLength <= currentPayloadBlock.Length <= PAYLOAD_BLOCK_SIZE
      && received == BlockBytes(payloadBlocks[..last]) + currentPayloadBlock[..currentPayloadBlockLength]
      && |BlockBytes(payloadBlocks[..last])| + currentPayloadBlock.Length <= expectedPayloadLength.value
    }

    ghost predicate HasRoom()
      reads this, Footprint()
    {
      InFrame() && BlocksHold() && currentPayloadBlockLength < currentPayloadBlock.Length
    }

    ghost predicate Receiving()
      reads this, Footprint()
    {
      && InFrame()
      && (if currentPayloadBlock == null then NoBlocks() else BlocksHold() && 0 < currentPayloadBlockLength)
    }

    ghost predicate Valid()
      reads this, Footprint()
    {
      && header.Length == FRAME_HEADER_LENGTH
      && maxFrameLength <= MAX_UINT32
      && headerLength < FRAME_HEADER_LENGTH
      && (expectedPayloadLength.None? ==> NoBlocks())
      && (expectedPayloadLength.Some? ==>
            state == StateOpen && Receiving() && payloadLength < expectedPayloadLength.value)
      && (state != StateOpen ==> headerLength == 0)
    }

    ghost function Carry(): Bytes
      reads this, header
      requires header.Length == FRAME_HEADER_LENGTH && headerLength <= FRAME_HEADER_LENGTH
    {
      if expectedPayloadLength.None? then header[..headerLength] else header[..] + received
    }

    ghost function View(): DecoderView
      reads this, Footprint()
      requires Valid()
    {
      match state
      case StateOpen => Open(Carry())
      case StateEnded => Ended
      case StateFailed => Failed
    }

    /** Allocates the next block when there is none or the current one is full. */
    method EnsureBlock()
      requires Receiving() && payloadLength < expectedPayloadLength.value
      modifies this`payloadBlocks, this`currentPayloadBlock, this`currentPayloadBlockLength
      ensures currentPayloadBlock != null && HasRoom()
      ensures fresh(Footprint() - old(Footprint()))
    {
      if currentPayloadBlock == null || currentPayloadBlockLength == currentPayloadBlock.Length {
        var block := new Byte[if PAYLOAD_BLOCK_SIZE < expectedPayloadLength.value - payloadLength
                              then PAYLOAD_BLOCK_SIZE else expectedPayloadLength.value - payloadLength];
        ghost var full := payloadBlocks;
        payloadBlocks := payloadBlocks + [block];
        currentPayloadBlock := block;
        currentPayloadBlockLength := 0;
        assert payloadBlocks[..|payloadBlocks| - 1] == full;
        assert BlockBytes(full) == received;
      }
    }

    /** One copy into the current block. */
    method FillBlock(chunk: Bytes, start: nat) returns (offset: nat)
      requires start < |chunk| && currentPayloadBlock != null && HasRoom()
      modifies this`currentPayloadBlockLength, this`payloadLength, this`received, currentPayloadBlock
      ensures Receiving()
      ensures start < offset <= |chunk|
      ensures received == old(received) + chunk[start..offset]
    {
      var block := currentPayloadBlock;
      ghost var full := BlockBytes(payloadBlocks[..|payloadBlocks| - 1]);
      var room := block.Length - currentPayloadBlockLength;
      var payloadBytes := if room < |chunk| - start then room else |chunk| - start;
      Blit(block, currentPayloadBlockLength, chunk, start, payloadBytes);
      assert BlockBytes(payloadBlocks[..|payloadBlocks| - 1]) == full;
      currentPayloadBlockLength := currentPayloadBlockLength + payloadBytes;
      payloadLength := payloadLength + payloadBytes;
      offset := start + payloadBytes;
      received := received + chunk[start..offset];
      assert received == full + block[..currentPayloadBlockLength];
    }

    /** One round of the payload loop. */
    method ReceiveSome(chunk: Bytes, start: nat) returns (offset: nat)
      requires Receiving() && payloadLength < expectedPayloadLength.value && start < |chunk|
      modifies this`payloadBlocks, this`currentPayloadBlock, this`currentPayloadBlockLength, this`payloadLength,
               this`received, set b | b in payloadBlocks
      ensures Receiving() && header[..] == old(header[..])
      ensures fresh(Footprint() - old(Footprint()))
      ensures start < offset <= |chunk|
      ensures received == old(received) + chunk[start..offset]
    {
      EnsureBlock();
      assert currentPayloadBlock in payloadBlocks;
      offset := FillBlock(chunk, start);
    }

    /** Copies chunk bytes into payload blocks until the chunk or the payload is used up. */
    method ReceivePayload(chunk: Bytes, start: nat) returns (offset: nat)
      requires Receiving() && start <= |chunk|
      modifies this`payloadBlocks, this`currentPayloadBlock, this`currentPayloadBlockLength, this`payloadLength,
               this`received, set b | b in payloadBlocks
      ensures Receiving() && header[..] == old(header[..])
      ensures fresh(Footprint() - old(Footprint()))
      ensures start <= offset <= |chunk|
      ensures received == old(received) + chunk[start..offset]
      ensures offset == |chunk| || payloadLength == expectedPayloadLength.value
    {
      offset := start;
      while offset < |chunk| && payloadLength < expectedPayloadLength.value
        invariant Receiving() && header[..] == old(header[..])
        invariant fresh(Footprint() - old(Footprint()))
        invariant start <= offset <= |chunk|
        invariant received == old(received) + chunk[start..offset]
        decreases |chunk| - offset
      {
        ghost var before := offset;
        offset := ReceiveSome(chunk, offset);
        Resume(old(received), chunk, start, before, offset);
      }
    }

    /** Forgets the frame in progress. */
    method ResetPayload()
      modifies this`payloadBlocks, this`currentPayloadBlock, this`currentPayloadBlockLength,
               this`expectedPayloadLength, this`payloadLength, this`received
      ensures expectedPayloadLength.None? && NoBlocks()
    {
      payloadBlocks := [];
      currentPayloadBlock := null;
      currentPayloadBlockLength := 0;
      expectedPayloadLength := None;
      payloadLength := 0;
      received := [];
    }

    /** Moves to the failed state; the caller raises the error. */
    method Fail()
      requires header.Length == FRAME_HEADER_LENGTH && maxFrameLength <= MAX_UINT32
      modifies this
      ensures Valid() && state == StateFailed && Footprint() == {header}
    {
      state := StateFailed;
      headerLength := 0;
      ResetPayload();
    }

    /** Hands over the completed payload: the only block itself, or a copy of all blocks. */
    method TakePayload() returns (frame: array<Byte>)
      requires Receiving() && payloadLength == expectedPayloadLength.value
      modifies this
      ensures frame[..] == old(received)
      ensures frame != header && (fresh(frame) || frame in old(payloadBlocks))
      ensures expectedPayloadLength.None? && NoBlocks() && headerLength == 0
      ensures state == old(state) && header[..] == old(header[..])
    {
      assert currentPayloadBlock[..] == currentPayloadBlock[..currentPayloadBlockLength];
      if |payloadBlocks| == 1 {
        frame := payloadBlocks[0];
      } else {
        frame := JoinBlocks(payloadBlocks, expectedPayloadLength.value);
      }
      ResetPayload();
    }

    /** Takes header bytes from the chunk and, once the header is complete, decides on the frame. */
    method TakeHeader(chunk: Bytes, start: nat) returns (offset: nat, outcome: HeaderOutcome)
      requires Valid() && state == StateOpen && expectedPayloadLength.None? && start < |chunk|
      modifies this, header
      ensures start < offset <= |chunk|
      ensures Footprint() == {header}
      ensures outcome == Partial ==>
                Valid() && state == StateOpen && expectedPayloadLength.None? &&
                Carry() == old(Carry()) + chunk[start..offset]
      ensures outcome != Partial ==>
                header[..] == old(Carry()) + chunk[start..offset] && headerLength == 0 &&
                outcome == HeaderVerdict(HeaderValue(header[..]), maxFrameLength)
      ensures outcome == TooLong ==> Valid() && state == StateFailed
      ensures outcome == EmptyFrame ==> Valid() && state == StateOpen && Carry() == []
      ensures outcome == Expecting ==> state == StateOpen && Receiving() && received == []
    {
      var missing := FRAME_HEADER_LENGTH - headerLength;
      var headerBytes := if missing < |chunk| - start then missing else |chunk| - start;
      Blit(header, headerLength, chunk, start, headerBytes);
      headerLength := headerLength + headerBytes;
      offset := start + headerBytes;
      if headerLength < FRAME_HEADER_LENGTH { return offset, Partial; }
      assert header[..] == header[..headerLength];
      var frameLength := HeaderValue(header[..]);
      headerLength := 0;
      outcome := HeaderVerdict(frameLength, maxFrameLength);
      match outcome {
        case TooLong => Fail();
        case Expecting =>
          ResetPayload();
          expectedPayloadLength := Some(frameLength);
        case _ =>
      }
    }

    /** The payload part of one round: copies bytes and hands over the frame if that completes it. */
    method ContinuePayload(chunk: Bytes, start: nat) returns (offset: nat, produced: Option<array<Byte>>)
      requires state == StateOpen && Receiving() && start <= |chunk| && maxFrameLength <= MAX_UINT32
      requires payloadLength < expectedPayloadLength.value
      modifies this, set b | b in payloadBlocks
      ensures Valid() && state == StateOpen && fresh(Footprint() - old(Footprint()))
      ensures start <= offset <= |chunk| && (start < |chunk| ==> start < offset)
      ensures RoundEffect(old(Carry()) + chunk[start..], Carry() + chunk[offset..], produced)
      ensures produced.Some? ==> HandedOver(produced.value)
    {
      ghost var head := header[..];
      ghost var before := Carry() + chunk[start..];
      offset := ReceivePayload(chunk, start);
      Stitch(head + old(received), chunk, start, offset);
      assert Carry() == head + received;
      assert before == Carry() + chunk[offset..];
      produced := None;
      if payloadLength == expectedPayloadLength.value {
        var frame := HandOver(chunk[offset..], head);
        produced := Some(frame);
      }
    }

    /** A payload that is complete becomes a frame; the rest of the chunk stays. */
    method HandOver(ghost more: Bytes, ghost head: Bytes) returns (frame: array<Byte>)
      requires state == StateOpen && Receiving() && maxFrameLength <= MAX_UINT32 && head == header[..]
      requires payloadLength == expectedPayloadLength.value
      modifies this
      ensures Valid() && state == StateOpen && Footprint() <= old(Footprint()) && HandedOver(frame)
      ensures RoundEffect(old(Carry()) + more, Carry() + more, Some(frame))
    {
      ghost var payload := received;
      frame := TakePayload();
      assert Carry() + more == more;
      FrameSplitsOff(head, payload, more, maxFrameLength);
    }

    /** What is left after a round: the same bytes, or the same minus the frame produced. */
    ghost predicate RoundEffect(before: Bytes, after: Bytes, produced: Option<array<Byte>>)
      reads if produced.Some? then {produced.value} else {}
    {
      match produced
      case None => after == before
      case Some(f) => SplitsOff(before, f[..], after, maxFrameLength)
    }

    /** The array is out of the decoder's hands: nothing it does later can change it. */
    ghost predicate HandedOver(frame: array<Byte>)
      reads this
    {
      frame !in Footprint()
    }

    /** One round of the loop over the chunk. */
    method Round(chunk: Bytes, start: nat) returns (offset: nat, produced: Option<array<Byte>>)
      requires Valid() && state == StateOpen && start < |chunk|
      modifies this, Footprint()
      ensures Valid() && fresh(Footprint() - old(Footprint()))
      ensures start < offset <= |chunk|
      ensures state == StateFailed ==> StartsOversize(old(Carry()) + chunk[start..], maxFrameLength)
      ensures state != StateFailed ==>
                state == StateOpen &&
                RoundEffect(old(Carry()) + chunk[start..], Carry() + chunk[offset..], produced)
      ensures produced.Some? ==> HandedOver(produced.value)
    {
      offset, produced := start, None;
      if expectedPayloadLength.None? {
        var outcome;
        ghost var before := Carry() + chunk[start..];
        offset, outcome := TakeHeader(chunk, start);
        Stitch(old(Carry()), chunk, start, offset);
        if outcome == Partial { return; }
        if outcome == TooLong {
          HeaderStartsOversize(header[..], chunk[offset..], maxFrameLength);
          return;
        }
        if outcome == EmptyFrame {
          var frame := new Byte[0];
          assert Carry() + chunk[offset..] == chunk[offset..];
          assert header[..] + frame[..] == header[..];
          FrameSplitsOff(header[..], frame[..], chunk[offset..], maxFrameLength);
          produced := Some(frame);
          return;
        }
        assert header[..] + received == header[..];
        offset, produced := ContinuePayload(chunk, offset);
      } else {
        offset, produced := ContinuePayload(chunk, offset);
      }
    }

    /** The loop over the chunk, in the open state: the bytes are the frames produced followed by
        what the decoder keeps, or by an oversize header. */
    method PushOpen(chunk: Bytes) returns (frames: seq<array<Byte>>, ghost contents: seq<Bytes>, ghost rest: Bytes)
      requires Valid() && state == StateOpen
      modifies this, Footprint()
      ensures Valid() && fresh(Footprint() - old(Footprint())) && state != StateEnded
      ensures EncodedThen(old(Carry()) + chunk, contents, rest, maxFrameLength)
      ensures state == StateFailed ==> StartsOversize(rest, maxFrameLength)
      ensures state == StateOpen ==> rest == Carry() && Hold(frames, contents) && AllHandedOver(frames)
    {
      frames, contents := [], [];
      rest := Carry() + chunk;
      var offset := 0;
      while offset < |chunk|
        invariant Valid() && state == StateOpen && fresh(Footprint() - old(Footprint()))
        invariant offset <= |chunk|
        invariant Hold(frames, contents) && AllHandedOver(frames)
        invariant rest == Carry() + chunk[offset..]
        invariant EncodedThen(old(Carry()) + chunk, contents, rest, maxFrameLength)
      {
        var produced;
        offset, produced := Round(chunk, offset);
        assert Hold(frames, contents);
        if state == StateFailed { return; }
        ghost var after := Carry() + chunk[offset..];
        if produced.Some? {
          EncodedOneMore(old(Carry()) + chunk, contents, rest, produced.value[..], after, maxFrameLength);
          frames, contents := frames + [produced.value], contents + [produced.value[..]];
        }
        rest := after;
      }
    }

    ghost predicate AllHandedOver(frames: seq<array<Byte>>)
      reads this
    {
      forall i :: 0 <= i < |frames| ==> HandedOver(frames[i])
    }

    /** The bytes pushed so far decide everything: the frames, the failure, and what is kept. */
    method Push(chunk: Bytes) returns (r: Result<seq<array<Byte>>, FrameError>)
      requires Valid()
      modifies this, Footprint()
      ensures Valid() && fresh(Footprint() - old(Footprint()))
      ensures View() == AfterPush(old(View()), chunk, maxFrameLength)
      ensures match PushOutcome(old(View()), chunk, maxFrameLength)
              case Err(e) => r == Err(e)
              case Ok(fs) => r.Ok? && Hold(r.value, fs)
      ensures r.Ok? ==> AllHandedOver(r.value)
    {
      if state == StateEnded { return Err(DecoderEnded); }
      if state == StateFailed { return Err(DecoderFailed); }
      var frames;
      ghost var contents, rest;
      frames, contents, rest := PushOpen(chunk);
      CarryIsIncomplete();
      EncodedIsParsed(old(Carry()) + chunk, contents, rest, maxFrameLength);
      if state == StateFailed { return Err(Oversize); }
      return Ok(frames);
    }

    lemma CarryIsIncomplete()
      requires Valid()
      ensures Incomplete(Carry(), maxFrameLength) && !StartsOversize(Carry(), maxFrameLength)
    {
      if expectedPayloadLength.Some? {
        assert Carry()[..FRAME_HEADER_LENGTH] == header[..];
      }
    }

    method End() returns (r: Result<(), FrameError>)
      requires Valid()
      modifies this
      ensures Valid() && Footprint() <= old(Footprint())
      ensures r == EndOutcome(old(View()))
      ensures View() == (if r.Ok? then Ended else if old(View()).Open? then Failed else old(View()))
    {
      if state == StateEnded { return Err(DecoderEnded); }
      if state == StateFailed { return Err(DecoderFailed); }
      if headerLength != 0 || expectedPayloadLength.Some? {
        Fail();
        return Err(Truncated);
      }
      state := StateEnded;
      return Ok(());
    }

    /** Between calls: the blocks' total capacity never exceeds the declared length, exceeds the
        bytes received by less than one block, and every block but the last is full. */
    lemma CapacityIsTight()
      requires Valid() && currentPayloadBlock != null
      ensures var capacity := |BlockBytes(payloadBlocks)|;
              && expectedPayloadLength.Some?
              && |received| <= capacity <= expectedPayloadLength.value
              && capacity < |received| + PAYLOAD_BLOCK_SIZE
              && BlockBytes(payloadBlocks)[..|received|] == received
              && |BlockBytes(payloadBlocks[..|payloadBlocks| - 1])| < |received|
    {
    }
  }

  /** The arrays hold these byte strings, one each. */
  ghost predicate Hold(frames: seq<array<Byte>>, contents: seq<Bytes>)
    reads frames
  {
    |frames| == |contents| && forall i :: 0 <= i < |frames| ==> frames[i][..] == contents[i]
  }

  /** What a completed header means for the decoder. */
  datatype HeaderOutcome = Partial | TooLong | EmptyFrame | Expecting

  function HeaderVerdict(frameLength: nat, max: nat): (v: HeaderOutcome)
    ensures v != Partial
  {
    if frameLength > max then TooLong else if frameLength == 0 then EmptyFrame else Expecting
  }

  /** `before` is one frame within the limit followed by `after`. */
  ghost predicate SplitsOff(before: Bytes, payload: Bytes, after: Bytes, max: nat) {
    && |before| >= FRAME_HEADER_LENGTH
    && HeaderValue(before[..FRAME_HEADER_LENGTH]) == |payload| <= max
    && before == before[..FRAME_HEADER_LENGTH] + payload + after
  }

  /** `s` is the encoding of these payloads, all within the limit, followed by `rest`. */
  ghost predicate EncodedThen(s: Bytes, payloads: seq<Bytes>, rest: Bytes, max: nat) {
    AllWithin(payloads, max) && s == EncodeAll(payloads) + rest
  }

  lemma FrameSplitsOff(header: Bytes, payload: Bytes, after: Bytes, max: nat)
    requires |header| == FRAME_HEADER_LENGTH && HeaderValue(header) == |payload| <= max
    ensures SplitsOff(header + payload + after, payload, after, max)
  {
    assert (header + payload + after)[..FRAME_HEADER_LENGTH] == header;
  }

  lemma HeaderStartsOversize(header: Bytes, after: Bytes, max: nat)
    requires |header| == FRAME_HEADER_LENGTH && HeaderValue(header) > max
    ensures StartsOversize(header + after, max)
  {
    assert (header + after)[..FRAME_HEADER_LENGTH] == header;
  }

  lemma EncodedOneMore(s: Bytes, payloads: seq<Bytes>, before: Bytes, payload: Bytes, after: Bytes, max: nat)
    requires EncodedThen(s, payloads, before, max)
    requires SplitsOff(before, payload, after, max)
    ensures EncodedThen(s, payloads + [payload], after, max)
  {
    var header := before[..FRAME_HEADER_LENGTH];
    EncodeAllSnoc(payloads, header, payload);
    var sofar := EncodeAll(payloads);
    assert sofar + (header + payload + after) == (sofar + header + payload) + after;
  }

  lemma EncodeAllSnoc(payloads: seq<Bytes>, header: Bytes, payload: Bytes)
    requires |header| == FRAME_HEADER_LENGTH && HeaderValue(header) == |payload|
    ensures EncodeAll(payloads + [payload]) == EncodeAll(payloads) + header + payload
  {
    EncodeAllCons(header, payload, []);
    assert [payload] + [] == [payload];
    EncodeAllConcat(payloads, [payload]);
  }

  lemma EncodedIsParsed(s: Bytes, payloads: seq<Bytes>, rest: Bytes, max: nat)
    requires max <= MAX_UINT32 && EncodedThen(s, payloads, rest, max)
    requires Incomplete(rest, max) || StartsOversize(rest, max)
    ensures ParseStream(s, max) == Parse(payloads, rest, StartsOversize(rest, max))
  {
    ParseIsUnique(payloads, rest, max);
  }

  lemma Stitch(x: Bytes, chunk: Bytes, i: nat, j: nat)
    requires i <= j <= |chunk|
    ensures x + chunk[i..j] + chunk[j..] == x + chunk[i..]
  {
    assert chunk[i..] == chunk[i..j] + chunk[j..];
  }

  lemma Resume(x: Bytes, chunk: Bytes, i: nat, j: nat, k: nat)
    requires i <= j <= k <= |chunk|
    ensures x + chunk[i..j] + chunk[j..k] == x + chunk[i..k]
  {
  }

  lemma {:induction false} BlockBytesPrefix(blocks: seq<array<Byte>>, i: nat)
    requires i <= |blocks|
    ensures |BlockBytes(blocks[..i])| <= |BlockBytes(blocks)|
    decreases |blocks|
  {
    if i < |blocks| {
      BlockBytesPrefix(blocks[..|blocks| - 1], i);
      assert blocks[..|blocks| - 1][..i] == blocks[..i];
    } else {
      assert blocks[..i] == blocks;
    }
  }

  lemma BlockBytesNext(blocks: seq<array<Byte>>, i: nat)
    requires i < |blocks|
    ensures BlockBytes(blocks[..i + 1]) == BlockBytes(blocks[..i]) + blocks[i][..]
  {
    assert blocks[..i + 1][..i] == blocks[..i];
  }

  /** Copies all blocks, in order, into one array that they fill exactly. */
  method JoinBlocks(blocks: seq<array<Byte>>, length: nat) returns (payload: array<Byte>)
    requires |BlockBytes(blocks)| == length
    ensures fresh(payload) && payload[..] == BlockBytes(blocks)
  {
    payload := new Byte[length];
    var offset := 0;
    for i := 0 to |blocks|
      invariant offset == |BlockBytes(blocks[..i])| <= length
      invariant payload[..offset] == BlockBytes(blocks[..i])
    {
      BlockBytesNext(blocks, i);
      BlockBytesPrefix(blocks, i + 1);
      Blit(payload, offset, blocks[i][..], 0, blocks[i].Length);
      assert blocks[i][..][0..blocks[i].Length] == blocks[i][..];
      offset := offset + blocks[i].Length;
    }
    assert blocks[..|blocks|] == blocks;
    assert payload[..] == payload[..offset];
  }
}
