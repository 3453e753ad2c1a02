// The wire format of one frame (a four-byte big-endian length, then the payload) and a
// one-shot parse of a whole byte stream. The incremental decoder is proved against this.
module FrameFormat {
  const FRAME_HEADER_LENGTH := 4
  const MAX_UINT32 := 0xffff_ffff
  const DEFAULT_MAX_FRAME_LENGTH := 16 * 1024 * 1024
  const PAYLOAD_BLOCK_SIZE := 64 * 1024

  type Byte = x: int | 0 <= x < 256
  type Bytes = seq<Byte>

  function HeaderValue(h: Bytes): (n: nat)
    requires |h| == FRAME_HEADER_LENGTH
    ensures n <= MAX_UINT32
  {
    h[0] as int * 0x1_000_000 + h[1] as int * 0x1_0000 + h[2] as int * 0x100 + h[3]
  }

  /** The header written for a length: each byte is the length shifted right and truncated. */
  function HeaderBytes(n: nat): (h: Bytes)
    ensures |h| == FRAME_HEADER_LENGTH
  {
    [(n / 0x1_000_000) % 256, (n / 0x1_0000) % 256, (n / 0x100) % 256, n % 256]
  }

  lemma HeaderRoundTrip(n: nat)
    requires n <= MAX_UINT32
    ensures HeaderValue(HeaderBytes(n)) == n
  {
    var a, b, c := n / 0x100, n / 0x1_0000, n / 0x1_000_000;
    assert n == a * 0x100 + n % 256;
    assert b == a / 0x100 && a == b * 0x100 + a % 256;
    assert c == b / 0x100 && b == c * 0x100 + b % 256;
    assert c == c % 256;
  }

  lemma HeaderIsCanonical(h: Bytes)
    requires |h| == FRAME_HEADER_LENGTH
    ensures HeaderBytes(HeaderValue(h)) == h
  {
    var n := HeaderValue(h);
    assert n / 0x100 == h[0] as int * 0x1_0000 + h[1] as int * 0x100 + h[2];
    assert n / 0x1_0000 == h[0] as int * 0x100 + h[1];
    assert n / 0x1_000_000 == h[0];
  }

  /** A header is the length in base 256, the most significant byte first: a short length stands in the last byte, and
      one more digit moves the others one byte towards the front. */
  lemma HeaderIsBigEndian(n: nat, b: Byte)
    ensures HeaderBytes(b) == [0, 0, 0, b]
    ensures HeaderBytes(256 * n + b) == HeaderBytes(n)[1..] + [b]
  {
    var m := 256 * n + b;
    assert m / 0x100 == n && m % 256 == b;
    assert m / 0x1_0000 == n / 0x100;
    assert m / 0x1_000_000 == n / 0x1_0000;
  }

  function Encode(payload: Bytes): (frame: Bytes)
    ensures |frame| == FRAME_HEADER_LENGTH + |payload|
  {
    HeaderBytes(|payload|) + payload
  }

  ghost predicate AllWithin(payloads: seq<Bytes>, max: nat) {
    forall i :: 0 <= i < |payloads| ==> |payloads[i]| <= max
  }

  function EncodeAll(payloads: seq<Bytes>): (stream: Bytes) {
    if payloads == [] then [] else Encode(payloads[0]) + EncodeAll(payloads[1..])
  }

  /** `rest` is what follows the last complete frame; `oversize` says its header is over the limit. */
  datatype Parse = Parse(frames: seq<Bytes>, rest: Bytes, oversize: bool) {
    function Before(fs: seq<Bytes>): Parse {
      Parse(fs + frames, rest, oversize)
    }
  }

  /** A proper beginning of one frame whose header, if already complete, is within the limit. */
  predicate Incomplete(r: Bytes, max: nat) {
    |r| < FRAME_HEADER_LENGTH ||
    (HeaderValue(r[..FRAME_HEADER_LENGTH]) <= max &&
     |r| < FRAME_HEADER_LENGTH + HeaderValue(r[..FRAME_HEADER_LENGTH]))
  }

  predicate StartsOversize(r: Bytes, max: nat) {
    |r| >= FRAME_HEADER_LENGTH && HeaderValue(r[..FRAME_HEADER_LENGTH]) > max
  }

  function ParseStream(s: Bytes, max: nat): (p: Parse)
    decreases |s|
  {
    if Incomplete(s, max) then Parse([], s, false)
    else if StartsOversize(s, max) then Parse([], s, true)
    else
      var end := FRAME_HEADER_LENGTH + HeaderValue(s[..FRAME_HEADER_LENGTH]);
      var tail := ParseStream(s[end..], max);
      Parse([s[FRAME_HEADER_LENGTH..end]] + tail.frames, tail.rest, tail.oversize)
  }

  lemma {:induction false} EncodeAllConcat(a: seq<Bytes>, b: seq<Bytes>)
    ensures EncodeAll(a + b) == EncodeAll(a) + EncodeAll(b)
  {
    if a == [] {
      assert a + b == b;
    } else {
      assert (a + b)[1..] == a[1..] + b;
      EncodeAllConcat(a[1..], b);
    }
  }

  /** `s` split at the end of its first frame. */
  ghost predicate FirstFrame(s: Bytes, header: Bytes, payload: Bytes, more: Bytes, max: nat) {
    && |header| == FRAME_HEADER_LENGTH
    && HeaderValue(header) == |payload| <= max
    && s == header + payload + more
  }

  lemma ParseOneFrame(s: Bytes, header: Bytes, payload: Bytes, more: Bytes, max: nat)
    requires FirstFrame(s, header, payload, more, max)
    ensures ParseStream(s, max) == ParseStream(more, max).Before([payload])
  {
    var k := FRAME_HEADER_LENGTH + |payload|;
    assert s[..FRAME_HEADER_LENGTH] == header;
    assert s[FRAME_HEADER_LENGTH..k] == payload;
    assert s[k..] == more;
  }

  lemma SplitFirstFrame(s: Bytes, max: nat) returns (header: Bytes, payload: Bytes, more: Bytes)
    requires !Incomplete(s, max) && !StartsOversize(s, max)
    ensures FirstFrame(s, header, payload, more, max)
    ensures |more| < |s|
  {
    header := s[..FRAME_HEADER_LENGTH];
    var k := FRAME_HEADER_LENGTH + HeaderValue(header);
    payload, more := s[FRAME_HEADER_LENGTH..k], s[k..];
    assert s == header + payload + more;
  }

  lemma LosslessStep(s: Bytes, header: Bytes, payload: Bytes, more: Bytes, q: Parse, max: nat)
    requires FirstFrame(s, header, payload, more, max)
    requires EncodeAll(q.frames) + q.rest == more
    ensures EncodeAll(q.Before([payload]).frames) + q.rest == s
  {
    EncodeAllCons(header, payload, q.frames);
  }

  /** The parse loses no byte and keeps their order: re-encoding its frames and appending the
      rest gives the stream back. */
  lemma {:induction false} ParseIsLossless(s: Bytes, max: nat)
    ensures EncodeAll(ParseStream(s, max).frames) + ParseStream(s, max).rest == s
    decreases |s|
  {
    if Incomplete(s, max) || StartsOversize(s, max) {
      ParseStuck(s, max);
      assert EncodeAll([]) + s == s;
    } else {
      var header, payload, more := SplitFirstFrame(s, max);
      ParseOneFrame(s, header, payload, more, max);
      ParseIsLossless(more, max);
      LosslessStep(s, header, payload, more, ParseStream(more, max), max);
    }
  }

  /** Every parsed frame is within the limit, and the rest cannot be parsed any further. */
  lemma {:induction false} ParseIsComplete(s: Bytes, max: nat)
    ensures AllWithin(ParseStream(s, max).frames, max)
    ensures var p := ParseStream(s, max);
            if p.oversize then StartsOversize(p.rest, max) else Incomplete(p.rest, max)
    decreases |s|
  {
    if Incomplete(s, max) || StartsOversize(s, max) {
      ParseStuck(s, max);
    } else {
      var header, payload, more := SplitFirstFrame(s, max);
      ParseOneFrame(s, header, payload, more, max);
      ParseIsComplete(more, max);
    }
  }

  lemma EncodeAllCons(header: Bytes, payload: Bytes, fs: seq<Bytes>)
    requires |header| == FRAME_HEADER_LENGTH && HeaderValue(header) == |payload|
    ensures EncodeAll([payload] + fs) == header + payload + EncodeAll(fs)
  {
    HeaderIsCanonical(header);
    assert ([payload] + fs)[1..] == fs;
  }

  lemma EncodedFirst(fs: seq<Bytes>, rest: Bytes, max: nat) returns (header: Bytes)
    requires fs != [] && |fs[0]| <= max <= MAX_UINT32
    ensures FirstFrame(EncodeAll(fs) + rest, header, fs[0], EncodeAll(fs[1..]) + rest, max)
  {
    header := HeaderBytes(|fs[0]|);
    HeaderRoundTrip(|fs[0]|);
    assert EncodeAll(fs) + rest == header + fs[0] + (EncodeAll(fs[1..]) + rest);
  }

  /** The converse: any split of a stream into encoded frames and an unparsable rest is the parse. */
  lemma {:induction false} ParseIsUnique(fs: seq<Bytes>, rest: Bytes, max: nat)
    requires max <= MAX_UINT32
    requires AllWithin(fs, max)
    requires Incomplete(rest, max) || StartsOversize(rest, max)
    ensures ParseStream(EncodeAll(fs) + rest, max) == Parse(fs, rest, StartsOversize(rest, max))
  {
    if fs == [] {
      assert EncodeAll(fs) + rest == rest;
    } else {
      ParseIsUnique(fs[1..], rest, max);
      var header := EncodedFirst(fs, rest, max);
      ParseOneFrame(EncodeAll(fs) + rest, header, fs[0], EncodeAll(fs[1..]) + rest, max);
    }
  }

  lemma ParseStuck(s: Bytes, max: nat)
    requires Incomplete(s, max) || StartsOversize(s, max)
    ensures ParseStream(s, max) == Parse([], s, StartsOversize(s, max))
  {
  }

  lemma StartsOversizeExtends(a: Bytes, b: Bytes, max: nat)
    requires StartsOversize(a, max)
    ensures StartsOversize(a + b, max)
  {
    assert (a + b)[..FRAME_HEADER_LENGTH] == a[..FRAME_HEADER_LENGTH];
  }

  lemma ParseOneFrameThen(a: Bytes, b: Bytes, header: Bytes, payload: Bytes, more: Bytes, max: nat)
    requires FirstFrame(a, header, payload, more, max)
    ensures ParseStream(a, max) == ParseStream(more, max).Before([payload])
    ensures ParseStream(a + b, max) == ParseStream(more + b, max).Before([payload])
  {
    assert a + b == header + payload + (more + b);
    ParseOneFrame(a, header, payload, more, max);
    ParseOneFrame(a + b, header, payload, more + b, max);
  }

  /** Parsing a longer stream continues from the rest of the parse of its prefix. */
  lemma {:induction false} ParseContinues(a: Bytes, b: Bytes, max: nat)
    requires !ParseStream(a, max).oversize
    ensures var p := ParseStream(a, max);
            ParseStream(a + b, max) == ParseStream(p.rest + b, max).Before(p.frames)
    decreases |a|
  {
    if Incomplete(a, max) {
      ParseStuck(a, max);
      assert [] + ParseStream(a + b, max).frames == ParseStream(a + b, max).frames;
    } else {
      var header, payload, more := SplitFirstFrame(a, max);
      ParseOneFrameThen(a, b, header, payload, more, max);
      ParseContinues(more, b, max);
      BeforeTwice(ParseStream(ParseStream(more, max).rest + b, max), [payload], ParseStream(more, max).frames);
    }
  }

  lemma BeforeTwice(p: Parse, fs: seq<Bytes>, gs: seq<Bytes>)
    ensures p.Before(gs).Before(fs) == p.Before(fs + gs)
  {
    assert fs + (gs + p.frames) == (fs + gs) + p.frames;
  }

  /** An oversize header found in a prefix stays the end of the parse. */
  lemma {:induction false} ParseStaysOversize(a: Bytes, b: Bytes, max: nat)
    requires ParseStream(a, max).oversize
    ensures var p := ParseStream(a, max);
            ParseStream(a + b, max) == Parse(p.frames, p.rest + b, true)
    decreases |a|
  {
    if StartsOversize(a, max) {
      StartsOversizeExtends(a, b, max);
      ParseStuck(a, max);
      ParseStuck(a + b, max);
    } else {
      var header, payload, more := SplitFirstFrame(a, max);
      ParseOneFrameThen(a, b, header, payload, more, max);
      ParseStaysOversize(more, b, max);
    }
  }
}
