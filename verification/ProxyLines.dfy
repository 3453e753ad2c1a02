// Splitting streamed text into lines. A reader keeps the unfinished last line between chunks; what
// it has handled at any time are the newline-terminated lines of all the text so far.
module ProxyLines {
  const NEWLINE := '\n'

  /** The position of the first newline at or after `k`, or the end of the text. */
  function NewlineFrom(t: string, k: nat): (i: nat)
    requires k <= |t|
    ensures k <= i <= |t|
    ensures forall n :: k <= n < i ==> t[n] != NEWLINE
    ensures i < |t| ==> t[i] == NEWLINE
    decreases |t| - k
  {
    if k == |t| || t[k] == NEWLINE then k else NewlineFrom(t, k + 1)
  }

  function FirstNewline(t: string): (i: nat)
    ensures i <= |t|
    ensures forall k :: 0 <= k < i ==> t[k] != NEWLINE
    ensures i < |t| ==> t[i] == NEWLINE
  {
    NewlineFrom(t, 0)
  }

  /** The pieces of a text between its newlines; the last is what follows the last newline. */
  function Split(t: string): (pieces: seq<string>)
    ensures |pieces| > 0
    decreases |t|
  {
    var i := FirstNewline(t);
    if i == |t| then [t] else [t[..i]] + Split(t[i + 1..])
  }

  function Lines(t: string): seq<string> { Split(t)[..|Split(t)| - 1] }
  function Rest(t: string): string { Split(t)[|Split(t)| - 1] }

  function Terminated(lines: seq<string>): (t: string) {
    if lines == [] then "" else lines[0] + [NEWLINE] + Terminated(lines[1..])
  }

  ghost predicate Plain(piece: string) { NEWLINE !in piece }

  lemma SplitOnce(line: string, t: string)
    requires Plain(line)
    ensures Split(line + [NEWLINE] + t) == [line] + Split(t)
  {
    var s := line + [NEWLINE] + t;
    assert s[|line|] == NEWLINE && forall k :: 0 <= k < |line| ==> s[k] == line[k];
    assert FirstNewline(s) == |line|;
    assert s[..|line|] == line && s[|line| + 1..] == t;
  }

  lemma SplitNone(rest: string)
    requires Plain(rest)
    ensures Split(rest) == [rest]
  {
  }

  lemma LineBefore(t: string, i: nat)
    requires i == FirstNewline(t) < |t|
    ensures Lines(t) == [t[..i]] + Lines(t[i + 1..]) && Rest(t) == Rest(t[i + 1..])
  {
    assert Split(t) == [t[..i]] + Split(t[i + 1..]);
  }

  /** Splitting is lossless. */
  lemma {:induction false} SplitIsLossless(t: string)
    ensures Terminated(Lines(t)) + Rest(t) == t
    ensures Plain(Rest(t)) && forall line :: line in Lines(t) ==> Plain(line)
    decreases |t|
  {
    var i := FirstNewline(t);
    if i < |t| {
      SplitIsLossless(t[i + 1..]);
      LineBefore(t, i);
      assert t == t[..i] + [NEWLINE] + t[i + 1..];
    }
  }

  /** Splitting is the only way to read a text as lines and a rest. */
  lemma {:induction false} SplitIsUnique(lines: seq<string>, rest: string)
    requires Plain(rest) && forall line :: line in lines ==> Plain(line)
    ensures Split(Terminated(lines) + rest) == lines + [rest]
  {
    if lines == [] {
      assert Terminated(lines) + rest == rest;
      SplitNone(rest);
    } else {
      SplitIsUnique(lines[1..], rest);
      var tail := Terminated(lines[1..]) + rest;
      assert Terminated(lines) + rest == lines[0] + [NEWLINE] + tail;
      SplitOnce(lines[0], tail);
    }
  }

  lemma {:induction false} TerminatedConcat(a: seq<string>, b: seq<string>)
    ensures Terminated(a + b) == Terminated(a) + Terminated(b)
  {
    if a != [] {
      TerminatedConcat(a[1..], b);
      assert (a + b)[1..] == a[1..] + b;
    } else {
      assert a + b == b;
    }
  }

  lemma Joined(a: seq<string>, b: seq<string>, r: string, t: string, chunk: string, rest: string)
    requires Terminated(a) + r == t && Terminated(b) + rest == r + chunk
    ensures Terminated(a + b) + rest == t + chunk
  {
    TerminatedConcat(a, b);
    assert Terminated(a) + (Terminated(b) + rest) == Terminated(a) + Terminated(b) + rest;
    assert Terminated(a) + (r + chunk) == Terminated(a) + r + chunk;
  }

  lemma SplitTells(t: string, lines: seq<string>, rest: string)
    requires Plain(rest) && (forall line :: line in lines ==> Plain(line)) && Terminated(lines) + rest == t
    ensures Lines(t) == lines && Rest(t) == rest
  {
    SplitIsUnique(lines, rest);
  }

  /** Reading on with the kept rest gives the lines of the whole text. */
  lemma LinesContinue(t: string, chunk: string)
    ensures Lines(t + chunk) == Lines(t) + Lines(Rest(t) + chunk)
    ensures Rest(t + chunk) == Rest(Rest(t) + chunk)
  {
    var a, r := Lines(t), Rest(t);
    var b, rest := Lines(r + chunk), Rest(r + chunk);
    SplitIsLossless(t);
    SplitIsLossless(r + chunk);
    Joined(a, b, r, t, chunk, rest);
    SplitTells(t + chunk, a + b, rest);
  }

  /** White space and line terminators as string trimming knows them. */
  predicate IsSpace(c: char) {
    || '\t' <= c <= '\r' || c == ' ' || c == '\U{00A0}' || c == '\U{1680}' || '\U{2000}' <= c <= '\U{200A}'
    || c == '\U{2028}' || c == '\U{2029}' || c == '\U{202F}' || c == '\U{205F}' || c == '\U{3000}' || c == '\U{FEFF}'
  }

  /** The position of the first character at or after `k` that is no blank, or the end. */
  function SkipSpaces(s: string, k: nat): (i: nat)
    requires k <= |s|
    ensures k <= i <= |s| && (i < |s| ==> !IsSpace(s[i])) && forall n :: k <= n < i ==> IsSpace(s[n])
    decreases |s| - k
  {
    if k < |s| && IsSpace(s[k]) then SkipSpaces(s, k + 1) else k
  }

  /** The end of the part between `from` and `k` without its trailing blanks. */
  function DropSpaces(s: string, from: nat, k: nat): (i: nat)
    requires from <= k <= |s|
    ensures from <= i <= k && (i > from ==> !IsSpace(s[i - 1])) && forall n :: i <= n < k ==> IsSpace(s[n])
  {
    if k > from && IsSpace(s[k - 1]) then DropSpaces(s, from, k - 1) else k
  }

  function Trim(s: string): (r: string)
    ensures r != "" ==> !IsSpace(r[0]) && !IsSpace(r[|r| - 1])
  {
    var from := SkipSpaces(s, 0);
    s[from..DropSpaces(s, from, |s|)]
  }

  const DATA_PREFIX := "data: "

  /** What a line carries: nothing unless it starts with `data: ` and more than blanks follow. */
  function Payload(line: string): (data: string)
    ensures data != "" ==> DATA_PREFIX <= line
  {
    if DATA_PREFIX <= line then Trim(line[6..]) else ""
  }
}
