// The queues of messages that wait for the agent.
module MessageQueue {
  import opened AgentEvents

  datatype Mode = All | OneAtATime

  /** The messages that left a queue, the latest outermost: drained by the agent, or cleared. */
  datatype Departures = NoneGone | Gone(before: Departures, message: Message, drained: bool)

  /** All of them, in the order they left. */
  function Left(gone: Departures): (r: seq<Message>) {
    match gone
    case NoneGone => []
    case Gone(before, message, _) => Left(before) + [message]
  }

  /** Those that were drained. */
  function Drained(gone: Departures): (r: seq<Message>) {
    match gone
    case NoneGone => []
    case Gone(before, message, drained) => if drained then Drained(before) + [message] else Drained(before)
  }

  /** The first `n` of these messages leave, one after the other. */
  function Leaving(gone: Departures, messages: seq<Message>, n: nat, drained: bool): (r: Departures)
    requires n <= |messages|
  {
    if n == 0 then gone else Gone(Leaving(gone, messages, n - 1, drained), messages[n - 1], drained)
  }

  lemma OneMore(a: seq<Message>, messages: seq<Message>, n: nat)
    requires 0 < n <= |messages|
    ensures a + messages[..n - 1] + [messages[n - 1]] == a + messages[..n]
  {
  }

  lemma {:induction false} LeavingMore(gone: Departures, messages: seq<Message>, n: nat, drained: bool)
    requires n <= |messages|
    ensures Left(Leaving(gone, messages, n, drained)) == Left(gone) + messages[..n]
    ensures Drained(Leaving(gone, messages, n, drained)) == Drained(gone) + (if drained then messages[..n] else [])
  {
    if n == 0 {
      assert messages[..0] == [] && Left(gone) + [] == Left(gone) && Drained(gone) + [] == Drained(gone);
    } else {
      LeavingMore(gone, messages, n - 1, drained);
      OneMore(Left(gone), messages, n);
      OneMore(Drained(gone), messages, n);
    }
  }

  /** Messages that leave together leave in order, and are drained in order or, when cleared, not at all. */
  lemma AllLeave(gone: Departures, messages: seq<Message>, drained: bool)
    ensures Left(Leaving(gone, messages, |messages|, drained)) == Left(gone) + messages
    ensures Drained(Leaving(gone, messages, |messages|, drained)) == Drained(gone) + (if drained then messages else [])
  {
    LeavingMore(gone, messages, |messages|, drained);
    assert messages[..|messages|] == messages;
  }

  /** What a drain takes, and what it leaves. */
  function Taken(messages: seq<Message>, mode: Mode): (r: seq<Message>)
    ensures if mode == All then r == messages else |r| <= 1
    ensures r == [] <==> messages == []
  {
    if mode == All || messages == [] then messages else [messages[0]]
  }

  function Kept(messages: seq<Message>, mode: Mode): (r: seq<Message>) {
    if mode == All || messages == [] then [] else messages[1..]
  }

  lemma NothingLost(messages: seq<Message>, mode: Mode)
    ensures Taken(messages, mode) + Kept(messages, mode) == messages
  {
  }

  class PendingMessageQueue {
    var messages: seq<Message>
    var mode: Mode
    ghost var enqueued: seq<Message>
    ghost var gone: Departures
    ghost var bulk: bool // some drain took everything at once

    /** First in, first out: what left and what waits are what was queued, in that order. */
    ghost predicate Valid() reads this {
      Left(gone) + messages == enqueued
    }

    constructor (mode: Mode)
      ensures Valid() && messages == [] && this.mode == mode && enqueued == [] && gone == NoneGone && !bulk
    {
      messages, this.mode, enqueued, gone, bulk := [], mode, [], NoneGone, false;
    }

    method Enqueue(m: Message)
      requires Valid()
      modifies this`messages, this`enqueued
      ensures Valid() && messages == old(messages) + [m] && enqueued == old(enqueued) + [m]
    {
      messages, enqueued := messages + [m], enqueued + [m];
    }

    method HasItems() returns (r: bool)
      ensures r <==> messages != []
    {
      r := |messages| > 0;
    }

    method Drain() returns (r: seq<Message>)
      requires Valid()
      modifies this`messages, this`gone, this`bulk
      ensures Valid() && r == Taken(old(messages), mode) && messages == Kept(old(messages), mode)
      ensures Drained(gone) == old(Drained(gone)) + r
      ensures bulk == (old(bulk) || mode == All)
    {
      NothingLost(messages, mode);
      if mode == All {
        r := messages;
        messages := [];
        bulk := true;
      } else if |messages| == 0 {
        r := [];
      } else {
        r := [messages[0]];
        messages := messages[1..];
      }
      Depart(r, true);
    }

    ghost method Depart(r: seq<Message>, drained: bool)
      requires Left(gone) + (r + messages) == enqueued
      modifies this`gone
      ensures Valid() && Drained(gone) == old(Drained(gone)) + (if drained then r else [])
    {
      AllLeave(gone, r, drained);
      assert Left(gone) + (r + messages) == Left(gone) + r + messages;
      gone := Leaving(gone, r, |r|, drained);
    }

    method Clear()
      requires Valid()
      modifies this`messages, this`gone
      ensures Valid() && messages == [] && Drained(gone) == old(Drained(gone))
    {
      ghost var cleared := messages;
      assert cleared + [] == cleared;
      messages := [];
      Depart(cleared, false);
    }

    method SetMode(mode: Mode)
      modifies this`mode
      ensures this.mode == mode
    {
      this.mode := mode;
    }
  }
}
