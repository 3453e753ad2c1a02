// The client object: its connection lifecycle, the sequence of request ids and the map of pending
// requests, changed in place by every handler. Each method is one step of the request protocol.
module ProtocolClients {
  import opened Wrappers
  import opened ClientRequests

  class ProtocolClient {
    var lifecycle: Lifecycle
    var sequence: nat
    var disposed: bool
    var requestSequence: nat
    var pendingRequests: map<nat, string>
    ghost var commands: seq<string>
    ghost var settled: multiset<nat>
    ghost var outcomes: map<nat, Outcome>
    ghost var handshakes: multiset<nat>

    ghost function Value(): Client reads this {
      Client(lifecycle, sequence, disposed, commands, pendingRequests.Keys, settled, outcomes, handshakes)
    }

    /** The promises of the protocol hold between any two handlers. */
    ghost predicate Valid() reads this {
      Matched() && Invariant(Value())
    }

    /** Every pending request has an id given out before and remembers its own command. */
    ghost predicate Matched() reads this {
      && requestSequence == |commands|
      && forall id :: id in pendingRequests ==> 1 <= id <= |commands| && pendingRequests[id] == commands[id - 1]
    }

    constructor ()
      ensures Valid() && Value() == NEW_CLIENT
    {
      lifecycle, sequence, disposed, requestSequence, pendingRequests := Disconnected, 0, false, 0, map[];
      commands, settled, outcomes, handshakes := [], multiset{}, map[], multiset{};
      new;
      EveryRunIsSafe([]);
    }

    method TakePendingRequest(id: nat, ghost outcome: Outcome)
      requires id in pendingRequests
      modifies this`pendingRequests, this`settled, this`outcomes
      ensures Value() == Settle(old(Value()), id, outcome)
      ensures forall k :: k in pendingRequests ==>
        k in old(pendingRequests) && pendingRequests[k] == old(pendingRequests)[k]
    {
      pendingRequests := pendingRequests - {id};
      settled, outcomes := settled + multiset{id}, outcomes[id := outcome];
    }

    method RejectPendingRequests(ghost outcome: Outcome)
      modifies this`pendingRequests, this`settled, this`outcomes
      ensures Value() == RejectAll(old(Value()), outcome) && pendingRequests == map[]
    {
      settled := settled + multiset(pendingRequests.Keys);
      outcomes := outcomes + map id | id in pendingRequests.Keys :: outcome;
      pendingRequests := map[];
    }

    /** Gives the connection up, with its open handshake and every pending request. */
    method FailConnection(ghost outcome: Outcome)
      modifies this`lifecycle, this`pendingRequests, this`settled, this`outcomes, this`handshakes
      ensures Value() == Fail(old(Value()), outcome)
      ensures pendingRequests == if old(lifecycle).Disconnected? then old(pendingRequests) else map[]
    {
      if lifecycle.Disconnected? {
        return;
      }
      if lifecycle.Connecting? {
        handshakes := handshakes + multiset{lifecycle.id};
      }
      lifecycle := Disconnected;
      RejectPendingRequests(outcome);
    }

    method Connect()
      requires Valid()
      modifies this`lifecycle, this`sequence
      ensures Valid() && Value() == Next(old(Value()), Step.Connect)
    {
      hide Invariant, Fail, RejectAll, Settle, HandleMessages;
      StepKeeps(Value(), Step.Connect);
      if disposed || !lifecycle.Disconnected? {
        return;
      }
      sequence := sequence + 1;
      lifecycle := Connecting(sequence, false);
    }

    method OpenTransport(id: nat)
      requires Valid()
      modifies this`lifecycle
      ensures Valid() && Value() == Next(old(Value()), TransportOpens(id))
    {
      hide Invariant, Fail, RejectAll, Settle, HandleMessages;
      StepKeeps(Value(), TransportOpens(id));
      if lifecycle == Connecting(id, false) {
        lifecycle := Connecting(id, true);
      }
    }

    /** The transport of a connection could not be opened, was closed, or failed to send. */
    method LoseTransport(id: nat)
      requires Valid()
      modifies this`lifecycle, this`pendingRequests, this`settled, this`outcomes, this`handshakes
      ensures Valid() && Value() == Next(old(Value()), Closes(id))
      ensures Value() == Next(old(Value()), TransportFails(id)) == Next(old(Value()), SendFails(id))
    {
      hide Invariant, Fail, RejectAll, Settle, HandleMessages;
      StepKeeps(Value(), Closes(id));
      if !lifecycle.Disconnected? && lifecycle.id == id {
        FailConnection(ConnectionLost);
      }
    }

    method DisconnectNow()
      requires Valid()
      modifies this`lifecycle, this`pendingRequests, this`settled, this`outcomes, this`handshakes
      ensures Valid() && Value() == Next(old(Value()), Disconnect)
    {
      hide Invariant, Fail, RejectAll, Settle, HandleMessages;
      StepKeeps(Value(), Disconnect);
      FailConnection(ConnectionLost);
    }

    /** A new request gets the next id and waits for its response. */
    method Register(command: string) returns (id: nat)
      requires Matched()
      modifies this`requestSequence, this`commands, this`pendingRequests
      ensures Matched() && id == old(requestSequence) + 1 && id in pendingRequests
      ensures var c := old(Value()); Value() == c.(commands := c.commands + [command], pending := c.pending + {id})
    {
      requestSequence := requestSequence + 1;
      id := requestSequence;
      commands := commands + [command];
      pendingRequests := pendingRequests[id := command];
    }

    method SendCommand(command: string, encodable: bool, sent: bool) returns (id: Option<nat>)
      requires Valid()
      modifies this`lifecycle, this`requestSequence, this`commands, this`pendingRequests, this`settled
      modifies this`outcomes, this`handshakes
      ensures Valid() && Value() == Next(old(Value()), Request(command, encodable, sent))
      ensures id == if old(disposed) || !old(lifecycle).Connected? then None else Some(old(requestSequence) + 1)
    {
      hide Invariant, Fail, RejectAll, Settle, HandleMessages;
      StepKeeps(Value(), Request(command, encodable, sent));
      if disposed || !lifecycle.Connected? {
        return None;
      }
      var next := Register(command);
      id := Some(next);
      if !encodable {
        TakePendingRequest(next, NotEncodable);
      } else if !sent {
        FailConnection(ConnectionLost);
      }
    }

    method ReceiveResponse(id: nat, ok: bool, command: string)
      requires Matched() && lifecycle.Connected?
      modifies this`lifecycle, this`pendingRequests, this`settled, this`outcomes, this`handshakes
      ensures Matched() && Value() == HandleResponse(old(Value()), id, ok, command)
    {
      if id !in pendingRequests {
        FailConnection(ConnectionLost);
      } else if !ok {
        TakePendingRequest(id, ServerError);
      } else if pendingRequests[id] == command {
        TakePendingRequest(id, Resolved(command));
      } else {
        TakePendingRequest(id, WrongCommand);
        FailConnection(ConnectionLost);
      }
    }

    method ReceiveMessage(message: Message)
      requires Matched()
      modifies this`lifecycle, this`pendingRequests, this`settled, this`outcomes, this`handshakes
      ensures Matched() && Value() == HandleMessage(old(Value()), message)
    {
      if lifecycle.Connecting? {
        if message.Hello? && lifecycle.open {
          handshakes := handshakes + multiset{lifecycle.id};
          lifecycle := Connected(lifecycle.id);
        } else {
          FailConnection(ConnectionLost);
        }
      } else if lifecycle.Connected? {
        if message.Response? {
          ReceiveResponse(message.id, message.ok, message.command);
        } else if !message.Event? {
          FailConnection(ConnectionLost);
        }
      }
    }

    /** The messages of one chunk, until one of them takes the connection down. */
    method ReceiveMessages(messages: seq<Message>)
      requires Matched()
      modifies this`lifecycle, this`pendingRequests, this`settled, this`outcomes, this`handshakes
      ensures Matched() && Value() == HandleMessages(old(Value()), messages)
    {
      ghost var before := Value();
      var k := 0;
      while k < |messages|
        invariant 0 <= k <= |messages| && Matched()
        invariant Value() == HandleMessages(before, messages[..k])
      {
        if lifecycle.Disconnected? {
          DisconnectedIgnores(before, messages, k);
          return;
        }
        ReceiveMessage(messages[k]);
        assert messages[..k + 1][..k] == messages[..k];
        k := k + 1;
      }
      assert messages[..k] == messages;
    }

    method ReceiveData(id: nat, messages: Option<seq<Message>>)
      requires Valid()
      modifies this`lifecycle, this`pendingRequests, this`settled, this`outcomes, this`handshakes
      ensures Valid() && Value() == Next(old(Value()), Data(id, messages))
    {
      hide Invariant, Fail, RejectAll, Settle, HandleMessages;
      StepKeeps(Value(), Data(id, messages));
      if lifecycle.Disconnected? || lifecycle.id != id {
        return;
      }
      if (lifecycle.Connecting? && !lifecycle.open) || messages.None? {
        FailConnection(ConnectionLost);
        return;
      }
      ReceiveMessages(messages.value);
    }

    method CloseDown(ghost before: Client)
      requires before == Value()
      modifies this`disposed, this`pendingRequests, this`settled, this`outcomes
      ensures Value() == RejectAll(before.(disposed := true), ClientDisposed)
      ensures pendingRequests == map[]
    {
      disposed := true;
      RejectPendingRequests(ClientDisposed);
    }

    method DisposeClient()
      requires Valid()
      modifies this`disposed, this`lifecycle, this`pendingRequests, this`settled, this`outcomes, this`handshakes
      ensures Valid() && Value() == Next(old(Value()), Dispose)
    {
      hide Invariant, Fail, RejectAll, Settle, HandleMessages;
      StepKeeps(Value(), Dispose);
      if disposed {
        return;
      }
      ghost var before := Value();
      CloseDown(before);
      DisposeIs(before, Value());
      FailConnection(ClientDisposed);
    }
  }

  lemma DisposeIs(c: Client, rejected: Client)
    requires !c.disposed && rejected == RejectAll(c.(disposed := true), ClientDisposed)
    ensures Next(c, Dispose) == Fail(rejected, ClientDisposed)
  {
  }

  lemma {:induction false} DisconnectedIgnores(c: Client, messages: seq<Message>, k: nat)
    requires k <= |messages| && HandleMessages(c, messages[..k]).lifecycle.Disconnected?
    ensures HandleMessages(c, messages) == HandleMessages(c, messages[..k])
    decreases |messages| - k
  {
    if k < |messages| {
      assert messages[..k + 1][..k] == messages[..k];
      DisconnectedIgnores(c, messages, k + 1);
    } else {
      assert messages[..k] == messages;
    }
  }
}
