// What becomes of a request: which response settles it, how, and why every outcome is what it is.
module ClientOutcomes {
  import opened Wrappers
  import opened ClientRequests

  // ---- Single messages ----

  /** Just this request is settled, with this outcome. */
  ghost predicate JustSettles(c: Client, c': Client, id: nat, outcome: Outcome) {
    && c'.outcomes == c.outcomes[id := outcome] && c'.pending == c.pending - {id} && c'.settled[id] == c.settled[id] + 1
    && c'.lifecycle == c.lifecycle && c'.commands == c.commands && c'.handshakes == c.handshakes
    && c'.connections == c.connections && c'.disposed == c.disposed
  }

  /** The connection is gone, and every request that was pending fails with it. */
  ghost predicate GoesDown(c: Client, c': Client, outcome: Outcome) {
    && c'.lifecycle.Disconnected? && c'.pending == {} && c'.commands == c.commands
    && (forall id :: id in c.pending ==> id in c'.outcomes && c'.outcomes[id] == outcome)
    && (forall id :: id in c.outcomes && id !in c.pending ==> id in c'.outcomes && c'.outcomes[id] == c.outcomes[id])
  }

  lemma FailGoesDown(c: Client, outcome: Outcome)
    requires !c.lifecycle.Disconnected? && (!c.lifecycle.Connected? ==> c.pending == {})
    ensures GoesDown(c, Fail(c, outcome), outcome)
  {
  }

  /** A successful response of the right command resolves its request; an error response rejects it. Nothing else
      changes. */
  lemma ResponseSettles(c: Client, id: nat, ok: bool, command: string)
    requires Invariant(c) && c.lifecycle.Connected? && id in c.pending && (ok ==> command == c.commands[id - 1])
    ensures JustSettles(c, HandleMessage(c, Response(id, ok, command)), id,
                        if ok then Resolved(c.commands[id - 1]) else ServerError)
  {
  }

  /** A successful response of another command rejects its request and takes the connection down, with all others. */
  lemma OtherCommandGoesDown(c: Client, id: nat, command: string)
    requires Invariant(c) && c.lifecycle.Connected? && id in c.pending && command != c.commands[id - 1]
    ensures var c' := HandleMessage(c, Response(id, true, command));
      && id in c'.outcomes && c'.outcomes[id] == WrongCommand
      && GoesDown(Settle(c, id, WrongCommand), c', ConnectionLost)
  {
  }

  /** A response to nothing, a second greeting or a greeting error takes the connection down; an event does nothing. */
  lemma StrayMessageGoesDown(c: Client, m: Message)
    requires Invariant(c) && c.lifecycle.Connected? && (m.Response? ==> m.id !in c.pending)
    ensures if m.Event? then HandleMessage(c, m) == c else GoesDown(c, HandleMessage(c, m), ConnectionLost)
  {
  }

  /** One message that arrives on the current connection is handled as such. */
  lemma OneMessageArrives(c: Client, m: Message)
    requires c.lifecycle.Connected? || (c.lifecycle.Connecting? && c.lifecycle.open)
    ensures Next(c, Data(c.lifecycle.id, Some([m]))) == HandleMessage(c, m)
  {
    assert HandleMessages(c, [m][..0]) == c;
  }

  /** A request that is sent waits under the next id. */
  lemma RequestWaits(c: Client, command: string)
    requires Invariant(c) && c.lifecycle.Connected?
    ensures var c' := Next(c, Request(command, true, true));
      && c'.commands == c.commands + [command] && c'.pending == c.pending + {|c.commands| + 1}
      && c'.outcomes == c.outcomes && c'.lifecycle == c.lifecycle
  {
  }

  /** One that cannot be encoded fails by itself; one that cannot be sent takes the connection down. */
  lemma RequestFails(c: Client, command: string, sent: bool)
    requires Invariant(c) && c.lifecycle.Connected?
    ensures var c' := Next(c, Request(command, false, sent));
      && c'.outcomes == c.outcomes[|c.commands| + 1 := NotEncodable] && c'.pending == c.pending - {|c.commands| + 1}
      && c'.lifecycle == c.lifecycle
    ensures var c' := Next(c, Request(command, true, false));
      && c'.lifecycle.Disconnected? && c'.pending == {}
      && forall id :: id in c.pending + {|c.commands| + 1} ==> id in c'.outcomes && c'.outcomes[id] == ConnectionLost
  {
  }

  /** Without a connection, or once disposed, no request is made. */
  lemma NoRequestWithoutConnection(c: Client, command: string, encodable: bool, sent: bool)
    requires !c.lifecycle.Connected? || c.disposed
    ensures Next(c, Request(command, encodable, sent)) == c
  {
  }

  /** Connecting, the transport opening and the greeting make a connection; the handshake is settled once. */
  lemma HandshakeConnects(c: Client)
    requires Invariant(c) && c.lifecycle.Disconnected? && !c.disposed
    ensures var k := c.connections + 1;
      var ready := Next(Next(c, Connect), TransportOpens(k));
      var c' := Next(ready, Data(k, Some([Hello])));
      && Next(c, Connect).lifecycle == Connecting(k, false) && ready.lifecycle == Connecting(k, true)
      && c'.lifecycle == Connected(k) && c'.handshakes == c.handshakes + multiset{k} && c'.pending == c.pending
  {
    var k := c.connections + 1;
    var ready := Next(Next(c, Connect), TransportOpens(k));
    OneMessageArrives(ready, Hello);
  }

  /** A connection is given up when data comes before its transport is open, when a chunk cannot be decoded, and when
      anything but the greeting comes first. */
  lemma GreetingComesFirst(c: Client, messages: Option<seq<Message>>, m: Message)
    requires Invariant(c) && c.lifecycle.Connecting?
    ensures !c.lifecycle.open || messages.None? ==> GoesDown(c, Next(c, Data(c.lifecycle.id, messages)), ConnectionLost)
    ensures c.lifecycle.open && !m.Hello? ==> GoesDown(c, Next(c, Data(c.lifecycle.id, Some([m]))), ConnectionLost)
  {
    FailGoesDown(c, ConnectionLost);
    if c.lifecycle.open {
      OneMessageArrives(c, m);
    }
    hide Fail, GoesDown, Invariant, HandleMessages;
  }

  /** Whatever ends the current connection ends it with everything pending; for another connection it does nothing. */
  lemma ConnectionEnds(c: Client, step: Step)
    requires Invariant(c) && !c.lifecycle.Disconnected?
    requires step.Closes? || step.TransportFails? || step.SendFails?
    ensures if step.connection == c.lifecycle.id then GoesDown(c, Next(c, step), ConnectionLost) else Next(c, step) == c
    ensures GoesDown(c, Next(c, Disconnect), ConnectionLost)
  {
    FailGoesDown(c, ConnectionLost);
    hide Fail, GoesDown, Invariant;
  }

  /** Disposing rejects everything pending as such, and no connection is made any more. */
  lemma DisposeEndsAll(c: Client)
    requires Invariant(c) && !c.disposed
    ensures var c' := Next(c, Dispose);
      GoesDown(c, c', ClientDisposed) && c'.disposed && Next(c', Connect) == c' && Next(c', Dispose) == c'
  {
  }

  // ---- Why every outcome is what it is ----

  ghost predicate Received(step: Step, m: Message) {
    step.Data? && step.messages.Some? && m in step.messages.value
  }

  /** What the messages of one chunk can make of a request, seen from the client before and after it. */
  ghost predicate ChunkExplains(c: Client, messages: seq<Message>, c': Client, id: nat) {
    id in c'.outcomes && id !in c.outcomes ==>
      && 1 <= id <= |c.commands|
      && match c'.outcomes[id]
         case Resolved(command) => Response(id, true, command) in messages && command == c.commands[id - 1]
         case ServerError => exists command :: Response(id, false, command) in messages
         case WrongCommand =>
           exists command :: Response(id, true, command) in messages && command != c.commands[id - 1]
         case ConnectionLost => !c.lifecycle.Disconnected? && c'.lifecycle.Disconnected?
         case _ => false
  }

  lemma MessageExplains(c: Client, m: Message, id: nat)
    requires Invariant(c)
    ensures ChunkExplains(c, [m], HandleMessage(c, m), id) && HandleMessage(c, m).commands == c.commands
  {
    if c.lifecycle.Connected? && m.Response? {
      ResponseExplains(c, m.id, m.ok, m.command, id);
      assert HandleMessage(c, m) == HandleResponse(c, m.id, m.ok, m.command);
      assert [m] == [Response(m.id, m.ok, m.command)];
    } else {
      FailExplains(c, [m], id);
      hide ChunkExplains, Fail;
      assert HandleMessage(c, m) == Fail(c, ConnectionLost) || HandleMessage(c, m).outcomes == c.outcomes;
      OutcomesDecide(c, [m], HandleMessage(c, m), id);
    }
  }

  lemma OutcomesDecide(c: Client, messages: seq<Message>, c': Client, id: nat)
    ensures c'.outcomes == c.outcomes ==> ChunkExplains(c, messages, c', id)
  {
  }

  lemma FailExplains(c: Client, messages: seq<Message>, id: nat)
    requires Invariant(c)
    ensures ChunkExplains(c, messages, Fail(c, ConnectionLost), id) && Fail(c, ConnectionLost).commands == c.commands
  {
  }

  lemma ResponseExplains(c: Client, from: nat, ok: bool, command: string, id: nat)
    requires Invariant(c) && c.lifecycle.Connected?
    ensures var c' := HandleResponse(c, from, ok, command);
      ChunkExplains(c, [Response(from, ok, command)], c', id) && c'.commands == c.commands
  {
    var m := Response(from, ok, command);
    assert m in [m];
    if from in c.pending && ok && c.commands[from - 1] != command {
      FailExplains(Settle(c, from, WrongCommand), [m], id) by {
        SettleKeepsAll(c, from, WrongCommand);
      }
    } else {
      FailExplains(c, [m], id);
    }
  }

  lemma SettleKeepsAll(c: Client, id: nat, outcome: Outcome)
    requires Invariant(c) && id in c.pending && !outcome.Resolved?
    ensures Invariant(Settle(c, id, outcome))
  {
    SettleKeeps(c, id, outcome);
  }

  lemma DisconnectedStays(c: Client, m: Message)
    requires c.lifecycle.Disconnected?
    ensures HandleMessage(c, m) == c
  {
  }

  lemma {:induction false} ChunkIsExplained(c: Client, messages: seq<Message>, id: nat)
    requires Invariant(c)
    ensures ChunkExplains(c, messages, HandleMessages(c, messages), id)
    ensures HandleMessages(c, messages).commands == c.commands
    ensures c.lifecycle.Disconnected? ==> HandleMessages(c, messages) == c
  {
    if messages != [] {
      var n := |messages| - 1;
      var middle := HandleMessages(c, messages[..n]);
      ChunkIsExplained(c, messages[..n], id);
      MessagesKeep(c, messages[..n]);
      MessageExplains(middle, messages[n], id);
      Joins(c, messages, middle, HandleMessages(c, messages), id);
    }
  }

  lemma Joins(c: Client, messages: seq<Message>, middle: Client, c': Client, id: nat)
    requires messages != [] && middle.commands == c.commands
    requires var n := |messages| - 1;
      ChunkExplains(c, messages[..n], middle, id) && ChunkExplains(middle, [messages[n]], c', id)
    requires c' == HandleMessage(middle, messages[|messages| - 1]) && Invariant(middle)
    requires c.lifecycle.Disconnected? ==> middle.lifecycle.Disconnected?
    ensures ChunkExplains(c, messages, c', id)
  {
    var n := |messages| - 1;
    assert messages[n] in messages && forall m :: m in messages[..n] ==> m in messages;
    if id in middle.outcomes {
      MessageGrows(middle, messages[n]);
      if middle.lifecycle.Disconnected? {
        DisconnectedStays(middle, messages[n]);
      }
    }
  }

  /** Why a request came out as it did, told by the first `n` steps of a run. */
  ghost predicate Explained(steps: seq<Step>, n: nat, id: nat, outcome: Outcome, command: string)
    requires n <= |steps|
  {
    match outcome
    case Resolved(c) => c == command && exists k :: 0 <= k < n && Received(steps[k], Response(id, true, command))
    case ServerError => exists k, c :: 0 <= k < n && Received(steps[k], Response(id, false, c))
    case WrongCommand => exists k, c :: 0 <= k < n && c != command && Received(steps[k], Response(id, true, c))
    case NotEncodable => exists k, sent :: 0 <= k < n && steps[k] == Request(command, false, sent)
    case ClientDisposed => exists k :: 0 <= k < n && steps[k] == Dispose
    case ConnectionLost =>
      exists k :: 0 <= k < n && !RunTo(steps, k).lifecycle.Disconnected? && RunTo(steps, k + 1).lifecycle.Disconnected?
  }

  /** One step explains the outcomes it brings. */
  ghost predicate StepExplains(c: Client, step: Step, c': Client, id: nat) {
    id in c'.outcomes && id !in c.outcomes ==>
      && 1 <= id <= |c'.commands|
      && match c'.outcomes[id]
         case Resolved(command) => command == c'.commands[id - 1] && Received(step, Response(id, true, command))
         case ServerError => exists command :: Received(step, Response(id, false, command))
         case WrongCommand =>
           exists command :: command != c'.commands[id - 1] && Received(step, Response(id, true, command))
         case NotEncodable => step.Request? && !step.encodable && step.command == c'.commands[id - 1]
         case ClientDisposed => step == Dispose
         case ConnectionLost => !c.lifecycle.Disconnected? && c'.lifecycle.Disconnected?
  }

  lemma ChunkStepExplains(c: Client, step: Step, id: nat)
    requires Invariant(c) && step.Data?
    ensures StepExplains(c, step, Next(c, step), id)
  {
    if step.messages.Some? {
      ChunkIsExplained(c, step.messages.value, id);
      if id in Next(c, step).outcomes && id !in c.outcomes && Next(c, step) == HandleMessages(c, step.messages.value) {
        match Next(c, step).outcomes[id] {
          case ServerError =>
            var command :| Response(id, false, command) in step.messages.value;
            assert Received(step, Response(id, false, command));
          case WrongCommand =>
            var command :| Response(id, true, command) in step.messages.value && command != c.commands[id - 1];
            assert Received(step, Response(id, true, command));
          case _ =>
        }
      }
    }
  }

  lemma StepIsExplained(c: Client, step: Step, id: nat)
    requires Invariant(c)
    ensures StepExplains(c, step, Next(c, step), id)
  {
    if step.Data? {
      ChunkStepExplains(c, step, id);
    }
  }

  lemma ExplainedLater(steps: seq<Step>, m: nat, n: nat, id: nat, outcome: Outcome, command: string)
    requires m <= n <= |steps| && Explained(steps, m, id, outcome, command)
    ensures Explained(steps, n, id, outcome, command)
  {
  }

  lemma ExplainedNow(steps: seq<Step>, n: nat, id: nat)
    requires n < |steps| && id in RunTo(steps, n + 1).outcomes && id !in RunTo(steps, n).outcomes
    requires StepExplains(RunTo(steps, n), steps[n], RunTo(steps, n + 1), id)
    ensures 1 <= id <= |RunTo(steps, n + 1).commands|
    ensures Explained(steps, n + 1, id, RunTo(steps, n + 1).outcomes[id], RunTo(steps, n + 1).commands[id - 1])
  {
    hide RunTo;
    var c := RunTo(steps, n + 1);
    match c.outcomes[id] {
      case ServerError =>
        var command :| Received(steps[n], Response(id, false, command));
      case WrongCommand =>
        var command :| command != c.commands[id - 1] && Received(steps[n], Response(id, true, command));
      case NotEncodable =>
        assert steps[n] == Request(c.commands[id - 1], false, steps[n].sent);
      case _ =>
    }
  }

  /** Over every run: a request resolves only if a successful response with its id and its own command was received, is
      rejected by the server only if an error response was, as a wrong command only if a response of another command
      was, as not encodable only if it was, as disposed only if the client was, and as lost only if the connection
      went. */
  lemma {:induction false} OutcomesAreExplained(steps: seq<Step>, n: nat, id: nat)
    requires n <= |steps| && id in RunTo(steps, n).outcomes
    ensures 1 <= id <= |RunTo(steps, n).commands|
    ensures Explained(steps, n, id, RunTo(steps, n).outcomes[id], RunTo(steps, n).commands[id - 1])
  {
    hide Explained, StepExplains, Next, Invariant;
    if n > 0 {
      SafeTo(steps, n - 1);
      var before, now := RunTo(steps, n - 1), RunTo(steps, n);
      if id in before.outcomes {
        OutcomesAreExplained(steps, n - 1, id);
        OutcomesAreFinal(steps, n - 1, n);
        ExplainedLater(steps, n - 1, n, id, before.outcomes[id], before.commands[id - 1]);
      } else {
        StepIsExplained(before, steps[n - 1], id);
        ExplainedNow(steps, n - 1, id);
      }
    }
  }

  /** Over every run: whatever came before, a successful response with the id and command of a pending request that
      arrives on the current connection resolves it, and that is final. */
  lemma ResultsArrive(steps: seq<Step>, n: nat, id: nat)
    requires n < |steps| && RunTo(steps, n).lifecycle.Connected? && id in RunTo(steps, n).pending
    requires 1 <= id <= |RunTo(steps, n).commands|
    requires steps[n] == Data(RunTo(steps, n).lifecycle.id,
                              Some([Response(id, true, RunTo(steps, n).commands[id - 1])]))
    ensures id in Run(steps).outcomes && Run(steps).outcomes[id] == Resolved(RunTo(steps, n).commands[id - 1])
  {
    SafeTo(steps, n);
    var c := RunTo(steps, n);
    OneMessageArrives(c, Response(id, true, c.commands[id - 1]));
    ResponseSettles(c, id, true, c.commands[id - 1]);
    OutcomesAreFinal(steps, n + 1, |steps|);
  }
}
