// Requests of the protocol client over connections that come and go. Each handler runs to its end
// as one step; listeners do not call back into the client.
module ClientRequests {
  import opened Wrappers

  /** The connection: its id, and whether the transport is open while connecting. */
  datatype Lifecycle = Disconnected | Connecting(id: nat, open: bool) | Connected(id: nat)

  datatype Outcome =
    | Resolved(command: string) | ServerError | WrongCommand | ConnectionLost | ClientDisposed | NotEncodable

  datatype Message =
    | Hello
    | HelloError
    | Event
    | Response(id: nat, ok: bool, command: string)

  /** `commands[n - 1]` is the command of request `n`; `settled` counts the settlements of each id. */
  datatype Client = Client(
    lifecycle: Lifecycle,
    connections: nat,
    disposed: bool,
    commands: seq<string>,
    pending: set<nat>,
    settled: multiset<nat>,
    outcomes: map<nat, Outcome>,
    handshakes: multiset<nat>)

  const NEW_CLIENT := Client(Disconnected, 0, false, [], {}, multiset{}, map[], multiset{})

  datatype Step =
    | Connect
    | TransportOpens(connection: nat)
    | TransportFails(connection: nat)
    | Data(connection: nat, messages: Option<seq<Message>>)
    | Closes(connection: nat)
    | SendFails(connection: nat)
    | Disconnect
    | Request(command: string, encodable: bool, sent: bool)
    | Dispose

  function Settle(c: Client, id: nat, outcome: Outcome): Client {
    c.(pending := c.pending - {id}, settled := c.settled + multiset{id}, outcomes := c.outcomes[id := outcome])
  }

  function RejectAll(c: Client, outcome: Outcome): Client {
    c.(pending := {},
       settled := c.settled + multiset(c.pending),
       outcomes := c.outcomes + map id | id in c.pending :: outcome)
  }

  /** The connection is given up: its handshake, if still open, and every pending request fail. */
  function Fail(c: Client, outcome: Outcome): Client {
    match c.lifecycle
    case Disconnected => c
    case Connecting(id, _) =>
      RejectAll(c.(lifecycle := Disconnected, handshakes := c.handshakes + multiset{id}), outcome)
    case Connected(_) => RejectAll(c.(lifecycle := Disconnected), outcome)
  }

  predicate IsCurrent(c: Client, connection: nat) {
    c.lifecycle.Disconnected? == false && c.lifecycle.id == connection
  }

  function HandleResponse(c: Client, id: nat, ok: bool, command: string): Client {
    if id !in c.pending then Fail(c, ConnectionLost)
    else if !ok then Settle(c, id, ServerError)
    else if 1 <= id <= |c.commands| && c.commands[id - 1] == command then Settle(c, id, Resolved(command))
    else Fail(Settle(c, id, WrongCommand), ConnectionLost)
  }

  function HandleMessage(c: Client, message: Message): Client {
    match c.lifecycle
    case Disconnected => c
    case Connecting(id, open) =>
      if message.Hello? && open then c.(lifecycle := Connected(id), handshakes := c.handshakes + multiset{id})
      else Fail(c, ConnectionLost)
    case Connected(_) =>
      match message
      case Response(id, ok, command) => HandleResponse(c, id, ok, command)
      case Event => c
      case _ => Fail(c, ConnectionLost)
  }

  function HandleMessages(c: Client, messages: seq<Message>): Client {
    if messages == [] then c
    else HandleMessage(HandleMessages(c, messages[..|messages| - 1]), messages[|messages| - 1])
  }

  function HandleData(c: Client, connection: nat, messages: Option<seq<Message>>): Client {
    if !IsCurrent(c, connection) then c
    else if c.lifecycle.Connecting? && !c.lifecycle.open then Fail(c, ConnectionLost)
    else if messages.None? then Fail(c, ConnectionLost)
    else HandleMessages(c, messages.value)
  }

  function SendRequest(c: Client, command: string, encodable: bool, sent: bool): Client {
    if c.disposed || !c.lifecycle.Connected? then c
    else
      var id := |c.commands| + 1;
      var asked := c.(commands := c.commands + [command], pending := c.pending + {id});
      if !encodable then Settle(asked, id, NotEncodable)
      else if !sent then Fail(asked, ConnectionLost)
      else asked
  }

  function Next(c: Client, step: Step): (c': Client) {
    match step
    case Connect =>
      if c.disposed || !c.lifecycle.Disconnected? then c
      else c.(lifecycle := Connecting(c.connections + 1, false), connections := c.connections + 1)
    case TransportOpens(k) =>
      if c.lifecycle == Connecting(k, false) then c.(lifecycle := Connecting(k, true)) else c
    case TransportFails(k) => if IsCurrent(c, k) then Fail(c, ConnectionLost) else c
    case Data(k, messages) => HandleData(c, k, messages)
    case Closes(k) => if IsCurrent(c, k) then Fail(c, ConnectionLost) else c
    case SendFails(k) => if IsCurrent(c, k) then Fail(c, ConnectionLost) else c
    case Disconnect => Fail(c, ConnectionLost)
    case Request(command, encodable, sent) => SendRequest(c, command, encodable, sent)
    case Dispose =>
      if c.disposed then c else Fail(RejectAll(c.(disposed := true), ClientDisposed), ClientDisposed)
  }

  /** The client after the first `n` steps. */
  function RunTo(steps: seq<Step>, n: nat): (c: Client)
    requires n <= |steps|
  {
    if n == 0 then NEW_CLIENT else Next(RunTo(steps, n - 1), steps[n - 1])
  }

  function Run(steps: seq<Step>): (c: Client) {
    RunTo(steps, |steps|)
  }

  /** Every request issued is pending or settled once, never both; nothing else is settled. */
  ghost predicate SettledOnce(c: Client) {
    && (forall id :: id in c.pending ==> 1 <= id <= |c.commands|)
    && (forall id :: c.settled[id] == if 1 <= id <= |c.commands| && id !in c.pending then 1 else 0)
    && c.outcomes.Keys == (set id | 1 <= id <= |c.commands| && id !in c.pending)
  }

  /** A result reaches only a request for that command. */
  ghost predicate RightCommand(c: Client) {
    forall id :: id in c.outcomes && c.outcomes[id].Resolved? && 1 <= id <= |c.commands| ==>
      c.outcomes[id].command == c.commands[id - 1]
  }

  /** Every connection attempt is the current one, still connecting, or its handshake settled once. */
  ghost predicate HandshakesOnce(c: Client) {
    && (!c.lifecycle.Disconnected? ==> 1 <= c.lifecycle.id <= c.connections)
    && (forall k :: c.handshakes[k] ==
          if 1 <= k <= c.connections && !(c.lifecycle.Connecting? && c.lifecycle.id == k) then 1 else 0)
  }

  ghost predicate Invariant(c: Client) {
    && SettledOnce(c) && RightCommand(c) && HandshakesOnce(c)
    && (!c.lifecycle.Connected? ==> c.pending == {})
    && (c.disposed ==> c.lifecycle.Disconnected?)
  }

  lemma SettleKeeps(c: Client, id: nat, outcome: Outcome)
    requires SettledOnce(c) && RightCommand(c) && id in c.pending
    requires outcome.Resolved? ==> outcome.command == c.commands[id - 1]
    ensures SettledOnce(Settle(c, id, outcome)) && RightCommand(Settle(c, id, outcome))
  {
  }

  lemma RejectAllKeeps(c: Client, outcome: Outcome)
    requires SettledOnce(c) && RightCommand(c) && !outcome.Resolved?
    ensures SettledOnce(RejectAll(c, outcome)) && RightCommand(RejectAll(c, outcome))
  {
  }

  lemma FailKeeps(c: Client, outcome: Outcome)
    requires SettledOnce(c) && RightCommand(c) && HandshakesOnce(c) && !outcome.Resolved?
    requires c.lifecycle.Disconnected? ==> c.pending == {}
    ensures Invariant(Fail(c, outcome)) && Fail(c, outcome).lifecycle.Disconnected?
  {
    match c.lifecycle
    case Disconnected =>
    case Connecting(id, _) => RejectAllKeeps(c.(lifecycle := Disconnected,
                                                handshakes := c.handshakes + multiset{id}), outcome);
    case Connected(_) => RejectAllKeeps(c.(lifecycle := Disconnected), outcome);
  }

  lemma ResponseKeeps(c: Client, id: nat, ok: bool, command: string)
    requires Invariant(c) && c.lifecycle.Connected?
    ensures Invariant(HandleResponse(c, id, ok, command))
  {
    if id !in c.pending {
      FailKeeps(c, ConnectionLost);
    } else if !ok {
      SettleKeeps(c, id, ServerError);
    } else if c.commands[id - 1] == command {
      SettleKeeps(c, id, Resolved(command));
    } else {
      SettleKeeps(c, id, WrongCommand);
      FailKeeps(Settle(c, id, WrongCommand), ConnectionLost);
    }
  }

  lemma MessageKeeps(c: Client, message: Message)
    requires Invariant(c)
    ensures Invariant(HandleMessage(c, message))
  {
    if c.lifecycle.Connected? && message.Response? {
      ResponseKeeps(c, message.id, message.ok, message.command);
    } else {
      FailKeeps(c, ConnectionLost);
    }
  }

  lemma {:induction false} MessagesKeep(c: Client, messages: seq<Message>)
    requires Invariant(c)
    ensures Invariant(HandleMessages(c, messages))
  {
    if messages != [] {
      MessagesKeep(c, messages[..|messages| - 1]);
      MessageKeeps(HandleMessages(c, messages[..|messages| - 1]), messages[|messages| - 1]);
    }
  }

  lemma RequestKeeps(c: Client, command: string, encodable: bool, sent: bool)
    requires Invariant(c)
    ensures Invariant(SendRequest(c, command, encodable, sent))
  {
    if !c.disposed && c.lifecycle.Connected? {
      var id := |c.commands| + 1;
      var asked := c.(commands := c.commands + [command], pending := c.pending + {id});
      assert SettledOnce(asked) && RightCommand(asked) && HandshakesOnce(asked);
      SettleKeeps(asked, id, NotEncodable);
      FailKeeps(asked, ConnectionLost);
    }
  }

  lemma DisposeKeeps(c: Client)
    requires Invariant(c)
    ensures Invariant(Next(c, Dispose))
  {
    RejectAllKeeps(c.(disposed := true), ClientDisposed);
    FailKeeps(RejectAll(c.(disposed := true), ClientDisposed), ClientDisposed);
  }

  lemma StepKeeps(c: Client, step: Step)
    requires Invariant(c)
    ensures Invariant(Next(c, step))
  {
    match step
    case Connect =>
    case TransportOpens(_) =>
    case Data(k, messages) =>
      FailKeeps(c, ConnectionLost);
      if messages.Some? { MessagesKeep(c, messages.value); }
    case Request(command, encodable, sent) => RequestKeeps(c, command, encodable, sent);
    case Dispose => DisposeKeeps(c);
    case _ => FailKeeps(c, ConnectionLost);
  }

  lemma {:induction false} SafeTo(steps: seq<Step>, n: nat)
    requires n <= |steps|
    ensures Invariant(RunTo(steps, n))
  {
    if n > 0 {
      SafeTo(steps, n - 1);
      StepKeeps(RunTo(steps, n - 1), steps[n - 1]);
    }
  }

  /** Whatever happens to the connection, requests and handshakes settle as promised. */
  lemma EveryRunIsSafe(steps: seq<Step>)
    ensures Invariant(Run(steps))
  {
    SafeTo(steps, |steps|);
  }

  /** Once the connection is gone or the client disposed, every request issued so far has settled,
      exactly once. */
  lemma NothingPendsWithoutConnection(steps: seq<Step>, id: nat)
    requires !Run(steps).lifecycle.Connected? || Run(steps).disposed
    requires 1 <= id <= |Run(steps).commands|
    ensures Run(steps).settled[id] == 1 && id !in Run(steps).pending
  {
    EveryRunIsSafe(steps);
  }

  /** A chunk that arrives on a connection that is no longer the current one changes nothing. */
  lemma StaleDataIsIgnored(c: Client, connection: nat, messages: Option<seq<Message>>)
    requires !IsCurrent(c, connection)
    ensures Next(c, Data(connection, messages)) == c
  {
  }

  /** What has been decided stays: outcomes are kept, and request ids are never given out again. */
  ghost predicate Grows(c: Client, c': Client) {
    && c.commands <= c'.commands
    && c.connections <= c'.connections
    && (forall id :: id in c.outcomes ==> id in c'.outcomes && c'.outcomes[id] == c.outcomes[id])
    && (forall id :: id in c'.pending ==> id in c.pending || id > |c.commands|)
  }

  lemma GrowsOn(a: Client, b: Client, c: Client)
    requires Grows(a, b) && Grows(b, c)
    ensures Grows(a, c)
  {
  }

  lemma FailGrows(c: Client, outcome: Outcome)
    requires SettledOnce(c)
    ensures Grows(c, Fail(c, outcome))
  {
  }

  lemma SettleGrows(c: Client, id: nat, outcome: Outcome)
    requires SettledOnce(c) && id in c.pending
    ensures Grows(c, Settle(c, id, outcome))
  {
  }

  lemma ResponseGrows(c: Client, id: nat, ok: bool, command: string)
    requires Invariant(c)
    ensures Grows(c, HandleResponse(c, id, ok, command))
  {
    if id !in c.pending {
      FailGrows(c, ConnectionLost);
    } else if !ok {
      SettleGrows(c, id, ServerError);
    } else if c.commands[id - 1] == command {
      SettleGrows(c, id, Resolved(command));
    } else {
      var c1 := Settle(c, id, WrongCommand);
      SettleGrows(c, id, WrongCommand);
      SettleKeeps(c, id, WrongCommand);
      FailGrows(c1, ConnectionLost);
      GrowsOn(c, c1, Fail(c1, ConnectionLost));
    }
  }

  lemma MessageGrows(c: Client, message: Message)
    requires Invariant(c)
    ensures Grows(c, HandleMessage(c, message))
  {
    if c.lifecycle.Connected? && message.Response? {
      ResponseGrows(c, message.id, message.ok, message.command);
    } else {
      FailGrows(c, ConnectionLost);
    }
  }

  lemma {:induction false} MessagesGrow(c: Client, messages: seq<Message>)
    requires Invariant(c)
    ensures Grows(c, HandleMessages(c, messages))
  {
    if messages != [] {
      var earlier := messages[..|messages| - 1];
      MessagesKeep(c, earlier);
      MessagesGrow(c, earlier);
      MessageGrows(HandleMessages(c, earlier), messages[|messages| - 1]);
      GrowsOn(c, HandleMessages(c, earlier), HandleMessages(c, messages));
    }
  }

  lemma RequestGrows(c: Client, command: string, encodable: bool, sent: bool)
    requires Invariant(c)
    ensures Grows(c, SendRequest(c, command, encodable, sent))
  {
    if !c.disposed && c.lifecycle.Connected? {
      var id := |c.commands| + 1;
      var asked := c.(commands := c.commands + [command], pending := c.pending + {id});
      assert Grows(c, asked) && SettledOnce(asked);
      SettleGrows(asked, id, NotEncodable);
      FailGrows(asked, ConnectionLost);
      GrowsOn(c, asked, SendRequest(c, command, encodable, sent));
    }
  }

  lemma DisposeGrows(c: Client)
    requires Invariant(c)
    ensures Grows(c, Next(c, Dispose))
  {
    var c1 := RejectAll(c.(disposed := true), ClientDisposed);
    RejectAllKeeps(c.(disposed := true), ClientDisposed);
    assert Grows(c, c1);
    FailGrows(c1, ClientDisposed);
    GrowsOn(c, c1, Fail(c1, ClientDisposed));
  }

  lemma StepGrows(c: Client, step: Step)
    requires Invariant(c)
    ensures Grows(c, Next(c, step))
  {
    match step
    case Data(_, messages) =>
      FailGrows(c, ConnectionLost);
      if messages.Some? { MessagesGrow(c, messages.value); }
    case Request(command, encodable, sent) => RequestGrows(c, command, encodable, sent);
    case Dispose => DisposeGrows(c);
    case _ => FailGrows(c, ConnectionLost);
  }

  /** Over a whole run: an outcome once reached is the outcome for ever, and no id is issued twice. */
  lemma OutcomesAreFinal(steps: seq<Step>, m: nat, n: nat)
    requires m <= n <= |steps|
    ensures Grows(RunTo(steps, m), RunTo(steps, n))
  {
    var clients := seq(|steps| + 1, k requires 0 <= k <= |steps| => RunTo(steps, k));
    forall k | 0 <= k < |steps| ensures Grows(clients[k], clients[k + 1]) {
      GrowsAt(steps, k);
    }
    GrowsAlong(clients, m, n);
  }

  lemma GrowsAt(steps: seq<Step>, k: nat)
    requires k < |steps|
    ensures Grows(RunTo(steps, k), RunTo(steps, k + 1))
  {
    SafeTo(steps, k);
    StepGrows(RunTo(steps, k), steps[k]);
  }

  lemma {:induction false} GrowsAlong(clients: seq<Client>, m: nat, n: nat)
    requires m <= n < |clients| && forall k :: 0 <= k < |clients| - 1 ==> Grows(clients[k], clients[k + 1])
    ensures Grows(clients[m], clients[n])
  {
    if m < n {
      GrowsAlong(clients, m, n - 1);
      assert Grows(clients[n - 1], clients[n - 1 + 1]);
      GrowsOn(clients[m], clients[n - 1], clients[n]);
    }
  }
}
