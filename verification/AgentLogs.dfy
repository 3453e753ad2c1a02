// What the summaries of an agent's log mean, told by the events themselves and where they stand.
module AgentLogs {
  import opened Wrappers
  import opened AgentEvents

  /** The events of a log, in order. */
  ghost function Events(log: Log): (r: seq<Event>) {
    match log
    case Nothing(_) => []
    case Emitted(before, e, _) => Events(before) + [e]
    case Asked(before, _) => Events(before)
  }

  // ---- What is counted ----

  /** What `f` picks out of the events, in order. */
  ghost function Pick<T>(log: Log, f: (Event, Origin) -> Option<T>): (r: seq<T>) {
    match log
    case Nothing(_) => []
    case Emitted(before, e, origin) => Pick(before, f) + (if f(e, origin).Some? then [f(e, origin).value] else [])
    case Asked(before, _) => Pick(before, f)
  }

  function Payload(e: Event, origin: Origin): Option<Message> {
    if e.MessageEnd? then Some(e.message) else None
  }

  function PayloadFrom(source: Origin): (Event, Origin) -> Option<Message> {
    (e: Event, origin: Origin) => if e.MessageEnd? && origin == source then Some(e.message) else None
  }

  function OwnPayload(e: Event, origin: Origin): Option<Message> {
    if e.MessageEnd? && origin != Steering && origin != FollowUp then Some(e.message) else None
  }

  function StartedCall(e: Event, origin: Origin): Option<Call> {
    if e.ToolStart? then Some(e.call) else None
  }

  function EndedCall(e: Event, origin: Origin): Option<Finalized> {
    if e.ToolEnd? then Some(e.outcome) else None
  }

  /** The requests of a log, each with the transcript that the log itself gives at that point. */
  ghost function RequestsOf(log: Log, base: seq<Message>): (r: seq<Request>) {
    match log
    case Nothing(_) => []
    case Emitted(before, _, _) => RequestsOf(before, base)
    case Asked(before, context) => RequestsOf(before, base) + [Request(context, base + Pick(before, Payload))]
  }

  /** The view holds just what stands in the log: payloads by where they come from, calls, outcomes, requests. */
  lemma {:induction false} ViewPicks(log: Log)
    ensures var v := ViewOf(log);
      && v.ended == Pick(log, Payload) && v.steering == Pick(log, PayloadFrom(Steering))
      && v.followUps == Pick(log, PayloadFrom(FollowUp)) && v.others == Pick(log, OwnPayload)
      && v.started == Pick(log, StartedCall) && v.finished == multiset(Pick(log, EndedCall))
      && v.asked == RequestsOf(log, v.base)
  {
    match log
    case Nothing(_) =>
    case Emitted(before, e, origin) =>
      ViewPicks(before);
      PickStep(ViewOf(before), e, origin);
      if e.ToolEnd? {
        var ended := Pick(before, EndedCall);
        assert multiset(ended + [e.outcome]) == multiset(ended) + multiset{e.outcome};
      }
    case Asked(before, _) =>
      ViewPicks(before);
  }

  lemma PickStep(v: View, e: Event, origin: Origin)
    ensures var w := See(v, e, origin);
      && w.base == v.base && w.asked == v.asked
      && w.ended == v.ended + (if e.MessageEnd? then [e.message] else [])
      && w.steering == v.steering + (if e.MessageEnd? && origin == Steering then [e.message] else [])
      && w.followUps == v.followUps + (if e.MessageEnd? && origin == FollowUp then [e.message] else [])
      && w.others == v.others + (if OwnPayload(e, origin).Some? then [e.message] else [])
      && w.started == v.started + (if e.ToolStart? then [e.call] else [])
      && w.finished == v.finished + (if e.ToolEnd? then multiset{e.outcome} else multiset{})
  {
  }

  /** Every `turn_end` names the reply and the results that were the last payloads before it. */
  ghost predicate TurnsTellTheirOwn(log: Log) {
    match log
    case Nothing(_) => true
    case Asked(before, _) => TurnsTellTheirOwn(before)
    case Emitted(before, e, _) =>
      && TurnsTellTheirOwn(before)
      && (e.TurnEnd? ==> exists earlier :: Pick(before, Payload) == earlier + ([Assistant(e.reply)] + e.toolResults))
  }

  /** What the last `agent_end` carried. */
  function LastEnd(log: Log): (r: Option<seq<Message>>) {
    match log
    case Nothing(_) => None
    case Asked(before, _) => LastEnd(before)
    case Emitted(before, e, _) => if e.AgentEnd? then Some(e.messages) else LastEnd(before)
  }

  lemma EndsWithIff(messages: seq<Message>, tail: seq<Message>)
    ensures EndsWith(messages, tail) <==> exists earlier :: messages == earlier + tail
  {
    if EndsWith(messages, tail) {
      assert messages == messages[..|messages| - |tail|] + tail;
    }
  }

  lemma ToldStep(v: View, e: Event, origin: Origin)
    ensures var w := See(v, e, origin);
      && w.told == (v.told && (e.TurnEnd? ==> EndsWith(v.ended, [Assistant(e.reply)] + e.toolResults)))
      && w.final == if e.AgentEnd? then Some(e.messages) else v.final
  {
  }

  /** Turns tell their own exactly if the view says so, and the view holds what the run ended with. */
  lemma {:induction false} ToldMeans(log: Log)
    ensures ViewOf(log).told <==> TurnsTellTheirOwn(log)
    ensures ViewOf(log).final == LastEnd(log)
  {
    match log
    case Nothing(_) =>
    case Asked(before, _) => ToldMeans(before);
    case Emitted(before, e, origin) =>
      ToldMeans(before);
      ToldStep(ViewOf(before), e, origin);
      ViewPicks(before);
      if e.TurnEnd? {
        EndsWithIff(ViewOf(before).ended, [Assistant(e.reply)] + e.toolResults);
      }
      hide See, EndsWith, Pick;
  }

  // ---- Brackets ----

  predicate Inside(e: Event) { e.MessageStart? || e.MessageUpdate? }

  predicate Continues(e: Event) { e.MessageUpdate? || e.MessageEnd? }

  /** The update or end at `i` belongs to a start before it, with nothing but updates between. */
  ghost predicate Belongs(events: seq<Event>, i: nat)
    requires i < |events| && Continues(events[i])
  {
    exists h: nat :: BelongsTo(events, i, h)
  }

  ghost predicate BelongsTo(events: seq<Event>, i: nat, h: nat)
    requires i < |events| && Continues(events[i])
  {
    && h < i && events[h].MessageStart? && Closes(events[h].message, events[i].message)
    && forall k :: h < k < i ==> events[k].MessageUpdate?
  }

  /** Every update and every end belongs to a start, and after a start or an update comes an update or an end. */
  ghost predicate Bracketed(events: seq<Event>) {
    && (forall i: nat :: i < |events| && Continues(events[i]) ==> Belongs(events, i))
    && (forall i: nat :: i + 1 < |events| && Inside(events[i]) ==> Continues(events[i + 1]))
  }

  /** The message that is open is the one whose start came last. */
  ghost predicate OpenSince(events: seq<Event>, b: Bracket) {
    match b
    case Shut => events == [] || !Inside(events[|events| - 1])
    case Open(m) =>
      exists h: nat ::
        h < |events| && events[h] == MessageStart(m) && forall k :: h < k < |events| ==> events[k].MessageUpdate?
    case Crossed => true
  }

  lemma BelongsStays(events: seq<Event>, e: Event, i: nat)
    requires i < |events| && Continues(events[i])
    ensures Belongs(events + [e], i) <==> Belongs(events, i)
  {
    var all := events + [e];
    assert forall k :: 0 <= k <= i ==> all[k] == events[k];
    forall h: nat ensures BelongsTo(all, i, h) <==> BelongsTo(events, i, h) {
    }
  }

  /** One more event keeps the brackets in order exactly if it belongs, or nothing is open. */
  lemma BracketedSnoc(events: seq<Event>, e: Event)
    ensures Bracketed(events + [e]) <==>
      && Bracketed(events)
      && (Continues(e) ==> Belongs(events + [e], |events|))
      && (events != [] && Inside(events[|events| - 1]) ==> Continues(e))
  {
    var all, n := events + [e], |events|;
    forall i: nat | i < n && Continues(events[i]) ensures Belongs(all, i) <==> Belongs(events, i) {
      BelongsStays(events, e, i);
    }
    assert forall i: nat :: i < n ==> all[i] == events[i];
    if Bracketed(all) {
      forall i: nat | i < n && Continues(events[i]) ensures Belongs(events, i) {
        assert Belongs(all, i);
      }
      forall i: nat | i + 1 < n && Inside(events[i]) ensures Continues(events[i + 1]) {
        assert Inside(all[i]);
        assert Continues(all[i + 1]);
      }
      if events != [] && Inside(events[n - 1]) {
        assert Inside(all[n - 1]);
        assert Continues(all[n - 1 + 1]);
      }
    }
    if
      && Bracketed(events)
      && (Continues(e) ==> Belongs(all, n))
      && (events != [] && Inside(events[n - 1]) ==> Continues(e))
    {
      forall i: nat | i < |all| && Continues(all[i]) ensures Belongs(all, i) {
        if i < n {
          assert Belongs(events, i);
        }
      }
      forall i: nat | i + 1 < |all| && Inside(all[i]) ensures Continues(all[i + 1]) {
        if i + 1 < n {
          assert Inside(events[i]);
          assert Continues(events[i + 1]);
        }
      }
    }
  }

  /** A start with nothing but updates up to `n`. */
  ghost predicate OpensUntil(events: seq<Event>, h: nat, n: nat)
    requires n <= |events|
  {
    h < n && events[h].MessageStart? && forall k :: h < k < n ==> events[k].MessageUpdate?
  }

  lemma OnlyOneOpens(events: seq<Event>, g: nat, h: nat, n: nat)
    requires n <= |events| && OpensUntil(events, g, n) && OpensUntil(events, h, n)
    ensures g == h
  {
  }

  /** The last event of what is open belongs to the message that the bracket names, and to no other. */
  lemma LastBelongs(events: seq<Event>, b: Bracket, e: Event)
    requires OpenSince(events, b) && b != Crossed && Continues(e)
    ensures Belongs(events + [e], |events|) <==> b.Open? && Closes(b.message, e.message)
  {
    var all, n := events + [e], |events|;
    assert forall k :: 0 <= k < n ==> all[k] == events[k];
    if b.Open? {
      var h: nat :| h < n && events[h] == MessageStart(b.message) && forall k :: h < k < n ==> events[k].MessageUpdate?;
      assert OpensUntil(all, h, n);
      assert BelongsTo(all, n, h) <==> Closes(b.message, e.message);
      forall g: nat | BelongsTo(all, n, g) ensures g == h {
        OnlyOneOpens(all, g, h, n);
      }
    } else {
      forall g: nat ensures !BelongsTo(all, n, g) {
        assert n > 0 ==> all[n - 1] == events[n - 1];
      }
    }
  }

  lemma OpenSnoc(events: seq<Event>, b: Bracket, e: Event)
    requires OpenSince(events, b)
    ensures OpenSince(events + [e], NextBracket(b, e))
  {
    var all, n := events + [e], |events|;
    assert all[n] == e;
    if b.Open? && e.MessageUpdate? {
      var h: nat :| h < n && events[h] == MessageStart(b.message) && forall k :: h < k < n ==> events[k].MessageUpdate?;
      assert all[h] == events[h] && forall k :: h < k < |all| ==> all[k].MessageUpdate?;
    }
  }

  /** The brackets are not crossed if and only if every message is closed by its own end before the next one starts. */
  lemma {:induction false} BracketMeans(log: Log)
    ensures ViewOf(log).bracket != Crossed <==> Bracketed(Events(log))
    ensures OpenSince(Events(log), ViewOf(log).bracket)
  {
    hide Bracketed, OpenSince, See, NextBracket;
    match log
    case Nothing(_) => NothingIsOpen();
    case Asked(before, _) => BracketMeans(before);
    case Emitted(before, e, origin) =>
      BracketMeans(before);
      SeesBracket(ViewOf(before), e, origin);
      BracketStep(Events(before), ViewOf(before).bracket, e);
  }

  lemma NothingIsOpen()
    ensures Bracketed([]) && OpenSince([], Shut)
  {
  }

  lemma SeesBracket(v: View, e: Event, origin: Origin)
    ensures See(v, e, origin).bracket == NextBracket(v.bracket, e)
  {
  }

  lemma BracketStep(events: seq<Event>, b: Bracket, e: Event)
    requires OpenSince(events, b) && (b != Crossed <==> Bracketed(events))
    ensures NextBracket(b, e) != Crossed <==> Bracketed(events + [e])
    ensures OpenSince(events + [e], NextBracket(b, e))
  {
    BracketedSnoc(events, e);
    OpenSnoc(events, b, e);
    hide Bracketed, Belongs, OpenSince;
    if b != Crossed {
      if Continues(e) { LastBelongs(events, b, e); }
      OpenIsInside(events, b);
    }
  }

  lemma OpenIsInside(events: seq<Event>, b: Bracket)
    requires OpenSince(events, b) && b != Crossed
    ensures b.Open? <==> events != [] && Inside(events[|events| - 1])
  {
    if b.Open? {
      var h: nat :| h < |events| && events[h] == MessageStart(b.message) &&
        forall k :: h < k < |events| ==> events[k].MessageUpdate?;
      assert h == |events| - 1 || events[|events| - 1].MessageUpdate?;
    }
  }

  // ---- Steering messages of a turn ----

  function Length(log: Log): (n: nat) {
    match log
    case Nothing(_) => 0
    case Emitted(before, _, _) => Length(before) + 1
    case Asked(before, _) => Length(before) + 1
  }

  /** The `k`-th entry of the log brings a steering message. */
  ghost predicate Steers(log: Log, k: nat) {
    match log
    case Nothing(_) => false
    case Emitted(before, e, origin) =>
      if k == Length(before) then e.MessageEnd? && origin == Steering else Steers(before, k)
    case Asked(before, _) => k != Length(before) && Steers(before, k)
  }

  /** The `k`-th entry opens a turn. */
  ghost predicate OpensTurn(log: Log, k: nat) {
    match log
    case Nothing(_) => false
    case Emitted(before, e, _) => if k == Length(before) then e.TurnStart? else OpensTurn(before, k)
    case Asked(before, _) => k != Length(before) && OpensTurn(before, k)
  }

  /** A steering message since which no turn was opened before entry `n`. */
  ghost predicate SteersUntil(log: Log, i: nat, n: nat) {
    Steers(log, i) && forall k: nat :: i < k < n ==> !OpensTurn(log, k)
  }

  /** Two steering messages entered the same turn. */
  ghost predicate TwoInATurn(log: Log) {
    exists i: nat, j: nat :: i < j && SteersUntil(log, i, j) && Steers(log, j)
  }

  lemma {:induction false} InLog(log: Log, k: nat)
    ensures Steers(log, k) || OpensTurn(log, k) ==> k < Length(log)
  {
    match log
    case Nothing(_) =>
    case Emitted(before, _, _) => InLog(before, k);
    case Asked(before, _) => InLog(before, k);
  }

  /** The entries before the last are those of the log before it. */
  lemma SameEntries(log: Log, before: Log)
    requires (log.Emitted? || log.Asked?) && log.before == before
    ensures forall k: nat :: k != Length(before) ==> Steers(log, k) == Steers(before, k)
    ensures forall k: nat :: k != Length(before) ==> OpensTurn(log, k) == OpensTurn(before, k)
    ensures Length(log) == Length(before) + 1
  {
  }

  /** The current turn has a steering message exactly if one stands in the log after the last turn was opened, and some
      turn took two exactly if two stand in the log with no turn opened between. */
  lemma {:induction false} CrowdedMeans(log: Log)
    ensures ViewOf(log).steeredNow > 0 <==> exists i: nat :: SteersUntil(log, i, Length(log))
    ensures ViewOf(log).crowded <==> TwoInATurn(log)
  {
    if !log.Nothing? {
      var before := log.before;
      CrowdedMeans(before);
      SameEntries(log, before);
      NowMeans(log, before);
      TwiceMeans(log, before);
    }
  }

  ghost predicate LastSteers(log: Log) { log.Emitted? && log.event.MessageEnd? && log.origin == Steering }

  /** A steering message of the current turn stays one until a turn is opened. */
  lemma StaysUntil(log: Log, before: Log, i: nat)
    requires !log.Nothing? && log.before == before && i < Length(before)
    ensures SteersUntil(log, i, Length(log)) <==>
      SteersUntil(before, i, Length(before)) && !OpensTurn(log, Length(before))
  {
    SameEntries(log, before);
    hide Steers, OpensTurn;
    var n := Length(before);
    if SteersUntil(before, i, n) && !OpensTurn(log, n) {
      forall k: nat | i < k < Length(log) ensures !OpensTurn(log, k) {
        assert k < n || k == n;
      }
    }
    if SteersUntil(log, i, Length(log)) {
      forall k: nat | i < k < n ensures !OpensTurn(before, k) {
        assert !OpensTurn(log, k);
      }
    }
  }

  lemma NowMeans(log: Log, before: Log)
    requires !log.Nothing? && log.before == before
    requires ViewOf(before).steeredNow > 0 <==> exists i: nat :: SteersUntil(before, i, Length(before))
    ensures ViewOf(log).steeredNow > 0 <==> exists i: nat :: SteersUntil(log, i, Length(log))
  {
    var n := Length(before);
    LastEntry(log, before);
    hide Steers, OpensTurn;
    if i: nat :| SteersUntil(before, i, n) && !OpensTurn(log, n) {
      InLog(before, i);
      StaysUntil(log, before, i);
      assert SteersUntil(log, i, Length(log));
    }
    if LastSteers(log) {
      assert SteersUntil(log, n, Length(log));
    }
    if i: nat :| SteersUntil(log, i, Length(log)) {
      InLog(log, i);
      if i < n {
        StaysUntil(log, before, i);
      }
    }
  }

  lemma LastEntry(log: Log, before: Log)
    requires !log.Nothing? && log.before == before
    ensures Length(log) == Length(before) + 1
    ensures Steers(log, Length(before)) <==> LastSteers(log)
    ensures OpensTurn(log, Length(before)) <==> log.Emitted? && log.event.TurnStart?
    ensures ViewOf(log).steeredNow > 0 <==>
      LastSteers(log) || (ViewOf(before).steeredNow > 0 && !(log.Emitted? && log.event.TurnStart?))
    ensures ViewOf(log).crowded <==> ViewOf(before).crowded || (LastSteers(log) && ViewOf(before).steeredNow > 0)
  {
    LastPlace(log, before);
    if log.Emitted? {
      SteerStep(ViewOf(before), log.event, log.origin);
    }
    hide Steers, OpensTurn, See, Length;
  }

  lemma LastPlace(log: Log, before: Log)
    requires !log.Nothing? && log.before == before
    ensures Length(log) == Length(before) + 1
    ensures Steers(log, Length(before)) <==> LastSteers(log)
    ensures OpensTurn(log, Length(before)) <==> log.Emitted? && log.event.TurnStart?
  {
  }

  lemma SteerStep(v: View, e: Event, origin: Origin)
    ensures See(v, e, origin).steeredNow > 0 <==>
      (e.MessageEnd? && origin == Steering) || (v.steeredNow > 0 && !e.TurnStart?)
    ensures See(v, e, origin).crowded <==> v.crowded || (e.MessageEnd? && origin == Steering && v.steeredNow > 0)
  {
  }

  lemma TwiceMeans(log: Log, before: Log)
    requires !log.Nothing? && log.before == before
    requires ViewOf(before).steeredNow > 0 <==> exists i: nat :: SteersUntil(before, i, Length(before))
    requires ViewOf(before).crowded <==> TwoInATurn(before)
    ensures ViewOf(log).crowded <==> TwoInATurn(log)
  {
    SameEntries(log, before);
    var n := Length(before);
    LastEntry(log, before);
    hide Steers, OpensTurn;
    forall i: nat, j: nat | i < j <= n ensures SteersUntil(log, i, j) <==> SteersUntil(before, i, j) {
    }
    if TwoInATurn(log) {
      var i: nat, j: nat :| i < j && SteersUntil(log, i, j) && Steers(log, j);
      InLog(log, j);
      if j < n {
        assert SteersUntil(before, i, j) && Steers(before, j);
      } else {
        assert SteersUntil(before, i, n);
      }
    }
    if TwoInATurn(before) {
      var i: nat, j: nat :| i < j && SteersUntil(before, i, j) && Steers(before, j);
      InLog(before, j);
      assert SteersUntil(log, i, j) && Steers(log, j);
    }
    if LastSteers(log) && ViewOf(before).steeredNow > 0 {
      var i: nat :| SteersUntil(before, i, n);
      InLog(before, i);
      assert SteersUntil(log, i, n) && Steers(log, n);
    }
  }

  // ---- The reducer ----

  /** The state after the first `n` events. */
  ghost function Reduced(s: AgentState, events: seq<Event>, n: nat): (r: AgentState)
    requires n <= |events|
  {
    if n == 0 then s else Reduce(Reduced(s, events, n - 1), events[n - 1])
  }

  /** The payloads among the first `n` events. */
  ghost function PayloadsIn(events: seq<Event>, n: nat): (r: seq<Message>)
    requires n <= |events|
  {
    if n == 0 then []
    else PayloadsIn(events, n - 1) + (if events[n - 1].MessageEnd? then [events[n - 1].message] else [])
  }

  /** The call with this id has started and not ended since, at the start of the events or among the first `n`. */
  ghost predicate Running(s: AgentState, events: seq<Event>, n: nat, id: string)
    requires n <= |events|
  {
    (id in s.pendingToolCalls && NotEnded(events, 0, n, id)) || exists i: nat :: RunningSince(events, i, n, id)
  }

  ghost predicate RunningSince(events: seq<Event>, i: nat, n: nat, id: string)
    requires n <= |events|
  {
    i < n && StartsCall(events[i], id) && NotEnded(events, i + 1, n, id)
  }

  ghost predicate NotEnded(events: seq<Event>, from: nat, n: nat, id: string)
    requires n <= |events|
  {
    forall k :: from <= k < n ==> !EndsCall(events[k], id)
  }

  predicate StartsCall(e: Event, id: string) { e.ToolStart? && e.call.id == id }

  predicate EndsCall(e: Event, id: string) { e.ToolEnd? && e.outcome.call.id == id }

  /** The last turn that ended with an error told this one. */
  ghost predicate LastError(events: seq<Event>, n: nat, i: nat)
    requires n <= |events|
  {
    && i < n && events[i].TurnEnd? && events[i].reply.errorMessage != ""
    && forall k :: i < k < n ==> !(events[k].TurnEnd? && events[k].reply.errorMessage != "")
  }

  /** What the state of the agent shows after any events: the transcript is the old one and the payloads in order; a
      call is pending exactly if it has started and not ended since. */
  lemma {:induction false} ReducedMeans(s: AgentState, events: seq<Event>, n: nat, id: string)
    requires n <= |events|
    ensures Reduced(s, events, n).messages == s.messages + PayloadsIn(events, n)
    ensures id in Reduced(s, events, n).pendingToolCalls <==> Running(s, events, n, id)
  {
    if n == 0 {
      assert s.messages + [] == s.messages;
    } else {
      ReducedMeans(s, events, n - 1, id);
      var e, before := events[n - 1], Reduced(s, events, n - 1);
      assert before.messages + [] == before.messages;
      if e.MessageEnd? {
        var payloads := PayloadsIn(events, n - 1);
        assert s.messages + payloads + [e.message] == s.messages + (payloads + [e.message]);
      } else {
        assert PayloadsIn(events, n - 1) + [] == PayloadsIn(events, n - 1);
      }
      RunningStep(s, events, n, id);
    }
  }

  lemma RunningStep(s: AgentState, events: seq<Event>, n: nat, id: string)
    requires 0 < n <= |events|
    ensures Running(s, events, n, id) <==>
      StartsCall(events[n - 1], id) || (Running(s, events, n - 1, id) && !EndsCall(events[n - 1], id))
  {
    var m := n - 1;
    var e := events[m];
    forall from: nat | from < n
      ensures NotEnded(events, from, n, id) <==> NotEnded(events, from, m, id) && !EndsCall(e, id)
    {
    }
    forall i: nat | i < m
      ensures RunningSince(events, i, n, id) <==> RunningSince(events, i, m, id) && !EndsCall(e, id)
    {
    }
    assert RunningSince(events, m, n, id) <==> StartsCall(e, id);
    if i: nat :| RunningSince(events, i, n, id) {
      assert i == m || RunningSince(events, i, m, id);
    }
    if i: nat :| RunningSince(events, i, m, id) {
      assert !EndsCall(e, id) ==> RunningSince(events, i, n, id);
    }
  }

  /** The error shown is that of the last turn that ended with one; a message is shown as streaming exactly between its
      start and its end, as it was last told. */
  lemma {:induction false} ReducedShows(s: AgentState, events: seq<Event>, n: nat)
    requires n <= |events|
    ensures forall i: nat :: LastError(events, n, i) ==>
      Reduced(s, events, n).errorMessage == Some(events[i].reply.errorMessage)
    ensures (forall i: nat :: !LastError(events, n, i)) ==> Reduced(s, events, n).errorMessage == s.errorMessage
    ensures n > 0 && Inside(events[n - 1]) ==> Reduced(s, events, n).streamingMessage == Some(events[n - 1].message)
    ensures n > 0 && (events[n - 1].MessageEnd? || events[n - 1].AgentEnd?) ==>
      Reduced(s, events, n).streamingMessage == None
    ensures n > 0 && !Inside(events[n - 1]) && !events[n - 1].MessageEnd? && !events[n - 1].AgentEnd? ==>
      Reduced(s, events, n).streamingMessage == Reduced(s, events, n - 1).streamingMessage
  {
    if n > 0 {
      var m := n - 1;
      ReducedShows(s, events, m);
      var e := events[m];
      var failed := e.TurnEnd? && e.reply.errorMessage != "";
      forall i: nat ensures LastError(events, n, i) <==> if failed then i == m else LastError(events, m, i) {
      }
      if failed {
        assert LastError(events, n, m);
      } else if i: nat :| LastError(events, m, i) {
        assert LastError(events, n, i);
      }
    }
  }
}
