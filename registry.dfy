/** The asset connection registry: at most one upstream market-data session
    per symbol, opened on the first join, torn down on a leave or when the
    session reports `close` or `error`.

    `State` and the step functions below define what each operation does;
    `AssetRegistry` is the mutable table itself, and each of its methods is
    proved to perform exactly the matching step. */
module Registry {
  import opened Js
  import opened Relay
  import MarketData

  type Symbol = string

  /** An opaque handle for one upstream socket. */
  type SessionId = nat

  /** What the registry did, in order. */
  datatype Output =
    | Opened(session: SessionId, symbol: Symbol)  // `new WebSocket(...)` for `symbol`
    | Acted(session: SessionId, action: Action)   // a handler of `session` sent or broadcast
    | Closed(session: SessionId)                  // `ws.close()`
    | Crashed(session: SessionId)                 // a handler of `session` threw

  /** `connections` is `assetConnections`. `symbolOf` is the asset each session
      was opened for (what its handlers captured); `ended` holds the sessions
      that were closed or reported close or error; `nextId` is the next fresh
      handle. `crashed` is set once a handler has thrown: nothing catches the
      exception, so the process ends and no later event is handled. */
  datatype State = State(
    connections: map<Symbol, SessionId>,
    symbolOf: map<SessionId, Symbol>,
    ended: set<SessionId>,
    nextId: SessionId,
    log: seq<Output>,
    crashed: bool)

  const Initial := State(map[], map[], {}, 0, [], false)

  /** Every handle was handed out before; every registered session was opened
      for the key it is registered under and has not ended. */
  ghost predicate Inv(st: State) {
    && (forall id | id in st.symbolOf :: id < st.nextId)
    && st.ended <= st.symbolOf.Keys
    && (forall s | s in st.connections ::
          st.connections[s] in st.symbolOf && st.symbolOf[st.connections[s]] == s
          && st.connections[s] !in st.ended)
  }

  /** The sessions opened for `s` that have not ended. */
  ghost function LiveSessions(st: State, s: Symbol): set<SessionId> {
    set id | id in st.symbolOf && st.symbolOf[id] == s && id !in st.ended
  }

  /** `{ ticks: asset }`: the subscription a new session writes once open. */
  function TicksRequest(asset: Symbol): (r: Value)
    ensures r.Obj? && r.fields.Keys == {"ticks"} && r.fields["ticks"] == Str(asset)
  {
    Obj(map["ticks" := Str(asset)])
  }

  lemma InitialInv()
    ensures Inv(Initial) && Initial.connections == map[]
  {
  }

  lemma RegisteredSessionsDistinct(st: State, a: Symbol, b: Symbol)
    requires Inv(st) && a in st.connections && b in st.connections && a != b
    ensures st.connections[a] != st.connections[b]
  {
  }

  // ---------------------------------------------------------------------------
  // The steps

  /** `fetchAssetData(asset)`: nothing when the symbol is registered;
      otherwise a fresh session is opened and registered under `asset`, and
      its first request is the tick subscription. */
  function Subscribed(st: State, asset: Symbol): (st': State)
    ensures asset in st.connections ==> st' == st
    ensures asset !in st.connections ==>
              && st'.connections == st.connections[asset := st.nextId]
              && st'.symbolOf == st.symbolOf[st.nextId := asset]
              && st'.ended == st.ended
              && st'.nextId == st.nextId + 1
              && st'.log == st.log + [Opened(st.nextId, asset), Acted(st.nextId, Send(TicksRequest(asset)))]
              && st'.crashed == st.crashed
    ensures asset in st'.connections
    ensures forall s | s != asset :: (s in st'.connections <==> s in st.connections)
    ensures forall s | s != asset && s in st.connections :: st'.connections[s] == st.connections[s]
  {
    if asset in st.connections then st
    else
      var id := st.nextId;
      st.(connections := st.connections[asset := id], symbolOf := st.symbolOf[id := asset], nextId := id + 1,
          log := st.log + [Opened(id, asset), Acted(id, Send(TicksRequest(asset)))])
  }

  /** `unsubscribeAssetData(asset)`: close and forget the registered session;
      nothing when there is none. */
  function Unsubscribed(st: State, asset: Symbol): (st': State)
    ensures asset !in st.connections ==> st' == st
    ensures asset in st.connections ==>
              && st'.connections == st.connections - {asset}
              && st'.symbolOf == st.symbolOf
              && st'.ended == st.ended + {st.connections[asset]}
              && st'.nextId == st.nextId
              && st'.log == st.log + [Closed(st.connections[asset])]
              && st'.crashed == st.crashed
    ensures asset !in st'.connections
    ensures forall s | s != asset :: (s in st'.connections <==> s in st.connections)
    ensures forall s | s != asset && s in st.connections :: st'.connections[s] == st.connections[s]
  {
    if asset in st.connections then
      var id := st.connections[asset];
      st.(connections := st.connections - {asset}, ended := st.ended + {id}, log := st.log + [Closed(id)])
    else st
  }

  /** The `close` and `error` handlers of session `id`: delete the entry of the
      symbol the session was opened for, whatever session it now holds. */
  function SessionEnded(st: State, id: SessionId): (st': State)
    requires id in st.symbolOf
    ensures st'.connections == st.connections - {st.symbolOf[id]}
    ensures st'.symbolOf == st.symbolOf && st'.nextId == st.nextId && st'.log == st.log
    ensures st'.ended == st.ended + {id} && st'.crashed == st.crashed
  {
    st.(connections := st.connections - {st.symbolOf[id]}, ended := st.ended + {id})
  }

  /** The log entries for what one handler invocation of `id` did. */
  function Record(id: SessionId, c: Completion<seq<Action>>): (out: seq<Output>)
    ensures c.Thrown? ==> out == [Crashed(id)]
    ensures c.Normal? ==> |out| == |c.value| && forall i | 0 <= i < |out| :: out[i] == Acted(id, c.value[i])
  {
    match c
    case Thrown => [Crashed(id)]
    case Normal(acts) => seq(|acts|, i requires 0 <= i < |acts| => Acted(id, acts[i]))
  }

  /** The `message` handler of session `id`: it acts for the symbol the session
      was opened for and never touches the table; when it throws, the process
      has crashed. */
  function Delivered(st: State, id: SessionId, response: Object): (st': State)
    requires id in st.symbolOf
    ensures st'.connections == st.connections && st'.symbolOf == st.symbolOf
    ensures st'.ended == st.ended && st'.nextId == st.nextId
    ensures st'.log == st.log + Record(id, MarketData.OnMessage(st.symbolOf[id], response))
    ensures st'.crashed <==> st.crashed || MarketData.IsQuoteWithoutEcho(response)
  {
    var reply := MarketData.OnMessage(st.symbolOf[id], response);
    st.(log := st.log + Record(id, reply), crashed := st.crashed || reply.Thrown?)
  }

  lemma SubscribedKeepsInv(st: State, asset: Symbol)
    requires Inv(st)
    ensures Inv(Subscribed(st, asset))
  {
  }

  lemma UnsubscribedKeepsInv(st: State, asset: Symbol)
    requires Inv(st)
    ensures Inv(Unsubscribed(st, asset))
  {
  }

  lemma SessionEndedKeepsInv(st: State, id: SessionId)
    requires Inv(st) && id in st.symbolOf
    ensures Inv(SessionEnded(st, id))
  {
  }

  lemma DeliveredKeepsInv(st: State, id: SessionId, response: Object)
    requires Inv(st) && id in st.symbolOf
    ensures Inv(Delivered(st, id, response))
  {
  }

  // ---------------------------------------------------------------------------
  // Properties of single steps

  /** Joining twice is joining once. */
  lemma SubscribeIdempotent(st: State, asset: Symbol)
    ensures Subscribed(Subscribed(st, asset), asset) == Subscribed(st, asset)
  {
  }

  /** A new session's handle is fresh: no session, registered or not, had it. */
  lemma SubscribeOpensFreshSession(st: State, asset: Symbol)
    requires Inv(st) && asset !in st.connections
    ensures Subscribed(st, asset).connections[asset] !in st.symbolOf
    ensures forall s | s in st.connections :: st.connections[s] != Subscribed(st, asset).connections[asset]
  {
  }

  /** The source's unsubscribe keeps no count of interested clients: after any
      number of joins for a symbol, one leave tears the shared session down. */
  lemma OneLeaveEndsSharedSession(st: State, asset: Symbol)
    requires Inv(st)
    ensures var joined := Subscribed(Subscribed(st, asset), asset);
            && asset !in Unsubscribed(joined, asset).connections
            && joined.connections[asset] in Unsubscribed(joined, asset).ended
  {
    SubscribeIdempotent(st, asset);
  }

  /** The late-close hazard, as the source has it: the `close` of a session
      that was already replaced deletes its replacement's entry. The
      replacement stays open but unregistered, so the next join opens a
      second live session for the same symbol. */
  lemma {:induction false} LateCloseOrphansReplacement(st: State, asset: Symbol)
    requires Inv(st) && asset in st.connections
    ensures var first := st.connections[asset];
            var st1 := Subscribed(Unsubscribed(st, asset), asset);
            var second := st1.connections[asset];
            var st2 := SessionEnded(st1, first);
            var st3 := Subscribed(st2, asset);
            && second != first
            && asset !in st2.connections
            && second !in st2.ended
            && second in LiveSessions(st3, asset)
            && st3.connections[asset] in LiveSessions(st3, asset)
            && st3.connections[asset] != second
            && |LiveSessions(st3, asset)| >= 2
  {
    var first := st.connections[asset];
    var st0 := Unsubscribed(st, asset);
    UnsubscribedKeepsInv(st, asset);
    var st1 := Subscribed(st0, asset);
    var second := st1.connections[asset];
    assert second == st0.nextId;
    var st2 := SessionEnded(st1, first);
    var st3 := Subscribed(st2, asset);
    var third := st3.connections[asset];
    assert third == st2.nextId && third != second;
    assert {second, third} <= LiveSessions(st3, asset);
    assert |{second, third}| == 2;
    SubsetCard({second, third}, LiveSessions(st3, asset));
  }

  lemma SubsetCard<T>(a: set<T>, b: set<T>)
    requires a <= b
    ensures |a| <= |b|
  {
    assert b == a + (b - a);
  }

  // ---------------------------------------------------------------------------
  // Event streams

  /** What reaches the registry: a client joining or leaving an asset's room,
      and the events of the upstream sessions. */
  datatype Event =
    | Join(asset: Symbol)
    | Leave(asset: Symbol)
    | Message(session: SessionId, response: Object)
    | Close(session: SessionId)
    | Error(session: SessionId)

  /** One event. Once the process has crashed nothing more happens; a
      session that was never opened cannot report anything, so such an event
      changes nothing either. */
  function Step(st: State, ev: Event): (st': State)
    ensures st.crashed ==> st' == st
    ensures st.log <= st'.log && st.nextId <= st'.nextId
    ensures st.symbolOf.Keys <= st'.symbolOf.Keys
    ensures !st.crashed && ev.Join? ==> st' == Subscribed(st, ev.asset)
    ensures !st.crashed && ev.Leave? ==> st' == Unsubscribed(st, ev.asset)
    ensures !st.crashed && (ev.Close? || ev.Error?) && ev.session in st.symbolOf ==> st' == SessionEnded(st, ev.session)
    ensures !st.crashed && ev.Message? && ev.session in st.symbolOf ==> st' == Delivered(st, ev.session, ev.response)
    ensures !(ev.Join? || ev.Leave?) && ev.session !in st.symbolOf ==> st' == st
  {
    if st.crashed then st
    else match ev
    case Join(asset) => Subscribed(st, asset)
    case Leave(asset) => Unsubscribed(st, asset)
    case Message(id, response) => if id in st.symbolOf then Delivered(st, id, response) else st
    case Close(id) => if id in st.symbolOf then SessionEnded(st, id) else st
    case Error(id) => if id in st.symbolOf then SessionEnded(st, id) else st
  }

  /** The events in order. The log only grows, handles are never reused, and
      a crash is final: after it the stream has no effect at all. */
  function Run(st: State, evs: seq<Event>): (st': State)
    ensures st.log <= st'.log && st.nextId <= st'.nextId
    ensures st.symbolOf.Keys <= st'.symbolOf.Keys
    ensures st.crashed ==> st' == st
    decreases |evs|
  {
    if evs == [] then st else Run(Step(st, evs[0]), evs[1..])
  }

  lemma StepKeepsInv(st: State, ev: Event)
    requires Inv(st)
    ensures Inv(Step(st, ev))
  {
    if !st.crashed {
    match ev
    case Join(asset) => SubscribedKeepsInv(st, asset);
    case Leave(asset) => UnsubscribedKeepsInv(st, asset);
    case Message(id, response) => if id in st.symbolOf { DeliveredKeepsInv(st, id, response); }
    case Close(id) => if id in st.symbolOf { SessionEndedKeepsInv(st, id); }
    case Error(id) => if id in st.symbolOf { SessionEndedKeepsInv(st, id); }
    }
  }

  /** Whatever the events, every registered session was opened for its key and
      is still live. */
  lemma {:induction false} RunKeepsInv(st: State, evs: seq<Event>)
    requires Inv(st)
    ensures Inv(Run(st, evs))
    decreases |evs|
  {
    if evs != [] {
      StepKeepsInv(st, evs[0]);
      RunKeepsInv(Step(st, evs[0]), evs[1..]);
    }
  }

  /** A symbol is registered after a stream only if it was registered before
      or some event of the stream joined it. */
  lemma {:induction false} RegisteredOnlyByJoin(st: State, evs: seq<Event>, s: Symbol)
    requires s in Run(st, evs).connections
    ensures s in st.connections || Join(s) in evs
    decreases |evs|
  {
    if evs != [] {
      RegisteredOnlyByJoin(Step(st, evs[0]), evs[1..], s);
      if s !in st.connections && Join(s) !in evs[1..] {
        assert s in Step(st, evs[0]).connections;
        assert evs[0] == Join(s);
      }
    }
  }

  /** Every session that has not ended is the one registered for its symbol. */
  ghost predicate LiveAreRegistered(st: State) {
    forall id | id in st.symbolOf && id !in st.ended ::
      st.symbolOf[id] in st.connections && st.connections[st.symbolOf[id]] == id
  }

  /** No session of the stream reports `close` or `error`. */
  predicate NoSessionEnds(evs: seq<Event>) {
    forall i | 0 <= i < |evs| :: !evs[i].Close? && !evs[i].Error?
  }

  /** When every live session is registered, a symbol has at most one. */
  lemma {:induction false} LiveRegisteredAtMostOne(st: State, s: Symbol)
    requires LiveAreRegistered(st)
    ensures |LiveSessions(st, s)| <= 1
  {
    if s in st.connections {
      assert LiveSessions(st, s) <= {st.connections[s]};
      SubsetCard(LiveSessions(st, s), {st.connections[s]});
    } else {
      assert LiveSessions(st, s) == {};
    }
  }

  /** Joins, leaves and messages keep every live session registered; only a
      session's own `close` or `error` can orphan one. */
  lemma StepKeepsLiveRegistered(st: State, ev: Event)
    requires Inv(st) && LiveAreRegistered(st) && !ev.Close? && !ev.Error?
    ensures LiveAreRegistered(Step(st, ev))
  {
  }

  /** Every event handler runs to completion before the next one starts, so a
      stream without `close` or `error` events never leaves two live sessions
      for one symbol: the duplicate of `LateCloseOrphansReplacement` needs a
      late close. */
  lemma {:induction false} WithoutLateCloseOneSessionPerSymbol(st: State, evs: seq<Event>, s: Symbol)
    requires Inv(st) && LiveAreRegistered(st) && NoSessionEnds(evs)
    ensures LiveAreRegistered(Run(st, evs))
    ensures |LiveSessions(Run(st, evs), s)| <= 1
    decreases |evs|
  {
    if evs == [] {
      LiveRegisteredAtMostOne(st, s);
    } else {
      StepKeepsLiveRegistered(st, evs[0]);
      StepKeepsInv(st, evs[0]);
      assert NoSessionEnds(evs[1..]) by {
        forall i | 0 <= i < |evs[1..]| ensures !evs[1..][i].Close? && !evs[1..][i].Error? {
          assert evs[1..][i] == evs[i + 1];
        }
      }
      WithoutLateCloseOneSessionPerSymbol(Step(st, evs[0]), evs[1..], s);
    }
  }

  /** From an empty table, any stream of joins, leaves and messages leaves at
      most one live market-data session per symbol. */
  lemma SequentialJoinsOpenOneSession(evs: seq<Event>, s: Symbol)
    requires NoSessionEnds(evs)
    ensures |LiveSessions(Run(Initial, evs), s)| <= 1
  {
    InitialInv();
    WithoutLateCloseOneSessionPerSymbol(Initial, evs, s);
  }

  /** A client joins "R_100" and the new session's first tick arrives: one
      session is opened, it subscribes to the symbol's ticks, and the tick
      is broadcast to the room and followed by a CALL and a PUT quote
      request for "R_100". */
  lemma JoinThenTickScenario(tick: Value)
    requires tick.Obj? && Field(tick.fields, "symbol") == Str("R_100")
    ensures var first := map["msg_type" := Str("tick"), "tick" := tick];
            var log := Run(Initial, [Join("R_100"), Message(0, first)]).log;
            && |log| == 5
            && log[0] == Opened(0, "R_100")
            && log[1] == Acted(0, Send(TicksRequest("R_100")))
            && log[2] == Acted(0, Emit(Str("R_100"), "assetData", tick))
            && log[3].Acted? && log[3].action.Send? && MarketData.IsQuoteRequest(log[3].action.request, "CALL", Str("R_100"))
            && log[4].Acted? && log[4].action.Send? && MarketData.IsQuoteRequest(log[4].action.request, "PUT", Str("R_100"))
            && log[3].session == 0 && log[4].session == 0
  {
    var first := map["msg_type" := Str("tick"), "tick" := tick];
    var evs := [Join("R_100"), Message(0, first)];
    var st1 := Step(Initial, evs[0]);
    assert st1 == Subscribed(Initial, "R_100");
    var st2 := Step(st1, evs[1]);
    assert st2 == Delivered(st1, 0, first);
    var reply := MarketData.OnMessage("R_100", first);
    assert reply.Normal? && MarketData.IsTickReply("R_100", tick, reply.value);
    assert MarketData.QuoteSymbol(tick) == Str("R_100");
    assert evs[1..][1..] == [];
    assert Run(Initial, evs) == Run(st1, evs[1..]) == Run(st2, []) == st2;
  }

  /** A quote without its request echo crashes the process: the handler's
      TypeError is logged and a later join opens no session. */
  lemma CrashEndsRegistry(quote: Value)
    requires Truthy(quote)
    ensures var bad := map["msg_type" := Str("proposal"), "proposal" := quote];
            var st := Run(Initial, [Join("A"), Message(0, bad), Join("B")]);
            && st.crashed
            && "B" !in st.connections
            && st.log == [Opened(0, "A"), Acted(0, Send(TicksRequest("A"))), Crashed(0)]
  {
    var bad := map["msg_type" := Str("proposal"), "proposal" := quote];
    var evs := [Join("A"), Message(0, bad), Join("B")];
    var st1 := Step(Initial, evs[0]);
    assert st1 == Subscribed(Initial, "A");
    assert MarketData.IsQuoteWithoutEcho(bad);
    var st2 := Step(st1, evs[1]);
    assert st2 == Delivered(st1, 0, bad);
    assert st2.crashed && st2.log == st1.log + [Crashed(0)];
    assert evs[1..][1..] == [Join("B")];
    assert Run(Initial, evs) == Run(st1, evs[1..]) == Run(st2, [Join("B")]) == st2;
  }

  // ---------------------------------------------------------------------------
  // The table

  /** `assetConnections` and the sessions behind it. */
  class AssetRegistry {
    var connections: map<Symbol, SessionId>
    var symbolOf: map<SessionId, Symbol>
    var ended: set<SessionId>
    var nextId: SessionId
    var log: seq<Output>
    var crashed: bool

    function Snapshot(): State
      reads this
    {
      State(connections, symbolOf, ended, nextId, log, crashed)
    }

    ghost predicate Valid()
      reads this
    {
      Inv(Snapshot())
    }

    /** `const assetConnections = {}`. */
    constructor ()
      ensures Valid() && Snapshot() == Initial
    {
      connections, symbolOf, ended, nextId, log, crashed := map[], map[], {}, 0, [], false;
    }

    /** `fetchAssetData(asset)`. */
    method FetchAssetData(asset: Symbol)
      requires Valid()
      modifies this
      ensures Valid() && Snapshot() == Subscribed(old(Snapshot()), asset)
    {
      SubscribedKeepsInv(Snapshot(), asset);
      if asset in connections {
        return;
      }
      var id := nextId;
      nextId := nextId + 1;
      symbolOf := symbolOf[id := asset];
      log := log + [Opened(id, asset)];
      connections := connections[asset := id];
      log := log + [Acted(id, Send(TicksRequest(asset)))];
    }

    /** `unsubscribeAssetData(asset)`. */
    method UnsubscribeAssetData(asset: Symbol)
      requires Valid()
      modifies this
      ensures Valid() && Snapshot() == Unsubscribed(old(Snapshot()), asset)
    {
      UnsubscribedKeepsInv(Snapshot(), asset);
      if asset in connections {
        var id := connections[asset];
        log := log + [Closed(id)];
        ended := ended + {id};
        connections := connections - {asset};
      }
    }

    /** The `close` and `error` handlers of session `id`. */
    method OnSessionEnd(id: SessionId)
      requires Valid() && id in symbolOf
      modifies this
      ensures Valid() && Snapshot() == SessionEnded(old(Snapshot()), id)
    {
      SessionEndedKeepsInv(Snapshot(), id);
      ended := ended + {id};
      connections := connections - {symbolOf[id]};
    }

    /** The `message` handler of session `id`. */
    method OnMessage(id: SessionId, response: Object)
      requires Valid() && id in symbolOf
      modifies this
      ensures Valid() && Snapshot() == Delivered(old(Snapshot()), id, response)
    {
      DeliveredKeepsInv(Snapshot(), id, response);
      var reply := MarketData.OnMessage(symbolOf[id], response);
      log := log + Record(id, reply);
      if reply.Thrown? {
        crashed := true;
      }
    }

    /** A whole stream of events, one at a time. */
    method Process(evs: seq<Event>)
      requires Valid()
      modifies this
      ensures Valid() && Snapshot() == Run(old(Snapshot()), evs)
    {
      var i := 0;
      while i < |evs| && !crashed
        invariant 0 <= i <= |evs|
        invariant Valid()
        invariant Run(old(Snapshot()), evs) == Run(Snapshot(), evs[i..])
      {
        assert evs[i..][0] == evs[i] && evs[i..][1..] == evs[i + 1..];
        match evs[i] {
          case Join(asset) => FetchAssetData(asset);
          case Leave(asset) => UnsubscribeAssetData(asset);
          case Message(id, response) => if id in symbolOf { OnMessage(id, response); }
          case Close(id) => if id in symbolOf { OnSessionEnd(id); }
          case Error(id) => if id in symbolOf { OnSessionEnd(id); }
        }
        i := i + 1;
      }
      assert crashed || evs[i..] == [];
    }
  }
}
