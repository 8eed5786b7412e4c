/** The authenticated action flows: balance fetch (`handleWalletUpdate`),
    top-up (`handleWalletTopUp`), purchase (`purchaseTrade`) and transaction
    history (`handleTranscationHistory`). Each opens its own upstream
    session, authorizes with the caller's token and then reacts to each
    inbound message on its own; the handlers keep no state between messages,
    so each is a function of the caller's payload and one message. */
module Account {
  import opened Js
  import opened Relay

  datatype Flow = Balance | TopUp | Purchase | History

  /** The user's topic: `loginid` of the caller's payload. */
  function LoginId(data: Object): Value {
    Field(data, "loginid")
  }

  function Token(data: Object): Value {
    Field(data, "token")
  }

  /** `{ authorize: token }`. */
  function AuthorizeRequest(token: Value): (r: Value)
    ensures r.Obj? && r.fields.Keys == {"authorize"} && r.fields["authorize"] == token
  {
    Obj(map["authorize" := token])
  }

  /** `{ balance: 1, subscribe: 1, loginid }`. */
  function BalanceSubscription(loginid: Value): (r: Value)
    ensures r.Obj? && r.fields.Keys == {"balance", "subscribe", "loginid"}
    ensures r.fields["balance"] == Num(1.0) && r.fields["subscribe"] == Num(1.0) && r.fields["loginid"] == loginid
  {
    Obj(map["balance" := Num(1.0), "subscribe" := Num(1.0), "loginid" := loginid])
  }

  /** `{ topup_virtual: 1, loginid }`. */
  function TopUpRequest(loginid: Value): (r: Value)
    ensures r.Obj? && r.fields.Keys == {"topup_virtual", "loginid"}
    ensures r.fields["topup_virtual"] == Num(1.0) && r.fields["loginid"] == loginid
  {
    Obj(map["topup_virtual" := Num(1.0), "loginid" := loginid])
  }

  /** `{ buy: proposalId, price, loginid }`. */
  function BuyRequest(proposalId: Value, price: Value, loginid: Value): (r: Value)
    ensures r.Obj? && r.fields.Keys == {"buy", "price", "loginid"}
    ensures r.fields["buy"] == proposalId && r.fields["price"] == price && r.fields["loginid"] == loginid
  {
    Obj(map["buy" := proposalId, "price" := price, "loginid" := loginid])
  }

  /** The caller's payload without its credential: `const { token, ...rest } = data`. */
  function Stripped(data: Object): (r: Value)
    ensures r.Obj? && "token" !in r.fields
    ensures r.fields.Keys == data.Keys - {"token"}
    ensures forall k | k in r.fields :: r.fields[k] == data[k]
  {
    Obj(Omit(data, "token"))
  }

  /** An authorize response the peer rejected, and one it accepted. */
  predicate AuthFailed(response: Object) {
    IsMsg(response, "authorize") && Truthy(Field(response, "error"))
  }

  predicate Authorized(response: Object) {
    IsMsg(response, "authorize") && !Truthy(Field(response, "error"))
  }

  /** The `open` handler every flow installs. */
  function OnOpen(data: Object): (acts: seq<Action>)
    ensures |acts| == 1 && acts[0].Send?
    ensures acts[0].request.Obj? && acts[0].request.fields.Keys == {"authorize"}
    ensures acts[0].request.fields["authorize"] == Token(data)
  {
    [Send(AuthorizeRequest(Token(data)))]
  }

  /** `handleWalletUpdate`'s `message` handler. */
  function OnBalanceMessage(data: Object, response: Object): (acts: seq<Action>)
    ensures EmitsOnlyTo(acts, LoginId(data))
    ensures !SendsNothing(acts) <==> Authorized(response)
    ensures AuthFailed(response) ==>
              acts == [Emit(LoginId(data), "walletUpdate", Notice("Authorization failed", "error", Field(response, "error")))]
    ensures Authorized(response) ==> acts == [Send(BalanceSubscription(LoginId(data)))]
    ensures IsMsg(response, "balance") ==> acts == [Emit(LoginId(data), "walletUpdate", Obj(response))]
    ensures !IsMsg(response, "authorize") && !IsMsg(response, "balance") ==> acts == []
  {
    var loginid := LoginId(data);
    if IsMsg(response, "authorize") then
      if Truthy(Field(response, "error")) then
        [Emit(loginid, "walletUpdate", Notice("Authorization failed", "error", Field(response, "error")))]
      else
        var acts := [Send(BalanceSubscription(loginid))];
        assert acts[0] in acts;
        acts
    else if IsMsg(response, "balance") then
      [Emit(loginid, "walletUpdate", Obj(response))]
    else
      []
  }

  /** `handleWalletTopUp`'s `message` handler: as the balance flow, but an
      accepted authorization first requests the top-up, then the balance
      subscription, without waiting in between. */
  function OnTopUpMessage(data: Object, response: Object): (acts: seq<Action>)
    ensures EmitsOnlyTo(acts, LoginId(data))
    ensures !SendsNothing(acts) <==> Authorized(response)
    ensures AuthFailed(response) ==>
              acts == [Emit(LoginId(data), "walletUpdate", Notice("Authorization failed", "error", Field(response, "error")))]
    ensures Authorized(response) ==>
              acts == [Send(TopUpRequest(LoginId(data))), Send(BalanceSubscription(LoginId(data)))]
    ensures IsMsg(response, "balance") ==> acts == [Emit(LoginId(data), "walletUpdate", Obj(response))]
    ensures !IsMsg(response, "authorize") && !IsMsg(response, "balance") ==> acts == []
  {
    var loginid := LoginId(data);
    if IsMsg(response, "authorize") then
      if Truthy(Field(response, "error")) then
        [Emit(loginid, "walletUpdate", Notice("Authorization failed", "error", Field(response, "error")))]
      else
        var acts := [Send(TopUpRequest(loginid)), Send(BalanceSubscription(loginid))];
        assert acts[0] in acts;
        acts
    else if IsMsg(response, "balance") then
      [Emit(loginid, "walletUpdate", Obj(response))]
    else
      []
  }

  /** `purchaseTrade`'s `message` handler. An accepted authorization forwards
      the trade without its token; a quote is bought at the caller's stake;
      the outcome of the buy is broadcast. A `proposal` message without a
      quote body throws. */
  function OnPurchaseMessage(data: Object, response: Object): (c: Completion<seq<Action>>)
    ensures c.Thrown? <==> IsMsg(response, "proposal") && Nullish(Field(response, "proposal"))
    ensures c.Normal? ==> EmitsOnlyTo(c.value, LoginId(data))
    ensures AuthFailed(response) ==>
              c == Normal([Emit(LoginId(data), "purchaseConfirmation",
                                Notice("Authorization failed", "error", Field(response, "error")))])
    ensures Authorized(response) ==> c == Normal([Send(Stripped(data))])
    ensures IsMsg(response, "proposal") && !Nullish(Field(response, "proposal")) ==>
              c == Normal([Send(BuyRequest(Prop(Field(response, "proposal"), "id"), Field(data, "amount"), LoginId(data)))])
    ensures IsMsg(response, "buy") && Truthy(Field(response, "buy")) ==>
              c == Normal([Emit(LoginId(data), "purchaseConfirmation", Notice("Purchase successful", "data", Obj(response)))])
    ensures IsMsg(response, "buy") && !Truthy(Field(response, "buy")) ==>
              c == Normal([Emit(LoginId(data), "purchaseConfirmation",
                                Notice("Purchase failed", "error", Field(response, "error")))])
    ensures !IsMsg(response, "authorize") && !IsMsg(response, "proposal") && !IsMsg(response, "buy") ==>
              c == Normal([])
  {
    var loginid := LoginId(data);
    if IsMsg(response, "authorize") then
      if Truthy(Field(response, "error")) then
        Normal([Emit(loginid, "purchaseConfirmation", Notice("Authorization failed", "error", Field(response, "error")))])
      else
        Normal([Send(Stripped(data))])
    else if IsMsg(response, "proposal") then
      match Get(Field(response, "proposal"), "id")
      case Thrown => Thrown
      case Normal(id) => Normal([Send(BuyRequest(id, Field(data, "amount"), loginid))])
    else if IsMsg(response, "buy") then
      if Truthy(Field(response, "buy")) then
        Normal([Emit(loginid, "purchaseConfirmation", Notice("Purchase successful", "data", Obj(response)))])
      else
        Normal([Emit(loginid, "purchaseConfirmation", Notice("Purchase failed", "error", Field(response, "error")))])
    else
      Normal([])
  }

  /** `handleTranscationHistory`'s `message` handler. Unlike the other flows
      it does not look at the authorize response's error: any authorize
      response forwards the history request. */
  function OnHistoryMessage(data: Object, response: Object): (acts: seq<Action>)
    ensures EmitsOnlyTo(acts, LoginId(data))
    ensures IsMsg(response, "authorize") ==> acts == [Send(Stripped(data))]
    ensures AuthFailed(response) ==> !SendsNothing(acts)
    ensures (exists a | a in acts :: a.Emit?) <==> IsMsg(response, "profit_table")
    ensures IsMsg(response, "profit_table") ==> acts == [Emit(LoginId(data), "transcationHistory", Obj(response))]
    ensures !IsMsg(response, "authorize") && !IsMsg(response, "profit_table") ==> acts == []
  {
    if IsMsg(response, "authorize") then
      var acts := [Send(Stripped(data))];
      assert acts[0] in acts;
      acts
    else if IsMsg(response, "profit_table") then
      var acts := [Emit(LoginId(data), "transcationHistory", Obj(response))];
      assert acts[0] in acts;
      acts
    else
      []
  }

  /** The `error` handler of each flow. The history flow installs none, and an
      `error` event nobody listens for is thrown. */
  function OnError(flow: Flow, data: Object, error: Value): (c: Completion<seq<Action>>)
    ensures c.Thrown? <==> flow == History
    ensures c.Normal? ==> |c.value| == 1 && c.value[0].Emit? && c.value[0].topic == LoginId(data)
    ensures c.Normal? ==> c.value[0].payload.Obj? && Field(c.value[0].payload.fields, "error") == error
    ensures flow == Balance ==> c == Normal([Emit(LoginId(data), "walletUpdate", Notice("Balance fetch error", "error", error))])
    ensures flow == TopUp ==> c == Normal([Emit(LoginId(data), "walletUpdate", Notice("Top-up error", "error", error))])
    ensures flow == Purchase ==>
              c == Normal([Emit(LoginId(data), "purchaseConfirmation", Notice("Purchase error", "error", error))])
  {
    match flow
    case Balance => Normal([Emit(LoginId(data), "walletUpdate", Notice("Balance fetch error", "error", error))])
    case TopUp => Normal([Emit(LoginId(data), "walletUpdate", Notice("Top-up error", "error", error))])
    case Purchase => Normal([Emit(LoginId(data), "purchaseConfirmation", Notice("Purchase error", "error", error))])
    case History => Thrown
  }

  /** A flow's `message` listener. Only a purchase session can throw, on a
      `proposal` message without a quote body; every broadcast goes to the
      user's room. */
  function OnMessage(flow: Flow, data: Object, response: Object): (c: Completion<seq<Action>>)
    ensures c.Thrown? <==> flow == Purchase && IsMsg(response, "proposal") && Nullish(Field(response, "proposal"))
    ensures c.Normal? ==> EmitsOnlyTo(c.value, LoginId(data))
    ensures c.Normal? && !SendsNothing(c.value) ==>
              IsMsg(response, "authorize") || (flow == Purchase && IsMsg(response, "proposal"))
  {
    match flow
    case Balance => Normal(OnBalanceMessage(data, response))
    case TopUp => Normal(OnTopUpMessage(data, response))
    case Purchase => OnPurchaseMessage(data, response)
    case History => Normal(OnHistoryMessage(data, response))
  }

  // ---------------------------------------------------------------------------
  // Whole sessions

  /** What one flow's upstream socket reports. */
  datatype SessionEvent = Open | Incoming(response: Object) | Failure(error: Value)

  /** What a session did, and whether a handler threw (which ends the process). */
  datatype Trace = Trace(actions: seq<Action>, crashed: bool)

  /** The listener of `flow` that `ev` reaches. Opening never throws; a socket
      error throws only in the history flow, which has no `error` listener. */
  function Handle(flow: Flow, data: Object, ev: SessionEvent): (c: Completion<seq<Action>>)
    ensures ev.Open? ==> c == Normal([Send(AuthorizeRequest(Token(data)))])
    ensures ev.Failure? ==> (c.Thrown? <==> flow == History)
    ensures ev.Incoming? ==>
              (c.Thrown? <==> flow == Purchase && IsMsg(ev.response, "proposal") && Nullish(Field(ev.response, "proposal")))
    ensures c.Normal? ==> EmitsOnlyTo(c.value, LoginId(data))
  {
    match ev
    case Open => Normal(OnOpen(data))
    case Incoming(response) => OnMessage(flow, data, response)
    case Failure(error) => OnError(flow, data, error)
  }

  /** The events of one session in order, stopping at the first that throws:
      the exception ends the process. The session crashes exactly when some
      event reaches a listener that throws, and a session that starts with
      `open` writes the authorize request first. */
  function Session(flow: Flow, data: Object, evs: seq<SessionEvent>): (t: Trace)
    ensures t.crashed <==> exists i | 0 <= i < |evs| :: Handle(flow, data, evs[i]).Thrown?
    ensures evs != [] && evs[0] == Open ==> t.actions != [] && t.actions[0] == Send(AuthorizeRequest(Token(data)))
    ensures evs == [] ==> t == Trace([], false)
    decreases |evs|
  {
    if evs == [] then Trace([], false)
    else match Handle(flow, data, evs[0])
      case Thrown => Trace([], true)
      case Normal(acts) =>
        var rest := Session(flow, data, evs[1..]);
        assert forall i | 1 <= i < |evs| :: evs[i] == evs[1..][i - 1];
        assert rest.crashed ==> exists i | 0 <= i < |evs| :: Handle(flow, data, evs[i]).Thrown?;
        Trace(acts + rest.actions, rest.crashed)
  }

  /** Every request other than the authorize request is an object without a
      `token` field. (The token's value may still go out under another key,
      since only the `token` key is removed.) */
  predicate KeepsCredential(acts: seq<Action>, token: Value) {
    forall a | a in acts && a.Send? ::
      a.request == AuthorizeRequest(token) || (a.request.Obj? && "token" !in a.request.fields)
  }

  lemma HandleKeepsCredential(flow: Flow, data: Object, ev: SessionEvent)
    ensures Handle(flow, data, ev).Normal? ==>
              KeepsCredential(Handle(flow, data, ev).value, Token(data))
              && EmitsOnlyTo(Handle(flow, data, ev).value, LoginId(data))
  {
  }

  /** In every flow and whatever the peer sends, every request other than the
      authorize request has no `token` field, and every broadcast goes to the
      user's own topic. */
  lemma {:induction false} SessionKeepsCredential(flow: Flow, data: Object, evs: seq<SessionEvent>)
    ensures KeepsCredential(Session(flow, data, evs).actions, Token(data))
    ensures EmitsOnlyTo(Session(flow, data, evs).actions, LoginId(data))
    decreases |evs|
  {
    if evs != [] {
      HandleKeepsCredential(flow, data, evs[0]);
      SessionKeepsCredential(flow, data, evs[1..]);
    }
  }

  /** The peer's responses leave a session of `flow` unauthorized: none accepts
      the authorization, and (for a purchase) none is a quote to buy. */
  ghost predicate NeverAuthorized(flow: Flow, evs: seq<SessionEvent>) {
    forall i | 0 <= i < |evs| && evs[i].Incoming? ::
      !Authorized(evs[i].response) && !(flow == Purchase && IsMsg(evs[i].response, "proposal"))
  }

  /** Balance, top-up and purchase stop at a rejected authorization: unless the
      peer accepts it, the only request the session ever writes is the
      authorize request. */
  lemma {:induction false} UnauthorizedSessionOnlyAuthorizes(flow: Flow, data: Object, evs: seq<SessionEvent>)
    requires flow != History
    requires NeverAuthorized(flow, evs)
    ensures forall a | a in Session(flow, data, evs).actions && a.Send? :: a.request == AuthorizeRequest(Token(data))
    decreases |evs|
  {
    if evs != [] {
      assert NeverAuthorized(flow, evs[1..]) by {
        forall i | 0 <= i < |evs[1..]| && evs[1..][i].Incoming?
          ensures !Authorized(evs[1..][i].response) && !(flow == Purchase && IsMsg(evs[1..][i].response, "proposal"))
        {
          assert evs[1..][i] == evs[i + 1];
        }
      }
      UnauthorizedSessionOnlyAuthorizes(flow, data, evs[1..]);
      assert evs[0].Incoming? ==> !Authorized(evs[0].response);
    }
  }

  /** The history flow does not stop there: a rejected authorization still
      forwards the history request. */
  lemma HistoryIgnoresRejection(data: Object, response: Object)
    requires AuthFailed(response)
    ensures Session(History, data, [Open, Incoming(response)]).actions
            == [Send(AuthorizeRequest(Token(data))), Send(Stripped(data))]
  {
    var evs := [Open, Incoming(response)];
    assert evs[1..] == [Incoming(response)];
    assert [Incoming(response)][1..] == [];
    assert Handle(History, data, Incoming(response)) == Normal([Send(Stripped(data))]);
    assert Session(History, data, []) == Trace([], false);
    var last := Session(History, data, [Incoming(response)]);
    assert last == Trace([Send(Stripped(data))] + [], false);
    assert Session(History, data, evs) == Trace(OnOpen(data) + last.actions, false);
  }
}
