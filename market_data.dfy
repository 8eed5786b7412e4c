/** The market-data side of one upstream session: the quote request built
    for every tick (`createProposalData`) and the session's message handler,
    which republishes ticks, quotes and transactions to the asset's topic. */
module MarketData {
  import opened Js
  import opened Relay

  /** The instrument a quote names when the tick carries none. */
  const DefaultSymbol := "RDBEAR"

  /** The keys of every quote request. */
  const QuoteKeys: set<string> :=
    {"proposal", "amount", "barrier", "basis", "contract_type", "currency", "duration", "duration_unit", "symbol"}

  /** `tick.symbol || 'RDBEAR'`. */
  function QuoteSymbol(tick: Value): (s: Value)
    requires !Nullish(tick)
    ensures Truthy(s)
    ensures Truthy(Prop(tick, "symbol")) ==> s == Prop(tick, "symbol")
    ensures !Truthy(Prop(tick, "symbol")) ==> s == Str(DefaultSymbol)
  {
    Or(Prop(tick, "symbol"), Str(DefaultSymbol))
  }

  /** A quote request for one contract direction on `symbol`: a stake of 100
      USD on a 60-second contract with barrier "+0.1", and no other field. */
  predicate IsQuoteRequest(r: Value, contractType: string, symbol: Value) {
    && r.Obj?
    && r.fields.Keys == QuoteKeys
    && r.fields["proposal"] == Num(1.0)
    && r.fields["amount"] == Num(100.0)
    && r.fields["barrier"] == Str("+0.1")
    && r.fields["basis"] == Str("stake")
    && r.fields["contract_type"] == Str(contractType)
    && r.fields["currency"] == Str("USD")
    && r.fields["duration"] == Num(60.0)
    && r.fields["duration_unit"] == Str("s")
    && r.fields["symbol"] == symbol
  }

  /** `createProposalData(tick, contractType)`. Its one caller passes a truthy
      tick; the function itself only needs one whose properties can be read. */
  function CreateProposalData(tick: Value, contractType: string): (r: Value)
    requires !Nullish(tick)
    ensures IsQuoteRequest(r, contractType, QuoteSymbol(tick))
    ensures Truthy(r.fields["symbol"])
    ensures forall s :: Prop(tick, "symbol") == Str(s) && s != "" ==> r.fields["symbol"] == Str(s)
  {
    Obj(map[
      "proposal" := Num(1.0),
      "amount" := Num(100.0),
      "barrier" := Str("+0.1"),
      "basis" := Str("stake"),
      "contract_type" := Str(contractType),
      "currency" := Str("USD"),
      "duration" := Num(60.0),
      "duration_unit" := Str("s"),
      "symbol" := QuoteSymbol(tick)
    ])
  }

  /** The two quote requests derived from one tick name the same instrument
      and the same terms; they differ in the contract direction alone. */
  lemma QuotesDifferOnlyInDirection(tick: Value, d1: string, d2: string)
    requires !Nullish(tick)
    ensures CreateProposalData(tick, d1).fields.Keys == CreateProposalData(tick, d2).fields.Keys
    ensures forall k | k in QuoteKeys && k != "contract_type" ::
              CreateProposalData(tick, d1).fields[k] == CreateProposalData(tick, d2).fields[k]
    ensures d1 != d2 ==> CreateProposalData(tick, d1) != CreateProposalData(tick, d2)
  {
    var r1, r2 := CreateProposalData(tick, d1), CreateProposalData(tick, d2);
    if d1 != d2 {
      assert r1.fields["contract_type"] != r2.fields["contract_type"];
    }
  }

  /** What a tick produces: the raw tick to the asset's topic, then a CALL
      quote request, then a PUT quote request, in that order. */
  predicate IsTickReply(asset: string, tick: Value, acts: seq<Action>)
    requires !Nullish(tick)
  {
    && |acts| == 3
    && acts[0] == Emit(Str(asset), "assetData", tick)
    && acts[1].Send? && IsQuoteRequest(acts[1].request, "CALL", QuoteSymbol(tick))
    && acts[2].Send? && IsQuoteRequest(acts[2].request, "PUT", QuoteSymbol(tick))
  }

  /** A quote whose request echo is missing: reading `echo_req.contract_type`
      throws. */
  predicate IsQuoteWithoutEcho(response: Object) {
    IsMsg(response, "proposal") && Truthy(Field(response, "proposal")) && Nullish(Field(response, "echo_req"))
  }

  /** The session's `message` handler for `asset`. Every broadcast goes to
      the asset's topic; requests are written only in reply to ticks. */
  function OnMessage(asset: string, response: Object): (c: Completion<seq<Action>>)
    ensures c.Thrown? <==> IsQuoteWithoutEcho(response)
    ensures c.Normal? ==> EmitsOnlyTo(c.value, Str(asset))
    ensures c.Normal? && !SendsNothing(c.value) ==> IsMsg(response, "tick")
    ensures IsMsg(response, "tick") && Truthy(Field(response, "tick")) ==>
              c.Normal? && IsTickReply(asset, Field(response, "tick"), c.value)
    ensures IsMsg(response, "tick") && !Truthy(Field(response, "tick")) ==> c == Normal([])
    ensures IsMsg(response, "proposal") && Truthy(Field(response, "proposal")) && !Nullish(Field(response, "echo_req")) ==>
              c == Normal([Emit(Str(asset), "proposal",
                                Obj(map["type" := Prop(Field(response, "echo_req"), "contract_type"),
                                        "data" := Field(response, "proposal")]))])
    ensures IsMsg(response, "proposal") && !Truthy(Field(response, "proposal")) ==> c == Normal([])
    ensures IsMsg(response, "transaction") ==>
              c == Normal([Emit(Str(asset), "transactionUpdate", Notice("Transaction occurred", "data", Obj(response)))])
    ensures !IsMsg(response, "tick") && !IsMsg(response, "proposal") && !IsMsg(response, "transaction") ==>
              c == Normal([])
  {
    var tick := Field(response, "tick");
    var proposal := Field(response, "proposal");
    if IsMsg(response, "tick") && Truthy(tick) then
      Normal([Emit(Str(asset), "assetData", tick),
              Send(CreateProposalData(tick, "CALL")),
              Send(CreateProposalData(tick, "PUT"))])
    else if IsMsg(response, "proposal") && Truthy(proposal) then
      match Get(Field(response, "echo_req"), "contract_type")
      case Thrown => Thrown
      case Normal(contractType) =>
        Normal([Emit(Str(asset), "proposal", Obj(map["type" := contractType, "data" := proposal]))])
    else if IsMsg(response, "transaction") then
      Normal([Emit(Str(asset), "transactionUpdate", Notice("Transaction occurred", "data", Obj(response)))])
    else
      Normal([])
  }
}
