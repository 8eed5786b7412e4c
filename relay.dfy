/** The two effects a session handler can have: a request written to its
    upstream socket, or an event broadcast to a downstream topic. */
module Relay {
  import opened Js

  datatype Action =
    | Send(request: Value)                              // `ws.send(JSON.stringify(request))`
    | Emit(topic: Value, event: string, payload: Value) // `io.to(topic).emit(event, payload)`

  /** No request is written. */
  predicate SendsNothing(acts: seq<Action>) {
    forall a | a in acts :: !a.Send?
  }

  /** Every broadcast goes to `topic`. */
  predicate EmitsOnlyTo(acts: seq<Action>, topic: Value) {
    forall a | a in acts && a.Emit? :: a.topic == topic
  }

  /** An object literal `{ message: text, key: v }`, the shape of every status
      event the relay broadcasts. */
  function Notice(text: string, key: string, v: Value): (r: Value)
    requires key != "message"
    ensures r.Obj? && Field(r.fields, "message") == Str(text) && Field(r.fields, key) == v
    ensures r.Obj? && r.fields.Keys == {"message", key}
  {
    Obj(map["message" := Str(text), key := v])
  }
}
