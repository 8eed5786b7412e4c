/** The credential login endpoint: it opens one upstream session, authorizes
    with the posted token and answers the HTTP request from the first message
    the session receives (a `once` listener, so later messages are ignored). */
module Login {
  import opened Js
  import Account

  /** The profile fields copied from the authorize response. */
  const ProfileKeys: set<string> :=
    {"loginid", "balance", "email", "fullname", "is_virtual", "currency", "country",
     "preferred_language", "user_id", "account_list"}

  const SuccessMessage := "Virtual account login successful!"

  /** The answer to the HTTP request: a JSON body, or none at all when the
      first message is neither an error nor an authorize response (the
      request is then left waiting). */
  datatype Answer = NoAnswer | Answer(body: Value)

  /** `userData`: the profile fields of `authorize`, plus the credential as
      `deriv_token`. */
  function UserData(authorize: Value, token: Value): (r: Value)
    requires !Nullish(authorize)
    ensures r.Obj? && r.fields.Keys == ProfileKeys + {"deriv_token"}
    ensures forall k | k in ProfileKeys :: r.fields[k] == Prop(authorize, k)
    ensures r.fields["deriv_token"] == token
  {
    Obj((map k | k in ProfileKeys :: Prop(authorize, k))["deriv_token" := token])
  }

  /** The `open` handler: the same authorize request the action flows write. */
  function OnOpen(token: Value): (r: Value)
    ensures r.Obj? && r.fields.Keys == {"authorize"} && r.fields["authorize"] == token
  {
    Account.AuthorizeRequest(token)
  }

  /** The session's first message, mapped to the endpoint's answer. An error
      answers with status 0 and the error's message; an authorize response
      answers with status 1, the profile and the credential. The listener is
      `async`, so `Thrown` here is a rejected promise: it ends the process only
      under Node's default handling of unhandled rejections. */
  function OnFirstMessage(token: Value, response: Object): (c: Completion<Answer>)
    ensures Truthy(Field(response, "error")) ==>
              c == Normal(Answer(Obj(map["message" := Prop(Field(response, "error"), "message"), "status" := Num(0.0)])))
    ensures c.Normal? && c.value.Answer? ==>
              && c.value.body.Obj?
              && "status" in c.value.body.fields
              && (c.value.body.fields["status"] == Num(0.0) <==> Truthy(Field(response, "error")))
              && (c.value.body.fields["status"] == Num(1.0) <==> !Truthy(Field(response, "error")))
    ensures c.Thrown? <==>
              !Truthy(Field(response, "error")) && IsMsg(response, "authorize") && Nullish(Field(response, "authorize"))
    ensures !Truthy(Field(response, "error")) && IsMsg(response, "authorize") && !Nullish(Field(response, "authorize")) ==>
              && c.Normal? && c.value.Answer? && c.value.body.Obj?
              && c.value.body.fields.Keys == {"data", "token", "message", "status"}
              && c.value.body.fields["data"] == UserData(Field(response, "authorize"), token)
              && Field(c.value.body.fields["data"].fields, "loginid") == Prop(Field(response, "authorize"), "loginid")
              && Field(c.value.body.fields["data"].fields, "deriv_token") == token
              && c.value.body.fields["token"] == token
              && c.value.body.fields["message"] == Str(SuccessMessage)
    ensures !Truthy(Field(response, "error")) && !IsMsg(response, "authorize") ==> c == Normal(NoAnswer)
  {
    var error := Field(response, "error");
    if Truthy(error) then
      Normal(Answer(Obj(map["message" := Prop(error, "message"), "status" := Num(0.0)])))
    else if IsMsg(response, "authorize") then
      var authorize := Field(response, "authorize");
      if Nullish(authorize) then Thrown
      else
        Normal(Answer(Obj(map[
          "data" := UserData(authorize, token),
          "token" := token,
          "message" := Str(SuccessMessage),
          "status" := Num(1.0)])))
    else
      Normal(NoAnswer)
  }
}
