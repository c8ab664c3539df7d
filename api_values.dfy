/** The /values endpoints: a variable's value alone, without its ids or time. */
module ApiValues {
  import opened Wrappers
  import opened Strings
  import opened Model
  import opened Store
  import opened Http
  import Controller

  /** The path parameter of the value routes. */
  const KeyParam: string := "key"

  /** GET /values/{key}: the wildcard key without its one leading slash; the answer is only the value. */
  function Get(req: Request<()>, answer: Result<VariableWithUnixTimestamp, Error>): (out: Outcome<Json>)
    ensures req.token.None? ==> out == Refuse(StatusUnauthorized)
    ensures req.token.Some? && ByName(req.path, KeyParam) in {"", "/"} ==> out == Refuse(StatusBadRequest)
    ensures req.token.Some? && HasPrefix(ByName(req.path, KeyParam), "/") && |ByName(req.path, KeyParam)| > 1 ==>
      out.call == Some(CallGet(req.token.value.userId, ByName(req.path, KeyParam)[1..]))
    ensures req.token.Some? && ByName(req.path, KeyParam) != "" && ByName(req.path, KeyParam)[0] != '/' ==>
      out.call == Some(CallGet(req.token.value.userId, ByName(req.path, KeyParam)))
    ensures out.call.Some? && answer.Success? ==> out.status == StatusOK && out.body == Some(answer.value.variable.value)
    ensures out.call.Some? && answer.Failure? ==> out.status == StatusInternalServerError && out.body == None
  {
    match req.token
    case None => Refuse(StatusUnauthorized)
    case Some(token) =>
      var key := TrimPrefix(ByName(req.path, KeyParam), "/");
      if key == "" then Refuse(StatusBadRequest)
      else
        match answer
        case Failure(_) => Outcome(StatusInternalServerError, Some(CallGet(token.userId, key)), None)
        case Success(result) => Outcome(StatusOK, Some(CallGet(token.userId, key)), Some(result.variable.value))
  }

  /** PUT /values/:key: stores the decoded body as the value of the key, with no definition or instance id. */
  function Set(req: Request<Json>, err: Option<Error>): (out: Outcome<()>)
    ensures req.token.None? ==> out == Refuse(StatusUnauthorized)
    ensures req.token.Some? && (ByName(req.path, KeyParam) == "" || req.body.Undecodable?) ==>
      out == Refuse(StatusBadRequest)
    ensures req.token.Some? && ByName(req.path, KeyParam) != "" && req.body.Decoded? ==>
      out == AfterWrite(CallSet(req.token.value.userId, Variable(ByName(req.path, KeyParam), req.body.value, "", "")), err)
  {
    match req.token
    case None => Refuse(StatusUnauthorized)
    case Some(token) =>
      var key := ByName(req.path, KeyParam);
      if key == "" then Refuse(StatusBadRequest)
      else
        match req.body
        case Undecodable => Refuse(StatusBadRequest)
        case Decoded(value) => AfterWrite(CallSet(token.userId, Variable(key, value, "", "")), err)
  }

  /** DELETE /values/:key: refuses an empty key, else deletes the caller's variable of that key. */
  function Delete(req: Request<()>, err: Option<Error>): (out: Outcome<()>)
    ensures req.token.None? ==> out == Refuse(StatusUnauthorized)
    ensures req.token.Some? && ByName(req.path, KeyParam) == "" ==> out == Refuse(StatusBadRequest)
    ensures req.token.Some? && ByName(req.path, KeyParam) != "" ==>
      out == AfterWrite(CallDelete(req.token.value.userId, ByName(req.path, KeyParam)), err)
  {
    match req.token
    case None => Refuse(StatusUnauthorized)
    case Some(token) =>
      var key := ByName(req.path, KeyParam);
      if key == "" then Refuse(StatusBadRequest)
      else AfterWrite(CallDelete(token.userId, key), err)
  }

  /** The controller's answer to a Get, as the handler receives it. */
  function AsAnswer(r: (VariableWithUnixTimestamp, Option<Error>)): Result<VariableWithUnixTimestamp, Error> {
    if r.1.Some? then Failure(r.1.value) else Success(r.0)
  }

  /**
   * Through the controller: a value put under a stored key is the value a later
   * get of "/key" answers, unless the database fails.
   */
  lemma PutThenGet(env: Controller.Env, t: Table, token: Principal, key: string, value: Json)
    requires WellKeyed(t) && key != "" && !HasPrefix(key, Controller.CalculatePrefix)
    requires env.fault(Controller.SetCall(Controller.Stamp(env, token.userId, Variable(key, value, "", "")))).None?
    requires env.fault(Controller.GetCall(token.userId, key)).None?
    ensures var variable := Variable(key, value, "", "");
      var (after, err) := Controller.SetStep(env, t, token.userId, variable);
      var put := Set(Request(Some(token), map[KeyParam := key], map[], Decoded(value)), err);
      && put.status == StatusNoContent
      && put.call == Some(CallSet(token.userId, variable))
      && var answer := AsAnswer(Controller.GetSpec(env, after, token.userId, key));
        Get(Request(Some(token), map[KeyParam := "/" + key], map[], Decoded(())), answer).body == Some(value)
  {
    var variable := Variable(key, value, "", "");
    Controller.GetAfterSet(env, t, token.userId, variable);
    assert TrimPrefix("/" + key, "/") == key;
  }
}
