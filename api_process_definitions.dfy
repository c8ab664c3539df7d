/**
 * The /process-definitions and /process-instances endpoints: values put under
 * a process definition (and instance), and the admin-only cascading deletes.
 */
module ApiProcessDefinitions {
  import opened Wrappers
  import opened Model
  import opened Store
  import opened Http
  import Controller

  const KeyParam: string := "key"
  const DefinitionIdParam: string := "definitionId"
  const InstanceIdParam: string := "instanceId"

  /**
   * PUT /process-definitions/:definitionId/process-instances/:instanceId/values/:key:
   * refuses a missing key, then a missing instance id, then a missing
   * definition id, then a body that does not decode; else stores the value
   * under both ids.
   */
  function SetWithInstance(req: Request<Json>, err: Option<Error>): (out: Outcome<()>)
    ensures req.token.None? ==> out == Refuse(StatusUnauthorized)
    ensures req.token.Some? && ((ByName(req.path, KeyParam) == "" || ByName(req.path, InstanceIdParam) == "" || ByName(req.path, DefinitionIdParam) == "") || req.body.Undecodable?) ==>
      out == Refuse(StatusBadRequest)
    ensures req.token.Some? && !(ByName(req.path, KeyParam) == "" || ByName(req.path, InstanceIdParam) == "" || ByName(req.path, DefinitionIdParam) == "") && req.body.Decoded? ==>
      out == AfterWrite(CallSet(req.token.value.userId,
        Variable(ByName(req.path, KeyParam), req.body.value, ByName(req.path, DefinitionIdParam), ByName(req.path, InstanceIdParam))), err)
  {
    match req.token
    case None => Refuse(StatusUnauthorized)
    case Some(token) =>
      var key := ByName(req.path, KeyParam);
      if key == "" then Refuse(StatusBadRequest)
      else
        var instanceId := ByName(req.path, InstanceIdParam);
        if instanceId == "" then Refuse(StatusBadRequest)
        else
          var definitionId := ByName(req.path, DefinitionIdParam);
          if definitionId == "" then Refuse(StatusBadRequest)
          else
            match req.body
            case Undecodable => Refuse(StatusBadRequest)
            case Decoded(value) =>
              AfterWrite(CallSet(token.userId, Variable(key, value, definitionId, instanceId)), err)
  }

  /**
   * PUT /process-definitions/:definitionId/values/:key: as SetWithInstance,
   * without an instance id; the value is stored with an empty one.
   */
  function Set(req: Request<Json>, err: Option<Error>): (out: Outcome<()>)
    ensures req.token.None? ==> out == Refuse(StatusUnauthorized)
    ensures req.token.Some? && ((ByName(req.path, KeyParam) == "" || ByName(req.path, DefinitionIdParam) == "") || req.body.Undecodable?) ==>
      out == Refuse(StatusBadRequest)
    ensures req.token.Some? && !(ByName(req.path, KeyParam) == "" || ByName(req.path, DefinitionIdParam) == "") && req.body.Decoded? ==>
      out == AfterWrite(CallSet(req.token.value.userId,
        Variable(ByName(req.path, KeyParam), req.body.value, ByName(req.path, DefinitionIdParam), "")), err)
  {
    match req.token
    case None => Refuse(StatusUnauthorized)
    case Some(token) =>
      var key := ByName(req.path, KeyParam);
      if key == "" then Refuse(StatusBadRequest)
      else
        var definitionId := ByName(req.path, DefinitionIdParam);
        if definitionId == "" then Refuse(StatusBadRequest)
        else
          match req.body
          case Undecodable => Refuse(StatusBadRequest)
          case Decoded(value) => AfterWrite(CallSet(token.userId, Variable(key, value, definitionId, "")), err)
  }

  /**
   * The gate of both cascading deletes: 401 without a token, 403 for a caller
   * who is not an admin, 400 for an empty id; else the delete call.
   */
  function AdminDelete(req: Request<()>, id: string, call: Call, err: Option<Error>): (out: Outcome<()>)
    ensures req.token.None? ==> out == Refuse(StatusUnauthorized)
    ensures req.token.Some? && !req.token.value.isAdmin ==> out == Refuse(StatusForbidden)
    ensures req.token.Some? && req.token.value.isAdmin && id == "" ==> out == Refuse(StatusBadRequest)
    ensures req.token.Some? && req.token.value.isAdmin && id != "" ==> out == AfterWrite(call, err)
  {
    match req.token
    case None => Refuse(StatusUnauthorized)
    case Some(token) =>
      if !token.isAdmin then Refuse(StatusForbidden)
      else if id == "" then Refuse(StatusBadRequest)
      else AfterWrite(call, err)
  }

  /** DELETE /process-definitions/:definitionId: removes every user's variables of the definition. */
  function DeleteDefinition(req: Request<()>, err: Option<Error>): (out: Outcome<()>)
    ensures out.call.Some? <==>
      req.token.Some? && req.token.value.isAdmin && ByName(req.path, DefinitionIdParam) != ""
    ensures out.call.Some? ==> out == AfterWrite(CallDeleteProcessDefinition(ByName(req.path, DefinitionIdParam)), err)
    ensures out.call.None? ==> out.status in {StatusUnauthorized, StatusForbidden, StatusBadRequest}
  {
    var definitionId := ByName(req.path, DefinitionIdParam);
    AdminDelete(req, definitionId, CallDeleteProcessDefinition(definitionId), err)
  }

  /** DELETE /process-instances/:instanceId: removes every user's variables of the instance. */
  function DeleteInstance(req: Request<()>, err: Option<Error>): (out: Outcome<()>)
    ensures out.call.Some? <==>
      req.token.Some? && req.token.value.isAdmin && ByName(req.path, InstanceIdParam) != ""
    ensures out.call.Some? ==> out == AfterWrite(CallDeleteProcessInstance(ByName(req.path, InstanceIdParam)), err)
    ensures out.call.None? ==> out.status in {StatusUnauthorized, StatusForbidden, StatusBadRequest}
  {
    var instanceId := ByName(req.path, InstanceIdParam);
    AdminDelete(req, instanceId, CallDeleteProcessInstance(instanceId), err)
  }

  /**
   * Through the controller: a value put under an instance is gone for its
   * owner once an admin deletes that instance.
   */
  lemma InstanceDeleteRemovesValue(env: Controller.Env, t: Table, owner: Principal, admin: Principal,
                                   key: string, value: Json, definitionId: string, instanceId: string)
    requires WellKeyed(t) && key != "" && definitionId != "" && instanceId != "" && admin.isAdmin
    requires env.fault(Controller.SetCall(Controller.Stamp(env, owner.userId, Variable(key, value, definitionId, instanceId)))).None?
    ensures var variable := Variable(key, value, definitionId, instanceId);
      var path := map[KeyParam := key, DefinitionIdParam := definitionId, InstanceIdParam := instanceId];
      var (after, setError) := Controller.SetStep(env, t, owner.userId, variable);
      var put := SetWithInstance(Request(Some(owner), path, map[], Decoded(value)), setError);
      var delete := DeleteInstance(Request(Some(admin), map[InstanceIdParam := instanceId], map[], Decoded(())), None);
      && put.call == Some(CallSet(owner.userId, variable))
      && delete.call == Some(CallDeleteProcessInstance(instanceId))
      && Lookup(RemoveInstance(after, instanceId), owner.userId, key) == NotFound(owner.userId, key)
  {
    var variable := Variable(key, value, definitionId, instanceId);
    var path := map[KeyParam := key, DefinitionIdParam := definitionId, InstanceIdParam := instanceId];
    assert KeyParam != DefinitionIdParam && KeyParam != InstanceIdParam && DefinitionIdParam != InstanceIdParam;
    assert ByName(path, KeyParam) == key;
    assert ByName(path, InstanceIdParam) == instanceId;
    assert ByName(path, DefinitionIdParam) == definitionId;
    var after := Controller.SetStep(env, t, owner.userId, variable).0;
    var stamped := Controller.Stamp(env, owner.userId, variable);
    assert after[KeyOf(stamped)].ProcessInstanceId() == instanceId;
  }
}
