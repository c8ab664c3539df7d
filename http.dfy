/**
 * What the HTTP handlers see of a request and what they decide: a status code
 * and at most one call on the controller.
 */
module Http {
  import opened Wrappers
  import opened Model

  /** The parsed bearer token: whose request it is, and whether they are an admin. */
  datatype Principal = Principal(userId: string, isAdmin: bool)

  /** A JSON request body, decoded into a T or refused by the decoder. */
  datatype Body<T> = Decoded(value: T) | Undecodable

  /**
   * A request as a handler reads it: the token (None when it does not parse),
   * the route's path parameters, the URL query and the body.
   */
  datatype Request<T> = Request(
    token: Option<Principal>,
    path: map<string, string>,
    query: UrlValues,
    body: Body<T>)

  /** httprouter's Params.ByName: the value of a path parameter, or "" when the route has none of that name. */
  function ByName(path: map<string, string>, name: string): (r: string)
    ensures name in path ==> r == path[name]
    ensures name !in path ==> r == ""
  {
    if name in path then path[name] else ""
  }

  /** A call a handler makes on the controller. */
  datatype Call =
    | CallList(userId: string, query: VariablesQueryOptions)
    | CallCount(userId: string, query: VariablesQueryOptions)
    | CallGet(userId: string, key: string)
    | CallSet(userId: string, variable: Variable)
    | CallDelete(userId: string, key: string)
    | CallDeleteProcessDefinition(definitionId: string)
    | CallDeleteProcessInstance(instanceId: string)

  /** What a handler does with a request: the status it writes, the controller call it makes, the body it encodes. */
  datatype Outcome<B> = Outcome(status: int, call: Option<Call>, body: Option<B>)

  const StatusOK: int := 200
  const StatusNoContent: int := 204
  const StatusBadRequest: int := 400
  const StatusUnauthorized: int := 401
  const StatusForbidden: int := 403
  const StatusInternalServerError: int := 500

  /** An answer without a controller call: http.Error with the status. */
  function Refuse<B>(status: int): (out: Outcome<B>)
    ensures out.status == status && out.call == None && out.body == None
  {
    Outcome(status, None, None)
  }

  /** The response to a write: 204 without a body when the controller succeeds, 500 when it fails. */
  function AfterWrite(call: Call, err: Option<Error>): (out: Outcome<()>)
    ensures out.call == Some(call) && out.body == None
    ensures out.status == if err.None? then StatusNoContent else StatusInternalServerError
  {
    Outcome(if err.None? then StatusNoContent else StatusInternalServerError, Some(call), None)
  }

  /** The response to a read: 200 with the encoded answer when the controller succeeds, 500 without a body when it fails. */
  function AfterRead<B>(call: Call, answer: Result<B, Error>): (out: Outcome<B>)
    ensures out.call == Some(call)
    ensures answer.Success? ==> out.status == StatusOK && out.body == Some(answer.value)
    ensures answer.Failure? ==> out.status == StatusInternalServerError && out.body == None
  {
    match answer
    case Success(value) => Outcome(StatusOK, Some(call), Some(value))
    case Failure(_) => Outcome(StatusInternalServerError, Some(call), None)
  }
}
