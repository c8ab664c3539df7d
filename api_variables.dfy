/** The /variables endpoints: list, count, get, set and delete of whole variables. */
module ApiVariables {
  import opened Wrappers
  import opened Strings
  import opened Decimal
  import opened Model
  import opened Http

  /** The path parameter of the variable routes. */
  const KeyParam: string := "key"

  /** An integer query parameter: absent or empty leaves 0; otherwise it must parse as a Go int. */
  function IntParam(values: UrlValues, name: string): (r: Option<Int64>)
    ensures QueryGet(values, name) == "" ==> r == Some(0)
    ensures QueryGet(values, name) != "" ==> r == Atoi(QueryGet(values, name))
  {
    var text := QueryGet(values, name);
    if text == "" then Some(0) else Atoi(text)
  }

  /**
   * The options the list endpoint reads from the URL query, or None when a
   * limit or offset is given that is not an integer.
   */
  function ListOptionsOf(values: UrlValues): (r: Option<VariablesQueryOptions>)
    ensures r.None? <==> IntParam(values, LimitParam).None? || IntParam(values, OffsetParam).None?
    ensures r.Some? ==>
      && r.value.limit == IntParam(values, LimitParam).value
      && r.value.offset == IntParam(values, OffsetParam).value
      && r.value.sort == (if QueryGet(values, SortParam) == "" then DefaultSort else QueryGet(values, SortParam))
      && r.value.keyRegex == QueryGet(values, KeyRegexParam)
      && r.value.processInstanceId == QueryGet(values, ProcessInstanceIdParam)
      && r.value.processDefinitionId == QueryGet(values, ProcessDefinitionIdParam)
  {
    var limit := IntParam(values, LimitParam);
    var offset := IntParam(values, OffsetParam);
    if limit.None? || offset.None? then None
    else
      var sort := QueryGet(values, SortParam);
      Some(VariablesQueryOptions(
        limit.value, offset.value, if sort == "" then DefaultSort else sort,
        QueryGet(values, KeyRegexParam), QueryGet(values, ProcessDefinitionIdParam),
        QueryGet(values, ProcessInstanceIdParam)))
  }

  /** The options the count endpoint reads: only the two ids and the key pattern; no paging and no sort. */
  function CountOptionsOf(values: UrlValues): (r: VariablesQueryOptions)
    ensures r.limit == 0 && r.offset == 0 && r.sort == ""
    ensures r.keyRegex == QueryGet(values, KeyRegexParam)
    ensures r.processInstanceId == QueryGet(values, ProcessInstanceIdParam)
    ensures r.processDefinitionId == QueryGet(values, ProcessDefinitionIdParam)
  {
    ZeroOptions.(
      processInstanceId := QueryGet(values, ProcessInstanceIdParam),
      processDefinitionId := QueryGet(values, ProcessDefinitionIdParam),
      keyRegex := QueryGet(values, KeyRegexParam))
  }

  /**
   * GET /variables: the options are filled field by field from the query;
   * a limit or offset that is not an integer ends the request with 400.
   */
  method List(req: Request<()>, answer: Result<seq<VariableWithUnixTimestamp>, Error>)
    returns (out: Outcome<seq<VariableWithUnixTimestamp>>)
    ensures req.token.None? ==> out == Refuse(StatusUnauthorized)
    ensures req.token.Some? && ListOptionsOf(req.query).None? ==> out == Refuse(StatusBadRequest)
    ensures req.token.Some? && ListOptionsOf(req.query).Some? ==>
      out == AfterRead(CallList(req.token.value.userId, ListOptionsOf(req.query).value), answer)
  {
    if req.token.None? {
      return Refuse(StatusUnauthorized);
    }
    var query := ZeroOptions;
    var limit := QueryGet(req.query, LimitParam);
    if limit != "" {
      var parsed := Atoi(limit);
      if parsed.None? {
        return Refuse(StatusBadRequest);
      }
      query := query.(limit := parsed.value);
    }
    var offset := QueryGet(req.query, OffsetParam);
    if offset != "" {
      var parsed := Atoi(offset);
      if parsed.None? {
        return Refuse(StatusBadRequest);
      }
      query := query.(offset := parsed.value);
    }
    query := query.(sort := QueryGet(req.query, SortParam));
    if query.sort == "" {
      query := query.(sort := DefaultSort);
    }
    query := query.(processInstanceId := QueryGet(req.query, ProcessInstanceIdParam));
    query := query.(processDefinitionId := QueryGet(req.query, ProcessDefinitionIdParam));
    query := query.(keyRegex := QueryGet(req.query, KeyRegexParam));
    out := AfterRead(CallList(req.token.value.userId, query), answer);
  }

  /** GET /count/variables: counts with the ids and the key pattern of the query. */
  function Count(req: Request<()>, answer: Result<nat, Error>): (out: Outcome<nat>)
    ensures req.token.None? ==> out == Refuse(StatusUnauthorized)
    ensures req.token.Some? ==> out == AfterRead(CallCount(req.token.value.userId, CountOptionsOf(req.query)), answer)
  {
    match req.token
    case None => Refuse(StatusUnauthorized)
    case Some(token) => AfterRead(CallCount(token.userId, CountOptionsOf(req.query)), answer)
  }

  /** GET /variables/{key}: the wildcard key without its one leading slash; an empty key is refused. */
  function Get(req: Request<()>, answer: Result<VariableWithUnixTimestamp, Error>): (out: Outcome<VariableWithUnixTimestamp>)
    ensures req.token.None? ==> out == Refuse(StatusUnauthorized)
    ensures req.token.Some? && ByName(req.path, KeyParam) in {"", "/"} ==> out == Refuse(StatusBadRequest)
    ensures req.token.Some? && HasPrefix(ByName(req.path, KeyParam), "/") && |ByName(req.path, KeyParam)| > 1 ==>
      out == AfterRead(CallGet(req.token.value.userId, ByName(req.path, KeyParam)[1..]), answer)
    ensures req.token.Some? && ByName(req.path, KeyParam) != "" && ByName(req.path, KeyParam)[0] != '/' ==>
      out == AfterRead(CallGet(req.token.value.userId, ByName(req.path, KeyParam)), answer)
  {
    match req.token
    case None => Refuse(StatusUnauthorized)
    case Some(token) =>
      var key := TrimPrefix(ByName(req.path, KeyParam), "/");
      if key == "" then Refuse(StatusBadRequest)
      else AfterRead(CallGet(token.userId, key), answer)
  }

  /**
   * PUT /variables/:key: refuses an empty key, then a body that does not
   * decode, then a body whose key is not the path's key; else stores the body.
   */
  function Set(req: Request<Variable>, err: Option<Error>): (out: Outcome<()>)
    ensures req.token.None? ==> out == Refuse(StatusUnauthorized)
    ensures req.token.Some? && ByName(req.path, KeyParam) == "" ==> out == Refuse(StatusBadRequest)
    ensures req.token.Some? && ByName(req.path, KeyParam) != "" && req.body.Undecodable? ==>
      out == Refuse(StatusBadRequest)
    ensures req.token.Some? && req.body.Decoded? && req.body.value.key != ByName(req.path, KeyParam) ==>
      out == Refuse(StatusBadRequest)
    ensures req.token.Some? && ByName(req.path, KeyParam) != "" && req.body.Decoded? && req.body.value.key == ByName(req.path, KeyParam) ==>
      out == AfterWrite(CallSet(req.token.value.userId, req.body.value), err)
    ensures out.call.Some? ==> req.token.Some? && req.body.Decoded? && req.body.value.key == ByName(req.path, KeyParam) && ByName(req.path, KeyParam) != ""
  {
    match req.token
    case None => Refuse(StatusUnauthorized)
    case Some(token) =>
      var key := ByName(req.path, KeyParam);
      if key == "" then Refuse(StatusBadRequest)
      else
        match req.body
        case Undecodable => Refuse(StatusBadRequest)
        case Decoded(msg) =>
          if msg.key != key then Refuse(StatusBadRequest)
          else AfterWrite(CallSet(token.userId, msg), err)
  }

  /** DELETE /variables/:key: refuses an empty key, else deletes the caller's variable of that key. */
  function Delete(req: Request<()>, err: Option<Error>): (out: Outcome<()>)
    ensures req.token.None? ==> out == Refuse(StatusUnauthorized)
    ensures req.token.Some? && ByName(req.path, KeyParam) == "" ==> out == Refuse(StatusBadRequest)
    ensures req.token.Some? && ByName(req.path, KeyParam) != "" ==>
      out == AfterWrite(CallDelete(req.token.value.userId, ByName(req.path, KeyParam)), err)
  {
    match req.token
    case None => Refuse(StatusUnauthorized)
    case Some(token) =>
      var key := ByName(req.path, KeyParam);
      if key == "" then Refuse(StatusBadRequest)
      else AfterWrite(CallDelete(token.userId, key), err)
  }

  /**
   * Parsing the URL form of some options gives them back, except that a
   * missing sort becomes "key.asc" and a limit or offset that is not positive
   * becomes 0, since Encode leaves those out.
   */
  lemma ListOptionsOfEncoded(q: VariablesQueryOptions)
    ensures ListOptionsOf(EncodedParams(q)) ==
      Some(q.(limit := if q.limit > 0 then q.limit else 0,
              offset := if q.offset > 0 then q.offset else 0,
              sort := q.GetSort()))
  {
    var values := EncodedParams(q);
    if q.limit > 0 {
      AtoiItoa(q.limit);
      assert QueryGet(values, LimitParam) == Itoa(q.limit);
    }
    if q.offset > 0 {
      AtoiItoa(q.offset);
      assert QueryGet(values, OffsetParam) == Itoa(q.offset);
    }
  }

  /** List and Count filter by the same ids and key pattern of the query. */
  lemma ListAndCountShareFilters(values: UrlValues)
    requires ListOptionsOf(values).Some?
    ensures var list := ListOptionsOf(values).value;
      var count := CountOptionsOf(values);
      list.processDefinitionId == count.processDefinitionId &&
      list.processInstanceId == count.processInstanceId &&
      list.keyRegex == count.keyRegex
  {
  }
}
