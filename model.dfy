/** The records the store exchanges, and the query options with their URL form. */
module Model {
  import opened Wrappers
  import opened Decimal

  /** A JSON value, as a decoded request body or a stored `variable_value`. */
  datatype Json =
    | Null
    | Bool(b: bool)
    | Number(n: real)
    | Text(s: string)
    | Array(items: seq<Json>)
    | Object(fields: map<string, Json>)

  datatype Error = Error(message: string)

  datatype Variable = Variable(
    key: string,
    value: Json,
    processDefinitionId: string,
    processInstanceId: string)

  datatype VariableWithUnixTimestamp = VariableWithUnixTimestamp(
    variable: Variable,
    unixTimestampInS: Int64)

  /** The stored record: the variable, its write time and its owner. */
  datatype VariableWithUser = VariableWithUser(
    stamped: VariableWithUnixTimestamp,
    userId: string)
  {
    function Key(): string { stamped.variable.key }
    function ProcessDefinitionId(): string { stamped.variable.processDefinitionId }
    function ProcessInstanceId(): string { stamped.variable.processInstanceId }
  }

  const DefaultSort: string := "key.asc"

  datatype VariablesQueryOptions = VariablesQueryOptions(
    limit: Int64,
    offset: Int64,
    sort: string,
    keyRegex: string,
    processDefinitionId: string,
    processInstanceId: string)
  {
    /** The sort to apply: the given one, or "key.asc" when none is given. */
    function GetSort(): (r: string)
      ensures r != ""
      ensures r != sort ==> sort == "" && r == DefaultSort
    {
      if sort == "" then DefaultSort else sort
    }
  }

  /** The zero value of VariablesQueryOptions. */
  const ZeroOptions: VariablesQueryOptions := VariablesQueryOptions(0, 0, "", "", "", "")

  /** A bulk request: the keys to read (`get`) and the variables to write (`set`). */
  datatype BulkRequest = BulkRequest(getKeys: seq<string>, setVariables: seq<Variable>)

  /** A Go slice, which may be nil (encoded as JSON null) or hold elements. */
  datatype Slice<T> = Nil | Slice(items: seq<T>)

  /** url.Values: each parameter name with its list of values. */
  type UrlValues = map<string, seq<string>>

  /** url.Values.Get: the first value of the parameter, or "" when it has none. */
  function QueryGet(values: UrlValues, name: string): (r: string)
    ensures r != "" ==> name in values && values[name] != [] && values[name][0] == r
    ensures name in values && values[name] != [] ==> r == values[name][0]
  {
    if name in values && values[name] != [] then values[name][0] else ""
  }

  const LimitParam: string := "limit"
  const OffsetParam: string := "offset"
  const SortParam: string := "sort"
  const KeyRegexParam: string := "key_regex"
  const ProcessInstanceIdParam: string := "process_instance_id"
  const ProcessDefinitionIdParam: string := "process_definition_id"

  const ParamNames: set<string> :=
    {LimitParam, OffsetParam, SortParam, KeyRegexParam, ProcessInstanceIdParam, ProcessDefinitionIdParam}

  /** The value Encode gives the parameter `name`, if it gives it one. */
  function EncodedParam(q: VariablesQueryOptions, name: string): Option<string>
  {
    if name == LimitParam then (if q.limit > 0 then Some(Itoa(q.limit)) else None)
    else if name == OffsetParam then (if q.offset > 0 then Some(Itoa(q.offset)) else None)
    else if name == SortParam then (if q.sort != "" then Some(q.sort) else None)
    else if name == KeyRegexParam then (if q.keyRegex != "" then Some(q.keyRegex) else None)
    else if name == ProcessInstanceIdParam then
      (if q.processInstanceId != "" then Some(q.processInstanceId) else None)
    else if name == ProcessDefinitionIdParam then
      (if q.processDefinitionId != "" then Some(q.processDefinitionId) else None)
    else None
  }

  /** The parameters of the options' URL form, one value each. */
  function EncodedParams(q: VariablesQueryOptions): (values: UrlValues)
    ensures values.Keys <= ParamNames
    ensures forall name :: name in values ==> |values[name]| == 1
    ensures LimitParam in values <==> q.limit > 0
    ensures OffsetParam in values <==> q.offset > 0
    ensures SortParam in values <==> q.sort != ""
    ensures KeyRegexParam in values <==> q.keyRegex != ""
    ensures ProcessInstanceIdParam in values <==> q.processInstanceId != ""
    ensures ProcessDefinitionIdParam in values <==> q.processDefinitionId != ""
    ensures q.limit > 0 ==> values[LimitParam] == [Itoa(q.limit)]
    ensures q.offset > 0 ==> values[OffsetParam] == [Itoa(q.offset)]
    ensures q.sort != "" ==> values[SortParam] == [q.sort]
    ensures q.keyRegex != "" ==> values[KeyRegexParam] == [q.keyRegex]
    ensures q.processInstanceId != "" ==> values[ProcessInstanceIdParam] == [q.processInstanceId]
    ensures q.processDefinitionId != "" ==> values[ProcessDefinitionIdParam] == [q.processDefinitionId]
  {
    EncodedAmong(q, ParamNames)
  }

  /** The parameters Encode gives among `names`. */
  function EncodedAmong(q: VariablesQueryOptions, names: set<string>): UrlValues {
    map name | name in names && EncodedParam(q, name).Some? :: [EncodedParam(q, name).value]
  }

  /** Considering one more parameter name adds that parameter exactly when Encode gives it a value. */
  lemma EncodedAmongStep(q: VariablesQueryOptions, names: set<string>, name: string)
    ensures EncodedAmong(q, names + {name}) ==
      if EncodedParam(q, name).Some? then EncodedAmong(q, names)[name := [EncodedParam(q, name).value]]
      else EncodedAmong(q, names)
  {
  }

  /**
   * VariablesQueryOptions.Encode up to the parameter map: each field becomes a
   * parameter only when it is positive or non-empty.
   */
  method Encode(q: VariablesQueryOptions) returns (values: UrlValues)
    ensures values == EncodedParams(q)
    ensures q == ZeroOptions ==> values == map[]
  {
    values := map[];
    ghost var seen: set<string> := {};
    EncodedAmongStep(q, seen, LimitParam);
    seen := seen + {LimitParam};
    if q.limit > 0 {
      values := values[LimitParam := [Itoa(q.limit)]];
    }
    assert values == EncodedAmong(q, seen);
    EncodedAmongStep(q, seen, OffsetParam);
    seen := seen + {OffsetParam};
    if q.offset > 0 {
      values := values[OffsetParam := [Itoa(q.offset)]];
    }
    assert values == EncodedAmong(q, seen);
    EncodedAmongStep(q, seen, SortParam);
    seen := seen + {SortParam};
    if q.sort != "" {
      values := values[SortParam := [q.sort]];
    }
    assert values == EncodedAmong(q, seen);
    EncodedAmongStep(q, seen, KeyRegexParam);
    seen := seen + {KeyRegexParam};
    if q.keyRegex != "" {
      values := values[KeyRegexParam := [q.keyRegex]];
    }
    assert values == EncodedAmong(q, seen);
    EncodedAmongStep(q, seen, ProcessInstanceIdParam);
    seen := seen + {ProcessInstanceIdParam};
    if q.processInstanceId != "" {
      values := values[ProcessInstanceIdParam := [q.processInstanceId]];
    }
    assert values == EncodedAmong(q, seen);
    EncodedAmongStep(q, seen, ProcessDefinitionIdParam);
    seen := seen + {ProcessDefinitionIdParam};
    if q.processDefinitionId != "" {
      values := values[ProcessDefinitionIdParam := [q.processDefinitionId]];
    }
    assert values == EncodedAmong(q, seen);
    assert seen == ParamNames;
  }
}
