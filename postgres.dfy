/**
 * The relational adapter: the `variables` table keyed by (user_id, variable_key),
 * and the SQL text ListVariables builds for it.
 */
module Postgres {
  import opened Wrappers
  import opened Strings
  import opened Decimal
  import opened Model
  import opened Store

  /** A bound query argument. */
  datatype Arg = TextArg(text: string) | IntArg(number: Int64)

  /** A query as the fragments it is built from, and the arguments its placeholders bind. */
  datatype SqlQuery = SqlQuery(parts: seq<string>, args: seq<Arg>)
  {
    /** The SQL text: the fragments joined by single spaces. */
    function Text(): string { Join(parts, " ") }
  }

  const SelectSql: string :=
    "SELECT variable_key, process_definition_id, process_instance_id, unix_timestamp_in_s, variable_value FROM variables"

  /** The n-th positional parameter, `$n`. */
  function Placeholder(n: nat): string {
    "$" + Itoa(n)
  }

  /** What ListVariables writes before each optional filter condition. */
  const SourceConnective: string := ""

  /** What a WHERE clause needs between two conditions. */
  const AndConnective: string := "AND "

  /** The condition every list query starts with: the owner, bound to $1. */
  const OwnerCondition: string := Condition(SourceConnective, "user_id", 1)

  /** The fragment "WHERE user_id = $1". */
  const WhereOwner: string := "WHERE " + OwnerCondition

  /** The optional filters, in the order the query adds them: column and value of each non-empty id. */
  function Filters(q: VariablesQueryOptions): (fs: seq<(string, string)>)
    ensures |fs| == (if q.processDefinitionId != "" then 1 else 0) + (if q.processInstanceId != "" then 1 else 0)
    ensures forall i :: 0 <= i < |fs| ==> fs[i].1 != ""
  {
    (if q.processDefinitionId != "" then [("process_definition_id", q.processDefinitionId)] else [])
    + (if q.processInstanceId != "" then [("process_instance_id", q.processInstanceId)] else [])
  }

  function Condition(connective: string, column: string, n: nat): string {
    connective + column + " = " + Placeholder(n)
  }

  /** The filter fragments; filter i binds placeholder $(i+2), after the user id's $1. */
  function ConditionParts(fs: seq<(string, string)>, connective: string): (parts: seq<string>)
    ensures |parts| == |fs|
    ensures forall i :: 0 <= i < |fs| ==> parts[i] == Condition(connective, fs[i].0, i + 2)
  {
    seq(|fs|, i requires 0 <= i < |fs| => Condition(connective, fs[i].0, i + 2))
  }

  /** The direction a sort names; the adapter writes it as "ASC", "DESC" or nothing. */
  datatype Direction = Ascending | Descending | Unspecified
  {
    function Sql(): string
      requires this != Unspecified
    {
      if this == Ascending then "ASC" else "DESC"
    }
  }

  /** The field and direction of a sort such as "key.asc". */
  function SplitSort(sort: string): (r: (string, Direction))
    ensures r.1 == Ascending <==> HasSuffix(sort, ".asc")
    ensures r.1 == Ascending ==> r.0 + ".asc" == sort
    ensures r.1 == Descending ==> r.0 + ".desc" == sort
    ensures r.1 == Unspecified ==> r.0 == sort && !HasSuffix(sort, ".desc")
  {
    if HasSuffix(sort, ".asc") then (TrimSuffix(sort, ".asc"), Ascending)
    else if HasSuffix(sort, ".desc") then (TrimSuffix(sort, ".desc"), Descending)
    else (sort, Unspecified)
  }

  /** The column a sort field names: "key" is stored as variable_key; any other field is used as it is. */
  function ColumnOf(field: string): string {
    if field == "key" then "variable_key" else field
  }

  /** The ORDER BY fragments: none for an empty sort, else the column and, if given, the direction. */
  function OrderParts(sort: string): (parts: seq<string>)
    ensures sort == "" <==> parts == []
    ensures parts != [] ==> parts[0] == "ORDER BY " + ColumnOf(SplitSort(sort).0)
    ensures parts != [] ==> |parts| == (if SplitSort(sort).1 == Unspecified then 1 else 2)
    ensures |parts| == 2 ==> parts[1] == SplitSort(sort).1.Sql()
  {
    if sort == "" then []
    else
      var (field, direction) := SplitSort(sort);
      ["ORDER BY " + ColumnOf(field)] + (if direction != Unspecified then [direction.Sql()] else [])
  }

  /** The paging fragment whose placeholders are $n and $(n+1). */
  function PagingClause(n: nat): string {
    "Limit " + Placeholder(n) + " OFFSET " + Placeholder(n + 1)
  }

  /** The arguments of the filters, in the order of their placeholders. */
  function FilterArgs(fs: seq<(string, string)>): (args: seq<Arg>)
    ensures |args| == |fs|
    ensures forall i :: 0 <= i < |fs| ==> args[i] == TextArg(fs[i].1)
  {
    seq(|fs|, i requires 0 <= i < |fs| => TextArg(fs[i].1))
  }

  /** The paging fragment, present only for a positive limit, with its placeholders from $n. */
  function PagingParts(q: VariablesQueryOptions, n: nat): seq<string> {
    if q.limit > 0 then [PagingClause(n)] else []
  }

  function PagingArgs(q: VariablesQueryOptions): seq<Arg> {
    if q.limit > 0 then [IntArg(q.limit), IntArg(q.offset)] else []
  }

  /**
   * The list query with `connective` before each filter condition. With
   * SourceConnective it is the query the adapter's source builds; with
   * AndConnective it is the query the adapter evidently means to build.
   */
  function ListQuery(userId: string, q: VariablesQueryOptions, connective: string): (r: SqlQuery)
    ensures |r.args| == |Filters(q)| + (if q.limit > 0 then 3 else 1)
    ensures |r.parts| == |Filters(q)| + |OrderParts(q.sort)| + (if q.limit > 0 then 3 else 2)
    ensures r.parts[..2] == [SelectSql, WhereOwner] && r.args[0] == TextArg(userId)
    ensures q.limit > 0 ==> r.args[|r.args| - 2..] == [IntArg(q.limit), IntArg(q.offset)]
  {
    var fs := Filters(q);
    SqlQuery(
      [SelectSql, WhereOwner] + ConditionParts(fs, connective)
        + OrderParts(q.sort) + PagingParts(q, |fs| + 2),
      [TextArg(userId)] + FilterArgs(fs) + PagingArgs(q))
  }

  /**
   * How the list query is laid out: the select, the user condition bound to $1,
   * one condition per filter bound to the following placeholders, the ordering,
   * and the paging clause bound to the last two arguments.
   */
  lemma ListQueryShape(userId: string, q: VariablesQueryOptions, connective: string, r: SqlQuery)
    requires r == ListQuery(userId, q, connective)
    ensures var fs := Filters(q);
      && |r.args| == 1 + |fs| + (if q.limit > 0 then 2 else 0)
      && |r.parts| == 2 + |fs| + |OrderParts(q.sort)| + (if q.limit > 0 then 1 else 0)
      && r.parts[0] == SelectSql
      && r.parts[1] == WhereOwner && r.args[0] == TextArg(userId)
      && (forall i :: 0 <= i < |fs| ==>
            r.parts[2 + i] == Condition(connective, fs[i].0, i + 2) && r.args[1 + i] == TextArg(fs[i].1))
      && r.parts[2 + |fs|..2 + |fs| + |OrderParts(q.sort)|] == OrderParts(q.sort)
      && (q.limit > 0 ==>
            && r.parts[|r.parts| - 1] == PagingClause(|r.args| - 1)
            && r.args[|r.args| - 2] == IntArg(q.limit)
            && r.args[|r.args| - 1] == IntArg(q.offset))
  {
  }

  /**
   * ListVariables' query building, step by step: every fragment that needs an
   * argument takes the placeholder $(len(args)+1) before the argument is appended.
   * The source writes SourceConnective before each filter condition.
   */
  method BuildListQuery(userId: string, q: VariablesQueryOptions, connective: string) returns (query: string, args: seq<Arg>)
    ensures query == ListQuery(userId, q, connective).Text()
    ensures args == ListQuery(userId, q, connective).args
  {
    ghost var fs := Filters(q);
    var parts := [SelectSql];
    args := [TextArg(userId)];
    parts := parts + [WhereOwner];
    if q.processDefinitionId != "" {
      parts := parts + [Condition(connective, "process_definition_id", |args| + 1)];
      args := args + [TextArg(q.processDefinitionId)];
    }
    if q.processInstanceId != "" {
      parts := parts + [Condition(connective, "process_instance_id", |args| + 1)];
      args := args + [TextArg(q.processInstanceId)];
    }
    assert parts == [SelectSql, WhereOwner] + ConditionParts(fs, connective);
    assert args == [TextArg(userId)] + FilterArgs(fs);
    var order := OrderBy(q.sort);
    parts := parts + order;
    assert parts ==
      [SelectSql, WhereOwner] + ConditionParts(fs, connective) + OrderParts(q.sort);
    if q.limit > 0 {
      parts := parts + [PagingClause(|args| + 1)];
      args := args + [IntArg(q.limit), IntArg(q.offset)];
    }
    assert parts == ListQuery(userId, q, connective).parts;
    query := Join(parts, " ");
  }

  /** ListVariables' ORDER BY step: the column (key renamed) and the direction, if the sort names one. */
  method OrderBy(sort: string) returns (parts: seq<string>)
    ensures parts == OrderParts(sort)
  {
    parts := [];
    if sort != "" {
      var field := "";
      var direction := Unspecified;
      if HasSuffix(sort, ".asc") {
        field := TrimSuffix(sort, ".asc");
        direction := Ascending;
      } else if HasSuffix(sort, ".desc") {
        field := TrimSuffix(sort, ".desc");
        direction := Descending;
      } else {
        field := sort;
      }
      if field == "key" {
        field := "variable_key";
      }
      parts := parts + ["ORDER BY " + field];
      if direction != Unspecified {
        parts := parts + [direction.Sql()];
      }
    }
  }

  /** The conditions of the WHERE clause without any connective: the owner first, then each filter. */
  function Conditions(q: VariablesQueryOptions): seq<string> {
    [OwnerCondition] + ConditionParts(Filters(q), SourceConnective)
  }

  /** The WHERE clause of a list query: its fragments from "WHERE" up to the ordering, joined as the query joins them. */
  function WhereText(userId: string, q: VariablesQueryOptions, connective: string): string {
    Join(ListQuery(userId, q, connective).parts[1..2 + |Filters(q)|], " ")
  }

  /** A condition with a connective is the bare condition with the connective written in front. */
  lemma ConditionWithConnective(connective: string, column: string, n: nat)
    ensures Condition(connective, column, n) == connective + Condition(SourceConnective, column, n)
  {
    assert SourceConnective + column == column;
  }

  /** The filter fragments with a connective are the bare ones with the connective written in front. */
  lemma ConditionPartsPrefixed(fs: seq<(string, string)>, connective: string)
    ensures ConditionParts(fs, connective) == Prefixed(ConditionParts(fs, SourceConnective), connective)
  {
    forall i | 0 <= i < |fs|
      ensures ConditionParts(fs, connective)[i] == Prefixed(ConditionParts(fs, SourceConnective), connective)[i]
    {
      ConditionWithConnective(connective, fs[i].0, i + 2);
    }
  }

  /** A slice that lies within the left operand of a concatenation is a slice of that operand. */
  lemma SliceOfLeft<T>(a: seq<T>, b: seq<T>, lo: nat, hi: nat)
    requires lo <= hi <= |a|
    ensures (a + b)[lo..hi] == a[lo..hi]
  {
  }

  /** The WHERE fragments of a list query: the owner condition, then one fragment per filter. */
  lemma WhereParts(userId: string, q: VariablesQueryOptions, connective: string)
    ensures ListQuery(userId, q, connective).parts[1..2 + |Filters(q)|] ==
      [WhereOwner] + Prefixed(ConditionParts(Filters(q), SourceConnective), connective)
  {
    var fs := Filters(q);
    var conditions := ConditionParts(fs, connective);
    var head := [SelectSql, WhereOwner] + conditions;
    var ordered := head + OrderParts(q.sort);
    assert ListQuery(userId, q, connective).parts == ordered + PagingParts(q, |fs| + 2);
    SliceOfLeft(ordered, PagingParts(q, |fs| + 2), 1, 2 + |fs|);
    SliceOfLeft(head, OrderParts(q.sort), 1, 2 + |fs|);
    assert head[1..2 + |fs|] == [WhereOwner] + conditions;
    ConditionPartsPrefixed(fs, connective);
  }

  /** With AndConnective, the WHERE clause is the conjunction of the owner condition and every filter condition. */
  lemma CorrectedWhereIsConjunction(userId: string, q: VariablesQueryOptions)
    ensures WhereText(userId, q, AndConnective) == "WHERE " + Join(Conditions(q), " AND ")
  {
    WhereParts(userId, q, AndConnective);
    assert " " + AndConnective == " AND ";
    JoinPrefixed("WHERE ", OwnerCondition,
      ConditionParts(Filters(q), SourceConnective), " ", AndConnective);
  }

  /** As written, the conditions of the WHERE clause follow each other separated by a single space. */
  lemma WrittenWhereJuxtaposes(userId: string, q: VariablesQueryOptions)
    ensures WhereText(userId, q, SourceConnective) == "WHERE " + Join(Conditions(q), " ")
  {
    WhereParts(userId, q, SourceConnective);
    assert " " + SourceConnective == " ";
    JoinPrefixed("WHERE ", OwnerCondition,
      ConditionParts(Filters(q), SourceConnective), " ", SourceConnective);
  }

  lemma SmallPlaceholders()
    ensures Placeholder(1) == "$1" && Placeholder(2) == "$2"
  {
    assert DigitChar(1) == '1' && DigitChar(2) == '2';
    assert Itoa(1) == "1" && Itoa(2) == "2";
  }

  /**
   * A definition filter shows the difference: the WHERE clause ListVariables
   * sends has no AND between its two conditions, which is not valid SQL.
   */
  lemma MissingAndCounterexample()
    ensures var q := ZeroOptions.(processDefinitionId := "d1");
      && WhereText("u1", q, SourceConnective) == "WHERE " + "user_id = $1" + " " + "process_definition_id = $2"
      && WhereText("u1", q, AndConnective) == "WHERE " + "user_id = $1" + " AND " + "process_definition_id = $2"
  {
    var q := ZeroOptions.(processDefinitionId := "d1");
    SmallPlaceholders();
    assert OwnerCondition == "user_id = $1";
    assert Filters(q) == [("process_definition_id", "d1")];
    var second := Condition(SourceConnective, "process_definition_id", 2);
    assert second == "process_definition_id = $2";
    assert Conditions(q) == [OwnerCondition, second];
    assert Join(Conditions(q), " ") == OwnerCondition + " " + second;
    assert Join(Conditions(q), " AND ") == OwnerCondition + " AND " + second;
    WrittenWhereJuxtaposes("u1", q);
    CorrectedWhereIsConjunction("u1", q);
  }

  /** The key pattern of the options never reaches the query. */
  lemma ListQueryIgnoresKeyRegex(userId: string, q: VariablesQueryOptions, keyRegex: string, connective: string)
    ensures ListQuery(userId, q.(keyRegex := keyRegex), connective) == ListQuery(userId, q, connective)
  {
  }

  /** Without a positive limit there is no paging clause and no paging argument, so the offset has no effect. */
  lemma OffsetNeedsLimit(userId: string, q: VariablesQueryOptions, offset: Int64, connective: string)
    requires q.limit <= 0
    ensures ListQuery(userId, q.(offset := offset), connective) == ListQuery(userId, q, connective)
    ensures |ListQuery(userId, q, connective).args| == 1 + |Filters(q)|
  {
  }

  /** The result of scanning one row: the record without its owner, or the scan or decoding error. */
  type ScannedRow = Result<VariableWithUnixTimestamp, Error>

  /**
   * The outcome of reading rows in order: the first failing row's error, or
   * every record. Defined from the last row so that a prefix of the rows is a
   * prefix of the reading.
   */
  function Scan(rows: seq<ScannedRow>): (r: Result<seq<VariableWithUnixTimestamp>, Error>)
    ensures r.Success? ==> |r.value| == |rows|
    ensures r.Failure? ==> exists i :: 0 <= i < |rows| && rows[i] == Failure(r.error)
  {
    if rows == [] then Success([])
    else
      var before := Scan(rows[..|rows| - 1]);
      var last := rows[|rows| - 1];
      if before.Failure? then before
      else if last.Failure? then Failure(last.error)
      else Success(before.value + [last.value])
  }

  /** Reading succeeds exactly when every row does, and then yields every row's record in row order. */
  lemma {:induction false} ScanSucceeds(rows: seq<ScannedRow>)
    ensures Scan(rows).Success? <==> forall i :: 0 <= i < |rows| ==> rows[i].Success?
    ensures Scan(rows).Success? ==>
      |Scan(rows).value| == |rows| && forall i :: 0 <= i < |rows| ==> Scan(rows).value[i] == rows[i].value
  {
    if rows != [] {
      var init := rows[..|rows| - 1];
      ScanSucceeds(init);
      assert forall i :: 0 <= i < |init| ==> init[i] == rows[i];
    }
  }

  /** Reading fails with the error of the first failing row. */
  lemma {:induction false} ScanFailsAtFirstError(rows: seq<ScannedRow>, k: nat)
    requires k < |rows| && rows[k].Failure?
    requires forall i :: 0 <= i < k ==> rows[i].Success?
    ensures Scan(rows) == Failure(rows[k].error)
  {
    if k < |rows| - 1 {
      var init := rows[..|rows| - 1];
      ScanFailsAtFirstError(init, k);
    } else {
      ScanSucceeds(rows[..k]);
    }
  }

  /** A failure while reading a prefix of the rows is the failure of reading them all. */
  lemma {:induction false} ScanFailureExtends(rows: seq<ScannedRow>, n: nat)
    requires n <= |rows| && Scan(rows[..n]).Failure?
    ensures Scan(rows) == Scan(rows[..n])
    decreases |rows| - n
  {
    if n < |rows| {
      assert rows[..n + 1][..n] == rows[..n];
      ScanFailureExtends(rows, n + 1);
    } else {
      assert rows[..n] == rows;
    }
  }

  /**
   * ListVariables' rows loop: append each scanned record; on the first error
   * return no records and that error. No rows leave the result nil.
   */
  method CollectRows(rows: seq<ScannedRow>) returns (result: Slice<VariableWithUnixTimestamp>, err: Option<Error>)
    ensures Scan(rows).Failure? ==> result == Nil && err == Some(Scan(rows).error)
    ensures Scan(rows).Success? ==>
      err == None && result == (if rows == [] then Nil else Slice(Scan(rows).value))
  {
    result := Nil;
    var i := 0;
    while i < |rows|
      invariant 0 <= i <= |rows|
      invariant Scan(rows[..i]).Success?
      invariant result == (if i == 0 then Nil else Slice(Scan(rows[..i]).value))
    {
      assert rows[..i + 1][..i] == rows[..i];
      if rows[i].Failure? {
        ScanFailureExtends(rows, i + 1);
        return Nil, Some(rows[i].error);
      }
      result := Slice((if result.Nil? then [] else result.items) + [rows[i].value]);
      i := i + 1;
    }
    assert rows[..i] == rows;
    err := None;
  }

  /**
   * The relational adapter over an in-memory `variables` table. `table` holds
   * the rows under their primary key (user_id, variable_key).
   */
  class PgVariables {
    var table: Table

    ghost predicate Valid()
      reads this
    {
      WellKeyed(table)
    }

    constructor ()
      ensures Valid() && table == map[]
    {
      table := map[];
    }

    /** GetVariable: the stored row, or for a missing row the sentinel and no error. */
    method GetVariable(userId: string, key: string) returns (result: VariableWithUser)
      requires Valid()
      ensures result == Lookup(table, userId, key)
      ensures RowKey(userId, key) !in table ==> result == NotFound(userId, key)
    {
      var rk := RowKey(userId, key);
      if rk in table {
        result := table[rk];
      } else {
        result := VariableWithUser(VariableWithUnixTimestamp(Variable(key, Null, "", ""), 0), userId);
      }
    }

    /** SetVariable: insert, or on a conflicting (user_id, variable_key) replace ids, time and value. */
    method SetVariable(variable: VariableWithUser)
      requires Valid()
      modifies this
      ensures Valid()
      ensures table == Upsert(old(table), variable)
    {
      table := table[KeyOf(variable) := variable];
    }

    /** DeleteVariable: removes the row (user_id, variable_key) if there is one. */
    method DeleteVariable(userId: string, key: string)
      requires Valid()
      modifies this
      ensures Valid()
      ensures table == Remove(old(table), userId, key)
    {
      table := table - {RowKey(userId, key)};
    }

    /**
     * ListVariables: build the query, let `run` execute it against the table,
     * and read the rows it answers. `run` stands for the database server. The
     * query is the corrected one, with AND between the WHERE conditions.
     */
    method ListVariables(
      userId: string, q: VariablesQueryOptions,
      run: (Table, string, seq<Arg>) -> Result<seq<ScannedRow>, Error>)
      returns (result: Slice<VariableWithUnixTimestamp>, err: Option<Error>)
      ensures var sql := ListQuery(userId, q, AndConnective);
        var answer := run(table, sql.Text(), sql.args);
        && (answer.Failure? ==> result == Nil && err == Some(answer.error))
        && (answer.Success? && Scan(answer.value).Failure? ==>
              result == Nil && err == Some(Scan(answer.value).error))
        && (answer.Success? && Scan(answer.value).Success? ==>
              err == None && result == (if answer.value == [] then Nil else Slice(Scan(answer.value).value)))
    {
      var query, args := BuildListQuery(userId, q, AndConnective);
      var answer := run(table, query, args);
      if answer.Failure? {
        return Nil, Some(answer.error);
      }
      result, err := CollectRows(answer.value);
    }

    /** DeleteVariablesOfProcessDefinition: removes every row of the definition, for every user. */
    method DeleteVariablesOfProcessDefinition(definitionId: string)
      requires Valid()
      modifies this
      ensures Valid()
      ensures table == RemoveDefinition(old(table), definitionId)
    {
      table := map rk | rk in table && table[rk].ProcessDefinitionId() != definitionId :: table[rk];
    }

    /** DeleteVariablesOfProcessInstance: removes every row of the instance, for every user. */
    method DeleteVariablesOfProcessInstance(instanceId: string)
      requires Valid()
      modifies this
      ensures Valid()
      ensures table == RemoveInstance(old(table), instanceId)
    {
      table := map rk | rk in table && table[rk].ProcessInstanceId() != instanceId :: table[rk];
    }
  }
}
