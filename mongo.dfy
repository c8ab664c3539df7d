/**
 * The document adapter: a collection of VariableWithUser documents with a
 * unique index on (user id, key), queried and deleted through field filters.
 */
module Mongo {
  import opened Wrappers
  import opened Model
  import opened Store

  /** The document fields a filter can name. */
  datatype Field = UserIdField | KeyField | ProcessDefinitionIdField | ProcessInstanceIdField

  /** A filter document: every named field must equal the given value. */
  type Filter = map<Field, string>

  function FieldValue(d: VariableWithUser, f: Field): string {
    match f
    case UserIdField => d.userId
    case KeyField => d.Key()
    case ProcessDefinitionIdField => d.ProcessDefinitionId()
    case ProcessInstanceIdField => d.ProcessInstanceId()
  }

  predicate Matches(d: VariableWithUser, filter: Filter) {
    forall f :: f in filter ==> FieldValue(d, f) == filter[f]
  }

  /** The filter of GetVariable, SetVariable and DeleteVariable: the user id and the key. */
  function KeyFilter(userId: string, key: string): (filter: Filter)
    ensures forall d :: Matches(d, filter) <==> KeyOf(d) == RowKey(userId, key)
  {
    var filter := map[UserIdField := userId, KeyField := key];
    assert forall d :: Matches(d, filter) ==> FieldValue(d, UserIdField) == userId && FieldValue(d, KeyField) == key;
    filter
  }

  /** The filter of DeleteVariablesOfProcessDefinition: the definition id alone, no user. */
  function DefinitionFilter(definitionId: string): (filter: Filter)
    ensures forall d :: Matches(d, filter) <==> d.ProcessDefinitionId() == definitionId
  {
    var filter := map[ProcessDefinitionIdField := definitionId];
    assert forall d :: Matches(d, filter) ==> FieldValue(d, ProcessDefinitionIdField) == definitionId;
    filter
  }

  /** The filter of DeleteVariablesOfProcessInstance: the instance id alone, no user. */
  function InstanceFilter(instanceId: string): (filter: Filter)
    ensures forall d :: Matches(d, filter) <==> d.ProcessInstanceId() == instanceId
  {
    var filter := map[ProcessInstanceIdField := instanceId];
    assert forall d :: Matches(d, filter) ==> FieldValue(d, ProcessInstanceIdField) == instanceId;
    filter
  }

  /** The filter ListVariables and CountVariables build: the user id, and each query id that is not empty. */
  function QueryFilter(userId: string, q: VariablesQueryOptions): (filter: Filter)
    ensures UserIdField in filter && filter[UserIdField] == userId
    ensures KeyField !in filter
    ensures ProcessDefinitionIdField in filter <==> q.processDefinitionId != ""
    ensures ProcessInstanceIdField in filter <==> q.processInstanceId != ""
  {
    var withUser := map[UserIdField := userId];
    var withDefinition :=
      if q.processDefinitionId != "" then withUser[ProcessDefinitionIdField := q.processDefinitionId] else withUser;
    if q.processInstanceId != "" then withDefinition[ProcessInstanceIdField := q.processInstanceId] else withDefinition
  }

  /** A document passes the list filter exactly when it belongs to the listing of the storage contract. */
  lemma QueryFilterMatches(d: VariableWithUser, userId: string, q: VariablesQueryOptions)
    ensures Matches(d, QueryFilter(userId, q)) <==> MatchesQuery(d, userId, q)
  {
    var filter := QueryFilter(userId, q);
    if Matches(d, filter) {
      assert FieldValue(d, UserIdField) == userId;
      if q.processDefinitionId != "" {
        assert FieldValue(d, ProcessDefinitionIdField) == q.processDefinitionId;
      }
      if q.processInstanceId != "" {
        assert FieldValue(d, ProcessInstanceIdField) == q.processInstanceId;
      }
    }
  }

  /** The documents a filter matches, in collection order. */
  function Select(docs: seq<VariableWithUser>, filter: Filter): (r: seq<VariableWithUser>)
    ensures forall d :: d in r <==> d in docs && Matches(d, filter)
    ensures |r| <= |docs|
  {
    if docs == [] then []
    else
      var init := Select(docs[..|docs| - 1], filter);
      var last := docs[|docs| - 1];
      assert docs == docs[..|docs| - 1] + [last];
      if Matches(last, filter) then init + [last] else init
  }

  /** The documents a filter does not match, in collection order: what DeleteMany leaves. */
  function Reject(docs: seq<VariableWithUser>, filter: Filter): (r: seq<VariableWithUser>)
    ensures forall d :: d in r <==> d in docs && !Matches(d, filter)
    ensures |r| <= |docs|
  {
    if docs == [] then []
    else
      var init := Reject(docs[..|docs| - 1], filter);
      var last := docs[|docs| - 1];
      assert docs == docs[..|docs| - 1] + [last];
      if Matches(last, filter) then init else init + [last]
  }

  /** Selecting from a concatenation selects from each part, keeping the parts in order. */
  lemma {:induction false} SelectAppend(a: seq<VariableWithUser>, b: seq<VariableWithUser>, filter: Filter)
    ensures Select(a + b, filter) == Select(a, filter) + Select(b, filter)
  {
    if b == [] {
      assert a + b == a;
    } else {
      var init := b[..|b| - 1];
      assert (a + b)[..|a + b| - 1] == a + init;
      assert (a + b)[|a + b| - 1] == b[|b| - 1];
      SelectAppend(a, init, filter);
    }
  }

  /** One document is selected exactly when the filter matches it. */
  lemma SelectOne(d: VariableWithUser, filter: Filter)
    ensures Select([d], filter) == if Matches(d, filter) then [d] else []
  {
    assert [d][..0] == [];
  }

  /** Rejecting from a concatenation rejects from each part, keeping the parts in order. */
  lemma {:induction false} RejectAppend(a: seq<VariableWithUser>, b: seq<VariableWithUser>, filter: Filter)
    ensures Reject(a + b, filter) == Reject(a, filter) + Reject(b, filter)
  {
    if b == [] {
      assert a + b == a;
    } else {
      var init := b[..|b| - 1];
      assert (a + b)[..|a + b| - 1] == a + init;
      assert (a + b)[|a + b| - 1] == b[|b| - 1];
      RejectAppend(a, init, filter);
    }
  }

  /** One document stays exactly when the filter does not match it. */
  lemma RejectOne(d: VariableWithUser, filter: Filter)
    ensures Reject([d], filter) == if Matches(d, filter) then [] else [d]
  {
    assert [d][..0] == [];
  }

  /** The first document a filter matches, as FindOne returns it. */
  function FindFirst(docs: seq<VariableWithUser>, filter: Filter): (r: Option<nat>)
    ensures r.Some? ==> r.value < |docs| && Matches(docs[r.value], filter)
    ensures r.Some? ==> forall j :: 0 <= j < r.value ==> !Matches(docs[j], filter)
    ensures r.None? ==> forall d :: d in docs ==> !Matches(d, filter)
  {
    if docs == [] then None
    else if Matches(docs[0], filter) then Some(0)
    else
      match FindFirst(docs[1..], filter)
      case None => None
      case Some(i) => Some(i + 1)
  }

  /** What the unique (user id, key) index enforces: no two documents share a user id and key. */
  predicate UniqueKeys(docs: seq<VariableWithUser>) {
    forall i, j :: 0 <= i < j < |docs| ==> KeyOf(docs[i]) != KeyOf(docs[j])
  }

  /** The collection seen as the storage contract's table. */
  function TableOf(docs: seq<VariableWithUser>): Table {
    if docs == [] then map[]
    else TableOf(docs[..|docs| - 1])[KeyOf(docs[|docs| - 1]) := docs[|docs| - 1]]
  }

  /** The table of a collection files each document under its own key, and holds nothing else. */
  lemma {:induction false} TableOfContents(docs: seq<VariableWithUser>)
    requires UniqueKeys(docs)
    ensures WellKeyed(TableOf(docs))
    ensures forall rk :: rk in TableOf(docs) ==> TableOf(docs)[rk] in docs
    ensures forall d :: d in docs ==> KeyOf(d) in TableOf(docs) && TableOf(docs)[KeyOf(d)] == d
  {
    if docs != [] {
      var init := docs[..|docs| - 1];
      var last := docs[|docs| - 1];
      assert docs == init + [last];
      TableOfContents(init);
      forall d | d in init
        ensures KeyOf(d) != KeyOf(last)
      {
        var i :| 0 <= i < |init| && init[i] == d;
        assert docs[i] == d;
      }
    }
  }

  /** Removing a subsequence keeps keys unique. */
  lemma {:induction false} RejectUnique(docs: seq<VariableWithUser>, filter: Filter)
    requires UniqueKeys(docs)
    ensures UniqueKeys(Reject(docs, filter))
  {
    if docs != [] {
      var init := docs[..|docs| - 1];
      var last := docs[|docs| - 1];
      RejectUnique(init, filter);
      forall d | d in init
        ensures KeyOf(d) != KeyOf(last)
      {
        var i :| 0 <= i < |init| && init[i] == d;
        assert docs[i] == d;
      }
    }
  }

  /** DeleteMany over the table: every record the filter matches is gone, the rest stay as they were. */
  function DeleteMatching(t: Table, filter: Filter): (r: Table)
    ensures forall rk :: rk in r <==> rk in t && !Matches(t[rk], filter)
    ensures forall rk :: rk in r ==> r[rk] == t[rk]
  {
    map rk | rk in t && !Matches(t[rk], filter) :: t[rk]
  }

  /** The last document of a collection with unique keys has a key the rest of the collection does not use. */
  lemma LastKeyIsNew(docs: seq<VariableWithUser>)
    requires UniqueKeys(docs) && docs != []
    ensures UniqueKeys(docs[..|docs| - 1])
    ensures KeyOf(docs[|docs| - 1]) !in TableOf(docs[..|docs| - 1])
  {
    var init := docs[..|docs| - 1];
    var last := docs[|docs| - 1];
    assert UniqueKeys(init) by {
      forall a, b | 0 <= a < b < |init|
        ensures KeyOf(init[a]) != KeyOf(init[b])
      {
        assert init[a] == docs[a] && init[b] == docs[b];
      }
    }
    TableOfContents(init);
  }

  /** DeleteMany over a table with one more record: the new record goes exactly when the filter matches it. */
  lemma DeleteMatchingInsert(t: Table, v: VariableWithUser, filter: Filter)
    requires KeyOf(v) !in t
    ensures DeleteMatching(t[KeyOf(v) := v], filter) ==
      if Matches(v, filter) then DeleteMatching(t, filter) else DeleteMatching(t, filter)[KeyOf(v) := v]
  {
  }

  /** Deleting the matching documents deletes the matching records of the table. */
  lemma {:induction false} TableOfReject(docs: seq<VariableWithUser>, filter: Filter)
    requires UniqueKeys(docs)
    ensures TableOf(Reject(docs, filter)) == DeleteMatching(TableOf(docs), filter)
  {
    if docs != [] {
      var init := docs[..|docs| - 1];
      var last := docs[|docs| - 1];
      LastKeyIsNew(docs);
      TableOfReject(init, filter);
      DeleteMatchingInsert(TableOf(init), last, filter);
      if !Matches(last, filter) {
        var r := Reject(init, filter) + [last];
        assert r[..|r| - 1] == Reject(init, filter);
      }
    }
  }

  /** DeleteVariable's filter deletes exactly the record of the user id and key. */
  lemma RemoveByKeyFilter(t: Table, userId: string, key: string)
    requires WellKeyed(t)
    ensures Remove(t, userId, key) == DeleteMatching(t, KeyFilter(userId, key))
  {
  }

  /** The definition filter deletes exactly the records of the definition. */
  lemma RemoveByDefinitionFilter(t: Table, definitionId: string)
    requires WellKeyed(t)
    ensures RemoveDefinition(t, definitionId) == DeleteMatching(t, DefinitionFilter(definitionId))
  {
  }

  /** The instance filter deletes exactly the records of the instance. */
  lemma RemoveByInstanceFilter(t: Table, instanceId: string)
    requires WellKeyed(t)
    ensures RemoveInstance(t, instanceId) == DeleteMatching(t, InstanceFilter(instanceId))
  {
  }

  /** A filter that matches no document selects nothing. */
  lemma {:induction false} SelectNone(docs: seq<VariableWithUser>, filter: Filter)
    requires forall d :: d in docs ==> !Matches(d, filter)
    ensures Select(docs, filter) == []
  {
    if docs != [] {
      assert docs[|docs| - 1] in docs;
      SelectNone(docs[..|docs| - 1], filter);
    }
  }

  /** The documents for one user id and key: at most one, thanks to the unique index. */
  lemma {:induction false} SelectKey(docs: seq<VariableWithUser>, v: VariableWithUser)
    requires UniqueKeys(docs) && v in docs
    ensures Select(docs, KeyFilter(v.userId, v.Key())) == [v]
  {
    var init := docs[..|docs| - 1];
    var last := docs[|docs| - 1];
    assert docs == init + [last];
    var filter := KeyFilter(v.userId, v.Key());
    if last == v {
      forall d | d in init
        ensures !Matches(d, filter)
      {
        var i :| 0 <= i < |init| && init[i] == d;
        assert docs[i] == d;
      }
      SelectNone(init, filter);
    } else {
      assert v in init;
      var i :| 0 <= i < |init| && init[i] == v;
      assert docs[i] == v;
      SelectKey(init, v);
    }
  }

  /** Replacing a document by one with the same user id and key replaces that record of the table. */
  lemma ReplaceInTable(docs: seq<VariableWithUser>, i: nat, v: VariableWithUser)
    requires UniqueKeys(docs) && i < |docs| && KeyOf(docs[i]) == KeyOf(v)
    ensures UniqueKeys(docs[i := v])
    ensures TableOf(docs[i := v]) == TableOf(docs)[KeyOf(v) := v]
  {
    var after := docs[i := v];
    assert UniqueKeys(after) by {
      forall a, b | 0 <= a < b < |after|
        ensures KeyOf(after[a]) != KeyOf(after[b])
      {
        assert KeyOf(after[a]) == KeyOf(docs[a]) && KeyOf(after[b]) == KeyOf(docs[b]);
      }
    }
    TableOfContents(docs);
    TableOfContents(after);
    var expected := TableOf(docs)[KeyOf(v) := v];
    forall rk | rk in TableOf(after)
      ensures rk in expected && TableOf(after)[rk] == expected[rk]
    {
      var d := TableOf(after)[rk];
      var j :| 0 <= j < |after| && after[j] == d;
      if j != i {
        assert docs[j] == d;
      }
    }
    forall rk | rk in expected
      ensures rk in TableOf(after)
    {
      if rk != KeyOf(v) {
        var d := TableOf(docs)[rk];
        var j :| 0 <= j < |docs| && docs[j] == d;
        assert j != i && after[j] == d;
      } else {
        assert after[i] == v;
      }
    }
  }

  /** Appending a document with a new user id and key adds that record to the table. */
  lemma AppendToTable(docs: seq<VariableWithUser>, v: VariableWithUser)
    requires UniqueKeys(docs) && forall d :: d in docs ==> !Matches(d, KeyFilter(v.userId, v.Key()))
    ensures UniqueKeys(docs + [v])
    ensures TableOf(docs + [v]) == TableOf(docs)[KeyOf(v) := v]
  {
    var after := docs + [v];
    assert after[..|after| - 1] == docs;
    forall a | 0 <= a < |docs|
      ensures KeyOf(after[a]) != KeyOf(v)
    {
      assert after[a] == docs[a] && docs[a] in docs;
    }
  }

  /** The matching records of a table with one more record: the new key joins exactly when the record matches. */
  lemma MatchingKeysInsert(t: Table, v: VariableWithUser, userId: string, q: VariablesQueryOptions)
    requires KeyOf(v) !in t
    ensures MatchingKeys(t[KeyOf(v) := v], userId, q) ==
      MatchingKeys(t, userId, q) + (if MatchesQuery(v, userId, q) then {KeyOf(v)} else {})
    ensures KeyOf(v) !in MatchingKeys(t, userId, q)
  {
  }

  /** The documents matching a list filter correspond one to one with the matching records of the table. */
  lemma {:induction false} CountSelect(docs: seq<VariableWithUser>, userId: string, q: VariablesQueryOptions)
    requires UniqueKeys(docs)
    ensures |Select(docs, QueryFilter(userId, q))| == CountMatching(TableOf(docs), userId, q)
  {
    if docs != [] {
      var init := docs[..|docs| - 1];
      var last := docs[|docs| - 1];
      LastKeyIsNew(docs);
      CountSelect(init, userId, q);
      QueryFilterMatches(last, userId, q);
      MatchingKeysInsert(TableOf(init), last, userId, q);
    }
  }

  /** The records of a listing: each document without its user id. */
  function WithoutUser(docs: seq<VariableWithUser>): (r: seq<VariableWithUnixTimestamp>)
    ensures |r| == |docs| && forall i :: 0 <= i < |docs| ==> r[i] == docs[i].stamped
  {
    seq(|docs|, i requires 0 <= i < |docs| => docs[i].stamped)
  }

  /**
   * The document adapter over an in-memory collection. `docs` holds the
   * documents in collection order; the unique index keeps (user id, key) unique.
   */
  class MongoVariables {
    var docs: seq<VariableWithUser>

    ghost predicate Valid()
      reads this
    {
      UniqueKeys(docs)
    }

    /** The collection seen as the storage contract's table. */
    function Table(): Table
      reads this
    {
      TableOf(docs)
    }

    constructor ()
      ensures Valid() && docs == []
    {
      docs := [];
    }

    /** GetVariable: the document for the user id and key, or the not-found sentinel and no error. */
    method GetVariable(userId: string, key: string) returns (result: VariableWithUser)
      requires Valid()
      ensures WellKeyed(Table()) && result == Lookup(Table(), userId, key)
    {
      TableOfContents(docs);
      var found := FindFirst(docs, KeyFilter(userId, key));
      if found.None? {
        return VariableWithUser(VariableWithUnixTimestamp(Variable(key, Null, "", ""), 0), userId);
      }
      result := docs[found.value];
    }

    /**
     * SetVariable: ReplaceOne with upsert on the user id and key: the matching
     * document is replaced, or the variable is appended when there is none.
     */
    method SetVariable(variable: VariableWithUser)
      requires Valid()
      modifies this
      ensures Valid()
      ensures WellKeyed(old(Table())) && Table() == Upsert(old(Table()), variable)
      ensures Select(docs, KeyFilter(variable.userId, variable.Key())) == [variable]
      ensures match FindFirst(old(docs), KeyFilter(variable.userId, variable.Key()))
        case Some(i) => i < |old(docs)| && docs == old(docs)[i := variable]
        case None => docs == old(docs) + [variable]
    {
      TableOfContents(docs);
      var found := FindFirst(docs, KeyFilter(variable.userId, variable.Key()));
      if found.Some? {
        ReplaceInTable(docs, found.value, variable);
        docs := docs[found.value := variable];
        assert docs[found.value] == variable;
      } else {
        AppendToTable(docs, variable);
        docs := docs + [variable];
      }
      assert variable in docs;
      SelectKey(docs, variable);
    }

    /** DeleteVariable: DeleteMany on the user id and key. */
    method DeleteVariable(userId: string, key: string)
      requires Valid()
      modifies this
      ensures Valid()
      ensures WellKeyed(old(Table())) && Table() == Remove(old(Table()), userId, key)
      ensures docs == Reject(old(docs), KeyFilter(userId, key))
    {
      TableOfContents(docs);
      RemoveByKeyFilter(Table(), userId, key);
      RejectUnique(docs, KeyFilter(userId, key));
      TableOfReject(docs, KeyFilter(userId, key));
      docs := Reject(docs, KeyFilter(userId, key));
    }

    /**
     * ListVariables: every document that passes the list filter, in cursor
     * order, each without its user id; nil when nothing matches.
     */
    method ListVariables(userId: string, q: VariablesQueryOptions) returns (result: Slice<VariableWithUnixTimestamp>)
      requires Valid()
      ensures var found := Select(docs, QueryFilter(userId, q));
        result == (if found == [] then Nil else Slice(WithoutUser(found)))
    {
      var filter := map[UserIdField := userId];
      if q.processDefinitionId != "" {
        filter := filter[ProcessDefinitionIdField := q.processDefinitionId];
      }
      if q.processInstanceId != "" {
        filter := filter[ProcessInstanceIdField := q.processInstanceId];
      }
      var found := Select(docs, filter);
      result := Nil;
      for i := 0 to |found|
        invariant result == (if i == 0 then Nil else Slice(WithoutUser(found[..i])))
      {
        result := Slice((if result.Nil? then [] else result.items) + [found[i].stamped]);
      }
      assert found[..|found|] == found;
    }

    /** CountVariables: the number of documents that pass the list filter; sort, paging and key pattern play no part. */
    method CountVariables(userId: string, q: VariablesQueryOptions) returns (count: nat)
      requires Valid()
      ensures count == CountMatching(Table(), userId, q)
    {
      var filter := map[UserIdField := userId];
      if q.processDefinitionId != "" {
        filter := filter[ProcessDefinitionIdField := q.processDefinitionId];
      }
      if q.processInstanceId != "" {
        filter := filter[ProcessInstanceIdField := q.processInstanceId];
      }
      assert filter == QueryFilter(userId, q);
      CountSelect(docs, userId, q);
      count := |Select(docs, filter)|;
    }

    /** DeleteVariablesOfProcessDefinition: DeleteMany on the definition id, for every user. */
    method DeleteVariablesOfProcessDefinition(definitionId: string)
      requires Valid()
      modifies this
      ensures Valid()
      ensures WellKeyed(old(Table())) && Table() == RemoveDefinition(old(Table()), definitionId)
      ensures docs == Reject(old(docs), DefinitionFilter(definitionId))
    {
      TableOfContents(docs);
      RemoveByDefinitionFilter(Table(), definitionId);
      RejectUnique(docs, DefinitionFilter(definitionId));
      TableOfReject(docs, DefinitionFilter(definitionId));
      docs := Reject(docs, DefinitionFilter(definitionId));
    }

    /** DeleteVariablesOfProcessInstance: DeleteMany on the instance id, for every user. */
    method DeleteVariablesOfProcessInstance(instanceId: string)
      requires Valid()
      modifies this
      ensures Valid()
      ensures WellKeyed(old(Table())) && Table() == RemoveInstance(old(Table()), instanceId)
      ensures docs == Reject(old(docs), InstanceFilter(instanceId))
    {
      TableOfContents(docs);
      RemoveByInstanceFilter(Table(), instanceId);
      RejectUnique(docs, InstanceFilter(instanceId));
      TableOfReject(docs, InstanceFilter(instanceId));
      docs := Reject(docs, InstanceFilter(instanceId));
    }
  }

  /** A listing holds exactly the records of the table that the storage contract's list filter selects. */
  lemma ListedAreMatching(docs: seq<VariableWithUser>, userId: string, q: VariablesQueryOptions, v: VariableWithUser)
    requires UniqueKeys(docs)
    ensures WellKeyed(TableOf(docs))
    ensures v in Select(docs, QueryFilter(userId, q)) <==>
      KeyOf(v) in TableOf(docs) && TableOf(docs)[KeyOf(v)] == v && MatchesQuery(v, userId, q)
  {
    TableOfContents(docs);
    QueryFilterMatches(v, userId, q);
  }
}
