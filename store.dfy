/**
 * The storage contract both database adapters implement: one record per
 * (user id, key), a not-found sentinel instead of an error, upsert, idempotent
 * delete, filters for list and count, and cascades that ignore the user.
 */
module Store {
  import opened Decimal
  import opened Model

  /** The unique key of a stored record: its owner and its variable key. */
  datatype RowKey = RowKey(userId: string, key: string)

  type Table = map<RowKey, VariableWithUser>

  function KeyOf(v: VariableWithUser): RowKey {
    RowKey(v.userId, v.Key())
  }

  /** Every record is filed under its own (user id, key). */
  ghost predicate WellKeyed(t: Table) {
    forall rk :: rk in t ==> KeyOf(t[rk]) == rk
  }

  /** What GetVariable returns for a missing record: key and user set, value null, no ids, time 0. */
  function NotFound(userId: string, key: string): VariableWithUser {
    VariableWithUser(VariableWithUnixTimestamp(Variable(key, Null, "", ""), 0), userId)
  }

  /** GetVariable over the table. */
  function Lookup(t: Table, userId: string, key: string): (r: VariableWithUser)
    requires WellKeyed(t)
    ensures KeyOf(r) == RowKey(userId, key)
    ensures RowKey(userId, key) in t ==> r == t[RowKey(userId, key)]
    ensures RowKey(userId, key) !in t ==>
      r.stamped.variable.value == Null && r.stamped.unixTimestampInS == 0 &&
      r.ProcessDefinitionId() == "" && r.ProcessInstanceId() == ""
  {
    var rk := RowKey(userId, key);
    if rk in t then t[rk] else NotFound(userId, key)
  }

  /** SetVariable: insert, or replace every column of the record with the same (user id, key). */
  function Upsert(t: Table, v: VariableWithUser): (r: Table)
    requires WellKeyed(t)
    ensures WellKeyed(r)
    ensures r.Keys == t.Keys + {KeyOf(v)}
    ensures r[KeyOf(v)] == v
    ensures forall rk :: rk in t && rk != KeyOf(v) ==> r[rk] == t[rk]
  {
    t[KeyOf(v) := v]
  }

  /** DeleteVariable: the record (user id, key) is gone, whether or not it was there. */
  function Remove(t: Table, userId: string, key: string): (r: Table)
    requires WellKeyed(t)
    ensures WellKeyed(r)
    ensures r.Keys == t.Keys - {RowKey(userId, key)}
    ensures forall rk :: rk in r ==> r[rk] == t[rk]
  {
    t - {RowKey(userId, key)}
  }

  /** DeleteVariablesOfProcessDefinition: every record tagged with the definition goes, whoever owns it. */
  function RemoveDefinition(t: Table, definitionId: string): (r: Table)
    requires WellKeyed(t)
    ensures WellKeyed(r)
    ensures forall rk :: rk in r <==> rk in t && t[rk].ProcessDefinitionId() != definitionId
    ensures forall rk :: rk in r ==> r[rk] == t[rk]
  {
    map rk | rk in t && t[rk].ProcessDefinitionId() != definitionId :: t[rk]
  }

  /** DeleteVariablesOfProcessInstance: every record tagged with the instance goes, whoever owns it. */
  function RemoveInstance(t: Table, instanceId: string): (r: Table)
    requires WellKeyed(t)
    ensures WellKeyed(r)
    ensures forall rk :: rk in r <==> rk in t && t[rk].ProcessInstanceId() != instanceId
    ensures forall rk :: rk in r ==> r[rk] == t[rk]
  {
    map rk | rk in t && t[rk].ProcessInstanceId() != instanceId :: t[rk]
  }

  /**
   * The filter list and count apply: the owner, and each id of the query that
   * is not empty. The key pattern is not part of it.
   */
  predicate MatchesQuery(v: VariableWithUser, userId: string, q: VariablesQueryOptions): (b: bool)
    ensures b ==> v.userId == userId
    ensures q.processDefinitionId == "" && q.processInstanceId == "" ==> (b <==> v.userId == userId)
  {
    && v.userId == userId
    && (q.processDefinitionId != "" ==> v.ProcessDefinitionId() == q.processDefinitionId)
    && (q.processInstanceId != "" ==> v.ProcessInstanceId() == q.processInstanceId)
  }

  function MatchingKeys(t: Table, userId: string, q: VariablesQueryOptions): set<RowKey> {
    set rk | rk in t && MatchesQuery(t[rk], userId, q)
  }

  /** CountVariables: the number of records the filter matches. */
  function CountMatching(t: Table, userId: string, q: VariablesQueryOptions): (n: nat)
    ensures n <= |t|
  {
    var keys := MatchingKeys(t, userId, q);
    assert keys <= t.Keys;
    SubsetCard(keys, t.Keys);
    |keys|
  }

  lemma SubsetCard<T>(a: set<T>, b: set<T>)
    requires a <= b
    ensures |a| <= |b|
  {
    if a != {} {
      var x :| x in a;
      SubsetCard(a - {x}, b - {x});
    }
  }

  /** After an upsert, reading the same (user id, key) gives the written record; every other read is unchanged. */
  lemma LookupAfterUpsert(t: Table, v: VariableWithUser, userId: string, key: string)
    requires WellKeyed(t)
    ensures Lookup(Upsert(t, v), userId, key) ==
      if RowKey(userId, key) == KeyOf(v) then v else Lookup(t, userId, key)
  {
  }

  /** Writing the same key twice leaves one record, the second one. */
  lemma UpsertTwice(t: Table, v1: VariableWithUser, v2: VariableWithUser)
    requires WellKeyed(t) && KeyOf(v1) == KeyOf(v2)
    ensures Upsert(Upsert(t, v1), v2) == Upsert(t, v2)
    ensures |Upsert(Upsert(t, v1), v2)| == |Upsert(t, v1)|
  {
  }

  /** A write by one user is invisible to every other user. */
  lemma UsersAreIsolated(t: Table, v: VariableWithUser, other: string, key: string)
    requires WellKeyed(t) && other != v.userId
    ensures Lookup(Upsert(t, v), other, key) == Lookup(t, other, key)
  {
  }

  /** Deleting is idempotent, and a deleted key reads as the sentinel. */
  lemma RemoveIdempotent(t: Table, userId: string, key: string)
    requires WellKeyed(t)
    ensures Remove(Remove(t, userId, key), userId, key) == Remove(t, userId, key)
    ensures Lookup(Remove(t, userId, key), userId, key) == NotFound(userId, key)
  {
  }

  /** A count never sees a record whose process definition was cascaded away. */
  lemma CountAfterRemoveDefinition(t: Table, definitionId: string, userId: string, q: VariablesQueryOptions)
    requires WellKeyed(t) && q.processDefinitionId == definitionId && definitionId != ""
    ensures CountMatching(RemoveDefinition(t, definitionId), userId, q) == 0
  {
    assert MatchingKeys(RemoveDefinition(t, definitionId), userId, q) == {};
  }
}
