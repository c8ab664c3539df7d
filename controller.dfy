/**
 * The controller between the HTTP handlers and the database: computed keys go
 * to the calculator, everything else to the store, and a bulk request runs its
 * writes before its reads.
 */
module Controller {
  import opened Wrappers
  import opened Strings
  import opened Decimal
  import opened Model
  import opened Store

  /** Keys starting with this prefix are computed, never stored. */
  const CalculatePrefix: string := "calculate_"

  /** A call the controller makes on the database, as far as it can fail. */
  datatype StoreCall =
    | GetCall(userId: string, key: string)
    | SetCall(variable: VariableWithUser)
    | DeleteCall(userId: string, key: string)
    | ListCall(userId: string, query: VariablesQueryOptions)
    | CountCall(userId: string, query: VariablesQueryOptions)
    | DeleteDefinitionCall(definitionId: string)
    | DeleteInstanceCall(instanceId: string)

  /**
   * What the controller depends on besides the store: the wall clock read when
   * a computed key is answered, the configured clock that stamps writes, the
   * calculator, which database calls fail and with what error, and the order
   * and page in which the database answers a listing.
   */
  datatype Env = Env(
    wallClock: Int64,
    configuredClock: Int64,
    calculate: string -> Result<Json, Error>,
    fault: StoreCall -> Option<Error>,
    listing: (Table, string, VariablesQueryOptions) -> Slice<VariableWithUnixTimestamp>)

  /**
   * What every backend's listing promises: each listed entry is the record of
   * a stored variable that passes the list filter, without its user id.
   */
  ghost predicate ListsFromStore(env: Env) {
    forall t: Table, userId: string, q: VariablesQueryOptions, x ::
      x in Items(env.listing(t, userId, q)) ==>
        exists rk :: rk in t && t[rk].stamped == x && MatchesQuery(t[rk], userId, q)
  }

  /** The zero value a failed Get returns beside its error. */
  const NoVariable: VariableWithUnixTimestamp := VariableWithUnixTimestamp(Variable("", Null, "", ""), 0)

  /** What Set writes: the caller's variable, stamped with the configured clock and owned by the caller. */
  function Stamp(env: Env, userId: string, variable: Variable): (stored: VariableWithUser)
    ensures stored.stamped.variable == variable
    ensures stored.stamped.unixTimestampInS == env.configuredClock
    ensures stored.userId == userId
    ensures KeyOf(stored) == RowKey(userId, variable.key)
  {
    VariableWithUser(VariableWithUnixTimestamp(variable, env.configuredClock), userId)
  }

  /** Get: a computed key is answered by the calculator at the wall-clock time; any other key by the store. */
  function GetSpec(env: Env, t: Table, userId: string, key: string): (r: (VariableWithUnixTimestamp, Option<Error>))
    requires WellKeyed(t)
    ensures HasPrefix(key, CalculatePrefix) && env.calculate(key).Success? ==>
      r == (VariableWithUnixTimestamp(Variable(key, env.calculate(key).value, "", ""), env.wallClock), None)
    ensures HasPrefix(key, CalculatePrefix) && env.calculate(key).Failure? ==>
      r == (NoVariable, Some(env.calculate(key).error))
    ensures !HasPrefix(key, CalculatePrefix) && env.fault(GetCall(userId, key)).Some? ==>
      r == (NoVariable, env.fault(GetCall(userId, key)))
    ensures !HasPrefix(key, CalculatePrefix) && env.fault(GetCall(userId, key)).None? ==>
      r.1 == None && r.0.variable.key == key &&
      (RowKey(userId, key) in t ==> r.0 == t[RowKey(userId, key)].stamped) &&
      (RowKey(userId, key) !in t ==> r.0 == VariableWithUnixTimestamp(Variable(key, Null, "", ""), 0))
  {
    if HasPrefix(key, CalculatePrefix) then
      match env.calculate(key)
      case Failure(e) => (NoVariable, Some(e))
      case Success(value) =>
        (VariableWithUnixTimestamp(Variable(key, value, "", ""), env.wallClock), None)
    else
      match env.fault(GetCall(userId, key))
      case Some(e) => (NoVariable, Some(e))
      case None => (Lookup(t, userId, key).stamped, None)
  }

  /** One Set of a bulk request: the stamped variable is upserted, or the store is left as it was on an error. */
  function SetStep(env: Env, t: Table, userId: string, variable: Variable): (r: (Table, Option<Error>))
    requires WellKeyed(t)
    ensures WellKeyed(r.0)
    ensures r.1 == env.fault(SetCall(Stamp(env, userId, variable)))
    ensures r.1.None? ==> r.0 == Upsert(t, Stamp(env, userId, variable))
    ensures r.1.Some? ==> r.0 == t
  {
    var stored := Stamp(env, userId, variable);
    match env.fault(SetCall(stored))
    case Some(e) => (t, Some(e))
    case None => (Upsert(t, stored), None)
  }

  /** The Set loop of Bulk: the variables in order, stopping at the first that fails. */
  function ApplySets(env: Env, t: Table, userId: string, variables: seq<Variable>): (r: (Table, Option<Error>))
    requires WellKeyed(t)
    ensures WellKeyed(r.0)
    ensures forall rk :: rk in t ==> rk in r.0
    ensures forall rk :: rk in t && rk.userId != userId ==> r.0[rk] == t[rk]
    ensures r.1.Some? ==> exists k :: 0 <= k < |variables| && r.1 == env.fault(SetCall(Stamp(env, userId, variables[k])))
  {
    if variables == [] then (t, None)
    else
      var before := ApplySets(env, t, userId, variables[..|variables| - 1]);
      if before.1.Some? then before
      else SetStep(env, before.0, userId, variables[|variables| - 1])
  }

  /** The items of a Go slice; a nil slice has none. */
  function Items<T>(s: Slice<T>): seq<T> {
    if s.Nil? then [] else s.items
  }

  /**
   * The Get loop of Bulk: one entry per key, in order, stopping at the first
   * that fails and keeping the entries read before it. No entries leave the
   * result nil.
   */
  function CollectGets(env: Env, t: Table, userId: string, keys: seq<string>): (r: (Slice<VariableWithUnixTimestamp>, Option<Error>))
    requires WellKeyed(t)
    ensures |Items(r.0)| <= |keys|
    ensures r.0.Slice? ==> r.0.items != []
    ensures r.1.Some? ==> exists k :: 0 <= k < |keys| && r.1 == GetSpec(env, t, userId, keys[k]).1
  {
    if keys == [] then (Nil, None)
    else
      var before := CollectGets(env, t, userId, keys[..|keys| - 1]);
      if before.1.Some? then before
      else
        var entry := GetSpec(env, t, userId, keys[|keys| - 1]);
        if entry.1.Some? then (before.0, entry.1)
        else (Slice(Items(before.0) + [entry.0]), None)
  }

  /** A computed key is answered without the store: neither its contents, nor its faults, nor the caller matter. */
  lemma CalculatedKeysIgnoreStore(env1: Env, env2: Env, t1: Table, t2: Table, user1: string, user2: string, key: string)
    requires WellKeyed(t1) && WellKeyed(t2)
    requires HasPrefix(key, CalculatePrefix)
    requires env1.calculate == env2.calculate && env1.wallClock == env2.wallClock
    ensures GetSpec(env1, t1, user1, key) == GetSpec(env2, t2, user2, key)
  {
  }

  /** A stored key reads back what Set wrote, stamped with the configured clock, unless the read itself fails. */
  lemma GetAfterSet(env: Env, t: Table, userId: string, variable: Variable)
    requires WellKeyed(t)
    requires !HasPrefix(variable.key, CalculatePrefix)
    requires SetStep(env, t, userId, variable).1.None?
    requires env.fault(GetCall(userId, variable.key)).None?
    ensures GetSpec(env, SetStep(env, t, userId, variable).0, userId, variable.key) ==
      (VariableWithUnixTimestamp(variable, env.configuredClock), None)
  {
  }

  /**
   * The set loop touches only the caller's keys it sets: any other record is
   * there afterwards exactly when it was there before, and unchanged.
   */
  lemma {:induction false} ApplySetsFrame(env: Env, t: Table, userId: string, variables: seq<Variable>, rk: RowKey)
    requires WellKeyed(t)
    requires rk.userId != userId || forall j :: 0 <= j < |variables| ==> variables[j].key != rk.key
    ensures rk in ApplySets(env, t, userId, variables).0 <==> rk in t
    ensures rk in t ==> ApplySets(env, t, userId, variables).0[rk] == t[rk]
  {
    if variables != [] {
      var init := variables[..|variables| - 1];
      assert forall j :: 0 <= j < |init| ==> init[j] == variables[j];
      ApplySetsFrame(env, t, userId, init, rk);
    }
  }

  /** The sets applied before a failing set stay applied; the failing set and everything after it are not applied. */
  lemma {:induction false} ApplySetsStopsAtFailure(env: Env, t: Table, userId: string, variables: seq<Variable>, k: nat)
    requires WellKeyed(t) && k < |variables|
    requires ApplySets(env, t, userId, variables[..k]).1.None?
    requires env.fault(SetCall(Stamp(env, userId, variables[k]))).Some?
    ensures ApplySets(env, t, userId, variables) ==
      (ApplySets(env, t, userId, variables[..k]).0, env.fault(SetCall(Stamp(env, userId, variables[k]))))
  {
    if k == |variables| - 1 {
      assert variables[..|variables| - 1] == variables[..k];
    } else {
      var init := variables[..|variables| - 1];
      assert init[..k] == variables[..k] && init[k] == variables[k];
      ApplySetsStopsAtFailure(env, t, userId, init, k);
    }
  }

  /** When no set fails, each set is applied: the last set of a stored key decides what a later read returns. */
  lemma {:induction false} ApplySetsLastWins(env: Env, t: Table, userId: string, variables: seq<Variable>, i: nat)
    requires WellKeyed(t) && i < |variables|
    requires ApplySets(env, t, userId, variables).1.None?
    requires forall j :: i < j < |variables| ==> variables[j].key != variables[i].key
    ensures var after := ApplySets(env, t, userId, variables).0;
      RowKey(userId, variables[i].key) in after &&
      after[RowKey(userId, variables[i].key)] == Stamp(env, userId, variables[i])
  {
    var init := variables[..|variables| - 1];
    if i < |variables| - 1 {
      ApplySetsLastWins(env, t, userId, init, i);
    }
  }

  /** A read in the same bulk request sees the last write of its key. */
  lemma BulkGetSeesSet(env: Env, t: Table, userId: string, variables: seq<Variable>, i: nat)
    requires WellKeyed(t) && i < |variables|
    requires ApplySets(env, t, userId, variables).1.None?
    requires forall j :: i < j < |variables| ==> variables[j].key != variables[i].key
    requires !HasPrefix(variables[i].key, CalculatePrefix)
    requires env.fault(GetCall(userId, variables[i].key)).None?
    ensures GetSpec(env, ApplySets(env, t, userId, variables).0, userId, variables[i].key) ==
      (VariableWithUnixTimestamp(variables[i], env.configuredClock), None)
  {
    ApplySetsLastWins(env, t, userId, variables, i);
  }

  /** A successful Get loop has exactly one entry per key, in request order, each what a single Get returns. */
  lemma {:induction false} CollectGetsEntries(env: Env, t: Table, userId: string, keys: seq<string>)
    requires WellKeyed(t)
    ensures CollectGets(env, t, userId, keys).1.None? <==>
      forall i :: 0 <= i < |keys| ==> GetSpec(env, t, userId, keys[i]).1.None?
    ensures CollectGets(env, t, userId, keys).1.None? ==>
      var items := Items(CollectGets(env, t, userId, keys).0);
      |items| == |keys| && forall i :: 0 <= i < |keys| ==> items[i] == GetSpec(env, t, userId, keys[i]).0
  {
    if keys != [] {
      var init := keys[..|keys| - 1];
      CollectGetsEntries(env, t, userId, init);
      assert forall i :: 0 <= i < |init| ==> init[i] == keys[i];
    }
  }

  /** A failing Get loop reports the first failing key's error and keeps the entries of the keys before it. */
  lemma {:induction false} CollectGetsStopsAtFailure(env: Env, t: Table, userId: string, keys: seq<string>, k: nat)
    requires WellKeyed(t) && k < |keys|
    requires forall i :: 0 <= i < k ==> GetSpec(env, t, userId, keys[i]).1.None?
    requires GetSpec(env, t, userId, keys[k]).1.Some?
    ensures CollectGets(env, t, userId, keys) ==
      (CollectGets(env, t, userId, keys[..k]).0, GetSpec(env, t, userId, keys[k]).1)
  {
    var init := keys[..|keys| - 1];
    if k == |keys| - 1 {
      assert init == keys[..k];
      CollectGetsEntries(env, t, userId, init);
    } else {
      assert init[..k] == keys[..k] && init[k] == keys[k];
      assert forall i :: 0 <= i < k ==> init[i] == keys[i];
      CollectGetsStopsAtFailure(env, t, userId, init, k);
    }
  }

  /**
   * The controller over an in-memory store. `store` is what the database
   * holds; `env` supplies clocks, the calculator and database failures.
   */
  class Controller {
    var store: Table

    ghost predicate Valid()
      reads this
    {
      WellKeyed(store)
    }

    constructor ()
      ensures Valid() && store == map[]
    {
      store := map[];
    }

    /** List: the database's listing, where a nil listing becomes an empty one. */
    method List(env: Env, userId: string, q: VariablesQueryOptions) returns (result: seq<VariableWithUnixTimestamp>, err: Option<Error>)
      requires Valid() && ListsFromStore(env)
      ensures err == env.fault(ListCall(userId, q))
      ensures err.Some? ==> result == []
      ensures err.None? ==> result == Items(env.listing(store, userId, q))
      ensures forall x :: x in result ==>
        exists rk :: rk in store && store[rk].stamped == x && MatchesQuery(store[rk], userId, q)
    {
      err := env.fault(ListCall(userId, q));
      var listed := if err.Some? then Nil else env.listing(store, userId, q);
      if listed.Nil? {
        result := [];
      } else {
        result := listed.items;
      }
    }

    /** Count: the database's count of the records the query's filter selects. */
    method Count(env: Env, userId: string, q: VariablesQueryOptions) returns (count: nat, err: Option<Error>)
      requires Valid()
      ensures err == env.fault(CountCall(userId, q))
      ensures err.None? ==> count == CountMatching(store, userId, q)
      ensures err.Some? ==> count == 0
    {
      err := env.fault(CountCall(userId, q));
      count := if err.Some? then 0 else CountMatching(store, userId, q);
    }

    /** Get: the calculator for a computed key, the store for any other. */
    method Get(env: Env, userId: string, key: string) returns (res: VariableWithUnixTimestamp, err: Option<Error>)
      requires Valid()
      ensures (res, err) == GetSpec(env, store, userId, key)
    {
      if HasPrefix(key, CalculatePrefix) {
        var value := env.calculate(key);
        if value.Failure? {
          return NoVariable, Some(value.error);
        }
        res := VariableWithUnixTimestamp(Variable(key, value.value, "", ""), env.wallClock);
      } else {
        var variable := Lookup(store, userId, key);
        var failure := env.fault(GetCall(userId, key));
        if failure.Some? {
          return NoVariable, failure;
        }
        res := variable.stamped;
      }
      err := None;
    }

    /** Set: the caller's variable, stamped and owned by the caller, is upserted. */
    method Set(env: Env, userId: string, variable: Variable) returns (err: Option<Error>)
      requires Valid()
      modifies this
      ensures Valid()
      ensures (store, err) == SetStep(env, old(store), userId, variable)
    {
      var stored := Stamp(env, userId, variable);
      err := env.fault(SetCall(stored));
      if err.None? {
        store := store[KeyOf(stored) := stored];
      }
    }

    /** Delete: the caller's record of the key is removed. */
    method Delete(env: Env, userId: string, key: string) returns (err: Option<Error>)
      requires Valid()
      modifies this
      ensures Valid()
      ensures err == env.fault(DeleteCall(userId, key))
      ensures store == if err.None? then Remove(old(store), userId, key) else old(store)
    {
      err := env.fault(DeleteCall(userId, key));
      if err.None? {
        store := store - {RowKey(userId, key)};
      }
    }

    /**
     * Bulk: every set in order, then every get in order; the first error ends
     * the request, and the sets made before it stay made.
     */
    method Bulk(env: Env, userId: string, bulk: BulkRequest) returns (result: Slice<VariableWithUnixTimestamp>, err: Option<Error>)
      requires Valid()
      modifies this
      ensures Valid()
      ensures var (after, setError) := ApplySets(env, old(store), userId, bulk.setVariables);
        && store == after
        && (setError.Some? ==> result == Nil && err == setError)
        && (setError.None? ==> (result, err) == CollectGets(env, after, userId, bulk.getKeys))
    {
      result := Nil;
      ghost var start := store;
      for i := 0 to |bulk.setVariables|
        invariant Valid()
        invariant ApplySets(env, start, userId, bulk.setVariables[..i]) == (store, None)
      {
        assert bulk.setVariables[..i + 1][..i] == bulk.setVariables[..i];
        err := Set(env, userId, bulk.setVariables[i]);
        if err.Some? {
          ApplySetsStopsAtFailure(env, start, userId, bulk.setVariables, i);
          return;
        }
      }
      assert bulk.setVariables[..|bulk.setVariables|] == bulk.setVariables;
      result, err := GetAll(env, userId, bulk.getKeys);
    }

    /** The Get loop of Bulk: each key in order, appending its entry, until one fails. */
    method GetAll(env: Env, userId: string, keys: seq<string>) returns (result: Slice<VariableWithUnixTimestamp>, err: Option<Error>)
      requires Valid()
      ensures (result, err) == CollectGets(env, store, userId, keys)
    {
      result := Nil;
      for i := 0 to |keys|
        invariant CollectGets(env, store, userId, keys[..i]) == (result, None)
      {
        assert keys[..i + 1][..i] == keys[..i];
        var variable;
        variable, err := Get(env, userId, keys[i]);
        if err.Some? {
          CollectGetsEntries(env, store, userId, keys[..i]);
          assert forall j :: 0 <= j < i ==> keys[..i][j] == keys[j];
          CollectGetsStopsAtFailure(env, store, userId, keys, i);
          return;
        }
        result := Slice(Items(result) + [variable]);
      }
      assert keys[..|keys|] == keys;
      err := None;
    }

    /** DeleteProcessDefinition: every record of the definition goes, whoever owns it. */
    method DeleteProcessDefinition(env: Env, definitionId: string) returns (err: Option<Error>)
      requires Valid()
      modifies this
      ensures Valid()
      ensures err == env.fault(DeleteDefinitionCall(definitionId))
      ensures store == if err.None? then RemoveDefinition(old(store), definitionId) else old(store)
    {
      err := env.fault(DeleteDefinitionCall(definitionId));
      if err.None? {
        store := map rk | rk in store && store[rk].ProcessDefinitionId() != definitionId :: store[rk];
      }
    }

    /** DeleteProcessInstance: every record of the instance goes, whoever owns it. */
    method DeleteProcessInstance(env: Env, instanceId: string) returns (err: Option<Error>)
      requires Valid()
      modifies this
      ensures Valid()
      ensures err == env.fault(DeleteInstanceCall(instanceId))
      ensures store == if err.None? then RemoveInstance(old(store), instanceId) else old(store)
    {
      err := env.fault(DeleteInstanceCall(instanceId));
      if err.None? {
        store := map rk | rk in store && store[rk].ProcessInstanceId() != instanceId :: store[rk];
      }
    }
  }
}
