/**
 * The `useFilters` composable: a map of named filter values and a search
 * string, whether any filter is set, how many are, the query parameters they
 * become, and the edits `setFilter`, `clearFilter`, `clearAllFilters`,
 * `setSearch`, `clearSearch`, `reset` and `updateFilters`.
 * `Object.values` and `Object.entries` are walked in key order in the source;
 * the count and the parameters do not depend on that order, so the loops
 * below take the keys in any order.
 */
module Filters {
  import opened Wrappers
  import opened JsValues

  /** The callback of `hasActiveFilters`: a non-empty array or string, a nonzero number, or any other non-nullish value. */
  predicate ActiveValue(v: Value) {
    if v.Arr? then |v.elems| > 0
    else if v.Str? then |v.s| > 0
    else if v.Num? then v.n != 0
    else !IsNullish(v)
  }

  /** The `if`/`else if` chain of `activeFilterCount`. */
  predicate CountedValue(v: Value) {
    if v.Arr? && |v.elems| > 0 then true
    else if v.Str? && |v.s| > 0 then true
    else if v.Num? && v.n != 0 then true
    else !IsNullish(v)
  }

  /** Every value the chain's first three tests miss falls through to the last, so the count counts exactly the non-nullish values. */
  lemma CountedIffNotNullish(v: Value)
    ensures CountedValue(v) <==> !IsNullish(v)
    ensures ActiveValue(v) ==> CountedValue(v)
  {
  }

  /** The keys `activeFilterCount` counts. */
  function CountedKeys(filters: map<string, Value>): (ks: set<string>)
    ensures forall k :: k in ks <==> k in filters && !IsNullish(filters[k])
  {
    set k | k in filters && CountedValue(filters[k])
  }

  /** The keys `hasActiveFilters` looks for. */
  function ActiveKeys(filters: map<string, Value>): (ks: set<string>)
    ensures forall k :: k in ks <==> k in filters && ActiveValue(filters[k])
  {
    set k | k in filters && ActiveValue(filters[k])
  }

  /** The keys among `done` whose value satisfies `p`: what a counting loop has counted so far. */
  function KeysWhere(filters: map<string, Value>, done: set<string>, p: Value -> bool): set<string> {
    set k | k in done && k in filters && p(filters[k])
  }

  /** `value.join(',')` for a non-empty array, the value itself unless it is null, undefined or ''; None leaves the key out. */
  function ParamValue(v: Value): (p: Option<Value>)
    ensures p.None? <==> IsNullish(v) || v == Str("")
    ensures v.Arr? && |v.elems| > 0 ==> p == Some(Str(JoinValues(v.elems, ',')))
    ensures !v.Arr? && p.Some? ==> p == Some(v)
  {
    if v.Arr? && |v.elems| > 0 then Some(Str(JoinValues(v.elems, ',')))
    else if !IsNullish(v) && v != Str("") then Some(v)
    else None
  }

  /** The parameters the filters among `done` contribute. */
  function FilterPart(filters: map<string, Value>, done: set<string>): map<string, Value> {
    map k | k in done && k in filters && ParamValue(filters[k]).Some? :: ParamValue(filters[k]).value
  }

  /** The `search` parameter, present when the search is not empty. */
  function SearchPart(search: string): (m: map<string, Value>)
    ensures "search" in m <==> search != ""
    ensures forall k :: k in m ==> k == "search" && m[k] == Str(search)
  {
    if search != "" then map["search" := Str(search)] else map[]
  }

  /** `filterParams`: the search first, then every filter with a value; a filter named `search` overrides it. */
  function FilterParamsOf(filters: map<string, Value>, search: string): map<string, Value> {
    SearchPart(search) + FilterPart(filters, filters.Keys)
  }

  /** A key is a parameter exactly when it is a filter with a value, or it is `search` and the search is not empty. */
  lemma FilterParamsKeys(filters: map<string, Value>, search: string, k: string)
    ensures var r := FilterParamsOf(filters, search);
      k in r <==> (k in filters && ParamValue(filters[k]).Some?) || (k == "search" && search != "")
    ensures var r := FilterParamsOf(filters, search);
      k in filters && ParamValue(filters[k]).Some? ==> r[k] == ParamValue(filters[k]).value
    ensures var r := FilterParamsOf(filters, search);
      k == "search" && search != "" && !(k in filters && ParamValue(filters[k]).Some?) ==> r[k] == Str(search)
  {
  }

  /** `clearFilter`'s choice: an array becomes [], a string '', anything else (a missing key included) null. */
  function ClearedValue(v: Value): (c: Value)
    ensures v.Arr? ==> c == Arr([])
    ensures v.Str? ==> c == Str("")
    ensures !v.Arr? && !v.Str? ==> c == Null
  {
    if v.Arr? then Arr([]) else if v.Str? then Str("") else Null
  }

  /** A cleared value is never an active filter, and is counted only when it is an empty array or string. */
  lemma ClearedNotActive(v: Value)
    ensures !ActiveValue(ClearedValue(v))
    ensures CountedValue(ClearedValue(v)) <==> v.Arr? || v.Str?
  {
  }

  /** The value a key holds, `undefined` when it is missing. */
  function Get(filters: map<string, Value>, key: string): Value {
    if key in filters then filters[key] else Undefined
  }

  /** Every filter cleared. */
  function ClearedAll(filters: map<string, Value>): (c: map<string, Value>)
    ensures c.Keys == filters.Keys
    ensures forall k :: k in c ==> c[k] == ClearedValue(filters[k])
  {
    map k | k in filters :: ClearedValue(filters[k])
  }

  /** The filters with the keys in `done` cleared so far, the others as they were. */
  function ClearedOn(filters: map<string, Value>, done: set<string>): (c: map<string, Value>)
    ensures c.Keys == filters.Keys
  {
    map k | k in filters :: if k in done then ClearedValue(filters[k]) else filters[k]
  }

  /** Clearing one more key of the map extends the cleared set by that key. */
  lemma ClearedOnStep(filters: map<string, Value>, done: set<string>, key: string)
    requires key in filters && key !in done
    ensures Get(ClearedOn(filters, done), key) == filters[key]
    ensures ClearedOn(filters, done)[key := ClearedValue(filters[key])] == ClearedOn(filters, done + {key})
  {
  }

  /** With every key cleared, the map is `ClearedAll`. */
  lemma ClearedOnAll(filters: map<string, Value>, done: set<string>)
    requires done == filters.Keys
    ensures ClearedOn(filters, done) == ClearedAll(filters)
  {
  }

  /** No filter of a map is active. */
  predicate NoneActive(filters: map<string, Value>) {
    forall k :: k in filters ==> !ActiveValue(filters[k])
  }

  /** Clearing all filters leaves none active. */
  lemma ClearedAllNoneActive(filters: map<string, Value>)
    ensures NoneActive(ClearedAll(filters))
  {
    forall k | k in ClearedAll(filters)
      ensures !ActiveValue(ClearedAll(filters)[k])
    {
      ClearedNotActive(filters[k]);
    }
  }

  /** An empty string is not an active filter, yet it is counted: the count can be 1 with no active filter. */
  lemma CountWithoutActiveFilter()
    ensures var filters := map["status" := Str("")];
      NoneActive(filters) && |CountedKeys(filters)| == 1
  {
    var filters := map["status" := Str("")];
    assert CountedKeys(filters) == {"status"};
  }

  /** After `clearAllFilters` no filter is active, yet every string and array filter is still counted. */
  lemma ClearedFiltersStillCounted(filters: map<string, Value>)
    ensures ActiveKeys(ClearedAll(filters)) == {}
    ensures forall k :: k in filters && (filters[k].Arr? || filters[k].Str?) ==> k in CountedKeys(ClearedAll(filters))
  {
    ClearedAllNoneActive(filters);
    forall k | k in filters && (filters[k].Arr? || filters[k].Str?)
      ensures k in CountedKeys(ClearedAll(filters))
    {
      ClearedNotActive(filters[k]);
    }
  }

  class FilterState {
    var filters: map<string, Value>
    var search: string
    const initialFilters: map<string, Value>

    /** `useFilters(initialFilters)`: a copy of the initial filters and an empty search. */
    constructor (initialFilters: map<string, Value>)
      ensures this.initialFilters == initialFilters
      ensures filters == initialFilters && search == ""
    {
      this.initialFilters := initialFilters;
      filters := initialFilters;
      search := "";
    }

    /** `hasActiveFilters` */
    predicate HasActiveFilters()
      reads this`filters
    {
      exists k :: k in filters && ActiveValue(filters[k])
    }

    /** `activeFilterCount`: the filters that are neither null nor undefined. */
    method ActiveFilterCount() returns (count: int)
      ensures count == |CountedKeys(filters)|
      ensures HasActiveFilters() ==> count > 0
    {
      count := 0;
      var todo := filters.Keys;
      ghost var done: set<string> := {};
      while todo != {}
        invariant todo + done == filters.Keys && todo !! done
        invariant count == |KeysWhere(filters, done, CountedValue)|
        decreases |todo|
      {
        var k :| k in todo;
        var value := filters[k];
        if value.Arr? && |value.elems| > 0 {
          count := count + 1;
        } else if value.Str? && |value.s| > 0 {
          count := count + 1;
        } else if value.Num? && value.n != 0 {
          count := count + 1;
        } else if !IsNullish(value) {
          count := count + 1;
        }
        KeysWhereOneMore(filters, done, k, CountedValue);
        todo := todo - {k};
        done := done + {k};
      }
      assert KeysWhere(filters, done, CountedValue) == CountedKeys(filters);
      if HasActiveFilters() {
        var k :| k in filters && ActiveValue(filters[k]);
        assert k in CountedKeys(filters);
      }
    }

    /** `activeFilterCount` counting the values `hasActiveFilters` looks for: the count is nonzero exactly when a filter is active. */
    method ActiveFilterCountCorrected() returns (count: int)
      ensures count == |ActiveKeys(filters)|
      ensures count > 0 <==> HasActiveFilters()
    {
      count := 0;
      var todo := filters.Keys;
      ghost var done: set<string> := {};
      while todo != {}
        invariant todo + done == filters.Keys && todo !! done
        invariant count == |KeysWhere(filters, done, ActiveValue)|
        decreases |todo|
      {
        var k :| k in todo;
        var value := filters[k];
        if value.Arr? {
          if |value.elems| > 0 {
            count := count + 1;
          }
        } else if value.Str? {
          if |value.s| > 0 {
            count := count + 1;
          }
        } else if value.Num? {
          if value.n != 0 {
            count := count + 1;
          }
        } else if !IsNullish(value) {
          count := count + 1;
        }
        KeysWhereOneMore(filters, done, k, ActiveValue);
        todo := todo - {k};
        done := done + {k};
      }
      assert KeysWhere(filters, done, ActiveValue) == ActiveKeys(filters);
      if count > 0 {
        var k :| k in ActiveKeys(filters);
      }
      if HasActiveFilters() {
        var k :| k in filters && ActiveValue(filters[k]);
        assert k in ActiveKeys(filters);
      }
    }

    /** `filterParams` */
    method FilterParams() returns (params: map<string, Value>)
      ensures params == FilterParamsOf(filters, search)
    {
      params := map[];
      if search != "" {
        params := params["search" := Str(search)];
      }
      assert params == SearchPart(search);
      var todo := filters.Keys;
      ghost var done: set<string> := {};
      while todo != {}
        invariant todo + done == filters.Keys && todo !! done
        invariant params == SearchPart(search) + FilterPart(filters, done)
        decreases |todo|
      {
        var key :| key in todo;
        var value := filters[key];
        ParamsOneMore(filters, search, done, key);
        if value.Arr? && |value.elems| > 0 {
          params := params[key := Str(JoinValues(value.elems, ','))];
        } else if !IsNullish(value) && value != Str("") {
          params := params[key := value];
        }
        todo := todo - {key};
        done := done + {key};
      }
    }

    /** `setFilter(key, value)`: only that key changes. */
    method SetFilter(key: string, value: Value)
      modifies this`filters
      ensures filters == old(filters)[key := value]
    {
      filters := filters[key := value];
    }

    /** `clearFilter(key)` */
    method ClearFilter(key: string)
      modifies this`filters
      ensures filters == old(filters)[key := ClearedValue(Get(old(filters), key))]
      ensures !ActiveValue(filters[key])
    {
      ClearedNotActive(Get(filters, key));
      filters := filters[key := ClearedValue(Get(filters, key))];
    }

    /** `clearAllFilters()`: every filter cleared, and the search emptied. */
    method ClearAllFilters()
      modifies this`filters, this`search
      ensures filters == ClearedAll(old(filters)) && search == ""
      ensures !HasActiveFilters()
    {
      var todo := filters.Keys;
      ghost var done: set<string> := {};
      ghost var before := filters;
      while todo != {}
        invariant todo + done == before.Keys && todo !! done
        invariant filters == ClearedOn(before, done)
        decreases |todo|
      {
        var key :| key in todo;
        ClearedOnStep(before, done, key);
        ClearFilter(key);
        todo := todo - {key};
        done := done + {key};
      }
      ClearedOnAll(before, done);
      search := "";
      ClearedAllNoneActive(before);
    }

    /** `setSearch(value)` */
    method SetSearch(value: string)
      modifies this`search
      ensures search == value
    {
      search := value;
    }

    /** `clearSearch()` */
    method ClearSearch()
      modifies this`search
      ensures search == ""
    {
      search := "";
    }

    /** `reset()`: a fresh copy of the initial filters and an empty search. */
    method Reset()
      modifies this`filters, this`search
      ensures filters == initialFilters && search == ""
    {
      filters := initialFilters;
      search := "";
    }

    /** `updateFilters(newFilters)`: the given keys take the new values, the others keep theirs. */
    method UpdateFilters(newFilters: map<string, Value>)
      modifies this`filters
      ensures filters.Keys == old(filters).Keys + newFilters.Keys
      ensures forall k :: k in newFilters ==> filters[k] == newFilters[k]
      ensures forall k :: k in old(filters) && k !in newFilters ==> filters[k] == old(filters)[k]
    {
      filters := filters + newFilters;
    }
  }

  /** Counting one more key adds one exactly when its value satisfies `p`. */
  lemma KeysWhereOneMore(filters: map<string, Value>, done: set<string>, k: string, p: Value -> bool)
    requires k in filters && k !in done
    ensures |KeysWhere(filters, done + {k}, p)| == |KeysWhere(filters, done, p)| + (if p(filters[k]) then 1 else 0)
  {
    if p(filters[k]) {
      assert KeysWhere(filters, done + {k}, p) == KeysWhere(filters, done, p) + {k};
    } else {
      assert KeysWhere(filters, done + {k}, p) == KeysWhere(filters, done, p);
    }
  }

  /** One more key adds its parameter, if it has one, over the search and the keys before it. */
  lemma ParamsOneMore(filters: map<string, Value>, search: string, done: set<string>, k: string)
    requires k in filters && k !in done
    ensures ParamValue(filters[k]).Some? ==>
      SearchPart(search) + FilterPart(filters, done + {k})
      == (SearchPart(search) + FilterPart(filters, done))[k := ParamValue(filters[k]).value]
    ensures ParamValue(filters[k]).None? ==>
      SearchPart(search) + FilterPart(filters, done + {k}) == SearchPart(search) + FilterPart(filters, done)
  {
    var before := FilterPart(filters, done);
    var after := FilterPart(filters, done + {k});
    if ParamValue(filters[k]).Some? {
      assert after == before[k := ParamValue(filters[k]).value];
    } else {
      assert after == before;
    }
  }
}
