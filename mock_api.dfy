/**
 * The in-browser mock back end: a table per collection (a mutable array of
 * JSON records), the paginated list query with its search, exact-value
 * filters and window arithmetic, and the get/create/update/delete responses.
 * Every response goes through `mockResponse`, which settles after a delay,
 * rejects non-2xx statuses and hands back a JSON round-tripped copy.
 */
module MockApi {
  import opened Wrappers
  import opened Text
  import opened JsValues
  import opened JsMath
  import opened ListPatch
  import opened Models

  /** A JSON object with string keys. */
  type Record = map<string, Value>

  /** What `mockResponse` is handed. */
  datatype Payload =
    | RecordData(rec: Record)
    | PageData(page: Paginated<Record>)
    | ValueData(v: Value)

  /** How the returned promise ends: resolved, rejected, or never settled. */
  datatype Settlement =
    | Resolved(data: Payload, status: int)
    | Rejected(thrown: Thrown)
    | Pending

  // ---------------------------------------------------------------------
  // JSON.parse(JSON.stringify(x))

  /** A value after a JSON round trip, as an array element or object member. */
  function JsonCopyValue(v: Value): (c: Value)
    ensures c.Undefined? <==> v.Undefined?
    decreases v, 1
  {
    match v
    case Arr(es) => Arr(JsonCopyElements(es))
    case _ => v
  }

  /** Array elements after a JSON round trip: `undefined` becomes `null`. */
  function JsonCopyElements(es: seq<Value>): (cs: seq<Value>)
    ensures |cs| == |es|
    ensures forall i :: 0 <= i < |es| ==> !cs[i].Undefined?
    decreases es, 0
  {
    if |es| == 0 then []
    else [if es[0].Undefined? then Null else JsonCopyValue(es[0])] + JsonCopyElements(es[1..])
  }

  /** An object after a JSON round trip: members holding `undefined` disappear. */
  function JsonCopyRecord(r: Record): (c: Record)
    ensures forall k :: k in c <==> k in r && !r[k].Undefined?
    ensures forall k :: k in c ==> c[k] == JsonCopyValue(r[k])
  {
    map k | k in r && !r[k].Undefined? :: JsonCopyValue(r[k])
  }

  function JsonCopyPage(p: Paginated<Record>): (c: Paginated<Record>)
    ensures |c.items| == |p.items|
    ensures forall i :: 0 <= i < |p.items| ==> c.items[i] == JsonCopyRecord(p.items[i])
    ensures c.total == p.total && c.page == p.page && c.size == p.size && c.pages == p.pages
  {
    p.(items := seq(|p.items|, i requires 0 <= i < |p.items| => JsonCopyRecord(p.items[i])))
  }

  /** The round trip; `JSON.parse(undefined)` throws, so a bare `undefined` has no copy. */
  function JsonCopy(p: Payload): (c: Option<Payload>)
    ensures c.None? <==> p == ValueData(Undefined)
  {
    match p
    case RecordData(r) => Some(RecordData(JsonCopyRecord(r)))
    case PageData(pg) => Some(PageData(JsonCopyPage(pg)))
    case ValueData(v) => if v.Undefined? then None else Some(ValueData(JsonCopyValue(v)))
  }

  lemma {:induction false} JsonCopyValueIdempotent(v: Value)
    ensures JsonCopyValue(JsonCopyValue(v)) == JsonCopyValue(v)
    decreases v, 1
  {
    match v
    case Arr(es) => JsonCopyElementsIdempotent(es);
    case _ =>
  }

  lemma {:induction false} JsonCopyElementsIdempotent(es: seq<Value>)
    ensures JsonCopyElements(JsonCopyElements(es)) == JsonCopyElements(es)
    decreases es, 0
  {
    if |es| > 0 {
      var cs := JsonCopyElements(es);
      JsonCopyElementsIdempotent(es[1..]);
      assert cs[1..] == JsonCopyElements(es[1..]);
      if !es[0].Undefined? {
        JsonCopyValueIdempotent(es[0]);
      }
    }
  }

  /** Copying a copy changes nothing: what the mock hands out is already plain JSON. */
  lemma JsonCopyRecordIdempotent(r: Record)
    ensures JsonCopyRecord(JsonCopyRecord(r)) == JsonCopyRecord(r)
  {
    var c := JsonCopyRecord(r);
    forall k | k in c
      ensures JsonCopyValue(c[k]) == c[k]
    {
      JsonCopyValueIdempotent(r[k]);
    }
  }

  // ---------------------------------------------------------------------
  // mockResponse

  /** Rejection for status `s`: `new Error(`Mock API Error: ${s}`)`. */
  function StatusError(status: int): Thrown {
    ErrorValue("Mock API Error: " + IntToString(status))
  }

  /**
   * `mockResponse(data, status)`: a 2xx status resolves with a JSON copy of
   * the data, anything else rejects.  Copying a bare `undefined` throws inside
   * the timer callback, so that promise never settles.
   */
  function MockResponse(data: Payload, status: int): (r: Settlement)
    ensures !(200 <= status < 300) <==> r.Rejected?
    ensures r.Rejected? ==> r.thrown == StatusError(status)
    ensures r.Pending? <==> 200 <= status < 300 && data == ValueData(Undefined)
    ensures r.Resolved? ==> Some(r.data) == JsonCopy(data) && r.status == status
  {
    if 200 <= status < 300 then
      match JsonCopy(data)
      case None => Pending
      case Some(c) => Resolved(c, status)
    else Rejected(StatusError(status))
  }

  /** The 404 every lookup miss produces. */
  function NotFound(): Settlement {
    MockResponse(RecordData(map["error" := Str("Not Found")]), 404)
  }

  /** `mockSuccessResponse(data = { message: 'Success' })` always resolves. */
  function MockSuccessResponse(data: Option<Record>): (r: Settlement)
    ensures r.Resolved? && r.status == 200
    ensures data.Some? ==> r.data == RecordData(JsonCopyRecord(data.value))
    ensures data.None? ==> r.data == RecordData(map["message" := Str("Success")])
  {
    MockResponse(RecordData(if data.Some? then data.value else map["message" := Str("Success")]), 200)
  }

  // ---------------------------------------------------------------------
  // records and ids

  /** `item[key]` */
  function Field(item: Record, key: string): Value {
    if key in item then item[key] else Undefined
  }

  /** `item.id === id` */
  predicate IdIs(item: Record, id: int) { Field(item, "id") == Num(id) }

  /** Every record has a numeric `id` (the `T extends { id: number }` bound). */
  predicate NumericIds(rows: seq<Record>) {
    forall i :: 0 <= i < |rows| ==> Field(rows[i], "id").Num?
  }

  predicate UniqueIds(rows: seq<Record>) {
    forall i, j :: 0 <= i < j < |rows| ==> Field(rows[i], "id") != Field(rows[j], "id")
  }

  /** `allItems.findIndex(i => i.id === id)` */
  function RowIndex(rows: seq<Record>, id: int): (i: int)
    ensures -1 <= i < |rows|
    ensures i >= 0 ==> IdIs(rows[i], id)
    ensures forall k :: 0 <= k < |rows| && (i < 0 || k < i) ==> !IdIs(rows[k], id)
  {
    FindFirst(rows, (x: Record) => IdIs(x, id))
  }

  /** `Math.max(0, ...allItems.map(i => i.id))` */
  function MaxId(rows: seq<Record>): (m: int)
    requires NumericIds(rows)
    ensures m >= 0
    ensures forall i :: 0 <= i < |rows| ==> Field(rows[i], "id").n <= m
    ensures m == 0 || exists i :: 0 <= i < |rows| && Field(rows[i], "id").n == m
  {
    if |rows| == 0 then 0
    else
      var rest := MaxId(rows[1..]);
      assert forall i :: 1 <= i < |rows| ==> rows[i] == rows[1..][i - 1];
      var first := Field(rows[0], "id").n;
      if first > rest then first else rest
  }

  /** `mockGetResponse(allItems, id)`: the first record with the id, or a 404. */
  function GetResponse(rows: seq<Record>, id: int): (r: Settlement)
    ensures r.Rejected? <==> forall k :: 0 <= k < |rows| ==> !IdIs(rows[k], id)
    ensures r.Rejected? ==> r.thrown == StatusError(404)
    ensures r.Resolved? ==>
              exists k :: 0 <= k < |rows| && IdIs(rows[k], id) && r == Resolved(RecordData(JsonCopyRecord(rows[k])), 200)
  {
    var i := RowIndex(rows, id);
    if i < 0 then NotFound() else MockResponse(RecordData(rows[i]), 200)
  }

  /** `{ ...data, id: newId, created_at: now, updated_at: now }` */
  function NewRecord(data: Record, newId: int, now: string): (r: Record)
    ensures Field(r, "id") == Num(newId)
    ensures Field(r, "created_at") == Str(now) && Field(r, "updated_at") == Str(now)
    ensures forall k :: k in data ==> k in r
    ensures forall k :: k in r && k != "id" && k != "created_at" && k != "updated_at" ==> k in data && r[k] == data[k]
  {
    data + map["id" := Num(newId), "created_at" := Str(now), "updated_at" := Str(now)]
  }

  /** `{ ...old, ...data, updated_at: now }` */
  function Merge(old_: Record, data: Record, now: string): (r: Record)
    ensures Field(r, "updated_at") == Str(now)
    ensures forall k :: k != "updated_at" && k in data ==> Field(r, k) == data[k]
    ensures forall k :: k != "updated_at" && k !in data ==> Field(r, k) == Field(old_, k)
  {
    old_ + data + map["updated_at" := Str(now)]
  }

  /** One collection of the mock data set: an array the mock responses mutate in place. */
  class MockTable {
    var rows: seq<Record>

    predicate Valid()
      reads this
    {
      NumericIds(rows)
    }

    constructor (initial: seq<Record>)
      requires NumericIds(initial)
      ensures rows == initial && Valid()
    {
      rows := initial;
    }

    /** `mockCreateResponse`: a fresh id one above the largest, prepended with its timestamps. */
    method Create(data: Record, now: string) returns (r: Settlement)
      requires Valid()
      modifies this
      ensures Valid()
      ensures rows == [NewRecord(data, MaxId(old(rows)) + 1, now)] + old(rows)
      ensures forall i :: 0 <= i < |old(rows)| ==> Field(old(rows)[i], "id").n < Field(rows[0], "id").n
      ensures old(UniqueIds(rows)) ==> UniqueIds(rows)
      ensures r == Resolved(RecordData(JsonCopyRecord(rows[0])), 200)
      ensures GetResponse(rows, MaxId(old(rows)) + 1) == r
    {
      var newId := MaxId(rows) + 1;
      var newItem := NewRecord(data, newId, now);
      rows := [newItem] + rows;
      r := MockResponse(RecordData(newItem), 200);
      assert RowIndex(rows, newId) == 0;
    }

    /** `mockUpdateResponse`: the first record with the id is merged with the data, or a 404. */
    method Update(id: int, data: Record, now: string) returns (r: Settlement)
      requires Valid()
      requires "id" in data ==> data["id"].Num?
      modifies this
      ensures Valid()
      ensures RowIndex(old(rows), id) < 0 ==> rows == old(rows) && r == Rejected(StatusError(404))
      ensures RowIndex(old(rows), id) >= 0 ==>
                rows == old(rows)[RowIndex(old(rows), id) := Merge(old(rows)[RowIndex(old(rows), id)], data, now)]
                && r == Resolved(RecordData(JsonCopyRecord(rows[RowIndex(old(rows), id)])), 200)
      ensures "id" !in data && r.Resolved? ==> GetResponse(rows, id) == r
    {
      var index := RowIndex(rows, id);
      if index == -1 {
        r := NotFound();
        return;
      }
      ghost var before := rows;
      var updated := Merge(rows[index], data, now);
      rows := rows[index := updated];
      r := MockResponse(RecordData(updated), 200);
      if "id" !in data {
        assert Field(updated, "id") == Field(before[index], "id");
        assert IdIs(rows[index], id);
        assert forall k :: 0 <= k < index ==> rows[k] == before[k];
        var j := RowIndex(rows, id);
        assert j == index;
      }
    }

    /**
     * `mockDeleteResponse` as written: the first record with the id is spliced
     * out, but the `undefined` payload cannot be copied, so the promise never
     * settles; a miss rejects with 404.
     */
    method Delete(id: int) returns (r: Settlement)
      requires Valid()
      modifies this
      ensures Valid()
      ensures RowIndex(old(rows), id) < 0 ==> rows == old(rows) && r == Rejected(StatusError(404))
      ensures RowIndex(old(rows), id) >= 0 ==>
                rows == old(rows)[..RowIndex(old(rows), id)] + old(rows)[RowIndex(old(rows), id) + 1..]
                && r == Pending
      ensures old(UniqueIds(rows)) ==> UniqueIds(rows) && GetResponse(rows, id).Rejected?
    {
      var index := RowIndex(rows, id);
      if index == -1 {
        r := NotFound();
        return;
      }
      ghost var before := rows;
      rows := rows[..index] + rows[index + 1..];
      r := MockResponse(ValueData(Undefined), 200);
      UniqueAfterSplice(before, index, id);
    }

    /**
     * `mockDeleteResponse` as evidently intended: the same splice, settling
     * with an empty 200 reply instead of copying `undefined`.
     */
    method DeleteSettling(id: int) returns (r: Settlement)
      requires Valid()
      modifies this
      ensures Valid()
      ensures RowIndex(old(rows), id) < 0 ==> rows == old(rows) && r == Rejected(StatusError(404))
      ensures RowIndex(old(rows), id) >= 0 ==>
                rows == old(rows)[..RowIndex(old(rows), id)] + old(rows)[RowIndex(old(rows), id) + 1..]
                && r == Resolved(ValueData(Undefined), 200)
      ensures old(UniqueIds(rows)) ==> UniqueIds(rows) && GetResponse(rows, id).Rejected?
    {
      var index := RowIndex(rows, id);
      if index == -1 {
        r := NotFound();
        return;
      }
      ghost var before := rows;
      rows := rows[..index] + rows[index + 1..];
      r := SettledResponse(ValueData(Undefined), 200);
      UniqueAfterSplice(before, index, id);
    }
  }

  /** Splicing out the match of a unique id keeps ids unique and leaves no record with that id. */
  lemma UniqueAfterSplice(rows: seq<Record>, index: int, id: int)
    requires 0 <= index < |rows| && IdIs(rows[index], id)
    ensures var after := rows[..index] + rows[index + 1..];
      NumericIds(rows) ==> NumericIds(after)
    ensures var after := rows[..index] + rows[index + 1..];
      UniqueIds(rows) ==> UniqueIds(after) && forall k :: 0 <= k < |after| ==> !IdIs(after[k], id)
  {
    var after := rows[..index] + rows[index + 1..];
    assert forall k :: 0 <= k < index ==> after[k] == rows[k];
    assert forall k :: index <= k < |after| ==> after[k] == rows[k + 1];
  }

  /** `mockResponse` as evidently intended: a bare `undefined` resolves as itself. */
  function SettledResponse(data: Payload, status: int): (r: Settlement)
    ensures !(200 <= status < 300) ==> r == MockResponse(data, status)
    ensures data != ValueData(Undefined) ==> r == MockResponse(data, status)
    ensures 200 <= status < 300 ==> r.Resolved? && r.status == status
  {
    if 200 <= status < 300 && data == ValueData(Undefined) then Resolved(data, status)
    else MockResponse(data, status)
  }

  /** The promise `mockResponse(undefined)` returns never settles, though the status is 200. */
  lemma UndefinedNeverSettles()
    ensures MockResponse(ValueData(Undefined), 200) == Pending
    ensures SettledResponse(ValueData(Undefined), 200) == Resolved(ValueData(Undefined), 200)
  {
  }

  // ---------------------------------------------------------------------
  // mockPaginatedResponse

  /** `item.key && item.key.toLowerCase().includes(query)` */
  predicate FieldContains(item: Record, key: string, query: string) {
    Field(item, key).Str? && Field(item, key).s != "" && Contains(Lower(Field(item, key).s), query)
  }

  /** The search test: name, title, description or version contains the query. */
  predicate SearchMatches(item: Record, query: string) {
    FieldContains(item, "name", query) || FieldContains(item, "title", query)
    || FieldContains(item, "description", query) || FieldContains(item, "version", query)
  }

  /** `page?: number`, `size?: number`, `search?: string` */
  predicate ValidParams(params: Record) {
    (Field(params, "page").Num? || IsNullish(Field(params, "page")))
    && (Field(params, "size").Num? || IsNullish(Field(params, "size")))
    && (Field(params, "search").Str? || IsNullish(Field(params, "search")))
  }

  /** `Number(filters[key] || fallback)` for a numeric parameter. */
  function NumberParam(params: Record, key: string, fallback: int): (n: int)
    requires Field(params, key).Num? || IsNullish(Field(params, key))
    ensures fallback != 0 ==> n != 0
  {
    var v := Field(params, key);
    if Truthy(v) then v.n else fallback
  }

  /** `Object.keys(filters)` without page, size and search. */
  function FilterKeys(params: Record): set<string> {
    set k | k in params && k != "page" && k != "size" && k != "search"
  }

  /** The exact-value filters for the keys `ks` that are truthy: `item[key] == filters[key]`. */
  predicate MatchesKeys(item: Record, params: Record, ks: set<string>) {
    forall k :: k in ks && k in params && Truthy(params[k]) ==> LooseEq(Field(item, k), params[k])
  }

  /** `items.filter(item => <search test>)` */
  function SearchFilter(items: seq<Record>, query: string): seq<Record> {
    Keep(items, (x: Record) => SearchMatches(x, query))
  }

  /** `items.filter(item => item[key] == value)` */
  function EqualFilter(items: seq<Record>, key: string, value: Value): seq<Record> {
    Keep(items, (x: Record) => LooseEq(Field(x, key), value))
  }

  /** The items passing the exact filters for the keys `ks`. */
  function FilterByKeys(items: seq<Record>, params: Record, ks: set<string>): seq<Record> {
    Keep(items, (x: Record) => MatchesKeys(x, params, ks))
  }

  /** Step 1: the search filter, when `filters.search` is truthy. */
  function Searched(all: seq<Record>, params: Record): seq<Record>
    requires ValidParams(params)
  {
    if Truthy(Field(params, "search")) then SearchFilter(all, Lower(Field(params, "search").s))
    else all
  }

  /** Steps 1 and 2: the items the query selects, before the page window. */
  function Selected(all: seq<Record>, params: Record): seq<Record>
    requires ValidParams(params)
  {
    FilterByKeys(Searched(all, params), params, FilterKeys(params))
  }

  /** Filtering by no keys keeps everything. */
  lemma FilterByNoKeys(items: seq<Record>, params: Record)
    ensures FilterByKeys(items, params, {}) == items
  {
    KeepEverything(items, (x: Record) => MatchesKeys(x, params, {}));
  }

  /** One round of the filter loop: a truthy key narrows the list, a falsy one leaves it. */
  lemma FilterByOneMoreKey(items: seq<Record>, params: Record, ks: set<string>, key: string)
    requires key in params
    ensures Truthy(params[key]) ==>
              EqualFilter(FilterByKeys(items, params, ks), key, params[key]) == FilterByKeys(items, params, ks + {key})
    ensures !Truthy(params[key]) ==> FilterByKeys(items, params, ks) == FilterByKeys(items, params, ks + {key})
  {
    var value := params[key];
    if Truthy(value) {
      KeepThenKeep(items, (x: Record) => MatchesKeys(x, params, ks),
                   (x: Record) => LooseEq(Field(x, key), value),
                   (x: Record) => MatchesKeys(x, params, ks + {key}));
    } else {
      KeepThenKeep(items, (x: Record) => MatchesKeys(x, params, ks),
                   (x: Record) => true,
                   (x: Record) => MatchesKeys(x, params, ks + {key}));
      KeepEverything(FilterByKeys(items, params, ks), (x: Record) => true);
    }
  }

  /** Where `Array.prototype.slice` puts an index: negative counts from the end, then clamp. */
  function SliceIndex(k: int, n: nat): (r: nat)
    ensures r <= n
    ensures 0 <= k ==> r == if k < n then k else n
  {
    if k < 0 then (if n + k < 0 then 0 else n + k) else if k > n then n else k
  }

  /** `s.slice(start, end)` */
  function JsSlice<T>(s: seq<T>, start: int, end: int): (r: seq<T>)
    ensures |r| <= |s|
    ensures 0 <= start <= end ==>
              r == s[SliceIndex(start, |s|)..SliceIndex(end, |s|)]
  {
    var from := SliceIndex(start, |s|);
    var to := SliceIndex(end, |s|);
    if to <= from then [] else s[from..to]
  }

  /** Step 3: the page window and the counts. */
  function PageOf(items: seq<Record>, params: Record): Paginated<Record>
    requires ValidParams(params)
  {
    var page := NumberParam(params, "page", 1);
    var size := NumberParam(params, "size", 10);
    Paginated(JsSlice(items, (page - 1) * size, page * size), |items|, page, size, PageCount(|items|, size))
  }

  /** Step 2: `for (const key of filterKeys) if (filters[key]) items = items.filter(...)` */
  method ExactFilters(searched: seq<Record>, params: Record) returns (items: seq<Record>)
    ensures items == FilterByKeys(searched, params, FilterKeys(params))
  {
    items := searched;
    FilterByNoKeys(searched, params);
    var keys := FilterKeys(params);
    ghost var done: set<string> := {};
    while keys != {}
      invariant keys + done == FilterKeys(params) && keys !! done
      invariant items == FilterByKeys(searched, params, done)
      decreases |keys|
    {
      var key :| key in keys;
      FilterByOneMoreKey(searched, params, done, key);
      if Truthy(params[key]) {
        items := EqualFilter(items, key, params[key]);
      }
      done := done + {key};
      keys := keys - {key};
    }
    assert done == FilterKeys(params);
  }

  /** `mockPaginatedResponse(allItems, params)` */
  method PaginatedResponse(all: seq<Record>, params: Record) returns (r: Settlement)
    requires ValidParams(params)
    ensures r == MockResponse(PageData(PageOf(Selected(all, params), params)), 200)
  {
    var items := all;
    if Truthy(Field(params, "search")) {
      var query := Lower(params["search"].s);
      items := SearchFilter(items, query);
    }
    assert items == Searched(all, params);
    items := ExactFilters(items, params);

    var page := NumberParam(params, "page", 1);
    var size := NumberParam(params, "size", 10);
    var total := |items|;
    var totalPages := PageCount(total, size);
    var paginatedItems := JsSlice(items, (page - 1) * size, page * size);
    r := MockResponse(PageData(Paginated(paginatedItems, total, page, size, totalPages)), 200);
  }

  /** A listed item came from the collection and passes the search and every truthy exact filter; every such item is listed. */
  lemma SelectedExactly(all: seq<Record>, params: Record)
    requires ValidParams(params)
    ensures forall i :: 0 <= i < |Selected(all, params)| ==>
              var x := Selected(all, params)[i];
              x in all && MatchesKeys(x, params, FilterKeys(params))
              && (Truthy(Field(params, "search")) ==> SearchMatches(x, Lower(Field(params, "search").s)))
    ensures forall i :: 0 <= i < |all| && MatchesKeys(all[i], params, FilterKeys(params))
              && (Truthy(Field(params, "search")) ==> SearchMatches(all[i], Lower(Field(params, "search").s)))
              ==> all[i] in Selected(all, params)
  {
    var s := Searched(all, params);
    assert forall i :: 0 <= i < |Selected(all, params)| ==> Selected(all, params)[i] in s;
    forall i | 0 <= i < |all| && MatchesKeys(all[i], params, FilterKeys(params))
              && (Truthy(Field(params, "search")) ==> SearchMatches(all[i], Lower(Field(params, "search").s)))
      ensures all[i] in Selected(all, params)
    {
      var j :| 0 <= j < |s| && s[j] == all[i];
    }
  }

  lemma WindowArithmetic(page: int, size: int)
    requires page >= 1 && size >= 1
    ensures 0 <= (page - 1) * size && (page - 1) * size + size == page * size
  {
  }

  /** A window of `size` elements starting at `lo`, clamped to the list. */
  lemma SliceWindow<T>(items: seq<T>, lo: int, hi: int, size: int)
    requires 0 <= lo && lo + size == hi && size >= 1
    ensures var n := |items|;
      JsSlice(items, lo, hi) == items[(if lo < n then lo else n)..(if hi < n then hi else n)]
      && |JsSlice(items, lo, hi)| <= size
  {
  }

  /**
   * For a page number and size of at least 1 the response lists the
   * selected items from `(page - 1) * size` up to `page * size`, at most
   * `size` of them.
   */
  lemma PageWindow(items: seq<Record>, params: Record)
    requires ValidParams(params)
    requires NumberParam(params, "page", 1) >= 1 && NumberParam(params, "size", 10) >= 1
    ensures var p := PageOf(items, params);
      var lo := (p.page - 1) * p.size;
      var hi := p.page * p.size;
      && 0 <= lo <= hi
      && p.items == items[(if lo < |items| then lo else |items|)..(if hi < |items| then hi else |items|)]
      && |p.items| <= p.size
  {
    var page, size := NumberParam(params, "page", 1), NumberParam(params, "size", 10);
    var p := PageOf(items, params);
    var lo, hi := (page - 1) * size, page * size;
    assert p.page == page && p.size == size && p.items == JsSlice(items, lo, hi);
    WindowArithmetic(page, size);
    SliceWindow(items, lo, hi, size);
  }

  /** With a size of at least 1 the reported total is the selection's length and the page count holds it. */
  lemma PageCountHolds(items: seq<Record>, params: Record)
    requires ValidParams(params)
    requires NumberParam(params, "size", 10) >= 1
    ensures var p := PageOf(items, params);
      p.total == |items| && p.pages >= 1 && p.total <= p.pages * p.size
  {
    PageCountBounds(|items|, NumberParam(params, "size", 10));
  }
}
