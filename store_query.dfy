/**
 * The query parameters every entity store's `fetch…` action sends:
 * `{ page: currentPage.value, size: pageSize.value, ...params }`, after which
 * the action assigns one key per set filter. `layer` is that last group of
 * assignments; each store defines its own.
 */
module StoreQuery {
  import opened Wrappers
  import opened JsValues
  import opened JsMath

  /** The three layers: a filter assignment wins, then the caller's params, then the store's page and size. */
  function QueryParams(currentPage: int, pageSize: int, params: map<string, Value>, layer: map<string, Value>): (r: map<string, Value>)
    ensures r.Keys == {"page", "size"} + params.Keys + layer.Keys
    ensures forall k :: k in layer ==> r[k] == layer[k]
    ensures forall k :: k in params && k !in layer ==> r[k] == params[k]
    ensures "page" !in params && "page" !in layer ==> r["page"] == Num(currentPage)
    ensures "size" !in params && "size" !in layer ==> r["size"] == Num(pageSize)
  {
    map["page" := Num(currentPage), "size" := Num(pageSize)] + params + layer
  }

  /** The assignments of a store whose only filter is its search query: `search`, when the query is not empty. */
  function SearchLayer(search: string): (m: map<string, Value>)
    ensures "search" in m <==> search != ""
    ensures forall k :: k in m ==> k == "search" && m[k] == Str(search)
  {
    if search != "" then map["search" := Str(search)] else map[]
  }

  /**
   * With the search as the only filter, a non-empty query is sent as
   * `search`, an empty one leaves that key to the caller, and the store's
   * page and size are sent unless the caller gives them.
   */
  lemma SearchQueryParamsLayers(currentPage: int, pageSize: int, params: map<string, Value>, search: string)
    ensures var r := QueryParams(currentPage, pageSize, params, SearchLayer(search));
      && (search != "" ==> r["search"] == Str(search))
      && (search == "" ==> ("search" in r <==> "search" in params))
      && (search == "" ==> forall k :: k in params ==> r[k] == params[k])
    ensures var r := QueryParams(currentPage, pageSize, params, SearchLayer(search));
      && ("page" !in params ==> r["page"] == Num(currentPage))
      && ("size" !in params ==> r["size"] == Num(pageSize))
  {
  }

  /**
   * The `totalPages` getter of an entity store: `Math.ceil(totalCount / pageSize)`,
   * without the `|| 1` of the pagination composable. None stands for the
   * non-finite quotient of a zero page size.
   */
  function StoreTotalPages(totalCount: int, pageSize: int): (n: Option<int>)
    ensures n.None? <==> pageSize == 0
    ensures n.Some? && pageSize > 0 ==> (n.value - 1) * pageSize < totalCount <= n.value * pageSize
  {
    if pageSize == 0 then None else Some(CeilDiv(totalCount, pageSize))
  }

  /** With no items a store reports 0 pages where the pagination composable reports 1; with items the two agree. */
  lemma StoreTotalPagesVersusPageCount(totalCount: int, pageSize: int)
    requires pageSize > 0 && totalCount >= 0
    ensures totalCount == 0 ==> StoreTotalPages(totalCount, pageSize) == Some(0) && PageCount(totalCount, pageSize) == 1
    ensures totalCount > 0 ==> StoreTotalPages(totalCount, pageSize) == Some(PageCount(totalCount, pageSize))
  {
    if totalCount > 0 {
      assert CeilDiv(totalCount, pageSize) >= 1 by {
        assert CeilDiv(totalCount, pageSize) * pageSize >= totalCount;
      }
    }
  }
}
