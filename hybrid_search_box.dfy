/** The search-box controller of v3/js/algolia-search-hybrid.js: the state kept by
    the `init` closure and the dropdown, and one method per event. The 200 ms
    debounce is an explicit "timer fired" event, the remote search is an event
    carrying its outcome, and navigation is returned as a URL. */
module HybridSearchBox {
  import opened JsValues
  import opened HybridRender

  /** Minimum query length, in UTF-16 code units, that triggers a search. */
  const MinChars := 2
  /** Results requested per search. */
  const HitsPerPage := 15

  /** The options the controller passes to `index.search`. */
  const HybridSearchParams := SearchParams(
    HitsPerPage,
    ["objectID", "id", "product name", "product url", "main image url", "price",
     "sale_price", "price_gross", "price_net", "manufacturer", "ean", "category"],
    ["product name"])

  /** A remote search issued by the controller. */
  datatype SearchRequest = SearchRequest(query: string, params: SearchParams)

  /** `query.length >= MIN_CHARS`. */
  predicate LongEnough(query: string)
    ensures LongEnough(query) ==> query != ""
    ensures |query| >= MinChars ==> LongEnough(query)
    ensures LongEnough(query) ==> |query| >= 1
  {
    JsLength(query) >= MinChars
  }

  class SearchBox {
    const ops: StringOps
    /** `currentQuery`: the trimmed text of the latest input event. */
    var currentQuery: string
    /** The query captured by the pending debounce timer (`searchTimeout`), if any. */
    var pending: Option<string>
    /** Queries of searches sent and not yet answered. */
    var outstanding: multiset<string>
    /** `dropdown.style.display == 'block'`. */
    var visible: bool
    /** `dropdown.innerHTML`. */
    var content: seq<Block>

    /** A pending search is always for the current query, which is long enough. */
    ghost predicate Valid()
      reads this
    {
      pending.Some? ==> pending.value == currentQuery && LongEnough(currentQuery)
    }

    /** The state right after `init`: empty query, no timer, hidden empty dropdown. */
    constructor (ops: StringOps)
      ensures Valid()
      ensures this.ops == ops
      ensures currentQuery == "" && pending == None && outstanding == multiset{}
      ensures !visible && content == []
    {
      this.ops := ops;
      currentQuery := "";
      pending := None;
      outstanding := multiset{};
      visible := false;
      content := [];
    }

    /** `showDropdown`. */
    method ShowDropdown()
      modifies this`visible
      ensures visible
    {
      visible := true;
    }

    /** `hideDropdown`. */
    method HideDropdown()
      modifies this`visible
      ensures !visible
    {
      visible := false;
    }

    /** The `input` listener: records the trimmed text, cancels the pending timer,
        and either hides the dropdown (short text) or schedules a search for the text. */
    method OnInput(value: string)
      requires Valid()
      modifies this
      ensures Valid()
      ensures currentQuery == ops.trim(value)
      ensures pending == if LongEnough(currentQuery) then Some(currentQuery) else None
      ensures visible == (old(visible) && LongEnough(currentQuery))
      ensures outstanding == old(outstanding) && content == old(content)
    {
      var query := ops.trim(value);
      currentQuery := query;
      pending := None;
      if !LongEnough(query) {
        HideDropdown();
        return;
      }
      pending := Some(query);
    }

    /** The debounce timer fires: the pending search, if any, is sent, and it is
        for the current query. */
    method OnTimerFired() returns (sent: Option<SearchRequest>)
      requires Valid()
      modifies this
      ensures Valid()
      ensures sent.Some? <==> old(pending).Some?
      ensures sent.Some? ==> sent.value == SearchRequest(currentQuery, HybridSearchParams)
      ensures pending == None
      ensures outstanding == if sent.Some? then old(outstanding) + multiset{sent.value.query} else old(outstanding)
      ensures currentQuery == old(currentQuery) && visible == old(visible) && content == old(content)
    {
      match pending
      case None =>
        sent := None;
      case Some(query) =>
        sent := Some(SearchRequest(query, HybridSearchParams));
        outstanding := outstanding + multiset{query};
        pending := None;
    }

    /** A search for `query` resolves with `hits`: they are rendered for `query`
        and the dropdown is shown. Nothing checks that `query` is still current. */
    method OnSearchSucceeded(query: string, hits: seq<Hit>)
      requires Valid()
      requires query in outstanding
      modifies this
      ensures Valid()
      ensures Renders(content, hits, query, ops)
      ensures visible
      ensures outstanding == old(outstanding) - multiset{query}
      ensures currentQuery == old(currentQuery) && pending == old(pending)
    {
      outstanding := outstanding - multiset{query};
      content := RenderResults(hits, query, ops);
      ShowDropdown();
    }

    /** A search for `query` is rejected: the dropdown is hidden, its content kept. */
    method OnSearchFailed(query: string)
      requires Valid()
      requires query in outstanding
      modifies this
      ensures Valid()
      ensures !visible
      ensures outstanding == old(outstanding) - multiset{query}
      ensures currentQuery == old(currentQuery) && pending == old(pending) && content == old(content)
    {
      outstanding := outstanding - multiset{query};
      HideDropdown();
    }

    /** A click anywhere in the document hides the dropdown only when its target
        is inside neither the input nor the dropdown. */
    method OnDocumentClick(insideInput: bool, insideDropdown: bool)
      requires Valid()
      modifies this
      ensures Valid()
      ensures !insideInput && !insideDropdown ==> !visible
      ensures insideInput || insideDropdown ==> visible == old(visible)
      ensures currentQuery == old(currentQuery) && pending == old(pending)
      ensures outstanding == old(outstanding) && content == old(content)
    {
      if !insideInput && !insideDropdown {
        HideDropdown();
      }
    }

    /** Focus on the input shows the dropdown when the current query is long
        enough, and changes nothing otherwise. */
    method OnFocus()
      requires Valid()
      modifies this
      ensures Valid()
      ensures LongEnough(currentQuery) ==> visible
      ensures !LongEnough(currentQuery) ==> visible == old(visible)
      ensures currentQuery == old(currentQuery) && pending == old(pending)
      ensures outstanding == old(outstanding) && content == old(content)
    {
      if JsLength(currentQuery) >= MinChars {
        ShowDropdown();
      }
    }

    /** The `keydown` listener: Enter with a non-empty trimmed value navigates to
        the catalog page of that value; any other key, or an empty value, does
        nothing. The state is untouched. */
    method OnKeyDown(key: string, value: string) returns (navigateTo: Option<string>)
      ensures navigateTo.Some? <==> key == "Enter" && ops.trim(value) != ""
      ensures navigateTo.Some? ==> navigateTo.value == CatalogUrl(ops.trim(value), ops)
    {
      if key == "Enter" {
        var query := ops.trim(value);
        if query != "" {
          return Some(CatalogUrl(query, ops));
        }
      }
      return None;
    }
  }

  /** Two inputs before the timer fires cause one search only, for the second
      text; a second timer event sends nothing. */
  method DebounceCollapsesBurst(ops: StringOps, first: string, second: string)
    returns (sent: Option<SearchRequest>, sentAgain: Option<SearchRequest>)
    requires LongEnough(ops.trim(second))
    ensures sent == Some(SearchRequest(ops.trim(second), HybridSearchParams))
    ensures sentAgain == None
  {
    var box := new SearchBox(ops);
    box.OnInput(first);
    box.OnInput(second);
    sent := box.OnTimerFired();
    sentAgain := box.OnTimerFired();
  }

  /** There is no stale-response guard: when the response to an earlier query
      arrives after the response to a later one, the earlier query's hits stay
      on screen although the current query is the later one. */
  method StaleResponseIsRendered(ops: StringOps, earlier: string, later: string,
                                 earlierHits: seq<Hit>, laterHits: seq<Hit>)
    returns (current: string, shown: seq<Block>, visible: bool)
    requires LongEnough(ops.trim(earlier)) && LongEnough(ops.trim(later))
    ensures current == ops.trim(later)
    ensures Renders(shown, earlierHits, ops.trim(earlier), ops)
    ensures visible
  {
    var box := new SearchBox(ops);
    box.OnInput(earlier);
    var r1 := box.OnTimerFired();
    box.OnInput(later);
    var r2 := box.OnTimerFired();
    box.OnSearchSucceeded(ops.trim(later), laterHits);
    box.OnSearchSucceeded(ops.trim(earlier), earlierHits);
    current, shown, visible := box.currentQuery, box.content, box.visible;
  }

  /** Shortening the query hides the dropdown but does not cancel a search
      already sent: its late response shows the dropdown again for a query that
      is too short to search. */
  method LateResponseReopensDropdown(ops: StringOps, longer: string, shorter: string, hits: seq<Hit>)
    returns (current: string, visible: bool)
    requires LongEnough(ops.trim(longer)) && !LongEnough(ops.trim(shorter))
    ensures current == ops.trim(shorter) && !LongEnough(current)
    ensures visible
  {
    var box := new SearchBox(ops);
    box.OnInput(longer);
    var r := box.OnTimerFired();
    box.OnInput(shorter);
    assert !box.visible;
    box.OnSearchSucceeded(ops.trim(longer), hits);
    current, visible := box.currentQuery, box.visible;
  }
}
