# Search-box controllers of a shop front, modelled in Dafny

The repository adds live product search to a shop page through two browser scripts.

- **`v3/js/algolia-search-hybrid.js`** takes over the page's existing search input.
  - Each keystroke records the trimmed text and debounces a remote search for 200 ms.
  - Each completed search re-renders a results dropdown under the input.
  - Enter goes to `/catalog/q/<encoded query>`.
  - Clicking outside, or typing a query shorter than 2 characters, hides the dropdown.
  - Focusing the input shows it again.
- **`js/algolia-search.js`** configures an autocomplete widget.
  - It supplies the rules the widget calls back into: which sources exist, an item's price, stock label and image, and the "view all" link.
  - Submitting and the search icon go to `/search-results?q=<encoded query>`.

The model has four modules:

- `JsValues` (`js_values.dfy`): the JavaScript semantics both scripts rely on.
  - Truthiness of optional string and number attributes.
  - The `a || b` fallback.
  - `String.prototype.length` counted in UTF-16 code units, so a character outside the Basic Multilingual Plane counts twice against the 2-character minimum.
  - The three string built-ins `trim`, `encodeURIComponent` and `escapeHtml`, kept uninterpreted as function values in a `StringOps` record.
  - The options of a search request.
- `HybridRender` (`hybrid_render.dfy`): the rendering rules of the hybrid script.
  - Fallbacks for the name, link and image.
  - The three-way price decision (sale and original, regular only, or "Preț la cerere").
  - `RenderResults`, the loop that builds the dropdown's content, proved against the `Renders` specification.
  - The dropdown's content is a list of abstract blocks: a no-results block, or one item per hit followed by one footer.
- `HybridSearchBox` (`hybrid_search_box.dfy`): the controller of the hybrid script.
  - It is the class `SearchBox`, whose fields are the closure's state:
    - the current query;
    - the query captured by the pending debounce timer;
    - the searches sent and not yet answered;
    - the dropdown's visibility and content.
  - There is one method per event: input, timer fired, search succeeded, search failed, document click, focus and key down.
  - Time is the explicit "timer fired" event.
  - A remote search's outcome is an event argument.
  - Navigation is returned as an optional URL.
- `Autocomplete` (`autocomplete.dfy`): the pure rules of the autocomplete script.

The code has no stale-response guard, and the model keeps that behaviour:

- `SearchBox.OnSearchSucceeded` renders whatever query the answered search was for.
- `StaleResponseIsRendered` and `LateResponseReopensDropdown` show the consequences.

The title of a hybrid result item is inserted without escaping, and `Block.Item.title` keeps it that way.

The two scripts ask for different numbers of hits: 15 per search in the hybrid script (v3/js/algolia-search-hybrid.js:117) and 8 in the autocomplete script (js/algolia-search.js:47).

## Model

| member | source | states |
|---|---|---|
| JsValues.JsLength | v3/js/algolia-search-hybrid.js:64 | a query's JavaScript length is between its number of characters and twice that, and is 0 exactly for the empty query |
| JsValues.JsLengthOfBmp | v3/js/algolia-search-hybrid.js:96 | for text made only of Basic Multilingual Plane characters, the length compared with MIN_CHARS is the number of characters |
| JsValues.Or | v3/js/algolia-search-hybrid.js:189 | `field \|\| fallback` is the field when it is a non-empty string and the fallback otherwise, so it is never empty when the fallback is not |
| HybridRender.CatalogUrl | v3/js/algolia-search-hybrid.js:255 | the catalog link is `/catalog/q/` followed by exactly the encoded query, so the encoded query can be read back from it |
| HybridRender.SalePrice | v3/js/algolia-search-hybrid.js:213 | no sale price when the raw `sale_price` is falsy; otherwise the parsed value, which may be `NaN` |
| HybridRender.RegularPrice | v3/js/algolia-search-hybrid.js:214-215 | `price_gross` wins whenever its raw value is truthy, even when it does not parse; `price` is used only when `price_gross` is falsy; otherwise there is no regular price |
| HybridRender.PriceTagOf | v3/js/algolia-search-hybrid.js:218-232 | the sale amount is below the original amount, and a lone regular amount is positive |
| HybridRender.SaleShownExactlyWhenDiscounted | v3/js/algolia-search-hybrid.js:218-225 | sale and original are shown, sale first, if and only if both are truthy and sale < regular, with the amounts taken from the hit |
| HybridRender.RegularShownExactlyWhenPositive | v3/js/algolia-search-hybrid.js:226-228 | without a discount, the regular price alone is shown if and only if it is present and positive |
| HybridRender.OnRequestOtherwise | v3/js/algolia-search-hybrid.js:229-232 | "Preț la cerere" is shown if and only if there is neither a discount nor a positive regular price |
| HybridRender.PositiveRegularPriceIsShown | v3/js/algolia-search-hybrid.js:213-232 | a positive regular price is always displayed, alone or as the struck-through original of a sale |
| HybridRender.ProductName | v3/js/algolia-search-hybrid.js:184-186 | the name falls back from the highlighted value to `product name` to `Produs`, and is never empty |
| HybridRender.ProductUrl | v3/js/algolia-search-hybrid.js:189 | the item link falls back to `#` |
| HybridRender.ImageUrl | v3/js/algolia-search-hybrid.js:192 | the image falls back to the inline placeholder |
| HybridRender.RenderHit | v3/js/algolia-search-hybrid.js:183-250 | one item per hit: escaped link, image and alt text, with the alt text falling back from the plain name only; an unescaped, non-empty title; an escaped manufacturer exactly when the hit has a truthy one; and the decided price |
| HybridRender.RenderResults | v3/js/algolia-search-hybrid.js:161-263 | the loop produces the content `Renders` specifies: only a no-results block with the escaped query for no hits, else one item per hit in order and then one footer to the catalog page of the query |
| HybridRender.RendersDeterministic | v3/js/algolia-search-hybrid.js:161-263 | the content for a list of hits and a query is unique |
| HybridRender.RenderingShape | v3/js/algolia-search-hybrid.js:162-169 | a no-results block appears exactly when there are no hits; with hits there is exactly one footer, the last block, and every other block is an item |
| HybridSearchBox.LongEnough | v3/js/algolia-search-hybrid.js:64 | the `MIN_CHARS` test: every query of at least 2 characters passes, and a passing query is never empty (one astral character already passes) |
| HybridSearchBox.SearchBox.constructor | v3/js/algolia-search-hybrid.js:52-53 | start state: empty query, no pending timer, no search sent, hidden empty dropdown |
| HybridSearchBox.SearchBox.ShowDropdown | v3/js/algolia-search-hybrid.js:266-268 | the dropdown becomes visible |
| HybridSearchBox.SearchBox.HideDropdown | v3/js/algolia-search-hybrid.js:271-273 | the dropdown becomes hidden |
| HybridSearchBox.SearchBox.OnInput | v3/js/algolia-search-hybrid.js:56-73 | records the trimmed text as current query and cancels any pending search; a short text also hides the dropdown; a long enough text leaves exactly one pending search, for that text; the invariant "a pending search is for the current, long enough query" is kept |
| HybridSearchBox.SearchBox.OnTimerFired | v3/js/algolia-search-hybrid.js:115-132 | sends a search exactly when one was pending, for the current query with 15 hits requested, and records it as outstanding; nothing else changes |
| HybridSearchBox.SearchBox.OnSearchSucceeded | v3/js/algolia-search-hybrid.js:133-135 | renders the hits for the query the search was sent with, whatever the current query is, and shows the dropdown |
| HybridSearchBox.SearchBox.OnSearchFailed | v3/js/algolia-search-hybrid.js:136-139 | hides the dropdown and keeps its content |
| HybridSearchBox.SearchBox.OnDocumentClick | v3/js/algolia-search-hybrid.js:88-92 | hides the dropdown when the target is inside neither the input nor the dropdown; otherwise nothing changes |
| HybridSearchBox.SearchBox.OnFocus | v3/js/algolia-search-hybrid.js:95-99 | shows the dropdown when the current query is at least 2 code units long; otherwise nothing changes |
| HybridSearchBox.SearchBox.OnKeyDown | v3/js/algolia-search-hybrid.js:76-85 | navigates if and only if the key is Enter and the trimmed value is non-empty, and then to `/catalog/q/` plus the encoded trimmed value |
| HybridSearchBox.DebounceCollapsesBurst | v3/js/algolia-search-hybrid.js:60-72 | two inputs before the timer fires cause exactly one search, for the second text, and a second timer event sends nothing |
| HybridSearchBox.StaleResponseIsRendered | v3/js/algolia-search-hybrid.js:133-135 | when the earlier query's response arrives last, its hits are displayed while the current query is the later one |
| HybridSearchBox.LateResponseReopensDropdown | v3/js/algolia-search-hybrid.js:64-67 | hiding the dropdown for a short query does not cancel a search already sent, and its late response makes the dropdown visible for a query too short to search |
| Autocomplete.GetSources | js/algolia-search.js:35-44 | no source for the empty query; otherwise exactly one source, `products`, for that query, requesting 8 hits with `title` highlighted |
| Autocomplete.ShownPrice | js/algolia-search.js:67 | the sale price whenever it is truthy, else `price_gross`; there is a number to format exactly when the sale price is truthy or `price_gross` is present (a sale price of 0 does not count) |
| Autocomplete.SalePriceShownWithoutDiscountCheck | js/algolia-search.js:67 | a sale price above the regular price is still shown, where the hybrid box would show the regular price alone |
| Autocomplete.InStock | js/algolia-search.js:68 | in stock if and only if the stock converts to a number above 0 and the availability is exactly "in stock" |
| Autocomplete.StockBadgeOf | js/algolia-search.js:68-86 | "În stoc" without the out-of-stock class if and only if stock > 0 and availability is exactly "in stock"; otherwise "Stoc epuizat" with the class |
| Autocomplete.InStockNeedsBoth | js/algolia-search.js:68 | neither a positive stock alone nor the availability alone makes an item in stock |
| Autocomplete.ImageSrc | js/algolia-search.js:73 | the image falls back to `/images/no-image.jpg` when `image_url` is falsy |
| Autocomplete.ResultsUrl | js/algolia-search.js:126 | the results link is `/search-results?q=` followed by exactly the encoded query |
| Autocomplete.OnSubmit | js/algolia-search.js:123-127 | navigates if and only if the query is non-empty, and then to the results link of the query |
| Autocomplete.OnIconClick | js/algolia-search.js:132-139 | navigates if and only if the value read from the element is a non-empty string (an element without a string `value` gives none), to the results link of that value, untrimmed |
| Autocomplete.FooterLink | js/algolia-search.js:98 | the footer link is where submitting the same non-empty query leads |
| Autocomplete.FooterLinkIsSubmitTarget | js/algolia-search.js:94-98 | whenever a source, and so a footer, exists, the footer links where submit navigates |
| Autocomplete.SourcesIffSubmitNavigates | js/algolia-search.js:35-38 | a query has sources exactly when submitting it navigates |

## Left out

- Remote search. The search client and `index.search` (v3/js/algolia-search-hybrid.js:41-42, js/algolia-search.js:23-24, 46-61) are not modelled. A search's result or failure is an argument of the `OnSearchSucceeded`/`OnSearchFailed` events. Searches are assumed answered only once and only if sent. The `console.error` logged on a failed search (v3/js/algolia-search-hybrid.js:137) is not modelled.
- The autocomplete widget. The widget itself, its highlighting component, its `noResults` template and its outside-click `setIsOpen(false)` (js/algolia-search.js:27-29, 80, 109-116, 143-147) are library behaviour and not modelled.
- DOM work. Element creation and insertion, `querySelector`, listener registration, start-up on `readyState`, the start-up failure paths with their console messages (v3/js/algolia-search-hybrid.js:23-49, 103-112, 283-287), and `preventDefault` are not modelled. Navigation returns the URL instead of setting `window.location`.
- Timing. The 200 ms debounce delay is the discrete `OnTimerFired` event.
- Infinite prices. `PriceField` holds a finite number or `NaN` after `parseFloat`. A raw value such as "Infinity" or "1e400" parses to an infinity, which is truthy and takes part in the comparisons of v3/js/algolia-search-hybrid.js:218 and 226. Such prices are not represented.
- Lone surrogates. A JavaScript string can hold an unpaired surrogate, which counts 1 in `.length` (v3/js/algolia-search-hybrid.js:64, 96). A Dafny `char` cannot hold one, so `JsLength` covers only well-formed text.
- Template errors. When the chosen autocomplete price is absent or `null`, `price.toFixed(2)` throws a TypeError (js/algolia-search.js:83). `ShownPrice` returns `None` for that case; the exception and what the library does with it are not modelled.
- Number formatting. The following are not modelled:
  - `Intl.NumberFormat('ro-RO')` and the " RON" suffix (v3/js/algolia-search-hybrid.js:204-210);
  - `toFixed(2)` and the currency (js/algolia-search.js:83);
  - `fixEAN` (v3/js/algolia-search-hybrid.js:143-158), whose result never reaches the output.
- HybridRender.PriceTagOf: keeps the chosen amounts as numbers, not their formatted text. `formatPrice` rounds to whole RON, so after rounding the sale and original texts can be equal (a sale of 149.99 against an original of 150 both show "150 RON"), and a positive amount below 0.5 shows as "0 RON".
- String built-ins. `trim`, `encodeURIComponent` and `escapeHtml` (v3/js/algolia-search-hybrid.js:276-280) are uninterpreted functions in `StringOps`. No property of escaping or encoding itself is stated.
- Markup. Blocks stand for the generated HTML. Class names, the `onerror` image fallback attribute and the static texts around the fields are not represented.
- Autocomplete.OnIconClick: assumes `document.getElementById('algolia-search-input')` exists (js/algolia-search.js:135); if it does not, reading `.value` throws, which is not modelled. The same id is passed to the widget as its `container` (js/algolia-search.js:30); if that element is not an `<input>`, its `value` is undefined, modelled as `None`, and the icon never navigates.
- Autocomplete item fields. The item link and alt text (`item.url`, `item.title`, js/algolia-search.js:71-74) are inserted as they come and have no rule to model.
- Configuration. Credentials and index names (v3/js/algolia-search-hybrid.js:11-13, js/algolia-search.js:11-13) are not modelled.
