/** The decision rules of the autocomplete search box (js/algolia-search.js): which
    sources exist for a query, what an item shows for price, stock and image, and
    where submitting, the search icon and the "view all" footer lead. The
    autocomplete library that calls these rules is not modelled. */
module Autocomplete {
  import opened JsValues
  import HybridRender

  /** The results page that submit, the icon and the footer lead to. */
  const SearchResultsUrl := "/search-results"
  const ProductsSourceId := "products"
  const NoImageUrl := "/images/no-image.jpg"
  const InStockLabel := "În stoc"
  const OutOfStockLabel := "Stoc epuizat"
  const OutOfStockClass := "out-of-stock"

  /** The options of the products source's `index.search` call. */
  const ProductsSearchParams := SearchParams(
    8,
    ["objectID", "title", "sku", "url", "image_url", "price_gross", "sale_price",
     "currency", "stock", "availability"],
    ["title"])

  /** A hit of the products index. Numbers come from JSON, so `None` is an absent
      or `null` attribute. `stock` is the number the comparison `stock > 0`
      converts the attribute to, `None` when that conversion gives `NaN`. */
  datatype Product = Product(
    title: Option<string>,
    url: Option<string>,
    imageUrl: Option<string>,
    priceGross: Option<real>,
    salePrice: Option<real>,
    currency: Option<string>,
    stock: Option<real>,
    availability: Option<string>)

  /** A source handed to the library: its id, the query its search is for and the search options. */
  datatype Source = Source(sourceId: string, query: string, params: SearchParams)

  /** The stock line of an item: its text and whether it carries the out-of-stock class. */
  datatype StockBadge = StockBadge(text: string, outOfStock: bool)

  /** `getSources`: no source for an empty query, otherwise the products source for it. */
  function GetSources(query: string): (sources: seq<Source>)
    ensures sources == [] <==> query == ""
    ensures query != "" ==>
      (|sources| == 1
       && sources[0].sourceId == ProductsSourceId
       && sources[0].query == query
       && sources[0].params.hitsPerPage == 8
       && sources[0].params.attributesToHighlight == ["title"])
  {
    if query == "" then []
    else [Source(ProductsSourceId, query, ProductsSearchParams)]
  }

  /** `item.sale_price || item.price_gross`: the sale price whenever it is truthy,
      with no comparison against the regular price. `None` means there is no
      number to format and `toFixed` would throw. */
  function ShownPrice(p: Product): (price: Option<real>)
    ensures NumTruthy(p.salePrice) ==> price == p.salePrice
    ensures !NumTruthy(p.salePrice) ==> price == p.priceGross
    ensures price.Some? <==> NumTruthy(p.salePrice) || p.priceGross.Some?
  {
    if NumTruthy(p.salePrice) then p.salePrice else p.priceGross
  }

  /** Unlike the hybrid box, a sale price above the regular price is still shown:
      for the same numbers the hybrid box shows the regular price alone. */
  lemma SalePriceShownWithoutDiscountCheck(p: Product, h: HybridRender.Hit)
    requires p.salePrice.Some? && p.priceGross.Some?
    requires p.salePrice.value > p.priceGross.value > 0.0
    requires h.salePrice == HybridRender.Present(p.salePrice)
    requires h.priceGross == HybridRender.Present(p.priceGross)
    ensures ShownPrice(p) == p.salePrice
    ensures HybridRender.PriceTagOf(h) == HybridRender.RegularOnly(p.priceGross.value)
  {
  }

  /** `isInStock`: a positive stock and the availability exactly "in stock". */
  predicate InStock(p: Product)
    ensures InStock(p) ==> p.stock.Some? && p.stock.value > 0.0
    ensures InStock(p) ==> Truthy(p.availability) && p.availability.value == "in stock"
    ensures p.stock.Some? && p.stock.value > 0.0 && p.availability == Some("in stock") ==> InStock(p)
  {
    p.stock.Some? && p.stock.value > 0.0 && p.availability == Some("in stock")
  }

  /** The stock line: "În stoc" without the out-of-stock class when in stock,
      otherwise "Stoc epuizat" with it. */
  function StockBadgeOf(p: Product): (b: StockBadge)
    ensures b.text == InStockLabel <==> InStock(p)
    ensures b.text == OutOfStockLabel <==> !InStock(p)
    ensures b.outOfStock <==> !InStock(p)
  {
    if InStock(p) then StockBadge(InStockLabel, false)
    else StockBadge(OutOfStockLabel, true)
  }

  /** A positive stock alone does not make an item in stock, nor does the
      availability alone. */
  lemma InStockNeedsBoth(p: Product)
    ensures p.availability != Some("in stock") ==> StockBadgeOf(p).outOfStock
    ensures (p.stock.None? || p.stock.value <= 0.0) ==> StockBadgeOf(p).outOfStock
  {
  }

  /** The image of an item, the local placeholder when `image_url` is falsy. */
  function ImageSrc(p: Product): (src: string)
    ensures src != ""
    ensures Truthy(p.imageUrl) ==> src == p.imageUrl.value
    ensures !Truthy(p.imageUrl) ==> src == NoImageUrl
  {
    Or(p.imageUrl, NoImageUrl)
  }

  /** `SEARCH_RESULTS_URL + '?q=' + encodeURIComponent(query)`. */
  function ResultsUrl(query: string, ops: StringOps): (url: string)
    ensures |url| == |SearchResultsUrl| + 3 + |ops.encodeUriComponent(query)|
    ensures url[..|SearchResultsUrl| + 3] == SearchResultsUrl + "?q="
    ensures url[|SearchResultsUrl| + 3..] == ops.encodeUriComponent(query)
  {
    SearchResultsUrl + "?q=" + ops.encodeUriComponent(query)
  }

  /** `onSubmit`: navigates to the results page of the query only when it is non-empty. */
  function OnSubmit(query: string, ops: StringOps): (navigateTo: Option<string>)
    ensures navigateTo.Some? <==> query != ""
    ensures navigateTo.Some? ==> navigateTo.value == ResultsUrl(query, ops)
  {
    if query != "" then Some(ResultsUrl(query, ops)) else None
  }

  /** The search icon's click handler: the same guard and URL, applied to the
      `value` of the element with id `algolia-search-input`, as read (not
      trimmed). `None` is an element without a string `value` (`undefined`),
      which is falsy, so nothing happens. */
  function OnIconClick(elementValue: Option<string>, ops: StringOps): (navigateTo: Option<string>)
    ensures navigateTo.Some? <==> Truthy(elementValue)
    ensures navigateTo.Some? ==> navigateTo.value == ResultsUrl(elementValue.value, ops)
  {
    if Truthy(elementValue) then OnSubmit(elementValue.value, ops) else None
  }

  /** The footer's "view all" link for the library's current query. */
  function FooterLink(query: string, ops: StringOps): (href: string)
    ensures query != "" ==> OnSubmit(query, ops) == Some(href)
  {
    ResultsUrl(query, ops)
  }

  /** Whenever the dropdown has a source (and so a footer), its "view all" link
      is exactly where submitting the same query leads. */
  lemma FooterLinkIsSubmitTarget(query: string, ops: StringOps)
    requires GetSources(query) != []
    ensures OnSubmit(query, ops) == Some(FooterLink(query, ops))
  {
  }

  /** A query produces sources exactly when submitting it navigates. */
  lemma SourcesIffSubmitNavigates(query: string, ops: StringOps)
    ensures GetSources(query) != [] <==> OnSubmit(query, ops).Some?
  {
  }
}
