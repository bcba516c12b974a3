/** Result rendering of the hybrid search box (v3/js/algolia-search-hybrid.js):
    field fallbacks, the three-way price decision and the structure of the
    dropdown's content. Markup is abstracted to a list of blocks; locale price
    formatting is left out, so a price is kept as the parsed number. */
module HybridRender {
  import opened JsValues

  /** The catalog page that Enter and "view all" lead to. */
  const SearchResultsUrl := "/catalog/q"
  const NameFallback := "Produs"
  const UrlFallback := "#"
  /** Inline SVG shown when a hit has no image. */
  const NoImagePlaceholder := "data:image/svg+xml,%3Csvg xmlns=\"http://www.w3.org/2000/svg\" width=\"80\" height=\"80\" viewBox=\"0 0 80 80\"%3E%3Crect fill=\"%23f0f0f0\" width=\"80\" height=\"80\"/%3E%3Ctext x=\"50%25\" y=\"50%25\" dominant-baseline=\"middle\" text-anchor=\"middle\" font-family=\"Arial\" font-size=\"12\" fill=\"%23999\"%3ENo Image%3C/text%3E%3C/svg%3E"

  /** A raw price attribute of a hit. `Missing` is any JavaScript-falsy raw value
      (absent, `null`, `""`, 0), for which the script does not call `parseFloat`;
      `Present` is a truthy raw value together with what `parseFloat` made of it
      (`None` for `NaN`; an infinite result is not represented). */
  datatype PriceField = Missing | Present(parsed: Option<real>)

  /** The attributes of a search hit that rendering reads. */
  datatype Hit = Hit(
    highlightedName: Option<string>,  // _highlightResult['product name'].value
    productName: Option<string>,      // 'product name'
    productUrl: Option<string>,       // 'product url'
    mainImageUrl: Option<string>,     // 'main image url'
    manufacturer: Option<string>,
    salePrice: PriceField,            // sale_price
    priceGross: PriceField,           // price_gross
    price: PriceField)                // price

  /** What the price line of an item shows. */
  datatype PriceTag =
    | SaleAndOriginal(sale: real, original: real)  // sale price, then struck-through original
    | RegularOnly(amount: real)
    | OnRequest                                    // the text "Preț la cerere"

  /** One block of the dropdown's content. Strings that the script passes through
      `escapeHtml` are stored escaped; the title is stored as inserted, unescaped. */
  datatype Block =
    | NoResults(escapedQuery: string)
    | Item(href: string, imageSrc: string, imageAlt: string, title: string,
           manufacturer: Option<string>, price: PriceTag)
    | Footer(href: string)

  /** `SEARCH_RESULTS_URL + '/' + encodeURIComponent(query)`. */
  function CatalogUrl(query: string, ops: StringOps): (url: string)
    ensures |url| == |SearchResultsUrl| + 1 + |ops.encodeUriComponent(query)|
    ensures url[..|SearchResultsUrl| + 1] == SearchResultsUrl + "/"
    ensures url[|SearchResultsUrl| + 1..] == ops.encodeUriComponent(query)
  {
    SearchResultsUrl + "/" + ops.encodeUriComponent(query)
  }

  /** The sale price after parsing; `None` stands for `null` and for `NaN`. */
  function SalePrice(h: Hit): (r: Option<real>)
    ensures h.salePrice.Missing? ==> r == None
    ensures h.salePrice.Present? ==> r == h.salePrice.parsed
  {
    match h.salePrice
    case Missing => None
    case Present(p) => p
  }

  /** The regular price: `price_gross` whenever its raw value is truthy (even if it
      does not parse), otherwise `price`, otherwise nothing. */
  function RegularPrice(h: Hit): (r: Option<real>)
    ensures h.priceGross.Present? ==> r == h.priceGross.parsed
    ensures h.priceGross.Missing? && h.price.Present? ==> r == h.price.parsed
    ensures h.priceGross.Missing? && h.price.Missing? ==> r == None
  {
    match h.priceGross
    case Present(p) => p
    case Missing =>
      match h.price
      case Present(p) => p
      case Missing => None
  }

  /** True when the hit is shown as discounted: both prices truthy and the sale below the regular. */
  predicate IsDiscounted(h: Hit) {
    NumTruthy(SalePrice(h)) && NumTruthy(RegularPrice(h))
    && SalePrice(h).value < RegularPrice(h).value
  }

  /** The price decision of one result item. */
  function PriceTagOf(h: Hit): (t: PriceTag)
    ensures t.SaleAndOriginal? ==> t.sale < t.original
    ensures t.RegularOnly? ==> t.amount > 0.0
  {
    var sale := SalePrice(h);
    var regular := RegularPrice(h);
    if NumTruthy(sale) && NumTruthy(regular) && sale.value < regular.value then
      SaleAndOriginal(sale.value, regular.value)
    else if NumTruthy(regular) && regular.value > 0.0 then
      RegularOnly(regular.value)
    else
      OnRequest
  }

  /** Sale and original are both shown, sale first, exactly when the hit is discounted. */
  lemma SaleShownExactlyWhenDiscounted(h: Hit)
    ensures PriceTagOf(h).SaleAndOriginal? <==> IsDiscounted(h)
    ensures PriceTagOf(h).SaleAndOriginal? ==>
      Some(PriceTagOf(h).sale) == SalePrice(h) && Some(PriceTagOf(h).original) == RegularPrice(h)
  {
  }

  /** Without a discount, the regular price alone is shown exactly when it is positive. */
  lemma RegularShownExactlyWhenPositive(h: Hit)
    ensures PriceTagOf(h).RegularOnly? <==>
      !IsDiscounted(h) && RegularPrice(h).Some? && RegularPrice(h).value > 0.0
    ensures PriceTagOf(h).RegularOnly? ==> Some(PriceTagOf(h).amount) == RegularPrice(h)
  {
  }

  /** "Preț la cerere" is shown exactly when there is neither a discount nor a positive regular price. */
  lemma OnRequestOtherwise(h: Hit)
    ensures PriceTagOf(h).OnRequest? <==>
      !IsDiscounted(h) && !(RegularPrice(h).Some? && RegularPrice(h).value > 0.0)
  {
  }

  /** A positive regular price is never replaced by "Preț la cerere", whatever the sale price. */
  lemma PositiveRegularPriceIsShown(h: Hit)
    requires RegularPrice(h).Some? && RegularPrice(h).value > 0.0
    ensures PriceTagOf(h).SaleAndOriginal? || PriceTagOf(h) == RegularOnly(RegularPrice(h).value)
    ensures PriceTagOf(h).SaleAndOriginal? ==> PriceTagOf(h).original == RegularPrice(h).value
  {
  }

  /** The displayed name: highlighted name, else the plain name, else "Produs". */
  function ProductName(h: Hit): (name: string)
    ensures name != ""
    ensures Truthy(h.highlightedName) ==> name == h.highlightedName.value
    ensures !Truthy(h.highlightedName) && Truthy(h.productName) ==> name == h.productName.value
    ensures !Truthy(h.highlightedName) && !Truthy(h.productName) ==> name == NameFallback
  {
    Or(h.highlightedName, Or(h.productName, NameFallback))
  }

  /** The link of an item, `'#'` when the hit has none. */
  function ProductUrl(h: Hit): (url: string)
    ensures url != ""
    ensures Truthy(h.productUrl) ==> url == h.productUrl.value
    ensures !Truthy(h.productUrl) ==> url == UrlFallback
  {
    Or(h.productUrl, UrlFallback)
  }

  /** The image of an item, the placeholder when the hit has none. */
  function ImageUrl(h: Hit): (url: string)
    ensures url != ""
    ensures Truthy(h.mainImageUrl) ==> url == h.mainImageUrl.value
    ensures !Truthy(h.mainImageUrl) ==> url == NoImagePlaceholder
  {
    Or(h.mainImageUrl, NoImagePlaceholder)
  }

  /** One rendered result item. The alt text falls back from the plain name only
      (not the highlight); the title is inserted without escaping. */
  function RenderHit(h: Hit, ops: StringOps): (b: Block)
    ensures b.Item?
    ensures b.href == ops.escapeHtml(ProductUrl(h))
    ensures b.imageSrc == ops.escapeHtml(ImageUrl(h))
    ensures b.imageAlt == ops.escapeHtml(Or(h.productName, NameFallback))
    ensures b.title == ProductName(h) && b.title != ""
    ensures b.manufacturer.Some? <==> Truthy(h.manufacturer)
    ensures b.manufacturer.Some? ==> b.manufacturer.value == ops.escapeHtml(h.manufacturer.value)
    ensures b.price == PriceTagOf(h)
  {
    Item(
      ops.escapeHtml(ProductUrl(h)),
      ops.escapeHtml(ImageUrl(h)),
      ops.escapeHtml(Or(h.productName, NameFallback)),
      ProductName(h),
      if Truthy(h.manufacturer) then Some(ops.escapeHtml(h.manufacturer.value)) else None,
      PriceTagOf(h))
  }

  /** `blocks` is what the dropdown holds after rendering `hits` for `query`: a
      single no-results block with the escaped query when there are no hits,
      otherwise one item per hit in hit order followed by one footer that links
      to the catalog page of the query. */
  predicate Renders(blocks: seq<Block>, hits: seq<Hit>, query: string, ops: StringOps) {
    if |hits| == 0 then
      blocks == [NoResults(ops.escapeHtml(query))]
    else
      |blocks| == |hits| + 1
      && (forall k :: 0 <= k < |hits| ==> blocks[k] == RenderHit(hits[k], ops))
      && blocks[|hits|] == Footer(CatalogUrl(query, ops))
  }

  /** `renderResults`: builds the dropdown's content, appending one item per hit
      and then the footer. */
  method RenderResults(hits: seq<Hit>, query: string, ops: StringOps) returns (blocks: seq<Block>)
    ensures Renders(blocks, hits, query, ops)
  {
    if |hits| == 0 {
      return [NoResults(ops.escapeHtml(query))];
    }
    blocks := [];
    for i := 0 to |hits|
      invariant |blocks| == i
      invariant forall k :: 0 <= k < i ==> blocks[k] == RenderHit(hits[k], ops)
    {
      blocks := blocks + [RenderHit(hits[i], ops)];
    }
    blocks := blocks + [Footer(CatalogUrl(query, ops))];
  }

  /** The rendering of a list of hits is unique. */
  lemma RendersDeterministic(b1: seq<Block>, b2: seq<Block>, hits: seq<Hit>, query: string, ops: StringOps)
    requires Renders(b1, hits, query, ops) && Renders(b2, hits, query, ops)
    ensures b1 == b2
  {
    if |hits| > 0 {
      assert forall k :: 0 <= k < |b1| ==> b1[k] == b2[k] by {
        forall k | 0 <= k < |b1| ensures b1[k] == b2[k] {
          if k < |hits| {
            assert b1[k] == RenderHit(hits[k], ops) == b2[k];
          }
        }
      }
    }
  }

  /** With hits there is no no-results block and exactly one footer, the last block;
      without hits there is no footer. */
  lemma {:induction false} RenderingShape(blocks: seq<Block>, hits: seq<Hit>, query: string, ops: StringOps)
    requires Renders(blocks, hits, query, ops)
    ensures |hits| == 0 <==> (exists k :: 0 <= k < |blocks| && blocks[k].NoResults?)
    ensures forall k :: 0 <= k < |blocks| ==> (blocks[k].Footer? <==> |hits| > 0 && k == |hits|)
    ensures forall k :: 0 <= k < |blocks| ==> (blocks[k].Item? <==> k < |hits|)
  {
    if |hits| == 0 {
      assert blocks[0].NoResults?;
    } else {
      forall k | 0 <= k < |blocks| ensures !blocks[k].NoResults? {
        if k < |hits| {
          assert blocks[k] == RenderHit(hits[k], ops);
        }
      }
    }
  }
}
