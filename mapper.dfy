/**
 * `map_product_to_parsed_row` and the raw row built beside it: how one product of the feed
 * becomes a row of the fixed schema.
 */
module Mapper {
  import opened Wrappers
  import opened Text
  import opened Catalog
  import opened Html

  const PRODUCTS_PATH: string := "/products/"

  // ---------------------------------------------------------------------------
  // Identifiers and the product URL
  // ---------------------------------------------------------------------------

  /** `str(product.get("id") or "")`: a missing id and the falsy id `0` both give `""`. */
  function ProductId(id: Option<int>): (r: string)
    ensures r == "" <==> id == None || id == Some(0)
    ensures r != "" ==> ParseInt(r) == id
  {
    match id
    case None => ""
    case Some(n) =>
      StrRoundTrip(n);
      if n == 0 then "" else Str(n)
  }

  /** `f"{BASE_URL}/products/{handle}" if handle else ""`, with the handle stripped first. */
  function ProductUrl(handle: Option<string>): string {
    var h := Trim(OrEmpty(handle));
    if h != "" then BASE_URL + PRODUCTS_PATH + h else ""
  }

  /** The handle a product URL was built from, or `None` for a URL this store does not build. */
  function HandleOf(url: string): Option<string> {
    var prefix := BASE_URL + PRODUCTS_PATH;
    if |prefix| < |url| && url[..|prefix|] == prefix then Some(url[|prefix|..]) else None
  }

  /**
   * The product URL is empty exactly when the stripped handle is empty; otherwise it is the
   * store's product path followed by that handle, which can be read back from it.
   */
  lemma ProductUrlRoundTrip(handle: Option<string>)
    ensures var h := Trim(OrEmpty(handle));
      && (ProductUrl(handle) == "" <==> h == "")
      && HandleOf(ProductUrl(handle)) == (if h == "" then None else Some(h))
  {
    var h := Trim(OrEmpty(handle));
    var prefix := BASE_URL + PRODUCTS_PATH;
    if h != "" {
      assert (prefix + h)[..|prefix|] == prefix;
      assert (prefix + h)[|prefix|..] == h;
    }
  }

  // ---------------------------------------------------------------------------
  // Availability
  // ---------------------------------------------------------------------------

  /** `bool(x)` for an optional JSON boolean. */
  predicate Truthy(b: Option<bool>) {
    b == Some(true)
  }

  /** `any(bool(v.get("available")) for v in variants)`. */
  function AnyVariantAvailable(vs: seq<Variant>): (r: bool)
    ensures r <==> exists i :: 0 <= i < |vs| && Truthy(vs[i].available)
  {
    if vs == [] then false
    else Truthy(vs[0].available) || AnyVariantAvailable(vs[1..])
  }

  /**
   * The availability label: "in stock" exactly when some variant is available, or, for a
   * product without variants, when the product itself is marked available.
   */
  function Availability(p: Product): (r: string)
    ensures r == "in stock" || r == "out of stock"
    ensures r == "in stock" <==>
      if p.variants != [] then exists i :: 0 <= i < |p.variants| && Truthy(p.variants[i].available)
      else Truthy(p.available)
  {
    var anyAvailable := if p.variants != [] then AnyVariantAvailable(p.variants) else Truthy(p.available);
    if anyAvailable then "in stock" else "out of stock"
  }

  // ---------------------------------------------------------------------------
  // Prices
  // ---------------------------------------------------------------------------

  /** `str(x).strip() if x is not None else ""`. */
  function PriceText(x: Option<string>): string {
    match x
    case None => ""
    case Some(s) => Trim(s)
  }

  /**
   * `(price, full_price)` from the first variant only; no variants gives two empty strings.
   * The full price is kept only when it is set and differs from the price.
   */
  function Prices(vs: seq<Variant>): (r: (string, string))
    ensures vs == [] ==> r == ("", "")
    ensures vs != [] ==> r.0 == PriceText(vs[0].price)
    ensures vs != [] ==> (r.1 == "" <==> PriceText(vs[0].compareAtPrice) in {"", r.0})
    ensures r.1 != "" ==> r.1 == PriceText(vs[0].compareAtPrice) && r.1 != r.0
  {
    if vs == [] then ("", "")
    else
      var price := PriceText(vs[0].price);
      var fullPrice := PriceText(vs[0].compareAtPrice);
      if fullPrice != "" && price != "" && fullPrice == price then (price, "") else (price, fullPrice)
  }

  /** Variants after the first never change the prices. */
  lemma PricesFromFirstVariantOnly(v: Variant, rest1: seq<Variant>, rest2: seq<Variant>)
    ensures Prices([v] + rest1) == Prices([v] + rest2)
  {
  }

  // ---------------------------------------------------------------------------
  // Images
  // ---------------------------------------------------------------------------

  /** `images[0].get("src") if images else ""`: a first image without `src` gives `None`. */
  function MainImage(images: seq<Image>): Option<string> {
    if images == [] then Some("") else images[0].src
  }

  /** `[img.get("src") for img in images if img.get("src")]`: the sources that are set, in order. */
  function Sources(images: seq<Image>): (r: seq<string>)
    ensures |r| <= |images|
    ensures forall k :: 0 <= k < |r| ==> r[k] != ""
    ensures forall s :: s in r <==> exists i :: 0 <= i < |images| && images[i].src == Some(s) && s != ""
  {
    if images == [] then []
    else
      var rest := Sources(images[1..]);
      assert forall i :: 0 < i < |images| ==> images[i] == images[1..][i - 1];
      match images[0].src
      case Some(s) =>
        if s != "" then [s] + rest else rest
      case None => rest
  }

  /** The source an image contributes to the list: its `src` when set and not empty, else nothing. */
  function SourceOf(img: Image): (r: seq<string>)
    ensures |r| <= 1
    ensures r != [] <==> img.src.Some? && img.src.value != ""
    ensures r != [] ==> r == [img.src.value]
  {
    if img.src.Some? && img.src.value != "" then [img.src.value] else []
  }

  /**
   * The list comprehension keeps order and repeats: the sources of two runs of images are the
   * sources of the first run followed by those of the second, and one image gives `SourceOf`.
   * Together these fix the list.
   */
  lemma {:induction false} SourcesAppend(a: seq<Image>, b: seq<Image>)
    ensures Sources(a + b) == Sources(a) + Sources(b)
    ensures Sources([]) == [] && (forall img :: Sources([img]) == SourceOf(img))
    decreases |a|
  {
    if a != [] {
      SourcesAppend(a[1..], b);
      assert (a + b)[1..] == a[1..] + b;
      assert (a + b)[0] == a[0];
    } else {
      assert a + b == b;
    }
    forall img ensures Sources([img]) == SourceOf(img) {
      assert [img][1..] == [];
    }
  }

  /** The secondary images: the set sources of every image but the first. */
  function SecondaryImages(images: seq<Image>): seq<string> {
    if images == [] then [] else Sources(images[1..])
  }

  // ---------------------------------------------------------------------------
  // The row
  // ---------------------------------------------------------------------------

  /**
   * `map_product_to_parsed_row(product, extraction_date)`. Every row has the same columns;
   * those the feed does not supply are always empty.
   */
  function MapProduct(cfg: Config, p: Product, extractionDate: string): ParsedRow
  {
    var (price, fullPrice) := Prices(p.variants);
    var secondary := SecondaryImages(p.images);
    ParsedRow(
      platformId := cfg.platformId,
      productId := ProductId(p.id),
      productName := Trim(OrEmpty(p.title)),
      description := StripHtml(OrEmpty(p.bodyHtml)),
      productUrl := ProductUrl(p.handle),
      availability := Availability(p),
      brand := Trim(OrEmpty(p.vendor)),
      extractionDate := extractionDate,
      mainImage := MainImage(p.images),
      secondaryImages := if secondary != [] then cfg.json.imageList(secondary) else "",
      itemLocationCountry := "",
      sellerName := SELLER_NAME,
      sellerId := cfg.platformId,
      sellerUrl := BASE_URL,
      price := price,
      fullPrice := fullPrice,
      taxFreePrice := "",
      taxFullPrice := "",
      referenceNumber := if p.variants != [] then p.variants[0].sku else Some(""),
      collection := Trim(OrEmpty(p.productType)),
      caseMaterial := "",
      braceletMaterial := "",
      bezelMaterial := "",
      caliberSize := "",
      caseDiameter := "",
      dialColor := "",
      waterResistance := "",
      yearOfProduction := "",
      numberOfJewels := "",
      complication := "",
      conditionDetail := "",
      scopeOfDelivery := "",
      detailOfTheExceptionalPiece := "",
      productSpecifications := cfg.json.specifications(p.tags, OrEmpty(p.productType)))
  }

  /**
   * Every row has the same columns in the same order, and each column the feed does not
   * supply holds `""`.
   */
  lemma MapProductDomainColumnsEmpty(cfg: Config, p: Product, extractionDate: string)
    ensures var d := Record(MapProduct(cfg, p, extractionDate));
      && |d| == |PARSED_COLUMNS|
      && (forall k :: 0 <= k < |d| ==> d[k].0 == PARSED_COLUMNS[k])
      && (forall k :: 0 <= k < |d| && d[k].0 in DOMAIN_COLUMNS ==> d[k].1 == Some(""))
  {
    var r := MapProduct(cfg, p, extractionDate);
    assert r.itemLocationCountry == r.taxFreePrice == r.taxFullPrice == r.caseMaterial == r.braceletMaterial
      == r.bezelMaterial == r.caliberSize == r.caseDiameter == r.dialColor == r.waterResistance
      == r.yearOfProduction == r.numberOfJewels == r.complication == r.conditionDetail
      == r.scopeOfDelivery == r.detailOfTheExceptionalPiece == "";
    RecordDomainColumns(r);
  }

  /**
   * The image columns: the main image is the first image's `src` (`""` when there is no
   * image, `None` when the first image has no `src`); the secondary images are the set
   * sources of every later image, encoded as a list, and `""` when there are none.
   */
  lemma MapProductImages(cfg: Config, p: Product, extractionDate: string)
    ensures var r := MapProduct(cfg, p, extractionDate);
      && (p.images == [] ==> r.mainImage == Some("") && r.secondaryImages == "")
      && (p.images != [] ==>
            && r.mainImage == p.images[0].src
            && var rest := Sources(p.images[1..]);
               r.secondaryImages == if rest == [] then "" else cfg.json.imageList(rest))
  {
  }

  /** Every row names the configured platform and the store itself as the seller. */
  lemma MapProductSeller(cfg: Config, p: Product, extractionDate: string)
    ensures var r := MapProduct(cfg, p, extractionDate);
      && r.platformId == cfg.platformId && r.sellerId == cfg.platformId
      && r.sellerName == SELLER_NAME && r.sellerUrl == BASE_URL
      && r.extractionDate == extractionDate
  {
  }

  /**
   * The product's own columns: the id and URL (each empty exactly when the feed lacks them),
   * the stock label, the two prices of the first variant, the description stripped of markup,
   * the stripped title, vendor and type, the first variant's `sku` (`""` with no variant), and
   * the encoded tags and type.
   */
  lemma MapProductColumns(cfg: Config, p: Product, extractionDate: string)
    ensures var r := MapProduct(cfg, p, extractionDate);
      && r.productId == ProductId(p.id) && r.productUrl == ProductUrl(p.handle)
      && r.availability == Availability(p)
      && (r.price, r.fullPrice) == Prices(p.variants)
      && r.description == StripHtml(OrEmpty(p.bodyHtml))
      && r.productName == Trim(OrEmpty(p.title)) && r.brand == Trim(OrEmpty(p.vendor))
      && r.collection == Trim(OrEmpty(p.productType))
      && r.referenceNumber == (if p.variants != [] then p.variants[0].sku else Some(""))
      && r.productSpecifications == cfg.json.specifications(p.tags, OrEmpty(p.productType))
  {
  }

  /** The raw row written beside a parsed row: the same identifiers and the whole product as JSON. */
  function MakeRawRow(cfg: Config, p: Product, extractionDate: string): (r: RawRow)
    ensures r.productId == MapProduct(cfg, p, extractionDate).productId
    ensures r.productUrl == MapProduct(cfg, p, extractionDate).productUrl
    ensures r.platformId == cfg.platformId && r.extractionDate == extractionDate
    ensures r.rawJson == cfg.json.product(p)
  {
    RawRow(cfg.platformId, extractionDate, ProductId(p.id), ProductUrl(p.handle), cfg.json.product(p))
  }
}
