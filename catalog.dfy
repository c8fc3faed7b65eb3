/**
 * The data the scraper reads and writes: one product of the store's `products.json` feed
 * (only the members the scraper looks at, each optional as in the JSON), the parsed row with
 * its fixed column set, the raw row kept beside it, and the scraper's configuration.
 */
module Catalog {
  import opened Wrappers

  /** The store the scraper targets. */
  const BASE_URL: string := "https://itmustbetime.com"
  /** The store sells its own stock, so every row names it as the seller. */
  const SELLER_NAME: string := "It Must Be Time"
  /** Items per page the feed is asked for, and the most it returns. */
  const PAGE_LIMIT: nat := 250

  /** One purchasable variant: `available`, `price`, `compare_at_price`, `sku`. Prices are held as their `str()` text. */
  datatype Variant = Variant(
    available: Option<bool>,
    price: Option<string>,
    compareAtPrice: Option<string>,
    sku: Option<string>)

  /** One entry of `images`; only its `src` is read. */
  datatype Image = Image(src: Option<string>)

  /**
   * A product of the feed. A missing or `null` list is the empty list, since the scraper
   * reads every list as `product.get(...) or []`.
   */
  datatype Product = Product(
    id: Option<int>,
    title: Option<string>,
    handle: Option<string>,
    vendor: Option<string>,
    productType: Option<string>,
    tags: seq<string>,
    bodyHtml: Option<string>,
    available: Option<bool>,
    variants: seq<Variant>,
    images: seq<Image>)

  /**
   * The three `json.dumps` calls of the mapper, taken as given: the image list, the
   * specification bucket (tags and product type) and the whole product for the raw row.
   */
  datatype JsonEncoders = JsonEncoders(
    imageList: seq<string> -> string,
    specifications: (seq<string>, string) -> string,
    product: Product -> string)

  /** The scraper's settings: `PLATFORM_ID`, the normalised `EXCLUDE_KEYWORDS`, and the encoders. */
  datatype Config = Config(platformId: string, excludeKeywords: seq<string>, json: JsonEncoders)

  /**
   * A parsed row. Every row has all of these columns; `mainImage` and `referenceNumber`
   * are `None` where the mapper passes on a missing JSON member (`images[0].get("src")`,
   * `variants[0].get("sku")`).
   */
  datatype ParsedRow = ParsedRow(
    platformId: string,
    productId: string,
    productName: string,
    description: string,
    productUrl: string,
    availability: string,
    brand: string,
    extractionDate: string,
    mainImage: Option<string>,
    secondaryImages: string,
    itemLocationCountry: string,
    sellerName: string,
    sellerId: string,
    sellerUrl: string,
    price: string,
    fullPrice: string,
    taxFreePrice: string,
    taxFullPrice: string,
    referenceNumber: Option<string>,
    collection: string,
    caseMaterial: string,
    braceletMaterial: string,
    bezelMaterial: string,
    caliberSize: string,
    caseDiameter: string,
    dialColor: string,
    waterResistance: string,
    yearOfProduction: string,
    numberOfJewels: string,
    complication: string,
    conditionDetail: string,
    scopeOfDelivery: string,
    detailOfTheExceptionalPiece: string,
    productSpecifications: string)

  /** The column names of a parsed row, in the order the mapper writes them. */
  const PARSED_COLUMNS: seq<string> := [
    "platform_id", "product_id", "product_name", "description", "product_url", "availability",
    "brand", "extraction_date", "main_image", "secondary_images", "item_location_country",
    "seller_name", "seller_id", "seller_url",
    "price", "full_price", "tax_free_price", "tax_full_price",
    "reference_number", "collection", "case_material", "bracelet_material", "bezel_material",
    "caliber_size", "case_diameter", "dial_color", "water_resistance", "year_of_production",
    "number_of_jewels", "complication",
    "condition_detail", "scope_of_delivery",
    "detail_of_the_exceptional_piece",
    "product_specifications"]

  /** The columns the feed never supplies; they exist for the schema shared with other scrapers. */
  const DOMAIN_COLUMNS: set<string> := {
    "item_location_country", "tax_free_price", "tax_full_price",
    "case_material", "bracelet_material", "bezel_material", "caliber_size", "case_diameter",
    "dial_color", "water_resistance", "year_of_production", "number_of_jewels", "complication",
    "condition_detail", "scope_of_delivery", "detail_of_the_exceptional_piece"}

  /** The positions in `PARSED_COLUMNS` of the columns the feed never supplies. */
  lemma DomainColumnPositions()
    ensures forall k :: 0 <= k < |PARSED_COLUMNS| && PARSED_COLUMNS[k] in DOMAIN_COLUMNS ==>
      k in {10, 16, 17, 20, 21, 22, 23, 24, 25, 26, 27, 28, 29, 30, 31, 32}
  {
  }

  /**
   * The row as the dictionary the mapper returns: every column name paired with its value,
   * in the order of `PARSED_COLUMNS`, whatever the row holds.
   */
  function Record(r: ParsedRow): (d: seq<(string, Option<string>)>)
    ensures |d| == |PARSED_COLUMNS|
    ensures forall k :: 0 <= k < |d| ==> d[k].0 == PARSED_COLUMNS[k]
  {
    [("platform_id", Some(r.platformId)), ("product_id", Some(r.productId)),
     ("product_name", Some(r.productName)), ("description", Some(r.description)),
     ("product_url", Some(r.productUrl)), ("availability", Some(r.availability)),
     ("brand", Some(r.brand)), ("extraction_date", Some(r.extractionDate)),
     ("main_image", r.mainImage), ("secondary_images", Some(r.secondaryImages)),
     ("item_location_country", Some(r.itemLocationCountry)),
     ("seller_name", Some(r.sellerName)), ("seller_id", Some(r.sellerId)), ("seller_url", Some(r.sellerUrl)),
     ("price", Some(r.price)), ("full_price", Some(r.fullPrice)),
     ("tax_free_price", Some(r.taxFreePrice)), ("tax_full_price", Some(r.taxFullPrice)),
     ("reference_number", r.referenceNumber), ("collection", Some(r.collection)),
     ("case_material", Some(r.caseMaterial)), ("bracelet_material", Some(r.braceletMaterial)),
     ("bezel_material", Some(r.bezelMaterial)), ("caliber_size", Some(r.caliberSize)),
     ("case_diameter", Some(r.caseDiameter)), ("dial_color", Some(r.dialColor)),
     ("water_resistance", Some(r.waterResistance)), ("year_of_production", Some(r.yearOfProduction)),
     ("number_of_jewels", Some(r.numberOfJewels)), ("complication", Some(r.complication)),
     ("condition_detail", Some(r.conditionDetail)), ("scope_of_delivery", Some(r.scopeOfDelivery)),
     ("detail_of_the_exceptional_piece", Some(r.detailOfTheExceptionalPiece)),
     ("product_specifications", Some(r.productSpecifications))]
  }

  /** A row whose domain fields are empty has `""` under every domain column of its record. */
  lemma RecordDomainColumns(r: ParsedRow)
    requires r.itemLocationCountry == r.taxFreePrice == r.taxFullPrice == r.caseMaterial == r.braceletMaterial
      == r.bezelMaterial == r.caliberSize == r.caseDiameter == r.dialColor == r.waterResistance
      == r.yearOfProduction == r.numberOfJewels == r.complication == r.conditionDetail
      == r.scopeOfDelivery == r.detailOfTheExceptionalPiece == ""
    ensures var d := Record(r);
      forall k :: 0 <= k < |d| && d[k].0 in DOMAIN_COLUMNS ==> d[k].1 == Some("")
  {
    DomainColumnPositions();
  }

  /** A raw row: the untouched product with the identifiers needed to find it again. */
  datatype RawRow = RawRow(
    platformId: string,
    extractionDate: string,
    productId: string,
    productUrl: string,
    rawJson: string)
}
