/**
 * The product filter of the scraper: the `EXCLUDE_KEYWORDS` setting and `_is_watch_product`,
 * which drops a product when an excluded keyword occurs in its title, type, tags or vendor.
 */
module Filter {
  import opened Wrappers
  import opened Text
  import opened Catalog

  /** The keyword list used when the environment does not set `EXCLUDE_KEYWORDS`. */
  const DEFAULT_EXCLUDE_KEYWORDS: string := "band,bracelet,accessory,accessories,case,bag,william henry"
  /** The platform id used when the environment does not set `PLATFORM_ID`. */
  const DEFAULT_PLATFORM_ID: string := "imbt"

  /** `os.environ.get(name, default)`. */
  function EnvGet(env: map<string, string>, name: string, default: string): string {
    if name in env then env[name] else default
  }

  /** A normalised keyword: not empty, no whitespace at either end, no upper-case letter. */
  predicate IsNormalKeyword(kw: string) {
    kw != [] && !IsSpace(kw[0]) && !IsSpace(kw[|kw| - 1]) && IsLower(kw)
  }

  /**
   * The keywords of a list of comma-separated pieces: each piece stripped and lower-cased,
   * in order, with the pieces that strip to nothing dropped.
   */
  function KeywordsOf(pieces: seq<string>): (r: seq<string>)
    ensures forall k :: 0 <= k < |r| ==> IsNormalKeyword(r[k])
  {
    if pieces == [] then []
    else
      var t := Trim(pieces[0]);
      if t == "" then KeywordsOf(pieces[1..])
      else
        StrippedKeywordIsNormal(t);
        [Lower(t)] + KeywordsOf(pieces[1..])
  }

  /** Lower-casing a stripped, non-blank piece gives a normalised keyword. */
  lemma StrippedKeywordIsNormal(t: string)
    requires t != [] && !IsSpace(t[0]) && !IsSpace(t[|t| - 1])
    ensures IsNormalKeyword(Lower(t))
  {
    LowerIsLower(t);
    LowerKeepsSpace(t[0]);
    LowerKeepsSpace(t[|t| - 1]);
  }

  /** A keyword is kept exactly when it is the stripped, lower-cased form of a piece that is not blank. */
  lemma {:induction false} KeywordsOfMembers(pieces: seq<string>, kw: string)
    ensures kw in KeywordsOf(pieces) <==> exists p :: p in pieces && Trim(p) != "" && kw == Lower(Trim(p))
  {
    if pieces != [] {
      KeywordsOfMembers(pieces[1..], kw);
      assert forall p :: p in pieces <==> p == pieces[0] || p in pieces[1..];
    }
  }

  /** `EXCLUDE_KEYWORDS`, computed from the raw comma-separated setting. */
  function NormaliseKeywords(raw: string): seq<string> {
    KeywordsOf(Split(raw, ','))
  }

  /** The scraper's configuration as it is read from the environment when the module loads. */
  function ScraperConfig(env: map<string, string>, json: JsonEncoders): (c: Config)
    ensures forall k :: 0 <= k < |c.excludeKeywords| ==> IsNormalKeyword(c.excludeKeywords[k])
  {
    Config(
      EnvGet(env, "PLATFORM_ID", DEFAULT_PLATFORM_ID),
      NormaliseKeywords(EnvGet(env, "EXCLUDE_KEYWORDS", DEFAULT_EXCLUDE_KEYWORDS)),
      json)
  }

  // ---------------------------------------------------------------------------
  // _is_watch_product
  // ---------------------------------------------------------------------------

  function LowerAll(ts: seq<string>): (r: seq<string>)
    ensures |r| == |ts| && forall i :: 0 <= i < |ts| ==> r[i] == Lower(ts[i])
  {
    if ts == [] then [] else [Lower(ts[0])] + LowerAll(ts[1..])
  }

  /** The text the filter searches, as the source builds it: every part lower-cased on its own. */
  function Haystack(p: Product): string {
    Lower(OrEmpty(p.title)) + " " + Lower(OrEmpty(p.productType)) + " "
    + Join(LowerAll(p.tags), " ") + " " + Lower(OrEmpty(p.vendor))
  }

  /** `"{title} {product_type} {tags joined by space} {vendor}"` before any lower-casing. */
  function Description(p: Product): string {
    OrEmpty(p.title) + " " + OrEmpty(p.productType) + " " + Join(p.tags, " ") + " " + OrEmpty(p.vendor)
  }

  /** `any(kw in haystack for kw in keywords)`. */
  function AnyKeywordIn(keywords: seq<string>, haystack: string): (r: bool)
    ensures r <==> exists k :: 0 <= k < |keywords| && Occurs(keywords[k], haystack)
  {
    if keywords == [] then false
    else
      ContainsIffOccurs(haystack, keywords[0]);
      Contains(haystack, keywords[0]) || AnyKeywordIn(keywords[1..], haystack)
  }

  /** `_is_watch_product(product)`: no excluded keyword occurs in the searched text. */
  function IsWatchProduct(keywords: seq<string>, p: Product): bool {
    !AnyKeywordIn(keywords, Haystack(p))
  }

  /** Lower-casing a join is joining the lower-cased parts (the separator has no letters). */
  lemma {:induction false} LowerJoin(ts: seq<string>)
    ensures Lower(Join(ts, " ")) == Join(LowerAll(ts), " ")
  {
    if |ts| > 1 {
      LowerJoin(ts[1..]);
      LowerAppend(ts[0] + " ", Join(ts[1..], " "));
      LowerAppend(ts[0], " ");
      assert LowerAll(ts)[1..] == LowerAll(ts[1..]);
    }
  }

  /** Lower-casing two strings joined by a space. */
  lemma LowerSpaced(a: string, b: string)
    ensures Lower(a + " " + b) == Lower(a) + " " + Lower(b)
  {
    LowerAppend(a + " ", b);
    LowerAppend(a, " ");
  }

  /** The searched text is the whole description lower-cased. */
  lemma HaystackIsLowerDescription(p: Product)
    ensures Haystack(p) == Lower(Description(p))
  {
    var t, ty, tg, v := OrEmpty(p.title), OrEmpty(p.productType), Join(p.tags, " "), OrEmpty(p.vendor);
    LowerJoin(p.tags);
    LowerSpaced(t + " " + ty + " " + tg, v);
    LowerSpaced(t + " " + ty, tg);
    LowerSpaced(t, ty);
  }

  /**
   * A product is kept exactly when no excluded keyword is a substring of its lower-cased
   * `"{title} {product_type} {tags} {vendor}"`.
   */
  lemma IsWatchProductIff(keywords: seq<string>, p: Product)
    ensures IsWatchProduct(keywords, p)
        <==> forall k :: 0 <= k < |keywords| ==> !Occurs(keywords[k], Lower(Description(p)))
  {
    HaystackIsLowerDescription(p);
  }

  /** Every part occurs in a join of parts. */
  lemma {:induction false} PartOccursInJoin(parts: seq<string>, sep: string, i: int)
    requires 0 <= i < |parts|
    ensures Occurs(parts[i], Join(parts, sep))
  {
    if |parts| == 1 {
      assert OccursAt(parts[0], Join(parts, sep), 0);
    } else if i == 0 {
      assert Join(parts, sep)[..|parts[0]|] == parts[0];
      assert OccursAt(parts[0], Join(parts, sep), 0);
    } else {
      PartOccursInJoin(parts[1..], sep, i - 1);
      OccursInMiddle(parts[i], parts[0] + sep, Join(parts[1..], sep), "");
      assert parts[0] + sep + Join(parts[1..], sep) + "" == Join(parts, sep);
    }
  }

  /** What occurs in a substring occurs in the string. */
  lemma OccursTransitive(x: string, y: string, z: string)
    requires Occurs(x, y) && Occurs(y, z)
    ensures Occurs(x, z)
  {
    var i :| OccursAt(x, y, i);
    var j :| OccursAt(y, z, j);
    assert y == z[j..j + |y|];
    var inZ, inY := z[j + i..j + i + |x|], y[i..i + |x|];
    forall m | 0 <= m < |x| ensures inZ[m] == inY[m] {
      assert y[i + m] == z[j + i + m];
    }
    assert inZ == inY;
    assert OccursAt(x, z, j + i);
  }

  /** A product one of whose tags contains an excluded keyword, in any case, is dropped. */
  lemma ExcludedTagDropsProduct(keywords: seq<string>, p: Product, k: int, t: int)
    requires 0 <= k < |keywords| && 0 <= t < |p.tags|
    requires Occurs(keywords[k], Lower(p.tags[t]))
    ensures !IsWatchProduct(keywords, p)
  {
    var tags := Join(LowerAll(p.tags), " ");
    PartOccursInJoin(LowerAll(p.tags), " ", t);
    OccursTransitive(keywords[k], Lower(p.tags[t]), tags);
    var front := Lower(OrEmpty(p.title)) + " " + Lower(OrEmpty(p.productType)) + " ";
    OccursInMiddle(keywords[k], front, tags, " " + Lower(OrEmpty(p.vendor)));
    assert front + tags + (" " + Lower(OrEmpty(p.vendor))) == Haystack(p);
  }

  // ---------------------------------------------------------------------------
  // Filtering a page
  // ---------------------------------------------------------------------------

  /** The products of `ps` that `keep` accepts, in their order. */
  function Kept(keep: Product -> bool, ps: seq<Product>): (r: seq<Product>)
    ensures |r| <= |ps|
  {
    if ps == [] then []
    else Kept(keep, ps[..|ps| - 1]) + (if keep(ps[|ps| - 1]) then [ps[|ps| - 1]] else [])
  }

  /** `_is_watch_product` with the configured keywords, as a filter. */
  function WatchFilter(keywords: seq<string>): Product -> bool {
    p => IsWatchProduct(keywords, p)
  }

  /** The products of `ps` that `_is_watch_product` keeps, in their order. */
  function KeepWatches(keywords: seq<string>, ps: seq<Product>): (r: seq<Product>) {
    Kept(WatchFilter(keywords), ps)
  }

  /** A product survives the filter exactly when it was in the list and the filter keeps it. */
  lemma {:induction false} KeepWatchesMembers(keywords: seq<string>, ps: seq<Product>, q: Product)
    ensures q in KeepWatches(keywords, ps) <==> q in ps && IsWatchProduct(keywords, q)
  {
    if ps != [] {
      var init, last := ps[..|ps| - 1], ps[|ps| - 1];
      KeepWatchesMembers(keywords, init, q);
      assert ps == init + [last];
    }
  }

  lemma KeptSnoc(keep: Product -> bool, ps: seq<Product>, p: Product)
    ensures Kept(keep, ps + [p]) == Kept(keep, ps) + (if keep(p) then [p] else [])
  {
    assert (ps + [p])[..|ps + [p]| - 1] == ps;
  }

  /** Filtering distributes over concatenation: filtering two runs of pages in turn is filtering both. */
  lemma {:induction false} KeptAppend(keep: Product -> bool, a: seq<Product>, b: seq<Product>)
    ensures Kept(keep, a + b) == Kept(keep, a) + Kept(keep, b)
    decreases |b|
  {
    if b == [] {
      assert a + b == a;
    } else {
      KeptAppend(keep, a, b[..|b| - 1]);
      assert (a + b)[..|a + b| - 1] == a + b[..|b| - 1];
    }
  }
}
