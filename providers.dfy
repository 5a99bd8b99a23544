/**
 * What app.py and req.py make of the answers of the two remote product
 * databases, OpenEAN (OpenGTINDB) and OpenFoodFacts. The network calls
 * themselves are not modelled: each reply is an input, already decoded, and
 * an exception anywhere in the call is a reply of its own.
 */
module Providers {
  import opened Wrappers
  import opened Json
  import opened Text

  /** A product found remotely: its name (never empty) and brand. */
  datatype Hit = Hit(name: string, brand: string)

  /** One item of the OpenEAN answer, with its optional attributes. */
  datatype OpenEanItem = OpenEanItem(detailname: Option<string>, name: Option<string>, vendor: Option<string>)

  /** `openean_api.parse(ean)`: an exception, or the list of items. */
  datatype OpenEanReply = OpenEanFailed | OpenEanItems(items: seq<OpenEanItem>)

  /** Python's `s or ""` on an optional string. */
  function OrEmpty(s: Option<string>): (r: string)
    ensures s.Some? ==> r == s.value
    ensures s.None? ==> r == ""
  {
    s.GetOr("")
  }

  /**
   * `_lookup_openean`: the first item's detail name, or failing that its name;
   * the vendor as brand. No items, no name, or an exception give `None`.
   */
  function OpenEanLookup(reply: OpenEanReply): (r: Option<Hit>)
    ensures r.Some? <==> reply.OpenEanItems? && |reply.items| > 0
                         && (OrEmpty(reply.items[0].detailname) != "" || OrEmpty(reply.items[0].name) != "")
    ensures r.Some? ==> r.value.name != "" && r.value.brand == OrEmpty(reply.items[0].vendor)
    ensures r.Some? && OrEmpty(reply.items[0].detailname) != "" ==> r.value.name == reply.items[0].detailname.value
    ensures r.Some? && OrEmpty(reply.items[0].detailname) == "" ==> r.value.name == reply.items[0].name.value
  {
    match reply
    case OpenEanFailed => None
    case OpenEanItems(items) =>
      if items == [] then None
      else
        var item := items[0];
        var name := if OrEmpty(item.detailname) != "" then OrEmpty(item.detailname) else OrEmpty(item.name);
        if name == "" then None else Some(Hit(name, OrEmpty(item.vendor)))
  }

  /** The `product` object of an OpenFoodFacts answer; `None` marks an absent key. */
  datatype OffProduct = OffProduct(productName: Option<string>, brandsTags: Option<seq<string>>,
                                   brands: Option<string>)

  /** The decoded JSON body of an OpenFoodFacts answer. */
  datatype OffJson = OffJson(status: Option<JVal>, product: Option<OffProduct>)

  /**
   * The OpenFoodFacts call: an exception, or a response with its HTTP status
   * and its body (`None` when `resp.json()` raises).
   */
  datatype OffReply = OffFailed | OffResponse(statusCode: int, json: Option<OffJson>)

  /** Python's `v == 1` for the `status` field: the integer 1, the float 1.0 and `true` all compare equal. */
  predicate EqualsOne(v: Option<JVal>) {
    v == Some(JNum(Int(1))) || v == Some(JBool(true))
    || (v.Some? && v.value.JNum? && v.value.n.Float? && v.value.n.r == 1.0)
  }

  /** `product.get("product_name", "")`, with an absent product read as `{}`. */
  function OffName(p: Option<OffProduct>): (r: string)
    ensures p.None? || p.value.productName.None? ==> r == ""
    ensures p.Some? && p.value.productName.Some? ==> r == p.value.productName.value
  {
    if p.None? then "" else OrEmpty(p.value.productName)
  }

  /** `", ".join(product.get("brands_tags", [])) or product.get("brands", "")`. */
  function OffBrand(p: Option<OffProduct>): (r: string)
    ensures p.None? ==> r == ""
    ensures p.Some? && Join(", ", p.value.brandsTags.GetOr([])) != "" ==> r == Join(", ", p.value.brandsTags.GetOr([]))
    ensures p.Some? && Join(", ", p.value.brandsTags.GetOr([])) == "" ==> r == OrEmpty(p.value.brands)
  {
    if p.None? then ""
    else
      var tags := Join(", ", p.value.brandsTags.GetOr([]));
      if tags != "" then tags else OrEmpty(p.value.brands)
  }

  /**
   * `_lookup_openfoodfacts`: a hit only for HTTP 200, a body whose `status`
   * equals 1 and a non-empty product name; the brand is the joined brand tags,
   * or the free-text brands when there are none.
   */
  function OpenFoodFactsLookup(reply: OffReply): (r: Option<Hit>)
    ensures r.Some? <==> reply.OffResponse? && reply.statusCode == 200 && reply.json.Some?
                         && EqualsOne(reply.json.value.status) && OffName(reply.json.value.product) != ""
    ensures r.Some? ==> r.value == Hit(OffName(reply.json.value.product), OffBrand(reply.json.value.product))
  {
    match reply
    case OffFailed => None
    case OffResponse(code, json) =>
      if code != 200 || json.None? || !EqualsOne(json.value.status) then None
      else
        var name := OffName(json.value.product);
        if name == "" then None else Some(Hit(name, OffBrand(json.value.product)))
  }

  /** With several brand tags the brand is the tags joined, whatever the free-text brands say. */
  lemma OffBrandPrefersTags(tags: seq<string>, brands: Option<string>)
    requires |tags| >= 2
    ensures OffBrand(Some(OffProduct(None, Some(tags), brands))) == Join(", ", tags)
  {
    JoinEmpty(", ", tags);
  }
}
