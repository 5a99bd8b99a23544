/**
 * The desktop API of req.py over the SQLite `products` table: the same lookup
 * chain as app.py (local table → OpenEAN → OpenFoodFacts, first remote hit
 * cached), but its save replaces the whole row and its answers carry no
 * image path.
 */
module ReqApi {
  import opened Wrappers
  import opened Products
  import opened Providers

  /** The dictionary `_db_get_product` returns. */
  datatype LocalProduct = LocalProduct(ean: string, name: Option<string>, brand: Option<string>, source: string)

  /** `_db_get_product(ean)`: the stored row with a missing or empty source reported as "local". */
  function DbGetProduct(rows: map<string, Product>, ean: string): (r: Option<LocalProduct>)
    ensures r.Some? <==> ean in rows
    ensures r.Some? ==> r.value.ean == ean && r.value.name == rows[ean].name && r.value.brand == rows[ean].brand
    ensures r.Some? ==> r.value.source == (if OrEmpty(rows[ean].source) == "" then "local" else rows[ean].source.value)
  {
    if ean !in rows then None
    else
      var row := rows[ean];
      Some(LocalProduct(ean, row.name, row.brand, if OrEmpty(row.source) == "" then "local" else OrEmpty(row.source)))
  }

  /**
   * `_db_save_product(ean, name, brand, source)`: `INSERT OR REPLACE` of the
   * four columns, so the row is replaced as a whole and an image path stored
   * by another variant is lost.
   */
  method DbSaveProduct(db: ProductDb, ean: string, name: Option<string>, brand: Option<string>, source: string)
    modifies db`rows
    ensures db.rows == old(db.rows)[ean := Product(name, brand, Some(source), None)]
  {
    db.rows := db.rows[ean := Product(name, brand, Some(source), None)];
  }

  /** The row the save leaves does not depend on what was stored before. */
  lemma SaveReplacesRow(rows1: map<string, Product>, rows2: map<string, Product>, ean: string,
                        name: Option<string>, brand: Option<string>, source: string)
    ensures var p := DbGetProduct(rows1[ean := Product(name, brand, Some(source), None)], ean);
            && p == DbGetProduct(rows2[ean := Product(name, brand, Some(source), None)], ean)
            && p.Some? && p.value.name == name && p.value.brand == brand
            && p.value.source == (if source == "" then "local" else source)
  {
  }

  /** The dictionary `lookup_ean` returns. */
  datatype LookupResult = LookupResult(ok: bool, ean: string, name: string, brand: string, source: string,
                                       message: string)

  const NotFoundMessage: string := "Kein Produkt in lokaler DB, OpenEAN oder OpenFoodFacts gefunden. Bitte manuell eintragen."

  /** `make_result`: every field that is `None` (or empty) is reported as "". */
  function MakeResult(source: string, ean: string, name: Option<string>, brand: Option<string>, ok: bool,
                      message: Option<string>): (r: LookupResult)
    ensures r.ok == ok && r.ean == ean && r.source == source
    ensures (name.None? ==> r.name == "") && (name.Some? ==> r.name == name.value)
    ensures (brand.None? ==> r.brand == "") && (brand.Some? ==> r.brand == brand.value)
    ensures (message.None? ==> r.message == "") && (message.Some? ==> r.message == message.value)
  {
    LookupResult(ok, ean, OrEmpty(name), OrEmpty(brand), source, OrEmpty(message))
  }

  /**
   * `lookup_ean(ean)` on the table `rows`; `localOk` is false when reading the
   * table raises. A row found locally is answered as stored; otherwise the
   * first provider with a hit, OpenEAN before OpenFoodFacts, replaces the row
   * under its own source tag and is answered; with no hit anywhere the answer
   * is a failure with source "none".
   */
  function LookupSpec(rows: map<string, Product>, ean: string, localOk: bool, openean: OpenEanReply,
                      off: OffReply): (r: (map<string, Product>, LookupResult))
    ensures localOk && ean in rows ==>
              var p := DbGetProduct(rows, ean).value;
              r == (rows, LookupResult(true, ean, OrEmpty(p.name), OrEmpty(p.brand), p.source, ""))
    ensures (!localOk || ean !in rows) && OpenEanLookup(openean).Some? ==>
              var hit := OpenEanLookup(openean).value;
              r.0 == rows[ean := Product(Some(hit.name), Some(hit.brand), Some("openean"), None)]
              && r.1 == LookupResult(true, ean, hit.name, hit.brand, "openean", "")
    ensures (!localOk || ean !in rows) && OpenEanLookup(openean).None? && OpenFoodFactsLookup(off).Some? ==>
              var hit := OpenFoodFactsLookup(off).value;
              r.0 == rows[ean := Product(Some(hit.name), Some(hit.brand), Some("openfoodfacts"), None)]
              && r.1 == LookupResult(true, ean, hit.name, hit.brand, "openfoodfacts", "")
    ensures (!localOk || ean !in rows) && OpenEanLookup(openean).None? && OpenFoodFactsLookup(off).None? ==>
              r == (rows, LookupResult(false, ean, "", "", "none", NotFoundMessage))
  {
    var local := if localOk then DbGetProduct(rows, ean) else None;
    if local.Some? then
      (rows, MakeResult(local.value.source, local.value.ean, local.value.name, local.value.brand, true, None))
    else
      var hit := OpenEanLookup(openean);
      if hit.Some? then
        (rows[ean := Product(Some(hit.value.name), Some(hit.value.brand), Some("openean"), None)],
         MakeResult("openean", ean, Some(hit.value.name), Some(hit.value.brand), true, None))
      else
        var offHit := OpenFoodFactsLookup(off);
        if offHit.Some? then
          (rows[ean := Product(Some(offHit.value.name), Some(offHit.value.brand), Some("openfoodfacts"), None)],
           MakeResult("openfoodfacts", ean, Some(offHit.value.name), Some(offHit.value.brand), true, None))
        else (rows, MakeResult("none", ean, None, None, false, Some(NotFoundMessage)))
  }

  /** `Api.lookup_ean(ean)`, with the replies the two providers would give. */
  method LookupEan(db: ProductDb, ean: string, localOk: bool, openean: OpenEanReply, off: OffReply)
    returns (r: LookupResult)
    modifies db`rows
    ensures var spec := LookupSpec(old(db.rows), ean, localOk, openean, off);
            db.rows == spec.0 && r == spec.1
  {
    if localOk {
      var local := DbGetProduct(db.rows, ean);
      if local.Some? {
        return MakeResult(local.value.source, local.value.ean, local.value.name, local.value.brand, true, None);
      }
    }
    var hit := OpenEanLookup(openean);
    if hit.Some? {
      DbSaveProduct(db, ean, Some(hit.value.name), Some(hit.value.brand), "openean");
      return MakeResult("openean", ean, Some(hit.value.name), Some(hit.value.brand), true, None);
    }
    var offHit := OpenFoodFactsLookup(off);
    if offHit.Some? {
      DbSaveProduct(db, ean, Some(offHit.value.name), Some(offHit.value.brand), "openfoodfacts");
      return MakeResult("openfoodfacts", ean, Some(offHit.value.name), Some(offHit.value.brand), true, None);
    }
    r := MakeResult("none", ean, None, None, false, Some(NotFoundMessage));
  }

  /**
   * A remote hit is cached: looking the same EAN up again finds it in the table
   * with the same name, brand and source and writes nothing.
   */
  lemma RemoteHitIsCached(rows: map<string, Product>, ean: string, localOk: bool, openean: OpenEanReply,
                          off: OffReply, openean2: OpenEanReply, off2: OffReply)
    requires var r := LookupSpec(rows, ean, localOk, openean, off).1;
             r.source == "openean" || r.source == "openfoodfacts"
    ensures var (rows1, r1) := LookupSpec(rows, ean, localOk, openean, off);
            var (rows2, r2) := LookupSpec(rows1, ean, true, openean2, off2);
            rows2 == rows1 && r2 == r1
  {
  }

  /** The answer of `save_product`; the text of a failure carries the exception and is not modelled. */
  datatype SaveReply = ProductSaved | SaveFailed

  /**
   * `save_product(ean, name, brand)`: replace the row with source "manual";
   * `dbOk` is false when the database raises, which is answered with a failure
   * and leaves the table as it was.
   */
  method SaveProduct(db: ProductDb, ean: string, name: Option<string>, brand: Option<string>, dbOk: bool)
    returns (r: SaveReply)
    modifies db`rows
    ensures dbOk ==> r == ProductSaved && db.rows == old(db.rows)[ean := Product(name, brand, Some("manual"), None)]
    ensures !dbOk ==> r == SaveFailed && db.rows == old(db.rows)
  {
    if !dbOk {
      return SaveFailed;
    }
    DbSaveProduct(db, ean, name, brand, "manual");
    r := ProductSaved;
  }

  /** A manual save is what the next lookup of the EAN finds, under the source "manual". */
  lemma ManualSaveIsFound(rows: map<string, Product>, ean: string, name: Option<string>, brand: Option<string>,
                          openean: OpenEanReply, off: OffReply)
    ensures var rows' := rows[ean := Product(name, brand, Some("manual"), None)];
            LookupSpec(rows', ean, true, openean, off)
            == (rows', LookupResult(true, ean, OrEmpty(name), OrEmpty(brand), "manual", ""))
  {
  }
}
