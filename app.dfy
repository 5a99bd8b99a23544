/**
 * The desktop API of app.py over the SQLite `products` table: reading and
 * writing a product, the lookup chain local table → OpenEAN → OpenFoodFacts
 * that caches the first remote hit, the manual save, and the image-only
 * upsert of its upload websocket.
 */
module AppApi {
  import opened Wrappers
  import opened Json
  import opened Products
  import opened Providers
  import Items
  import Hub

  // ---------------------------------------------------------------------------
  // _db_get_product / _db_save_product

  /** The dictionary `_db_get_product` returns. */
  datatype LocalProduct = LocalProduct(ean: string, name: Option<string>, brand: Option<string>,
                                       source: string, imagePath: string)

  /**
   * `_db_get_product(ean)`: the stored row with a missing or empty source
   * reported as "local" and a missing or empty image path as "".
   */
  function DbGetProduct(rows: map<string, Product>, ean: string): (r: Option<LocalProduct>)
    ensures r.Some? <==> ean in rows
    ensures r.Some? ==> r.value.ean == ean && r.value.name == rows[ean].name && r.value.brand == rows[ean].brand
    ensures r.Some? ==> r.value.source == (if OrEmpty(rows[ean].source) == "" then "local" else rows[ean].source.value)
    ensures r.Some? ==> r.value.imagePath == OrEmpty(rows[ean].imagePath)
  {
    if ean !in rows then None
    else
      var row := rows[ean];
      var source := if OrEmpty(row.source) == "" then "local" else OrEmpty(row.source);
      Some(LocalProduct(ean, row.name, row.brand, source, OrEmpty(row.imagePath)))
  }

  /**
   * The row `_db_save_product` writes: name, brand and source as given; the
   * given image path, or when none is given the one already stored.
   */
  function SavedProduct(existing: Option<Product>, name: Option<string>, brand: Option<string>, source: string,
                        imagePath: Option<string>): (r: Product)
    ensures r.name == name && r.brand == brand && r.source == Some(source)
    ensures imagePath.Some? ==> r.imagePath == imagePath
    ensures imagePath.None? && existing.Some? ==> r.imagePath == existing.value.imagePath
    ensures imagePath.None? && existing.None? ==> r.imagePath.None?
  {
    var image := if existing.Some? && imagePath.None? then existing.value.imagePath else imagePath;
    Product(name, brand, Some(source), image)
  }

  /** `_db_save_product(ean, name, brand, source, image_path)`: read the stored image path, then `INSERT OR REPLACE`. */
  method DbSaveProduct(db: ProductDb, ean: string, name: Option<string>, brand: Option<string>, source: string,
                       imagePath: Option<string>)
    modifies db`rows
    ensures db.rows == old(db.rows)[ean := SavedProduct(Find(old(db.rows), ean), name, brand, source, imagePath)]
  {
    var image := imagePath;
    if ean in db.rows && image.None? {
      image := db.rows[ean].imagePath;
    }
    db.rows := db.rows[ean := Product(name, brand, Some(source), image)];
  }

  /** What `_db_get_product` reads back after `_db_save_product` without an image path. */
  lemma SaveThenGet(rows: map<string, Product>, ean: string, name: Option<string>, brand: Option<string>, source: string)
    ensures var rows' := rows[ean := SavedProduct(Find(rows, ean), name, brand, source, None)];
            var p := DbGetProduct(rows', ean);
            && p.Some? && p.value.name == name && p.value.brand == brand
            && p.value.source == (if source == "" then "local" else source)
            && p.value.imagePath == (if ean in rows then OrEmpty(rows[ean].imagePath) else "")
  {
  }

  // ---------------------------------------------------------------------------
  // lookup_ean

  /** The dictionary `lookup_ean` returns. */
  datatype LookupResult = LookupResult(ok: bool, ean: string, name: string, brand: string, imagePath: string,
                                       source: string, message: string)

  const NotFoundMessage: string := "Kein Produkt in lokaler DB, OpenEAN oder OpenFoodFacts gefunden. Bitte manuell eintragen."

  /** `make_result`: every field that is `None` (or empty) is reported as "". */
  function MakeResult(source: string, ean: string, name: Option<string>, brand: Option<string>,
                      imagePath: Option<string>, ok: bool, message: Option<string>): (r: LookupResult)
    ensures r.ok == ok && r.ean == ean && r.source == source
    ensures (name.None? ==> r.name == "") && (name.Some? ==> r.name == name.value)
    ensures (brand.None? ==> r.brand == "") && (brand.Some? ==> r.brand == brand.value)
    ensures (imagePath.None? ==> r.imagePath == "") && (imagePath.Some? ==> r.imagePath == imagePath.value)
    ensures (message.None? ==> r.message == "") && (message.Some? ==> r.message == message.value)
  {
    LookupResult(ok, ean, OrEmpty(name), OrEmpty(brand), OrEmpty(imagePath), source, OrEmpty(message))
  }

  /** The answer for a row found in the table. */
  function LocalResult(p: LocalProduct): (r: LookupResult)
    ensures r.ok && r.ean == p.ean && r.source == p.source && r.imagePath == p.imagePath && r.message == ""
    ensures r.name == OrEmpty(p.name) && r.brand == OrEmpty(p.brand)
  {
    MakeResult(p.source, p.ean, p.name, p.brand, Some(p.imagePath), true, None)
  }

  /**
   * `lookup_ean(ean)` on the table `rows`; `localOk` is false when reading the
   * table raises. The table afterwards and the answer: a row found locally is
   * answered as stored; otherwise the first provider with a hit, OpenEAN before
   * OpenFoodFacts, is cached under its own source tag and answered; with no
   * hit anywhere the answer is a failure with source "none" and empty fields.
   */
  function LookupSpec(rows: map<string, Product>, ean: string, localOk: bool, openean: OpenEanReply,
                      off: OffReply): (r: (map<string, Product>, LookupResult))
    ensures localOk && ean in rows ==>
              var p := DbGetProduct(rows, ean).value;
              r == (rows, LookupResult(true, ean, OrEmpty(p.name), OrEmpty(p.brand), p.imagePath, p.source, ""))
    ensures (!localOk || ean !in rows) && OpenEanLookup(openean).Some? ==>
              var hit := OpenEanLookup(openean).value;
              r.0 == rows[ean := SavedProduct(Find(rows, ean), Some(hit.name), Some(hit.brand), "openean", None)]
              && r.1 == LookupResult(true, ean, hit.name, hit.brand, "", "openean", "")
    ensures (!localOk || ean !in rows) && OpenEanLookup(openean).None? && OpenFoodFactsLookup(off).Some? ==>
              var hit := OpenFoodFactsLookup(off).value;
              r.0 == rows[ean := SavedProduct(Find(rows, ean), Some(hit.name), Some(hit.brand), "openfoodfacts", None)]
              && r.1 == LookupResult(true, ean, hit.name, hit.brand, "", "openfoodfacts", "")
    ensures (!localOk || ean !in rows) && OpenEanLookup(openean).None? && OpenFoodFactsLookup(off).None? ==>
              r == (rows, LookupResult(false, ean, "", "", "", "none", NotFoundMessage))
  {
    var local := if localOk then DbGetProduct(rows, ean) else None;
    if local.Some? then (rows, LocalResult(local.value))
    else
      var hit := OpenEanLookup(openean);
      if hit.Some? then
        (rows[ean := SavedProduct(Find(rows, ean), Some(hit.value.name), Some(hit.value.brand), "openean", None)],
         MakeResult("openean", ean, Some(hit.value.name), Some(hit.value.brand), None, true, None))
      else
        var offHit := OpenFoodFactsLookup(off);
        if offHit.Some? then
          (rows[ean := SavedProduct(Find(rows, ean), Some(offHit.value.name), Some(offHit.value.brand),
                                    "openfoodfacts", None)],
           MakeResult("openfoodfacts", ean, Some(offHit.value.name), Some(offHit.value.brand), None, true, None))
        else (rows, MakeResult("none", ean, None, None, None, false, Some(NotFoundMessage)))
  }

  /** `Api.lookup_ean(ean)`, with the replies the two providers would give. */
  method LookupEan(db: ProductDb, ean: string, localOk: bool, openean: OpenEanReply, off: OffReply)
    returns (r: LookupResult)
    modifies db`rows
    ensures var spec := LookupSpec(old(db.rows), ean, localOk, openean, off);
            db.rows == spec.0 && r == spec.1
  {
    if localOk {
      var local := DbGetProduct(db.rows, ean);
      if local.Some? {
        return LocalResult(local.value);
      }
    }
    var hit := OpenEanLookup(openean);
    if hit.Some? {
      DbSaveProduct(db, ean, Some(hit.value.name), Some(hit.value.brand), "openean", None);
      return MakeResult("openean", ean, Some(hit.value.name), Some(hit.value.brand), None, true, None);
    }
    var offHit := OpenFoodFactsLookup(off);
    if offHit.Some? {
      DbSaveProduct(db, ean, Some(offHit.value.name), Some(offHit.value.brand), "openfoodfacts", None);
      return MakeResult("openfoodfacts", ean, Some(offHit.value.name), Some(offHit.value.brand), None, true, None);
    }
    r := MakeResult("none", ean, None, None, None, false, Some(NotFoundMessage));
  }

  /**
   * A remote hit is cached: looking the same EAN up again finds it in the table
   * with the same name, brand and source, asks no provider and writes nothing.
   */
  lemma RemoteHitIsCached(rows: map<string, Product>, ean: string, localOk: bool, openean: OpenEanReply,
                          off: OffReply, openean2: OpenEanReply, off2: OffReply)
    requires var r := LookupSpec(rows, ean, localOk, openean, off).1;
             r.source == "openean" || r.source == "openfoodfacts"
    ensures var (rows1, r1) := LookupSpec(rows, ean, localOk, openean, off);
            var (rows2, r2) := LookupSpec(rows1, ean, true, openean2, off2);
            && rows2 == rows1 && r2.ok && r2.name == r1.name && r2.brand == r1.brand && r2.source == r1.source
  {
  }

  // ---------------------------------------------------------------------------
  // save_product

  /** The answer of `save_product`; the text of a failure carries the exception and is not modelled. */
  datatype SaveReply = ProductSaved | SaveFailed

  /**
   * `save_product(ean, name, brand)`: store the row with source "manual",
   * keeping its image; `dbOk` is false when the database raises, which is
   * answered with a failure and leaves the table as it was.
   */
  method SaveProduct(db: ProductDb, ean: string, name: Option<string>, brand: Option<string>, dbOk: bool)
    returns (r: SaveReply)
    modifies db`rows
    ensures dbOk ==> r == ProductSaved
                     && db.rows == old(db.rows)[ean := SavedProduct(Find(old(db.rows), ean), name, brand, "manual", None)]
    ensures !dbOk ==> r == SaveFailed && db.rows == old(db.rows)
  {
    if !dbOk {
      return SaveFailed;
    }
    DbSaveProduct(db, ean, name, brand, "manual", None);
    r := ProductSaved;
  }

  /** A manual save is what the next lookup of the EAN finds, under the source "manual". */
  lemma ManualSaveIsFound(rows: map<string, Product>, ean: string, name: Option<string>, brand: Option<string>,
                          openean: OpenEanReply, off: OffReply)
    ensures var rows' := rows[ean := SavedProduct(Find(rows, ean), name, brand, "manual", None)];
            var (rows2, r) := LookupSpec(rows', ean, true, openean, off);
            && rows2 == rows' && r.ok && r.source == "manual" && r.name == OrEmpty(name) && r.brand == OrEmpty(brand)
  {
  }

  // ---------------------------------------------------------------------------
  // ws_handler: image upload

  /** The answer to one upload message; a failure's text carries the exception and is not modelled. */
  datatype ImageReply = ImageStored(ean: JVal, imagePath: string) | ImageRefused(message: string) | ImageFailed

  /**
   * The text SQLite compares the `ean` column with when `ean` is bound as a
   * parameter: a string as is, a number or boolean in its decimal form (the
   * column has text affinity); a list or object cannot be bound.
   */
  function SqlKey(v: JVal): (r: Option<string>)
    ensures v.JStr? ==> r == Some(v.s)
    ensures v.JList? || v.JDict? ==> r.None?
  {
    match v
    case JNull => None
    case JBool(b) => Some(if b then "1" else "0")
    case JNum(n) => Some(PyStr(v))
    case JStr(s) => Some(s)
    case JList(_, _) => None
    case JDict(_, _) => None
  }

  /** The row after an upload: an existing row gets the new image path; a new row is an "image-only" placeholder. */
  function ImageRow(existing: Option<Product>, path: string): (r: Product)
    ensures r.imagePath == Some(path)
    ensures existing.Some? ==> r == existing.value.(imagePath := Some(path))
    ensures existing.None? ==> r.name == Some("") && r.brand == Some("") && r.source == Some("image-only")
  {
    match existing
    case Some(p) => p.(imagePath := Some(path))
    case None => Product(Some(""), Some(""), Some("image-only"), Some(path))
  }

  /**
   * One message of the upload websocket: the table, the image files and the
   * answer afterwards. `frame` is `None` when the text is not a JSON object;
   * `decodes(s)` says whether `b64decode` accepts `s`, and `writable(p)` whether
   * `open(p, "wb")` succeeds (it fails, for instance, when the EAN holds a `/`
   * naming a directory that does not exist); `dbOk` says whether the SQLite
   * connect, `UPDATE`, `INSERT` and `commit` succeed. An EAN or payload that
   * is missing or falsy is refused; anything that raises is answered as a
   * failure; the file is written before the table is touched.
   */
  function ImageFrame(rows: map<string, Product>, files: set<string>, frame: Option<Object>,
                      decodes: string -> bool, writable: string -> bool, dbOk: bool)
    : (r: (map<string, Product>, set<string>, ImageReply))
    ensures frame.None? ==> r == (rows, files, ImageFailed)
    ensures frame.Some? && (!Truthy(Find(frame.value, "ean").GetOr(JNull)) || !Truthy(Find(frame.value, "image_base64").GetOr(JNull))) ==>
              r == (rows, files, ImageRefused(Hub.MissingImageArgs))
    ensures r.2.ImageStored? ==>
              var ean := Find(frame.value, "ean").value;
              var path := Items.ImageFile(PyStr(ean) + ".jpg");
              && r.2 == ImageStored(ean, path) && r.1 == files + {path} && SqlKey(ean).Some?
              && r.0 == rows[SqlKey(ean).value := ImageRow(Find(rows, SqlKey(ean).value), path)]
              && writable(path) && dbOk
    ensures !dbOk ==> !r.2.ImageStored?
    ensures frame.Some? && Truthy(Find(frame.value, "ean").GetOr(JNull))
            && !writable(Items.ImageFile(PyStr(Find(frame.value, "ean").value) + ".jpg")) ==>
              !r.2.ImageStored? && r.1 == files
    ensures !r.2.ImageStored? ==> r.0 == rows
    ensures files <= r.1 && forall p :: p in r.1 && p !in files ==> writable(p)
  {
    if frame.None? then (rows, files, ImageFailed)
    else
      var ean := Find(frame.value, "ean").GetOr(JNull);
      var image := Find(frame.value, "image_base64").GetOr(JNull);
      if !Truthy(ean) || !Truthy(image) then (rows, files, ImageRefused(Hub.MissingImageArgs))
      else if !image.JStr? || !decodes(image.s) then (rows, files, ImageFailed)
      else
        var path := Items.ImageFile(PyStr(ean) + ".jpg");
        var key := SqlKey(ean);
        if !writable(path) then (rows, files, ImageFailed)
        else if key.None? || !dbOk then (rows, files + {path}, ImageFailed)
        else (rows[key.value := ImageRow(Find(rows, key.value), path)], files + {path}, ImageStored(ean, path))
  }

  /**
   * An upload message with a string EAN and a payload that decodes is stored
   * under that EAN when its file can be written and the database works; when
   * only the database fails the file stays but the table is untouched; when
   * the file cannot be written nothing changes.
   */
  lemma StringUploadIsStored(rows: map<string, Product>, files: set<string>, ean: string, payload: string,
                             decodes: string -> bool, writable: string -> bool, dbOk: bool)
    requires ean != "" && payload != "" && decodes(payload)
    ensures var frame := map["ean" := JStr(ean), "image_base64" := JStr(payload)];
            var path := Items.ImageFile(ean + ".jpg");
            ImageFrame(rows, files, Some(frame), decodes, writable, dbOk)
            == if !writable(path) then (rows, files, ImageFailed)
               else if !dbOk then (rows, files + {path}, ImageFailed)
               else (rows[ean := ImageRow(Find(rows, ean), path)], files + {path}, ImageStored(JStr(ean), path))
  {
    var frame := map["ean" := JStr(ean), "image_base64" := JStr(payload)];
    assert Find(frame, "ean") == Some(JStr(ean));
    assert Find(frame, "image_base64") == Some(JStr(payload));
  }

  /** One upload message handled: write the file, `UPDATE` the row, and `INSERT` a placeholder when no row was updated. */
  method HandleImageFrame(db: ProductDb, frame: Option<Object>, decodes: string -> bool, writable: string -> bool,
                          dbOk: bool)
    returns (reply: ImageReply)
    modifies db
    ensures var spec := ImageFrame(old(db.rows), old(db.files), frame, decodes, writable, dbOk);
            db.rows == spec.0 && db.files == spec.1 && reply == spec.2
  {
    if frame.None? {
      return ImageFailed;
    }
    var ean := Find(frame.value, "ean").GetOr(JNull);
    var image := Find(frame.value, "image_base64").GetOr(JNull);
    if !Truthy(ean) || !Truthy(image) {
      return ImageRefused(Hub.MissingImageArgs);
    }
    if !image.JStr? || !decodes(image.s) {
      return ImageFailed;
    }
    var filepath := Items.ImageFile(PyStr(ean) + ".jpg");
    if !writable(filepath) {
      return ImageFailed;
    }
    db.files := db.files + {filepath};
    var key := SqlKey(ean);
    if key.None? || !dbOk {
      return ImageFailed;
    }
    var rowcount := 0;
    if key.value in db.rows {
      db.rows := db.rows[key.value := db.rows[key.value].(imagePath := Some(filepath))];
      rowcount := 1;
    }
    if rowcount == 0 {
      db.rows := db.rows[key.value := Product(Some(""), Some(""), Some("image-only"), Some(filepath))];
    }
    reply := ImageStored(ean, filepath);
  }

  /** The messages of one connection handled in order: the table, the files and the answers afterwards. */
  function ImageFrames(rows: map<string, Product>, files: set<string>, frames: seq<Option<Object>>,
                       decodes: string -> bool, writable: string -> bool, dbOk: bool)
    : (r: (map<string, Product>, set<string>, seq<ImageReply>))
    ensures |r.2| == |frames|
    decreases |frames|
  {
    if frames == [] then (rows, files, [])
    else
      var (rows1, files1, reply) := ImageFrame(rows, files, frames[0], decodes, writable, dbOk);
      var (rows2, files2, replies) := ImageFrames(rows1, files1, frames[1..], decodes, writable, dbOk);
      (rows2, files2, [reply] + replies)
  }

  /** No image file is ever removed, and every file the handler creates is one it could write. */
  lemma {:induction false} ImageFramesKeepFiles(rows: map<string, Product>, files: set<string>,
                                                frames: seq<Option<Object>>, decodes: string -> bool,
                                                writable: string -> bool, dbOk: bool)
    ensures var files' := ImageFrames(rows, files, frames, decodes, writable, dbOk).1;
            files <= files' && forall p :: p in files' && p !in files ==> writable(p)
    decreases |frames|
  {
    if frames != [] {
      var (rows1, files1, _) := ImageFrame(rows, files, frames[0], decodes, writable, dbOk);
      ImageFramesKeepFiles(rows1, files1, frames[1..], decodes, writable, dbOk);
    }
  }

  /** The first message is handled first, and the rest from the state it leaves. */
  lemma ImageFramesStep(rows: map<string, Product>, files: set<string>, frames: seq<Option<Object>>,
                        decodes: string -> bool, writable: string -> bool, dbOk: bool)
    requires frames != []
    ensures var first := ImageFrame(rows, files, frames[0], decodes, writable, dbOk);
            var rest := ImageFrames(first.0, first.1, frames[1..], decodes, writable, dbOk);
            ImageFrames(rows, files, frames, decodes, writable, dbOk) == (rest.0, rest.1, [first.2] + rest.2)
  {
  }

  /** `ws_handler(websocket)` of app.py: every message is answered, and a failure does not end the connection. */
  method HandleImageFrames(db: ProductDb, frames: seq<Option<Object>>, decodes: string -> bool,
                           writable: string -> bool, dbOk: bool)
    returns (replies: seq<ImageReply>)
    modifies db
    ensures var spec := ImageFrames(old(db.rows), old(db.files), frames, decodes, writable, dbOk);
            db.rows == spec.0 && db.files == spec.1 && replies == spec.2
  {
    ghost var spec := ImageFrames(db.rows, db.files, frames, decodes, writable, dbOk);
    replies := [];
    var i := 0;
    while i < |frames|
      invariant 0 <= i <= |frames|
      invariant var rest := ImageFrames(db.rows, db.files, frames[i..], decodes, writable, dbOk);
                rest.0 == spec.0 && rest.1 == spec.1 && replies + rest.2 == spec.2
    {
      ghost var before := (db.rows, db.files);
      assert frames[i..][0] == frames[i] && frames[i..][1..] == frames[i + 1..];
      ImageFramesStep(db.rows, db.files, frames[i..], decodes, writable, dbOk);
      var reply := HandleImageFrame(db, frames[i], decodes, writable, dbOk);
      assert (db.rows, db.files, reply) == ImageFrame(before.0, before.1, frames[i], decodes, writable, dbOk);
      replies := replies + [reply];
      i := i + 1;
    }
    assert frames[|frames|..] == [];
  }
}
