/**
 * The HTTP handlers of webapp.py that carry logic: saving an item from the
 * mobile form, choosing the image file to serve, the guards of the image
 * upload, and the current-user report.
 */
module WebApp {
  import opened Wrappers
  import opened Text
  import opened Json
  import opened Items
  import opened Session

  /** `config.DUMMY_IMAGE_PATH`. */
  const DummyImagePath: string := ImageDir + "/dummy.png"

  // ---------------------------------------------------------------------------
  // api_save_item

  /** The request body as `request.get_json(silent=True)` returns it: nothing, an object, or another JSON value. */
  datatype Body = NoJson | JsonObject(fields: Object) | JsonOther(value: JVal)

  /**
   * `request.get_json(silent=True) or {}`: a missing or falsy body becomes the
   * empty object; a truthy value that is not an object has no `get` and raises
   * (`None` here).
   */
  function BodyObject(body: Body): (r: Option<Object>)
    ensures body.NoJson? ==> r == Some(map[])
    ensures body.JsonObject? ==> r == Some(body.fields)
    ensures body.JsonOther? ==> (r.None? <==> Truthy(body.value))
  {
    match body
    case NoJson => Some(map[])
    case JsonObject(fields) => Some(fields)
    case JsonOther(v) => if Truthy(v) then None else Some(map[])
  }

  /** `float(qty)`, with 0.0 where it raises. */
  function QtyValue(qty: Option<JVal>): (r: real)
    ensures qty.None? ==> r == 0.0
    ensures qty.Some? && PyFloat(qty.value).Some? ==> r == PyFloat(qty.value).value
    ensures qty.Some? && PyFloat(qty.value).None? ==> r == 0.0
  {
    if qty.None? then 0.0 else PyFloat(qty.value).GetOr(0.0)
  }

  /** `int(shop_id) if shop_id is not None else None`, with `None` where `int()` raises. */
  function ShopValue(shopId: Option<JVal>): (r: Option<int>)
    ensures shopId.None? || shopId.value.JNull? ==> r.None?
    ensures shopId.Some? ==> r == PyInt(shopId.value)
  {
    if shopId.None? || shopId.value.JNull? then None else PyInt(shopId.value)
  }

  /**
   * The row `api_save_item` leaves. On an existing row an empty name keeps the
   * stored one (or "" when that is NULL); quantity, shop and user are
   * overwritten even with `None`; the image path is untouched. A new row gets
   * the given fields and no image.
   */
  function ItemSaved(existing: Option<Item>, name: string, qty: real, shopId: Option<int>,
                     userId: Option<int>, now: int): (r: Item)
    ensures r.qty == Some(qty) && r.shopId == shopId && r.lastUserId == userId && r.lastChangeAt == Some(now)
    ensures name != "" ==> r.name == Some(name)
    ensures existing.Some? ==> r.imagePath == existing.value.imagePath
    ensures existing.Some? && name == "" ==> r.name == Some(existing.value.name.GetOr(""))
    ensures existing.None? ==> r.name == Some(name) && r.imagePath.None?
  {
    match existing
    case Some(row) =>
      var n := if name == "" then row.name.GetOr("") else name;
      row.(name := Some(n), qty := Some(qty), shopId := shopId, lastUserId := userId, lastChangeAt := Some(now))
    case None =>
      Item(Some(name), None, Some(qty), shopId, userId, Some(now))
  }

  /** The answer of `api_save_item`; `Crash` is an exception Flask turns into a bare 500. */
  datatype SaveItemReply = SavedItemOk | SaveRefused(status: int, message: string) | Crash

  const MissingEan: string := "EAN fehlt"
  const DbError: string := "DB-Fehler"

  /**
   * `(data.get(key) or "").strip()` on the form: "" for a missing field, the
   * stripped text for a string; `None` where reading it raises.
   */
  function FormField(body: Body, key: string): (r: Option<string>)
    ensures BodyObject(body).None? ==> r.None?
    ensures BodyObject(body).Some? && key !in BodyObject(body).value ==> r == Some("")
    ensures BodyObject(body).Some? && key in BodyObject(body).value && BodyObject(body).value[key].JStr? ==>
              r == Some(Strip(BodyObject(body).value[key].s))
  {
    var data := BodyObject(body);
    if data.None? then None else OrEmptyStripped(Find(data.value, key))
  }

  /**
   * `api_save_item` on the table `rows`, recording `userId`, at time `now`: the
   * rows afterwards and the answer. A body that cannot be read crashes; a blank
   * EAN is refused with 400 and a database failure with 500, both without a
   * write; otherwise exactly the row of the EAN is written.
   */
  function SaveItemSpec(rows: map<string, Item>, body: Body, userId: Option<int>, dbOk: bool, now: int)
    : (r: (map<string, Item>, SaveItemReply))
    ensures r.1 != SavedItemOk ==> r.0 == rows
    ensures FormField(body, "ean").None? || FormField(body, "name").None? ==> r.1 == Crash
    ensures FormField(body, "ean") == Some("") && FormField(body, "name").Some? ==> r.1 == SaveRefused(400, MissingEan)
    ensures r.1 == SavedItemOk <==> dbOk && FormField(body, "name").Some? && FormField(body, "ean").Some? && FormField(body, "ean").value != ""
    ensures r.1 == SavedItemOk ==> FormField(body, "ean").value in r.0
  {
    var ean := FormField(body, "ean");
    var name := FormField(body, "name");
    if ean.None? || name.None? then (rows, Crash)
    else if ean.value == "" then (rows, SaveRefused(400, MissingEan))
    else if !dbOk then (rows, SaveRefused(500, DbError))
    else
      var data := BodyObject(body).value;
      var item := ItemSaved(Find(rows, ean.value), name.value, QtyValue(Find(data, "qty")),
                            ShopValue(Find(data, "shop_id")), userId, now);
      (rows[ean.value := item], SavedItemOk)
  }

  /**
   * A successful `api_save_item` writes the row of the stripped EAN, as
   * `ItemSaved` describes it, and no other row.
   */
  lemma SaveItemWritesOneRow(rows: map<string, Item>, body: Body, userId: Option<int>, dbOk: bool, now: int)
    requires SaveItemSpec(rows, body, userId, dbOk, now).1 == SavedItemOk
    ensures var r := SaveItemSpec(rows, body, userId, dbOk, now).0;
            var e := FormField(body, "ean").value;
            var data := BodyObject(body).value;
            && r.Keys == rows.Keys + {e}
            && r[e] == ItemSaved(Find(rows, e), FormField(body, "name").value, QtyValue(Find(data, "qty")),
                                 ShopValue(Find(data, "shop_id")), userId, now)
            && (forall k {:trigger r[k]} :: k in rows && k != e ==> r[k] == rows[k])
  {
  }

  /** The user `api_save_item` records: the session's current user as it stands, without the expiry check. */
  function FormUser(api: Api?): (r: Option<int>)
    reads api
    ensures api == null ==> r.None?
    ensures api != null ==> r == api.Snapshot().userId
  {
    if api == null then None else api.currentUserId
  }

  /** The save records a user whose session has already expired, since it reads the field without the check. */
  lemma FormUserIgnoresExpiry(api: Api, now: int)
    requires Expired(api.Snapshot(), now)
    ensures FormUser(api).Some? && FormUser(api) == api.Snapshot().userId
    ensures CurrentUser(api.Snapshot(), now).userId.None?
  {
  }

  /**
   * `POST /api/save_item` at time `now`; `api` is `null` before the desktop
   * side has registered its `Api` object.
   */
  method ApiSaveItem(store: ItemStore, body: Body, api: Api?, dbOk: bool, now: int) returns (r: SaveItemReply)
    modifies store`rows
    ensures var spec := SaveItemSpec(old(store.rows), body, FormUser(api), dbOk, now);
            store.rows == spec.0 && r == spec.1
  {
    ghost var spec := SaveItemSpec(store.rows, body, FormUser(api), dbOk, now);
    var data := BodyObject(body);
    if data.None? {
      return Crash;
    }
    var ean := OrEmptyStripped(Find(data.value, "ean"));
    var name := OrEmptyStripped(Find(data.value, "name"));
    if ean.None? || name.None? {
      return Crash;
    }
    var qty := Find(data.value, "qty");
    var shopId := Find(data.value, "shop_id");
    if ean.value == "" {
      return SaveRefused(400, MissingEan);
    }
    var qtyVal := QtyValue(qty);
    var shopIdVal := ShopValue(shopId);
    var userId: Option<int> := None;
    if api != null && api.currentUserId.Some? {
      userId := api.currentUserId;
    }
    if !dbOk {
      return SaveRefused(500, DbError);
    }
    assert spec == (store.rows[ean.value := ItemSaved(Find(store.rows, ean.value), name.value, qtyVal, shopIdVal, userId, now)],
                    SavedItemOk);
    var n := name.value;
    if ean.value in store.rows {
      var row := store.rows[ean.value];
      if n == "" {
        n := row.name.GetOr("");
      }
      store.rows := store.rows[ean.value := row.(name := Some(n), qty := Some(qtyVal), shopId := shopIdVal,
                                                 lastUserId := userId, lastChangeAt := Some(now))];
    } else {
      store.rows := store.rows[ean.value := Item(Some(n), None, Some(qtyVal), shopIdVal, userId, Some(now))];
    }
    r := SavedItemOk;
  }

  /**
   * Saving through the form and reading back gives the effective name: the
   * given one, or the stored one when the form left it empty.
   */
  lemma ItemSavedReadBack(rows: map<string, Item>, ean: string, name: string, qty: real, shopId: Option<int>,
                          userId: Option<int>, now: int)
    ensures var saved := rows[ean := ItemSaved(Find(rows, ean), name, qty, shopId, userId, now)];
            var view := DbGetProduct(saved, ean);
            && view.Some? && view.value.qty == qty && view.value.shopId == shopId
            && (name != "" ==> view.value.name == Some(name))
            && (name == "" && ean in rows ==> view.value.name == Some(rows[ean].name.GetOr("")))
  {
  }

  // ---------------------------------------------------------------------------
  // product_image

  /** The file `GET /image/<ean>` sends. */
  datatype Served = StoredImage(path: string) | DummyImage

  /**
   * `product_image(ean)`: the stored image path when the row has a non-empty
   * one and that file exists; the dummy image otherwise.
   */
  function ProductImage(rows: map<string, Item>, files: set<string>, ean: string): (r: Served)
    ensures r.StoredImage? <==> (ean in rows && rows[ean].imagePath.Some? && rows[ean].imagePath.value != ""
                                 && rows[ean].imagePath.value in files)
    ensures r.StoredImage? ==> r.path == rows[ean].imagePath.value && r.path in files
  {
    var candidate := if ean in rows && rows[ean].imagePath.Some? && rows[ean].imagePath.value != ""
                     then Some(rows[ean].imagePath.value) else None;
    if candidate.Some? && candidate.value in files then StoredImage(candidate.value) else DummyImage
  }

  /** Once an image was stored for an EAN, that file is what `GET /image/<ean>` serves. */
  lemma UploadedImageIsServed(rows: map<string, Item>, files: set<string>, ean: string)
    ensures var path := ImageTarget(ean, Image).value;
            var rows' := rows[ean := WithImage(Find(rows, ean), path)];
            ProductImage(rows', files + {path}, ean) == StoredImage(path)
  {
    var path := ImageTarget(ean, Image).value;
    assert path != "";
  }

  // ---------------------------------------------------------------------------
  // upload_image_http

  /**
   * The `image` part of the multipart request: its file name and whether
   * Pillow can open its bytes. Its truthiness is that of the file name.
   */
  datatype Upload = Upload(filename: string, opensAsImage: bool)

  datatype UploadReply = UploadOk(ean: string) | UploadRefused(status: int, message: string)

  const NoImage: string := "Kein Bild übermittelt"
  const UploadError: string := "Fehler beim Speichern"

  /**
   * `POST /upload_image/<ean>`: a blank EAN or a missing (or nameless) file is
   * refused with 400 before anything is stored; otherwise the bytes go through
   * `save_image_for_ean`, whose base64 round trip always decodes. `writeOk` and
   * `dbOk` say whether its file write and its table update succeed; when
   * either fails the exception is caught and answered with 500.
   */
  method UploadImageHttp(store: ItemStore, ean: string, file: Option<Upload>, writeOk: bool, dbOk: bool)
    returns (r: UploadReply)
    modifies store
    ensures Blank(ean) ==> r == UploadRefused(400, MissingEan) && store.rows == old(store.rows) && store.files == old(store.files)
    ensures !Blank(ean) && (file.None? || file.value.filename == "") ==>
              r == UploadRefused(400, NoImage) && store.rows == old(store.rows) && store.files == old(store.files)
    ensures !Blank(ean) && file.Some? && file.value.filename != "" ==>
              var e := Strip(ean);
              var kind := if file.value.opensAsImage then Image else NotAnImage;
              && (r == UploadOk(e) <==> ImageSaved(kind, writeOk, dbOk))
              && (!ImageSaved(kind, writeOk, dbOk) ==> r == UploadRefused(500, UploadError))
              && store.files == (if writeOk then old(store.files) + {ImageTarget(e, kind).value} else old(store.files))
              && (kind == Image && writeOk && dbOk ==>
                    store.rows == old(store.rows)[e := WithImage(Find(old(store.rows), e), ImageTarget(e, kind).value)])
              && (!(kind == Image && writeOk && dbOk) ==> store.rows == old(store.rows))
  {
    var e := Strip(ean);
    if e == "" {
      return UploadRefused(400, MissingEan);
    }
    if file.None? || file.value.filename == "" {
      return UploadRefused(400, NoImage);
    }
    var kind := if file.value.opensAsImage then Image else NotAnImage;
    var path := SaveImageForEan(store, e, kind, writeOk, dbOk);
    if path.None? {
      return UploadRefused(500, UploadError);
    }
    r := UploadOk(e);
  }

  // ---------------------------------------------------------------------------
  // api_current_user

  /**
   * `GET /api/current_user` at time `now`: without a registered `Api` object an
   * empty report with timeout 0; otherwise `get_current_user()`.
   */
  method ApiCurrentUser(api: Api?, now: int) returns (v: UserView)
    requires api != null ==> api.Valid()
    modifies api
    ensures api == null ==> v == UserView(None, "", 0, None)
    ensures api != null ==> api.Valid() && v == CurrentUser(old(api.Snapshot()), now)
                            && api.Snapshot() == Expire(old(api.Snapshot()), now)
    ensures api != null ==> api.events == old(api.events) + (if Expired(old(api.Snapshot()), now)
                                                             then [LogoutEvent(old(api.Snapshot()))] else [])
  {
    if api == null {
      return UserView(None, "", 0, None);
    }
    v := api.GetCurrentUser(now);
  }
}
