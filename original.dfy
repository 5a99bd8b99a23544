/**
 * originalapp.py, the earlier all-in-one variant: a desktop API over the MySQL
 * `items` table (lookup with an optional OpenFoodFacts fallback, a save that
 * keeps the stored image), a rename that goes to the SQLite `products`
 * table, and a websocket handler that keeps the raw `last_article` and sends
 * the article's image inline when its file exists.
 */
module OriginalApp {
  import opened Wrappers
  import opened Text
  import opened Json
  import opened Events
  import opened Items
  import opened Products
  import Providers
  import Session
  import Hub

  // ---------------------------------------------------------------------------
  // Api: _db_get_product / _db_save_product

  /** The dictionary `lookup_ean` returns. */
  datatype ArticleView = ArticleView(ean: string, name: Option<string>, imagePath: string)

  /** `_db_get_product(ean)`: EAN, name and image path of the row, with a missing or empty path as "". */
  function GetArticle(rows: map<string, Item>, ean: string): (r: Option<ArticleView>)
    ensures r.Some? <==> ean in rows
    ensures r.Some? ==> r.value == ArticleView(ean, rows[ean].name, rows[ean].imagePath.GetOr(""))
  {
    if ean in rows then Some(ArticleView(ean, rows[ean].name, rows[ean].imagePath.GetOr(""))) else None
  }

  /**
   * The row `_db_save_product(ean, name, image_path)` leaves: `INSERT ... ON
   * DUPLICATE KEY UPDATE` of name and image path, where a missing image path
   * is replaced by the stored one; the other columns of an existing row stay.
   */
  function KeptImageItem(existing: Option<Item>, name: string, imagePath: Option<string>): (r: Item)
    ensures r.name == Some(name)
    ensures imagePath.Some? ==> r.imagePath == imagePath
    ensures existing.Some? && imagePath.None? ==> r.imagePath == existing.value.imagePath
    ensures existing.Some? ==> r.qty == existing.value.qty && r.shopId == existing.value.shopId
                               && r.lastUserId == existing.value.lastUserId && r.lastChangeAt == existing.value.lastChangeAt
    ensures existing.None? ==> r == Item(Some(name), imagePath, None, None, None, None)
  {
    match existing
    case Some(row) => row.(name := Some(name), imagePath := if imagePath.None? then row.imagePath else imagePath)
    case None => Item(Some(name), imagePath, None, None, None, None)
  }

  /** `_db_save_product(ean, name, image_path)`. */
  method SaveKeepingImage(store: ItemStore, ean: string, name: string, imagePath: Option<string>)
    modifies store`rows
    ensures store.rows == old(store.rows)[ean := KeptImageItem(Find(old(store.rows), ean), name, imagePath)]
  {
    var image := imagePath;
    if ean in store.rows && image.None? {
      image := store.rows[ean].imagePath;
    }
    if ean in store.rows {
      store.rows := store.rows[ean := store.rows[ean].(name := Some(name), imagePath := image)];
    } else {
      store.rows := store.rows[ean := Item(Some(name), image, None, None, None, None)];
    }
  }

  // ---------------------------------------------------------------------------
  // Api: _lookup_ean_online

  /** The decoded body of the OpenFoodFacts answer; `product` is `None` when absent or empty. */
  datatype OnlineJson = OnlineJson(status: Option<JVal>, product: Option<Object>)

  /** The OpenFoodFacts call: an exception, or a response with its HTTP status and its body (`None` when not JSON). */
  datatype OnlineReply = OnlineFailed | OnlineResponse(statusCode: int, json: Option<OnlineJson>)

  /** The first value that is present and truthy (Python's `a or b or ...`), if any. */
  function FirstTruthy(vals: seq<Option<JVal>>): (r: Option<JVal>)
    ensures r.Some? ==> Truthy(r.value)
    ensures r.None? <==> forall i :: 0 <= i < |vals| ==> vals[i].None? || !Truthy(vals[i].value)
    ensures r.Some? ==> exists i :: 0 <= i < |vals| && vals[i] == r
                                    && forall j :: 0 <= j < i ==> vals[j].None? || !Truthy(vals[j].value)
    decreases |vals|
  {
    if vals == [] then None
    else if vals[0].Some? && Truthy(vals[0].value) then vals[0]
    else
      var r := FirstTruthy(vals[1..]);
      assert forall i :: 1 <= i < |vals| ==> vals[i] == vals[1..][i - 1];
      r
  }

  /** The name fields `_lookup_ean_online` tries, in order. */
  function NameValues(product: Option<Object>): (r: seq<Option<JVal>>)
    ensures |r| == 4
  {
    if product.None? then [None, None, None, None]
    else
      var p := product.value;
      [Find(p, "product_name"), Find(p, "product_name_de"), Find(p, "generic_name"), Find(p, "generic_name_de")]
  }

  /**
   * The name `_lookup_ean_online` finds: for HTTP 200 and a `status` equal to
   * 1, the first truthy of `product_name`, `product_name_de`, `generic_name`,
   * `generic_name_de`, stripped; `None` when that is empty, is not a string
   * (`strip` raises), or the call fails.
   */
  function OnlineName(reply: OnlineReply): (r: Option<string>)
    ensures r.Some? ==> r.value != "" && Strip(r.value) == r.value
    ensures r.Some? ==> reply.OnlineResponse? && reply.statusCode == 200 && reply.json.Some?
                        && Providers.EqualsOne(reply.json.value.status)
    ensures r.Some? ==> var v := FirstTruthy(NameValues(reply.json.value.product));
                        v.Some? && v.value.JStr? && r.value == Strip(v.value.s)
    ensures reply.OnlineResponse? && reply.statusCode == 200 && reply.json.Some? && Providers.EqualsOne(reply.json.value.status) ==>
              var v := FirstTruthy(NameValues(reply.json.value.product));
              (v.Some? && v.value.JStr? && Strip(v.value.s) != "" ==> r.Some?)
  {
    match reply
    case OnlineFailed => None
    case OnlineResponse(code, json) =>
      if code != 200 || json.None? || !Providers.EqualsOne(json.value.status) then None
      else
        var v := FirstTruthy(NameValues(json.value.product));
        if v.None? || !v.value.JStr? then None
        else
          var name := Strip(v.value.s);
          StripIdempotent(v.value.s);
          if name == "" then None else Some(name)
  }

  /** `product_name` wins over the other fields whenever it is a non-blank string. */
  lemma ProductNameFirst(p: Object, status: JVal, name: string)
    requires Providers.EqualsOne(Some(status)) && "product_name" in p && p["product_name"] == JStr(name) && !Blank(name)
    ensures OnlineName(OnlineResponse(200, Some(OnlineJson(Some(status), Some(p))))) == Some(Strip(name))
  {
    var vals := NameValues(Some(p));
    assert vals[0] == Find(p, "product_name") == Some(JStr(name));
    assert name != "";
    assert FirstTruthy(vals) == Some(JStr(name));
  }

  // ---------------------------------------------------------------------------
  // Api: lookup_ean / save_product

  /**
   * `lookup_ean(ean, use_online)` on the table `rows`: the table afterwards and
   * the answer. A blank EAN gives the all-empty answer without reading; a
   * stored EAN gives its row; otherwise, only with `use_online`, a name found
   * online is saved and returned; anything else gives the EAN with an empty
   * name.
   */
  function LookupSpec(rows: map<string, Item>, ean: Option<string>, useOnline: bool, online: OnlineReply)
    : (r: (map<string, Item>, ArticleView))
    ensures var e := Session.StrippedArg(ean);
            && (e == "" ==> r == (rows, ArticleView("", Some(""), "")))
            && (e != "" && e in rows ==> r == (rows, GetArticle(rows, e).value))
            && (e != "" && e !in rows && useOnline && OnlineName(online).Some? ==>
                  var n := OnlineName(online).value;
                  r == (rows[e := Item(Some(n), None, None, None, None, None)], ArticleView(e, Some(n), "")))
            && (e != "" && e !in rows && (!useOnline || OnlineName(online).None?) ==>
                  r == (rows, ArticleView(e, Some(""), "")))
  {
    var e := Session.StrippedArg(ean);
    if e == "" then (rows, ArticleView("", Some(""), ""))
    else if e in rows then (rows, GetArticle(rows, e).value)
    else if useOnline && OnlineName(online).Some? then
      var n := Strip(OnlineName(online).value);
      (rows[e := KeptImageItem(None, n, None)], ArticleView(e, Some(n), ""))
    else (rows, ArticleView(e, Some(""), ""))
  }

  /** `Api.lookup_ean(ean, use_online)`, with the reply the online database would give. */
  method LookupEan(store: ItemStore, ean: Option<string>, useOnline: bool, online: OnlineReply) returns (r: ArticleView)
    modifies store`rows
    ensures var spec := LookupSpec(old(store.rows), ean, useOnline, online);
            store.rows == spec.0 && r == spec.1
  {
    var e := Session.StrippedArg(ean);
    if e == "" {
      return ArticleView("", Some(""), "");
    }
    var row := GetArticle(store.rows, e);
    if row.Some? {
      return row.value;
    }
    if useOnline {
      var found := OnlineName(online);
      if found.Some? {
        var name := Strip(found.value);
        if name != "" {
          SaveKeepingImage(store, e, name, None);
          return ArticleView(e, Some(name), "");
        }
      }
    }
    r := ArticleView(e, Some(""), "");
  }

  /**
   * `save_product(ean, name)`: a blank EAN is refused and nothing is written;
   * otherwise the stripped name is saved, keeping the stored image path.
   */
  method SaveProduct(store: ItemStore, ean: Option<string>, name: Option<string>) returns (r: Session.SaveReply)
    modifies store`rows
    ensures Session.StrippedArg(ean) == "" ==> r == Session.Failed(Session.MissingEan) && store.rows == old(store.rows)
    ensures Session.StrippedArg(ean) != "" ==>
              var e := Session.StrippedArg(ean);
              r == Session.Saved
              && store.rows == old(store.rows)[e := KeptImageItem(Find(old(store.rows), e), Session.StrippedArg(name), None)]
  {
    var e := Session.StrippedArg(ean);
    var n := Session.StrippedArg(name);
    if e == "" {
      return Session.Failed(Session.MissingEan);
    }
    SaveKeepingImage(store, e, n, None);
    r := Session.Saved;
  }

  /** What a save leaves is what the next lookup answers: the saved name with the image path kept. */
  lemma SaveThenLookup(rows: map<string, Item>, ean: Option<string>, name: Option<string>, useOnline: bool,
                       online: OnlineReply)
    requires Session.StrippedArg(ean) != ""
    ensures var e := Session.StrippedArg(ean);
            var rows' := rows[e := KeptImageItem(Find(rows, e), Session.StrippedArg(name), None)];
            LookupSpec(rows', ean, useOnline, online)
            == (rows', ArticleView(e, Some(Session.StrippedArg(name)), if e in rows then rows[e].imagePath.GetOr("") else ""))
  {
  }

  // ---------------------------------------------------------------------------
  // update_product_name (SQLite)

  /** The `products` row `update_product_name` leaves: only the name of an existing row changes; a new row has only a name. */
  function RenamedProduct(existing: Option<Product>, name: string): (r: Product)
    ensures r.name == Some(name)
    ensures existing.Some? ==> r == existing.value.(name := Some(name))
    ensures existing.None? ==> r == Product(Some(name), None, None, None)
  {
    match existing
    case Some(p) => p.(name := Some(name))
    case None => Product(Some(name), None, None, None)
  }

  /** `update_product_name(ean, name)` on the SQLite table. */
  method RenameProduct(db: ProductDb, ean: string, name: string)
    modifies db`rows
    ensures db.rows == old(db.rows)[ean := RenamedProduct(Find(old(db.rows), ean), name)]
  {
    if ean in db.rows {
      db.rows := db.rows[ean := db.rows[ean].(name := Some(name))];
    } else {
      db.rows := db.rows[ean := Product(Some(name), None, None, None)];
    }
  }

  // ---------------------------------------------------------------------------
  // ws_handler: frames and their dispatch

  /** `last_article` as this handler keeps it: the EAN and name exactly as received. */
  datatype RawArticle = RawArticle(ean: JVal, name: JVal)

  /**
   * `get_image_base64_for_ean(ean) if ean else None`: the image file of a
   * truthy EAN, when it exists. (An existing but empty file encodes to "" and
   * would be left out; files are not told apart by size here.)
   */
  function AttachedImage(ean: JVal, files: set<string>): (r: Option<string>)
    ensures r.Some? <==> Truthy(ean) && ImageFile(PyStr(ean) + ".jpg") in files
    ensures r.Some? ==> r.value == ImageFile(PyStr(ean) + ".jpg")
  {
    var candidate := ImageFile(PyStr(ean) + ".jpg");
    if Truthy(ean) && candidate in files then Some(candidate) else None
  }

  /** The `current_article` message for an article, with its image when the file exists. */
  function ArticleMessage(a: RawArticle, files: set<string>): (m: Message)
    ensures m.CurrentArticle? && m.ean == a.ean && m.name == a.name && m.image == AttachedImage(a.ean, files)
  {
    CurrentArticle(a.ean, a.name, AttachedImage(a.ean, files))
  }

  datatype Outcome = Outcome(last: Option<RawArticle>, write: Hub.Write, out: Hub.Output)

  /** `set_article`: remember and announce the EAN and name as received (missing ones as ""). */
  function SetArticle(data: Object, files: set<string>): (o: Outcome)
    ensures o.last.Some? && o.write.NoWrite? && o.out == Hub.Bcast(ArticleMessage(o.last.value, files))
    ensures o.last.value == RawArticle(Find(data, "ean").GetOr(JStr("")), Find(data, "name").GetOr(JStr("")))
  {
    var a := RawArticle(Find(data, "ean").GetOr(JStr("")), Find(data, "name").GetOr(JStr("")));
    Outcome(Some(a), Hub.NoWrite, Hub.Bcast(ArticleMessage(a, files)))
  }

  /** `request_current_article`: send the last article back to the asker, if there is one. */
  function RequestArticle(last: Option<RawArticle>, files: set<string>): (o: Outcome)
    ensures o.last == last && o.write.NoWrite?
    ensures last.Some? ==> o.out == Hub.Reply(ArticleMessage(last.value, files))
    ensures last.None? ==> o.out.Silent?
  {
    Outcome(last, Hub.NoWrite, if last.Some? then Hub.Reply(ArticleMessage(last.value, files)) else Hub.Silent)
  }

  /** Whether Python's `len(v)` is defined. */
  predicate Sized(v: JVal) {
    v.JStr? || v.JList? || v.JDict?
  }

  /**
   * `upload_image`: the stripped EAN and the payload are required; a payload
   * that decodes is stored (as an image, or raw when Pillow cannot open it) and
   * announced with the file it went to and the payload itself. A non-string
   * EAN, a payload without a length, and a payload `b64decode` rejects raise.
   */
  function UploadImage(last: Option<RawArticle>, data: Object, at: int, classify: string -> PayloadKind): (o: Outcome)
    ensures o.last == last
    ensures o.out.Crash? ==> o.write.NoWrite?
    ensures o.write.StoreImage? ==>
              && o.write.ean != "" && o.write.kind != BadBase64 && Find(data, "image_base64").Some?
              && Find(data, "image_base64").value.JStr?
              && o.out == Hub.Bcast(ImageUpdated(o.write.ean, ImageTarget(o.write.ean, o.write.kind), at,
                                                 Some(Find(data, "image_base64").value.s)))
    ensures o.write.NoWrite? ==> o.out.Crash? || o.out == Hub.Reply(Error(Hub.MissingImageArgs))
    ensures !o.write.Rename?
  {
    var ean := DefaultStripped(Find(data, "ean"));
    var image := Find(data, "image_base64").GetOr(JStr(""));
    if ean.None? || !Sized(image) then Outcome(last, Hub.NoWrite, Hub.Crash)
    else if ean.value == "" || !Truthy(image) then Outcome(last, Hub.NoWrite, Hub.Reply(Error(Hub.MissingImageArgs)))
    else if !image.JStr? || classify(image.s) == BadBase64 then Outcome(last, Hub.NoWrite, Hub.Crash)
    else
      var kind := classify(image.s);
      Outcome(last, Hub.StoreImage(ean.value, kind),
              Hub.Bcast(ImageUpdated(ean.value, ImageTarget(ean.value, kind), at, Some(image.s))))
  }

  /**
   * `save_name`: both fields are read with `data.get(k, "").strip()`; a blank
   * EAN is answered with the error, otherwise the name is written, remembered
   * and announced.
   */
  function SaveName(last: Option<RawArticle>, data: Object, files: set<string>): (o: Outcome)
    ensures o.out.Crash? ==> o.last == last && o.write.NoWrite?
    ensures o.write.Rename? ==> o.write.ean != "" && o.last == Some(RawArticle(JStr(o.write.ean), JStr(o.write.name)))
                                && o.out == Hub.Bcast(ArticleMessage(o.last.value, files))
    ensures o.write.NoWrite? ==> o.last == last && (o.out.Crash? || o.out == Hub.Reply(Error(Hub.MissingEanArg)))
    ensures !o.write.StoreImage?
  {
    var ean := DefaultStripped(Find(data, "ean"));
    var name := DefaultStripped(Find(data, "name"));
    if ean.None? || name.None? then Outcome(last, Hub.NoWrite, Hub.Crash)
    else if ean.value == "" then Outcome(last, Hub.NoWrite, Hub.Reply(Error(Hub.MissingEanArg)))
    else
      var a := RawArticle(JStr(ean.value), JStr(name.value));
      Outcome(Some(a), Hub.Rename(ean.value, name.value), Hub.Bcast(ArticleMessage(a, files)))
  }

  /** The message types this handler knows. */
  predicate KnownType(data: Object) {
    Hub.IsType(data, "set_article") || Hub.IsType(data, "request_current_article")
    || Hub.IsType(data, "upload_image") || Hub.IsType(data, "save_name")
  }

  /** The reaction of `ws_handler` to one decoded object, given the last article and the image files. */
  function Dispatch(last: Option<RawArticle>, data: Object, at: int, files: set<string>,
                    classify: string -> PayloadKind): (o: Outcome)
    ensures o.out.Crash? ==> o.last == last && o.write.NoWrite?
    ensures o.last != last ==> o.last.Some? && o.out == Hub.Bcast(ArticleMessage(o.last.value, files))
    ensures o.write.Rename? ==> o.write.ean != "" && o.last == Some(RawArticle(JStr(o.write.ean), JStr(o.write.name)))
    ensures o.write.StoreImage? ==> o.write.ean != "" && o.write.kind != BadBase64 && o.out.Bcast?
    ensures !KnownType(data) ==> o == Outcome(last, Hub.NoWrite, Hub.Silent)
  {
    if Hub.IsType(data, "set_article") then SetArticle(data, files)
    else if Hub.IsType(data, "request_current_article") then RequestArticle(last, files)
    else if Hub.IsType(data, "upload_image") then UploadImage(last, data, at, classify)
    else if Hub.IsType(data, "save_name") then SaveName(last, data, files)
    else Outcome(last, Hub.NoWrite, Hub.Silent)
  }

  /**
   * Announcing an article and then asking for it gives back the EAN and name
   * exactly as sent, with the image attached exactly when its file exists.
   */
  lemma SetThenRequest(last: Option<RawArticle>, ean: JVal, name: JVal, at: int, at2: int, files: set<string>,
                       classify: string -> PayloadKind)
    ensures var setFrame := map["type" := JStr("set_article"), "ean" := ean, "name" := name];
            var o := Dispatch(last, setFrame, at, files, classify);
            var o2 := Dispatch(o.last, map["type" := JStr("request_current_article")], at2, files, classify);
            && o.last == Some(RawArticle(ean, name))
            && o2.out == Hub.Reply(CurrentArticle(ean, name, AttachedImage(ean, files)))
  {
    var setFrame := map["type" := JStr("set_article"), "ean" := ean, "name" := name];
    assert Find(setFrame, "type") == Some(JStr("set_article"));
    assert Dispatch(last, setFrame, at, files, classify) == SetArticle(setFrame, files);
    assert Find(setFrame, "ean") == Some(ean);
    assert Find(setFrame, "name") == Some(name);
    var o := SetArticle(setFrame, files);
    var req := map["type" := JStr("request_current_article")];
    assert Find(req, "type") == Some(JStr("request_current_article"));
    assert Dispatch(o.last, req, at2, files, classify) == RequestArticle(o.last, files);
  }

  /** `save_name` with a blank EAN answers with the error, writes nothing and keeps `last_article`. */
  lemma SaveNameNeedsEan(last: Option<RawArticle>, ean: string, name: string, at: int, files: set<string>,
                         classify: string -> PayloadKind)
    requires Blank(ean)
    ensures var data := map["type" := JStr("save_name"), "ean" := JStr(ean), "name" := JStr(name)];
            Dispatch(last, data, at, files, classify) == Outcome(last, Hub.NoWrite, Hub.Reply(Error(Hub.MissingEanArg)))
  {
    var data := map["type" := JStr("save_name"), "ean" := JStr(ean), "name" := JStr(name)];
    assert Find(data, "type") == Some(JStr("save_name"));
    assert Dispatch(last, data, at, files, classify) == SaveName(last, data, files);
    assert Find(data, "ean") == Some(JStr(ean));
    assert Find(data, "name") == Some(JStr(name));
  }

  // ---------------------------------------------------------------------------
  // ws_handler: the state a connection works on

  /** The clients and inboxes, the last article, the `items` table, the image files and the `products` table. */
  datatype World = World(clients: set<Hub.Peer>, sent: map<Hub.Peer, seq<Message>>, last: Option<RawArticle>,
                         rows: map<string, Item>, files: set<string>, products: map<string, Product>)

  /** The `items` table after a write: only a stored image changes it. */
  function ItemsAfter(rows: map<string, Item>, w: Hub.Write): (r: map<string, Item>)
    ensures w.StoreImage? && w.kind == Image ==>
              r == rows[w.ean := WithImage(Find(rows, w.ean), ImageTarget(w.ean, Image).value)]
    ensures !(w.StoreImage? && w.kind == Image) ==> r == rows
  {
    if w.StoreImage? && w.kind == Image then rows[w.ean := WithImage(Find(rows, w.ean), ImageFile(w.ean + ".jpg"))]
    else rows
  }

  /** The `products` table after a write: only a rename changes it. */
  function ProductsAfter(products: map<string, Product>, w: Hub.Write): (r: map<string, Product>)
    ensures w.Rename? ==> r == products[w.ean := RenamedProduct(Find(products, w.ean), w.name)]
    ensures !w.Rename? ==> r == products
  {
    if w.Rename? then products[w.ean := RenamedProduct(Find(products, w.ean), w.name)] else products
  }

  /** A peer with an inbox joins the clients. */
  function Connected(w: World, ws: Hub.Peer): (r: World)
    ensures r.clients == w.clients + {ws} && ws in r.sent
    ensures forall p :: p in w.sent ==> p in r.sent && r.sent[p] == w.sent[p]
  {
    w.(clients := w.clients + {ws}, sent := if ws in w.sent then w.sent else w.sent[ws := []])
  }

  /** One frame handled by the connection of `ws`: the world afterwards, and whether the handler goes on reading. */
  function StepSpec(w: World, ws: Hub.Peer, frame: Hub.Frame, classify: string -> PayloadKind, failing: set<Hub.Peer>)
    : (r: (World, bool))
    requires ws in w.sent
    ensures ws in r.0.sent && r.0.sent.Keys == w.sent.Keys
    ensures r.0.clients <= w.clients
    ensures frame.Malformed? ==> r == (w, true)
    ensures frame.NotObject? ==> r == (w, false)
    ensures frame.Obj? && Dispatch(w.last, frame.data, frame.at, w.files, classify).out.Crash? ==> r == (w, false)
  {
    match frame
    case Malformed => (w, true)
    case NotObject => (w, false)
    case Obj(data, at) =>
      var o := Dispatch(w.last, data, at, w.files, classify);
      if o.out.Crash? then (w, false)
      else
        var w1 := w.(last := o.last, rows := ItemsAfter(w.rows, o.write), files := Hub.FilesAfter(w.files, o.write),
                     products := ProductsAfter(w.products, o.write));
        if o.out.Reply? then
          if ws in failing then (w1, false)
          else (w1.(sent := w1.sent[ws := w1.sent[ws] + [o.out.msg]]), true)
        else if o.out.Bcast? then
          (w1.(clients := w1.clients - failing, sent := Hub.Delivered(w1.sent, w1.clients, failing, o.out.msg)), true)
        else (w1, true)
  }

  /** The frames of one connection handled in order until one ends the handler. */
  function RunSpec(w: World, ws: Hub.Peer, frames: seq<Hub.Frame>, classify: string -> PayloadKind,
                   failing: set<Hub.Peer>): (r: World)
    requires ws in w.sent
    ensures ws in r.sent && r.sent.Keys == w.sent.Keys && r.clients <= w.clients
    decreases |frames|
  {
    if frames == [] then w
    else
      var (w1, alive) := StepSpec(w, ws, frames[0], classify, failing);
      if alive then RunSpec(w1, ws, frames[1..], classify, failing) else w1
  }

  /** A frame that is not JSON is skipped: the connection goes on as if it had not been sent. */
  lemma MalformedIsSkipped(w: World, ws: Hub.Peer, frames: seq<Hub.Frame>, classify: string -> PayloadKind,
                           failing: set<Hub.Peer>)
    requires ws in w.sent
    ensures RunSpec(w, ws, [Hub.Malformed] + frames, classify, failing) == RunSpec(w, ws, frames, classify, failing)
  {
    assert ([Hub.Malformed] + frames)[1..] == frames;
  }

  /** The module-level state of originalapp.py's websocket side. */
  class Server {
    const peers: Hub.Peers
    var lastArticle: Option<RawArticle>

    constructor ()
      ensures fresh(peers) && peers.Valid() && peers.clients == {} && peers.sent == map[] && lastArticle.None?
    {
      peers := new Hub.Peers();
      lastArticle := None;
    }

    function Snapshot(store: ItemStore, db: ProductDb): World
      reads this, peers, store, db
    {
      World(peers.clients, peers.sent, lastArticle, store.rows, store.files, db.rows)
    }

    /** One frame read by the handler of `ws`; `alive` is false when the handler stops. */
    method Step(ws: Hub.Peer, frame: Hub.Frame, store: ItemStore, db: ProductDb, classify: string -> PayloadKind,
                failing: set<Hub.Peer>) returns (alive: bool)
      requires peers.Valid() && ws in peers.sent
      modifies this`lastArticle, peers, store, db`rows
      ensures peers.Valid()
      ensures (Snapshot(store, db), alive) == StepSpec(old(Snapshot(store, db)), ws, frame, classify, failing)
    {
      match frame {
        case Malformed =>
          return true;
        case NotObject =>
          return false;
        case Obj(data, at) =>
          var o := Dispatch(lastArticle, data, at, store.files, classify);
          if o.out.Crash? {
            return false;
          }
          if o.write.Rename? {
            RenameProduct(db, o.write.ean, o.write.name);
          } else if o.write.StoreImage? {
            var _ := SaveImageForEan(store, o.write.ean, o.write.kind, true, true);
          }
          lastArticle := o.last;
          if o.out.Reply? {
            if ws in failing {
              return false;
            }
            peers.Send(ws, o.out.msg);
          } else if o.out.Bcast? {
            peers.Broadcast(o.out.msg, failing);
          }
          alive := true;
      }
    }

    /**
     * `ws_handler(websocket)`: register the client, handle its frames in order
     * until one ends the handler, and unregister it in any case.
     */
    method Handle(ws: Hub.Peer, frames: seq<Hub.Frame>, store: ItemStore, db: ProductDb,
                  classify: string -> PayloadKind, failing: set<Hub.Peer>)
      requires peers.Valid()
      modifies this`lastArticle, peers, store, db`rows
      ensures peers.Valid() && ws !in peers.clients
      ensures var w := RunSpec(Connected(old(Snapshot(store, db)), ws), ws, frames, classify, failing);
              Snapshot(store, db) == w.(clients := w.clients - {ws})
    {
      peers.Connect(ws);
      var i := 0;
      var alive := true;
      while i < |frames| && alive
        invariant 0 <= i <= |frames|
        invariant peers.Valid() && ws in peers.sent
        invariant (if alive then RunSpec(Snapshot(store, db), ws, frames[i..], classify, failing) else Snapshot(store, db))
                  == RunSpec(Connected(old(Snapshot(store, db)), ws), ws, frames, classify, failing)
      {
        assert frames[i..][1..] == frames[i + 1..];
        alive := Step(ws, frames[i], store, db, classify, failing);
        i := i + 1;
      }
      peers.Disconnect(ws);
    }
  }
}
