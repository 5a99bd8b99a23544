/**
 * The MySQL `items` table and the image directory, with the read and upsert
 * operations of db.py: user lookup by RFID tag, product read, the three
 * upserts (`db_save_product`, `update_product_name`, `save_image_for_ean`)
 * and the shop list.
 */
module Items {
  import opened Wrappers
  import opened Text

  /** `config.IMAGE_DIR`; the absolute base directory in front of it is left abstract. */
  const ImageDir: string := "images"

  /** A POSIX path that starts at the root. */
  predicate Absolute(path: string) {
    path != [] && path[0] == '/'
  }

  /**
   * `os.path.join(IMAGE_DIR, filename)`: the file name under the image
   * directory, or the file name alone when it is itself an absolute path.
   */
  function ImageFile(filename: string): (r: string)
    ensures Absolute(filename) ==> r == filename
    ensures !Absolute(filename) ==> r == ImageDir + "/" + filename
    ensures r != [] && |filename| <= |r| && r[|r| - |filename|..] == filename
  {
    if Absolute(filename) then filename else ImageDir + "/" + filename
  }

  /** One row of `items`, keyed by EAN; every column except the key may be NULL. */
  datatype Item = Item(
    name: Option<string>,
    imagePath: Option<string>,
    qty: Option<real>,
    shopId: Option<int>,
    lastUserId: Option<int>,
    lastChangeAt: Option<int>)

  /** The `items` table and the set of files present in the image directory. */
  class ItemStore {
    var rows: map<string, Item>
    var files: set<string>

    constructor (rows: map<string, Item>, files: set<string>)
      ensures this.rows == rows && this.files == files
    {
      this.rows := rows;
      this.files := files;
    }
  }

  // ---------------------------------------------------------------------------
  // get_user_by_rfid

  /** A row of the `users` table. */
  datatype UserRow = UserRow(id: int, name: string, rfidUid: Option<string>)

  datatype User = User(id: int, name: string)

  /** `LOWER(rfid_uid) = LOWER(uid)`; a NULL tag matches nothing. */
  predicate TagMatches(row: UserRow, uid: string) {
    row.rfidUid.Some? && Lower(row.rfidUid.value) == Lower(uid)
  }

  /** The first row whose tag matches, as `fetchone()` returns it. */
  function FirstMatch(users: seq<UserRow>, uid: string): (r: Option<User>)
    ensures r.Some? <==> exists k :: 0 <= k < |users| && TagMatches(users[k], uid)
    ensures r.Some? ==> exists k :: 0 <= k < |users| && TagMatches(users[k], uid)
                          && r.value == User(users[k].id, users[k].name)
                          && forall j :: 0 <= j < k ==> !TagMatches(users[j], uid)
  {
    if users == [] then None
    else if TagMatches(users[0], uid) then Some(User(users[0].id, users[0].name))
    else
      var r := FirstMatch(users[1..], uid);
      assert forall k :: 1 <= k < |users| ==> users[k] == users[1..][k - 1];
      r
  }

  /**
   * `get_user_by_rfid`: the tag is stripped; a blank tag gives `None` without
   * asking the database; otherwise the user whose tag equals it ignoring case,
   * and `None` when there is none or the database fails (`dbOk` false).
   */
  function GetUserByRfid(uid: string, users: seq<UserRow>, dbOk: bool): (r: Option<User>)
    ensures Blank(uid) || !dbOk ==> r.None?
    ensures r.Some? ==> exists k :: 0 <= k < |users| && TagMatches(users[k], Strip(uid))
                                    && r.value == User(users[k].id, users[k].name)
  {
    var tag := Strip(uid);
    if tag == "" then None
    else if !dbOk then None
    else FirstMatch(users, tag)
  }

  /**
   * A user is found exactly when the stripped tag is not blank, the database
   * answers, and some row carries the tag ignoring case; the one found is the
   * first such row.
   */
  lemma GetUserByRfidFinds(uid: string, users: seq<UserRow>, dbOk: bool)
    ensures var r := GetUserByRfid(uid, users, dbOk);
            && (Blank(uid) || !dbOk ==> r.None?)
            && (r.Some? <==> !Blank(uid) && dbOk
                             && exists k :: 0 <= k < |users| && TagMatches(users[k], Strip(uid)))
            && (r.Some? ==> exists k :: 0 <= k < |users| && TagMatches(users[k], Strip(uid))
                                        && r.value == User(users[k].id, users[k].name)
                                        && forall j :: 0 <= j < k ==> !TagMatches(users[j], Strip(uid)))
  {
  }

  lemma {:induction false} FirstMatchIgnoresCase(users: seq<UserRow>, a: string, b: string)
    requires Lower(a) == Lower(b)
    ensures FirstMatch(users, a) == FirstMatch(users, b)
  {
    if users != [] {
      FirstMatchIgnoresCase(users[1..], a, b);
    }
  }

  /** Two tags that differ only in ASCII letter case find the same user. */
  lemma GetUserByRfidIgnoresCase(users: seq<UserRow>, dbOk: bool, a: string, b: string)
    requires Lower(a) == Lower(b)
    ensures GetUserByRfid(a, users, dbOk) == GetUserByRfid(b, users, dbOk)
  {
    LowerStripCommute(a);
    LowerStripCommute(b);
    assert |Strip(a)| == |Lower(Strip(a))| == |Lower(Strip(b))| == |Strip(b)|;
    FirstMatchIgnoresCase(users, Strip(a), Strip(b));
  }

  // ---------------------------------------------------------------------------
  // update_product_name

  /**
   * The row `update_product_name` leaves: on an existing row only the name, the
   * last user and the change time are set; a new row gets no image and quantity 0.
   */
  function RenamedItem(existing: Option<Item>, name: string, userId: Option<int>, now: int): (r: Item)
    ensures r.name == Some(name) && r.lastUserId == userId && r.lastChangeAt == Some(now)
    ensures existing.Some? ==> r.imagePath == existing.value.imagePath
                               && r.qty == existing.value.qty && r.shopId == existing.value.shopId
    ensures existing.None? ==> r.imagePath.None? && r.qty == Some(0.0) && r.shopId.None?
  {
    match existing
    case Some(row) => row.(name := Some(name), lastUserId := userId, lastChangeAt := Some(now))
    case None => Item(Some(name), None, Some(0.0), None, userId, Some(now))
  }

  /** `update_product_name(ean, name, user_id)` at time `now`. */
  method UpdateProductName(store: ItemStore, ean: string, name: string, userId: Option<int>, now: int)
    modifies store`rows
    ensures store.rows == old(store.rows)[ean := RenamedItem(Find(old(store.rows), ean), name, userId, now)]
  {
    if ean in store.rows {
      var row := store.rows[ean];
      store.rows := store.rows[ean := row.(name := Some(name), lastUserId := userId, lastChangeAt := Some(now))];
    } else {
      store.rows := store.rows[ean := Item(Some(name), None, Some(0.0), None, userId, Some(now))];
    }
  }

  // ---------------------------------------------------------------------------
  // save_image_for_ean

  /**
   * What the image libraries make of a payload: `b64decode` raises, Pillow
   * cannot open the bytes, or they are an image.
   */
  datatype PayloadKind = BadBase64 | NotAnImage | Image

  /** The file `save_image_for_ean` writes; `None` when decoding raises first. */
  function ImageTarget(ean: string, kind: PayloadKind): (r: Option<string>)
    ensures kind == BadBase64 <==> r.None?
    ensures kind == NotAnImage && !Absolute(ean) ==> r == Some(ImageDir + "/" + (ean + "_raw.bin"))
    ensures kind == Image && !Absolute(ean) ==> r == Some(ImageDir + "/" + (ean + ".jpg"))
    ensures kind == NotAnImage && Absolute(ean) ==> r == Some(ean + "_raw.bin")
    ensures kind == Image && Absolute(ean) ==> r == Some(ean + ".jpg")
  {
    assert Absolute(ean + "_raw.bin") <==> Absolute(ean) by {
      if ean != [] { assert (ean + "_raw.bin")[0] == ean[0]; }
    }
    assert Absolute(ean + ".jpg") <==> Absolute(ean) by {
      if ean != [] { assert (ean + ".jpg")[0] == ean[0]; }
    }
    match kind
    case BadBase64 => None
    case NotAnImage => Some(ImageFile(ean + "_raw.bin"))
    case Image => Some(ImageFile(ean + ".jpg"))
  }

  /** The row after an image upload: only the image path changes; a new row has the name "". */
  function WithImage(existing: Option<Item>, path: string): (r: Item)
    ensures r.imagePath == Some(path)
    ensures existing.Some? ==> r == existing.value.(imagePath := Some(path))
    ensures existing.None? ==> r.name == Some("") && r.qty.None? && r.shopId.None? && r.lastUserId.None?
  {
    match existing
    case Some(row) => row.(imagePath := Some(path))
    case None => Item(Some(""), Some(path), None, None, None, None)
  }

  /**
   * Whether `save_image_for_ean` returns rather than raises: the payload
   * decodes, its file is written, and for an image the table update succeeds.
   */
  predicate ImageSaved(kind: PayloadKind, writeOk: bool, dbOk: bool) {
    kind != BadBase64 && writeOk && (kind == NotAnImage || dbOk)
  }

  /**
   * `save_image_for_ean(ean, image_b64)` on the table `rows` and the files
   * `files`: a payload Pillow cannot open is kept as `<ean>_raw.bin` and the
   * table is left alone; an image is written as `<ean>.jpg` and its row points
   * at it. `writeOk` says whether writing the file succeeds and `dbOk` whether
   * the table update does. The table and files afterwards, and the returned
   * path, `None` when the function raises: when `b64decode` fails, before
   * anything is written; when the write fails, with nothing stored; or when
   * the table update fails, after the file was written.
   */
  function ImageSaveSpec(rows: map<string, Item>, files: set<string>, ean: string, kind: PayloadKind,
                         writeOk: bool, dbOk: bool): (r: (map<string, Item>, set<string>, Option<string>))
    ensures r.2.Some? <==> ImageSaved(kind, writeOk, dbOk)
    ensures r.2.Some? ==> r.2 == ImageTarget(ean, kind)
    ensures kind == BadBase64 || !writeOk ==> r.0 == rows && r.1 == files
    ensures kind != BadBase64 && writeOk ==> r.1 == files + {ImageTarget(ean, kind).value}
    ensures kind == NotAnImage ==> r.0 == rows
    ensures kind == Image && writeOk && dbOk ==>
              r.0 == rows[ean := WithImage(Find(rows, ean), ImageTarget(ean, kind).value)]
    ensures kind == Image && !dbOk ==> r.0 == rows
  {
    if kind == BadBase64 || !writeOk then (rows, files, None)
    else
      var path := ImageTarget(ean, kind).value;
      if kind == NotAnImage then (rows, files + {path}, Some(path))
      else if !dbOk then (rows, files + {path}, None)
      else (rows[ean := WithImage(Find(rows, ean), path)], files + {path}, Some(path))
  }

  /** `save_image_for_ean(ean, image_b64)`: write the file, then `UPDATE` the row or `INSERT` one. */
  method SaveImageForEan(store: ItemStore, ean: string, kind: PayloadKind, writeOk: bool, dbOk: bool)
    returns (path: Option<string>)
    modifies store
    ensures (store.rows, store.files, path) == ImageSaveSpec(old(store.rows), old(store.files), ean, kind, writeOk, dbOk)
  {
    if kind == BadBase64 || !writeOk {
      return None;
    }
    // `<ean>_raw.bin` for a payload Pillow cannot open, `<ean>.jpg` for an image
    var filepath := ImageTarget(ean, kind).value;
    store.files := store.files + {filepath};
    if kind == NotAnImage {
      return Some(filepath);
    }
    if !dbOk {
      return None;
    }
    if ean in store.rows {
      store.rows := store.rows[ean := store.rows[ean].(imagePath := Some(filepath))];
    } else {
      store.rows := store.rows[ean := Item(Some(""), Some(filepath), None, None, None, None)];
    }
    path := Some(filepath);
  }

  // ---------------------------------------------------------------------------
  // db_get_product

  /** The dictionary `db_get_product` returns. */
  datatype ProductView = ProductView(
    ean: string,
    name: Option<string>,
    imagePath: string,
    qty: real,
    shopId: Option<int>,
    lastUserId: Option<int>,
    lastChangeAt: Option<int>)

  /**
   * `db_get_product(ean)`: `None` for an absent EAN; a stored NULL image path
   * reads as "" and a NULL quantity as 0; the other columns are passed through.
   */
  function DbGetProduct(rows: map<string, Item>, ean: string): (r: Option<ProductView>)
    ensures r.None? <==> ean !in rows
    ensures r.Some? ==> var row := rows[ean];
                        && r.value.ean == ean && r.value.name == row.name
                        && (row.imagePath.None? ==> r.value.imagePath == "")
                        && (row.imagePath.Some? ==> r.value.imagePath == row.imagePath.value)
                        && (row.qty.None? ==> r.value.qty == 0.0)
                        && (row.qty.Some? ==> r.value.qty == row.qty.value)
                        && r.value.shopId == row.shopId && r.value.lastUserId == row.lastUserId
                        && r.value.lastChangeAt == row.lastChangeAt
  {
    if ean in rows then
      var row := rows[ean];
      Some(ProductView(ean, row.name, row.imagePath.GetOr(""), row.qty.GetOr(0.0),
                       row.shopId, row.lastUserId, row.lastChangeAt))
    else None
  }

  // ---------------------------------------------------------------------------
  // db_save_product

  /**
   * The row `db_save_product` leaves. The name is always overwritten and the
   * stored image path is always kept; a missing shop, quantity or user falls
   * back to the stored one (a quantity to 0 when that is NULL too); a new row
   * gets no image and quantity 0 when none is given.
   */
  function SavedItem(existing: Option<Item>, name: string, shopId: Option<int>, qty: Option<real>,
                     lastUserId: Option<int>, now: int): (r: Item)
    ensures r.name == Some(name) && r.lastChangeAt == Some(now) && r.qty.Some?
    ensures qty.Some? ==> r.qty == qty
    ensures shopId.Some? ==> r.shopId == shopId
    ensures lastUserId.Some? ==> r.lastUserId == lastUserId
    ensures existing.None? ==> r.imagePath.None? && r.shopId == shopId && r.lastUserId == lastUserId
                               && (qty.None? ==> r.qty == Some(0.0))
    ensures existing.Some? ==> var row := existing.value;
                               && r.imagePath == row.imagePath
                               && (shopId.None? ==> r.shopId == row.shopId)
                               && (lastUserId.None? ==> r.lastUserId == row.lastUserId)
                               && (qty.None? && row.qty.Some? ==> r.qty == row.qty)
                               && (qty.None? && row.qty.None? ==> r.qty == Some(0.0))
  {
    match existing
    case None =>
      Item(Some(name), None, Some(qty.GetOr(0.0)), shopId, lastUserId, Some(now))
    case Some(row) =>
      var s := if shopId.Some? then shopId else row.shopId;
      var q := if qty.Some? then qty.value else row.qty.GetOr(0.0);
      var u := if lastUserId.Some? then lastUserId else row.lastUserId;
      Item(Some(name), row.imagePath, Some(q), s, u, Some(now))
  }

  /**
   * `db_save_product(ean, name, shop_id, qty, last_user_id)` at time `now`: read
   * the stored row, fill the missing arguments from it, then
   * `INSERT ... ON DUPLICATE KEY UPDATE`.
   */
  method DbSaveProduct(store: ItemStore, ean: string, name: string, shopId: Option<int>, qty: Option<real>,
                       lastUserId: Option<int>, now: int)
    modifies store`rows
    ensures store.rows == old(store.rows)[ean := SavedItem(Find(old(store.rows), ean), name, shopId, qty, lastUserId, now)]
  {
    var shop, q, user := shopId, qty, lastUserId;
    var imagePath: Option<string> := None;
    if ean in store.rows {
      var row := store.rows[ean];
      imagePath := row.imagePath;
      if shop.None? {
        shop := row.shopId;
      }
      if q.None? {
        q := if row.qty.Some? then row.qty else Some(0.0);
      }
      if user.None? {
        user := row.lastUserId;
      }
    } else {
      if q.None? {
        q := Some(0.0);
      }
    }
    store.rows := store.rows[ean := Item(Some(name), imagePath, q, shop, user, Some(now))];
  }

  /** Reading a row back right after `db_save_product` gives the saved name and the effective quantity. */
  lemma SaveThenGet(rows: map<string, Item>, ean: string, name: string, shopId: Option<int>, qty: Option<real>,
                    lastUserId: Option<int>, now: int)
    ensures var saved := rows[ean := SavedItem(Find(rows, ean), name, shopId, qty, lastUserId, now)];
            var view := DbGetProduct(saved, ean);
            && view.Some? && view.value.name == Some(name)
            && (qty.Some? ==> view.value.qty == qty.value)
            && (ean in rows && rows[ean].imagePath.Some? ==> view.value.imagePath == rows[ean].imagePath.value)
  {
  }

  // ---------------------------------------------------------------------------
  // get_shops

  /** A row of the `shops` table. */
  datatype ShopRow = ShopRow(id: int, code: string, name: string)

  /** An entry of the list `get_shops` returns; `web_url` is always NULL. */
  datatype Shop = Shop(id: int, code: string, name: string, webUrl: Option<string>)

  /** Lexicographic order of code points, standing in for the collation of `ORDER BY name`. */
  predicate LexLe(a: string, b: string) {
    if a == [] then true
    else if b == [] then false
    else if a[0] != b[0] then a[0] < b[0]
    else LexLe(a[1..], b[1..])
  }

  lemma {:induction false} LexLeTotal(a: string, b: string)
    ensures LexLe(a, b) || LexLe(b, a)
  {
    if a != [] && b != [] && a[0] == b[0] {
      LexLeTotal(a[1..], b[1..]);
    }
  }

  lemma {:induction false} LexLeTransitive(a: string, b: string, c: string)
    requires LexLe(a, b) && LexLe(b, c)
    ensures LexLe(a, c)
  {
    if a != [] && b != [] && c != [] && a[0] == b[0] && b[0] == c[0] {
      LexLeTransitive(a[1..], b[1..], c[1..]);
    }
  }

  /** Each row's name is at most the next one's. */
  predicate SortedByName(s: seq<ShopRow>) {
    forall k :: 0 < k < |s| ==> LexLe(s[k - 1].name, s[k].name)
  }

  /** Because the order is transitive, neighbour-wise order is order between any two rows. */
  lemma {:induction false} SortedByNameEverywhere(s: seq<ShopRow>, i: int, j: int)
    requires SortedByName(s) && 0 <= i <= j < |s|
    ensures LexLe(s[i].name, s[j].name)
    decreases j - i
  {
    if i == j {
      LexLeReflexive(s[i].name);
    } else {
      SortedByNameEverywhere(s, i, j - 1);
      LexLeTransitive(s[i].name, s[j - 1].name, s[j].name);
    }
  }

  lemma {:induction false} LexLeReflexive(a: string)
    ensures LexLe(a, a)
  {
    if a != [] {
      LexLeReflexive(a[1..]);
    }
  }

  /** Insert a row into a list sorted by name. */
  function InsertByName(x: ShopRow, s: seq<ShopRow>): (r: seq<ShopRow>)
    requires SortedByName(s)
    ensures SortedByName(r) && multiset(r) == multiset(s) + multiset{x} && |r| == |s| + 1
    ensures r != [] && (r[0] == x || (s != [] && r[0] == s[0]))
  {
    if s == [] then [x]
    else if LexLe(x.name, s[0].name) then [x] + s
    else
      LexLeTotal(x.name, s[0].name);
      var rest := InsertByName(x, s[1..]);
      assert s == [s[0]] + s[1..];
      [s[0]] + rest
  }

  /** The rows ordered by name: what `ORDER BY name` delivers. */
  function SortByName(s: seq<ShopRow>): (r: seq<ShopRow>)
    ensures SortedByName(r) && multiset(r) == multiset(s) && |r| == |s|
  {
    if s == [] then []
    else
      assert s == [s[0]] + s[1..];
      InsertByName(s[0], SortByName(s[1..]))
  }

  /**
   * `get_shops`: [] when the `shops` table is absent (`table` is `None`) or the
   * database fails; otherwise one entry per row, ordered by name, with no web URL.
   */
  function GetShops(table: Option<seq<ShopRow>>, dbOk: bool): (r: seq<Shop>)
    ensures table.None? || !dbOk ==> r == []
    ensures table.Some? && dbOk ==>
              var rows := SortByName(table.value);
              && |r| == |rows| == |table.value| && multiset(rows) == multiset(table.value)
              && (forall i, j :: 0 <= i <= j < |r| ==> LexLe(r[i].name, r[j].name))
              && (forall k :: 0 <= k < |r| ==> r[k] == Shop(rows[k].id, rows[k].code, rows[k].name, None))
  {
    if !dbOk || table.None? then []
    else
      var rows := SortByName(table.value);
      var r := seq(|rows|, k requires 0 <= k < |rows| => Shop(rows[k].id, rows[k].code, rows[k].name, None));
      assert forall i, j :: 0 <= i <= j < |r| ==> LexLe(r[i].name, r[j].name) by {
        forall i, j | 0 <= i <= j < |r| ensures LexLe(r[i].name, r[j].name) {
          SortedByNameEverywhere(rows, i, j);
        }
      }
      r
  }
}
