# wawi — a verified model of the inventory and EAN-tagging core

wawi is a small warehouse ("Warenwirtschaft") tool. Articles are scanned by
EAN and named, counted and photographed. A desktop session is opened by an
RFID tag. Mobile phones and the desktop stay in sync over a websocket hub.
Boxes get TSPL labels printed on a TSC label printer. The repository holds
several versions of the same application, and this model covers each of
them as written:

- **db.py** runs over the MySQL tables `items`, `users` and `shops`. It
  handles user lookup by tag, renaming, storing an image, reading and
  upserting an item, and the sorted shop list (module `Items`).
- **api.py** is the desktop `Api`: a one-slot session with a sliding expiry,
  plus lookup and save (module `Session`, class `Session.Api`).
- **websocket_server.py** holds the client set, the broadcast that drops
  failed peers, the loop-running gate, and the per-connection message
  dispatcher (module `Hub`, classes `Hub.Peers` and `Hub.Server`).
- **webapp.py** has the HTTP handlers with logic in them: saving an item,
  choosing the image to serve, the upload guards, and the current-user report
  (module `WebApp`).
- **app.py** and **req.py** are two variants over the SQLite `products`
  table. Both run the lookup chain local → OpenEAN → OpenFoodFacts and cache
  the first remote hit. app.py also has an image-only upsert (modules
  `AppApi` and `ReqApi`, with the table in `Products` and the provider
  post-processing in `Providers`).
- **originalapp.py** is the earlier all-in-one version (module
  `OriginalApp`).
- **rfid_monitor.py** classifies serial lines (module `RfidMonitor`).
- **printer/demo_etikett.py** builds the box label (module `BoxLabel`).
- **images/tspl_bitmap.py** builds the TSPL `BITMAP` frame (module
  `TsplBitmap`).

Python's own semantics are written out where the code relies on them:

- `str.strip`, `LOWER`, `int()`, `float()`, `str()` and f-string integers
  live in `Text` and `Json`.
- Truthiness (`x or ""`) lives in `Json`.
- `", ".join` lives in `Text`.
- The wire messages live in `Events`.

Tables are classes holding a `map` from EAN to row. Each write is a method
that modifies the table. It is proved equal to a pure merge function, and
the properties are proved about those functions. Time is an integer number
of seconds passed in by the caller. Network providers, base64/PIL decoding,
file existence and failing sends are inputs to the model.

## Model

| member | source | states |
|---|---|---|
| Text.Strip | db.py:31 | `strip()` leaves neither leading nor trailing whitespace and never lengthens the text |
| Text.StripIsSlice | db.py:31 | the stripped text is the slice of the input that starts where `lstrip()` stops |
| Text.StripDropsTrailingSpace | db.py:31 | only whitespace follows the stripped text in the input |
| Text.StripInfix | db.py:31 | the stripped text is a contiguous slice of the input, and only whitespace lies before and after it |
| Text.TrimStartSuffix | rfid_monitor.py:13 | stripping the left end removes only leading whitespace and keeps a suffix of the input |
| Text.TrimEndPrefix | rfid_monitor.py:22 | stripping the right end removes only trailing whitespace and keeps a prefix of the input |
| Text.TrimStartIsSuffix | rfid_monitor.py:13 | what stripping the left end leaves is the input's suffix of that length |
| Text.TrimEndIsPrefix | rfid_monitor.py:22 | what stripping the right end leaves is the input's prefix of that length |
| Text.TrimStart | rfid_monitor.py:13 | `lstrip()` never lengthens the text and what it leaves does not begin with whitespace |
| Text.TrimEnd | rfid_monitor.py:22 | `rstrip()` never lengthens the text and what it leaves does not end with whitespace |
| Text.StripIdempotent | rfid_monitor.py:13-22 | stripping an already stripped line changes nothing |
| Text.BlankIffAllSpace | api.py:118-119 | a value strips to "" (the `if not ean` test) exactly when it is all whitespace |
| Text.TrimStartKeeps | rfid_monitor.py:22 | text not starting with whitespace keeps its start |
| Text.TrimEndKeeps | rfid_monitor.py:22 | text not ending with whitespace keeps its end |
| Text.Lower | db.py:39 | SQL `LOWER` maps each character on its own and keeps the length |
| Text.LowerStripCommute | db.py:31-39 | lower-casing and stripping commute |
| Text.IntToString | printer/demo_etikett.py:37 | a decimal integer is a non-empty digit string, with a leading '-' for negatives |
| Text.IntToStringRoundTrip | api.py:103 | `int(str(i)) == i` for every integer |
| Text.ParseInt | api.py:103 | `int()` of a string accepts only text that holds a digit |
| Text.ParseFloatExtendsParseInt | webapp.py:136 | `float()` agrees with `int()` on every integer literal |
| Text.ParseFloat | webapp.py:135-138 | `float()` of blank text and of a lone `.` raises; plain digits give their decimal value |
| Text.Join | printer/demo_etikett.py:56 | joining a single part gives that part |
| Text.JoinEmpty | app.py:131 | `", ".join(tags)` is empty exactly for no tags or one empty tag |
| Text.JoinEndsWithLast | printer/demo_etikett.py:56 | the joined text ends with the last part |
| Wrappers.Find | db.py:153-154 | `dict.get` and the `SELECT … WHERE ean` probe find a value exactly for present keys, and it is the stored one |
| Json.TruncToZero | webapp.py:141 | `int()` of a float truncates toward zero for both signs |
| Json.Truthy | webapp.py:127-128 | `bool()` of a boolean or a number is whether `float()` of it is non-zero; a string is truthy iff `str()` of it is non-empty |
| Json.PyStr | app.py:246 | `str()` gives "None" for null and the text itself for a string; an integer's rendering reads back through `int()` as the same integer, and a boolean's does not parse as one |
| Json.PyInt | api.py:101-104 | `int()` succeeds exactly for booleans, numbers and strings `int()` parses, a string giving its parsed value; for a boolean or a number the result lies within 1 of `float()` of it, and equals it for booleans and integers |
| Json.PyFloat | webapp.py:136 | `float()` of a JSON value succeeds exactly for numbers, booleans and strings `float()` parses; a boolean is 1.0 or 0.0, an integer keeps its value, a string is parsed |
| Json.PyFloatExtendsPyInt | webapp.py:136-141 | wherever `int()` accepts an integer value, `float()` gives the same number |
| Json.OrEmptyStripped | webapp.py:127-128 | `(data.get(k) or "").strip()` is "" for a missing or falsy value and the stripped text for a string, and it fails only for a truthy non-string |
| Json.DefaultStripped | originalapp.py:434 | `data.get(k, "").strip()` is "" for a missing key and the stripped text for a string, and it fails for any non-string |
| Items.ItemStore.constructor | db.py:12-14 | a connection sees the given rows and image files |
| Items.FirstMatch | db.py:38-51 | the first user whose tag matches case-insensitively, and none when no tag matches |
| Items.GetUserByRfidFinds | db.py:30-54 | a blank uid or a database error gives none; otherwise the first case-insensitive match on the stripped uid, and none when no row matches |
| Items.GetUserByRfid | db.py:30-54 | a blank tag or a database error finds nobody; a user found is one whose tag matches the stripped uid ignoring case |
| Items.FirstMatchIgnoresCase | db.py:39 | two uids equal up to case find the same user |
| Items.GetUserByRfidIgnoresCase | db.py:30-41 | tag lookup does not depend on the case of the uid |
| Items.RenamedItem | db.py:57-80 | renaming an existing row changes only the name, last user and change time; a new row gets no image path and quantity 0 |
| Items.UpdateProductName | db.py:57-80 | the table afterwards is the old one with that EAN's row renamed and every other row untouched |
| Items.ImageFile | db.py:103 | `os.path.join` puts a relative file name under the image directory and keeps an absolute one as it is; either way the path ends with the file name |
| Items.ImageTarget | db.py:83-105 | an undecodable payload stores nothing; a payload that is not an image goes to `<ean>_raw.bin`; an image goes to `<ean>.jpg`; both under the image directory unless the EAN starts with `/` |
| Items.WithImage | db.py:109-119 | storing an image changes only the image path of an existing row; a new row gets name "" and nothing else |
| Items.ImageSaveSpec | db.py:83-123 | it returns exactly when the payload decodes, the file is written and, for an image, the table update succeeds, and then returns the target; a raw payload never touches the rows; a written image adds its file, and updates exactly that EAN's row unless the table update fails; a failed write stores nothing |
| Items.SaveImageForEan | db.py:83-123 | the table, the files and the returned path are those of the save specification |
| Items.DbGetProduct | db.py:126-148 | absent EAN gives none; a stored row is reported with a null image path as "" and a null quantity as 0 |
| Items.SavedItem | db.py:151-189 | the upsert always writes the name and change time; on an existing row, a none shop, quantity or user keeps the stored value, with quantity falling back to 0, and the image path is kept; a new row defaults a none quantity to 0 |
| Items.DbSaveProduct | db.py:151-189 | the table afterwards is the old one with only that EAN's row replaced by the merged row |
| Items.SaveThenGet | db.py:126-189 | reading back a saved EAN finds it, with the new name, the given quantity and the kept image |
| Items.LexLeTotal | db.py:208 | ordering by name compares any two names |
| Items.LexLeTransitive | db.py:208 | ordering by name is transitive |
| Items.LexLeReflexive | db.py:208 | every name is ordered before itself |
| Items.SortedByNameEverywhere | db.py:208 | a list sorted pairwise by name is sorted between any two positions |
| Items.InsertByName | db.py:208 | inserting into a sorted list keeps it sorted and adds exactly the one row |
| Items.SortByName | db.py:205-210 | `ORDER BY name` is a sorted permutation of the rows |
| Items.GetShops | db.py:192-223 | no table or a database error gives []; otherwise one entry per row, in name order, with `web_url` none |
| Products.ProductDb.constructor | app.py:33 | a connection sees the given rows and image files |
| Session.Initial | api.py:9-14 | a new session has no user, no expiry and a 30 minute timeout |
| Session.Expire | api.py:16-35 | an expired session loses user, name and expiry; any other session is unchanged; the timeout is kept |
| Session.ExpiryIsFinal | api.py:16-30 | the expiry test `now >= expires_at` stays true at every later instant, the check closes an expired session for good, and a logged-out session never expires |
| Session.LogoutEvent | api.py:31-35 | the `user_logout` event carries the previous id and name |
| Session.Login | api.py:42-50 | a login sets id and name; expiry is now + timeout when the timeout is positive, else none |
| Session.LoggedOut | api.py:73-75 | logging out clears id, name and expiry and keeps the timeout |
| Session.Clamp | api.py:106 | `max(0, min(480, m))` lies in 0..480, keeps values in range and clamps the rest to the nearer bound |
| Session.CoerceTimeout | api.py:101-106 | an input `int()` rejects becomes 0; any other becomes its clamped integer value |
| Session.SetTimeout | api.py:107-113 | the timeout is stored; expiry changes only while logged in: positive gives now + m, 0 clears it |
| Session.CurrentUser | api.py:85-99 | the report names the user exactly when one is set and not expired, and always carries the configured timeout |
| Session.InitialCoherent | api.py:9-14 | a new session is coherent: no expiry without a user |
| Session.TransitionsKeepCoherent | api.py:16-115 | expiry, login, logout and timeout changes all keep the session coherent |
| Session.ExpiryWindow | api.py:16-50 | after a login with a positive timeout, the user is reported until now reaches login time + timeout, and the expiry check logs them out from then on |
| Session.ZeroTimeoutNeverExpires | api.py:45-50 | with timeout 0, a logged-in user never expires |
| Session.CoerceTimeoutExamples | api.py:101-106 | -5 and "abc" give 0, 9999 gives 480, a float is truncated |
| Session.StrippedArg | api.py:118 | `(ean or "").strip()` is "" for none and the stripped text otherwise |
| Session.LookupEan | api.py:117-131 | a blank EAN gives the empty placeholder; a stored EAN gives its row with source "local"; otherwise the placeholder carries the stripped EAN, whatever `use_online` says |
| Session.SavingUser | api.py:143-146 | no tag gives no user; a non-empty tag gives exactly the id of the user it belongs to, and no user when it belongs to nobody |
| Session.SaveProductSpec | api.py:136-153 | a blank EAN fails with "EAN fehlt" and writes nothing; a database error writes nothing; otherwise the stripped EAN is saved |
| Session.SaveProductWritesOneRow | api.py:136-153 | a successful save adds or replaces exactly the stripped EAN's row and leaves every other row as it was |
| Session.SavedRowContents | api.py:139-149 | the saved row carries the stripped name, the time, the recognised user or else the stored one, and the given quantity |
| Session.Greeting | api.py:65 | the login message is "Angemeldet als " followed by the name |
| Session.Api.constructor | api.py:9-14 | a new `Api` holds the initial session and has emitted no event |
| Session.Api.ApplyTimeout | api.py:16-35 | the session after the expiry check, with a `user_logout` event exactly when it expired |
| Session.Api.RfidLogin | api.py:37-66 | an unknown tag answers "RFID nicht erkannt" and changes no field and emits nothing; a known tag logs in and emits one `user_login` |
| Session.Api.SignIn | api.py:42-58 | opening the session for a recognised user sets it and emits one `user_login` |
| Session.Api.Logout | api.py:68-83 | the session is cleared and one `user_logout` carries the previous id and name, even with no user |
| Session.Api.GetCurrentUser | api.py:85-99 | the report is computed from the session before the expiry check; the session afterwards is expired when due, and exactly then one logout event is announced |
| Session.Api.SetSessionTimeout | api.py:101-115 | the clamped timeout is stored and returned; no event is emitted |
| Session.Api.SaveProduct | api.py:136-153 | the table and the reply are those of the save specification |
| Hub.Delivered | websocket_server.py:14-25 | a broadcast appends the message to every connected peer whose send succeeds and to no other inbox |
| Hub.DeliveredAllInOrder | websocket_server.py:28-31 | scheduled messages reach a live peer in the order they were scheduled, and a dead or absent peer gets none of them |
| Hub.Peers.constructor | websocket_server.py:9 | no client is connected at start |
| Hub.Peers.Connect | websocket_server.py:38 | a new connection joins the client set; an existing inbox is kept |
| Hub.Peers.Disconnect | websocket_server.py:111-112 | the connection leaves the client set |
| Hub.Peers.Send | websocket_server.py:21 | one message is appended to one inbox |
| Hub.Peers.Broadcast | websocket_server.py:14-25 | every client is tried; exactly the failed ones are removed after the sweep; with no client nothing changes |
| Hub.Peers.DiscardAll | websocket_server.py:24-25 | the client set afterwards is the old one without the dead peers |
| Hub.ArticleMessage | websocket_server.py:53-55 | `current_article` carries exactly the snapshot's ean and name |
| Hub.KnownType | websocket_server.py:51-109 | the message types the handler knows |
| Hub.SetArticle | websocket_server.py:51-55 | `set_article` stores the stripped ean and name and broadcasts exactly them, or fails on non-string fields |
| Hub.RequestArticle | websocket_server.py:57-62 | `request_current_article` replies to the sender only, and only when a snapshot exists |
| Hub.UploadImage | websocket_server.py:64-79 | a missing ean or image replies an error and writes nothing; a stored image is broadcast with its target path |
| Hub.ImageUploaded | websocket_server.py:81-89 | `image_uploaded` broadcasts an `image_updated` for a non-empty ean and writes nothing |
| Hub.SaveName | websocket_server.py:91-106 | a missing ean replies an error and keeps the snapshot; otherwise the item is renamed, becomes the snapshot and is broadcast |
| Hub.Dispatch | websocket_server.py:47-109 | only `set_article` and `save_name` change the snapshot, each broadcasting it; an unknown type changes nothing and sends nothing |
| Hub.SetThenRequest | websocket_server.py:51-62 | after `set_article`, `request_current_article` answers with the stripped ean and name |
| Hub.UploadImageOutcome | websocket_server.py:64-79 | the upload outcome for each case: missing arguments, an undecodable payload and a stored file |
| Hub.SaveNameNeedsEan | websocket_server.py:91-106 | `save_name` with a blank ean is refused; otherwise the stripped ean and name are written and become the snapshot |
| Hub.RowsAfter | websocket_server.py:73-100 | the handler's writes to the items table: a rename, an image row, or nothing |
| Hub.FilesAfter | websocket_server.py:73 | only a stored upload adds a file |
| Hub.Connected | websocket_server.py:38 | a connection joins the clients without touching any inbox |
| Hub.StepSpec | websocket_server.py:40-109 | malformed JSON is skipped with nothing changed; a non-object or a failing handler ends the connection with nothing changed; no peer is ever added |
| Hub.RunSpec | websocket_server.py:40-113 | handling a stream of frames keeps every inbox and never adds a client |
| Hub.MalformedIsSkipped | websocket_server.py:42-46 | a malformed frame in front of the stream makes no difference |
| Hub.NothingAfterCrash | websocket_server.py:36-113 | once the handler fails, no later frame has any effect |
| Hub.Server.constructor | websocket_server.py:9-11 | no clients, no snapshot, no loop, nothing scheduled |
| Hub.Server.StartWsServer | websocket_server.py:116-130 | the loop is running afterwards |
| Hub.Server.BroadcastFromAnywhere | websocket_server.py:28-33 | a message is scheduled exactly when the loop runs; otherwise it is dropped |
| Hub.Server.RunScheduled | websocket_server.py:28-31 | the scheduled messages are broadcast in order and the failed peers are removed |
| Hub.Server.Step | websocket_server.py:40-109 | one frame changes the world exactly as the step specification says |
| Hub.Server.Handle | websocket_server.py:36-113 | a connection is a client from its start until it ends, whatever the exit path, and the world afterwards is the run specification's |
| WebApp.BodyObject | webapp.py:125 | `get_json(silent=True) or {}`: no or a falsy body gives {}; a truthy non-object fails |
| WebApp.QtyValue | webapp.py:135-138 | an absent or unparsable quantity becomes 0.0 |
| WebApp.ShopValue | webapp.py:140-143 | an absent, null or unparsable shop becomes none |
| WebApp.ItemSaved | webapp.py:156-175 | quantity, shop, user and time are always overwritten; an empty name keeps the stored name; the image path is kept; a new row gets the given fields |
| WebApp.FormField | webapp.py:127-128 | a form field reads "" when missing and the stripped text for a string, and fails when the body cannot be read |
| WebApp.SaveItemSpec | webapp.py:123-184 | a blank EAN is refused with 400 before any store access; a database error writes nothing; success writes that EAN |
| WebApp.SaveItemWritesOneRow | webapp.py:149-184 | a successful save writes exactly the merged row for that EAN and leaves every other row as it was |
| WebApp.ApiSaveItem | webapp.py:123-184 | the table and the reply are those of the save specification, with the session's current user id or none |
| WebApp.FormUser | webapp.py:145-147 | without an `Api` nobody is recorded; otherwise the session's user id as stored |
| WebApp.FormUserIgnoresExpiry | webapp.py:145-147 | a session that has expired still has its user recorded by the save, though the current-user report already shows nobody |
| WebApp.ItemSavedReadBack | webapp.py:156-175 | reading back the saved EAN gives the quantity and shop just written, and the name or the kept name |
| WebApp.ProductImage | webapp.py:52-64 | the stored path is served only when set, non-empty and present; otherwise the dummy image |
| WebApp.UploadedImageIsServed | webapp.py:52-90 | after an image upload the uploaded file is the one served |
| WebApp.UploadImageHttp | webapp.py:77-96 | a blank EAN or a missing file is refused with 400 and stores nothing; otherwise the image is stored under the stripped EAN and answered ok exactly when `save_image_for_ean` returns; a failed write or table update is answered 500 "Fehler beim Speichern", keeping the rows and adding only a file already written |
| WebApp.ApiCurrentUser | webapp.py:100-108 | without an `Api` the report is empty with timeout 0; otherwise it is `get_current_user`, with its expiry and its logout event |
| Providers.OrEmpty | app.py:109-110 | `x or ""` on an optional text |
| Providers.OpenEanLookup | app.py:100-116 | a hit needs a first item with a detail name or a name; the name prefers the detail name and the brand is the vendor or "" |
| Providers.OffBrand | app.py:131 | the brand is the joined tags when non-empty, else `brands` |
| Providers.OffName | app.py:130 | the product name, or "" when the product or its name is absent |
| Providers.OpenFoodFactsLookup | app.py:120-137 | a hit needs status code 200, `status` 1 and a non-empty product name |
| Providers.OffBrandPrefersTags | app.py:131 | two or more tags always win over `brands` |
| AppApi.DbGetProduct | app.py:65-79 | an absent EAN gives none; an empty source reads "local" and an empty image path "" |
| AppApi.SavedProduct | app.py:81-96 | name, brand and source are replaced; the stored image path is kept when none is passed |
| AppApi.DbSaveProduct | app.py:81-96 | only that EAN's row is replaced, by the merged row |
| AppApi.SaveThenGet | app.py:65-96 | reading back gives the saved name, brand and source and the kept image path |
| AppApi.MakeResult | app.py:152-161 | every none field of the result becomes "" |
| AppApi.LocalResult | app.py:166-174 | a row found locally is answered ok with its own EAN, source and image path, its name and brand or "", and an empty message |
| AppApi.LookupSpec | app.py:141-203 | a local hit writes nothing and answers ok with the stored name, brand, image path and source, and an empty message; otherwise the first provider hit, OpenEAN before OpenFoodFacts, is cached with its source and returned; otherwise ok=false, source "none" |
| AppApi.LookupEan | app.py:141-203 | the table and the result are those of the lookup specification |
| AppApi.RemoteHitIsCached | app.py:179-194 | a second lookup after a remote hit is served from the table with the same name, brand and source |
| AppApi.SaveProduct | app.py:205-214 | a manual save stores source "manual"; a database error writes nothing |
| AppApi.ManualSaveIsFound | app.py:164-214 | a manually saved EAN is then found locally with source "manual" |
| AppApi.SqlKey | app.py:258 | a string EAN is its own key; a list or object cannot be bound |
| AppApi.ImageRow | app.py:254-263 | an existing row gets only the new image path; otherwise a row with name "", brand "" and source "image-only" is inserted |
| AppApi.ImageFrame | app.py:231-279 | a missing ean or image is refused and writes nothing; a stored image writes `<ean>.jpg` and its row, and needs both the file write and the SQLite update to succeed; a file that cannot be written stores nothing; a caught SQLite failure keeps the written file and answers with the failure; every failure leaves the rows alone; only a writable file is ever added |
| AppApi.StringUploadIsStored | app.py:237-278 | a decodable upload for a string EAN has exactly three outcomes: an unwritable file changes nothing; a written file whose SQLite update fails is kept while the table is unchanged and the reply is the failure; otherwise the file and the row are stored and the path is reported |
| AppApi.HandleImageFrame | app.py:231-279 | the table, the files and the reply are those of the frame specification, including the caught SQLite failure |
| AppApi.ImageFrames | app.py:231-279 | one reply per frame, each frame handled with the same file-write and SQLite outcomes |
| AppApi.ImageFramesStep | app.py:231-279 | the first frame is handled from the initial state and the rest from the state it leaves, its reply first |
| AppApi.ImageFramesKeepFiles | app.py:231-279 | the handler never removes an image file, and every file it adds is one it could write |
| AppApi.HandleImageFrames | app.py:231-279 | the frames processed in order give the specification's table, files and replies |
| ReqApi.DbGetProduct | req.py:40-53 | an absent EAN gives none; an empty source reads "local" |
| ReqApi.DbSaveProduct | req.py:55-63 | the whole row is replaced, with no field kept |
| ReqApi.SaveReplacesRow | req.py:55-63 | what was stored before makes no difference to the row read back |
| ReqApi.MakeResult | req.py:119-127 | every none field of the result becomes "" |
| ReqApi.LookupSpec | req.py:108-168 | a local hit writes nothing and answers ok with the stored name, brand and source; otherwise local first, then OpenEAN, then OpenFoodFacts, caching the first remote hit with its source; a miss gives ok=false and source "none" |
| ReqApi.LookupEan | req.py:108-168 | the table and the result are those of the lookup specification |
| ReqApi.RemoteHitIsCached | req.py:143-159 | a second lookup after a remote hit returns the same result from the table |
| ReqApi.SaveProduct | req.py:170-179 | a save stores source "manual"; a database error writes nothing |
| ReqApi.ManualSaveIsFound | req.py:129-179 | a manually saved EAN is then found locally with source "manual" |
| OriginalApp.GetArticle | originalapp.py:54-72 | an absent EAN gives none; a stored row gives its name and image path, or "" |
| OriginalApp.KeptImageItem | originalapp.py:74-94 | the name is replaced and the stored image path kept when none is passed; the other fields are untouched |
| OriginalApp.SaveKeepingImage | originalapp.py:74-94 | only that EAN's row is replaced, by the merged row |
| OriginalApp.FirstTruthy | originalapp.py:158-164 | the first truthy candidate, and none exactly when none is truthy |
| OriginalApp.NameValues | originalapp.py:158-163 | the four name fields in their order of preference |
| OriginalApp.OnlineName | originalapp.py:140-194 | a name needs status code 200 and `status` 1; it is the first truthy name field, stripped, and never empty |
| OriginalApp.ProductNameFirst | originalapp.py:158-164 | a non-blank `product_name` is chosen over the other fields |
| OriginalApp.LookupSpec | originalapp.py:116-136 | blank EAN gives the empty record; a local hit is returned; an online name is cached only when `use_online` is set; otherwise the EAN with an empty name |
| OriginalApp.LookupEan | originalapp.py:116-136 | the table and the result are those of the lookup specification |
| OriginalApp.SaveProduct | originalapp.py:197-203 | a blank EAN fails and writes nothing; otherwise the stripped EAN's row is merged, keeping its image |
| OriginalApp.SaveThenLookup | originalapp.py:116-203 | a saved EAN is then looked up with the saved name and its kept image path |
| OriginalApp.RenamedProduct | originalapp.py:268-282 | renaming replaces only the name; a new row has only a name |
| OriginalApp.RenameProduct | originalapp.py:268-282 | only that EAN's row of the SQLite table changes |
| OriginalApp.AttachedImage | originalapp.py:360-369 | an image is attached exactly when the ean is truthy and `<ean>.jpg` exists |
| OriginalApp.ArticleMessage | originalapp.py:401-412 | `current_article` carries the raw ean and name and the image only when the file exists |
| OriginalApp.SetArticle | originalapp.py:394-412 | `set_article` stores the raw fields and broadcasts them |
| OriginalApp.RequestArticle | originalapp.py:414-430 | the snapshot is sent to the sender only, and only when one exists |
| OriginalApp.UploadImage | originalapp.py:432-457 | missing arguments are refused; a stored image is broadcast with its path and the payload itself |
| OriginalApp.SaveName | originalapp.py:459-489 | an empty ean is refused and keeps the snapshot; otherwise the product is renamed, becomes the snapshot and is broadcast |
| OriginalApp.KnownType | originalapp.py:394-493 | the message types the handler knows |
| OriginalApp.Dispatch | originalapp.py:392-493 | only `set_article` and `save_name` change the snapshot, each broadcasting it; an unknown type changes nothing |
| OriginalApp.SetThenRequest | originalapp.py:394-430 | after `set_article`, `request_current_article` answers with the same ean and name and the existing image |
| OriginalApp.SaveNameNeedsEan | originalapp.py:459-470 | `save_name` with a blank ean replies an error and changes nothing |
| OriginalApp.ItemsAfter | originalapp.py:432-447 | only a stored image writes to the items table |
| OriginalApp.ProductsAfter | originalapp.py:459-470 | only a rename writes to the products table |
| OriginalApp.Connected | originalapp.py:373 | a connection joins the clients without touching any inbox |
| OriginalApp.StepSpec | originalapp.py:376-493 | malformed JSON is skipped; a non-object or a failing handler ends the connection with nothing changed |
| OriginalApp.RunSpec | originalapp.py:376-497 | handling a stream keeps every inbox and never adds a client |
| OriginalApp.MalformedIsSkipped | originalapp.py:384-389 | a malformed frame in front of the stream makes no difference |
| OriginalApp.Server.constructor | originalapp.py:343-344 | no clients and no snapshot |
| OriginalApp.Server.Step | originalapp.py:376-493 | one frame changes the world exactly as the step specification says |
| OriginalApp.Server.Handle | originalapp.py:371-497 | a connection is a client from its start until it ends, and the world afterwards is the run specification's |
| RfidMonitor.ClassifyLine | rfid_monitor.py:13-24 | a blank line, a line without `RFID:`, and a blank uid are each skipped, and each iff its condition holds; otherwise the uid is the stripped text after the prefix, non-empty |
| RfidMonitor.UidLineRoundTrip | rfid_monitor.py:19-22 | `RFID:` followed by a stripped uid is classified as exactly that uid |
| RfidMonitor.OtherLinesSkipped | rfid_monitor.py:19-20 | a non-blank line without the prefix is never a login |
| RfidMonitor.LineEvents | rfid_monitor.py:26-29 | a line leads to at most one login, and to one exactly when its uid is recognised |
| RfidMonitor.MonitorStep | rfid_monitor.py:13-29 | one line: the session and events change only through `rfid_login` with the classified uid; a refused login changes nothing |
| RfidMonitor.LineState | rfid_monitor.py:13-29 | a skipped line and a refused uid leave the session alone; a recognised uid logs its user in; the timeout never changes and coherence is kept |
| RfidMonitor.MonitorEvents | rfid_monitor.py:12-29 | a stream of lines leads to at most one login per line |
| RfidMonitor.MonitorState | rfid_monitor.py:12-29 | a stream of lines keeps the timeout and keeps the session coherent |
| RfidMonitor.SkippedLinesKeepSession | rfid_monitor.py:13-24 | lines that are all skipped leave the session unchanged |
| RfidMonitor.SkippedLinesAreSilent | rfid_monitor.py:13-24 | lines that are all skipped emit nothing |
| RfidMonitor.EventsAdvance | rfid_monitor.py:12-29 | the events so far plus those of the remaining lines are those of the whole stream |
| RfidMonitor.StateAdvances | rfid_monitor.py:12-29 | the session reached so far, run over the remaining lines, is the session of the whole stream |
| RfidMonitor.Monitor | rfid_monitor.py:12-29 | reading the lines one after another gives the events and the session of the whole stream |
| BoxLabel.Shorten | printer/demo_etikett.py:43 | no name exceeds 30 characters; a longer one becomes its first 28 and ".."; a shorter one is unchanged |
| BoxLabel.ItemLines | printer/demo_etikett.py:40-45 | one content line per item |
| BoxLabel.ItemLinesAt | printer/demo_etikett.py:40-45 | the j-th content line is the j-th item's line, j steps of 28 below the first |
| BoxLabel.Shown | printer/demo_etikett.py:40 | `items[:10]` is a prefix of at most 10 items, all of them iff there are at most 10 |
| BoxLabel.Front | printer/demo_etikett.py:19-38 | the lines above the contents: 11 with a box label, 10 without |
| BoxLabel.Back | printer/demo_etikett.py:47-55 | the lines below: 5 when items were left off, else 4 |
| BoxLabel.LabelLines | printer/demo_etikett.py:16-56 | the label has 10 lines above the contents (11 with a box label), one line per shown item up to ten, and 4 below (5 when items were left off) |
| BoxLabel.TsplMainLabel | printer/demo_etikett.py:16-56 | the text is the label lines joined by newlines with a final newline |
| BoxLabel.AppendItemLines | printer/demo_etikett.py:40-45 | the loop appends the content lines in input order and advances y by 28 per item |
| BoxLabel.LabelFrame | printer/demo_etikett.py:19-24 | the label starts with the six set-up lines and ends with `PRINT 1,1` |
| BoxLabel.LabelEndsWithPrint | printer/demo_etikett.py:55-56 | the text ends with "PRINT 1,1\n" |
| BoxLabel.BoxLabelLineIffLabel | printer/demo_etikett.py:29-30 | the box-label line appears iff the box label is non-empty |
| BoxLabel.ContentLines | printer/demo_etikett.py:36-45 | the content lines are the first ten items in order, at y = 200 + 28·j |
| BoxLabel.ContentLineAt | printer/demo_etikett.py:36-45 | the j-th content line lies at its position with y = 200 + 28·j |
| BoxLabel.MoreLineIffTruncated | printer/demo_etikett.py:47-48 | the "... weitere siehe DB" line appears iff there are more than ten items |
| TsplBitmap.BytesPerRow | images/tspl_bitmap.py:9 | `(w + 7) // 8` is the ceiling of w/8: bpr·8 ≥ w and bpr·8 < w + 8 |
| TsplBitmap.Invert | images/tspl_bitmap.py:6-7 | inversion flips every pixel and keeps the size |
| TsplBitmap.InvertTwice | images/tspl_bitmap.py:6-7 | inversion keeps an image well formed and is its own inverse |
| TsplBitmap.PackBits | images/tspl_bitmap.py:10 | eight pixels pack into a value below 2⁸ |
| TsplBitmap.UnpackBits | images/tspl_bitmap.py:10 | unpacking gives the requested number of bits |
| TsplBitmap.UnpackPack | images/tspl_bitmap.py:10 | packing loses no pixel |
| TsplBitmap.PadRow | images/tspl_bitmap.py:9-10 | a row is padded to whole bytes with blank pixels |
| TsplBitmap.RowBytes | images/tspl_bitmap.py:9-10 | a row becomes bytes-per-row bytes |
| TsplBitmap.RowBytesAreThePixels | images/tspl_bitmap.py:10 | each byte of a row holds the next eight pixels, most significant bit first |
| TsplBitmap.ToBytes | images/tspl_bitmap.py:10 | `tobytes()` is height × bytes-per-row bytes |
| TsplBitmap.ToBytesSplit | images/tspl_bitmap.py:10 | `tobytes()` is the bytes of the first rows followed by those of the remaining rows |
| TsplBitmap.ToBytesAt | images/tspl_bitmap.py:10 | byte `b` of row `i` lies at offset `i * bytes_per_row + b` of `tobytes()` |
| TsplBitmap.Load1BitBitmap | images/tspl_bitmap.py:4-11 | width, height and bytes per row do not depend on `invert`; the raw data is height × bytes-per-row bytes, the rows of the inverted image when asked, of the image otherwise |
| TsplBitmap.LoadedBytesArePixels | images/tspl_bitmap.py:4-11 | every loaded byte, read from the top bit, is the next eight pixels of its row of the (possibly inverted) image |
| TsplBitmap.Ascii | images/tspl_bitmap.py:15 | `encode("ascii")` keeps every character code |
| TsplBitmap.IntToStringIsAscii | images/tspl_bitmap.py:15 | a decimal number is ASCII |
| TsplBitmap.HeaderIsAscii | images/tspl_bitmap.py:15 | the `BITMAP x,y,bpr,height,0,` header is ASCII, so encoding cannot fail |
| TsplBitmap.Header | images/tspl_bitmap.py:15 | the header starts with `BITMAP ` and ends with `,0,` |
| TsplBitmap.TsplBitmapBytes | images/tspl_bitmap.py:13-16 | the frame is the ASCII header, the raw bytes unchanged, then "\n", of length header + raw + 1 |
| TsplBitmap.InvertKeepsHeader | images/tspl_bitmap.py:13-16 | inverting changes neither the header, nor the length, nor the final newline |

## Left out

- Transports and threads: the websocket and HTTP servers, `asyncio.run_coroutine_threadsafe`, Flask routing, `send_file` and the QR page are not modelled. `start_ws_server` is the loop-running flag only, and the scheduled broadcasts run when the caller says so.
- SQL drivers: tables are in-memory maps keyed by EAN. The `items.id` surrogate key and `lastrowid` are not kept. Column defaults are taken as NULL. `LOWER` is ASCII lower-casing. SQLite's text rendering of REAL values is not modelled.
- Database failures are a boolean input where the code catches them: tag lookup, the api.py and webapp.py saves, webapp.py's image upload, app.py's image upload websocket (app.py:250-263, caught at app.py:273-278), the shop list, the local read of the lookups, and the manual saves. Every database failure the code does not catch is not modelled; such a failure raises out of the caller. Among them are `update_product_name`, the cache write of a lookup, the read in api.py's `lookup_ean` (api.py:122), the query of webapp.py's `product_image` (webapp.py:53-58), and originalapp.py's lookup and save (originalapp.py:122, 132, 202).
- The network providers are inputs: the OpenEAN reply, the OpenFoodFacts reply and the online reply of originalapp.py. Their post-processing is modelled. A provider field that is not a string, and an OpenFoodFacts `product` that is not an object, are not modelled.
- PIL: decoding, RGB conversion, the LANCZOS thumbnail, JPEG encoding and `convert("1")` are not modelled. An upload is classified by an input function (not base64, not an image, an image), and the converted one-bit image is the input of the bitmap builder.
- Files: existence is a set of paths. An empty image file counts as present. The absolute `BASE_DIR` in front of `images/` is not modelled.
- Python number parsing: `int()` and `float()` of strings are modelled for surrounding whitespace, an optional sign, ASCII digits and one decimal point. Exponents, underscores and `inf`/`nan` are not.
- Text.ParseInt: decimal digits outside ASCII, such as "٣", which Python's `int()` and `float()` accept, are rejected.
- Json.PyFloat: a float is an exact real. Binary64 rounding (above 2^53 and of decimal fractions) is not modelled, nor the `OverflowError` that `float()` raises for an integer beyond the float range.
- WebApp.QtyValue: a JSON integer quantity beyond the float range makes `float()` raise `OverflowError`, which webapp.py:137 does not catch, so the handler fails with a server error; the model gives the exact value instead.
- Items.GetShops and Items.SortByName order names by code point. MySQL orders them by the column's collation, which by default ignores case and accents, so names that differ in case or accents may come out in another order.
- Hub.Server.Step and OriginalApp.Server.Step call `save_image_for_ean` with its file write and table update succeeding. There a failure would raise out of the websocket handler, and that is not modelled. In webapp.py's upload handler and app.py's upload websocket, write failures and table-update failures are modelled.
- Exception messages: the `Fehler beim Speichern: {exc}` and `Fehler: {e}` texts are reduced to their kind.
- Send failures in app.py's image handler are not modelled: its replies are returned, not sent.
- webapp.py `api_lookup_ean_http`, `api_logout`, `api_shops` and the page routes only forward to the modelled `Api` and `get_shops`, so they are not modelled separately.
- `Api.update_product_name` at originalapp.py:96-111 is not modelled: it lacks `self` and cannot be called as a method. The module-level `update_product_name` that the handler calls is modelled.
- originalapp.py `product_image` (originalapp.py:305-323) is not modelled. It is the same fallback choice as webapp.py's `product_image`, which is modelled.
- rfid_monitor.py: opening the serial port, byte decoding, the retry with a 3-second sleep, and the endless loop are not modelled. The monitor reads a finite sequence of already decoded lines, each with the time it was read.
- Writing the label text and the bitmap frame to `/dev/usb/lp0` is not modelled.
