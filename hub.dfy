/**
 * The real-time hub of websocket_server.py: the set of connected clients, the
 * fan-out of a message to all of them, the last announced article, and the
 * per-connection handler that reads JSON frames and reacts to their `type`.
 *
 * A client is an abstract `Peer`; what it has been sent is its inbox in
 * `sent`. Whether a send to a peer fails is given by the set `failing`.
 * The time a frame is handled is carried by the frame.
 */
module Hub {
  import opened Wrappers
  import opened Text
  import opened Json
  import opened Events
  import opened Items

  /** A client connection. */
  type Peer = nat

  /**
   * The messages `broadcast` leaves in the inboxes: every connected peer whose
   * send succeeds gets `msg` appended; every other inbox is as it was.
   */
  function Delivered(sent: map<Peer, seq<Message>>, clients: set<Peer>, failing: set<Peer>, msg: Message)
    : (r: map<Peer, seq<Message>>)
    ensures r.Keys == sent.Keys
    ensures forall p {:trigger r[p]} :: p in sent && p in clients && p !in failing ==> r[p] == sent[p] + [msg]
    ensures forall p {:trigger r[p]} :: p in sent && (p !in clients || p in failing) ==> r[p] == sent[p]
  {
    map p | p in sent :: if p in clients && p !in failing then sent[p] + [msg] else sent[p]
  }

  /** The inboxes after broadcasting `msgs` one after the other, dropping the failing peers after each. */
  function DeliveredAll(sent: map<Peer, seq<Message>>, clients: set<Peer>, failing: set<Peer>, msgs: seq<Message>)
    : (r: map<Peer, seq<Message>>)
    ensures r.Keys == sent.Keys
  {
    if msgs == [] then sent
    else DeliveredAll(Delivered(sent, clients, failing, msgs[0]), clients - failing, failing, msgs[1..])
  }

  /**
   * A peer that stays reachable receives every broadcast message, in the order
   * they were broadcast; a peer that is not reachable receives none of them.
   */
  lemma {:induction false} DeliveredAllInOrder(sent: map<Peer, seq<Message>>, clients: set<Peer>, failing: set<Peer>,
                                                msgs: seq<Message>, p: Peer)
    requires p in sent
    ensures p in clients && p !in failing ==> DeliveredAll(sent, clients, failing, msgs)[p] == sent[p] + msgs
    ensures p !in clients || p in failing ==> DeliveredAll(sent, clients, failing, msgs)[p] == sent[p]
  {
    if msgs != [] {
      var next := Delivered(sent, clients, failing, msgs[0]);
      assert DeliveredAll(sent, clients, failing, msgs) == DeliveredAll(next, clients - failing, failing, msgs[1..]);
      DeliveredAllInOrder(next, clients - failing, failing, msgs[1..], p);
      if p in clients && p !in failing {
        assert next[p] == sent[p] + [msgs[0]];
        assert msgs == [msgs[0]] + msgs[1..];
        assert next[p] + msgs[1..] == sent[p] + msgs;
      } else {
        assert next[p] == sent[p];
      }
    }
  }

  /** The connected clients and what each peer has been sent. */
  class Peers {
    var clients: set<Peer>
    var sent: map<Peer, seq<Message>>

    /** Every connected client has an inbox. */
    predicate Valid()
      reads this
    {
      clients <= sent.Keys
    }

    constructor ()
      ensures clients == {} && sent == map[] && Valid()
    {
      clients := {};
      sent := map[];
    }

    /** `connected_clients.add(websocket)`. */
    method Connect(p: Peer)
      requires Valid()
      modifies this
      ensures Valid()
      ensures clients == old(clients) + {p}
      ensures sent == if p in old(sent) then old(sent) else old(sent)[p := []]
    {
      clients := clients + {p};
      if p !in sent {
        sent := sent[p := []];
      }
    }

    /** `connected_clients.discard(websocket)`. */
    method Disconnect(p: Peer)
      requires Valid()
      modifies this`clients
      ensures Valid()
      ensures clients == old(clients) - {p}
    {
      clients := clients - {p};
    }

    /** `websocket.send(...)` to one peer whose send succeeds. */
    method Send(p: Peer, msg: Message)
      requires p in sent
      modifies this`sent
      ensures sent == old(sent)[p := old(sent)[p] + [msg]]
    {
      sent := sent[p := sent[p] + [msg]];
    }

    /**
     * `broadcast(message)`: send to every connected client, collect those whose
     * send fails, then drop them from the connected set.
     */
    method Broadcast(msg: Message, failing: set<Peer>)
      requires Valid()
      modifies this
      ensures Valid()
      ensures clients == old(clients) - failing
      ensures sent == Delivered(old(sent), old(clients), failing, msg)
    {
      if clients == {} {
        return;
      }
      var pending := clients;
      var dead: seq<Peer> := [];
      while pending != {}
        invariant pending <= clients == old(clients) && Valid()
        invariant sent.Keys == old(sent).Keys
        invariant forall p :: p in sent ==>
                    sent[p] == if p in clients && p !in pending && p !in failing then old(sent)[p] + [msg] else old(sent)[p]
        invariant forall p :: p in dead <==> p in clients && p !in pending && p in failing
        decreases pending
      {
        var ws :| ws in pending;
        if ws in failing {
          dead := dead + [ws];
        } else {
          sent := sent[ws := sent[ws] + [msg]];
        }
        pending := pending - {ws};
      }
      DiscardAll(dead);
    }

    /** `for ws in dead: connected_clients.discard(ws)`. */
    method DiscardAll(dead: seq<Peer>)
      requires Valid()
      modifies this`clients
      ensures Valid()
      ensures forall p :: p in clients <==> p in old(clients) && p !in dead
    {
      var i := 0;
      while i < |dead|
        invariant 0 <= i <= |dead| && Valid()
        invariant forall p :: p in clients <==> p in old(clients) && p !in dead[..i]
      {
        clients := clients - {dead[i]};
        i := i + 1;
        assert forall p :: p in dead[..i] <==> p in dead[..i - 1] || p == dead[i - 1];
      }
      assert dead[..i] == dead;
    }
  }

  // ---------------------------------------------------------------------------
  // Frames and their dispatch

  /** `last_article`: the stripped EAN and name last announced. */
  datatype Article = Article(ean: string, name: string)

  /** The `current_article` message for an article. */
  function ArticleMessage(a: Article): (m: Message)
    ensures m.CurrentArticle? && m.ean == JStr(a.ean) && m.name == JStr(a.name) && m.image.None?
  {
    CurrentArticle(JStr(a.ean), JStr(a.name), None)
  }

  /** A text frame as `json.loads` sees it: not JSON, JSON but not an object, or an object read at time `at`. */
  datatype Frame = Malformed | NotObject | Obj(data: Object, at: int)

  /** The database write a frame asks for. */
  datatype Write = NoWrite | Rename(ean: string, name: string) | StoreImage(ean: string, kind: PayloadKind)

  /** What a frame sends: nothing, a reply to its sender, a broadcast, or an exception that ends the handler. */
  datatype Output = Silent | Reply(msg: Message) | Bcast(msg: Message) | Crash

  datatype Outcome = Outcome(last: Option<Article>, write: Write, out: Output)

  const MissingImageArgs: string := "ean und image_base64 erforderlich"
  const MissingEanArg: string := "ean erforderlich"

  /** The `type` field a frame must carry to mean `t`. */
  predicate IsType(data: Object, t: string) {
    Find(data, "type") == Some(JStr(t))
  }

  /** The message types the handler knows. */
  predicate KnownType(data: Object) {
    IsType(data, "set_article") || IsType(data, "request_current_article") || IsType(data, "upload_image")
    || IsType(data, "image_uploaded") || IsType(data, "save_name")
  }

  /** `set_article`: remember and announce the stripped EAN and name. */
  function SetArticle(last: Option<Article>, data: Object): (o: Outcome)
    ensures o.write == NoWrite
    ensures o.out.Crash? || (o.last.Some? && o.out == Bcast(ArticleMessage(o.last.value)))
    ensures o.out.Crash? ==> o.last == last
  {
    var ean := OrEmptyStripped(Find(data, "ean"));
    var name := OrEmptyStripped(Find(data, "name"));
    if ean.None? || name.None? then Outcome(last, NoWrite, Crash)
    else
      var a := Article(ean.value, name.value);
      Outcome(Some(a), NoWrite, Bcast(ArticleMessage(a)))
  }

  /** `request_current_article`: send the last article back to the asker, if there is one. */
  function RequestArticle(last: Option<Article>): (o: Outcome)
    ensures o.last == last && o.write == NoWrite
    ensures last.Some? <==> o.out.Reply?
    ensures last.Some? ==> o.out.msg == ArticleMessage(last.value)
    ensures last.None? ==> o.out.Silent?
  {
    Outcome(last, NoWrite, if last.Some? then Reply(ArticleMessage(last.value)) else Silent)
  }

  /**
   * `upload_image`: both the EAN and the payload are required; a payload that
   * decodes is stored and announced together with the file it went to.
   */
  function UploadImage(last: Option<Article>, data: Object, at: int, classify: string -> PayloadKind): (o: Outcome)
    ensures o.last == last
    ensures o.out.Crash? ==> o.write == NoWrite
    ensures o.write.StoreImage? ==> o.write.ean != "" && o.write.kind != BadBase64
                                    && o.out == Bcast(ImageUpdated(o.write.ean, ImageTarget(o.write.ean, o.write.kind), at, None))
    ensures o.write.NoWrite? ==> o.out.Crash? || o.out == Reply(Error(MissingImageArgs))
    ensures !o.write.Rename?
  {
    var ean := OrEmptyStripped(Find(data, "ean"));
    var image := Find(data, "image_base64").GetOr(JStr(""));
    if ean.None? then Outcome(last, NoWrite, Crash)
    else if ean.value == "" || !Truthy(image) then Outcome(last, NoWrite, Reply(Error(MissingImageArgs)))
    else if !image.JStr? then Outcome(last, NoWrite, Crash)
    else
      var kind := classify(image.s);
      if kind == BadBase64 then Outcome(last, NoWrite, Crash)
      else Outcome(last, StoreImage(ean.value, kind), Bcast(ImageUpdated(ean.value, ImageTarget(ean.value, kind), at, None)))
  }

  /** `image_uploaded`: announce that the image of a non-blank EAN changed. */
  function ImageUploaded(last: Option<Article>, data: Object, at: int): (o: Outcome)
    ensures o.last == last && o.write == NoWrite
    ensures o.out.Bcast? ==> o.out.msg.ImageUpdated? && o.out.msg.imageEan != "" && o.out.msg.imagePath.None?
    ensures o.out.Crash? || o.out.Silent? || o.out.Bcast?
  {
    var ean := OrEmptyStripped(Find(data, "ean"));
    if ean.None? then Outcome(last, NoWrite, Crash)
    else if ean.value == "" then Outcome(last, NoWrite, Silent)
    else Outcome(last, NoWrite, Bcast(ImageUpdated(ean.value, None, at, None)))
  }

  /** `save_name`: rename the product of a non-blank EAN, remember and announce it. */
  function SaveName(last: Option<Article>, data: Object): (o: Outcome)
    ensures o.out.Crash? ==> o.last == last && o.write == NoWrite
    ensures o.write.Rename? ==> o.write.ean != "" && o.last == Some(Article(o.write.ean, o.write.name))
                                && o.out == Bcast(ArticleMessage(o.last.value))
    ensures o.write.NoWrite? ==> o.last == last && (o.out.Crash? || o.out == Reply(Error(MissingEanArg)))
    ensures !o.write.StoreImage?
  {
    var ean := OrEmptyStripped(Find(data, "ean"));
    var name := OrEmptyStripped(Find(data, "name"));
    if ean.None? || name.None? then Outcome(last, NoWrite, Crash)
    else if ean.value == "" then Outcome(last, NoWrite, Reply(Error(MissingEanArg)))
    else
      var a := Article(ean.value, name.value);
      Outcome(Some(a), Rename(ean.value, name.value), Bcast(ArticleMessage(a)))
  }

  /**
   * The reaction of `ws_handler` to one decoded object, given the last article.
   * A field read with `(data.get(k) or "").strip()` crashes the handler when it
   * holds a truthy non-string; `b64decode` crashes it on a bad payload.
   */
  function Dispatch(last: Option<Article>, data: Object, at: int, classify: string -> PayloadKind): (o: Outcome)
    ensures o.out.Crash? ==> o.last == last && o.write == NoWrite
    ensures o.last != last ==> o.last.Some? && o.out == Bcast(ArticleMessage(o.last.value))
    ensures o.write.Rename? ==> o.write.ean != "" && o.last == Some(Article(o.write.ean, o.write.name))
                                && o.out == Bcast(ArticleMessage(o.last.value))
    ensures o.write.StoreImage? ==> o.write.ean != "" && o.write.kind != BadBase64
                                    && o.out == Bcast(ImageUpdated(o.write.ean, ImageTarget(o.write.ean, o.write.kind), at, None))
    ensures !KnownType(data) ==> o == Outcome(last, NoWrite, Silent)
  {
    if IsType(data, "set_article") then SetArticle(last, data)
    else if IsType(data, "request_current_article") then RequestArticle(last)
    else if IsType(data, "upload_image") then UploadImage(last, data, at, classify)
    else if IsType(data, "image_uploaded") then ImageUploaded(last, data, at)
    else if IsType(data, "save_name") then SaveName(last, data)
    else Outcome(last, NoWrite, Silent)
  }

  /**
   * Announcing an article and then asking for it gives back the announced EAN
   * and name, stripped.
   */
  lemma SetThenRequest(last: Option<Article>, ean: string, name: string, at: int, at2: int,
                       classify: string -> PayloadKind)
    ensures var setFrame := map["type" := JStr("set_article"), "ean" := JStr(ean), "name" := JStr(name)];
            var o := Dispatch(last, setFrame, at, classify);
            var o2 := Dispatch(o.last, map["type" := JStr("request_current_article")], at2, classify);
            && o.last == Some(Article(Strip(ean), Strip(name)))
            && o2 == Outcome(o.last, NoWrite, Reply(CurrentArticle(JStr(Strip(ean)), JStr(Strip(name)), None)))
  {
    var setFrame := map["type" := JStr("set_article"), "ean" := JStr(ean), "name" := JStr(name)];
    assert Find(setFrame, "type") == Some(JStr("set_article"));
    assert Dispatch(last, setFrame, at, classify) == SetArticle(last, setFrame);
    assert Find(setFrame, "ean") == Some(JStr(ean));
    assert Find(setFrame, "name") == Some(JStr(name));
    var o := SetArticle(last, setFrame);
    var req := map["type" := JStr("request_current_article")];
    assert Find(req, "type") == Some(JStr("request_current_article"));
    assert Dispatch(o.last, req, at2, classify) == RequestArticle(o.last);
  }

  /**
   * `upload_image` with a string EAN and a string payload: a blank EAN or an
   * empty payload is answered with the error; otherwise a decodable payload is
   * stored under the stripped EAN and announced with the file it was stored in.
   */
  lemma UploadImageOutcome(last: Option<Article>, ean: string, payload: string, at: int,
                           classify: string -> PayloadKind)
    ensures var data := map["type" := JStr("upload_image"), "ean" := JStr(ean), "image_base64" := JStr(payload)];
            var o := Dispatch(last, data, at, classify);
            && (Blank(ean) || payload == "" ==> o == Outcome(last, NoWrite, Reply(Error(MissingImageArgs))))
            && (!Blank(ean) && payload != "" && classify(payload) == BadBase64 ==> o.out.Crash?)
            && (!Blank(ean) && payload != "" && classify(payload) != BadBase64 ==>
                  o.write == StoreImage(Strip(ean), classify(payload))
                  && o.out == Bcast(ImageUpdated(Strip(ean), ImageTarget(Strip(ean), classify(payload)), at, None)))
  {
    var data := map["type" := JStr("upload_image"), "ean" := JStr(ean), "image_base64" := JStr(payload)];
    assert Find(data, "type") == Some(JStr("upload_image"));
    assert Dispatch(last, data, at, classify) == UploadImage(last, data, at, classify);
    assert Find(data, "ean") == Some(JStr(ean));
    assert Find(data, "image_base64") == Some(JStr(payload));
  }

  /** `save_name` never writes the database for a blank EAN; it answers with the error instead. */
  lemma SaveNameNeedsEan(last: Option<Article>, ean: string, name: string, at: int, classify: string -> PayloadKind)
    ensures var data := map["type" := JStr("save_name"), "ean" := JStr(ean), "name" := JStr(name)];
            var o := Dispatch(last, data, at, classify);
            && (Blank(ean) ==> o == Outcome(last, NoWrite, Reply(Error(MissingEanArg))))
            && (!Blank(ean) ==> o.write == Rename(Strip(ean), Strip(name)) && o.last == Some(Article(Strip(ean), Strip(name))))
  {
    var data := map["type" := JStr("save_name"), "ean" := JStr(ean), "name" := JStr(name)];
    assert Find(data, "type") == Some(JStr("save_name"));
    assert Dispatch(last, data, at, classify) == SaveName(last, data);
    assert Find(data, "ean") == Some(JStr(ean));
    assert Find(data, "name") == Some(JStr(name));
  }

  // ---------------------------------------------------------------------------
  // The state a connection handler works on

  /** Everything a frame can change: the clients and inboxes, the last article, the table and the image files. */
  datatype World = World(clients: set<Peer>, sent: map<Peer, seq<Message>>, last: Option<Article>,
                         rows: map<string, Item>, files: set<string>)

  /** The table after a write, as `update_product_name` and `save_image_for_ean` leave it. */
  function RowsAfter(rows: map<string, Item>, w: Write, at: int): (r: map<string, Item>)
    ensures w.NoWrite? ==> r == rows
    ensures w.Rename? ==> r == rows[w.ean := RenamedItem(Find(rows, w.ean), w.name, None, at)]
    ensures w.StoreImage? && w.kind == Image ==>
              r == rows[w.ean := WithImage(Find(rows, w.ean), ImageTarget(w.ean, Image).value)]
    ensures w.StoreImage? && w.kind != Image ==> r == rows
  {
    match w
    case NoWrite => rows
    case Rename(e, n) => rows[e := RenamedItem(Find(rows, e), n, None, at)]
    case StoreImage(e, k) => if k == Image then rows[e := WithImage(Find(rows, e), ImageFile(e + ".jpg"))] else rows
  }

  /** The image directory after a write. */
  function FilesAfter(files: set<string>, w: Write): (r: set<string>)
    ensures !w.StoreImage? || ImageTarget(w.ean, w.kind).None? ==> r == files
    ensures w.StoreImage? && ImageTarget(w.ean, w.kind).Some? ==> r == files + {ImageTarget(w.ean, w.kind).value}
  {
    match w
    case StoreImage(e, k) => if ImageTarget(e, k).Some? then files + {ImageTarget(e, k).value} else files
    case _ => files
  }

  /** A peer with an inbox joins the clients. */
  function Connected(w: World, ws: Peer): (r: World)
    ensures r.clients == w.clients + {ws} && ws in r.sent
    ensures forall p :: p in w.sent ==> p in r.sent && r.sent[p] == w.sent[p]
  {
    w.(clients := w.clients + {ws}, sent := if ws in w.sent then w.sent else w.sent[ws := []])
  }

  /**
   * One frame handled by the connection of `ws`: the world afterwards, and
   * whether the handler goes on reading.
   */
  function StepSpec(w: World, ws: Peer, frame: Frame, classify: string -> PayloadKind, failing: set<Peer>)
    : (r: (World, bool))
    requires ws in w.sent
    ensures ws in r.0.sent && r.0.sent.Keys == w.sent.Keys
    ensures r.0.clients <= w.clients
    ensures frame.Malformed? ==> r == (w, true)
    ensures frame.NotObject? ==> r == (w, false)
    ensures frame.Obj? && Dispatch(w.last, frame.data, frame.at, classify).out.Crash? ==> r == (w, false)
  {
    match frame
    case Malformed => (w, true)
    case NotObject => (w, false)
    case Obj(data, at) =>
      var o := Dispatch(w.last, data, at, classify);
      if o.out.Crash? then (w, false)
      else
        var w1 := w.(last := o.last, rows := RowsAfter(w.rows, o.write, at), files := FilesAfter(w.files, o.write));
        if o.out.Reply? then
          if ws in failing then (w1, false)
          else (w1.(sent := w1.sent[ws := w1.sent[ws] + [o.out.msg]]), true)
        else if o.out.Bcast? then
          (w1.(clients := w1.clients - failing, sent := Delivered(w1.sent, w1.clients, failing, o.out.msg)), true)
        else (w1, true)
  }

  /** The frames of one connection handled in order until one ends the handler. */
  function RunSpec(w: World, ws: Peer, frames: seq<Frame>, classify: string -> PayloadKind, failing: set<Peer>)
    : (r: World)
    requires ws in w.sent
    ensures ws in r.sent && r.sent.Keys == w.sent.Keys && r.clients <= w.clients
    decreases |frames|
  {
    if frames == [] then w
    else
      var (w1, alive) := StepSpec(w, ws, frames[0], classify, failing);
      if alive then RunSpec(w1, ws, frames[1..], classify, failing) else w1
  }

  /** A frame that is not JSON is skipped: the connection goes on as if it had not been sent. */
  lemma MalformedIsSkipped(w: World, ws: Peer, frames: seq<Frame>, classify: string -> PayloadKind, failing: set<Peer>)
    requires ws in w.sent
    ensures RunSpec(w, ws, [Malformed] + frames, classify, failing) == RunSpec(w, ws, frames, classify, failing)
  {
    assert ([Malformed] + frames)[1..] == frames;
  }

  /** Once a frame ends the handler, the frames after it have no effect. */
  lemma {:induction false} NothingAfterCrash(w: World, ws: Peer, frames: seq<Frame>, k: nat,
                                             classify: string -> PayloadKind, failing: set<Peer>)
    requires ws in w.sent && k < |frames|
    requires !StepSpec(RunSpec(w, ws, frames[..k], classify, failing), ws, frames[k], classify, failing).1
    ensures RunSpec(w, ws, frames, classify, failing) == RunSpec(w, ws, frames[..k + 1], classify, failing)
    decreases k
  {
    var (w1, alive) := StepSpec(w, ws, frames[0], classify, failing);
    assert frames[..k + 1][0] == frames[0];
    if k > 0 && alive {
      assert frames[..k][0] == frames[0];
      assert frames[..k][1..] == frames[1..][..k - 1];
      assert frames[..k + 1][1..] == frames[1..][..k];
      NothingAfterCrash(w1, ws, frames[1..], k - 1, classify, failing);
    }
  }

  /** The module-level state of websocket_server.py. */
  class Server {
    const peers: Peers
    var lastArticle: Option<Article>
    /** Whether `WS_LOOP` exists and runs. */
    var loopRunning: bool
    /** Broadcasts handed to the running loop and not yet carried out. */
    var scheduled: seq<Message>

    constructor ()
      ensures fresh(peers) && peers.Valid() && peers.clients == {} && peers.sent == map[]
      ensures lastArticle.None? && !loopRunning && scheduled == []
    {
      peers := new Peers();
      lastArticle := None;
      loopRunning := false;
      scheduled := [];
    }

    function Snapshot(store: ItemStore): World
      reads this, peers, store
    {
      World(peers.clients, peers.sent, lastArticle, store.rows, store.files)
    }

    /** `start_ws_server`: from now on the event loop runs. */
    method StartWsServer()
      modifies this`loopRunning
      ensures loopRunning
    {
      loopRunning := true;
    }

    /** `broadcast_from_anywhere`: hand the message to the loop if it runs, otherwise drop it. */
    method BroadcastFromAnywhere(msg: Message)
      modifies this`scheduled
      ensures scheduled == old(scheduled) + (if loopRunning then [msg] else [])
    {
      if loopRunning {
        scheduled := scheduled + [msg];
      }
    }

    /** The loop carries out the handed-over broadcasts, oldest first. */
    method RunScheduled(failing: set<Peer>)
      requires peers.Valid()
      modifies this`scheduled, peers
      ensures peers.Valid() && scheduled == []
      ensures peers.sent == DeliveredAll(old(peers.sent), old(peers.clients), failing, old(scheduled))
      ensures peers.clients == if old(scheduled) == [] then old(peers.clients) else old(peers.clients) - failing
    {
      while scheduled != []
        invariant peers.Valid()
        invariant DeliveredAll(peers.sent, peers.clients, failing, scheduled)
                  == DeliveredAll(old(peers.sent), old(peers.clients), failing, old(scheduled))
        invariant peers.clients == old(peers.clients) || peers.clients == old(peers.clients) - failing
        invariant scheduled == old(scheduled) || peers.clients == old(peers.clients) - failing
        invariant old(scheduled) == [] ==> peers.clients == old(peers.clients)
        decreases |scheduled|
      {
        var m := scheduled[0];
        scheduled := scheduled[1..];
        peers.Broadcast(m, failing);
      }
    }

    /** One frame read by the handler of `ws`; `alive` is false when the handler stops. */
    method Step(ws: Peer, frame: Frame, store: ItemStore, classify: string -> PayloadKind, failing: set<Peer>)
      returns (alive: bool)
      requires peers.Valid() && ws in peers.sent
      modifies this`lastArticle, peers, store
      ensures peers.Valid()
      ensures (Snapshot(store), alive) == StepSpec(old(Snapshot(store)), ws, frame, classify, failing)
    {
      match frame {
        case Malformed =>
          return true;
        case NotObject =>
          return false;
        case Obj(data, at) =>
          var o := Dispatch(lastArticle, data, at, classify);
          if o.out.Crash? {
            return false;
          }
          if o.write.Rename? {
            UpdateProductName(store, o.write.ean, o.write.name, None, at);
          } else if o.write.StoreImage? {
            var _ := SaveImageForEan(store, o.write.ean, o.write.kind, true, true);
          }
          lastArticle := o.last;
          if o.out.Reply? {
            if ws in failing {
              return false;
            }
            peers.Send(ws, o.out.msg);
          } else if o.out.Bcast? {
            peers.Broadcast(o.out.msg, failing);
          }
          alive := true;
      }
    }

    /**
     * `ws_handler(websocket)`: register the client, handle its frames in order
     * until one ends the handler, and unregister it in any case.
     */
    method Handle(ws: Peer, frames: seq<Frame>, store: ItemStore, classify: string -> PayloadKind, failing: set<Peer>)
      requires peers.Valid()
      modifies this`lastArticle, peers, store
      ensures peers.Valid() && ws !in peers.clients
      ensures var w := RunSpec(Connected(old(Snapshot(store)), ws), ws, frames, classify, failing);
              Snapshot(store) == w.(clients := w.clients - {ws})
    {
      peers.Connect(ws);
      var i := 0;
      var alive := true;
      while i < |frames| && alive
        invariant 0 <= i <= |frames|
        invariant peers.Valid() && ws in peers.sent
        invariant (if alive then RunSpec(Snapshot(store), ws, frames[i..], classify, failing) else Snapshot(store))
                  == RunSpec(Connected(old(Snapshot(store)), ws), ws, frames, classify, failing)
      {
        assert frames[i..][1..] == frames[i + 1..];
        alive := Step(ws, frames[i], store, classify, failing);
        i := i + 1;
      }
      peers.Disconnect(ws);
    }
  }
}
