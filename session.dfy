/**
 * The desktop `Api` object of api.py: the logged-in user with an expiring
 * session, RFID login, logout, the timeout setting, and the EAN lookup and
 * save calls it forwards to the `items` table.
 *
 * Time is an integer count of seconds (`now`); a session of `m` minutes opened
 * at `t` expires at `t + 60 * m`. The messages the object hands to
 * `broadcast_from_anywhere` are collected in `events`.
 */
module Session {
  import opened Wrappers
  import opened Text
  import opened Json
  import opened Events
  import opened Items

  const DefaultTimeoutMinutes: int := 30
  const MaxTimeoutMinutes: int := 480

  /** The four session fields of `Api`. */
  datatype State = State(userId: Option<int>, userName: string, timeoutMinutes: int, expiresAt: Option<int>)

  /** The state `Api.__init__` sets up. */
  function Initial(): (s: State)
    ensures s.userId.None? && s.expiresAt.None? && s.timeoutMinutes == DefaultTimeoutMinutes
  {
    State(None, "", DefaultTimeoutMinutes, None)
  }

  /**
   * What every operation keeps: the timeout lies in 0..480; without a user the
   * name is empty and nothing expires; with a user there is an expiry time
   * exactly when the timeout is positive.
   */
  predicate Coherent(s: State) {
    && 0 <= s.timeoutMinutes <= MaxTimeoutMinutes
    && (s.userId.None? ==> s.userName == "" && s.expiresAt.None?)
    && (s.userId.Some? ==> (s.expiresAt.Some? <==> s.timeoutMinutes > 0))
  }

  /** A logged-in user whose expiry time has been reached. */
  predicate Expired(s: State, now: int) {
    s.userId.Some? && s.expiresAt.Some? && now >= s.expiresAt.value
  }

  /**
   * Expiry is final: a session expired at `now` stays expired at every later
   * instant until the expiry check closes it, and a closed session never expires.
   */
  lemma ExpiryIsFinal(s: State, now: int, later: int)
    requires now <= later
    ensures Expired(s, now) ==> Expired(s, later)
    ensures Expired(s, now) ==> !Expired(Expire(s, now), later)
    ensures !Expired(LoggedOut(s), now)
  {
  }

  /** `_apply_timeout`: an expired session is closed; anything else is left alone. */
  function Expire(s: State, now: int): (r: State)
    ensures Expired(s, now) ==> r.userId.None? && r.userName == "" && r.expiresAt.None?
    ensures !Expired(s, now) ==> r == s
    ensures r.timeoutMinutes == s.timeoutMinutes
  {
    if Expired(s, now) then s.(userId := None, userName := "", expiresAt := None) else s
  }

  /** The `user_logout` message announcing that the user of `s` has gone. */
  function LogoutEvent(s: State): (m: Message)
    ensures m.UserLogout? && m.prevUserId == s.userId && m.prevUserName == s.userName
  {
    UserLogout(s.userId, s.userName)
  }

  /** The state after `rfid_login` recognised `user` at time `now`. */
  function Login(s: State, user: User, now: int): (r: State)
    ensures r.userId == Some(user.id) && r.userName == user.name && r.timeoutMinutes == s.timeoutMinutes
    ensures s.timeoutMinutes > 0 ==> r.expiresAt == Some(now + 60 * s.timeoutMinutes)
    ensures s.timeoutMinutes <= 0 ==> r.expiresAt.None?
  {
    State(Some(user.id), user.name,
          s.timeoutMinutes,
          if s.timeoutMinutes > 0 then Some(now + 60 * s.timeoutMinutes) else None)
  }

  /** The state after `logout`: nobody is logged in; the timeout setting stays. */
  function LoggedOut(s: State): (r: State)
    ensures r.userId.None? && r.userName == "" && r.expiresAt.None?
    ensures r.timeoutMinutes == s.timeoutMinutes
  {
    s.(userId := None, userName := "", expiresAt := None)
  }

  /** `max(0, min(480, m))`. */
  function Clamp(m: int): (r: int)
    ensures 0 <= r <= MaxTimeoutMinutes
    ensures 0 <= m <= MaxTimeoutMinutes ==> r == m
    ensures m < 0 ==> r == 0
    ensures m > MaxTimeoutMinutes ==> r == MaxTimeoutMinutes
  {
    if m < 0 then 0 else if m > MaxTimeoutMinutes then MaxTimeoutMinutes else m
  }

  /** `int(minutes)`, with 0 when `int()` raises, then clamped to 0..480. */
  function CoerceTimeout(minutes: JVal): (m: int)
    ensures 0 <= m <= MaxTimeoutMinutes
    ensures PyInt(minutes).None? ==> m == 0
    ensures PyInt(minutes).Some? ==> m == Clamp(PyInt(minutes).value)
  {
    Clamp(PyInt(minutes).GetOr(0))
  }

  /**
   * The state after `set_session_timeout` has settled on `m` minutes at time
   * `now`: a logged-in user's session is restarted with the new length (or made
   * endless by 0); without a user only the setting changes.
   */
  function SetTimeout(s: State, m: int, now: int): (r: State)
    ensures r.timeoutMinutes == m
    ensures r.userId == s.userId && r.userName == s.userName
    ensures s.userId.None? ==> r.expiresAt == s.expiresAt
    ensures s.userId.Some? && m > 0 ==> r.expiresAt == Some(now + 60 * m)
    ensures s.userId.Some? && m == 0 ==> r.expiresAt.None?
  {
    var expires := if s.userId.Some? && m > 0 then Some(now + 60 * m)
                   else if s.userId.Some? && m == 0 then None
                   else s.expiresAt;
    s.(timeoutMinutes := m, expiresAt := expires)
  }

  /** The dictionary `get_current_user` returns. */
  datatype UserView = UserView(userId: Option<int>, userName: string, timeoutMinutes: int, expiresAt: Option<int>)

  /** `get_current_user` at time `now`: the session after the timeout check, reported. */
  function CurrentUser(s: State, now: int): (v: UserView)
    ensures v.timeoutMinutes == s.timeoutMinutes
    ensures v.userId.Some? <==> s.userId.Some? && !Expired(s, now)
    ensures v.userId.Some? ==> v.userId == s.userId && v.userName == s.userName && v.expiresAt == s.expiresAt
    ensures v.userId.None? ==> v.userName == "" && v.expiresAt.None?
  {
    var t := Expire(s, now);
    if t.userId.None? then UserView(None, "", t.timeoutMinutes, None)
    else UserView(t.userId, t.userName, t.timeoutMinutes, t.expiresAt)
  }

  // ---------------------------------------------------------------------------
  // Properties of the session

  lemma InitialCoherent()
    ensures Coherent(Initial())
  {
  }

  /** Every transition of the session keeps it coherent. */
  lemma TransitionsKeepCoherent(s: State, user: User, minutes: JVal, now: int)
    requires Coherent(s)
    ensures Coherent(Expire(s, now))
    ensures Coherent(Login(s, user, now))
    ensures Coherent(LoggedOut(s))
    ensures Coherent(SetTimeout(s, CoerceTimeout(minutes), now))
  {
  }

  /**
   * A login with a positive timeout `T` at time `t0` lasts while
   * `now < t0 + 60 * T` and is closed by the first check at or after that instant.
   */
  lemma ExpiryWindow(s: State, user: User, t0: int, now: int)
    requires s.timeoutMinutes > 0
    ensures var l := Login(s, user, t0);
            (now < t0 + 60 * s.timeoutMinutes ==> CurrentUser(l, now).userId == Some(user.id))
            && (now >= t0 + 60 * s.timeoutMinutes ==> CurrentUser(l, now).userId.None?
                                                      && Expire(l, now) == LoggedOut(l))
  {
  }

  /** With the timeout set to 0 a login never expires. */
  lemma ZeroTimeoutNeverExpires(s: State, user: User, t0: int, now: int)
    requires s.timeoutMinutes == 0
    ensures CurrentUser(Login(s, user, t0), now).userId == Some(user.id)
  {
  }

  /**
   * The coercions the timeout setting promises: negative values become 0,
   * unparsable text becomes 0, too large values become 480, and a float is
   * cut toward zero.
   */
  lemma CoerceTimeoutExamples()
    ensures CoerceTimeout(JNum(Int(-5))) == 0
    ensures CoerceTimeout(JStr("abc")) == 0
    ensures CoerceTimeout(JNum(Int(9999))) == MaxTimeoutMinutes
    ensures CoerceTimeout(JNull) == 0
    ensures CoerceTimeout(JNum(Float(29.9, "29.9"))) == 29
  {
    assert !IsSpace('a') && !IsSpace('c');
    TrimStartKeeps("abc");
    TrimEndKeeps("abc");
    assert !IsDigit("abc"[0]);
    assert TruncToZero(29.9) == 29;
  }

  // ---------------------------------------------------------------------------
  // lookup_ean and save_product

  /** `(arg or "").strip()` for an argument that is a string or null. */
  function StrippedArg(arg: Option<string>): (r: string)
    ensures arg.None? ==> r == ""
    ensures arg.Some? ==> r == Strip(arg.value)
  {
    Strip(arg.GetOr(""))
  }

  /**
   * What `lookup_ean` returns: the stored product tagged `local`, or the empty
   * placeholder tagged `none` carrying the (stripped) EAN asked for.
   */
  datatype Lookup = Placeholder(ean: string) | Local(view: ProductView)

  /**
   * `lookup_ean(ean, use_online)`: a blank EAN gives the placeholder for "";
   * a stored EAN gives its row; anything else the placeholder for that EAN.
   * `use_online` has no effect.
   */
  function LookupEan(rows: map<string, Item>, ean: Option<string>): (r: Lookup)
    ensures var e := StrippedArg(ean);
            && (e == "" ==> r == Placeholder(""))
            && (e != "" && e !in rows ==> r == Placeholder(e))
            && (e != "" && e in rows ==> r.Local? && Some(r.view) == DbGetProduct(rows, e) && r.view.ean == e)
  {
    var e := StrippedArg(ean);
    if e == "" then Placeholder("")
    else match DbGetProduct(rows, e)
      case Some(view) => Local(view)
      case None => Placeholder(e)
  }

  /** The reply of `save_product`. */
  datatype SaveReply = Saved | Failed(message: string)

  const MissingEan: string := "EAN fehlt"
  /** Reported when the database raises; the exception text after it is not modelled. */
  const SaveError: string := "Fehler beim Speichern"

  /** The user recorded by `save_product`: the owner of a non-empty RFID tag, if any. */
  function SavingUser(rfidUid: Option<string>, users: seq<UserRow>, dbOk: bool): (r: Option<int>)
    ensures rfidUid.None? || rfidUid.value == "" ==> r.None?
    ensures r.Some? ==> var u := GetUserByRfid(rfidUid.value, users, dbOk); u.Some? && r.value == u.value.id
    ensures rfidUid.Some? && rfidUid.value != "" && GetUserByRfid(rfidUid.value, users, dbOk).Some? ==>
              r == Some(GetUserByRfid(rfidUid.value, users, dbOk).value.id)
  {
    if rfidUid.None? || rfidUid.value == "" then None
    else match GetUserByRfid(rfidUid.value, users, dbOk)
      case Some(u) => Some(u.id)
      case None => None
  }

  /**
   * `save_product(ean, name, shop_id, qty, rfid_uid)`: the rows afterwards and
   * the reply. A blank EAN is refused with "EAN fehlt"; a database failure
   * changes nothing; otherwise exactly the row of the stripped EAN is written.
   */
  function SaveProductSpec(rows: map<string, Item>, ean: Option<string>, name: Option<string>,
                           shopId: Option<int>, qty: Option<real>, rfidUid: Option<string>,
                           users: seq<UserRow>, dbOk: bool, now: int): (r: (map<string, Item>, SaveReply))
    ensures var e := StrippedArg(ean);
            && (e == "" ==> r == (rows, Failed(MissingEan)))
            && (e != "" && !dbOk ==> r == (rows, Failed(SaveError)))
            && (e != "" && dbOk ==> r.1 == Saved && e in r.0)
  {
    var e := StrippedArg(ean);
    if e == "" then (rows, Failed(MissingEan))
    else if !dbOk then (rows, Failed(SaveError))
    else
      var user := SavingUser(rfidUid, users, dbOk);
      (rows[e := SavedItem(Find(rows, e), StrippedArg(name), shopId, qty, user, now)], Saved)
  }

  /** The row a successful `save_product` writes, under the stripped EAN. */
  function SavedRow(rows: map<string, Item>, ean: Option<string>, name: Option<string>,
                    shopId: Option<int>, qty: Option<real>, rfidUid: Option<string>,
                    users: seq<UserRow>, dbOk: bool, now: int): Item
  {
    var e := StrippedArg(ean);
    SavedItem(Find(rows, e), StrippedArg(name), shopId, qty, SavingUser(rfidUid, users, dbOk), now)
  }

  /** A successful `save_product` adds or replaces the row of the stripped EAN and no other. */
  lemma SaveProductWritesOneRow(rows: map<string, Item>, ean: Option<string>, name: Option<string>,
                                shopId: Option<int>, qty: Option<real>, rfidUid: Option<string>,
                                users: seq<UserRow>, dbOk: bool, now: int)
    requires StrippedArg(ean) != "" && dbOk
    ensures var r := SaveProductSpec(rows, ean, name, shopId, qty, rfidUid, users, dbOk, now);
            var e := StrippedArg(ean);
            && r.1 == Saved && r.0.Keys == rows.Keys + {e}
            && r.0[e] == SavedRow(rows, ean, name, shopId, qty, rfidUid, users, dbOk, now)
            && (forall k :: k in rows && k != e ==> r.0[k] == rows[k])
  {
    var e := StrippedArg(ean);
    var row := SavedRow(rows, ean, name, shopId, qty, rfidUid, users, dbOk, now);
    var r := SaveProductSpec(rows, ean, name, shopId, qty, rfidUid, users, dbOk, now);
    assert r == (rows[e := row], Saved);
    forall k | k in rows && k != e
      ensures r.0[k] == rows[k]
    {
    }
  }

  /**
   * The row a successful `save_product` writes carries the stripped name, the
   * given quantity, and the RFID user when one was recognised (the stored user
   * otherwise).
   */
  lemma SavedRowContents(rows: map<string, Item>, ean: Option<string>, name: Option<string>,
                         shopId: Option<int>, qty: Option<real>, rfidUid: Option<string>,
                         users: seq<UserRow>, dbOk: bool, now: int)
    ensures var row := SavedRow(rows, ean, name, shopId, qty, rfidUid, users, dbOk, now);
            var e := StrippedArg(ean);
            var user := SavingUser(rfidUid, users, dbOk);
            && row.name == Some(StrippedArg(name)) && row.lastChangeAt == Some(now)
            && (user.Some? ==> row.lastUserId == user)
            && (user.None? && e in rows ==> row.lastUserId == rows[e].lastUserId)
            && (qty.Some? ==> row.qty == qty)
  {
  }

  /** The `Api` object: the session fields and the messages it has broadcast. */
  class Api {
    var currentUserId: Option<int>
    var currentUserName: string
    var sessionTimeoutMinutes: int
    var currentUserExpiresAt: Option<int>
    var events: seq<Message>

    function Snapshot(): State
      reads this
    {
      State(currentUserId, currentUserName, sessionTimeoutMinutes, currentUserExpiresAt)
    }

    predicate Valid()
      reads this
    {
      Coherent(Snapshot())
    }

    /** `Api.__init__`: nobody logged in, a 30-minute timeout. */
    constructor ()
      ensures Snapshot() == Initial() && events == []
      ensures Valid()
    {
      currentUserId := None;
      currentUserName := "";
      sessionTimeoutMinutes := DefaultTimeoutMinutes;
      currentUserExpiresAt := None;
      events := [];
    }

    /** `_apply_timeout` at time `now`; closing a session announces the logout. */
    method ApplyTimeout(now: int)
      requires Valid()
      modifies this
      ensures Valid()
      ensures Snapshot() == Expire(old(Snapshot()), now)
      ensures events == old(events) + (if Expired(old(Snapshot()), now) then [LogoutEvent(old(Snapshot()))] else [])
    {
      if currentUserId.None? {
        return;
      }
      if currentUserExpiresAt.None? {
        return;
      }
      if now >= currentUserExpiresAt.value {
        var oldId, oldName := currentUserId, currentUserName;
        currentUserId := None;
        currentUserName := "";
        currentUserExpiresAt := None;
        events := events + [UserLogout(oldId, oldName)];
      }
    }

    /** `rfid_login(uid)` at time `now`, against the `users` table. */
    method RfidLogin(uid: string, users: seq<UserRow>, dbOk: bool, now: int) returns (r: LoginReply)
      requires Valid()
      modifies this
      ensures Valid()
      ensures GetUserByRfid(uid, users, dbOk).None? ==>
                r == Rejected(NotRecognised) && Snapshot() == old(Snapshot()) && events == old(events)
      ensures GetUserByRfid(uid, users, dbOk).Some? ==>
                var u := GetUserByRfid(uid, users, dbOk).value;
                && r == LoggedIn(u.id, u.name, Greeting(u.name))
                && Snapshot() == Login(old(Snapshot()), u, now)
                && events == old(events) + [UserLogin(u.id, u.name)]
    {
      var user := GetUserByRfid(uid, users, dbOk);
      if user.None? {
        return Rejected(NotRecognised);
      }
      SignIn(user.value, now);
      r := LoggedIn(user.value.id, user.value.name, Greeting(user.value.name));
    }

    /** The part of `rfid_login` after the user was recognised: open the session and announce it. */
    method SignIn(user: User, now: int)
      requires Valid()
      modifies this
      ensures Valid()
      ensures Snapshot() == Login(old(Snapshot()), user, now)
      ensures events == old(events) + [UserLogin(user.id, user.name)]
    {
      currentUserId := Some(user.id);
      currentUserName := user.name;
      if sessionTimeoutMinutes > 0 {
        currentUserExpiresAt := Some(now + 60 * sessionTimeoutMinutes);
      } else {
        currentUserExpiresAt := None;
      }
      events := events + [UserLogin(user.id, user.name)];
    }

    /** `logout()`: always succeeds and always announces who was logged in (possibly nobody). */
    method Logout()
      requires Valid()
      modifies this
      ensures Valid()
      ensures Snapshot() == LoggedOut(old(Snapshot()))
      ensures events == old(events) + [LogoutEvent(old(Snapshot()))]
    {
      var oldId, oldName := currentUserId, currentUserName;
      currentUserId := None;
      currentUserName := "";
      currentUserExpiresAt := None;
      events := events + [UserLogout(oldId, oldName)];
    }

    /** `get_current_user()` at time `now`. */
    method GetCurrentUser(now: int) returns (v: UserView)
      requires Valid()
      modifies this
      ensures Valid()
      ensures v == CurrentUser(old(Snapshot()), now)
      ensures Snapshot() == Expire(old(Snapshot()), now)
      ensures events == old(events) + (if Expired(old(Snapshot()), now) then [LogoutEvent(old(Snapshot()))] else [])
    {
      ApplyTimeout(now);
      if currentUserId.None? {
        return UserView(None, "", sessionTimeoutMinutes, None);
      }
      v := UserView(currentUserId, currentUserName, sessionTimeoutMinutes, currentUserExpiresAt);
    }

    /** `set_session_timeout(minutes)` at time `now`; returns the minutes in force. */
    method SetSessionTimeout(minutes: JVal, now: int) returns (m: int)
      requires Valid()
      modifies this
      ensures Valid()
      ensures Snapshot() == SetTimeout(old(Snapshot()), CoerceTimeout(minutes), now) && events == old(events)
      ensures m == sessionTimeoutMinutes && 0 <= m <= MaxTimeoutMinutes
    {
      var parsed := PyInt(minutes);
      m := if parsed.Some? then parsed.value else 0;
      m := if m < 0 then 0 else if m > MaxTimeoutMinutes then MaxTimeoutMinutes else m;
      sessionTimeoutMinutes := m;
      if currentUserId.Some? && m > 0 {
        currentUserExpiresAt := Some(now + 60 * m);
      } else if currentUserId.Some? && m == 0 {
        currentUserExpiresAt := None;
      }
    }

    /** `save_product(...)` at time `now`, writing the `items` table. */
    method SaveProduct(store: ItemStore, ean: Option<string>, name: Option<string>, shopId: Option<int>,
                       qty: Option<real>, rfidUid: Option<string>, users: seq<UserRow>, dbOk: bool, now: int)
      returns (r: SaveReply)
      modifies store`rows
      ensures var spec := SaveProductSpec(old(store.rows), ean, name, shopId, qty, rfidUid, users, dbOk, now);
              store.rows == spec.0 && r == spec.1
    {
      ghost var spec := SaveProductSpec(store.rows, ean, name, shopId, qty, rfidUid, users, dbOk, now);
      var e := StrippedArg(ean);
      var n := StrippedArg(name);
      if e == "" {
        return Failed(MissingEan);
      }
      var userId := SavingUser(rfidUid, users, dbOk);
      if !dbOk {
        return Failed(SaveError);
      }
      assert spec == (store.rows[e := SavedItem(Find(store.rows, e), n, shopId, qty, userId, now)], Saved);
      DbSaveProduct(store, e, n, shopId, qty, userId, now);
      r := Saved;
    }
  }

  /** The reply of `rfid_login`. */
  datatype LoginReply = Rejected(message: string) | LoggedIn(userId: int, userName: string, message: string)

  const NotRecognised: string := "RFID nicht erkannt"

  /** The message of a successful login. */
  function Greeting(name: string): (g: string)
    ensures |g| == |name| + 15 && g[..15] == "Angemeldet als " && g[15..] == name
  {
    "Angemeldet als " + name
  }
}
