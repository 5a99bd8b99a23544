/**
 * The serial RFID monitor of rfid_monitor.py: each line the reader sends is
 * stripped and classified; only a line `RFID:<uid>` with a non-blank uid
 * leads to a login attempt, whose refusal is ignored. Opening the port, the
 * retries and the byte decoding are left to the caller: a line arrives here
 * as decoded text, together with the time it was read.
 */
module RfidMonitor {
  import opened Wrappers
  import opened Text
  import opened Events
  import opened Items
  import opened Session
  import opened Seqs

  /** The marker a reader line must start with. */
  const Prefix: string := "RFID:"

  /** What the monitor makes of one line: skipped for one of three reasons, or the uid to log in with. */
  datatype LineKind = EmptyLine | NotRfid | EmptyUid | Uid(uid: string)

  /**
   * One line, classified: a blank line and a line without the prefix are
   * skipped; otherwise the uid is the text after the five prefix characters,
   * stripped, and a blank uid is skipped too.
   */
  function ClassifyLine(raw: string): (k: LineKind)
    ensures k.EmptyLine? <==> Blank(raw)
    ensures k.NotRfid? <==> !Blank(raw) && !(Prefix <= Strip(raw))
    ensures k.EmptyUid? <==> !Blank(raw) && Prefix <= Strip(raw) && Blank(Strip(raw)[|Prefix|..])
    ensures k.Uid? ==> k.uid != "" && k.uid == Strip(Strip(raw)[|Prefix|..]) && Strip(k.uid) == k.uid
  {
    var line := Strip(raw);
    if line == "" then EmptyLine
    else if !(Prefix <= line) then NotRfid
    else
      var uid := Strip(line[|Prefix|..]);
      StripIdempotent(line[|Prefix|..]);
      if uid == "" then EmptyUid else Uid(uid)
  }

  /** A uid without surrounding whitespace, sent with the prefix, is classified as exactly that uid. */
  lemma UidLineRoundTrip(uid: string)
    requires uid != "" && Strip(uid) == uid
    ensures ClassifyLine(Prefix + uid) == Uid(uid)
  {
    StripKeeps(Prefix + uid, uid);
    PrefixSplits(uid);
    ClassifyClean(Prefix + uid);
  }

  lemma PrefixSplits(uid: string)
    ensures Prefix <= Prefix + uid && (Prefix + uid)[|Prefix|..] == uid
  {
  }

  /** A stripped line carrying the prefix and a stripped non-empty uid is classified as that uid. */
  lemma ClassifyClean(line: string)
    requires Strip(line) == line && Prefix <= line
    requires line[|Prefix|..] != "" && Strip(line[|Prefix|..]) == line[|Prefix|..]
    ensures ClassifyLine(line) == Uid(line[|Prefix|..])
  {
  }

  /** A prefix not starting with whitespace in front of a stripped non-empty string survives `strip()`. */
  lemma StripKeeps(line: string, uid: string)
    requires uid != "" && Strip(uid) == uid && line == Prefix + uid
    ensures Strip(line) == line
  {
    assert !IsSpace(uid[|uid| - 1]);
    assert line[|line| - 1] == uid[|uid| - 1];
    TrimStartKeeps(line);
    TrimEndKeeps(line);
  }

  /** A line that does not carry the prefix never leads to a login, whatever follows. */
  lemma OtherLinesSkipped(raw: string)
    requires !Blank(raw) && !(Prefix <= Strip(raw))
    ensures ClassifyLine(raw) == NotRfid
  {
  }
  /** The login event a line leads to, if any. */
  function LineEvents(raw: string, users: seq<UserRow>, dbOk: bool): (r: seq<Message>)
    ensures |r| <= 1
    ensures r != [] <==> ClassifyLine(raw).Uid? && GetUserByRfid(ClassifyLine(raw).uid, users, dbOk).Some?
  {
    var k := ClassifyLine(raw);
    if k.Uid? && GetUserByRfid(k.uid, users, dbOk).Some? then
      var u := GetUserByRfid(k.uid, users, dbOk).value;
      [UserLogin(u.id, u.name)]
    else []
  }

  /** The session after a line read at time `now`. */
  function LineState(s: State, raw: string, users: seq<UserRow>, dbOk: bool, now: int): (r: State)
    ensures r.timeoutMinutes == s.timeoutMinutes
    ensures !ClassifyLine(raw).Uid? ==> r == s
    ensures ClassifyLine(raw).Uid? && GetUserByRfid(ClassifyLine(raw).uid, users, dbOk).None? ==> r == s
    ensures ClassifyLine(raw).Uid? && GetUserByRfid(ClassifyLine(raw).uid, users, dbOk).Some? ==>
              r.userId == Some(GetUserByRfid(ClassifyLine(raw).uid, users, dbOk).value.id)
    ensures Coherent(s) ==> Coherent(r)
  {
    var k := ClassifyLine(raw);
    if k.Uid? && GetUserByRfid(k.uid, users, dbOk).Some? then Login(s, GetUserByRfid(k.uid, users, dbOk).value, now)
    else s
  }

  /**
   * One iteration of the inner loop of `start_rfid_serial_monitor` on the line
   * `raw`, read at time `now`: classify, and for a uid call `rfid_login`; the
   * session is untouched by every skipped line, and a refused login changes
   * nothing either.
   */
  method MonitorStep(api: Api, raw: string, users: seq<UserRow>, dbOk: bool, now: int) returns (k: LineKind)
    requires api.Valid()
    modifies api
    ensures api.Valid() && k == ClassifyLine(raw)
    ensures api.Snapshot() == LineState(old(api.Snapshot()), raw, users, dbOk, now)
    ensures api.events == old(api.events) + LineEvents(raw, users, dbOk)
  {
    var line := Strip(raw);
    if line == "" {
      return EmptyLine;
    }
    if !(Prefix <= line) {
      return NotRfid;
    }
    var uid := Strip(line[5..]);
    if uid == "" {
      return EmptyUid;
    }
    var _ := api.RfidLogin(uid, users, dbOk, now);
    k := Uid(uid);
  }

  /** The events a sequence of timed lines leads to: one login per recognised uid line, in order. */
  function MonitorEvents(lines: seq<(string, int)>, users: seq<UserRow>, dbOk: bool): (r: seq<Message>)
    ensures |r| <= |lines|
    decreases |lines|
  {
    if lines == [] then [] else LineEvents(lines[0].0, users, dbOk) + MonitorEvents(lines[1..], users, dbOk)
  }

  /** The session after a sequence of timed lines. */
  function MonitorState(s: State, lines: seq<(string, int)>, users: seq<UserRow>, dbOk: bool): (r: State)
    ensures r.timeoutMinutes == s.timeoutMinutes
    ensures Coherent(s) ==> Coherent(r)
    decreases |lines|
  {
    if lines == [] then s else MonitorState(LineState(s, lines[0].0, users, dbOk, lines[0].1), lines[1..], users, dbOk)
  }

  /** Lines that are all skipped leave no event. */
  lemma {:induction false} SkippedLinesAreSilent(lines: seq<(string, int)>, users: seq<UserRow>, dbOk: bool)
    requires forall i :: 0 <= i < |lines| ==> !ClassifyLine(lines[i].0).Uid?
    ensures MonitorEvents(lines, users, dbOk) == []
    decreases |lines|
  {
    if lines != [] {
      assert !ClassifyLine(lines[0].0).Uid?;
      SkippedLinesAreSilent(lines[1..], users, dbOk);
    }
  }

  /** Lines that are all skipped leave the session as it was. */
  lemma {:induction false} SkippedLinesKeepSession(s: State, lines: seq<(string, int)>, users: seq<UserRow>, dbOk: bool)
    requires forall i :: 0 <= i < |lines| ==> !ClassifyLine(lines[i].0).Uid?
    ensures MonitorState(s, lines, users, dbOk) == s
    decreases |lines|
  {
    if lines != [] {
      assert !ClassifyLine(lines[0].0).Uid?;
      SkippedLinesKeepSession(s, lines[1..], users, dbOk);
    }
  }

  /** The event part of the monitor's loop invariant survives the line at position `i`. */
  lemma {:induction false} EventsAdvance(ev0: seq<Message>, ev: seq<Message>, lines: seq<(string, int)>, i: nat,
                                         users: seq<UserRow>, dbOk: bool)
    requires i < |lines|
    requires ev + MonitorEvents(lines[i..], users, dbOk) == ev0 + MonitorEvents(lines, users, dbOk)
    ensures (ev + LineEvents(lines[i].0, users, dbOk)) + MonitorEvents(lines[i + 1..], users, dbOk)
            == ev0 + MonitorEvents(lines, users, dbOk)
  {
    SuffixStep(lines, i);
    EventsUnfold(lines[i..], users, dbOk);
    Regroup(ev, LineEvents(lines[i].0, users, dbOk), MonitorEvents(lines[i + 1..], users, dbOk));
  }

  lemma EventsUnfold(lines: seq<(string, int)>, users: seq<UserRow>, dbOk: bool)
    requires lines != []
    ensures MonitorEvents(lines, users, dbOk) == LineEvents(lines[0].0, users, dbOk) + MonitorEvents(lines[1..], users, dbOk)
  {
  }

  /** The state part of the monitor's loop invariant survives the line at position `i`. */
  lemma {:induction false} StateAdvances(s0: State, s: State, lines: seq<(string, int)>, i: nat,
                                         users: seq<UserRow>, dbOk: bool)
    requires i < |lines|
    requires MonitorState(s, lines[i..], users, dbOk) == MonitorState(s0, lines, users, dbOk)
    ensures MonitorState(LineState(s, lines[i].0, users, dbOk, lines[i].1), lines[i + 1..], users, dbOk)
            == MonitorState(s0, lines, users, dbOk)
  {
    SuffixStep(lines, i);
    StateUnfold(s, lines[i..], users, dbOk);
  }

  lemma StateUnfold(s: State, lines: seq<(string, int)>, users: seq<UserRow>, dbOk: bool)
    requires lines != []
    ensures MonitorState(s, lines, users, dbOk)
            == MonitorState(LineState(s, lines[0].0, users, dbOk, lines[0].1), lines[1..], users, dbOk)
  {
  }

  /** The monitor reading `lines` one after another, each with the time it arrived. */
  method Monitor(api: Api, lines: seq<(string, int)>, users: seq<UserRow>, dbOk: bool)
    requires api.Valid()
    modifies api
    ensures api.Valid()
    ensures api.events == old(api.events) + MonitorEvents(lines, users, dbOk)
    ensures api.Snapshot() == MonitorState(old(api.Snapshot()), lines, users, dbOk)
  {
    var i := 0;
    while i < |lines|
      invariant 0 <= i <= |lines| && api.Valid()
      invariant api.events + MonitorEvents(lines[i..], users, dbOk) == old(api.events) + MonitorEvents(lines, users, dbOk)
      invariant MonitorState(api.Snapshot(), lines[i..], users, dbOk) == MonitorState(old(api.Snapshot()), lines, users, dbOk)
    {
      ghost var before, state := api.events, api.Snapshot();
      EventsAdvance(old(api.events), before, lines, i, users, dbOk);
      StateAdvances(old(api.Snapshot()), state, lines, i, users, dbOk);
      var _ := MonitorStep(api, lines[i].0, users, dbOk, lines[i].1);
      i := i + 1;
    }
    assert lines[i..] == [];
  }
}
