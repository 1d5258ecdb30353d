/** The evidence recorder: `internal/book/recorder.go`, and the line type of `internal/book/evidence.go`. */
module Recording {
  import opened Machine
  import opened Lines
  import opened Tracking

  const FORMAT_VERSION := 1

  const DEFAULT_STALE_AFTER_NS := 2_000_000_000

  const TR_BOOK := "H0STASP0"

  const TR_TRADE := "H0STCNT0"

  /** What `ParseFrame` makes of a raw frame; `Damaged` is a book or trade frame kept with its error. */
  datatype Parsing = NotRealtime | UnsupportedTR | Damaged(tr: string, error: string) | Parsed(frame: Frame)

  function TROf(f: Frame): string {
    if f.BookFrame? then TR_BOOK else TR_TRADE
  }

  datatype Body =
    | SessionStart(staleAfterMS: int)
    | FrameGot(tr: string, raw: seq<Byte>, error: Option<string>, verdicts: seq<Verdict>)
    | ReconnectMark(attempt: int)
    | StaleMark(staleTR: string, symbol: string, sinceNS: int)
    | OtherKind(kind: string)

  datatype Line = Line(v: int, seqNo: nat, atNS: int, body: Body)

  datatype StreamKey = StreamKey(tr: string, symbol: string)

  datatype StreamState = StreamState(lastNS: int, stale: bool)

  /** A recorder whose writer never fails: its state and every line of the session. */
  datatype Rec = Rec(
    staleAfter: int, seqNo: nat, t: Tracked, streams: map<StreamKey, StreamState>, lines: seq<Line>)

  function Wrote(r: Rec, atNS: int, body: Body): Rec {
    r.(seqNo := r.seqNo + 1, lines := r.lines + [Line(FORMAT_VERSION, r.seqNo + 1, atNS, body)])
  }

  function NewRec(staleAfter: int, now: int): Rec {
    var after := if staleAfter <= 0 then DEFAULT_STALE_AFTER_NS else staleAfter;
    Wrote(Rec(after, 0, NEW_TRACKER, map[], []), now, SessionStart(after / 1_000_000))
  }

  function Arrive(r: Rec, key: StreamKey, atNS: int): Rec {
    if key !in r.streams then r.(streams := r.streams[key := StreamState(atNS, false)])
    else
      var s := r.streams[key];
      var flagged := if !s.stale && atNS - s.lastNS > r.staleAfter
                     then Wrote(r, atNS, StaleMark(key.tr, key.symbol, s.lastNS)) else r;
      flagged.(streams := r.streams[key := StreamState(atNS, false)])
  }

  function Arrivals(r: Rec, tr: string, vs: seq<Verdict>, atNS: int): Rec {
    if vs == [] then r
    else Arrive(Arrivals(r, tr, vs[..|vs| - 1], atNS), StreamKey(tr, vs[|vs| - 1].symbol), atNS)
  }

  predicate Silent(r: Rec, key: StreamKey, now: int) {
    key in r.streams && !r.streams[key].stale && now - r.streams[key].lastNS > r.staleAfter
  }

  function Flag(r: Rec, keys: seq<StreamKey>, now: int): Rec {
    if keys == [] then r
    else
      var front := Flag(r, keys[..|keys| - 1], now);
      var key := keys[|keys| - 1];
      if key !in front.streams then front
      else
        var s := front.streams[key];
        Wrote(front.(streams := front.streams[key := s.(stale := true)]), now, StaleMark(key.tr, key.symbol, s.lastNS))
  }

  /** A call on the recorder; a tick carries the silent streams in the order it flags them. */
  datatype Call =
    | GotFrame(raw: seq<Byte>, atNS: int)
    | SocketBack(atNS: int, attempt: int)
    | Ticked(nowNS: int, keys: seq<StreamKey>)

  function OnFrame(r: Rec, f: Frame, raw: seq<Byte>, atNS: int): Rec {
    var tracked := TrackRecords(OnDay(r.t, atNS), f);
    var arrived := Arrivals(r.(t := tracked.0), TROf(f), tracked.1, atNS);
    Wrote(arrived, atNS, FrameGot(TROf(f), raw, None, tracked.1))
  }

  function OnCall(parse: seq<Byte> -> Parsing, r: Rec, call: Call): Rec {
    match call
    case GotFrame(raw, atNS) =>
      (match parse(raw)
       case NotRealtime => r
       case UnsupportedTR => r
       case Damaged(tr, error) => Wrote(r, atNS, FrameGot(tr, raw, Some(error), []))
       case Parsed(f) => OnFrame(r, f, raw, atNS))
    case SocketBack(atNS, attempt) => Wrote(r.(t := Reconnected(r.t)), atNS, ReconnectMark(attempt))
    case Ticked(now, keys) => Flag(r, keys, now)
  }

  function OnCalls(parse: seq<Byte> -> Parsing, r: Rec, calls: seq<Call>): Rec {
    if calls == [] then r else OnCall(parse, OnCalls(parse, r, calls[..|calls| - 1]), calls[|calls| - 1])
  }

  /** No call takes a line back. */
  lemma {:induction false} ArrivalsExtend(r: Rec, tr: string, vs: seq<Verdict>, atNS: int)
    ensures r.lines <= Arrivals(r, tr, vs, atNS).lines
  {
    if vs != [] {
      ArrivalsExtend(r, tr, vs[..|vs| - 1], atNS);
    }
  }

  lemma {:induction false} FlagExtends(r: Rec, keys: seq<StreamKey>, now: int)
    ensures r.lines <= Flag(r, keys, now).lines
  {
    if keys != [] {
      FlagExtends(r, keys[..|keys| - 1], now);
    }
  }

  lemma CallExtends(parse: seq<Byte> -> Parsing, r: Rec, call: Call)
    ensures r.lines <= OnCall(parse, r, call).lines
  {
    match call
    case GotFrame(raw, atNS) =>
      var parsed := parse(raw);
      if parsed.Parsed? {
        var tracked := TrackRecords(OnDay(r.t, atNS), parsed.frame);
        ArrivalsExtend(r.(t := tracked.0), TROf(parsed.frame), tracked.1, atNS);
      }
    case SocketBack(_, _) =>
    case Ticked(now, keys) => FlagExtends(r, keys, now);
  }

  lemma JoinedPrefix(c: Codec<Line>, a: seq<Line>, b: seq<Line>)
    requires a <= b
    ensures Joined(c, a) <= Joined(c, b)
  {
    JoinedGrows(c, b, |a|);
    assert b[..|a|] == a;
  }

  /** Bytes of one more line after `before` extend what the session holds by as much of the line as arrived. */
  lemma OneMoreLine(c: Codec<Line>, base: seq<Byte>, before: seq<Byte>, lines: seq<Line>, l: Line, n: nat)
    requires n <= |Terminated(c, l)| && before == base + Joined(c, lines)
    ensures var data := before + Terminated(c, l)[..n];
            && base <= data
            && data[|base|..] <= Joined(c, lines + [l])
            && (n == |Terminated(c, l)| ==> data == base + Joined(c, lines + [l]))
  {
    var data, b := before + Terminated(c, l)[..n], Terminated(c, l);
    assert (lines + [l])[..|lines|] == lines;
    assert data[|base|..] == Joined(c, lines) + b[..n];
    assert data[..|base|] == base;
  }

  /** The order in which a tick flags. */
  predicate KeyBefore(a: StreamKey, b: StreamKey) {
    if a.tr != b.tr then Before(a.tr, b.tr) else Before(a.symbol, b.symbol)
  }

  ghost predicate InOrder(keys: seq<StreamKey>) {
    forall i, j :: 0 <= i < j < |keys| ==> KeyBefore(keys[i], keys[j])
  }

  lemma KeyOrder(a: StreamKey, b: StreamKey, c: StreamKey)
    ensures a == b || KeyBefore(a, b) || KeyBefore(b, a)
    ensures KeyBefore(a, b) && KeyBefore(b, c) ==> KeyBefore(a, c)
  {
    BeforeIsTotal(a.tr, b.tr);
    BeforeIsTotal(a.symbol, b.symbol);
    BeforeIsTotal(a.tr, a.tr);
    if KeyBefore(a, b) && KeyBefore(b, c) {
      if a.tr == b.tr == c.tr {
        BeforeIsTransitive(a.symbol, b.symbol, c.symbol);
      } else if a.tr != b.tr && b.tr != c.tr {
        BeforeIsTransitive(a.tr, b.tr, c.tr);
      }
    }
  }

  /** Puts a key in its place. */
  method Insert(keys: seq<StreamKey>, key: StreamKey) returns (more: seq<StreamKey>)
    requires InOrder(keys) && key !in keys
    ensures InOrder(more)
    ensures forall k :: k in more <==> k in keys || k == key
  {
    var i := 0;
    while i < |keys| && KeyBefore(keys[i], key)
      invariant i <= |keys|
      invariant forall j :: 0 <= j < i ==> KeyBefore(keys[j], key)
    {
      i := i + 1;
    }
    forall j | i <= j < |keys| ensures KeyBefore(key, keys[j]) {
      KeyOrder(keys[i], key, key);
      if i < j {
        KeyOrder(key, keys[i], keys[j]);
      }
    }
    more := keys[..i] + [key] + keys[i..];
  }

  /** Where the evidence goes: it takes `room` more bytes and then fails. */
  class Writer {
    var data: seq<Byte>
    var room: nat

    constructor (found: seq<Byte>, room: nat)
      ensures data == found && this.room == room
    {
      data, this.room := found, room;
    }

    method Write(b: seq<Byte>) returns (ok: bool)
      modifies this
      ensures ok <==> |b| <= old(room)
      ensures data == old(data) + if ok then b else b[..old(room)]
    {
      ok := |b| <= room;
      var n := if ok then |b| else room;
      data, room := data + b[..n], room - n;
    }
  }

  class Recorder {
    const codec: Codec<Line>
    const parse: seq<Byte> -> Parsing
    const staleAfter: int
    const w: Writer
    const tracker: Tracker
    var seqNo: nat
    var streams: map<StreamKey, StreamState>
    var err: bool
    ghost const base: seq<Byte>  // what the writer held before this session
    ghost var full: Rec          // the same session on a writer that never fails

    /** The writer holds a byte prefix of the full session, all of it while no write has failed. */
    ghost predicate Valid()
      reads this, w, tracker
    {
      && base <= w.data
      && w.data[|base|..] <= Joined(codec, full.lines)
      && (!err ==> w.data == base + Joined(codec, full.lines))
      && (!err ==> full == Rec(staleAfter, seqNo, tracker.View(), streams, full.lines))
    }

    constructor (codec: Codec<Line>, parse: seq<Byte> -> Parsing, w: Writer, staleAfter: int, now: int)
      modifies w
      ensures Valid() && full == NewRec(staleAfter, now) && base == old(w.data)
      ensures this.codec == codec && this.parse == parse && this.w == w && fresh(tracker)
    {
      var after := if staleAfter <= 0 then DEFAULT_STALE_AFTER_NS else staleAfter;
      var t := new Tracker();
      this.codec, this.parse, this.staleAfter, this.w, this.tracker := codec, parse, after, w, t;
      seqNo, streams, err := 0, map[], false;
      base, full := w.data, Rec(after, 0, NEW_TRACKER, map[], []);
      new;
      WriteLine(now, SessionStart(after / 1_000_000));
    }

    /** `write`: the first failure is kept, and nothing is written after it. */
    method WriteLine(atNS: int, body: Body)
      requires Valid()
      modifies this, w
      ensures Valid() && full == Wrote(old(full), atNS, body)
      ensures old(err) ==> err && w.data == old(w.data)
      ensures streams == old(streams)
    {
      ghost var was := full;
      full := Wrote(was, atNS, body);
      JoinedPrefix(codec, was.lines, full.lines);
      if err {
        return;
      }
      seqNo := seqNo + 1;
      var l := Line(FORMAT_VERSION, seqNo, atNS, body);
      var b := Terminated(codec, l);
      OneMoreLine(codec, base, w.data, was.lines, l, if |b| <= w.room then |b| else w.room);
      assert b[..|b|] == b;
      var ok := w.Write(b);
      err := !ok;
    }

    /** `arrive`: a silence the ticker has not flagged gets its line before the frame that ended it. */
    method Arrives(key: StreamKey, atNS: int)
      requires Valid()
      modifies this, w
      ensures Valid() && full == Arrive(old(full), key, atNS)
      ensures old(err) ==> err && w.data == old(w.data)
    {
      ghost var was := full;
      ghost var next := Arrive(full, key, atNS);
      if key in streams {
        var s := streams[key];
        if !s.stale && atNS - s.lastNS > staleAfter {
          WriteLine(atNS, StaleMark(key.tr, key.symbol, s.lastNS));
        }
      }
      streams := streams[key := StreamState(atNS, false)];
      JoinedPrefix(codec, was.lines, next.lines);
      full := next;
    }

    /** `Frame`: tracked first, then the lines of the silences it ends, then its own line with the verdicts. */
    method Frame(raw: seq<Byte>, atNS: int) returns (ok: bool)
      requires Valid()
      modifies this, w, tracker
      ensures Valid() && full == OnCall(parse, old(full), GotFrame(raw, atNS))
      ensures ok == !err && (old(err) ==> err && w.data == old(w.data))
    {
      var parsed := parse(raw);
      if parsed.NotRealtime? || parsed.UnsupportedTR? {
        return !err;
      }
      if err {
        CallExtends(parse, full, GotFrame(raw, atNS));
        JoinedPrefix(codec, full.lines, OnCall(parse, full, GotFrame(raw, atNS)).lines);
        full := OnCall(parse, full, GotFrame(raw, atNS));
        return false;
      }
      if parsed.Damaged? {
        WriteLine(atNS, FrameGot(parsed.tr, raw, Some(parsed.error), []));
        return !err;
      }
      var verdicts, newDay := tracker.OnFrame(parsed.frame, atNS);
      full := full.(t := tracker.View());
      ghost var tracked := full;
      var tr := TROf(parsed.frame);
      var i := 0;
      while i < |verdicts|
        invariant i <= |verdicts| && Valid()
        invariant full == Arrivals(tracked, tr, verdicts[..i], atNS)
      {
        Arrives(StreamKey(tr, verdicts[i].symbol), atNS);
        assert verdicts[..i + 1][..i] == verdicts[..i];
        i := i + 1;
      }
      assert verdicts[..i] == verdicts;
      WriteLine(atNS, FrameGot(tr, raw, None, verdicts));
      ok := !err;
    }

    method Reconnect(atNS: int, attempt: int) returns (ok: bool)
      requires Valid()
      modifies this, w, tracker
      ensures Valid() && full == OnCall(parse, old(full), SocketBack(atNS, attempt))
      ensures ok == !err && (old(err) ==> err && w.data == old(w.data))
    {
      if err {
        JoinedPrefix(codec, full.lines, OnCall(parse, full, SocketBack(atNS, attempt)).lines);
        full := OnCall(parse, full, SocketBack(atNS, attempt));
        return false;
      }
      tracker.Reconnect();
      full := full.(t := tracker.View());
      WriteLine(atNS, ReconnectMark(attempt));
      ok := !err;
    }

    /** The streams a tick flags, by transaction and symbol. */
    method Overdue(now: int) returns (keys: seq<StreamKey>)
      ensures InOrder(keys)
      ensures forall k :: k in keys <==> Silent(Rec(staleAfter, seqNo, NEW_TRACKER, streams, []), k, now)
    {
      keys := [];
      ghost var r := Rec(staleAfter, seqNo, NEW_TRACKER, streams, []);
      var todo := streams.Keys;
      while todo != {}
        invariant todo <= streams.Keys && InOrder(keys)
        invariant forall k :: k in keys <==> k !in todo && Silent(r, k, now)
        decreases |todo|
      {
        var key :| key in todo;
        var s := streams[key];
        if !s.stale && now - s.lastNS > staleAfter {
          keys := Insert(keys, key);
        }
        todo := todo - {key};
      }
    }

    /** The body of the loop of `Tick`. */
    method FlagOne(key: StreamKey, now: int, ghost was: Rec, ghost keys: seq<StreamKey>)
      requires Valid() && key in streams
      requires keys != [] && keys[|keys| - 1] == key && full == Flag(was, keys[..|keys| - 1], now)
      modifies this, w
      ensures Valid() && full == Flag(was, keys, now)
      ensures streams.Keys == old(streams).Keys
    {
      ghost var before := full;
      ghost var next := Flag(was, keys, now);
      JoinedPrefix(codec, before.lines, next.lines);
      var s := streams[key];
      streams := streams[key := s.(stale := true)];
      if err {
        full := next;
        return;
      }
      full := full.(streams := streams);
      WriteLine(now, StaleMark(key.tr, key.symbol, s.lastNS));
      assert full == next;
    }

    /** `Tick`: every stream silent for too long is flagged, once per silence. */
    method Tick(now: int) returns (ok: bool, ghost keys: seq<StreamKey>)
      requires Valid()
      modifies this, w
      ensures Valid() && full == OnCall(parse, old(full), Ticked(now, keys))
      ensures ok == !err && (old(err) ==> err && w.data == old(w.data))
      ensures !old(err) ==> InOrder(keys) && forall k :: k in keys <==> Silent(old(full), k, now)
    {
      keys := [];
      if err {
        return false, [];
      }
      var overdue := Overdue(now);
      keys := overdue;
      ghost var was := full;
      var i := 0;
      while i < |overdue|
        invariant i <= |overdue| && Valid()
        invariant full == Flag(was, overdue[..i], now)
        invariant streams.Keys == old(streams).Keys
      {
        assert overdue[..i + 1][..i] == overdue[..i];
        assert overdue[i] in overdue;
        FlagOne(overdue[i], now, was, overdue[..i + 1]);
        i := i + 1;
      }
      assert overdue[..i] == overdue;
      ok := !err;
    }
  }
}
