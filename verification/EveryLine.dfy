/**
 * Recorder and replayer line by line: where their trackers agree after a line, and where the
 * recorder has already moved on (`internal/book/recorder.go`, `internal/book/replay.go`).
 */
module EveryLine {
  import opened Lines
  import opened Tracking
  import opened Recording
  import opened Replaying
  import opened Playback
  import C = Continuity

  /** The recorder's tracker while a call writes its lines: every call tracks first and writes afterwards. */
  function WhileWriting(parse: seq<Byte> -> Parsing, r: Rec, call: Call): Tracked {
    match call
    case GotFrame(raw, atNS) =>
      var parsed := parse(raw);
      if parsed.Parsed? then TrackRecords(OnDay(r.t, atNS), parsed.frame).0 else r.t
    case SocketBack(_, _) => Reconnected(r.t)
    case Ticked(_, _) => r.t
  }

  /** At each of the lines a call writes, and after it, the recorder's tracker is `WhileWriting`. */
  lemma WritesAfterTracking(parse: seq<Byte> -> Parsing, r: Rec, call: Call)
    ensures OnCall(parse, r, call).t == WhileWriting(parse, r, call)
    ensures call.GotFrame? && parse(call.raw).Parsed? ==>
              var f := parse(call.raw).frame;
              var tracked := TrackRecords(OnDay(r.t, call.atNS), f);
              forall vs :: vs <= tracked.1 ==>
                Arrivals(r.(t := tracked.0), TROf(f), vs, call.atNS).t == WhileWriting(parse, r, call)
  {
    match call
    case GotFrame(raw, atNS) =>
      var parsed := parse(raw);
      if parsed.Parsed? {
        var tracked := TrackRecords(OnDay(r.t, atNS), parsed.frame);
        var all := ArrivalsAreStale(r.(t := tracked.0), TROf(parsed.frame), tracked.1, atNS);
        forall vs | vs <= tracked.1
          ensures Arrivals(r.(t := tracked.0), TROf(parsed.frame), vs, atNS).t == tracked.0
        {
          var some := ArrivalsAreStale(r.(t := tracked.0), TROf(parsed.frame), vs, atNS);
        }
      }
    case SocketBack(_, _) =>
    case Ticked(now, keys) =>
      var more := FlagsAreStale(r, keys, now);
  }

  /** The lines a call writes. */
  function LinesOf(parse: seq<Byte> -> Parsing, r: Rec, call: Call): seq<Line> {
    var all := OnCall(parse, r, call).lines;
    if |r.lines| <= |all| then all[|r.lines|..] else []
  }

  /** Whether a parsed frame's own line is still to come after its first `n` lines. */
  predicate OwnLinePending(parse: seq<Byte> -> Parsing, r: Rec, call: Call, n: nat) {
    call.GotFrame? && parse(call.raw).Parsed? && n < |LinesOf(parse, r, call)|
  }

  /**
   * After the first `n` lines of a call: the replayer's tracker is the recorder's, unless a
   * parsed frame's own line is still to come; then it is the recorder's from before the call.
   */
  ghost predicate TrackersRelate(parse: seq<Byte> -> Parsing, c: Core, r: Rec, call: Call, n: nat)
    requires n <= |LinesOf(parse, r, call)|
  {
    var res := OnLines(parse, c, LinesOf(parse, r, call)[..n]);
    && res.Ok?
    && res.value.t == (if OwnLinePending(parse, r, call, n) then r.t else WhileWriting(parse, r, call))
    && (res.value.t == WhileWriting(parse, r, call) <==>
        !OwnLinePending(parse, r, call, n) || WhileWriting(parse, r, call) == r.t)
  }

  lemma PendingLinesAreStale(parse: seq<Byte> -> Parsing, c: Core, r: Rec, f: Frame, raw: seq<Byte>, atNS: int, n: nat)
    requires c.session > 0 && c.t == r.t && parse(raw) == Parsed(f)
    requires n < |LinesOf(parse, r, GotFrame(raw, atNS))|
    ensures TrackersRelate(parse, c, r, GotFrame(raw, atNS), n)
  {
    var tracked := TrackRecords(OnDay(r.t, atNS), f);
    var front := ArrivalsAreStale(r.(t := tracked.0), TROf(f), tracked.1, atNS);
    var lines := LinesOf(parse, r, GotFrame(raw, atNS));
    assert lines[..n] == front[..n];
    forall l | l in front[..n]
      ensures l in front
    {
    }
    StaleLinesCount(parse, c, front[..n]);
  }

  lemma WholeCallRelates(parse: seq<Byte> -> Parsing, c: Core, r: Rec, call: Call)
    requires ParsesRecords(parse) && c.session > 0 && c.t == r.t
    ensures TrackersRelate(parse, c, r, call, |LinesOf(parse, r, call)|)
  {
    var more := CallReplays(parse, c, r, C.Audit(r.t, [], map[]), call);
    var lines := LinesOf(parse, r, call);
    assert lines == more && lines[..|lines|] == lines;
    WritesAfterTracking(parse, r, call);
  }

  lemma FlagsRelate(parse: seq<Byte> -> Parsing, c: Core, r: Rec, now: int, keys: seq<StreamKey>, n: nat)
    requires c.session > 0 && c.t == r.t && n <= |LinesOf(parse, r, Ticked(now, keys))|
    ensures TrackersRelate(parse, c, r, Ticked(now, keys), n)
  {
    var more := FlagsAreStale(r, keys, now);
    assert LinesOf(parse, r, Ticked(now, keys)) == more;
    forall l | l in more[..n]
      ensures l in more
    {
    }
    StaleLinesCount(parse, c, more[..n]);
  }

  /**
   * After every line of every call. A damaged frame, a reconnect and a tick agree after each of
   * their lines; a parsed frame agrees after its own line, and after an earlier one exactly when
   * it moved no cursor.
   */
  lemma EveryLineOfACall(parse: seq<Byte> -> Parsing, c: Core, r: Rec, call: Call, n: nat)
    requires ParsesRecords(parse) && c.session > 0 && c.t == r.t
    requires 0 < n <= |LinesOf(parse, r, call)|
    ensures TrackersRelate(parse, c, r, call, n)
  {
    if n == |LinesOf(parse, r, call)| {
      WholeCallRelates(parse, c, r, call);
    } else if call.GotFrame? && parse(call.raw).Parsed? {
      PendingLinesAreStale(parse, c, r, parse(call.raw).frame, call.raw, call.atNS, n);
    } else if call.Ticked? {
      FlagsRelate(parse, c, r, call.nowNS, call.keys, n);
    }
  }

  /**
   * The same inside a session after any earlier evidence: its calls so far, and the first `n` lines of
   * the next one.
   */
  lemma EveryLineOfASession(
      parse: seq<Byte> -> Parsing, c: Core, staleAfter: int, now: int, calls: seq<Call>, call: Call, n: nat)
    requires ParsesRecords(parse)
    requires 0 < n <= |LinesOf(parse, SessionOf(parse, staleAfter, now, calls), call)|
    ensures var r := SessionOf(parse, staleAfter, now, calls);
            var before := OnLines(parse, c, r.lines);
            && before.Ok? && before.value.t == r.t
            && TrackersRelate(parse, before.value, r, call, n)
            && OnLines(parse, c, r.lines + LinesOf(parse, r, call)[..n])
               == OnLines(parse, before.value, LinesOf(parse, r, call)[..n])
            && SessionOf(parse, staleAfter, now, calls + [call]).lines == r.lines + LinesOf(parse, r, call)
  {
    var r := SessionOf(parse, staleAfter, now, calls);
    SessionReplays(parse, c, staleAfter, now, calls);
    var before := OnLines(parse, c, r.lines).value;
    EveryLineOfACall(parse, before, r, call, n);
    OnLinesAppend(parse, c, r.lines, LinesOf(parse, r, call)[..n]);
    assert (calls + [call])[..|calls|] == calls;
    CallExtends(parse, r, call);
    var all := OnCall(parse, r, call).lines;
    assert all == all[..|r.lines|] + all[|r.lines|..];
  }

  // ---------------------------------------------------------------- a session where they differ

  const FIRST_TRADE := TradeRecord("A", "090000", 100, 1, 1, "buy", "first")

  const LATER_TRADE := TradeRecord("A", "090003", 100, 1, 2, "buy", "later")

  function ParseSample(raw: seq<Byte>): Parsing {
    if raw == [1] then Parsed(TradeFrame([FIRST_TRADE]))
    else if raw == [2] then Parsed(TradeFrame([LATER_TRADE]))
    else NotRealtime
  }

  lemma OneTrade(t: Tracked, x: TradeRecord)
    ensures TrackTrades(t, [x]).0 == TrackTrade(t, x).0
    ensures TrackTrades(t, [x]).1 == [TrackTrade(t, x).1]
  {
    var rs := [x];
    assert rs[..|rs| - 1] == [];
    var front := TrackTrades(t, []);
    assert front.0 == t && front.1 == [];
  }

  lemma SampleParses()
    ensures ParsesRecords(ParseSample)
  {
    OneTrade(NEW_TRACKER, FIRST_TRADE);
    OneTrade(NEW_TRACKER, LATER_TRADE);
  }

  lemma OneArrival(r: Rec, tr: string, v: Verdict, atNS: int)
    ensures Arrivals(r, tr, [v], atNS) == Arrive(r, StreamKey(tr, v.symbol), atNS)
  {
    assert [v][..0] == [];
  }

  lemma SampleFirst() returns (r: Rec)
    ensures r == SessionOf(ParseSample, 0, 0, [GotFrame([1], 0)])
    ensures r.t == Tracked(map[], map["A" := TradeCursor(1, "first", false, false)], 0)
    ensures r.streams == map[StreamKey(TR_TRADE, "A") := StreamState(0, false)]
    ensures r.staleAfter == DEFAULT_STALE_AFTER_NS
  {
    var calls := [GotFrame([1], 0)];
    assert calls[..0] == [];
    var r0 := NewRec(0, 0);
    assert SessionOf(ParseSample, 0, 0, []) == r0;
    OneTrade(NEW_TRACKER, FIRST_TRADE);
    var v := TrackTrade(NEW_TRACKER, FIRST_TRADE).1;
    OneArrival(r0.(t := TrackTrade(NEW_TRACKER, FIRST_TRADE).0), TR_TRADE, v, 0);
    r := OnCall(ParseSample, r0, GotFrame([1], 0));
  }

  /**
   * A trade, three seconds of silence, another trade of the symbol: right after the line of the
   * silence, the replayer still has the first trade's volume and the recorder the second's.
   */
  lemma TrackersDifferAfterAStaleLine()
    ensures ParsesRecords(ParseSample)
    ensures var r := SessionOf(ParseSample, 0, 0, [GotFrame([1], 0)]);
            var call := GotFrame([2], 3_000_000_000);
            && |LinesOf(ParseSample, r, call)| == 2 && LinesOf(ParseSample, r, call)[0].body.StaleMark?
            && var res := OnLines(ParseSample, NEW_CORE, r.lines + LinesOf(ParseSample, r, call)[..1]);
            && res.Ok? && res.value.t != WhileWriting(ParseSample, r, call)
  {
    SampleParses();
    var r := SampleFirst();
    var call := GotFrame([2], 3_000_000_000);
    OneTrade(r.t, LATER_TRADE);
    var tracked := TrackTrade(r.t, LATER_TRADE);
    OneArrival(r.(t := tracked.0), TR_TRADE, tracked.1, 3_000_000_000);
    assert |LinesOf(ParseSample, r, call)| == 2;
    assert WhileWriting(ParseSample, r, call).trades["A"].acml == 2;
    EveryLineOfASession(ParseSample, NEW_CORE, 0, 0, [GotFrame([1], 0)], call, 1);
  }
}
