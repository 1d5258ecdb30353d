/** Replay reconstructs what the recorder saw: `internal/book/recorder.go` against `internal/book/replay.go`. */
module Playback {
  import opened Machine
  import opened Lines
  import opened Tracking
  import opened Recording
  import opened Replaying
  import C = Continuity

  /** A frame that parses holds at least one record. */
  ghost predicate ParsesRecords(parse: seq<Byte> -> Parsing) {
    forall raw :: parse(raw).Parsed? ==> TrackRecords(NEW_TRACKER, parse(raw).frame).1 != []
  }

  predicate BookSynced(books: map<string, BookState>, s: string) {
    s in books && books[s].synced
  }

  predicate CursorSynced(t: Tracked, s: string) {
    s in t.books && t.books[s].synced
  }

  ghost predicate SyncAgrees(c: Core) {
    forall s :: BookSynced(c.books, s) <==> CursorSynced(c.t, s)
  }

  lemma SettleOneBook(c: Core, t: Tracked, r: BookRecord, atNS: int)
    requires SyncAgrees(c.(t := t))
    ensures var (next, v) := TrackBook(t, r);
            forall s :: BookSynced(if v.class_.Applied() then c.books[r.symbol := BookOf(r, atNS)] else c.books, s)
                        <==> CursorSynced(next, s)
  {
    var (next, v) := TrackBook(t, r);
    forall s
      ensures BookSynced(if v.class_.Applied() then c.books[r.symbol := BookOf(r, atNS)] else c.books, s)
              <==> CursorSynced(next, s)
    {
      assert BookSynced(c.books, s) <==> CursorSynced(t, s);
    }
  }

  lemma {:induction false} SettleBooks(c: Core, t: Tracked, rs: seq<BookRecord>, vs: seq<Verdict>, atNS: int, n: nat)
    requires n <= |rs| && vs == TrackBooks(t, rs).1
    requires SyncAgrees(c.(t := t))
    ensures SyncAgrees(Settle(c, BookFrame(rs), vs, atNS, n).(t := TrackBooks(t, rs[..n]).0))
  {
    if n > 0 {
      SettleBooks(c, t, rs, vs, atNS, n - 1);
      var before := Settle(c, BookFrame(rs), vs, atNS, n - 1);
      var t1 := TrackBooks(t, rs[..n - 1]).0;
      assert rs[..n][..n - 1] == rs[..n - 1];
      VerdictsAreLocal(t, rs, n);
      SettleOneBook(before, t1, rs[n - 1], atNS);
    }
  }

  lemma {:induction false} VerdictsAreLocal(t: Tracked, rs: seq<BookRecord>, n: nat)
    requires 0 < n <= |rs|
    ensures TrackBooks(t, rs).1[n - 1] == TrackBook(TrackBooks(t, rs[..n - 1]).0, rs[n - 1]).1
  {
    var m := |rs| - 1;
    if n <= m {
      VerdictsAreLocal(t, rs[..m], n);
      assert rs[..m][..n - 1] == rs[..n - 1];
    }
  }

  lemma {:induction false} SettleTrades(c: Core, rs: seq<TradeRecord>, vs: seq<Verdict>, atNS: int, n: nat)
    requires n <= |rs| == |vs|
    ensures var s := Settle(c, TradeFrame(rs), vs, atNS, n);
            && s.books == c.books && s.t == c.t
            && c.tape <= s.tape
            && SameTrades(s.tape[|c.tape|..], C.AppliedTrades(rs[..n], vs[..n]))
  {
    if n > 0 {
      SettleTrades(c, rs, vs, atNS, n - 1);
      assert rs[..n][..n - 1] == rs[..n - 1] && vs[..n][..n - 1] == vs[..n - 1];
      var before := Settle(c, TradeFrame(rs), vs, atNS, n - 1);
      var s := Settle(c, TradeFrame(rs), vs, atNS, n);
      if vs[n - 1].class_.Applied() {
        assert s.tape[|c.tape|..] == before.tape[|c.tape|..] + [TradeOf(rs[n - 1], atNS)];
      }
    }
  }

  /** The tape carries these trades, whenever each was received. */
  ghost predicate SameTrades(tape: seq<Trade>, rs: seq<TradeRecord>) {
    |tape| == |rs| && forall i :: 0 <= i < |rs| ==> tape[i] == TradeOf(rs[i], tape[i].atNS)
  }

  lemma {:induction false} SettleKeeps(c: Core, f: Frame, vs: seq<Verdict>, atNS: int, n: nat)
    requires Fits(f, vs) && n <= |vs|
    ensures var s := Settle(c, f, vs, atNS, n);
            s.t == c.t && s.session == c.session && s.sum.verdictMismatches == c.sum.verdictMismatches
    ensures f.BookFrame? ==> Settle(c, f, vs, atNS, n).tape == c.tape
  {
    if n > 0 {
      SettleKeeps(c, f, vs, atNS, n - 1);
    }
  }

  lemma {:induction false} TradesLeaveBooks(t: Tracked, rs: seq<TradeRecord>)
    ensures TrackTrades(t, rs).0.books == t.books
  {
    if rs != [] {
      TradesLeaveBooks(t, rs[..|rs| - 1]);
    }
  }

  lemma ParsedAgrees(c: Core, f: Frame, recorded: seq<Verdict>, atNS: int)
    requires SyncAgrees(c)
    ensures SyncAgrees(OnParsed(c, f, recorded, atNS))
  {
    var dated := OnDay(c.t, atNS);
    var tracked := TrackRecords(dated, f);
    var books := if NewDay(c.t, atNS) then Unsynced(c.books) else c.books;
    assert forall s :: BookSynced(books, s) <==> CursorSynced(dated, s) by {
      assert forall s :: BookSynced(c.books, s) <==> CursorSynced(c.t, s);
    }
    SettleKeeps(Core(tracked.0, books, c.tape, c.session, c.sum), f, tracked.1, atNS, |tracked.1|);
    match f
    case BookFrame(rs) => ParsedBooksAgree(c, rs, recorded, atNS, dated, books);
    case TradeFrame(rs) =>
      TradesLeaveBooks(dated, rs);
      ParsedTrades(c, rs, recorded, atNS);
      assert forall s :: CursorSynced(tracked.0, s) <==> CursorSynced(dated, s);
  }

  lemma ParsedBooksAgree(c: Core, rs: seq<BookRecord>, recorded: seq<Verdict>, atNS: int,
                         dated: Tracked, books: map<string, BookState>)
    requires dated == OnDay(c.t, atNS) && books == if NewDay(c.t, atNS) then Unsynced(c.books) else c.books
    requires forall s :: BookSynced(books, s) <==> CursorSynced(dated, s)
    ensures SyncAgrees(OnParsed(c, BookFrame(rs), recorded, atNS))
  {
    var tracked := TrackBooks(dated, rs);
    var frames := c.sum.(frames := c.sum.frames + 1);
    var checked := if SameVerdicts(tracked.1, recorded) then frames
                   else frames.(verdictMismatches := c.sum.verdictMismatches + 1);
    var next := Core(tracked.0, books, c.tape, c.session, checked);
    assert SyncAgrees(next.(t := dated));
    SettleBooks(next, dated, rs, tracked.1, atNS, |rs|);
    assert rs[..|rs|] == rs;
    SettleKeeps(next, BookFrame(rs), tracked.1, atNS, |rs|);
  }

  lemma ParsedTrades(c: Core, rs: seq<TradeRecord>, recorded: seq<Verdict>, atNS: int)
    ensures var s := OnParsed(c, TradeFrame(rs), recorded, atNS);
            && s.books == (if NewDay(c.t, atNS) then Unsynced(c.books) else c.books)
            && s.t == TrackTrades(OnDay(c.t, atNS), rs).0
            && c.tape <= s.tape
            && SameTrades(s.tape[|c.tape|..], C.AppliedTrades(rs, TrackTrades(OnDay(c.t, atNS), rs).1))
  {
    var tracked := TrackTrades(OnDay(c.t, atNS), rs);
    var frames := c.sum.(frames := c.sum.frames + 1);
    var checked := if SameVerdicts(tracked.1, recorded) then frames
                   else frames.(verdictMismatches := c.sum.verdictMismatches + 1);
    var next := Core(tracked.0, if NewDay(c.t, atNS) then Unsynced(c.books) else c.books, c.tape, c.session, checked);
    SettleTrades(next, rs, tracked.1, atNS, |rs|);
    assert rs[..|rs|] == rs && tracked.1[..|rs|] == tracked.1;
  }

  lemma LineAgrees(parse: seq<Byte> -> Parsing, c: Core, l: Line)
    requires SyncAgrees(c) && OnLine(parse, c, l).Ok?
    ensures SyncAgrees(OnLine(parse, c, l).value)
  {
    match l.body
    case FrameGot(_, raw, _, recorded) =>
      var parsed := parse(raw);
      if parsed.Parsed? {
        ParsedAgrees(c, parsed.frame, recorded, l.atNS);
      }
    case _ =>
  }

  /** After every line of every evidence file a replayed book is synced exactly when the tracker's cursor for it is. */
  lemma {:induction false} SyncedMeansTracked(parse: seq<Byte> -> Parsing, ls: seq<Line>)
    requires OnLines(parse, NEW_CORE, ls).Ok?
    ensures SyncAgrees(OnLines(parse, NEW_CORE, ls).value)
  {
    if ls != [] {
      SyncedMeansTracked(parse, ls[..|ls| - 1]);
      LineAgrees(parse, OnLines(parse, NEW_CORE, ls[..|ls| - 1]).value, ls[|ls| - 1]);
    }
  }

  ghost predicate AllStale(ls: seq<Line>) {
    forall l :: l in ls ==> l.v == FORMAT_VERSION && l.body.StaleMark?
  }

  /** Stale lines are counted and move nothing else. */
  lemma {:induction false} StaleLinesCount(parse: seq<Byte> -> Parsing, c: Core, ls: seq<Line>)
    requires c.session > 0 && AllStale(ls)
    ensures OnLines(parse, c, ls) == Ok(c.(sum := c.sum.(stale := c.sum.stale + |ls|)))
  {
    if ls != [] {
      assert ls[|ls| - 1] in ls;
      StaleLinesCount(parse, c, ls[..|ls| - 1]);
    }
  }

  lemma {:induction false} ArrivalsAreStale(r: Rec, tr: string, vs: seq<Verdict>, atNS: int) returns (more: seq<Line>)
    ensures Arrivals(r, tr, vs, atNS).lines == r.lines + more && AllStale(more)
    ensures Arrivals(r, tr, vs, atNS).t == r.t
  {
    if vs == [] {
      more := [];
    } else {
      more := ArrivalsAreStale(r, tr, vs[..|vs| - 1], atNS);
      var before, after := Arrivals(r, tr, vs[..|vs| - 1], atNS), Arrivals(r, tr, vs, atNS);
      if after.lines != before.lines {
        more := more + [after.lines[|before.lines|]];
      }
    }
  }

  lemma {:induction false} FlagsAreStale(r: Rec, keys: seq<StreamKey>, now: int) returns (more: seq<Line>)
    ensures Flag(r, keys, now).lines == r.lines + more && AllStale(more)
    ensures Flag(r, keys, now).t == r.t
  {
    if keys == [] {
      more := [];
    } else {
      more := FlagsAreStale(r, keys[..|keys| - 1], now);
      var before, after := Flag(r, keys[..|keys| - 1], now), Flag(r, keys, now);
      if after.lines != before.lines {
        more := more + [after.lines[|before.lines|]];
      }
    }
  }

  /** The tracker inputs a call amounts to. */
  function InputsOf(parse: seq<Byte> -> Parsing, call: Call): seq<C.Input> {
    match call
    case GotFrame(raw, atNS) =>
      var parsed := parse(raw);
      if parsed.Parsed? then [C.Received(parsed.frame, atNS)] else []
    case SocketBack(_, _) => [C.SocketBack]
    case Ticked(_, _) => []
  }

  function AllInputs(parse: seq<Byte> -> Parsing, calls: seq<Call>): seq<C.Input> {
    if calls == [] then []
    else AllInputs(parse, calls[..|calls| - 1]) + InputsOf(parse, calls[|calls| - 1])
  }

  /** `c` went on to `next` without a mismatch, and the tape grew by the trades the audit applied. */
  ghost predicate Followed(c: Core, next: Core, a: C.Audit, b: C.Audit) {
    && next.t == b.t
    && next.session == c.session
    && next.sum.verdictMismatches == c.sum.verdictMismatches
    && a.tape <= b.tape
    && c.tape <= next.tape
    && SameTrades(next.tape[|c.tape|..], b.tape[|a.tape|..])
  }

  lemma FrameReplays(parse: seq<Byte> -> Parsing, c: Core, r: Rec, a: C.Audit, f: Frame, raw: seq<Byte>, atNS: int)
    returns (more: seq<Line>)
    requires ParsesRecords(parse) && parse(raw) == Parsed(f)
    requires c.session > 0 && c.t == r.t == a.t
    ensures OnFrame(r, f, raw, atNS).lines == r.lines + more
    ensures OnLines(parse, c, more).Ok?
    ensures OnFrame(r, f, raw, atNS).t == OnLines(parse, c, more).value.t
    ensures Followed(c, OnLines(parse, c, more).value, a, C.OnInput(a, C.Received(f, atNS)))
  {
    var tracked := TrackRecords(OnDay(r.t, atNS), f);
    var front := ArrivalsAreStale(r.(t := tracked.0), TROf(f), tracked.1, atNS);
    StaleLinesCount(parse, c, front);
    var own := OnFrame(r, f, raw, atNS).lines[|r.lines| + |front|];
    more := front + [own];
    assert more[..|front|] == front;
    var flagged := c.(sum := c.sum.(stale := c.sum.stale + |front|));
    FrameFollows(flagged, a, f, tracked.1, atNS);
    assert parse(raw).frame == f && tracked.1 != [] by {
      assert TrackRecords(NEW_TRACKER, parse(raw).frame).1 != [];
    }
    assert OnLine(parse, flagged, own) == Ok(OnParsed(flagged, f, tracked.1, atNS));
  }

  lemma FrameFollows(c: Core, a: C.Audit, f: Frame, vs: seq<Verdict>, atNS: int)
    requires c.t == a.t && vs == TrackRecords(OnDay(c.t, atNS), f).1 && vs != []
    ensures Followed(c, OnParsed(c, f, vs, atNS), a, C.OnInput(a, C.Received(f, atNS)))
    ensures OnParsed(c, f, vs, atNS).t == TrackRecords(OnDay(c.t, atNS), f).0
  {
    var dated := OnDay(c.t, atNS);
    var tracked := TrackRecords(dated, f);
    var frames := c.sum.(frames := c.sum.frames + 1);
    var start := Core(tracked.0, if NewDay(c.t, atNS) then Unsynced(c.books) else c.books, c.tape, c.session, frames);
    SettleKeeps(start, f, vs, atNS, |vs|);
    match f
    case BookFrame(rs) =>
    case TradeFrame(rs) =>
      ParsedTrades(c, rs, vs, atNS);
      C.AuditFollows(a.(t := dated), rs);
      var b := C.OnInput(a, C.Received(f, atNS));
      assert b.tape[|a.tape|..] == C.AppliedTrades(rs, vs);
  }

  /** One call on the recorder: replaying the lines it wrote leaves the replayer's tracker where the recorder's is. */
  lemma CallReplays(parse: seq<Byte> -> Parsing, c: Core, r: Rec, a: C.Audit, call: Call) returns (more: seq<Line>)
    requires ParsesRecords(parse)
    requires c.session > 0 && c.t == r.t == a.t
    ensures OnCall(parse, r, call).lines == r.lines + more
    ensures OnLines(parse, c, more).Ok?
    ensures OnCall(parse, r, call).t == OnLines(parse, c, more).value.t
    ensures Followed(c, OnLines(parse, c, more).value, a, C.OnInputs(a, InputsOf(parse, call)))
  {
    match call
    case GotFrame(raw, atNS) =>
      var parsed := parse(raw);
      match parsed {
        case NotRealtime => more := [];
        case UnsupportedTR => more := [];
        case Damaged(tr, error) =>
          more := [Line(FORMAT_VERSION, r.seqNo + 1, atNS, FrameGot(tr, raw, Some(error), []))];
          assert more[..0] == [];
        case Parsed(f) =>
          more := FrameReplays(parse, c, r, a, f, raw, atNS);
          OneInput(a, C.Received(f, atNS));
      }
    case SocketBack(atNS, attempt) =>
      more := [Line(FORMAT_VERSION, r.seqNo + 1, atNS, ReconnectMark(attempt))];
      assert more[..0] == [];
      OneInput(a, C.SocketBack);
    case Ticked(now, keys) =>
      more := FlagsAreStale(r, keys, now);
      StaleLinesCount(parse, c, more);
  }

  lemma OneInput(a: C.Audit, i: C.Input)
    ensures C.OnInputs(a, [i]) == C.OnInput(a, i)
  {
    assert [i][..0] == [];
  }

  lemma {:induction false} InputsAppend(a: C.Audit, x: seq<C.Input>, y: seq<C.Input>)
    ensures C.OnInputs(a, x + y) == C.OnInputs(C.OnInputs(a, x), y)
  {
    if y == [] {
      assert x + y == x;
    } else {
      assert (x + y)[..|x + y| - 1] == x + y[..|y| - 1];
      InputsAppend(a, x, y[..|y| - 1]);
    }
  }

  function SessionOf(parse: seq<Byte> -> Parsing, staleAfter: int, now: int, calls: seq<Call>): Rec {
    OnCalls(parse, NewRec(staleAfter, now), calls)
  }

  /** What replaying a whole session after the lines that gave `c` amounts to. */
  ghost predicate SessionFollowed(parse: seq<Byte> -> Parsing, c: Core, next: Core, r: Rec, calls: seq<Call>) {
    && next.t == r.t
    && next.session == c.session + 1
    && next.sum.verdictMismatches == c.sum.verdictMismatches
    && c.tape <= next.tape
    && SameTrades(next.tape[|c.tape|..], C.OnInputs(C.NEW_AUDIT, AllInputs(parse, calls)).tape)
  }

  /**
   * Any sequence of recorder calls, replayed after any evidence: every line is accepted, no
   * verdict differs, the replayer's tracker ends equal to the recorder's, and the tape grew by
   * exactly the trades the session applied.
   */
  lemma {:induction false} SessionReplays(
      parse: seq<Byte> -> Parsing, c: Core, staleAfter: int, now: int, calls: seq<Call>)
    requires ParsesRecords(parse)
    ensures var r := SessionOf(parse, staleAfter, now, calls);
            && OnLines(parse, c, r.lines).Ok?
            && SessionFollowed(parse, c, OnLines(parse, c, r.lines).value, r, calls)
            && r.t == C.OnInputs(C.NEW_AUDIT, AllInputs(parse, calls)).t
  {
    if calls == [] {
      var r := NewRec(staleAfter, now);
      assert r.lines[..0] == [];
      assert C.OnInputs(C.NEW_AUDIT, []) == C.NEW_AUDIT;
    } else {
      var front, call := calls[..|calls| - 1], calls[|calls| - 1];
      SessionReplays(parse, c, staleAfter, now, front);
      var r := SessionOf(parse, staleAfter, now, front);
      var mid := OnLines(parse, c, r.lines).value;
      var a := C.OnInputs(C.NEW_AUDIT, AllInputs(parse, front));
      var more := CallReplays(parse, mid, r, a, call);
      OnLinesAppend(parse, c, r.lines, more);
      InputsAppend(C.NEW_AUDIT, AllInputs(parse, front), InputsOf(parse, call));
      var b := C.OnInputs(C.NEW_AUDIT, AllInputs(parse, calls));
      TapesJoin(c.tape, mid.tape, OnLines(parse, mid, more).value.tape, a.tape, b.tape);
    }
  }

  lemma TapesJoin(c: seq<Trade>, mid: seq<Trade>, next: seq<Trade>, a: seq<TradeRecord>, b: seq<TradeRecord>)
    requires c <= mid <= next && a <= b
    requires SameTrades(mid[|c|..], a) && SameTrades(next[|mid|..], b[|a|..])
    ensures c <= next && SameTrades(next[|c|..], b)
  {
    assert next[|c|..] == mid[|c|..] + next[|mid|..];
    assert b == a + b[|a|..];
  }

  lemma {:induction false} PrefixReplays(parse: seq<Byte> -> Parsing, c: Core, ls: seq<Line>, k: nat)
    requires k <= |ls| && OnLines(parse, c, ls).Ok?
    ensures OnLines(parse, c, ls[..k]).Ok?
    ensures c.sum.verdictMismatches <= OnLines(parse, c, ls[..k]).value.sum.verdictMismatches
            <= OnLines(parse, c, ls).value.sum.verdictMismatches
  {
    if k < |ls| {
      var m := |ls| - 1;
      assert ls[..m][..k] == ls[..k];
      PrefixReplays(parse, c, ls[..m], k);
      MismatchesGrow(parse, OnLines(parse, c, ls[..m]).value, ls[m]);
    } else {
      assert ls[..k] == ls;
      if ls != [] {
        PrefixReplays(parse, c, ls[..|ls| - 1], |ls| - 1);
        assert ls[..|ls| - 1][..|ls| - 1] == ls[..|ls| - 1];
        MismatchesGrow(parse, OnLines(parse, c, ls[..|ls| - 1]).value, ls[|ls| - 1]);
      }
    }
  }

  lemma MismatchesGrow(parse: seq<Byte> -> Parsing, c: Core, l: Line)
    requires OnLine(parse, c, l).Ok?
    ensures c.sum.verdictMismatches <= OnLine(parse, c, l).value.sum.verdictMismatches
  {
    match l.body
    case FrameGot(_, raw, _, recorded) =>
      var parsed := parse(raw);
      if parsed.Parsed? {
        var tracked := TrackRecords(OnDay(c.t, l.atNS), parsed.frame);
        var frames := c.sum.(frames := c.sum.frames + 1);
        var checked := if SameVerdicts(tracked.1, recorded) then frames
                       else frames.(verdictMismatches := c.sum.verdictMismatches + 1);
        var books := if NewDay(c.t, l.atNS) then Unsynced(c.books) else c.books;
        SettleKeeps(Core(tracked.0, books, c.tape, c.session, checked),
                    parsed.frame, tracked.1, l.atNS, |tracked.1|);
      }
    case _ =>
  }
}
