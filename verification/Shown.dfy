/**
 * What a replay shows: every book its last applied snapshot, the tape every applied trade, each
 * with its own prices and time, and a summary that adds up (`internal/book/replay.go`).
 */
module Shown {
  import opened Machine
  import opened Lines
  import opened Tracking
  import opened Recording
  import opened Replaying

  /** A record that its verdict applied, at the time of its frame. */
  datatype Applied = Snapshot(book: BookRecord, atNS: int) | Print(trade: TradeRecord, atNS: int)

  /** The record a verdict applies, if it does. */
  function AppliedAt(f: Frame, v: Verdict, atNS: int, k: nat): seq<Applied>
    requires k < if f.BookFrame? then |f.books| else |f.trades|
  {
    if v.class_ in {ClassDuplicate, ClassRegress} then []
    else if f.BookFrame? then [Snapshot(f.books[k], atNS)] else [Print(f.trades[k], atNS)]
  }

  /** The applied records among the first `n` of a frame. */
  function AppliedIn(f: Frame, vs: seq<Verdict>, atNS: int, n: nat): seq<Applied>
    requires Fits(f, vs) && n <= |vs|
  {
    if n == 0 then []
    else
      AppliedIn(f, vs, atNS, n - 1) + AppliedAt(f, vs[n - 1], atNS, n - 1)
  }

  /** The trades among them, as the tape holds them. */
  function Tape(apps: seq<Applied>): seq<Trade> {
    if apps == [] then []
    else
      var n := |apps| - 1;
      Tape(apps[..n]) +
      match apps[n]
      case Snapshot(_, _) => []
      case Print(r, atNS) => [Trade(r.symbol, r.hour, r.price, r.qty, r.acmlVol, r.side, atNS)]
  }

  /** The last of them that is a snapshot of `symbol`. */
  function LastSnapshot(apps: seq<Applied>, symbol: string): Option<(BookRecord, int)> {
    if apps == [] then None
    else
      var n := |apps| - 1;
      if apps[n].Snapshot? && apps[n].book.symbol == symbol then Some((apps[n].book, apps[n].atNS))
      else LastSnapshot(apps[..n], symbol)
  }

  /** The book of `symbol` is its last applied snapshot, or what it was; `synced` is another matter. */
  predicate BookShown(
      before: map<string, BookState>, after: map<string, BookState>, apps: seq<Applied>, symbol: string)
  {
    match LastSnapshot(apps, symbol)
    case Some((r, atNS)) =>
      symbol in after &&
      after[symbol] == BookState(symbol, r.hour, r.asks, r.bids, r.totalAsk, r.totalBid, atNS, after[symbol].synced)
    case None =>
      && (symbol in after <==> symbol in before)
      && (symbol in before ==> after[symbol] == before[symbol].(synced := after[symbol].synced))
  }

  function CountOf(vs: seq<Verdict>, c: Class): nat {
    if vs == [] then 0 else CountOf(vs[..|vs| - 1], c) + if vs[|vs| - 1].class_ == c then 1 else 0
  }

  function MissingOf(vs: seq<Verdict>): int {
    if vs == [] then 0
    else MissingOf(vs[..|vs| - 1]) + if vs[|vs| - 1].class_ == ClassGap then vs[|vs| - 1].missingVol else 0
  }

  /** The summary has moved by what the verdicts say. */
  predicate AddsUp(before: Summary, after: Summary, vs: seq<Verdict>) {
    && after.records == before.records + |vs|
    && after.applied == before.applied + CountOf(vs, ClassOK) + CountOf(vs, ClassGap)
    && after.duplicates == before.duplicates + CountOf(vs, ClassDuplicate)
    && after.regressed == before.regressed + CountOf(vs, ClassRegress)
    && after.gaps == before.gaps + CountOf(vs, ClassGap)
    && after.missingVol == before.missingVol + MissingOf(vs)
  }

  /** From `c` to `e`: books, tape and summary have moved by the applied records and the verdicts, and no more. */
  ghost predicate Shows(c: Core, e: Core, apps: seq<Applied>, vs: seq<Verdict>) {
    && e.tape == c.tape + Tape(apps)
    && (forall s :: BookShown(c.books, e.books, apps, s))
    && AddsUp(c.sum, e.sum, vs)
  }

  // ---------------------------------------------------------------- one after the other

  lemma {:induction false} TapeJoins(a: seq<Applied>, b: seq<Applied>)
    ensures Tape(a + b) == Tape(a) + Tape(b)
  {
    if b == [] {
      assert a + b == a;
    } else {
      var n := |b| - 1;
      TapeJoins(a, b[..n]);
      assert (a + b)[..|a + b| - 1] == a + b[..n];
    }
  }

  lemma {:induction false} LastSnapshotJoins(a: seq<Applied>, b: seq<Applied>, s: string)
    ensures LastSnapshot(a + b, s) == if LastSnapshot(b, s).Some? then LastSnapshot(b, s) else LastSnapshot(a, s)
  {
    if b == [] {
      assert a + b == a;
    } else {
      var n := |b| - 1;
      LastSnapshotJoins(a, b[..n], s);
      assert (a + b)[..|a + b| - 1] == a + b[..n];
    }
  }

  lemma {:induction false} CountsJoin(a: seq<Verdict>, b: seq<Verdict>, c: Class)
    ensures CountOf(a + b, c) == CountOf(a, c) + CountOf(b, c) && MissingOf(a + b) == MissingOf(a) + MissingOf(b)
  {
    if b == [] {
      assert a + b == a;
    } else {
      var n := |b| - 1;
      CountsJoin(a, b[..n], c);
      assert (a + b)[..|a + b| - 1] == a + b[..n];
    }
  }

  lemma AddsUpJoins(x: Summary, y: Summary, z: Summary, v: seq<Verdict>, u: seq<Verdict>)
    requires AddsUp(x, y, v) && AddsUp(y, z, u)
    ensures AddsUp(x, z, v + u)
  {
    CountsJoin(v, u, ClassOK);
    CountsJoin(v, u, ClassGap);
    CountsJoin(v, u, ClassDuplicate);
    CountsJoin(v, u, ClassRegress);
  }

  lemma BookJoins(
      x: map<string, BookState>, y: map<string, BookState>, z: map<string, BookState>, a: seq<Applied>, b: seq<Applied>,
      s: string)
    requires BookShown(x, y, a, s) && BookShown(y, z, b, s)
    ensures BookShown(x, z, a + b, s)
  {
    LastSnapshotJoins(a, b, s);
  }

  lemma ShowsJoins(c: Core, d: Core, e: Core, a: seq<Applied>, b: seq<Applied>, v: seq<Verdict>, u: seq<Verdict>)
    requires Shows(c, d, a, v) && Shows(d, e, b, u)
    ensures Shows(c, e, a + b, v + u)
  {
    TapeJoins(a, b);
    AddsUpJoins(c.sum, d.sum, e.sum, v, u);
    forall s
      ensures BookShown(c.books, e.books, a + b, s)
    {
      BookJoins(c.books, d.books, e.books, a, b, s);
    }
  }

  /** Nothing applied: books keep all but their synced marks. */
  lemma NothingShown(c: Core, e: Core)
    requires e.tape == c.tape && (e.books == c.books || e.books == Unsynced(c.books)) && AddsUp(c.sum, e.sum, [])
    ensures Shows(c, e, [], [])
  {
  }

  // ---------------------------------------------------------------- one frame

  /** The replayer on one record under its verdict. */
  function RecordOn(c: Core, f: Frame, v: Verdict, atNS: int, k: nat): Core
    requires k < if f.BookFrame? then |f.books| else |f.trades|
  {
    var counted := c.(sum := Counted(c.sum, v));
    if !v.class_.Applied() then counted
    else if f.BookFrame? then counted.(books := c.books[f.books[k].symbol := BookOf(f.books[k], atNS)])
    else counted.(tape := c.tape + [TradeOf(f.trades[k], atNS)])
  }

  lemma SettleIsRecords(c: Core, f: Frame, vs: seq<Verdict>, atNS: int, n: nat)
    requires Fits(f, vs) && 0 < n <= |vs|
    ensures Settle(c, f, vs, atNS, n) == RecordOn(Settle(c, f, vs, atNS, n - 1), f, vs[n - 1], atNS, n - 1)
  {
  }

  lemma RecordShown(c: Core, f: Frame, v: Verdict, atNS: int, k: nat)
    requires k < if f.BookFrame? then |f.books| else |f.trades|
    ensures Shows(c, RecordOn(c, f, v, atNS, k), AppliedAt(f, v, atNS, k), [v])
  {
    CountOfOne(v);
    if v.class_.Applied() {
      if f.BookFrame? {
        SnapshotIsLast(f.books[k], atNS);
      } else {
        PrintIsNoSnapshot(f.trades[k], atNS);
      }
    }
  }

  lemma SnapshotIsLast(r: BookRecord, atNS: int)
    ensures Tape([Snapshot(r, atNS)]) == []
    ensures forall s :: LastSnapshot([Snapshot(r, atNS)], s) == if s == r.symbol then Some((r, atNS)) else None
  {
    assert [Snapshot(r, atNS)][..0] == [];
  }

  lemma PrintIsNoSnapshot(r: TradeRecord, atNS: int)
    ensures Tape([Print(r, atNS)]) == [Trade(r.symbol, r.hour, r.price, r.qty, r.acmlVol, r.side, atNS)]
    ensures forall s :: LastSnapshot([Print(r, atNS)], s) == None
  {
    assert [Print(r, atNS)][..0] == [];
  }

  lemma CountOfOne(v: Verdict)
    ensures forall c :: CountOf([v], c) == if v.class_ == c then 1 else 0
    ensures MissingOf([v]) == if v.class_ == ClassGap then v.missingVol else 0
  {
    assert [v][..0] == [];
  }

  lemma {:induction false} SettleShows(c: Core, f: Frame, vs: seq<Verdict>, atNS: int, n: nat)
    requires Fits(f, vs) && n <= |vs|
    ensures Shows(c, Settle(c, f, vs, atNS, n), AppliedIn(f, vs, atNS, n), vs[..n])
  {
    if n == 0 {
      NothingShown(c, c);
    } else {
      var before := Settle(c, f, vs, atNS, n - 1);
      SettleShows(c, f, vs, atNS, n - 1);
      RecordShown(before, f, vs[n - 1], atNS, n - 1);
      SettleIsRecords(c, f, vs, atNS, n);
      ShowsJoins(c, before, RecordOn(before, f, vs[n - 1], atNS, n - 1), AppliedIn(f, vs, atNS, n - 1),
                 AppliedAt(f, vs[n - 1], atNS, n - 1), vs[..n - 1], [vs[n - 1]]);
      assert vs[..n] == vs[..n - 1] + [vs[n - 1]];
    }
  }

  // ---------------------------------------------------------------- whole evidence

  /** The verdicts a line brings, from the tracker before it. */
  function VerdictsOfLine(parse: seq<Byte> -> Parsing, t: Tracked, l: Line): seq<Verdict> {
    if l.body.FrameGot? && parse(l.body.raw).Parsed? then TrackRecords(OnDay(t, l.atNS), parse(l.body.raw).frame).1
       else []
  }

  function AppliedOfLine(parse: seq<Byte> -> Parsing, t: Tracked, l: Line): seq<Applied> {
    if l.body.FrameGot? && parse(l.body.raw).Parsed?
    then
      var vs := TrackRecords(OnDay(t, l.atNS), parse(l.body.raw).frame).1;
      AppliedIn(parse(l.body.raw).frame, vs, l.atNS, |vs|)
    else []
  }

  lemma LineShows(parse: seq<Byte> -> Parsing, c: Core, l: Line)
    requires OnLine(parse, c, l).Ok?
    ensures Shows(c, OnLine(parse, c, l).value, AppliedOfLine(parse, c.t, l), VerdictsOfLine(parse, c.t, l))
  {
    var e := OnLine(parse, c, l).value;
    if l.body.FrameGot? && parse(l.body.raw).Parsed? {
      ParsedShows(c, parse(l.body.raw).frame, l.body.verdicts, l.atNS);
    } else {
      NothingShown(c, e);
    }
  }

  /** What a parsed frame does before its first record. */
  lemma BeforeRecords(c: Core, f: Frame, recorded: seq<Verdict>, atNS: int) returns (next: Core)
    ensures var vs := TrackRecords(OnDay(c.t, atNS), f).1;
            && Fits(f, vs) && OnParsed(c, f, recorded, atNS) == Settle(next, f, vs, atNS, |vs|)
            && Shows(c, next, [], [])
    ensures next.session == c.session && next.sum.sessions == c.sum.sessions && next.sum.frames == c.sum.frames + 1
    ensures next.sum.badFrames == c.sum.badFrames && next.sum.stale == c.sum.stale
            && next.sum.reconnects == c.sum.reconnects
  {
    var tracked := TrackRecords(OnDay(c.t, atNS), f);
    var frames := c.sum.(frames := c.sum.frames + 1);
    var checked := if SameVerdicts(tracked.1, recorded) then frames
                   else frames.(verdictMismatches := c.sum.verdictMismatches + 1);
    next := Core(tracked.0, if NewDay(c.t, atNS) then Unsynced(c.books) else c.books, c.tape, c.session, checked);
    NothingShown(c, next);
  }

  lemma ParsedShows(c: Core, f: Frame, recorded: seq<Verdict>, atNS: int)
    ensures var vs := TrackRecords(OnDay(c.t, atNS), f).1;
            Fits(f, vs) && Shows(c, OnParsed(c, f, recorded, atNS), AppliedIn(f, vs, atNS, |vs|), vs)
  {
    var vs := TrackRecords(OnDay(c.t, atNS), f).1;
    var next := BeforeRecords(c, f, recorded, atNS);
    SettleShows(next, f, vs, atNS, |vs|);
    var apps := AppliedIn(f, vs, atNS, |vs|);
    assert vs[..|vs|] == vs && [] + apps == apps && [] + vs == vs;
    ShowsJoins(c, next, Settle(next, f, vs, atNS, |vs|), [], apps, [], vs);
  }

  /** The applied records of a whole evidence, in order. */
  function AppliedOf(parse: seq<Byte> -> Parsing, c: Core, ls: seq<Line>): seq<Applied>
    requires OnLines(parse, c, ls).Ok?
  {
    if ls == [] then []
    else
      var n := |ls| - 1;
      AppliedOf(parse, c, ls[..n]) + AppliedOfLine(parse, OnLines(parse, c, ls[..n]).value.t, ls[n])
  }

  function VerdictsOf(parse: seq<Byte> -> Parsing, c: Core, ls: seq<Line>): seq<Verdict>
    requires OnLines(parse, c, ls).Ok?
  {
    if ls == [] then []
    else
      var n := |ls| - 1;
      VerdictsOf(parse, c, ls[..n]) + VerdictsOfLine(parse, OnLines(parse, c, ls[..n]).value.t, ls[n])
  }

  /**
   * After any evidence that replays: every book holds the sides, totals and time of the last
   * snapshot applied to it, the tape has grown by the applied trades in order, and the counts are
   * those of the verdicts.
   */
  lemma {:induction false} ReplayShowsWhatWasApplied(parse: seq<Byte> -> Parsing, c: Core, ls: seq<Line>)
    requires OnLines(parse, c, ls).Ok?
    ensures Shows(c, OnLines(parse, c, ls).value, AppliedOf(parse, c, ls), VerdictsOf(parse, c, ls))
  {
    if ls == [] {
      NothingShown(c, c);
    } else {
      var n := |ls| - 1;
      var d := OnLines(parse, c, ls[..n]).value;
      ReplayShowsWhatWasApplied(parse, c, ls[..n]);
      LineShows(parse, d, ls[n]);
      ShowsJoins(c, d, OnLines(parse, c, ls).value, AppliedOf(parse, c, ls[..n]), AppliedOfLine(parse, d.t, ls[n]),
                 VerdictsOf(parse, c, ls[..n]), VerdictsOfLine(parse, d.t, ls[n]));
    }
  }

  // ---------------------------------------------------------------- what is accepted, and how it counts

  /** A line of the known version and kind, with a session line at or before it. */
  predicate LineInOrder(c: Core, ls: seq<Line>, i: nat)
    requires i < |ls|
  {
    && ls[i].v == 1 && !ls[i].body.OtherKind?
    && (c.session > 0 || exists j :: 0 <= j <= i && ls[j].body.SessionStart?)
  }

  /** The kinds of line a summary counts. */
  datatype Kind = OfSession | OfFrame | OfBadFrame | OfSilence | OfReconnect

  predicate IsOf(parse: seq<Byte> -> Parsing, l: Line, kind: Kind) {
    match kind
    case OfSession => l.body.SessionStart?
    case OfFrame => l.body.FrameGot?
    case OfBadFrame => l.body.FrameGot? && !parse(l.body.raw).Parsed?
    case OfSilence => l.body.StaleMark?
    case OfReconnect => l.body.ReconnectMark?
  }

  function LinesOf(parse: seq<Byte> -> Parsing, ls: seq<Line>, kind: Kind): nat {
    if ls == [] then 0
    else LinesOf(parse, ls[..|ls| - 1], kind) + if IsOf(parse, ls[|ls| - 1], kind) then 1 else 0
  }

  /** The counts have moved line by line. */
  predicate LinesCounted(parse: seq<Byte> -> Parsing, c: Core, e: Core, ls: seq<Line>) {
    && e.session == c.session + LinesOf(parse, ls, OfSession)
    && e.sum.sessions == c.sum.sessions + LinesOf(parse, ls, OfSession)
    && e.sum.frames == c.sum.frames + LinesOf(parse, ls, OfFrame)
    && e.sum.badFrames == c.sum.badFrames + LinesOf(parse, ls, OfBadFrame)
    && e.sum.stale == c.sum.stale + LinesOf(parse, ls, OfSilence)
    && e.sum.reconnects == c.sum.reconnects + LinesOf(parse, ls, OfReconnect)
  }

  lemma {:induction false} SettleKeepsLineCounts(c: Core, f: Frame, vs: seq<Verdict>, atNS: int, n: nat)
    requires Fits(f, vs) && n <= |vs|
    ensures var e := Settle(c, f, vs, atNS, n);
            && e.session == c.session && e.sum.sessions == c.sum.sessions && e.sum.frames == c.sum.frames
            && e.sum.badFrames == c.sum.badFrames && e.sum.stale == c.sum.stale && e.sum.reconnects == c.sum.reconnects
  {
    if n > 0 {
      SettleKeepsLineCounts(c, f, vs, atNS, n - 1);
    }
  }

  lemma LineIsAccepted(parse: seq<Byte> -> Parsing, c: Core, l: Line)
    ensures OnLine(parse, c, l).Ok? <==> l.v == 1 && !l.body.OtherKind? && (c.session > 0 || l.body.SessionStart?)
    ensures OnLine(parse, c, l).Err? ==> OnLine(parse, c, l) == Err(Format)
  {
  }

  lemma ParsedCounts(c: Core, f: Frame, recorded: seq<Verdict>, atNS: int)
    ensures var e := OnParsed(c, f, recorded, atNS);
            && e.session == c.session && e.sum.sessions == c.sum.sessions && e.sum.frames == c.sum.frames + 1
            && e.sum.badFrames == c.sum.badFrames && e.sum.stale == c.sum.stale && e.sum.reconnects == c.sum.reconnects
  {
    var vs := TrackRecords(OnDay(c.t, atNS), f).1;
    var next := BeforeRecords(c, f, recorded, atNS);
    SettleKeepsLineCounts(next, f, vs, atNS, |vs|);
  }

  lemma LineCounts(parse: seq<Byte> -> Parsing, c: Core, d: Core, ls: seq<Line>)
    requires ls != [] && LinesCounted(parse, c, d, ls[..|ls| - 1]) && OnLine(parse, d, ls[|ls| - 1]).Ok?
    ensures LinesCounted(parse, c, OnLine(parse, d, ls[|ls| - 1]).value, ls)
  {
    var l := ls[|ls| - 1];
    if l.body.FrameGot? && parse(l.body.raw).Parsed? {
      ParsedCounts(d, parse(l.body.raw).frame, l.body.verdicts, l.atNS);
    }
  }

  lemma LastInOrder(c: Core, ls: seq<Line>, i: nat)
    requires i < |ls| - 1
    ensures LineInOrder(c, ls, i) <==> LineInOrder(c, ls[..|ls| - 1], i)
  {
    var init := ls[..|ls| - 1];
    assert forall j :: 0 <= j < |init| ==> init[j] == ls[j];
  }

  lemma {:induction false} SessionsOf(parse: seq<Byte> -> Parsing, ls: seq<Line>)
    ensures LinesOf(parse, ls, OfSession) > 0 <==> exists j :: 0 <= j < |ls| && ls[j].body.SessionStart?
  {
    if ls != [] {
      var n := |ls| - 1;
      SessionsOf(parse, ls[..n]);
      assert forall j :: 0 <= j < n ==> ls[..n][j] == ls[j];
      if j :| 0 <= j < |ls| && ls[j].body.SessionStart? {
        assert j < n ==> ls[..n][j].body.SessionStart?;
      }
      if j :| 0 <= j < n && ls[..n][j].body.SessionStart? {
        assert ls[j].body.SessionStart?;
      }
    }
  }

  /**
   * Decoded evidence replays exactly when every line has the known version and kind and a session
   * line at or before it, and is refused as a format error otherwise; what replays is counted line
   * by line.
   */
  lemma {:induction false} EvidenceIsAcceptedExactly(parse: seq<Byte> -> Parsing, c: Core, ls: seq<Line>)
    ensures OnLines(parse, c, ls).Ok? <==> forall i :: 0 <= i < |ls| ==> LineInOrder(c, ls, i)
    ensures OnLines(parse, c, ls).Err? ==> OnLines(parse, c, ls) == Err(Format)
    ensures OnLines(parse, c, ls).Ok? ==> LinesCounted(parse, c, OnLines(parse, c, ls).value, ls)
  {
    if ls != [] {
      var n := |ls| - 1;
      EvidenceIsAcceptedExactly(parse, c, ls[..n]);
      forall i | 0 <= i < n
        ensures LineInOrder(c, ls, i) <==> LineInOrder(c, ls[..n], i)
      {
        LastInOrder(c, ls, i);
      }
      if OnLines(parse, c, ls[..n]).Ok? {
        LastLineAccepted(parse, c, OnLines(parse, c, ls[..n]).value, ls);
      }
    }
  }

  lemma LastLineAccepted(parse: seq<Byte> -> Parsing, c: Core, d: Core, ls: seq<Line>)
    requires ls != [] && LinesCounted(parse, c, d, ls[..|ls| - 1])
    ensures OnLine(parse, d, ls[|ls| - 1]).Ok? <==> LineInOrder(c, ls, |ls| - 1)
    ensures OnLine(parse, d, ls[|ls| - 1]).Err? ==> OnLine(parse, d, ls[|ls| - 1]) == Err(Format)
    ensures OnLine(parse, d, ls[|ls| - 1]).Ok? ==> LinesCounted(parse, c, OnLine(parse, d, ls[|ls| - 1]).value, ls)
  {
    var n := |ls| - 1;
    LineIsAccepted(parse, d, ls[n]);
    SessionsOf(parse, ls[..n]);
    assert forall j :: 0 <= j < n ==> ls[..n][j] == ls[j];
    if j :| 0 <= j < n && ls[..n][j].body.SessionStart? {
      assert ls[j].body.SessionStart?;
    }
    if OnLine(parse, d, ls[n]).Ok? {
      LineCounts(parse, c, d, ls);
    }
  }
}
