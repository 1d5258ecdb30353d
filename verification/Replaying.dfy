/** Reading evidence back, line by line: the replayer of `internal/book/replay.go`. */
module Replaying {
  import opened Machine
  import opened Lines
  import opened Tracking
  import opened Recording

  datatype BookState = BookState(
    symbol: string, hour: string, asks: seq<Level>, bids: seq<Level>, totalAsk: int, totalBid: int,
    atNS: int, synced: bool)

  datatype Trade = Trade(symbol: string, hour: string, price: int, qty: int, acmlVol: int, side: string, atNS: int)

  /** The counts, except of torn lines. */
  datatype Summary = Summary(
    sessions: nat, frames: nat, records: nat, applied: nat, duplicates: nat, regressed: nat, gaps: nat,
    missingVol: int, stale: nat, reconnects: nat, badFrames: nat, verdictMismatches: nat)

  const NO_SUMMARY := Summary(0, 0, 0, 0, 0, 0, 0, 0, 0, 0, 0, 0)

  /** What the complete lines decide. */
  datatype Core = Core(t: Tracked, books: map<string, BookState>, tape: seq<Trade>, session: nat, sum: Summary)

  const NEW_CORE := Core(NEW_TRACKER, map[], [], 0, NO_SUMMARY)

  datatype ReplayError = Format | Corrupt

  function Unsynced(books: map<string, BookState>): map<string, BookState> {
    map s | s in books :: books[s].(synced := false)
  }

  function BookOf(r: BookRecord, atNS: int): BookState {
    BookState(r.symbol, r.hour, r.asks, r.bids, r.totalAsk, r.totalBid, atNS, true)
  }

  function TradeOf(r: TradeRecord, atNS: int): Trade {
    Trade(r.symbol, r.hour, r.price, r.qty, r.acmlVol, r.side, atNS)
  }

  /** The count a verdict moves. */
  function Counted(s: Summary, v: Verdict): Summary {
    var seen := s.(records := s.records + 1);
    match v.class_
    case ClassDuplicate => seen.(duplicates := s.duplicates + 1)
    case ClassRegress => seen.(regressed := s.regressed + 1)
    case ClassGap => seen.(gaps := s.gaps + 1, missingVol := s.missingVol + v.missingVol, applied := s.applied + 1)
    case ClassOK => seen.(applied := s.applied + 1)
  }

  predicate Fits(f: Frame, vs: seq<Verdict>) {
    |vs| == if f.BookFrame? then |f.books| else |f.trades|
  }

  /** The first `n` records of a frame, each under its verdict. */
  function Settle(c: Core, f: Frame, vs: seq<Verdict>, atNS: int, n: nat): Core
    requires Fits(f, vs) && n <= |vs|
  {
    if n == 0 then c
    else
      var before := Settle(c, f, vs, atNS, n - 1);
      var counted := before.(sum := Counted(before.sum, vs[n - 1]));
      if !vs[n - 1].class_.Applied() then counted
      else if f.BookFrame? then
        counted.(books := before.books[f.books[n - 1].symbol := BookOf(f.books[n - 1], atNS)])
      else counted.(tape := before.tape + [TradeOf(f.trades[n - 1], atNS)])
  }

  /** A decoded line with no verdicts holds a nil slice, a computed verdict list never does. */
  predicate SameVerdicts(computed: seq<Verdict>, recorded: seq<Verdict>) {
    computed != [] && computed == recorded
  }

  function OnParsed(c: Core, f: Frame, recorded: seq<Verdict>, atNS: int): Core {
    var tracked := TrackRecords(OnDay(c.t, atNS), f);
    var frames := c.sum.(frames := c.sum.frames + 1);
    var checked := if SameVerdicts(tracked.1, recorded) then frames
                   else frames.(verdictMismatches := c.sum.verdictMismatches + 1);
    var next := Core(tracked.0, if NewDay(c.t, atNS) then Unsynced(c.books) else c.books, c.tape, c.session, checked);
    Settle(next, f, tracked.1, atNS, |tracked.1|)
  }

  /** `line` on a line that decoded, once no torn line stands in its way. */
  function OnLine(parse: seq<Byte> -> Parsing, c: Core, l: Line): Result<Core, ReplayError> {
    if l.v != FORMAT_VERSION then Err(Format)
    else if !l.body.SessionStart? && c.session == 0 then Err(Format)
    else
      match l.body
      case SessionStart(_) =>
        Ok(Core(NEW_TRACKER, Unsynced(c.books), c.tape, c.session + 1, c.sum.(sessions := c.sum.sessions + 1)))
      case ReconnectMark(_) =>
        Ok(c.(t := Reconnected(c.t), books := Unsynced(c.books), sum := c.sum.(reconnects := c.sum.reconnects + 1)))
      case StaleMark(_, _, _) => Ok(c.(sum := c.sum.(stale := c.sum.stale + 1)))
      case FrameGot(_, raw, _, recorded) =>
        (match parse(raw)
         case Parsed(f) => Ok(OnParsed(c, f, recorded, l.atNS))
         case _ => Ok(c.(sum := c.sum.(frames := c.sum.frames + 1, badFrames := c.sum.badFrames + 1))))
      case OtherKind(_) => Err(Format)
  }

  function OnLines(parse: seq<Byte> -> Parsing, c: Core, ls: seq<Line>): Result<Core, ReplayError> {
    if ls == [] then Ok(c)
    else
      match OnLines(parse, c, ls[..|ls| - 1])
      case Err(e) => Err(e)
      case Ok(next) => OnLine(parse, next, ls[|ls| - 1])
  }

  lemma {:induction false} OnLinesAppend(parse: seq<Byte> -> Parsing, c: Core, a: seq<Line>, b: seq<Line>)
    ensures OnLines(parse, c, a + b) ==
            match OnLines(parse, c, a) case Err(e) => Err(e) case Ok(next) => OnLines(parse, next, b)
  {
    if b == [] {
      assert a + b == a;
    } else {
      var n := |b| - 1;
      assert (a + b)[..|a + b| - 1] == a + b[..n];
      OnLinesAppend(parse, c, a, b[..n]);
    }
  }

  /** The whole replayer: a torn line may be waiting for a session line, and torn lines are counted. */
  datatype Replay = Replay(core: Core, torn: bool, tornLines: nat)

  const NEW_REPLAY := Replay(NEW_CORE, false, 0)

  /** `line`: `None` is a line that does not decode. */
  function OnDecoded(parse: seq<Byte> -> Parsing, r: Replay, l: Option<Line>): Result<Replay, ReplayError> {
    match l
    case None => if r.torn then Err(Corrupt) else Ok(Replay(r.core, true, r.tornLines + 1))
    case Some(l) =>
      if r.torn && !l.body.SessionStart? then Err(Corrupt)
      else
        match OnLine(parse, r.core, l)
        case Err(e) => Err(e)
        case Ok(core) => Ok(Replay(core, false, r.tornLines))
  }

  /** The source's replayer; `torn` is the number of the line left undecoded, or 0. */
  class Replayer {
    const parse: seq<Byte> -> Parsing
    var tracker: Tracker
    var books: map<string, BookState>
    var tape: seq<Trade>
    var session: nat
    var sum: Summary
    var torn: nat
    var tornLines: nat

    function View(): Replay
      reads this, tracker
    {
      Replay(Core(tracker.View(), books, tape, session, sum), torn != 0, tornLines)
    }

    constructor (parse: seq<Byte> -> Parsing)
      ensures this.parse == parse && fresh(tracker) && View() == NEW_REPLAY
    {
      this.parse := parse;
      tracker := new Tracker();
      books, tape, session, sum, torn, tornLines := map[], [], 0, NO_SUMMARY, 0, 0;
    }

    method UnsyncBooks()
      modifies this`books
      ensures books == Unsynced(old(books))
    {
      var todo := books.Keys;
      while todo != {}
        invariant todo <= books.Keys == old(books).Keys
        invariant forall s :: s in books ==>
                    books[s] == if s in todo then old(books)[s] else old(books)[s].(synced := false)
        decreases |todo|
      {
        var s :| s in todo;
        books, todo := books[s := books[s].(synced := false)], todo - {s};
      }
    }

    method Frame(f: Frame, recorded: seq<Verdict>, atNS: int)
      modifies this`books, this`tape, this`sum, tracker
      ensures Core(tracker.View(), books, tape, session, sum)
              == OnParsed(Core(old(tracker.View()), old(books), old(tape), session, old(sum)), f, recorded, atNS)
    {
      sum := sum.(frames := sum.frames + 1);
      var verdicts, newDay := tracker.OnFrame(f, atNS);
      if newDay {
        UnsyncBooks();
      }
      if !SameVerdicts(verdicts, recorded) {
        sum := sum.(verdictMismatches := sum.verdictMismatches + 1);
      }
      SettleAll(f, verdicts, atNS);
    }

    /** The loop over the verdicts: counts each, and applies its record. */
    method SettleAll(f: Frame, verdicts: seq<Verdict>, atNS: int)
      requires Fits(f, verdicts)
      modifies this`books, this`tape, this`sum
      ensures Core(tracker.View(), books, tape, session, sum)
              == Settle(Core(tracker.View(), old(books), old(tape), session, old(sum)), f, verdicts, atNS, |verdicts|)
    {
      ghost var start := Core(tracker.View(), books, tape, session, sum);
      var i := 0;
      while i < |verdicts|
        invariant i <= |verdicts|
        invariant Core(tracker.View(), books, tape, session, sum) == Settle(start, f, verdicts, atNS, i)
      {
        var v := verdicts[i];
        sum := Counted(sum, v);
        if v.class_.Applied() {
          if f.BookFrame? {
            books := books[f.books[i].symbol := BookOf(f.books[i], atNS)];
          } else {
            tape := tape + [TradeOf(f.trades[i], atNS)];
          }
        }
        i := i + 1;
      }
    }

    /** `line`, for a chunk that decoded to `l` or not at all. */
    method Line(l: Option<Line>, lineNo: nat) returns (err: Option<ReplayError>)
      requires lineNo > 0
      modifies this, tracker
      ensures tracker == old(tracker) || fresh(tracker)
      ensures match OnDecoded(parse, old(View()), l)
              case Ok(next) => err == None && View() == next
              case Err(e) => err == Some(e)
    {
      if l.None? {
        if torn != 0 {
          return Some(Corrupt);
        }
        torn, tornLines := lineNo, tornLines + 1;
        return None;
      }
      var line := l.value;
      if torn != 0 && !line.body.SessionStart? {
        return Some(Corrupt);
      }
      torn := 0;
      if line.v != FORMAT_VERSION || (!line.body.SessionStart? && session == 0) || line.body.OtherKind? {
        return Some(Format);
      }
      err := None;
      match line.body
      case SessionStart(_) =>
        session, sum := session + 1, sum.(sessions := sum.sessions + 1);
        tracker := new Tracker();
        UnsyncBooks();
      case ReconnectMark(_) =>
        sum := sum.(reconnects := sum.reconnects + 1);
        tracker.Reconnect();
        UnsyncBooks();
      case StaleMark(_, _, _) =>
        sum := sum.(stale := sum.stale + 1);
      case FrameGot(_, raw, _, recorded) =>
        var parsed := parse(raw);
        if parsed.Parsed? {
          Frame(parsed.frame, recorded, line.atNS);
        } else {
          sum := sum.(frames := sum.frames + 1, badFrames := sum.badFrames + 1);
        }
    }
  }
}
