/**
 * What the cursors are worth: between two resyncs the applied snapshots of a symbol never go back
 * in time, none is repeated, and nothing newer is left out; and the verdict on a trade is the one
 * its volume calls for (`internal/book/detect.go`).
 */
module Cursors {
  import opened Tracking
  import opened Continuity

  /** Not before is at or after. */
  lemma NotBeforeChains(a: string, b: string, c: string)
    requires !Before(b, a) && !Before(c, b)
    ensures !Before(c, a)
  {
    BeforeIsTotal(a, b);
    BeforeIsTotal(b, c);
    BeforeIsTotal(a, c);
    if a != b && b != c {
      BeforeIsTransitive(a, b, c);
    }
  }

  // ---------------------------------------------------------------- the audit

  /**
   * A tracker, the snapshots applied to each symbol since its last resync, and the symbols whose next
   * snapshot is a resync: all that were known when the socket came back or the day changed.
   */
  datatype Watch = Watch(t: Tracked, shown: map<string, seq<BookRecord>>, due: set<string>)

  const NEW_WATCH := Watch(NEW_TRACKER, map[], {})

  function Show(x: Watch, r: BookRecord): Watch {
    var (t, v) := TrackBook(x.t, r);
    if !v.class_.Applied() then x.(t := t)
    else
      var run := if r.symbol in x.shown && r.symbol !in x.due then x.shown[r.symbol] + [r] else [r];
      Watch(t, x.shown[r.symbol := run], x.due - {r.symbol})
  }

  function ShowAll(x: Watch, rs: seq<BookRecord>): Watch {
    if rs == [] then x else Show(ShowAll(x, rs[..|rs| - 1]), rs[|rs| - 1])
  }

  function WatchInput(x: Watch, i: Input): Watch {
    match i
    case SocketBack => Watch(Reconnected(x.t), x.shown, x.shown.Keys)
    case Received(f, atNS) =>
      var dated := Watch(OnDay(x.t, atNS), x.shown, if NewDay(x.t, atNS) then x.shown.Keys else x.due);
      match f
      case BookFrame(rs) => ShowAll(dated, rs)
      case TradeFrame(rs) => dated.(t := TrackTrades(dated.t, rs).0)
  }

  function WatchInputs(x: Watch, inputs: seq<Input>): Watch {
    if inputs == [] then x else WatchInput(WatchInputs(x, inputs[..|inputs| - 1]), inputs[|inputs| - 1])
  }

  /** Hours never go back, and no snapshot repeats the one before it. */
  ghost predicate InTime(run: seq<BookRecord>) {
    && (forall i, j :: 0 <= i < j < |run| ==> !Before(run[j].hour, run[i].hour))
    && (forall i :: 0 < i < |run| ==> run[i].text != run[i - 1].text)
  }

  /** The cursor of a symbol is its last applied snapshot, synced unless a resync is due. */
  ghost predicate SymbolWatched(x: Watch, s: string)
    requires s in x.shown
  {
    var run := x.shown[s];
    && run != [] && InTime(run) && (forall r :: r in run ==> r.symbol == s)
    && s in x.t.books
    && x.t.books[s] == BookCursor(run[|run| - 1].text, run[|run| - 1].hour, s !in x.due)
  }

  predicate SameSymbols(x: Watch) {
    x.shown.Keys == x.t.books.Keys && x.due <= x.shown.Keys
  }

  ghost predicate AllWatched(x: Watch) {
    SameSymbols(x) && forall s :: s in x.shown ==> SymbolWatched(x, s)
  }

  lemma RunGrows(run: seq<BookRecord>, r: BookRecord)
    requires run != [] && InTime(run)
    requires r.text != run[|run| - 1].text && !Before(r.hour, run[|run| - 1].hour)
    ensures InTime(run + [r])
  {
    var n := |run|;
    forall i | 0 <= i < n
      ensures !Before(r.hour, run[i].hour)
    {
      if i < n - 1 {
        NotBeforeChains(run[i].hour, run[n - 1].hour, r.hour);
      }
    }
  }

  lemma ShowKeepsOthers(x: Watch, r: BookRecord, s: string)
    requires s != r.symbol && s in x.shown && SymbolWatched(x, s)
    ensures s in Show(x, r).shown && SymbolWatched(Show(x, r), s)
  {
  }

  lemma ShowWatchesItsSymbol(x: Watch, r: BookRecord)
    requires AllWatched(x)
    ensures r.symbol in Show(x, r).shown && SymbolWatched(Show(x, r), r.symbol)
  {
    var s := r.symbol;
    if s in x.shown {
      assert SymbolWatched(x, s);
      var run := x.shown[s];
      if s !in x.due && TrackBook(x.t, r).1.class_.Applied() {
        RunGrows(run, r);
      }
    }
  }

  lemma ShowKeepsSymbols(x: Watch, r: BookRecord)
    requires SameSymbols(x)
    ensures SameSymbols(Show(x, r)) && Show(x, r).shown.Keys <= x.shown.Keys + {r.symbol}
  {
  }

  lemma ShowKeepsOne(x: Watch, r: BookRecord, s: string)
    requires AllWatched(x) && s in Show(x, r).shown
    ensures SymbolWatched(Show(x, r), s)
  {
    ShowKeepsSymbols(x, r);
    if s == r.symbol {
      ShowWatchesItsSymbol(x, r);
    } else {
      assert SymbolWatched(x, s);
      ShowKeepsOthers(x, r, s);
    }
  }

  lemma ShowKeepsWatch(x: Watch, r: BookRecord)
    requires AllWatched(x)
    ensures AllWatched(Show(x, r))
  {
    ShowKeepsSymbols(x, r);
    var y := Show(x, r);
    forall s | s in y.shown
      ensures SymbolWatched(y, s)
    {
      ShowKeepsOne(x, r, s);
    }
  }

  lemma {:induction false} ShowAllKeepsWatch(x: Watch, rs: seq<BookRecord>)
    requires AllWatched(x)
    ensures AllWatched(ShowAll(x, rs))
  {
    if rs != [] {
      ShowAllKeepsWatch(x, rs[..|rs| - 1]);
      ShowKeepsWatch(ShowAll(x, rs[..|rs| - 1]), rs[|rs| - 1]);
    }
  }

  /** The watch follows the tracker. */
  lemma {:induction false} ShowAllTracks(x: Watch, rs: seq<BookRecord>)
    ensures ShowAll(x, rs).t == TrackBooks(x.t, rs).0
  {
    if rs != [] {
      ShowAllTracks(x, rs[..|rs| - 1]);
    }
  }

  /** Trades leave the books alone. */
  lemma {:induction false} TradesKeepBooks(t: Tracked, rs: seq<TradeRecord>)
    ensures TrackTrades(t, rs).0.books == t.books
  {
    if rs != [] {
      TradesKeepBooks(t, rs[..|rs| - 1]);
    }
  }

  lemma ResetKeepsOne(x: Watch, t: Tracked, s: string)
    requires s in x.shown && SymbolWatched(x, s)
    requires s in t.books && t.books[s] == x.t.books[s].(synced := false)
    ensures SymbolWatched(Watch(t, x.shown, x.shown.Keys), s)
  {
  }

  /** Every known book is due after a reset that unsyncs them all. */
  lemma ResetMakesDue(x: Watch, t: Tracked)
    requires AllWatched(x) && t.books == map s | s in x.t.books :: x.t.books[s].(synced := false)
    ensures AllWatched(Watch(t, x.shown, x.shown.Keys))
  {
    var y := Watch(t, x.shown, x.shown.Keys);
    assert t.books.Keys == x.t.books.Keys;
    forall s | s in y.shown
      ensures SymbolWatched(y, s)
    {
      ResetKeepsOne(x, t, s);
    }
  }

  lemma SameBooksWatched(x: Watch, t: Tracked)
    requires AllWatched(x) && t.books == x.t.books
    ensures AllWatched(x.(t := t))
  {
    forall s | s in x.shown
      ensures SymbolWatched(x.(t := t), s)
    {
      assert SymbolWatched(x, s);
    }
  }

  lemma DayKeepsWatch(x: Watch, atNS: int)
    requires AllWatched(x)
    ensures AllWatched(Watch(OnDay(x.t, atNS), x.shown, if NewDay(x.t, atNS) then x.shown.Keys else x.due))
  {
    if NewDay(x.t, atNS) {
      ResetMakesDue(x, OnDay(x.t, atNS));
    } else {
      SameBooksWatched(x, OnDay(x.t, atNS));
    }
  }

  lemma InputKeepsWatch(x: Watch, i: Input)
    requires AllWatched(x)
    ensures AllWatched(WatchInput(x, i))
  {
    match i
    case SocketBack => ResetMakesDue(x, Reconnected(x.t));
    case Received(f, atNS) =>
      var dated := Watch(OnDay(x.t, atNS), x.shown, if NewDay(x.t, atNS) then x.shown.Keys else x.due);
      DayKeepsWatch(x, atNS);
      match f {
        case BookFrame(rs) => ShowAllKeepsWatch(dated, rs);
        case TradeFrame(rs) =>
          TradesKeepBooks(dated.t, rs);
          SameBooksWatched(dated, TrackTrades(dated.t, rs).0);
      }
  }

  /**
   * Over every list of frames and reconnects: the snapshots applied to a symbol since its last
   * resync never go back in time and never repeat their predecessor, and the cursor is the last.
   */
  lemma {:induction false} BooksNeverGoBack(inputs: seq<Input>)
    ensures AllWatched(WatchInputs(NEW_WATCH, inputs))
  {
    if inputs != [] {
      BooksNeverGoBack(inputs[..|inputs| - 1]);
      InputKeepsWatch(WatchInputs(NEW_WATCH, inputs[..|inputs| - 1]), inputs[|inputs| - 1]);
    }
  }

  /**
   * The verdict on the next snapshot, after any inputs: a first one and a resync are applied; then
   * a repeated text is a duplicate, an earlier hour a regress, and everything else is applied.
   */
  lemma NothingNewerIsLeftOut(inputs: seq<Input>, r: BookRecord)
    ensures var x := WatchInputs(NEW_WATCH, inputs);
            var v := TrackBook(x.t, r).1;
            && v.symbol == r.symbol && v.missingVol == 0
            && (v.resync <==> r.symbol in x.due)
            && (r.symbol !in x.shown || r.symbol in x.due ==> v.class_ == ClassOK)
            && (r.symbol in x.shown && r.symbol !in x.due ==>
                  x.shown[r.symbol] != [] &&
                  var last := x.shown[r.symbol][|x.shown[r.symbol]| - 1];
                  && (v.class_ == ClassDuplicate <==> r.text == last.text)
                  && (v.class_ == ClassRegress <==> r.text != last.text && Before(r.hour, last.hour))
                  && (v.class_ == ClassOK <==> r.text != last.text && !Before(r.hour, last.hour)))
    ensures var x := WatchInputs(NEW_WATCH, inputs);
            !TrackBook(x.t, r).1.class_.Applied() ==> TrackBook(x.t, r).0 == x.t
  {
    BooksNeverGoBack(inputs);
    var x := WatchInputs(NEW_WATCH, inputs);
    if r.symbol in x.shown {
      assert SymbolWatched(x, r.symbol);
    }
  }

  // ---------------------------------------------------------------- trades

  /**
   * A tracker, the last trade applied to each symbol, and the symbols that were known when the socket
   * last came back, or when the day changed, and have had no trade since.
   */
  datatype TapeWatch = TapeWatch(t: Tracked, last: map<string, TradeRecord>, back: set<string>, day: set<string>)

  const NEW_TAPE_WATCH := TapeWatch(NEW_TRACKER, map[], {}, {})

  function Print(x: TapeWatch, r: TradeRecord): TapeWatch {
    var (t, v) := TrackTrade(x.t, r);
    TapeWatch(t, if v.class_.Applied() then x.last[r.symbol := r] else x.last,
              x.back - {r.symbol}, x.day - {r.symbol})
  }

  function PrintAll(x: TapeWatch, rs: seq<TradeRecord>): TapeWatch {
    if rs == [] then x else Print(PrintAll(x, rs[..|rs| - 1]), rs[|rs| - 1])
  }

  function PrintInput(x: TapeWatch, i: Input): TapeWatch {
    match i
    case SocketBack => x.(t := Reconnected(x.t), back := x.last.Keys)
    case Received(f, atNS) =>
      var dated := x.(t := OnDay(x.t, atNS), day := if NewDay(x.t, atNS) then x.last.Keys else x.day);
      match f
      case BookFrame(rs) => dated.(t := TrackBooks(dated.t, rs).0)
      case TradeFrame(rs) => PrintAll(dated, rs)
  }

  function PrintInputs(x: TapeWatch, inputs: seq<Input>): TapeWatch {
    if inputs == [] then x else PrintInput(PrintInputs(x, inputs[..|inputs| - 1]), inputs[|inputs| - 1])
  }

  /** The cursor of a symbol is its last applied trade and the resets it has still to see. */
  ghost predicate TapeWatched(x: TapeWatch) {
    && x.last.Keys == x.t.trades.Keys
    && forall s :: s in x.last ==>
         x.t.trades[s] == TradeCursor(x.last[s].acmlVol, x.last[s].text, s in x.back, s in x.day)
  }

  lemma PrintKeepsWatch(x: TapeWatch, r: TradeRecord)
    requires TapeWatched(x)
    ensures TapeWatched(Print(x, r))
  {
  }

  lemma {:induction false} PrintAllKeepsWatch(x: TapeWatch, rs: seq<TradeRecord>)
    requires TapeWatched(x)
    ensures TapeWatched(PrintAll(x, rs))
  {
    if rs != [] {
      PrintAllKeepsWatch(x, rs[..|rs| - 1]);
      PrintKeepsWatch(PrintAll(x, rs[..|rs| - 1]), rs[|rs| - 1]);
    }
  }

  lemma {:induction false} BooksKeepTrades(t: Tracked, rs: seq<BookRecord>)
    ensures TrackBooks(t, rs).0.trades == t.trades
  {
    if rs != [] {
      BooksKeepTrades(t, rs[..|rs| - 1]);
    }
  }

  lemma PrintInputKeepsWatch(x: TapeWatch, i: Input)
    requires TapeWatched(x)
    ensures TapeWatched(PrintInput(x, i))
  {
    if i.Received? {
      var dated := x.(t := OnDay(x.t, i.atNS), day := if NewDay(x.t, i.atNS) then x.last.Keys else x.day);
      assert TapeWatched(dated);
      match i.frame
      case BookFrame(rs) => BooksKeepTrades(dated.t, rs);
      case TradeFrame(rs) => PrintAllKeepsWatch(dated, rs);
    }
  }

  lemma {:induction false} CursorIsTheLastTrade(inputs: seq<Input>)
    ensures TapeWatched(PrintInputs(NEW_TAPE_WATCH, inputs))
  {
    if inputs != [] {
      CursorIsTheLastTrade(inputs[..|inputs| - 1]);
      PrintInputKeepsWatch(PrintInputs(NEW_TAPE_WATCH, inputs[..|inputs| - 1]), inputs[|inputs| - 1]);
    }
  }

  /** The trade opens its symbol's tape: the first, the first of a day, or one behind the last after a reconnect. */
  predicate OpensTape(x: TapeWatch, r: TradeRecord) {
    r.symbol !in x.last || r.symbol in x.day || (r.symbol in x.back && r.acmlVol < x.last[r.symbol].acmlVol)
  }

  /**
   * The verdict on the next trade, after any inputs: one that opens its tape is applied; then one
   * that repeats the last text or volume is a duplicate, one behind is a regress, and everything
   * newer is applied, with exactly the volume missing between the last trade and this one.
   */
  lemma VolumeDecidesTheVerdict(inputs: seq<Input>, r: TradeRecord)
    ensures var x := PrintInputs(NEW_TAPE_WATCH, inputs);
            var v := TrackTrade(x.t, r).1;
            && v.symbol == r.symbol
            && (v.resync <==> r.symbol in x.last && (r.symbol in x.back || r.symbol in x.day))
            && (OpensTape(x, r) ==> v.class_ == ClassOK && v.missingVol == 0)
            && (!OpensTape(x, r) ==>
                  var last := x.last[r.symbol];
                  var newer := r.text != last.text && r.acmlVol > last.acmlVol;
                  && (v.class_ == ClassDuplicate <==> r.text == last.text || r.acmlVol == last.acmlVol)
                  && (v.class_ == ClassRegress <==> r.text != last.text && r.acmlVol < last.acmlVol)
                  && (v.class_ == ClassGap <==> newer && r.acmlVol - r.qty > last.acmlVol)
                  && (v.class_ == ClassOK <==> newer && r.acmlVol - r.qty <= last.acmlVol)
                  && v.missingVol == if v.class_ == ClassGap then r.acmlVol - r.qty - last.acmlVol else 0)
  {
    CursorIsTheLastTrade(inputs);
  }

  // ---------------------------------------------------------------- the day

  /** The Korean calendar day of a moment after the epoch. */
  function DayNumber(atNS: int): int {
    (atNS + 9 * 3600 * 1_000_000_000) / (24 * 3600 * 1_000_000_000)
  }

  /** The latest day any frame came on; 0 before the first. */
  function LatestDay(inputs: seq<Input>): int {
    if inputs == [] then 0
    else
      var n := |inputs| - 1;
      var before := LatestDay(inputs[..n]);
      if inputs[n].Received? && DayNumber(inputs[n].atNS) > before then DayNumber(inputs[n].atNS) else before
  }

  ghost predicate AfterEpoch(inputs: seq<Input>) {
    forall i :: i in inputs && i.Received? ==> i.atNS >= 0
  }

  lemma {:induction false} BooksKeepDay(t: Tracked, rs: seq<BookRecord>)
    ensures TrackBooks(t, rs).0.day == t.day
  {
    if rs != [] {
      BooksKeepDay(t, rs[..|rs| - 1]);
    }
  }

  lemma {:induction false} TradesKeepDay(t: Tracked, rs: seq<TradeRecord>)
    ensures TrackTrades(t, rs).0.day == t.day
  {
    if rs != [] {
      TradesKeepDay(t, rs[..|rs| - 1]);
    }
  }

  lemma {:induction false} DayIsLatest(inputs: seq<Input>)
    requires AfterEpoch(inputs)
    ensures WatchInputs(NEW_WATCH, inputs).t.day == LatestDay(inputs)
  {
    if inputs != [] {
      var n := |inputs| - 1;
      var x := WatchInputs(NEW_WATCH, inputs[..n]);
      assert inputs[n] in inputs;
      DayIsLatest(inputs[..n]);
      if inputs[n].Received? {
        match inputs[n].frame
        case BookFrame(rs) =>
          var dated := Watch(OnDay(x.t, inputs[n].atNS), x.shown, if NewDay(x.t, inputs[n].atNS) then x.shown.Keys
            else x.due);
          ShowAllTracks(dated, rs);
          BooksKeepDay(dated.t, rs);
        case TradeFrame(rs) => TradesKeepDay(OnDay(x.t, inputs[n].atNS), rs);
      }
    }
  }

  /**
   * A frame on a later day than all before it, the first day excepted, unsyncs every book and has
   * every tape start anew; any other frame leaves the cursors to its records.
   */
  lemma DaysResetExactly(inputs: seq<Input>, atNS: int)
    requires AfterEpoch(inputs) && atNS >= 0
    ensures var t := WatchInputs(NEW_WATCH, inputs).t;
            var dated := OnDay(t, atNS);
            && dated.day == (if DayNumber(atNS) > LatestDay(inputs) then DayNumber(atNS) else LatestDay(inputs))
            && (NewDay(t, atNS) <==> LatestDay(inputs) != 0 && DayNumber(atNS) > LatestDay(inputs))
            && dated.books.Keys == t.books.Keys && dated.trades.Keys == t.trades.Keys
            && (forall s :: s in t.books ==>
                  dated.books[s] == if NewDay(t, atNS) then t.books[s].(synced := false) else t.books[s])
            && (forall s :: s in t.trades ==>
                  dated.trades[s] == if NewDay(t, atNS) then t.trades[s].(restart := true) else t.trades[s])
  {
    DayIsLatest(inputs);
  }

}
