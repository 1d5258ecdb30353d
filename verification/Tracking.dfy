/** Continuity of book and trade records: the tracker of `internal/book/detect.go`. */
module Tracking {
  import opened Texts

  datatype Class = ClassOK | ClassGap | ClassDuplicate | ClassRegress
  {
    predicate Applied() { ClassOK? || ClassGap? }
  }

  datatype Verdict = Verdict(symbol: string, class_: Class, resync: bool, missingVol: int)

  datatype Level = Level(price: int, qty: int)

  /** A full snapshot. `text` holds the record's own fields, for duplicate detection. */
  datatype BookRecord = BookRecord(
    symbol: string, hour: string, asks: seq<Level>, bids: seq<Level>, totalAsk: int, totalBid: int, text: string)

  datatype TradeRecord = TradeRecord(
    symbol: string, hour: string, price: int, qty: int, acmlVol: int, side: string, text: string)

  /** One parsed frame: books or trades, never both. */
  datatype Frame = BookFrame(books: seq<BookRecord>) | TradeFrame(trades: seq<TradeRecord>)

  datatype BookCursor = BookCursor(text: string, hour: string, synced: bool)

  datatype TradeCursor = TradeCursor(acml: int, text: string, resync: bool, restart: bool)

  datatype Tracked = Tracked(books: map<string, BookCursor>, trades: map<string, TradeCursor>, day: int)

  const NEW_TRACKER := Tracked(map[], map[], 0)

  /** Integer division truncates toward zero, as the source's does. */
  function ExchangeDay(atNS: int): int {
    var t := atNS + KST_OFFSET_NS;
    if t >= 0 then t / DAY_NS else -(-t / DAY_NS)
  }

  /** String order of the source, byte by byte. */
  predicate Before(a: string, b: string) {
    b != [] && (a == [] || a[0] < b[0] || (a[0] == b[0] && Before(a[1..], b[1..])))
  }

  /** The texts agree on their first `k` characters, where `a` ends or has the smaller one. */
  predicate FirstDifference(a: string, b: string, k: nat) {
    k <= |a| && k < |b| && a[..k] == b[..k] && (k == |a| || a[k] < b[k])
  }

  /** `Before` is the lexicographic order. */
  lemma {:induction false} BeforeIsLexicographic(a: string, b: string)
    ensures Before(a, b) <==> exists k :: FirstDifference(a, b, k)
    decreases |b|
  {
    if b == [] {
    } else if a == [] || a[0] < b[0] {
      assert FirstDifference(a, b, 0);
    } else if a[0] == b[0] {
      BeforeIsLexicographic(a[1..], b[1..]);
      if Before(a, b) {
        var k :| FirstDifference(a[1..], b[1..], k);
        LaterDifference(a, b, k);
      } else {
        forall k | FirstDifference(a, b, k)
          ensures false
        {
          EarlierDifference(a, b, k);
        }
      }
    }
  }

  lemma LaterDifference(a: string, b: string, k: nat)
    requires a != [] && b != [] && a[0] == b[0] && FirstDifference(a[1..], b[1..], k)
    ensures FirstDifference(a, b, k + 1)
  {
    assert a[..k + 1] == [a[0]] + a[1..][..k] && b[..k + 1] == [b[0]] + b[1..][..k];
  }

  lemma EarlierDifference(a: string, b: string, k: nat)
    requires a != [] && b != [] && a[0] == b[0] && FirstDifference(a, b, k)
    ensures k > 0 && FirstDifference(a[1..], b[1..], k - 1)
  {
    assert a[1..][..k - 1] == a[..k][1..] && b[1..][..k - 1] == b[..k][1..];
  }

  /** No text is before itself, and of two different texts exactly one is before the other. */
  lemma {:induction false} BeforeIsTotal(a: string, b: string)
    ensures a == b ==> !Before(a, b)
    ensures a != b ==> (Before(a, b) <==> !Before(b, a))
    decreases |a|
  {
    if a != [] && b != [] && a[0] == b[0] {
      BeforeIsTotal(a[1..], b[1..]);
      assert a == [a[0]] + a[1..] && b == [b[0]] + b[1..];
    }
  }

  lemma {:induction false} BeforeIsTransitive(a: string, b: string, c: string)
    requires Before(a, b) && Before(b, c)
    ensures Before(a, c)
    decreases |a|
  {
    if a != [] && a[0] == b[0] == c[0] {
      BeforeIsTransitive(a[1..], b[1..], c[1..]);
    }
  }

  function Reconnected(t: Tracked): Tracked {
    t.(books := map s | s in t.books :: t.books[s].(synced := false),
       trades := map s | s in t.trades :: t.trades[s].(resync := true))
  }

  function DayStarted(t: Tracked): Tracked {
    t.(books := map s | s in t.books :: t.books[s].(synced := false),
       trades := map s | s in t.trades :: t.trades[s].(restart := true))
  }

  function TrackBook(t: Tracked, r: BookRecord): (Tracked, Verdict) {
    var ok := Verdict(r.symbol, ClassOK, false, 0);
    var next := t.(books := t.books[r.symbol := BookCursor(r.text, r.hour, true)]);
    if r.symbol !in t.books then (next, ok)
    else
      var c := t.books[r.symbol];
      if !c.synced then (next, ok.(resync := true))
      else if r.text == c.text then (t, ok.(class_ := ClassDuplicate))
      else if Before(r.hour, c.hour) then (t, ok.(class_ := ClassRegress))
      else (next, ok)
  }

  /** Whether this trade starts its symbol's tape anew instead of continuing it. */
  predicate Baseline(t: Tracked, r: TradeRecord) {
    || r.symbol !in t.trades
    || t.trades[r.symbol].restart
    || (t.trades[r.symbol].resync && r.acmlVol < t.trades[r.symbol].acml)
  }

  function TrackTrade(t: Tracked, r: TradeRecord): (Tracked, Verdict) {
    var ok := Verdict(r.symbol, ClassOK, false, 0);
    var moved := t.(trades := t.trades[r.symbol := TradeCursor(r.acmlVol, r.text, false, false)]);
    if r.symbol !in t.trades then (moved, ok)
    else
      var c := t.trades[r.symbol];
      var v := ok.(resync := c.restart || c.resync);
      var kept := t.(trades := t.trades[r.symbol := c.(resync := false)]);
      if Baseline(t, r) then (moved, v)
      else if r.text == c.text || r.acmlVol == c.acml then (kept, v.(class_ := ClassDuplicate))
      else if r.acmlVol < c.acml then (kept, v.(class_ := ClassRegress))
      else if r.acmlVol - r.qty > c.acml
      then (moved, v.(class_ := ClassGap, missingVol := r.acmlVol - r.qty - c.acml))
      else (moved, v)
  }

  function TrackBooks(t: Tracked, rs: seq<BookRecord>): (res: (Tracked, seq<Verdict>))
    ensures |res.1| == |rs|
  {
    if rs == [] then (t, [])
    else
      var front := TrackBooks(t, rs[..|rs| - 1]);
      var last := TrackBook(front.0, rs[|rs| - 1]);
      (last.0, front.1 + [last.1])
  }

  function TrackTrades(t: Tracked, rs: seq<TradeRecord>): (res: (Tracked, seq<Verdict>))
    ensures |res.1| == |rs|
  {
    if rs == [] then (t, [])
    else
      var front := TrackTrades(t, rs[..|rs| - 1]);
      var last := TrackTrade(front.0, rs[|rs| - 1]);
      (last.0, front.1 + [last.1])
  }

  function TrackRecords(t: Tracked, f: Frame): (Tracked, seq<Verdict>) {
    match f
    case BookFrame(rs) => TrackBooks(t, rs)
    case TradeFrame(rs) => TrackTrades(t, rs)
  }

  predicate NewDay(t: Tracked, atNS: int) {
    ExchangeDay(atNS) > t.day && t.day != 0
  }

  /** The day check that opens every frame. */
  function OnDay(t: Tracked, atNS: int): Tracked {
    var dated := if ExchangeDay(atNS) > t.day then t.(day := ExchangeDay(atNS)) else t;
    if NewDay(t, atNS) then DayStarted(dated) else dated
  }

  /** The tracker: one cursor per symbol and stream, updated in place. */
  class Tracker {
    var books: map<string, BookCursor>
    var trades: map<string, TradeCursor>
    var day: int

    function View(): Tracked
      reads this
    {
      Tracked(books, trades, day)
    }

    constructor ()
      ensures View() == NEW_TRACKER
    {
      books, trades, day := map[], map[], 0;
    }

    method UnsyncBooks()
      modifies this
      ensures View() == old(View()).(books := map s | s in old(books) :: old(books)[s].(synced := false))
    {
      var todo := books.Keys;
      while todo != {}
        invariant todo <= books.Keys == old(books).Keys
        invariant trades == old(trades) && day == old(day)
        invariant forall s :: s in books ==>
                    books[s] == if s in todo then old(books)[s] else old(books)[s].(synced := false)
        decreases |todo|
      {
        var s :| s in todo;
        books, todo := books[s := books[s].(synced := false)], todo - {s};
      }
    }

    method Reconnect()
      modifies this
      ensures View() == Reconnected(old(View()))
    {
      UnsyncBooks();
      var todo := trades.Keys;
      while todo != {}
        invariant todo <= trades.Keys == old(trades).Keys
        invariant books == Reconnected(old(View())).books && day == old(day)
        invariant forall s :: s in trades ==>
                    trades[s] == if s in todo then old(trades)[s] else old(trades)[s].(resync := true)
        decreases |todo|
      {
        var s :| s in todo;
        trades, todo := trades[s := trades[s].(resync := true)], todo - {s};
      }
    }

    method StartDay()
      modifies this
      ensures View() == DayStarted(old(View()))
    {
      UnsyncBooks();
      var todo := trades.Keys;
      while todo != {}
        invariant todo <= trades.Keys == old(trades).Keys
        invariant books == DayStarted(old(View())).books && day == old(day)
        invariant forall s :: s in trades ==>
                    trades[s] == if s in todo then old(trades)[s] else old(trades)[s].(restart := true)
        decreases |todo|
      {
        var s :| s in todo;
        trades, todo := trades[s := trades[s].(restart := true)], todo - {s};
      }
    }

    method Book(r: BookRecord) returns (v: Verdict)
      modifies this
      ensures (View(), v) == TrackBook(old(View()), r)
    {
      v := Verdict(r.symbol, ClassOK, false, 0);
      if r.symbol in books {
        var c := books[r.symbol];
        if !c.synced {
          v := v.(resync := true);
        } else if r.text == c.text {
          return v.(class_ := ClassDuplicate);
        } else if Before(r.hour, c.hour) {
          return v.(class_ := ClassRegress);
        }
      }
      books := books[r.symbol := BookCursor(r.text, r.hour, true)];
    }

    method Trade(r: TradeRecord) returns (v: Verdict)
      modifies this
      ensures View() == TrackTrade(old(View()), r).0
      ensures v == TrackTrade(old(View()), r).1
    {
      v := Verdict(r.symbol, ClassOK, false, 0);
      if r.symbol !in trades {
        trades := trades[r.symbol := TradeCursor(r.acmlVol, r.text, false, false)];
        return;
      }
      var c := trades[r.symbol];
      if c.restart {
        trades := trades[r.symbol := TradeCursor(r.acmlVol, r.text, false, false)];
        return v.(resync := true);
      }
      if c.resync {
        v, c := v.(resync := true), c.(resync := false);
        trades := trades[r.symbol := c];
        if r.acmlVol < c.acml {
          trades := trades[r.symbol := c.(acml := r.acmlVol, text := r.text)];
          return;
        }
      }
      assert trades == old(trades)[r.symbol := c];
      if r.text == c.text {
        return v.(class_ := ClassDuplicate);
      }
      var previous := r.acmlVol - r.qty;
      if r.acmlVol == c.acml {
        return v.(class_ := ClassDuplicate);
      } else if r.acmlVol < c.acml {
        return v.(class_ := ClassRegress);
      } else if previous > c.acml {
        v := v.(class_ := ClassGap, missingVol := previous - c.acml);
      }
      trades := trades[r.symbol := c.(acml := r.acmlVol, text := r.text)];
    }

    method OnFrame(f: Frame, atNS: int) returns (verdicts: seq<Verdict>, newDay: bool)
      modifies this
      ensures (View(), verdicts) == TrackRecords(OnDay(old(View()), atNS), f)
      ensures newDay == NewDay(old(View()), atNS)
    {
      newDay := false;
      var at := ExchangeDay(atNS);
      if at > day {
        newDay := day != 0;
        day := at;
        if newDay {
          StartDay();
        }
      }
      ghost var t := View();
      assert t == OnDay(old(View()), atNS);
      verdicts := [];
      var i := 0;
      if f.BookFrame? {
        while i < |f.books|
          invariant i <= |f.books|
          invariant (View(), verdicts) == TrackBooks(t, f.books[..i])
        {
          var v := Book(f.books[i]);
          assert f.books[..i + 1][..i] == f.books[..i];
          verdicts, i := verdicts + [v], i + 1;
        }
        assert f.books[..i] == f.books;
      } else {
        while i < |f.trades|
          invariant i <= |f.trades|
          invariant (View(), verdicts) == TrackTrades(t, f.trades[..i])
        {
          var v := Trade(f.trades[i]);
          assert f.trades[..i + 1][..i] == f.trades[..i];
          verdicts, i := verdicts + [v], i + 1;
        }
        assert f.trades[..i] == f.trades;
      }
    }
  }
}
