/**
 * What the tape of each symbol is worth: cumulative volume between baselines, and the
 * redelivery of records already heard (`internal/book/detect.go`).
 */
module Continuity {
  import opened Tracking

  /**
   * One symbol since its last baseline: trades applied (the baseline first), volume reported missing,
   * all trades heard.
   */
  datatype Stretch = Stretch(applied: seq<TradeRecord>, missing: int, heard: set<TradeRecord>)

  /** A tracker, the tape its verdicts produce, and the stretch each symbol is in. */
  datatype Audit = Audit(t: Tracked, tape: seq<TradeRecord>, stretches: map<string, Stretch>)

  datatype Input = Received(frame: Frame, atNS: int) | SocketBack

  const NEW_AUDIT := Audit(NEW_TRACKER, [], map[])

  function OnTrade(a: Audit, r: TradeRecord): Audit {
    var v := TrackTrade(a.t, r).1;
    var s := if r.symbol in a.stretches then a.stretches[r.symbol] else Stretch([], 0, {});
    var next :=
      if Baseline(a.t, r) then Stretch([r], 0, {r})
      else if v.class_.Applied() then Stretch(s.applied + [r], s.missing + v.missingVol, s.heard + {r})
      else s.(heard := s.heard + {r});
    Audit(TrackTrade(a.t, r).0, if v.class_.Applied() then a.tape + [r] else a.tape, a.stretches[r.symbol := next])
  }

  function OnTrades(a: Audit, rs: seq<TradeRecord>): Audit {
    if rs == [] then a else OnTrade(OnTrades(a, rs[..|rs| - 1]), rs[|rs| - 1])
  }

  function OnInput(a: Audit, i: Input): Audit {
    match i
    case SocketBack => a.(t := Reconnected(a.t))
    case Received(f, atNS) =>
      var dated := a.(t := OnDay(a.t, atNS));
      match f
      case BookFrame(rs) => dated.(t := TrackBooks(dated.t, rs).0)
      case TradeFrame(rs) => OnTrades(dated, rs)
  }

  function OnInputs(a: Audit, inputs: seq<Input>): Audit {
    if inputs == [] then a else OnInput(OnInputs(a, inputs[..|inputs| - 1]), inputs[|inputs| - 1])
  }

  /** The trades of a frame that its verdicts put on the tape. */
  function AppliedTrades(rs: seq<TradeRecord>, vs: seq<Verdict>): seq<TradeRecord>
    requires |rs| == |vs|
  {
    if rs == [] then []
    else
      var n := |rs| - 1;
      AppliedTrades(rs[..n], vs[..n]) + if vs[n].class_.Applied() then [rs[n]] else []
  }

  function OfSymbol(tape: seq<TradeRecord>, symbol: string): seq<TradeRecord> {
    if tape == [] then []
    else
      var n := |tape| - 1;
      OfSymbol(tape[..n], symbol) + if tape[n].symbol == symbol then [tape[n]] else []
  }

  /** Volume of the trades after the baseline. */
  function Volume(rs: seq<TradeRecord>): int {
    if |rs| <= 1 then 0 else Volume(rs[..|rs| - 1]) + rs[|rs| - 1].qty
  }

  /** How far `r` reaches back into volume already applied. */
  function Overlap(previous: TradeRecord, r: TradeRecord): int {
    if r.acmlVol - r.qty < previous.acmlVol then previous.acmlVol - (r.acmlVol - r.qty) else 0
  }

  function Overlaps(rs: seq<TradeRecord>): int {
    if |rs| <= 1 then 0 else Overlaps(rs[..|rs| - 1]) + Overlap(rs[|rs| - 2], rs[|rs| - 1])
  }

  function Rise(rs: seq<TradeRecord>): int
    requires rs != []
  {
    rs[|rs| - 1].acmlVol - rs[0].acmlVol
  }

  ghost predicate Increasing(rs: seq<TradeRecord>) {
    forall i, j :: 0 <= i < j < |rs| ==> rs[i].acmlVol < rs[j].acmlVol
  }

  /** `suffix` ends the tape of `symbol`. */
  ghost predicate Ends(tape: seq<TradeRecord>, symbol: string, suffix: seq<TradeRecord>) {
    var all := OfSymbol(tape, symbol);
    |suffix| <= |all| && all[|all| - |suffix|..] == suffix
  }

  /** The volume of one symbol balances, and its applied trades end the tape. */
  ghost predicate Balanced(rs: seq<TradeRecord>, missing: int, acml: int) {
    && rs != []
    && Increasing(rs)
    && rs[|rs| - 1].acmlVol == acml
    && Rise(rs) == Volume(rs) + missing - Overlaps(rs)
  }

  ghost predicate SymbolBalanced(a: Audit, s: string) {
    && s in a.stretches
    && s in a.t.trades
    && Balanced(a.stretches[s].applied, a.stretches[s].missing, a.t.trades[s].acml)
    && Ends(a.tape, s, a.stretches[s].applied)
  }

  ghost predicate AllBalanced(a: Audit) {
    && a.stretches.Keys == a.t.trades.Keys
    && forall s :: s in a.stretches ==> SymbolBalanced(a, s)
  }

  lemma TapeGrows(tape: seq<TradeRecord>, r: TradeRecord, symbol: string)
    ensures OfSymbol(tape + [r], symbol) == OfSymbol(tape, symbol) + if r.symbol == symbol then [r] else []
  {
    assert (tape + [r])[..|tape|] == tape;
  }

  lemma EndsGrows(tape: seq<TradeRecord>, r: TradeRecord, suffix: seq<TradeRecord>)
    ensures Ends(tape + [r], r.symbol, [r])
    ensures Ends(tape, r.symbol, suffix) ==> Ends(tape + [r], r.symbol, suffix + [r])
  {
    TapeGrows(tape, r, r.symbol);
    var all := OfSymbol(tape, r.symbol);
    assert (all + [r])[|all|..] == [r];
    if Ends(tape, r.symbol, suffix) {
      assert (all + [r])[|all| - |suffix|..] == all[|all| - |suffix|..] + [r];
    }
  }

  lemma StretchGrows(rs: seq<TradeRecord>, missing: int, acml: int, r: TradeRecord, more: int)
    requires Balanced(rs, missing, acml) && r.acmlVol > acml
    requires more == if r.acmlVol - r.qty > acml then r.acmlVol - r.qty - acml else 0
    ensures Balanced(rs + [r], missing + more, r.acmlVol)
  {
    var longer := rs + [r];
    assert longer[..|longer| - 1] == rs;
    assert longer[0] == rs[0];
  }

  /** The symbol the trade is for: a new stretch, a longer one, or only one more trade heard. */
  lemma TradeBalancesItsSymbol(a: Audit, r: TradeRecord)
    requires r.symbol in a.t.trades ==> SymbolBalanced(a, r.symbol)
    ensures SymbolBalanced(OnTrade(a, r), r.symbol)
  {
    if Baseline(a.t, r) {
      EndsGrows(a.tape, r, []);
    } else {
      var s, v := a.stretches[r.symbol], TrackTrade(a.t, r).1;
      if v.class_.Applied() {
        EndsGrows(a.tape, r, s.applied);
        StretchGrows(s.applied, s.missing, a.t.trades[r.symbol].acml, r, v.missingVol);
      }
    }
  }

  lemma TradeLeavesOthers(a: Audit, r: TradeRecord, s: string)
    requires s != r.symbol && SymbolBalanced(a, s)
    ensures SymbolBalanced(OnTrade(a, r), s)
  {
    TapeGrows(a.tape, r, s);
  }

  lemma TradeAddsItsSymbol(a: Audit, r: TradeRecord)
    ensures OnTrade(a, r).stretches.Keys == a.stretches.Keys + {r.symbol}
    ensures OnTrade(a, r).t.trades.Keys == a.t.trades.Keys + {r.symbol}
  {
  }

  /** One trade keeps every symbol's books balanced. */
  lemma TradeKeepsBalance(a: Audit, r: TradeRecord)
    requires AllBalanced(a)
    ensures AllBalanced(OnTrade(a, r))
  {
    TradeAddsItsSymbol(a, r);
    var b := OnTrade(a, r);
    forall s | s in b.stretches
      ensures SymbolBalanced(b, s)
    {
      if s == r.symbol {
        TradeBalancesItsSymbol(a, r);
      } else {
        TradeLeavesOthers(a, r, s);
      }
    }
  }

  lemma {:induction false} TradesKeepBalance(a: Audit, rs: seq<TradeRecord>)
    requires AllBalanced(a)
    ensures AllBalanced(OnTrades(a, rs))
  {
    if rs != [] {
      TradesKeepBalance(a, rs[..|rs| - 1]);
      TradeKeepsBalance(OnTrades(a, rs[..|rs| - 1]), rs[|rs| - 1]);
    }
  }

  lemma {:induction false} BooksLeaveTrades(t: Tracked, rs: seq<BookRecord>)
    ensures TrackBooks(t, rs).0.trades == t.trades
  {
    if rs != [] {
      BooksLeaveTrades(t, rs[..|rs| - 1]);
    }
  }

  /** The audited tracker is the tracker, and the audited tape is what the verdicts applied. */
  lemma {:induction false} AuditFollows(a: Audit, rs: seq<TradeRecord>)
    ensures OnTrades(a, rs).t == TrackTrades(a.t, rs).0
    ensures OnTrades(a, rs).tape == a.tape + AppliedTrades(rs, TrackTrades(a.t, rs).1)
  {
    if rs != [] {
      var n := |rs| - 1;
      AuditFollows(a, rs[..n]);
      var vs := TrackTrades(a.t, rs).1;
      assert vs[..n] == TrackTrades(a.t, rs[..n]).1;
    }
  }

  /** Flags a reconnect or a new day sets leave the balance alone. */
  lemma FlagsKeepBalance(a: Audit, t: Tracked)
    requires AllBalanced(a)
    requires t.trades.Keys == a.t.trades.Keys
    requires forall s :: s in t.trades ==> t.trades[s].acml == a.t.trades[s].acml
    ensures AllBalanced(a.(t := t))
  {
    forall s | s in a.stretches
      ensures SymbolBalanced(a.(t := t), s)
    {
      assert SymbolBalanced(a, s);
    }
  }

  lemma InputKeepsBalance(a: Audit, i: Input)
    requires AllBalanced(a)
    ensures AllBalanced(OnInput(a, i))
  {
    match i
    case SocketBack => FlagsKeepBalance(a, Reconnected(a.t));
    case Received(f, atNS) =>
      FlagsKeepBalance(a, OnDay(a.t, atNS));
      var dated := a.(t := OnDay(a.t, atNS));
      match f
      case BookFrame(rs) =>
        BooksLeaveTrades(dated.t, rs);
        FlagsKeepBalance(dated, TrackBooks(dated.t, rs).0);
      case TradeFrame(rs) => TradesKeepBalance(dated, rs);
  }

  /**
   * In every session, for every symbol since its last baseline: the applied trades end the
   * symbol's tape, their cumulative volumes strictly increase up to the cursor, and the rise is
   * the applied volume plus the missing volume less what applied trades overlapped.
   */
  lemma {:induction false} VolumeIsAccounted(inputs: seq<Input>)
    ensures AllBalanced(OnInputs(NEW_AUDIT, inputs))
  {
    if inputs != [] {
      VolumeIsAccounted(inputs[..|inputs| - 1]);
      InputKeepsBalance(OnInputs(NEW_AUDIT, inputs[..|inputs| - 1]), inputs[|inputs| - 1]);
    }
  }

  lemma {:induction false} OverlapsAreSums(rs: seq<TradeRecord>)
    ensures Overlaps(rs) >= 0
    ensures Overlaps(rs) == 0 <==> forall i :: 0 < i < |rs| ==> Overlap(rs[i - 1], rs[i]) == 0
  {
    if |rs| > 1 {
      var front := rs[..|rs| - 1];
      OverlapsAreSums(front);
      assert forall i :: 0 <= i < |front| ==> front[i] == rs[i];
      assert (forall i :: 0 < i < |rs| ==> Overlap(rs[i - 1], rs[i]) == 0) ==>
             (forall i :: 0 < i < |front| ==> Overlap(front[i - 1], front[i]) == 0);
    }
  }

  /**
   * The rise never exceeds applied plus missing volume, and equals it exactly when no applied trade
   * overlaps the one before.
   */
  lemma RiseIsBounded(inputs: seq<Input>, symbol: string)
    requires symbol in OnInputs(NEW_AUDIT, inputs).stretches
    ensures var s := OnInputs(NEW_AUDIT, inputs).stretches[symbol];
            && s.applied != []
            && Rise(s.applied) <= Volume(s.applied) + s.missing
            && (Rise(s.applied) == Volume(s.applied) + s.missing <==>
                forall i :: 0 < i < |s.applied| ==> s.applied[i].acmlVol - s.applied[i].qty >= s.applied[i - 1].acmlVol)
  {
    VolumeIsAccounted(inputs);
    assert SymbolBalanced(OnInputs(NEW_AUDIT, inputs), symbol);
    var rs := OnInputs(NEW_AUDIT, inputs).stretches[symbol].applied;
    OverlapsAreSums(rs);
    assert forall i :: 0 < i < |rs| ==>
      (Overlap(rs[i - 1], rs[i]) == 0 <==> rs[i].acmlVol - rs[i].qty >= rs[i - 1].acmlVol);
  }

  /** A record's text holds its fields, so the text tells the cumulative volume. */
  ghost predicate TextTells(read: string -> int, i: Input) {
    i.Received? && i.frame.TradeFrame? ==> forall r :: r in i.frame.trades ==> read(r.text) == r.acmlVol
  }

  /** One symbol's cursor is at or past everything heard of it, and its text tells so. */
  ghost predicate SymbolHeard(a: Audit, read: string -> int, s: string) {
    && s in a.stretches && s in a.t.trades
    && read(a.t.trades[s].text) == a.t.trades[s].acml
    && forall r :: r in a.stretches[s].heard ==> r.acmlVol <= a.t.trades[s].acml
  }

  ghost predicate HeardBelow(a: Audit, read: string -> int) {
    && a.stretches.Keys == a.t.trades.Keys
    && forall s :: s in a.stretches ==> SymbolHeard(a, read, s)
  }

  lemma TradeKeepsItsSymbolHeard(a: Audit, r: TradeRecord, read: string -> int)
    requires r.symbol in a.t.trades ==> SymbolHeard(a, read, r.symbol)
    requires read(r.text) == r.acmlVol
    ensures SymbolHeard(OnTrade(a, r), read, r.symbol)
  {
  }

  lemma TradeKeepsHeard(a: Audit, r: TradeRecord, read: string -> int)
    requires HeardBelow(a, read) && read(r.text) == r.acmlVol
    ensures HeardBelow(OnTrade(a, r), read)
  {
    TradeAddsItsSymbol(a, r);
    var b := OnTrade(a, r);
    forall s | s in b.stretches
      ensures SymbolHeard(b, read, s)
    {
      if s == r.symbol {
        TradeKeepsItsSymbolHeard(a, r, read);
      } else {
        assert SymbolHeard(a, read, s);
      }
    }
  }

  lemma {:induction false} TradesKeepHeard(a: Audit, rs: seq<TradeRecord>, read: string -> int)
    requires HeardBelow(a, read)
    requires forall r :: r in rs ==> read(r.text) == r.acmlVol
    ensures HeardBelow(OnTrades(a, rs), read)
  {
    if rs != [] {
      TradesKeepHeard(a, rs[..|rs| - 1], read);
      TradeKeepsHeard(OnTrades(a, rs[..|rs| - 1]), rs[|rs| - 1], read);
    }
  }

  /** Flags a reconnect or a new day sets leave it alone. */
  lemma FlagsKeepHeard(a: Audit, t: Tracked, read: string -> int)
    requires HeardBelow(a, read) && t.trades.Keys == a.t.trades.Keys
    requires forall s :: s in t.trades ==>
               t.trades[s].acml == a.t.trades[s].acml && t.trades[s].text == a.t.trades[s].text
    ensures HeardBelow(a.(t := t), read)
  {
    forall s | s in a.stretches
      ensures SymbolHeard(a.(t := t), read, s)
    {
      assert SymbolHeard(a, read, s);
    }
  }

  lemma InputKeepsHeard(a: Audit, i: Input, read: string -> int)
    requires HeardBelow(a, read) && TextTells(read, i)
    ensures HeardBelow(OnInput(a, i), read)
  {
    match i
    case SocketBack => FlagsKeepHeard(a, Reconnected(a.t), read);
    case Received(f, atNS) =>
      FlagsKeepHeard(a, OnDay(a.t, atNS), read);
      var dated := a.(t := OnDay(a.t, atNS));
      match f
      case BookFrame(rs) =>
        BooksLeaveTrades(dated.t, rs);
        FlagsKeepHeard(dated, TrackBooks(dated.t, rs).0, read);
      case TradeFrame(rs) => TradesKeepHeard(dated, rs, read);
  }

  lemma {:induction false} NothingHeardIsAhead(inputs: seq<Input>, read: string -> int)
    requires forall i :: i in inputs ==> TextTells(read, i)
    ensures HeardBelow(OnInputs(NEW_AUDIT, inputs), read)
  {
    if inputs != [] {
      NothingHeardIsAhead(inputs[..|inputs| - 1], read);
      InputKeepsHeard(OnInputs(NEW_AUDIT, inputs[..|inputs| - 1]), inputs[|inputs| - 1], read);
    }
  }

  /**
   * A trade heard since the symbol's last baseline, delivered again at any later point, changes
   * the tape exactly when a new day is pending, or a reconnect is pending and the trade is not
   * the latest volume: then the tape restarts from it. Otherwise only a pending resync is used up.
   */
  lemma RedeliveryOfOne(inputs: seq<Input>, r: TradeRecord, read: string -> int)
    requires forall i :: i in inputs ==> TextTells(read, i)
    requires r.symbol in OnInputs(NEW_AUDIT, inputs).stretches
    requires r in OnInputs(NEW_AUDIT, inputs).stretches[r.symbol].heard
    ensures var a := OnInputs(NEW_AUDIT, inputs);
            && r.symbol in a.t.trades
            && var c := a.t.trades[r.symbol];
            && (OnTrade(a, r).tape != a.tape <==> c.restart || (c.resync && r.acmlVol < c.acml))
            && (OnTrade(a, r).tape == a.tape ==>
                OnTrade(a, r).t == a.t.(trades := a.t.trades[r.symbol := c.(resync := false)]))
  {
    NothingHeardIsAhead(inputs, read);
    assert SymbolHeard(OnInputs(NEW_AUDIT, inputs), read, r.symbol);
  }

  const EARLY_TRADE := TradeRecord("A", "090000", 100, 1, 1, "buy", "early")

  const NEXT_TRADE := TradeRecord("A", "090001", 100, 1, 2, "buy", "next")

  /** Two trades of a symbol and a reconnect. */
  const TWO_TRADES_AND_RECONNECT: seq<Input> :=
    [Received(TradeFrame([EARLY_TRADE]), 0), Received(TradeFrame([NEXT_TRADE]), 0), SocketBack]

  lemma OneTradeInput(a: Audit, r: TradeRecord)
    requires OnDay(a.t, 0) == a.t
    ensures OnInput(a, Received(TradeFrame([r]), 0)) == OnTrade(a, r)
  {
    var rs := [r];
    assert rs[..|rs| - 1] == [] && OnTrades(a, []) == a;
    assert a.(t := a.t) == a;
    assert OnTrades(a, rs) == OnTrade(a, r);
  }

  lemma TwoTradesHeard() returns (a: Audit)
    ensures a == OnInputs(NEW_AUDIT, TWO_TRADES_AND_RECONNECT)
    ensures a.t.trades == map["A" := TradeCursor(2, "next", true, false)] && a.tape == [EARLY_TRADE, NEXT_TRADE]
    ensures "A" in a.stretches && EARLY_TRADE in a.stretches["A"].heard
  {
    var inputs := TWO_TRADES_AND_RECONNECT;
    assert inputs[..2][..1] == inputs[..1] && inputs[..1][..0] == [];
    assert inputs[..2] == inputs[..|inputs| - 1] && inputs[..1] == inputs[..2][..|inputs[..2]| - 1];
    OneTradeInput(NEW_AUDIT, EARLY_TRADE);
    var one := OnTrade(NEW_AUDIT, EARLY_TRADE);
    assert OnInputs(NEW_AUDIT, inputs[..1]) == one;
    OneTradeInput(one, NEXT_TRADE);
    var two := OnTrade(one, NEXT_TRADE);
    assert OnInputs(NEW_AUDIT, inputs[..2]) == two;
    a := OnInput(two, SocketBack);
  }

  /** An input where redelivery is not silent: after the reconnect the first trade, heard before, restarts the tape. */
  lemma RedeliveryRestartsTheTape()
    ensures var a := OnInputs(NEW_AUDIT, TWO_TRADES_AND_RECONNECT);
            && EARLY_TRADE.symbol in a.stretches && EARLY_TRADE in a.stretches[EARLY_TRADE.symbol].heard
            && OnTrade(a, EARLY_TRADE).tape == [EARLY_TRADE, NEXT_TRADE, EARLY_TRADE]
            && OnTrade(a, EARLY_TRADE).t.trades["A"].acml == 1
  {
    var a := TwoTradesHeard();
  }

  /** Trades already heard can be delivered again in any order and number: with no reset pending, nothing moves. */
  lemma {:induction false} RedeliveryIsSilent(inputs: seq<Input>, rs: seq<TradeRecord>, read: string -> int)
    requires forall i :: i in inputs ==> TextTells(read, i)
    requires var a := OnInputs(NEW_AUDIT, inputs);
             forall r :: r in rs ==>
               && r.symbol in a.stretches && r in a.stretches[r.symbol].heard
               && r.symbol in a.t.trades && !a.t.trades[r.symbol].restart && !a.t.trades[r.symbol].resync
    ensures var a := OnInputs(NEW_AUDIT, inputs);
            && TrackTrades(a.t, rs).0 == a.t
            && AppliedTrades(rs, TrackTrades(a.t, rs).1) == []
  {
    if rs != [] {
      var n := |rs| - 1;
      var a := OnInputs(NEW_AUDIT, inputs);
      RedeliveryIsSilent(inputs, rs[..n], read);
      RedeliveryOfOne(inputs, rs[n], read);
      assert a.t.trades[rs[n].symbol := a.t.trades[rs[n].symbol]] == a.t.trades;
      assert TrackTrades(a.t, rs).1[..n] == TrackTrades(a.t, rs[..n]).1;
    }
  }
}
