/**
 * What a `refreshLedger` that returns nil establishes: journal, ledger and broker agree, and
 * asking again changes nothing.
 */
module Reconciled {
  import opened Prices
  import opened Machine
  import opened Caps
  import opened Runs
  import opened Executors
  import opened Protocol
  import opened Ledger

  function Amounts(m: map<FillID, Fill>, ids: set<FillID>): map<FillID, Exposure> {
    map id | id in m && id in ids :: Exposure(m[id].qty, m[id].qty * m[id].price)
  }

  /** The quantity and notional of the recorded fills in `ids`, in any order. */
  ghost function SumOver(m: map<FillID, Fill>, ids: set<FillID>): Exposure {
    Total(Amounts(m, ids))
  }

  ghost predicate FilledIsSum(s: State) {
    Exposure(s.filled, s.fillNotional) == SumOver(s.fills, s.fills.Keys)
  }

  lemma SumOneMore(m: map<FillID, Fill>, ids: set<FillID>, id: FillID)
    requires id in m && id !in ids
    ensures SumOver(m, ids + {id}) == Plus(SumOver(m, ids), Exposure(m[id].qty, m[id].qty * m[id].price))
  {
    var more := Amounts(m, ids + {id});
    TotalWithout(more, id);
    assert more - {id} == Amounts(m, ids);
  }

  lemma SumIgnoresOthers(m: map<FillID, Fill>, n: map<FillID, Fill>, ids: set<FillID>)
    requires ids <= m.Keys && ids <= n.Keys && forall id :: id in ids ==> m[id] == n[id]
    ensures SumOver(m, ids) == SumOver(n, ids)
  {
    assert Amounts(m, ids) == Amounts(n, ids);
  }

  lemma FillKeepsSum(s: State, f: Fill)
    requires FilledIsSum(s) && f.id !in s.fills
    ensures FilledIsSum(ApplyFill(s, f))
  {
    var n := ApplyFill(s, f);
    assert n.fills.Keys == s.fills.Keys + {f.id};
    SumIgnoresOthers(s.fills, n.fills, s.fills.Keys);
    SumOneMore(n.fills, s.fills.Keys, f.id);
  }

  lemma StepKeepsSum(s: State, r: Record)
    requires FilledIsSum(s) && Apply(s, r).Ok?
    ensures FilledIsSum(Apply(s, r).value)
  {
    if r.FillRec? {
      FillKeepsSum(s, r.fill);
    } else if r.StartRec? {
      assert Amounts(map[], {}) == map[];
    } else {
      OthersKeepFills(s, r);
    }
  }

  /** In every state `Apply` can reach, `Filled` and `FillNotional` are the sums over the recorded fills. */
  lemma {:induction false} FilledIsAlwaysTheSum(rs: seq<Record>)
    requires Replay(rs).Ok?
    ensures FilledIsSum(Replay(rs).value)
  {
    if rs == [] {
      assert Amounts(map[], {}) == map[];
    } else {
      var init, r := rs[..|rs| - 1], rs[|rs| - 1];
      FilledIsAlwaysTheSum(init);
      StepKeepsSum(Replay(init).value, r);
    }
  }

  // ---------------------------------------------------------------- rows

  function IdsOfRows(fills: seq<LedgerFill>): set<FillID> {
    set f | f in fills :: f.id
  }

  /** What rows never change about the executor. */
  ghost predicate SameBut(w: World, w1: World)
    requires Runnable(w) && Runnable(w1)
  {
    var s, n := w.proc.value.state, w1.proc.value.state;
    && n == s.(fills := n.fills, filled := n.filled, fillNotional := n.fillNotional)
    && (forall id :: id in s.fills ==> id in n.fills && n.fills[id] == s.fills[id])
    && BrokerKeys(w1.disk.lines) == BrokerKeys(w.disk.lines)
    && w1.proc.value.ledgerComplete == w.proc.value.ledgerComplete
    && w1.proc.value.err == w.proc.value.err
    && w1.broker == w.broker && w1.cfg == w.cfg && w1.completeAt == w.completeAt
  }

  /** A row as the executor holds it: its own quantity, price and time, on the journal's key for its number and day. */
  predicate RowRecorded(s: State, keys: map<OrderDay, Key>, number: OrderNumber, f: LedgerFill) {
    && s.Started() && Normalize(number) != OrderNo("") && f.filledAtNS > 0
    && Execution(f).Some?
    && var id := Identity(number, f.filledAtNS);
    && id in keys && f.id in s.fills
    && s.fills[f.id] == Execution(f).value.(key := keys[id])
  }

  predicate KeysAreSent(w: World)
    requires w.proc.Some?
  {
    var keys := BrokerKeys(w.disk.lines);
    keys.Some? ==> forall id :: id in keys.value ==> SentKey(w.proc.value.state.sent, keys.value[id])
  }

  /** What a new row commits. */
  lemma NewRowSettles(w: World, g: Fill)
    requires Runnable(w) && w.proc.value.err == None && w.proc.value.state.Started()
    requires g.id !in w.proc.value.state.fills && SentKey(w.proc.value.state.sent, g.key)
    requires OnFillIn(w, g).1 == Committed
    ensures var w1 := OnFillIn(w, g).0;
            && Runnable(w1) && SameBut(w, w1)
            && w1.proc.value.state == ApplyFill(w.proc.value.state, g)
  {
    var p, r := w.proc.value, FillRec(g.atNS, g);
    CommitLines(w, r);
    FillsCarryNoIdentity(w.disk.lines, JLine(JOURNAL_VERSION, p.seqNo + 1, r, ApplyFill(p.state, g)));
  }

  lemma RowSettles(w: World, number: OrderNumber, f: LedgerFill)
    requires Runnable(w) && Execution(f).Some? && LedgerFillIn(w, number, Execution(f).value).1 && KeysAreSent(w)
    ensures var w1 := LedgerFillIn(w, number, Execution(f).value).0;
            && SameBut(w, w1)
            && var s, n := w.proc.value.state, w1.proc.value.state;
            && n.fills.Keys == s.fills.Keys + {f.id}
            && (FilledIsSum(s) ==> FilledIsSum(n))
            && BrokerKeys(w.disk.lines).Some?
            && RowRecorded(n, BrokerKeys(w.disk.lines).value, number, f)
  {
    var s := w.proc.value.state;
    var g := Attributed(s, w.disk.lines, number, Execution(f).value).value;
    if g.id !in s.fills {
      NewRowSettles(w, g);
      if FilledIsSum(s) {
        FillKeepsSum(s, g);
      }
    }
  }

  /** The rows of one order are all recorded, once each, and nothing else is. */
  ghost predicate RowsDone(
      w: World, w1: World, side: Side, number: OrderNumber, fills: seq<LedgerFill>, seen: set<FillID>,
      after: set<FillID>)
    requires Runnable(w) && Runnable(w1)
  {
    var s, n := w.proc.value.state, w1.proc.value.state;
    && SameBut(w, w1)
    && after == seen + IdsOfRows(fills) && seen !! IdsOfRows(fills)
    && n.fills.Keys == s.fills.Keys + IdsOfRows(fills)
    && (FilledIsSum(s) ==> FilledIsSum(n))
    && SumOver(n.fills, after).qty == SumOver(s.fills, seen).qty + SumQty(fills)
    && (forall f :: f in fills ==>
          BrokerKeys(w.disk.lines).Some? && f.side == side && RowRecorded(n, BrokerKeys(w.disk.lines).value, number, f))
  }

  lemma {:induction false} RowsSettle(
      w: World, side: Side, number: OrderNumber, fills: seq<LedgerFill>, seen: set<FillID>)
    requires Runnable(w) && seen <= w.proc.value.state.fills.Keys && KeysAreSent(w)
    requires RowsIn(w, side, number, fills, seen).1.Some?
    ensures var (w1, after) := RowsIn(w, side, number, fills, seen);
            RowsDone(w, w1, side, number, fills, seen, after.value)
    decreases |fills|
  {
    if fills != [] {
      var f, rest := fills[0], fills[1..];
      RowSettles(w, number, f);
      var w1 := LedgerFillIn(w, number, Execution(f).value).0;
      assert w1.proc.value.state.sent == w.proc.value.state.sent;
      RowsSettle(w1, side, number, rest, seen + {f.id});
      var (w2, after) := RowsIn(w1, side, number, rest, seen + {f.id});
      RowsJoin(w, w1, w2, side, number, f, rest, seen, after.value);
      assert fills == [f] + rest;
    } else {
      assert IdsOfRows(fills) == {};
    }
  }

  lemma RowSumsJoin(s: map<FillID, Fill>, m: map<FillID, Fill>, f: LedgerFill, rest: seq<LedgerFill>, seen: set<FillID>)
    requires seen <= s.Keys && m.Keys == s.Keys + {f.id} && f.id !in seen && m[f.id].qty == f.qty
    requires forall id :: id in s ==> m[id] == s[id]
    ensures SumOver(m, seen + {f.id}).qty + SumQty(rest) == SumOver(s, seen).qty + SumQty([f] + rest)
  {
    OneMoreQty(s, m, f.id, seen);
    RowQtyFirst(f, rest);
  }

  lemma OneMoreQty(s: map<FillID, Fill>, m: map<FillID, Fill>, id: FillID, seen: set<FillID>)
    requires seen <= s.Keys <= m.Keys && id in m && id !in seen
    requires forall k :: k in s ==> m[k] == s[k]
    ensures SumOver(m, seen + {id}).qty == SumOver(s, seen).qty + m[id].qty
  {
    SumIgnoresOthers(s, m, seen);
    SumOneMore(m, seen, id);
  }

  lemma RowQtyFirst(f: LedgerFill, rest: seq<LedgerFill>)
    ensures SumQty([f] + rest) == f.qty + SumQty(rest)
  {
    assert ([f] + rest)[1..] == rest;
  }

  lemma SameButJoins(w: World, w1: World, w2: World)
    requires Runnable(w) && Runnable(w1) && Runnable(w2) && SameBut(w, w1) && SameBut(w1, w2)
    ensures SameBut(w, w2)
  {
  }

  lemma RowStaysRecorded(w1: World, w2: World, keys: map<OrderDay, Key>, number: OrderNumber, f: LedgerFill)
    requires Runnable(w1) && Runnable(w2) && SameBut(w1, w2)
    requires RowRecorded(w1.proc.value.state, keys, number, f)
    ensures RowRecorded(w2.proc.value.state, keys, number, f)
  {
  }

  lemma RowsJoin(
      w: World, w1: World, w2: World, side: Side, number: OrderNumber, f: LedgerFill, rest: seq<LedgerFill>,
      seen: set<FillID>, after: set<FillID>)
    requires Runnable(w) && Runnable(w1) && Runnable(w2) && SameBut(w, w1)
    requires f.id !in seen && seen <= w.proc.value.state.fills.Keys && f.side == side
    requires BrokerKeys(w.disk.lines).Some?
    requires RowRecorded(w1.proc.value.state, BrokerKeys(w.disk.lines).value, number, f)
    requires w1.proc.value.state.fills.Keys == w.proc.value.state.fills.Keys + {f.id}
    requires FilledIsSum(w.proc.value.state) ==> FilledIsSum(w1.proc.value.state)
    requires RowsDone(w1, w2, side, number, rest, seen + {f.id}, after)
    ensures RowsDone(w, w2, side, number, [f] + rest, seen, after)
  {
    var s, m := w.proc.value.state, w1.proc.value.state;
    RowSumsJoin(s.fills, m.fills, f, rest, seen);
    SameButJoins(w, w1, w2);
    RowStaysRecorded(w1, w2, BrokerKeys(w.disk.lines).value, number, f);
    assert IdsOfRows([f] + rest) == {f.id} + IdsOfRows(rest);
    assert forall x :: x in [f] + rest <==> x == f || x in rest;
  }

  // ---------------------------------------------------------------- orders

  function IdsOfOrders(orders: seq<LedgerOrder>): set<FillID> {
    set o, f | o in orders && f in o.fills :: f.id
  }

  function NumbersOf(orders: seq<LedgerOrder>): set<OrderNumber> {
    set o | o in orders :: Normalize(o.number)
  }

  ghost predicate OrderReadable(s: State, keys: map<OrderDay, Key>, o: LedgerOrder, read: Readings)
    requires OrdersKnown(s, keys)
  {
    NumberKnown(keys, Normalize(o.number)) && read(OrderFor(s, keys, Normalize(o.number))).Some?
  }

  /** The filled quantity the broker reports for one order. */
  ghost function FilledAt(s: State, keys: map<OrderDay, Key>, o: LedgerOrder, read: Readings): int
    requires OrdersKnown(s, keys)
  {
    if OrderReadable(s, keys, o, read) then read(OrderFor(s, keys, Normalize(o.number))).value.filled else 0
  }

  ghost function ReadSum(s: State, keys: map<OrderDay, Key>, orders: seq<LedgerOrder>, read: Readings): int
    requires OrdersKnown(s, keys)
  {
    if orders == [] then 0 else FilledAt(s, keys, orders[0], read) + ReadSum(s, keys, orders[1..], read)
  }

  /** Ledger, journal and broker agree on one order. */
  ghost predicate OrderAgrees(n: State, s: State, keys: map<OrderDay, Key>, o: LedgerOrder, read: Readings)
    requires OrdersKnown(s, keys)
  {
    var number := Normalize(o.number);
    && NumberKnown(keys, number)
    && (forall f :: f in o.fills ==>
          f.side == s.intent.side && RowRecorded(n, keys, number, f)
          && (Normalize(number) == number ==> n.fills[f.id].key == OrderFor(s, keys, number).key))
    && OrderReadable(s, keys, o, read)
    && SumQty(o.fills) == o.cumulativeQty == FilledAt(s, keys, o, read)
  }

  ghost predicate IsTerminal(s: State, keys: map<OrderDay, Key>, o: LedgerOrder, read: Readings)
    requires OrdersKnown(s, keys)
  {
    OrderReadable(s, keys, o, read) && read(OrderFor(s, keys, Normalize(o.number))).value.terminal
  }

  /** The state between two points of the loop: the new rows are recorded once each and add up. */
  ghost predicate Accounted(w: World, w1: World, orders: seq<LedgerOrder>, seen: set<FillID>, after: set<FillID>)
    requires Runnable(w) && Runnable(w1)
  {
    var m, n := w.proc.value.state, w1.proc.value.state;
    && SameBut(w, w1)
    && after == seen + IdsOfOrders(orders) && seen !! IdsOfOrders(orders)
    && n.fills.Keys == m.fills.Keys + IdsOfOrders(orders)
    && (FilledIsSum(m) ==> FilledIsSum(n))
    && SumOver(n.fills, after).qty == SumOver(m.fills, seen).qty + CumulativeOf(orders)
  }

  predicate Numbered(orders: seq<LedgerOrder>, seen: set<OrderNumber>, after: set<OrderNumber>) {
    after == seen + NumbersOf(orders) && seen !! NumbersOf(orders) && |NumbersOf(orders)| == |orders|
  }

  ghost predicate AllAgree(n: State, s: State, keys: map<OrderDay, Key>, orders: seq<LedgerOrder>, read: Readings)
    requires OrdersKnown(s, keys)
  {
    forall o :: o in orders ==> OrderAgrees(n, s, keys, o, read)
  }

  ghost predicate AllTerminal(s: State, keys: map<OrderDay, Key>, orders: seq<LedgerOrder>, read: Readings)
    requires OrdersKnown(s, keys)
  {
    forall o :: o in orders ==> IsTerminal(s, keys, o, read)
  }

  ghost predicate OrdersDone(
      w: World, w1: World, s: State, keys: map<OrderDay, Key>, orders: seq<LedgerOrder>, read: Readings,
      so: Progress, end: Progress)
    requires Runnable(w) && Runnable(w1) && OrdersKnown(s, keys)
  {
    && Accounted(w, w1, orders, so.seen, end.seen)
    && Numbered(orders, so.seenOrders, end.seenOrders)
    && AllAgree(w1.proc.value.state, s, keys, orders, read)
    && (end.complete <==> so.complete && AllTerminal(s, keys, orders, read))
  }

  lemma OneOrder(o: LedgerOrder)
    ensures IdsOfOrders([o]) == IdsOfRows(o.fills) && NumbersOf([o]) == {Normalize(o.number)}
    ensures CumulativeOf([o]) == o.cumulativeQty && |NumbersOf([o])| == |[o]|
  {
  }

  lemma OrderSettles(
      w: World, s: State, keys: map<OrderDay, Key>, o: LedgerOrder, read: Readings, so: Progress)
    requires Runnable(w) && so.seen <= w.proc.value.state.fills.Keys && KeysAreSent(w)
    requires OrdersKnown(s, keys) && BrokerKeys(w.disk.lines) == Some(keys)
    requires OrderIn(w, s, keys, o, read, so).1.Some?
    ensures var (w1, next) := OrderIn(w, s, keys, o, read, so);
            OrdersDone(w, w1, s, keys, [o], read, so, next.value)
  {
    var number := Normalize(o.number);
    var (w1, next) := OrderIn(w, s, keys, o, read, so);
    RowsSettle(w, s.intent.side, number, o.fills, so.seen);
    OneOrder(o);
    RowsAgree(w, w1, s, keys, o, read, so.seen, next.value.seen);
    OrderIsDone(w, w1, s, keys, o, read, so, next.value);
  }

  lemma OrderIsDone(
      w: World, w1: World, s: State, keys: map<OrderDay, Key>, o: LedgerOrder, read: Readings,
      so: Progress, next: Progress)
    requires Runnable(w) && Runnable(w1) && OrdersKnown(s, keys)
    requires RowsDone(w, w1, s.intent.side, Normalize(o.number), o.fills, so.seen, next.seen)
    requires SumQty(o.fills) == o.cumulativeQty && OrderAgrees(w1.proc.value.state, s, keys, o, read)
    requires Normalize(o.number) !in so.seenOrders && next.seenOrders == so.seenOrders + {Normalize(o.number)}
    requires next.complete <==> so.complete && IsTerminal(s, keys, o, read)
    ensures OrdersDone(w, w1, s, keys, [o], read, so, next)
  {
    OneOrder(o);
  }

  lemma RowsAgree(
      w: World, w1: World, s: State, keys: map<OrderDay, Key>, o: LedgerOrder, read: Readings, seen: set<FillID>,
      after: set<FillID>)
    requires Runnable(w) && Runnable(w1) && OrdersKnown(s, keys) && BrokerKeys(w.disk.lines) == Some(keys)
    requires RowsDone(w, w1, s.intent.side, Normalize(o.number), o.fills, seen, after)
    requires OrderReadable(s, keys, o, read) && FilledAt(s, keys, o, read) == o.cumulativeQty == SumQty(o.fills)
    ensures OrderAgrees(w1.proc.value.state, s, keys, o, read)
  {
    var number, n := Normalize(o.number), w1.proc.value.state;
    forall f | f in o.fills && Normalize(number) == number
      ensures RowRecorded(n, keys, number, f) && n.fills[f.id].key == OrderFor(s, keys, number).key
    {
      var id := Identity(number, f.filledAtNS);
      assert RowRecorded(n, keys, number, f) && id in keys && id.number == number;
    }
  }

  lemma AccountedJoins(
      w: World, w1: World, w2: World, o: LedgerOrder, rest: seq<LedgerOrder>, seen: set<FillID>, mid: set<FillID>,
      after: set<FillID>)
    requires Runnable(w) && Runnable(w1) && Runnable(w2)
    requires Accounted(w, w1, [o], seen, mid) && Accounted(w1, w2, rest, mid, after)
    ensures Accounted(w, w2, [o] + rest, seen, after)
  {
    assert IdsOfOrders([o] + rest) == IdsOfOrders([o]) + IdsOfOrders(rest);
    assert ([o] + rest)[1..] == rest;
    assert CumulativeOf([o]) == o.cumulativeQty;
  }

  lemma NumberedJoins(
      o: LedgerOrder, rest: seq<LedgerOrder>, seen: set<OrderNumber>, mid: set<OrderNumber>, after: set<OrderNumber>)
    requires Numbered([o], seen, mid) && Numbered(rest, mid, after)
    ensures Numbered([o] + rest, seen, after)
  {
    var x := Normalize(o.number);
    NumbersJoin(o, rest);
    assert [o] == [o] + [];
    NumbersJoin(o, []);
    assert x in mid && x !in NumbersOf(rest);
  }

  lemma NumbersJoin(o: LedgerOrder, rest: seq<LedgerOrder>)
    ensures NumbersOf([o] + rest) == {Normalize(o.number)} + NumbersOf(rest)
  {
    forall x | x in [o] + rest
      ensures x == o || x in rest
    {
    }
    assert ([o] + rest)[0] == o;
    forall x | x in rest
      ensures x in [o] + rest
    {
    }
  }

  lemma StillAgrees(w1: World, w2: World, s: State, keys: map<OrderDay, Key>, o: LedgerOrder, read: Readings)
    requires Runnable(w1) && Runnable(w2) && OrdersKnown(s, keys) && SameBut(w1, w2)
    requires OrderAgrees(w1.proc.value.state, s, keys, o, read)
    ensures OrderAgrees(w2.proc.value.state, s, keys, o, read)
  {
  }

  lemma OrdersJoin(
      w: World, w1: World, w2: World, s: State, keys: map<OrderDay, Key>, o: LedgerOrder, rest: seq<LedgerOrder>,
      read: Readings, so: Progress, mid: Progress, end: Progress)
    requires Runnable(w) && Runnable(w1) && Runnable(w2) && OrdersKnown(s, keys)
    requires OrdersDone(w, w1, s, keys, [o], read, so, mid) && OrdersDone(w1, w2, s, keys, rest, read, mid, end)
    ensures OrdersDone(w, w2, s, keys, [o] + rest, read, so, end)
  {
    AccountedJoins(w, w1, w2, o, rest, so.seen, mid.seen, end.seen);
    NumberedJoins(o, rest, so.seenOrders, mid.seenOrders, end.seenOrders);
    assert o in [o];
    StillAgrees(w1, w2, s, keys, o, read);
    assert AllAgree(w2.proc.value.state, s, keys, [o] + rest, read);
    assert AllTerminal(s, keys, [o] + rest, read)
           <==> IsTerminal(s, keys, o, read) && AllTerminal(s, keys, rest, read) by {
      assert forall x :: x in [o] + rest <==> x == o || x in rest;
    }
  }

  /** The loop is ready for the next order: what `OrdersSettle` asks of a world. */
  ghost predicate LoopReady(w: World, s: State, keys: map<OrderDay, Key>, so: Progress) {
    && Runnable(w) && so.seen <= w.proc.value.state.fills.Keys && KeysAreSent(w)
    && OrdersKnown(s, keys) && BrokerKeys(w.disk.lines) == Some(keys)
  }

  lemma StaysReady(w: World, w1: World, s: State, keys: map<OrderDay, Key>, o: LedgerOrder, so: Progress, mid: Progress)
    requires LoopReady(w, s, keys, so) && Runnable(w1) && Accounted(w, w1, [o], so.seen, mid.seen)
    ensures LoopReady(w1, s, keys, mid)
  {
    assert w1.proc.value.state.sent == w.proc.value.state.sent;
  }

  /** From `w` the loop over `orders` ends in `w2` with `end`. */
  ghost predicate LoopEnds(
      w: World, s: State, keys: map<OrderDay, Key>, orders: seq<LedgerOrder>, read: Readings, so: Progress,
      w2: World, end: Progress)
  {
    LoopReady(w, s, keys, so) && Runnable(w2) && OrdersIn(w, s, keys, orders, read, so) == (w2, Some(end))
  }

  lemma OrdersStep(
      w: World, s: State, keys: map<OrderDay, Key>, o: LedgerOrder, rest: seq<LedgerOrder>, read: Readings,
      so: Progress, w2: World, end: Progress)
    returns (w1: World, mid: Progress)
    requires LoopEnds(w, s, keys, [o] + rest, read, so, w2, end)
    ensures Runnable(w1) && Runnable(w) && OrdersKnown(s, keys) && OrdersDone(w, w1, s, keys, [o], read, so, mid)
    ensures LoopEnds(w1, s, keys, rest, read, mid, w2, end)
  {
    assert ([o] + rest)[0] == o && ([o] + rest)[1..] == rest;
    var (x, next) := OrderIn(w, s, keys, o, read, so);
    w1, mid := x, next.value;
    OrderSettles(w, s, keys, o, read, so);
    StaysReady(w, w1, s, keys, o, so, mid);
  }

  lemma NothingDone(
      w: World, s: State, keys: map<OrderDay, Key>, read: Readings, so: Progress, w2: World, end: Progress)
    requires LoopEnds(w, s, keys, [], read, so, w2, end)
    ensures OrdersDone(w, w2, s, keys, [], read, so, end)
  {
    assert IdsOfOrders([]) == {} && NumbersOf([]) == {};
  }

  lemma {:induction false} OrdersSettle(
      w: World, s: State, keys: map<OrderDay, Key>, orders: seq<LedgerOrder>, read: Readings, so: Progress,
      w2: World, end: Progress)
    requires LoopEnds(w, s, keys, orders, read, so, w2, end)
    ensures OrdersDone(w, w2, s, keys, orders, read, so, end)
    decreases |orders|
  {
    if orders == [] {
      NothingDone(w, s, keys, read, so, w2, end);
    } else {
      var o, rest := orders[0], orders[1..];
      var all := [o] + rest;
      assert orders == all;
      var w1, mid := OrdersStep(w, s, keys, o, rest, read, so, w2, end);
      OrdersSettle(w1, s, keys, rest, read, mid, w2, end);
      OrdersJoin(w, w1, w2, s, keys, o, rest, read, so, mid, end);
    }
  }

  // ---------------------------------------------------------------- the refresh

  ghost function JournalNumbers(keys: map<OrderDay, Key>): set<OrderNumber> {
    set id | id in keys :: id.number
  }

  lemma {:induction false} NoMoreNumbersThanOrders(keys: map<OrderDay, Key>)
    ensures |JournalNumbers(keys)| <= |keys|
    decreases keys.Keys
  {
    if keys.Keys == {} {
      assert JournalNumbers(keys) == {};
    } else {
      var id :| id in keys.Keys;
      NoMoreNumbersThanOrders(keys - {id});
      assert JournalNumbers(keys) == JournalNumbers(keys - {id}) + {id.number};
      assert |keys| == |(keys - {id}).Keys| + 1 by {
        assert keys.Keys == (keys - {id}).Keys + {id};
      }
    }
  }

  lemma SameSize<T>(a: set<T>, b: set<T>)
    requires a <= b && |b| <= |a|
    ensures a == b
  {
    assert |b - a| == |b| - |a|;
  }

  lemma {:induction false} ReadSumIsCumulative(
      n: State, s: State, keys: map<OrderDay, Key>, orders: seq<LedgerOrder>, read: Readings)
    requires OrdersKnown(s, keys) && AllAgree(n, s, keys, orders, read)
    ensures ReadSum(s, keys, orders, read) == CumulativeOf(orders)
  {
    if orders != [] {
      assert OrderAgrees(n, s, keys, orders[0], read);
      ReadSumIsCumulative(n, s, keys, orders[1..], read);
    }
  }

  /**
   * When `refreshLedger` returns nil: the snapshot's orders are the journal's orders, one for
   * one; the recorded fills are exactly the snapshot's rows, each on its order; `Filled` is the
   * sum of the ledger's cumulative quantities and the sum of what the broker reports; and the
   * executor is complete exactly when every order is terminal.
   */
  lemma RefreshAgrees(w: World, snap: Snapshot, read: Readings)
    requires Runnable(w) && FilledIsSum(w.proc.value.state) && RefreshIn(w, snap, read).1
    ensures var w1 := RefreshIn(w, snap, read).0;
            Runnable(w1) && BrokerKeys(w.disk.lines).Some?
              && OrdersKnown(w.proc.value.state, BrokerKeys(w.disk.lines).value)
    ensures var w1 := RefreshIn(w, snap, read).0;
            var s, n, keys := w.proc.value.state, w1.proc.value.state, BrokerKeys(w.disk.lines).value;
            && NumbersOf(snap.orders) == JournalNumbers(keys) && |NumbersOf(snap.orders)| == |snap.orders| == |keys|
            && n.fills.Keys == IdsOfOrders(snap.orders)
            && AllAgree(n, s, keys, snap.orders, read)
            && n.filled == CumulativeOf(snap.orders) == ReadSum(s, keys, snap.orders, read)
            && (w1.proc.value.ledgerComplete <==> AllTerminal(s, keys, snap.orders, read))
            && n == s.(fills := n.fills, filled := n.filled, fillNotional := n.fillNotional)
            && BrokerKeys(w1.disk.lines) == Some(keys)
  {
    var s, keys := w.proc.value.state, BrokerKeys(w.disk.lines).value;
    var so := Progress({}, {}, true);
    var (w1, end) := OrdersIn(w, s, keys, snap.orders, read, so);
    OrdersSettle(w, s, keys, snap.orders, read, so, w1, end.value);
    FilledFollows(w, w1, snap.orders, end.value.seen);
    NumbersMatch(w1.proc.value.state, s, keys, snap.orders, read);
    ReadSumIsCumulative(w1.proc.value.state, s, keys, snap.orders, read);
  }

  lemma FilledFollows(w: World, w1: World, orders: seq<LedgerOrder>, seen: set<FillID>)
    requires Runnable(w) && Runnable(w1) && FilledIsSum(w.proc.value.state)
    requires Accounted(w, w1, orders, {}, seen) && w.proc.value.state.fills.Keys <= seen
    ensures var n := w1.proc.value.state;
            n.fills.Keys == IdsOfOrders(orders) && n.filled == CumulativeOf(orders)
  {
    var s, n := w.proc.value.state, w1.proc.value.state;
    assert seen == n.fills.Keys;
    assert Amounts(s.fills, {}) == map[];
  }

  lemma NumbersMatch(n: State, s: State, keys: map<OrderDay, Key>, orders: seq<LedgerOrder>, read: Readings)
    requires OrdersKnown(s, keys) && AllAgree(n, s, keys, orders, read)
    requires |NumbersOf(orders)| == |orders| == |keys|
    ensures NumbersOf(orders) == JournalNumbers(keys)
  {
    NoMoreNumbersThanOrders(keys);
    forall number | number in NumbersOf(orders)
      ensures number in JournalNumbers(keys)
    {
      var o :| o in orders && Normalize(o.number) == number;
      assert OrderAgrees(n, s, keys, o, read);
    }
    SameSize(NumbersOf(orders), JournalNumbers(keys));
  }

  // ---------------------------------------------------------------- asking again

  /** Nothing but the latch and the completeness flag may differ. */
  predicate Unmoved(w: World, w1: World) {
    && w1.disk == w.disk && w1.broker == w.broker
    && w.proc.Some? && w1.proc.Some? && w1.proc.value.state == w.proc.value.state
  }

  lemma KnownFillMovesNothing(w: World, number: OrderNumber, f: Fill)
    requires Runnable(w) && f.id in w.proc.value.state.fills
    ensures var (w1, ok) := LedgerFillIn(w, number, f);
            Unmoved(w, w1) && (ok ==> w1 == w)
  {
  }

  lemma {:induction false} RowsMoveNothing(
      w: World, side: Side, number: OrderNumber, fills: seq<LedgerFill>, seen: set<FillID>)
    requires Runnable(w) && IdsOfRows(fills) <= w.proc.value.state.fills.Keys
    ensures var (w1, after) := RowsIn(w, side, number, fills, seen);
            Unmoved(w, w1) && (after.Some? ==> w1 == w)
    decreases |fills|
  {
    if fills != [] {
      var f := fills[0];
      assert f.id in IdsOfRows(fills);
      assert IdsOfRows(fills[1..]) <= IdsOfRows(fills);
      if Execution(f).Some? {
        assert Execution(f).value.id == f.id;
        KnownFillMovesNothing(w, number, Execution(f).value);
      }
      RowsMoveNothing(w, side, number, fills[1..], seen + {f.id});
    }
  }

  lemma {:induction false} OrdersMoveNothing(
      w: World, s: State, keys: map<OrderDay, Key>, orders: seq<LedgerOrder>, read: Readings, so: Progress)
    requires Runnable(w) && OrdersKnown(s, keys) && IdsOfOrders(orders) <= w.proc.value.state.fills.Keys
    ensures var (w1, end) := OrdersIn(w, s, keys, orders, read, so);
            Unmoved(w, w1) && (end.Some? ==> w1 == w)
    decreases |orders|
  {
    if orders != [] {
      var o := orders[0];
      assert IdsOfRows(o.fills) <= IdsOfOrders(orders);
      RowsMoveNothing(w, s.intent.side, Normalize(o.number), o.fills, so.seen);
      assert IdsOfOrders(orders[1..]) <= IdsOfOrders(orders);
      var (w1, next) := OrderIn(w, s, keys, o, read, so);
      if next.Some? {
        OrdersMoveNothing(w1, s, keys, orders[1..], read, next.value);
      }
    }
  }

  /** A snapshot that shows only fills already recorded, in whatever order, moves neither state nor journal. */
  lemma RefreshingAgainMovesNothing(w: World, snap: Snapshot, read: Readings)
    requires Runnable(w) && IdsOfOrders(snap.orders) <= w.proc.value.state.fills.Keys
    ensures Unmoved(w, RefreshIn(w, snap, read).0)
  {
    var s, keys := w.proc.value.state, BrokerKeys(w.disk.lines);
    if MayRefresh(s, keys, snap) {
      OrdersMoveNothing(w, s, keys.value, snap.orders, read, Progress({}, {}, true));
    }
  }

  lemma {:induction false} RowsAgain(
      w: World, v: World, side: Side, number: OrderNumber, fills: seq<LedgerFill>, seen: set<FillID>,
      after: set<FillID>)
    requires Runnable(w) && RowsIn(w, side, number, fills, seen).1 == Some(after)
    requires Runnable(v) && (w.proc.value.err == None ==> v.proc.value.err == None) && BrokerKeys(v.disk.lines).Some?
    requires forall f :: f in fills ==> RowRecorded(v.proc.value.state, BrokerKeys(v.disk.lines).value, number, f)
    ensures RowsIn(v, side, number, fills, seen) == (v, Some(after))
    decreases |fills|
  {
    if fills != [] {
      var f := fills[0];
      var w1 := LedgerFillIn(w, number, Execution(f).value).0;
      assert RowRecorded(v.proc.value.state, BrokerKeys(v.disk.lines).value, number, f);
      RowsAgain(w1, v, side, number, fills[1..], seen + {f.id}, after);
    }
  }

  lemma {:induction false} OrdersAgain(
      w: World, v: World, s: State, keys: map<OrderDay, Key>, orders: seq<LedgerOrder>, read: Readings,
      so: Progress, end: Progress)
    requires Runnable(w) && OrdersKnown(s, keys) && OrdersIn(w, s, keys, orders, read, so).1 == Some(end)
    requires Runnable(v) && (w.proc.value.err == None ==> v.proc.value.err == None)
             && BrokerKeys(v.disk.lines) == Some(keys)
    requires AllAgree(v.proc.value.state, s, keys, orders, read)
    ensures OrdersIn(v, s, keys, orders, read, so) == (v, Some(end))
    decreases |orders|
  {
    if orders != [] {
      var o := orders[0];
      var number := Normalize(o.number);
      assert OrderAgrees(v.proc.value.state, s, keys, o, read);
      var (w1, next) := OrderIn(w, s, keys, o, read, so);
      RowsAgain(w, v, s.intent.side, number, o.fills, so.seen, next.value.seen);
      OrdersAgain(w1, v, s, keys, orders[1..], read, next.value, end);
    }
  }

  lemma {:induction false} OnlySentMatters(
      w: World, s: State, n: State, keys: map<OrderDay, Key>, orders: seq<LedgerOrder>, read: Readings, so: Progress)
    requires Runnable(w) && n.sent == s.sent && n.intent == s.intent
    requires OrdersKnown(s, keys) && OrdersKnown(n, keys)
    ensures OrdersIn(w, n, keys, orders, read, so) == OrdersIn(w, s, keys, orders, read, so)
    decreases |orders|
  {
    if orders != [] {
      var number := Normalize(orders[0].number);
      assert NumberKnown(keys, number) ==> OrderFor(n, keys, number) == OrderFor(s, keys, number);
      var (w1, next) := OrderIn(w, s, keys, orders[0], read, so);
      if next.Some? {
        OnlySentMatters(w1, s, n, keys, orders[1..], read, next.value);
      }
    }
  }

  /** A refresh that returns nil is the loop's end with the completeness decision set. */
  lemma RefreshShape(w: World, snap: Snapshot, read: Readings) returns (w0: World, end: Progress)
    requires Runnable(w) && RefreshIn(w, snap, read).1
    ensures var s, keys := w.proc.value.state, BrokerKeys(w.disk.lines);
            && MayRefresh(s, keys, snap) && Runnable(w0)
            && OrdersIn(w, s, keys.value, snap.orders, read, Progress({}, {}, true)) == (w0, Some(end))
            && s.fills.Keys <= end.seen
            && RefreshIn(w, snap, read).0 == Completed(w0, end.complete)
  {
    var s, keys := w.proc.value.state, BrokerKeys(w.disk.lines);
    var (x, e) := OrdersIn(w, s, keys.value, snap.orders, read, Progress({}, {}, true));
    w0, end := x, e.value;
  }

  lemma RefreshFrom(w: World, snap: Snapshot, read: Readings, end: Progress)
    requires Runnable(w) && MayRefresh(w.proc.value.state, BrokerKeys(w.disk.lines), snap)
    requires OrdersIn(w, w.proc.value.state, BrokerKeys(w.disk.lines).value, snap.orders, read,
             Progress({}, {}, true)) == (w, Some(end))
    requires w.proc.value.state.fills.Keys <= end.seen
    ensures RefreshIn(w, snap, read) == (Completed(w, end.complete), true)
  {
  }

  /**
   * After a refresh that returned nil, the same refresh returns nil again, takes the same
   * completeness decision, and leaves state and journal as they are.
   */
  lemma RefreshIsIdempotent(w: World, snap: Snapshot, read: Readings)
    requires Runnable(w) && FilledIsSum(w.proc.value.state)
    requires RefreshIn(w, snap, read).1
    ensures var w1 := RefreshIn(w, snap, read).0;
            Runnable(w1) && RefreshIn(w1, snap, read) == (Completed(w1, w1.proc.value.ledgerComplete), true)
  {
    RefreshAgrees(w, snap, read);
    var s, keys := w.proc.value.state, BrokerKeys(w.disk.lines).value;
    var so := Progress({}, {}, true);
    var w0, end := RefreshShape(w, snap, read);
    var w1 := RefreshIn(w, snap, read).0;
    var n := w1.proc.value.state;
    OrdersSettle(w, s, keys, snap.orders, read, so, w0, end);
    OrdersAgain(w, w1, s, keys, snap.orders, read, so, end);
    OnlySentMatters(w1, s, n, keys, snap.orders, read, so);
    RefreshFrom(w1, snap, read, end);
  }

  // ---------------------------------------------------------------- a refresh is a run

  /** Deliveries and the two marks a refresh can leave. */
  predicate LedgerEvent(e: Event) {
    e.Deliver? || e.Misattribute?
  }

  lemma {:induction false} RowsAreARun(
      w: World, side: Side, number: OrderNumber, fills: seq<LedgerFill>, seen: set<FillID>)
    returns (es: seq<Event>)
    requires Runnable(w)
    ensures After(w, es) == RowsIn(w, side, number, fills, seen).0 && forall e :: e in es ==> LedgerEvent(e)
    decreases |fills|
  {
    es := [];
    if fills != [] && fills[0].side == side && fills[0].id !in seen && Execution(fills[0]).Some? {
      var f := Execution(fills[0]).value;
      var g := Attributed(w.proc.value.state, w.disk.lines, number, f);
      var (w1, ok) := LedgerFillIn(w, number, f);
      if w.proc.value.err == None {
        es := if g == None then [Misattribute] else [Deliver(g.value)];
        assert After(w, es[..0]) == w;
      }
      assert After(w, es) == w1;
      if ok {
        var rest := RowsAreARun(w1, side, number, fills[1..], seen + {fills[0].id});
        AfterAppend(w, es, rest);
        es := es + rest;
      }
    }
  }

  lemma {:induction false} OrdersAreARun(
      w: World, s: State, keys: map<OrderDay, Key>, orders: seq<LedgerOrder>, read: Readings, so: Progress)
    returns (es: seq<Event>)
    requires Runnable(w) && OrdersKnown(s, keys)
    ensures After(w, es) == OrdersIn(w, s, keys, orders, read, so).0 && forall e :: e in es ==> LedgerEvent(e)
    decreases |orders|
  {
    es := [];
    if orders != [] {
      var o, number := orders[0], Normalize(orders[0].number);
      if NumberKnown(keys, number) && number !in so.seenOrders {
        es := RowsAreARun(w, s.intent.side, number, o.fills, so.seen);
      }
      var (w1, next) := OrderIn(w, s, keys, o, read, so);
      assert After(w, es) == w1;
      if next.Some? {
        var rest := OrdersAreARun(w1, s, keys, orders[1..], read, next.value);
        AfterAppend(w, es, rest);
        es := es + rest;
      }
    }
  }

  /**
   * A refresh does nothing the protocol does not know: it is a list of deliveries, possibly a
   * stop, and a completeness mark exactly when it returns nil; the mark says complete exactly
   * when every journaled order is terminal. So every run with refreshes is a protocol run.
   */
  lemma RefreshIsARun(w: World, snap: Snapshot, read: Readings) returns (es: seq<Event>)
    requires Runnable(w) && FilledIsSum(w.proc.value.state)
    ensures var (w1, ok) := RefreshIn(w, snap, read);
            && After(w, es) == w1
            && (!ok ==> forall e :: e in es ==> LedgerEvent(e))
            && (ok ==>
                  && es != [] && es[|es| - 1] == SetComplete(w1.proc.value.ledgerComplete)
                  && (forall e :: e in es[..|es| - 1] ==> LedgerEvent(e))
                  && (w1.proc.value.ledgerComplete <==>
                      AllTerminal(w.proc.value.state, BrokerKeys(w.disk.lines).value, snap.orders, read)))
  {
    if RefreshIn(w, snap, read).1 {
      RefreshAgrees(w, snap, read);
      var w0, end := RefreshShape(w, snap, read);
      es := OrdersAreARun(w, w.proc.value.state, BrokerKeys(w.disk.lines).value, snap.orders, read,
        Progress({}, {}, true));
      AfterOne(w, es, SetComplete(end.complete));
      es := es + [SetComplete(end.complete)];
    } else {
      es := FailedRefreshIsARun(w, snap, read);
    }
  }

  lemma FailedRefreshIsARun(w: World, snap: Snapshot, read: Readings) returns (es: seq<Event>)
    requires Runnable(w) && !RefreshIn(w, snap, read).1
    ensures After(w, es) == RefreshIn(w, snap, read).0 && forall e :: e in es ==> LedgerEvent(e)
  {
    var s, keys := w.proc.value.state, BrokerKeys(w.disk.lines);
    es := [];
    if MayRefresh(s, keys, snap) {
      es := OrdersAreARun(w, s, keys.value, snap.orders, read, Progress({}, {}, true));
    }
  }
}
