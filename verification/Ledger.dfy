/**
 * Ledger reconciliation: `internal/exec/ledger.go` and `refreshLedger` of `cmd/execmock/live.go`.
 * The functions describe a refresh on a whole `World`; the methods are the loops over the
 * executor object, proved to follow them.
 */
module Ledger {
  import opened Prices
  import opened Machine
  import opened Executors
  import opened Texts

  function TrimZeros(t: string): string {
    if t != "" && t[0] == '0' then TrimZeros(t[1..]) else t
  }

  /** The one comparison form of a broker order number. */
  function Normalize(n: OrderNumber): OrderNumber {
    match n
    case OrderNo(t) => OrderNo(TrimZeros(TrimSpace(t)))
    case FakeNo(_) => n
  }

  predicate NoNumber(n: OrderNumber) {
    n.OrderNo? && IsBlank(n.text)
  }

  /** KIS reuses numbers across trading days, so an order is a number and a day. */
  datatype OrderDay = OrderDay(number: OrderNumber, day: int)

  function Identity(n: OrderNumber, atNS: int): OrderDay {
    OrderDay(Normalize(n), (atNS + KST_OFFSET_NS) / DAY_NS)
  }

  // ---------------------------------------------------------------- identities from the journal

  /** What one pass over the journal has seen: send records by key, and keys by broker identity. */
  datatype Identities = Identities(sends: map<Key, Record>, keys: map<OrderDay, Key>)

  function Identify(seen: Identities, r: Record): Option<Identities> {
    match r
    case SendRec(_, c, _) => Some(seen.(sends := seen.sends[c.key := r]))
    case OutcomeRec(_, o, _) =>
      if o.status != Accepted || NoNumber(o.brokerOrder) then Some(seen)
      else if o.key !in seen.sends || !seen.sends[o.key].SendRec? then None
      else if seen.sends[o.key].child.action == Cancel then Some(seen)
      else if Normalize(o.brokerOrder) == OrderNo("") then None
      else
        var id := Identity(o.brokerOrder, seen.sends[o.key].atNS);
        if id in seen.keys && seen.keys[id] != o.key then None
        else Some(seen.(keys := seen.keys[id := o.key]))
    case _ => Some(seen)
  }

  function IdentifyUpTo(lines: seq<JLine>, n: nat): Option<Identities>
    requires n <= |lines|
  {
    if n == 0 then Some(Identities(map[], map[]))
    else
      match IdentifyUpTo(lines, n - 1)
      case None => None
      case Some(seen) => Identify(seen, lines[n - 1].rec)
  }

  function BrokerKeys(lines: seq<JLine>): Option<map<OrderDay, Key>> {
    match IdentifyUpTo(lines, |lines|)
    case None => None
    case Some(seen) => Some(seen.keys)
  }

  method ReadBrokerKeys(lines: seq<JLine>) returns (keys: Option<map<OrderDay, Key>>)
    ensures keys == BrokerKeys(lines)
  {
    var seen := Identities(map[], map[]);
    for n := 0 to |lines|
      invariant IdentifyUpTo(lines, n) == Some(seen)
    {
      var next := Identify(seen, lines[n].rec);
      if next == None {
        FailureSticks(lines, n + 1, |lines|);
        return None;
      }
      seen := next.value;
    }
    keys := Some(seen.keys);
  }

  lemma {:induction false} FailureSticks(lines: seq<JLine>, m: nat, n: nat)
    requires m <= n <= |lines| && IdentifyUpTo(lines, m) == None
    ensures IdentifyUpTo(lines, n) == None
    decreases n
  {
    if m < n {
      FailureSticks(lines, m, n - 1);
    }
  }

  /** Fill, finish, start and reconcile records carry no identity. */
  lemma FillsCarryNoIdentity(lines: seq<JLine>, l: JLine)
    requires l.rec.FillRec?
    ensures BrokerKeys(lines + [l]) == BrokerKeys(lines)
  {
    IdentifyPrefix(lines, l, |lines|);
    assert (lines + [l])[|lines|] == l;
  }

  lemma {:induction false} IdentifyPrefix(lines: seq<JLine>, l: JLine, n: nat)
    requires n <= |lines|
    ensures IdentifyUpTo(lines + [l], n) == IdentifyUpTo(lines, n)
    decreases n
  {
    if n > 0 {
      IdentifyPrefix(lines, l, n - 1);
      assert (lines + [l])[n - 1] == lines[n - 1];
    }
  }

  // ---------------------------------------------------------------- one ledger row

  datatype LedgerFill = LedgerFill(id: FillID, side: Side, qty: int, priceKRW: Option<int>, filledAtNS: int,
    timesOK: bool)

  datatype LedgerOrder = LedgerOrder(number: OrderNumber, cumulativeQty: int, fills: seq<LedgerFill>)

  datatype Snapshot = Snapshot(intentID: string, orders: seq<LedgerOrder>)

  /** `Execution`: the row as a fill whose key is still open; a price that is not whole won is `None`. */
  function Execution(f: LedgerFill): Option<Fill> {
    if f.priceKRW.Some? && 0 < f.priceKRW.value <= 10_000_000 && f.id != NoFillID && 0 < f.qty <= 1_000_000 && f.timesOK
    then Some(Fill(f.id, NoKey, f.qty, f.priceKRW.value, f.filledAtNS)) else None
  }

  /** The fill a row stands for once its order is known, if it can be attributed at all. */
  function Attributed(s: State, lines: seq<JLine>, number: OrderNumber, f: Fill): Option<Fill> {
    if !s.Started() || Normalize(number) == OrderNo("") || f.atNS <= 0
       || f.id == NoFillID || f.qty <= 0 || f.price <= 0
    then None
    else
      match BrokerKeys(lines)
      case None => None
      case Some(keys) =>
        var id := Identity(number, f.atNS);
        if id !in keys || (f.key != NoKey && f.key != keys[id]) then None
        else
          var g := f.(key := keys[id]);
          if g.id in s.fills && s.fills[g.id] != g then None else Some(g)
  }

  function StopFor(w: World, err: Latch): World
    requires w.proc.Some?
  {
    w.(proc := Some(w.proc.value.(err := Some(err))))
  }

  /** `OnLedgerFill`: bind the row to its journaled order, or stop the executor. */
  ghost function LedgerFillIn(w: World, number: OrderNumber, f: Fill): (res: (World, bool))
    requires Runnable(w)
    ensures res.1 ==> Runnable(res.0)
  {
    var p := w.proc.value;
    if p.err.Some? then (w, false)
    else
      match Attributed(p.state, w.disk.lines, number, f)
      case None => (StopFor(w, Attribution), false)
      case Some(g) =>
        var (w1, c) := OnFillIn(w, g);
        (w1, c == Committed && (w1 == w || w1.proc.value.state.Overfill() == 0))
  }

  method OnLedgerFill(e: Executor, number: OrderNumber, f: Fill) returns (ok: bool)
    requires Runnable(e.View())
    modifies e, e.j
    ensures (e.View(), ok) == LedgerFillIn(old(e.View()), number, f)
  {
    if e.err.Some? {
      return false;
    }
    if !e.state.Started() || Normalize(number) == OrderNo("") || f.atNS <= 0
       || f.id == NoFillID || f.qty <= 0 || f.price <= 0
    {
      e.err := Some(Attribution);
      return false;
    }
    var keys := ReadBrokerKeys(e.j.lines);
    var id := Identity(number, f.atNS);
    if keys == None || id !in keys.value || (f.key != NoKey && f.key != keys.value[id]) {
      e.err := Some(Attribution);
      return false;
    }
    var g := f.(key := keys.value[id]);
    if g.id in e.state.fills && e.state.fills[g.id] != g {
      e.err := Some(Attribution);
      return false;
    }
    var c, over := e.OnFill(g);
    ok := c == Committed && !over;
  }

  // ---------------------------------------------------------------- a whole refresh

  datatype BrokerOrder = BrokerOrder(number: OrderNumber, key: Key, day: int, qty: int)

  datatype OrderView = OrderView(filled: int, terminal: bool)

  /** One broker reading per order; `None` is a read that failed. */
  type Readings = BrokerOrder -> Option<OrderView>

  /** What the loop over the snapshot accumulates. */
  datatype Progress = Progress(seen: set<FillID>, seenOrders: set<OrderNumber>, complete: bool)

  /** The orders the journal knows, by number; a number on two days, or a key never sent, is refused. */
  predicate OrdersKnown(s: State, keys: map<OrderDay, Key>) {
    && (forall id :: id in keys ==> SentKey(s.sent, keys[id]))
    && (forall a, b :: a in keys && b in keys && a.number == b.number ==> a == b)
  }

  predicate NumberKnown(keys: map<OrderDay, Key>, n: OrderNumber) {
    exists id :: id in keys && id.number == n
  }

  /** The one journal order with this number. */
  ghost function OrderFor(s: State, keys: map<OrderDay, Key>, n: OrderNumber): BrokerOrder
    requires NumberKnown(keys, n) && OrdersKnown(s, keys)
  {
    var id :| id in keys && id.number == n;
    BrokerOrder(n, keys[id], id.day, s.sent[SentIndex(s.sent, keys[id]).value].qty)
  }

  ghost function RowsIn(
      w: World, side: Side, number: OrderNumber, fills: seq<LedgerFill>, seen: set<FillID>)
    : (res: (World, Option<set<FillID>>))
    requires Runnable(w)
    ensures res.1.Some? ==> Runnable(res.0)
    decreases |fills|
  {
    if fills == [] then (w, Some(seen))
    else
      var f := fills[0];
      if f.side != side || f.id in seen || Execution(f) == None then (w, None)
      else
        var (w1, ok) := LedgerFillIn(w, number, Execution(f).value);
        if ok then RowsIn(w1, side, number, fills[1..], seen + {f.id}) else (w1, None)
  }

  function SumQty(fills: seq<LedgerFill>): int {
    if fills == [] then 0 else fills[0].qty + SumQty(fills[1..])
  }

  function CumulativeOf(orders: seq<LedgerOrder>): int {
    if orders == [] then 0 else orders[0].cumulativeQty + CumulativeOf(orders[1..])
  }

  /** One order of the snapshot; `s` is the state when the refresh began. */
  ghost function OrderIn(
      w: World, s: State, keys: map<OrderDay, Key>, o: LedgerOrder, read: Readings, so: Progress)
    : (res: (World, Option<Progress>))
    requires Runnable(w) && OrdersKnown(s, keys)
    ensures res.1.Some? ==> Runnable(res.0)
  {
    var n := Normalize(o.number);
    if !NumberKnown(keys, n) || n in so.seenOrders then (w, None)
    else
      var (w1, seen) := RowsIn(w, s.intent.side, n, o.fills, so.seen);
      if seen == None || SumQty(o.fills) != o.cumulativeQty then (w1, None)
      else
        var view := read(OrderFor(s, keys, n));
        if view == None || view.value.filled != o.cumulativeQty then (w1, None)
        else (w1, Some(Progress(seen.value, so.seenOrders + {n}, so.complete && view.value.terminal)))
  }

  ghost function OrdersIn(
      w: World, s: State, keys: map<OrderDay, Key>, orders: seq<LedgerOrder>, read: Readings, so: Progress)
    : (res: (World, Option<Progress>))
    requires Runnable(w) && OrdersKnown(s, keys)
    ensures res.1.Some? ==> Runnable(res.0)
    decreases |orders|
  {
    if orders == [] then (w, Some(so))
    else
      var (w1, next) := OrderIn(w, s, keys, orders[0], read, so);
      if next == None then (w1, None) else OrdersIn(w1, s, keys, orders[1..], read, next.value)
  }

  /** The checks before the first row. */
  predicate MayRefresh(s: State, keys: Option<map<OrderDay, Key>>, snap: Snapshot) {
    && s.inFlight == None && snap.intentID == s.intent.intentID
    && keys.Some? && OrdersKnown(s, keys.value) && |keys.value| == |snap.orders|
    && (s.order.Some? ==> s.order.value.key in keys.value.Values)
  }

  /** `refreshLedger`: whether it returns nil, and the system after it. */
  ghost function RefreshIn(w: World, snap: Snapshot, read: Readings): (World, bool)
    requires Runnable(w)
  {
    var s, keys := w.proc.value.state, BrokerKeys(w.disk.lines);
    if !MayRefresh(s, keys, snap) then (w, false)
    else
      var (w1, end) := OrdersIn(w, s, keys.value, snap.orders, read, Progress({}, {}, true));
      if end == None || !(s.fills.Keys <= end.value.seen) then (w1, false)
      else (Completed(w1, end.value.complete), true)
  }

  method ReadRows(e: Executor, side: Side, number: OrderNumber, fills: seq<LedgerFill>, before: set<FillID>)
    returns (seen: Option<set<FillID>>, total: int)
    requires Runnable(e.View())
    modifies e, e.j
    ensures (e.View(), seen) == RowsIn(old(e.View()), side, number, fills, before)
    ensures seen.Some? ==> total == SumQty(fills) && Runnable(e.View())
  {
    var ids := before;
    total := 0;
    ghost var all := RowsIn(e.View(), side, number, fills, before);
    for k := 0 to |fills|
      invariant Runnable(e.View()) && RowsIn(e.View(), side, number, fills[k..], ids) == all
      invariant total + SumQty(fills[k..]) == SumQty(fills)
    {
      var f := fills[k];
      ghost var w := e.View();
      RowsUnroll(w, side, number, fills, k, ids);
      if f.side != side || f.id in ids || Execution(f) == None {
        return None, total;
      }
      var ok := OnLedgerFill(e, number, Execution(f).value);
      if !ok {
        return None, total;
      }
      ids := ids + {f.id};
      total := total + f.qty;
    }
    seen := Some(ids);
  }

  lemma RowsUnroll(w: World, side: Side, number: OrderNumber, fills: seq<LedgerFill>, k: nat, ids: set<FillID>)
    requires Runnable(w) && k < |fills|
    ensures var f := fills[k];
            RowsIn(w, side, number, fills[k..], ids) ==
              if f.side != side || f.id in ids || Execution(f) == None then (w, None)
              else
                var (w1, ok) := LedgerFillIn(w, number, Execution(f).value);
                if ok then RowsIn(w1, side, number, fills[k + 1..], ids + {f.id}) else (w1, None)
    ensures SumQty(fills[k..]) == fills[k].qty + SumQty(fills[k + 1..])
  {
    assert fills[k..][0] == fills[k] && fills[k..][1..] == fills[k + 1..];
  }

  method ReadOrders(e: Executor, s: State, keys: map<OrderDay, Key>, orders: seq<LedgerOrder>, read: Readings)
    returns (end: Option<Progress>)
    requires Runnable(e.View()) && OrdersKnown(s, keys)
    modifies e, e.j
    ensures (e.View(), end) == OrdersIn(old(e.View()), s, keys, orders, read, Progress({}, {}, true))
    ensures end.Some? ==> Runnable(e.View())
  {
    var so := Progress({}, {}, true);
    ghost var all := OrdersIn(e.View(), s, keys, orders, read, so);
    for k := 0 to |orders|
      invariant Runnable(e.View()) && OrdersIn(e.View(), s, keys, orders[k..], read, so) == all
    {
      var o, n := orders[k], Normalize(orders[k].number);
      ghost var w := e.View();
      OrdersUnroll(w, s, keys, orders, k, read, so);
      if !NumberKnown(keys, n) || n in so.seenOrders {
        return None;
      }
      var seen, total := ReadRows(e, s.intent.side, n, o.fills, so.seen);
      if seen == None || total != o.cumulativeQty {
        return None;
      }
      var id :| id in keys && id.number == n;
      var order := BrokerOrder(n, keys[id], id.day, s.sent[SentIndex(s.sent, keys[id]).value].qty);
      assert order == OrderFor(s, keys, n);
      var view := read(order);
      if view == None || view.value.filled != o.cumulativeQty {
        return None;
      }
      so := Progress(seen.value, so.seenOrders + {n}, so.complete && view.value.terminal);
    }
    end := Some(so);
  }

  lemma OrdersUnroll(
      w: World, s: State, keys: map<OrderDay, Key>, orders: seq<LedgerOrder>, k: nat, read: Readings, so: Progress)
    requires Runnable(w) && OrdersKnown(s, keys) && k < |orders|
    ensures var (w1, next) := OrderIn(w, s, keys, orders[k], read, so);
            OrdersIn(w, s, keys, orders[k..], read, so) ==
              if next == None then (w1, None) else OrdersIn(w1, s, keys, orders[k + 1..], read, next.value)
  {
    assert orders[k..][0] == orders[k] && orders[k..][1..] == orders[k + 1..];
  }

  method RefreshLedger(e: Executor, snap: Snapshot, read: Readings) returns (ok: bool)
    requires Runnable(e.View())
    modifies e, e.j
    ensures (e.View(), ok) == RefreshIn(old(e.View()), snap, read)
  {
    var s := e.state;
    var keys := ReadBrokerKeys(e.j.lines);
    if !MayRefresh(s, keys, snap) {
      return false;
    }
    var end := ReadOrders(e, s, keys.value, snap.orders, read);
    if end == None || !(s.fills.Keys <= end.value.seen) {
      return false;
    }
    e.SetLedgerComplete(end.value.complete);
    ok := true;
  }
}
