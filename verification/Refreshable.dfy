/**
 * Exactly when `refreshLedger` returns nil: journal orders and snapshot orders are the same, every
 * row belongs to one of them and contradicts nothing recorded, the broker has executed what the
 * ledger shows, the new rows stay within the target, and their records reach the disk.
 */
module Refreshable {
  import opened Prices
  import opened Machine
  import opened Executors
  import opened Ledger
  import opened Reconciled
  import opened Texts

  // ---------------------------------------------------------------- one row

  /** A row of one share or more, at a whole price and a known time. */
  predicate WholeRow(f: LedgerFill) {
    && f.id != NoFillID && 1 <= f.qty <= 1_000_000 && f.timesOK && f.filledAtNS > 0
    && f.priceKRW.Some? && 1 <= f.priceKRW.value <= 10_000_000
  }

  /** The journal's order with this number on the Korean day of the row. */
  function OrderOfRow(number: OrderNumber, f: LedgerFill): OrderDay {
    OrderDay(Normalize(number), (f.filledAtNS + KST_OFFSET_NS) / DAY_NS)
  }

  /** The fill a row stands for on its order. */
  function FillOf(keys: map<OrderDay, Key>, number: OrderNumber, f: LedgerFill): Fill
    requires OrderOfRow(number, f) in keys && f.priceKRW.Some?
  {
    Fill(f.id, keys[OrderOfRow(number, f)], f.qty, f.priceKRW.value, f.filledAtNS)
  }

  /** The row can be counted, belongs to a journaled order, and is recorded as it is or not at all. */
  predicate RowFits(keys: map<OrderDay, Key>, fills: map<FillID, Fill>, number: OrderNumber, f: LedgerFill) {
    && WholeRow(f) && Normalize(number) != OrderNo("") && OrderOfRow(number, f) in keys
    && (f.id in fills ==> fills[f.id] == FillOf(keys, number, f))
  }

  /** What counting rows moves: the recorded fills, their quantity, and the disk's coming faults. */
  datatype Tally = Tally(fills: map<FillID, Fill>, filled: int, plan: seq<DiskFault>)

  /** A row under the number of its order. */
  datatype Entry = Entry(number: OrderNumber, row: LedgerFill)

  function Count(keys: map<OrderDay, Key>, target: int, t: Tally, e: Entry): Option<Tally> {
    if !RowFits(keys, t.fills, e.number, e.row) then None
    else if e.row.id in t.fills then Some(t)
    else if (t.plan != [] && t.plan[0] != Synced) || t.filled + e.row.qty > target then None
    else Some(Tally(t.fills[e.row.id := FillOf(keys, e.number, e.row)], t.filled + e.row.qty,
                    if t.plan == [] then [] else t.plan[1..]))
  }

  function CountAll(
      keys: map<OrderDay, Key>, target: int, side: Side, t: Tally, es: seq<Entry>, seen: set<FillID>): Option<Tally>
    decreases |es|
  {
    if es == [] then Some(t)
    else if es[0].row.side != side || es[0].row.id in seen then None
    else
      match Count(keys, target, t, es[0])
      case None => None
      case Some(t1) => CountAll(keys, target, side, t1, es[1..], seen + {es[0].row.id})
  }

  function TallyOf(w: World): Tally
    requires w.proc.Some?
  {
    Tally(w.proc.value.state.fills, w.proc.value.state.filled, w.disk.plan)
  }

  /** A working process of the state `s` but for its fills, with the journal's orders `keys`. */
  ghost predicate Counting(w: World, s: State, keys: map<OrderDay, Key>) {
    && Runnable(w) && w.proc.value.err == None && BrokerKeys(w.disk.lines) == Some(keys)
    && w.proc.value.state.sent == s.sent && w.proc.value.state.intent == s.intent && s.Started()
    && w.proc.value.state.target == s.target
    && forall id :: id in keys ==> SentKey(s.sent, keys[id])
  }

  lemma RowIsAttributed(s: State, lines: seq<JLine>, keys: map<OrderDay, Key>, number: OrderNumber, f: LedgerFill)
    requires BrokerKeys(lines) == Some(keys) && s.Started()
    ensures Execution(f).Some? && Attributed(s, lines, number, Execution(f).value).Some? <==>
            RowFits(keys, s.fills, number, f)
    ensures RowFits(keys, s.fills, number, f) ==>
              Attributed(s, lines, number, Execution(f).value) == Some(FillOf(keys, number, f))
  {
  }

  /** A fill that is new commits exactly when the write is synced. */
  lemma NewFillCommits(w: World, g: Fill)
    requires Runnable(w) && w.proc.value.err == None && w.proc.value.state.Started()
    requires g.id != NoFillID && g.qty >= 1 && g.price >= 1
    requires g.id !in w.proc.value.state.fills && SentKey(w.proc.value.state.sent, g.key)
    ensures OnFillIn(w, g).1 == Committed <==> w.disk.plan == [] || w.disk.plan[0] == Synced
    ensures OnFillIn(w, g).1 == Committed ==>
              && OnFillIn(w, g).0.disk.plan == (if w.disk.plan == [] then [] else w.disk.plan[1..])
              && OnFillIn(w, g).0 != w
  {
    assert w.disk.lines + [JLine(JOURNAL_VERSION, w.proc.value.seqNo + 1, FillRec(g.atNS, g),
                                 ApplyFill(w.proc.value.state, g))] != w.disk.lines;
  }

  /** Reading one row is counting it. */
  lemma RowIsCounted(w: World, s: State, keys: map<OrderDay, Key>, number: OrderNumber, f: LedgerFill)
    requires Counting(w, s, keys)
    ensures var t := Count(keys, s.target, TallyOf(w), Entry(number, f));
            && (Execution(f).Some? && LedgerFillIn(w, number, Execution(f).value).1 <==> t.Some?)
            && (t.Some? ==>
                  var w1 := LedgerFillIn(w, number, Execution(f).value).0;
                  Counting(w1, s, keys) && TallyOf(w1) == t.value)
  {
    var p := w.proc.value;
    RowIsAttributed(p.state, w.disk.lines, keys, number, f);
    if RowFits(keys, p.state.fills, number, f) && f.id !in p.state.fills {
      var g := FillOf(keys, number, f);
      NewFillCommits(w, g);
      if OnFillIn(w, g).1 == Committed {
        NewRowSettles(w, g);
      }
    }
  }

  function EntriesOf(number: OrderNumber, fills: seq<LedgerFill>): seq<Entry> {
    seq(|fills|, k requires 0 <= k < |fills| => Entry(number, fills[k]))
  }

  /** Reading the rows of one order is counting them. */
  ghost predicate RowsMatch(
      w: World, s: State, keys: map<OrderDay, Key>, number: OrderNumber, fills: seq<LedgerFill>, seen: set<FillID>)
    requires Runnable(w)
  {
    var t := CountAll(keys, s.target, s.intent.side, TallyOf(w), EntriesOf(number, fills), seen);
    var (w1, after) := RowsIn(w, s.intent.side, number, fills, seen);
    && (after.Some? <==> t.Some?)
    && (t.Some? ==> Counting(w1, s, keys) && TallyOf(w1) == t.value && after == Some(seen + IdsOfRows(fills)))
  }

  lemma EntriesStep(number: OrderNumber, f: LedgerFill, rest: seq<LedgerFill>)
    ensures EntriesOf(number, [f] + rest) == [Entry(number, f)] + EntriesOf(number, rest)
    ensures IdsOfRows([f] + rest) == {f.id} + IdsOfRows(rest)
  {
  }

  lemma CountStep(
      keys: map<OrderDay, Key>, target: int, side: Side, t: Tally, e: Entry, rest: seq<Entry>, seen: set<FillID>,
      t1: Tally)
    requires e.row.side == side && e.row.id !in seen && Count(keys, target, t, e) == Some(t1)
    ensures CountAll(keys, target, side, t, [e] + rest, seen)
            == CountAll(keys, target, side, t1, rest, seen + {e.row.id})
  {
    assert ([e] + rest)[0] == e && ([e] + rest)[1..] == rest;
  }

  lemma ReadStep(
      w: World, side: Side, number: OrderNumber, f: LedgerFill, rest: seq<LedgerFill>, seen: set<FillID>, w1: World)
    requires Runnable(w) && Runnable(w1) && f.side == side && f.id !in seen && Execution(f).Some?
    requires LedgerFillIn(w, number, Execution(f).value) == (w1, true)
    ensures RowsIn(w, side, number, [f] + rest, seen) == RowsIn(w1, side, number, rest, seen + {f.id})
  {
    assert ([f] + rest)[0] == f && ([f] + rest)[1..] == rest;
  }

  /** The first row decides, or leaves the rest to decide. */
  lemma RowsMatchStep(
      w: World, s: State, keys: map<OrderDay, Key>, number: OrderNumber, f: LedgerFill, rest: seq<LedgerFill>,
      seen: set<FillID>, w1: World)
    requires Counting(w, s, keys) && Runnable(w1) && f.side == s.intent.side && f.id !in seen && Execution(f).Some?
    requires LedgerFillIn(w, number, Execution(f).value) == (w1, true)
    requires Count(keys, s.target, TallyOf(w), Entry(number, f)) == Some(TallyOf(w1))
    requires RowsMatch(w1, s, keys, number, rest, seen + {f.id})
    ensures RowsMatch(w, s, keys, number, [f] + rest, seen)
  {
    EntriesStep(number, f, rest);
    CountStep(keys, s.target, s.intent.side, TallyOf(w), Entry(number, f), EntriesOf(number, rest), seen, TallyOf(w1));
    ReadStep(w, s.intent.side, number, f, rest, seen, w1);
    assert seen + IdsOfRows([f] + rest) == (seen + {f.id}) + IdsOfRows(rest);
  }

  lemma FirstRowRefused(
      w: World, s: State, keys: map<OrderDay, Key>, number: OrderNumber, f: LedgerFill, rest: seq<LedgerFill>,
      seen: set<FillID>)
    requires Counting(w, s, keys)
    requires f.side != s.intent.side || f.id in seen || Count(keys, s.target, TallyOf(w), Entry(number, f)).None?
    ensures RowsMatch(w, s, keys, number, [f] + rest, seen)
  {
    var fills := [f] + rest;
    assert fills[0] == f && fills[1..] == rest;
    assert EntriesOf(number, fills)[0] == Entry(number, f);
    RowIsCounted(w, s, keys, number, f);
  }

  lemma NoRowsMatch(w: World, s: State, keys: map<OrderDay, Key>, number: OrderNumber, seen: set<FillID>)
    requires Counting(w, s, keys)
    ensures RowsMatch(w, s, keys, number, [], seen)
  {
    assert IdsOfRows([]) == {};
    assert seen + {} == seen;
  }

  lemma {:induction false} RowsAreCounted(
      w: World, s: State, keys: map<OrderDay, Key>, number: OrderNumber, fills: seq<LedgerFill>, seen: set<FillID>)
    requires Counting(w, s, keys)
    ensures RowsMatch(w, s, keys, number, fills, seen)
    decreases |fills|
  {
    if fills == [] {
      NoRowsMatch(w, s, keys, number, seen);
    } else {
      var f, rest := fills[0], fills[1..];
      assert fills == [f] + rest;
      if f.side != s.intent.side || f.id in seen || Count(keys, s.target, TallyOf(w), Entry(number, f)).None? {
        FirstRowRefused(w, s, keys, number, f, rest, seen);
      } else {
        RowIsCounted(w, s, keys, number, f);
        var w1 := LedgerFillIn(w, number, Execution(f).value).0;
        RowsAreCounted(w1, s, keys, number, rest, seen + {f.id});
        RowsMatchStep(w, s, keys, number, f, rest, seen, w1);
      }
    }
  }

  // ---------------------------------------------------------------- the orders

  function EntriesOfAll(orders: seq<LedgerOrder>): seq<Entry> {
    if orders == [] then [] else EntriesOf(Normalize(orders[0].number), orders[0].fills) + EntriesOfAll(orders[1..])
  }

  function IdsOfEntries(es: seq<Entry>): set<FillID> {
    set e | e in es :: e.row.id
  }

  lemma IdsOfOne(number: OrderNumber, fills: seq<LedgerFill>)
    ensures IdsOfEntries(EntriesOf(number, fills)) == IdsOfRows(fills)
  {
    var es := EntriesOf(number, fills);
    forall f | f in fills
      ensures f.id in IdsOfEntries(es)
    {
      var k :| 0 <= k < |fills| && fills[k] == f;
      assert es[k] == Entry(number, f) && es[k] in es;
    }
  }

  /** Counting one list after another. */
  lemma {:induction false} CountAppend(
      keys: map<OrderDay, Key>, target: int, side: Side, t: Tally, a: seq<Entry>, b: seq<Entry>, seen: set<FillID>)
    ensures CountAll(keys, target, side, t, a + b, seen) ==
            match CountAll(keys, target, side, t, a, seen)
            case None => None
            case Some(t1) => CountAll(keys, target, side, t1, b, seen + IdsOfEntries(a))
    decreases |a|
  {
    if a == [] {
      assert a + b == b && seen + IdsOfEntries(a) == seen;
    } else {
      assert (a + b)[0] == a[0] && (a + b)[1..] == a[1..] + b;
      var c := Count(keys, target, t, a[0]);
      if c.Some? {
        CountAppend(keys, target, side, c.value, a[1..], b, seen + {a[0].row.id});
        assert IdsOfEntries(a) == {a[0].row.id} + IdsOfEntries(a[1..]) by {
          assert a == [a[0]] + a[1..];
        }
        assert seen + IdsOfEntries(a) == (seen + {a[0].row.id}) + IdsOfEntries(a[1..]);
      }
    }
  }

  /** What a refresh asks of one order besides its rows. */
  ghost predicate OrderReads(s: State, keys: map<OrderDay, Key>, o: LedgerOrder, read: Readings)
    requires OrdersKnown(s, keys)
  {
    && OrderReadable(s, keys, o, read)
    && SumQty(o.fills) == o.cumulativeQty == FilledAt(s, keys, o, read)
  }

  /** All different, and none of them seen. */
  predicate Apart(ns: seq<OrderNumber>, seen: set<OrderNumber>) {
    && (forall i, j :: 0 <= i < j < |ns| ==> ns[i] != ns[j])
    && (forall i :: 0 <= i < |ns| ==> ns[i] !in seen)
  }

  function NumberList(orders: seq<LedgerOrder>): seq<OrderNumber> {
    seq(|orders|, i requires 0 <= i < |orders| => Normalize(orders[i].number))
  }

  ghost predicate AllRead(s: State, keys: map<OrderDay, Key>, orders: seq<LedgerOrder>, read: Readings)
    requires OrdersKnown(s, keys)
  {
    forall i :: 0 <= i < |orders| ==> OrderReads(s, keys, orders[i], read)
  }

  lemma ApartStep(n: OrderNumber, rest: seq<OrderNumber>, seen: set<OrderNumber>)
    ensures Apart([n] + rest, seen) <==> n !in seen && Apart(rest, seen + {n})
  {
    var all := [n] + rest;
    assert all[0] == n;
    assert forall i :: 0 <= i < |rest| ==> all[i + 1] == rest[i];
    assert forall i :: 0 < i < |all| ==> all[i] == rest[i - 1];
    if Apart(all, seen) {
      forall i, j | 0 <= i < j < |rest|
        ensures rest[i] != rest[j]
      {
        assert all[i + 1] != all[j + 1];
      }
      forall i | 0 <= i < |rest|
        ensures rest[i] !in seen + {n}
      {
        assert all[0] != all[i + 1];
      }
    }
  }

  lemma NumberListStep(o: LedgerOrder, rest: seq<LedgerOrder>)
    ensures NumberList([o] + rest) == [Normalize(o.number)] + NumberList(rest)
  {
  }

  lemma AllReadStep(s: State, keys: map<OrderDay, Key>, o: LedgerOrder, rest: seq<LedgerOrder>, read: Readings)
    requires OrdersKnown(s, keys)
    ensures AllRead(s, keys, [o] + rest, read) <==> OrderReads(s, keys, o, read) && AllRead(s, keys, rest, read)
  {
    var all := [o] + rest;
    assert all[0] == o && forall i :: 0 <= i < |rest| ==> all[i + 1] == rest[i];
  }

  /** What the checks of the orders say together: counted, read and told apart. */
  ghost predicate OrdersPass(
      t: Option<Tally>, s: State, keys: map<OrderDay, Key>, orders: seq<LedgerOrder>, read: Readings,
      seen: set<OrderNumber>)
    requires OrdersKnown(s, keys)
  {
    t.Some? && AllRead(s, keys, orders, read) && Apart(NumberList(orders), seen)
  }

  /** Reading the orders is counting their rows, order by order. */
  ghost predicate OrdersMatch(
      w: World, s: State, keys: map<OrderDay, Key>, orders: seq<LedgerOrder>, read: Readings, so: Progress)
    requires Runnable(w) && OrdersKnown(s, keys)
  {
    var end := OrdersIn(w, s, keys, orders, read, so).1;
    && (end.Some? <==>
          OrdersPass(CountAll(keys, s.target, s.intent.side, TallyOf(w), EntriesOfAll(orders), so.seen),
                     s, keys, orders, read, so.seenOrders))
    && (end.Some? ==> end.value.seen == so.seen + IdsOfOrders(orders))
  }

  lemma NoOrdersMatch(w: World, s: State, keys: map<OrderDay, Key>, read: Readings, so: Progress)
    requires Runnable(w) && OrdersKnown(s, keys)
    ensures OrdersMatch(w, s, keys, [], read, so)
  {
    assert IdsOfOrders([]) == {} && so.seen + {} == so.seen;
  }

  /** One order is read exactly when its rows are counted and the rest of it agrees. */
  lemma OrderIsCounted(w: World, s: State, keys: map<OrderDay, Key>, o: LedgerOrder, read: Readings, so: Progress)
    requires Counting(w, s, keys) && OrdersKnown(s, keys)
    ensures var number := Normalize(o.number);
            var t := CountAll(keys, s.target, s.intent.side, TallyOf(w), EntriesOf(number, o.fills), so.seen);
            var (w1, next) := OrderIn(w, s, keys, o, read, so);
            && (next.Some? <==> t.Some? && OrderReads(s, keys, o, read) && number !in so.seenOrders)
            && (next.Some? ==>
                  && Counting(w1, s, keys) && TallyOf(w1) == t.value
                  && next.value.seen == so.seen + IdsOfRows(o.fills)
                  && next.value.seenOrders == so.seenOrders + {number})
  {
    RowsAreCounted(w, s, keys, Normalize(o.number), o.fills, so.seen);
  }

  lemma EntriesJoin(o: LedgerOrder, rest: seq<LedgerOrder>)
    ensures EntriesOfAll([o] + rest) == EntriesOf(Normalize(o.number), o.fills) + EntriesOfAll(rest)
    ensures IdsOfOrders([o] + rest) == IdsOfRows(o.fills) + IdsOfOrders(rest)
  {
    assert ([o] + rest)[0] == o && ([o] + rest)[1..] == rest;
  }

  /** How counting goes on after the first order. */
  lemma CountFirstOrder(
      keys: map<OrderDay, Key>, target: int, side: Side, t: Tally, o: LedgerOrder, rest: seq<LedgerOrder>,
      seen: set<FillID>)
    ensures CountAll(keys, target, side, t, EntriesOfAll([o] + rest), seen) ==
            match CountAll(keys, target, side, t, EntriesOf(Normalize(o.number), o.fills), seen)
            case None => None
            case Some(t1) => CountAll(keys, target, side, t1, EntriesOfAll(rest), seen + IdsOfRows(o.fills))
  {
    EntriesJoin(o, rest);
    IdsOfOne(Normalize(o.number), o.fills);
    CountAppend(keys, target, side, t, EntriesOf(Normalize(o.number), o.fills), EntriesOfAll(rest), seen);
  }

  lemma OrdersPassStep(
      t: Option<Tally>, s: State, keys: map<OrderDay, Key>, o: LedgerOrder, rest: seq<LedgerOrder>, read: Readings,
      seen: set<OrderNumber>)
    requires OrdersKnown(s, keys)
    ensures OrdersPass(t, s, keys, [o] + rest, read, seen) <==>
            && OrderReads(s, keys, o, read) && Normalize(o.number) !in seen
            && OrdersPass(t, s, keys, rest, read, seen + {Normalize(o.number)})
  {
    NumberListStep(o, rest);
    ApartStep(Normalize(o.number), NumberList(rest), seen);
    AllReadStep(s, keys, o, rest, read);
  }

  lemma OrdersInStep(
      w: World, s: State, keys: map<OrderDay, Key>, o: LedgerOrder, rest: seq<LedgerOrder>, read: Readings,
      so: Progress, w1: World, next: Option<Progress>)
    requires Runnable(w) && OrdersKnown(s, keys) && OrderIn(w, s, keys, o, read, so) == (w1, next)
    requires next.Some? ==> Runnable(w1)
    ensures OrdersIn(w, s, keys, [o] + rest, read, so) ==
            if next == None then (w1, None) else OrdersIn(w1, s, keys, rest, read, next.value)
  {
    assert ([o] + rest)[0] == o && ([o] + rest)[1..] == rest;
  }

  /** The first order decides, or leaves the rest to decide. */
  lemma OrdersMatchStep(
      w: World, s: State, keys: map<OrderDay, Key>, o: LedgerOrder, rest: seq<LedgerOrder>, read: Readings,
      so: Progress, w1: World, next: Option<Progress>)
    requires Counting(w, s, keys) && OrdersKnown(s, keys) && OrderIn(w, s, keys, o, read, so) == (w1, next)
    requires next.Some? ==> Runnable(w1) && OrdersMatch(w1, s, keys, rest, read, next.value)
    ensures OrdersMatch(w, s, keys, [o] + rest, read, so)
  {
    OrderIsCounted(w, s, keys, o, read, so);
    OrdersInStep(w, s, keys, o, rest, read, so, w1, next);
    CountFirstOrder(keys, s.target, s.intent.side, TallyOf(w), o, rest, so.seen);
    var t := CountAll(keys, s.target, s.intent.side, TallyOf(w), EntriesOfAll([o] + rest), so.seen);
    OrdersPassStep(t, s, keys, o, rest, read, so.seenOrders);
    EntriesJoin(o, rest);
  }

  lemma {:induction false} OrdersAreCounted(
      w: World, s: State, keys: map<OrderDay, Key>, orders: seq<LedgerOrder>, read: Readings, so: Progress)
    requires Counting(w, s, keys) && OrdersKnown(s, keys)
    ensures OrdersMatch(w, s, keys, orders, read, so)
    decreases |orders|
  {
    if orders == [] {
      NoOrdersMatch(w, s, keys, read, so);
    } else {
      var o, rest := orders[0], orders[1..];
      assert orders == [o] + rest;
      var (w1, next) := OrderIn(w, s, keys, o, read, so);
      OrderIsCounted(w, s, keys, o, read, so);
      if next.Some? {
        OrdersAreCounted(w1, s, keys, rest, read, next.value);
      }
      OrdersMatchStep(w, s, keys, o, rest, read, so, w1, next);
    }
  }

  // ---------------------------------------------------------------- counting, all at once

  /** The entries whose fills are not recorded yet. */
  function NewOnes(known: set<FillID>, es: seq<Entry>): seq<Entry> {
    if es == [] then [] else (if es[0].row.id in known then [] else [es[0]]) + NewOnes(known, es[1..])
  }

  function Shares(es: seq<Entry>): int {
    if es == [] then 0 else es[0].row.qty + Shares(es[1..])
  }

  /** New fills stay within the target, and the disk takes their records. */
  ghost predicate Affordable(t: Tally, target: int, news: seq<Entry>) {
    && (forall j :: 0 <= j < |news| && j < |t.plan| ==> t.plan[j] == Synced)
    && (news != [] ==> t.filled + Shares(news) <= target)
  }

  /** Every entry fits on its own, all under different ids not seen before. */
  ghost predicate EntriesFit(
      keys: map<OrderDay, Key>, side: Side, fills: map<FillID, Fill>, es: seq<Entry>, seen: set<FillID>)
  {
    && (forall i :: 0 <= i < |es| ==>
          es[i].row.side == side && es[i].row.id !in seen && RowFits(keys, fills, es[i].number, es[i].row))
    && (forall i, j :: 0 <= i < j < |es| ==> es[i].row.id != es[j].row.id)
  }

  lemma {:induction false} NewOnesIgnore(known: set<FillID>, id: FillID, es: seq<Entry>)
    requires forall i :: 0 <= i < |es| ==> es[i].row.id != id
    ensures NewOnes(known + {id}, es) == NewOnes(known, es)
    decreases |es|
  {
    if es != [] {
      NewOnesIgnore(known, id, es[1..]);
    }
  }

  lemma {:induction false} NewSharesCount(known: set<FillID>, es: seq<Entry>)
    requires forall i :: 0 <= i < |es| ==> es[i].row.qty >= 1
    ensures Shares(NewOnes(known, es)) >= 0
    decreases |es|
  {
    if es != [] {
      NewSharesCount(known, es[1..]);
      var rest := NewOnes(known, es[1..]);
      if es[0].row.id in known {
        assert NewOnes(known, es) == rest;
      } else {
        assert ([es[0]] + rest)[1..] == rest;
      }
    }
  }

  lemma AffordStep(t: Tally, target: int, e: Entry, news: seq<Entry>)
    requires Shares(news) >= 0
    ensures Affordable(t, target, [e] + news) <==>
            && (t.plan == [] || t.plan[0] == Synced) && t.filled + e.row.qty <= target
            && Affordable(Tally(t.fills, t.filled + e.row.qty, if t.plan == [] then [] else t.plan[1..]), target, news)
  {
    var all := [e] + news;
    assert all[1..] == news;
    var plan := if t.plan == [] then [] else t.plan[1..];
    if Affordable(t, target, all) {
      forall j | 0 <= j < |news| && j < |plan|
        ensures plan[j] == Synced
      {
        assert t.plan[j + 1] == Synced;
      }
      assert |t.plan| > 0 ==> t.plan[0] == Synced;
    }
    if (t.plan == [] || t.plan[0] == Synced) && t.filled + e.row.qty <= target
       && Affordable(Tally(t.fills, t.filled + e.row.qty, plan), target, news) {
      forall j | 0 <= j < |all| && j < |t.plan|
        ensures t.plan[j] == Synced
      {
        assert j > 0 ==> t.plan[j] == plan[j - 1];
      }
    }
  }

  /** Affordability does not look at the fills. */
  lemma AffordIgnoresFills(t: Tally, u: Tally, target: int, news: seq<Entry>)
    requires t.filled == u.filled && t.plan == u.plan
    ensures Affordable(t, target, news) <==> Affordable(u, target, news)
  {
  }

  /** The entries fit one by one. */
  lemma EntriesFitStep(
      keys: map<OrderDay, Key>, side: Side, fills: map<FillID, Fill>, more: map<FillID, Fill>, e: Entry,
      rest: seq<Entry>, seen: set<FillID>)
    requires e.row.side == side && e.row.id !in seen && RowFits(keys, fills, e.number, e.row)
    requires more == fills[e.row.id := FillOf(keys, e.number, e.row)]
    ensures EntriesFit(keys, side, fills, [e] + rest, seen) <==> EntriesFit(keys, side, more, rest, seen + {e.row.id})
  {
    var all := [e] + rest;
    assert forall i :: 0 <= i < |rest| ==> all[i + 1] == rest[i];
    if EntriesFit(keys, side, fills, all, seen) {
      forall i | 0 <= i < |rest|
        ensures rest[i].row.side == side && rest[i].row.id !in seen + {e.row.id}
        ensures RowFits(keys, more, rest[i].number, rest[i].row)
      {
        assert all[0].row.id != all[i + 1].row.id;
      }
      forall i, j | 0 <= i < j < |rest|
        ensures rest[i].row.id != rest[j].row.id
      {
        assert all[i + 1].row.id != all[j + 1].row.id;
      }
    }
    if EntriesFit(keys, side, more, rest, seen + {e.row.id}) {
      forall i | 0 <= i < |all|
        ensures all[i].row.side == side && all[i].row.id !in seen && RowFits(keys, fills, all[i].number, all[i].row)
      {
        assert i > 0 ==> all[i] == rest[i - 1];
      }
      forall i, j | 0 <= i < j < |all|
        ensures all[i].row.id != all[j].row.id
      {
        assert all[j] == rest[j - 1] && (i > 0 ==> all[i] == rest[i - 1]);
      }
    }
  }

  /** All entries fit, and what is new of them is affordable. */
  ghost predicate AllCountable(
      keys: map<OrderDay, Key>, target: int, side: Side, t: Tally, es: seq<Entry>, seen: set<FillID>)
  {
    EntriesFit(keys, side, t.fills, es, seen) && Affordable(t, target, NewOnes(t.fills.Keys, es))
  }

  lemma NewOnesStep(known: set<FillID>, e: Entry, rest: seq<Entry>)
    ensures NewOnes(known, [e] + rest) == (if e.row.id in known then [] else [e]) + NewOnes(known, rest)
  {
    assert ([e] + rest)[0] == e && ([e] + rest)[1..] == rest;
  }

  lemma FittingSharesCount(
      keys: map<OrderDay, Key>, side: Side, fills: map<FillID, Fill>, es: seq<Entry>, seen: set<FillID>)
    requires EntriesFit(keys, side, fills, es, seen)
    ensures Shares(NewOnes(fills.Keys, es)) >= 0
  {
    NewSharesCount(fills.Keys, es);
  }

  lemma CountedOnce(
      keys: map<OrderDay, Key>, target: int, side: Side, t: Tally, e: Entry, rest: seq<Entry>, seen: set<FillID>,
      t1: Tally)
    requires e.row.side == side && e.row.id !in seen && Count(keys, target, t, e) == Some(t1)
    ensures AllCountable(keys, target, side, t, [e] + rest, seen)
            <==> AllCountable(keys, target, side, t1, rest, seen + {e.row.id})
  {
    var id := e.row.id;
    var more := t.fills[id := FillOf(keys, e.number, e.row)];
    assert t1.fills == more;
    EntriesFitStep(keys, side, t.fills, more, e, rest, seen);
    if EntriesFit(keys, side, more, rest, seen + {id}) {
      assert more.Keys == t.fills.Keys + {id};
      NewOnesIgnore(t.fills.Keys, id, rest);
      FittingSharesCount(keys, side, more, rest, seen + {id});
      var news := NewOnes(t.fills.Keys, rest);
      NewOnesStep(t.fills.Keys, e, rest);
      if id in t.fills {
        assert t1 == t;
        assert [] + news == news;
      } else {
        AffordStep(t, target, e, news);
        AffordIgnoresFills(t1, Tally(t.fills, t.filled + e.row.qty, if t.plan == [] then [] else t.plan[1..]),
          target, news);
      }
    }
  }

  lemma RefusedIsNotCountable(
      keys: map<OrderDay, Key>, target: int, side: Side, t: Tally, e: Entry, rest: seq<Entry>, seen: set<FillID>)
    requires e.row.side != side || e.row.id in seen || Count(keys, target, t, e).None?
    ensures !AllCountable(keys, target, side, t, [e] + rest, seen)
  {
    var all := [e] + rest;
    assert all[0] == e;
    if EntriesFit(keys, side, t.fills, all, seen) {
      assert forall i :: 0 <= i < |rest| ==> all[i + 1] == rest[i];
      NewSharesCount(t.fills.Keys, rest);
      NewOnesStep(t.fills.Keys, e, rest);
      AffordStep(t, target, e, NewOnes(t.fills.Keys, rest));
    }
  }

  /** Counting row after row succeeds exactly when all rows together are countable. */
  lemma {:induction false} CountsExactlyWhen(
      keys: map<OrderDay, Key>, target: int, side: Side, t: Tally, es: seq<Entry>, seen: set<FillID>)
    ensures CountAll(keys, target, side, t, es, seen).Some? <==> AllCountable(keys, target, side, t, es, seen)
    decreases |es|
  {
    if es != [] {
      var e, rest := es[0], es[1..];
      assert es == [e] + rest;
      if e.row.side != side || e.row.id in seen || Count(keys, target, t, e).None? {
        RefusedIsNotCountable(keys, target, side, t, e, rest, seen);
      } else {
        var t1 := Count(keys, target, t, e).value;
        CountsExactlyWhen(keys, target, side, t1, rest, seen + {e.row.id});
        CountedOnce(keys, target, side, t, e, rest, seen, t1);
      }
    }
  }

  // ---------------------------------------------------------------- journal and snapshot order for order

  lemma {:induction false} ApartCount(ns: seq<OrderNumber>)
    requires Apart(ns, {})
    ensures |set n | n in ns| == |ns|
    decreases |ns|
  {
    if ns != [] {
      var rest := ns[1..];
      assert ns == [ns[0]] + rest;
      ApartStep(ns[0], rest, {});
      ApartCount(rest);
      assert (set n | n in ns) == {ns[0]} + (set n | n in rest);
      assert ns[0] !in rest;
    }
  }

  lemma NumberListIsNumbers(orders: seq<LedgerOrder>)
    ensures (set n | n in NumberList(orders)) == NumbersOf(orders)
  {
    forall o | o in orders
      ensures Normalize(o.number) in NumberList(orders)
    {
      var i :| 0 <= i < |orders| && orders[i] == o;
      assert NumberList(orders)[i] == Normalize(o.number);
    }
  }

  /** One order more is one number more. */
  lemma OneNumberMore(keys: map<OrderDay, Key>, id: OrderDay)
    requires id in keys && forall a :: a in keys && a.number == id.number ==> a == id
    ensures JournalNumbers(keys) == JournalNumbers(keys - {id}) + {id.number}
    ensures id.number !in JournalNumbers(keys - {id})
  {
  }

  lemma OneOrderLess(keys: map<OrderDay, Key>, id: OrderDay)
    requires id in keys
    ensures (keys - {id}).Keys == keys.Keys - {id} && |keys| == |keys - {id}| + 1
  {
    assert (keys - {id}).Keys == keys.Keys - {id};
    assert |keys - {id}| == |(keys - {id}).Keys| && |keys| == |keys.Keys|;
  }

  lemma {:induction false} NumbersCountOrders(keys: map<OrderDay, Key>)
    requires forall a, b :: a in keys && b in keys && a.number == b.number ==> a == b
    ensures |JournalNumbers(keys)| == |keys|
    decreases keys.Keys
  {
    if keys.Keys == {} {
      assert JournalNumbers(keys) == {};
    } else {
      var id :| id in keys.Keys;
      OneOrderLess(keys, id);
      OneNumberMore(keys, id);
      NumbersCountOrders(keys - {id});
    }
  }

  /** Every journaled order is in the snapshot and the other way round, each number once on either side. */
  ghost predicate SameOrders(keys: map<OrderDay, Key>, orders: seq<LedgerOrder>) {
    && (forall a, b :: a in keys && b in keys && a.number == b.number ==> a == b)
    && (forall i, j :: 0 <= i < j < |orders| ==> Normalize(orders[i].number) != Normalize(orders[j].number))
    && JournalNumbers(keys) == NumbersOf(orders)
  }

  /** The loop's checks of numbers and counts are exactly that. */
  lemma SameOrdersMeans(keys: map<OrderDay, Key>, orders: seq<LedgerOrder>)
    requires forall a, b :: a in keys && b in keys && a.number == b.number ==> a == b
    ensures SameOrders(keys, orders) <==>
            |keys| == |orders| && Apart(NumberList(orders), {}) && NumbersOf(orders) <= JournalNumbers(keys)
  {
    NumbersCountOrders(keys);
    NumberListIsNumbers(orders);
    if Apart(NumberList(orders), {}) {
      ApartCount(NumberList(orders));
      if |keys| == |orders| && NumbersOf(orders) <= JournalNumbers(keys) {
        SameSize(NumbersOf(orders), JournalNumbers(keys));
      }
    }
    assert Apart(NumberList(orders), {}) <==>
           forall i, j :: 0 <= i < j < |orders| ==> Normalize(orders[i].number) != Normalize(orders[j].number) by {
      assert forall i :: 0 <= i < |orders| ==> NumberList(orders)[i] == Normalize(orders[i].number);
    }
  }

  /** Ledger and broker show the same quantity for the journal's order `id`. */
  ghost predicate BrokerAgrees(s: State, keys: map<OrderDay, Key>, id: OrderDay, o: LedgerOrder, read: Readings)
    requires id in keys && SentKey(s.sent, keys[id])
  {
    var order := BrokerOrder(id.number, keys[id], id.day, s.sent[SentIndex(s.sent, keys[id]).value].qty);
    read(order).Some? && read(order).value.filled == o.cumulativeQty == SumQty(o.fills)
  }

  // ---------------------------------------------------------------- the theorem

  /** Journal, snapshot, broker, target and disk let a refresh through. */
  ghost predicate Reconciles(w: World, snap: Snapshot, read: Readings)
    requires Runnable(w)
  {
    var p, s := w.proc.value, w.proc.value.state;
    var rows := EntriesOfAll(snap.orders);
    && s.inFlight == None && snap.intentID == s.intent.intentID
    && BrokerKeys(w.disk.lines).Some?
    && var keys := BrokerKeys(w.disk.lines).value;
    && SameOrders(keys, snap.orders) && (forall id :: id in keys ==> SentKey(s.sent, keys[id]))
    && (s.order.Some? ==> exists id :: id in keys && keys[id] == s.order.value.key)
    && (forall id, o :: id in keys && o in snap.orders && id.number == Normalize(o.number) ==>
          BrokerAgrees(s, keys, id, o, read))
    && (rows != [] ==> p.err == None && s.Started())
    && EntriesFit(keys, s.intent.side, s.fills, rows, {})
    && Affordable(TallyOf(w), s.target, NewOnes(s.fills.Keys, rows))
    && (forall id :: id in s.fills ==> exists e :: e in rows && e.row.id == id)
  }

  lemma AllReadMeans(s: State, keys: map<OrderDay, Key>, orders: seq<LedgerOrder>, read: Readings)
    requires OrdersKnown(s, keys)
    ensures AllRead(s, keys, orders, read) <==>
            && NumbersOf(orders) <= JournalNumbers(keys)
            && forall id, o :: id in keys && o in orders && id.number == Normalize(o.number) ==>
                 BrokerAgrees(s, keys, id, o, read)
  {
    if AllRead(s, keys, orders, read) {
      forall o | o in orders
        ensures Normalize(o.number) in JournalNumbers(keys)
        ensures forall id :: id in keys && id.number == Normalize(o.number) ==> BrokerAgrees(s, keys, id, o, read)
      {
        var i :| 0 <= i < |orders| && orders[i] == o;
        assert OrderReads(s, keys, orders[i], read);
      }
    }
    if NumbersOf(orders) <= JournalNumbers(keys)
       && forall id, o :: id in keys && o in orders && id.number == Normalize(o.number) ==>
            BrokerAgrees(s, keys, id, o, read) {
      forall i | 0 <= i < |orders|
        ensures OrderReads(s, keys, orders[i], read)
      {
        var o := orders[i];
        assert o in orders && Normalize(o.number) in NumbersOf(orders);
        var id :| id in keys && id.number == Normalize(o.number);
        assert BrokerAgrees(s, keys, id, o, read);
      }
    }
  }

  /** A latched or unstarted executor counts no row. */
  lemma NoRowIsRead(w: World, side: Side, number: OrderNumber, fills: seq<LedgerFill>, seen: set<FillID>)
    requires Runnable(w) && (w.proc.value.err.Some? || !w.proc.value.state.Started())
    ensures RowsIn(w, side, number, fills, seen).1.Some? <==> fills == []
    ensures fills == [] ==> RowsIn(w, side, number, fills, seen) == (w, Some(seen))
  {
  }

  /** The orders of a latched or unstarted executor pass when they have no rows and agree. */
  ghost predicate RowlessMatch(
      w: World, s: State, keys: map<OrderDay, Key>, orders: seq<LedgerOrder>, read: Readings, so: Progress)
    requires Runnable(w) && OrdersKnown(s, keys)
  {
    var end := OrdersIn(w, s, keys, orders, read, so).1;
    && (end.Some? <==>
          EntriesOfAll(orders) == [] && AllRead(s, keys, orders, read) && Apart(NumberList(orders), so.seenOrders))
    && (end.Some? ==> end.value.seen == so.seen)
  }

  lemma RowlessStep(
      w: World, s: State, keys: map<OrderDay, Key>, o: LedgerOrder, rest: seq<LedgerOrder>, read: Readings,
      so: Progress, next: Option<Progress>)
    requires Runnable(w) && (w.proc.value.err.Some? || !w.proc.value.state.Started()) && OrdersKnown(s, keys)
    requires next == OrderIn(w, s, keys, o, read, so).1
    requires next.Some? ==> RowlessMatch(w, s, keys, rest, read, next.value)
    ensures RowlessMatch(w, s, keys, [o] + rest, read, so)
  {
    var w1 := OrderIn(w, s, keys, o, read, so).0;
    RowlessOrder(w, s, keys, o, read, so);
    OrdersInStep(w, s, keys, o, rest, read, so, w1, next);
    EntriesJoin(o, rest);
    AllReadStep(s, keys, o, rest, read);
    NumberListStep(o, rest);
    ApartStep(Normalize(o.number), NumberList(rest), so.seenOrders);
  }

  lemma RowlessOrder(w: World, s: State, keys: map<OrderDay, Key>, o: LedgerOrder, read: Readings, so: Progress)
    requires Runnable(w) && (w.proc.value.err.Some? || !w.proc.value.state.Started()) && OrdersKnown(s, keys)
    ensures var (w1, next) := OrderIn(w, s, keys, o, read, so);
            && (next.Some? <==>
                  o.fills == [] && OrderReads(s, keys, o, read) && Normalize(o.number) !in so.seenOrders)
            && (next.Some? ==>
                  && w1 == w && next.value.seen == so.seen
                  && next.value.seenOrders == so.seenOrders + {Normalize(o.number)})
  {
    NoRowIsRead(w, s.intent.side, Normalize(o.number), o.fills, so.seen);
  }

  lemma {:induction false} OnlyRowlessOrders(
      w: World, s: State, keys: map<OrderDay, Key>, orders: seq<LedgerOrder>, read: Readings, so: Progress)
    requires Runnable(w) && (w.proc.value.err.Some? || !w.proc.value.state.Started()) && OrdersKnown(s, keys)
    ensures RowlessMatch(w, s, keys, orders, read, so)
    decreases |orders|
  {
    if orders != [] {
      var o, rest := orders[0], orders[1..];
      assert orders == [o] + rest;
      var next := OrderIn(w, s, keys, o, read, so).1;
      if next.Some? {
        OnlyRowlessOrders(w, s, keys, rest, read, next.value);
      }
      RowlessStep(w, s, keys, o, rest, read, so, next);
    }
  }

  lemma {:induction false} IdsOfAll(orders: seq<LedgerOrder>)
    ensures IdsOfEntries(EntriesOfAll(orders)) == IdsOfOrders(orders)
    decreases |orders|
  {
    if orders == [] {
      assert IdsOfEntries([]) == {} == IdsOfOrders([]);
    } else {
      var o, rest := orders[0], orders[1..];
      assert orders == [o] + rest;
      IdsOfAll(rest);
      EntriesJoin(o, rest);
      IdsOfOne(Normalize(o.number), o.fills);
      IdsJoin(EntriesOf(Normalize(o.number), o.fills), EntriesOfAll(rest));
    }
  }

  lemma IdsJoin(a: seq<Entry>, b: seq<Entry>)
    ensures IdsOfEntries(a + b) == IdsOfEntries(a) + IdsOfEntries(b)
  {
    forall e | e in a || e in b
      ensures e in a + b
    {
    }
  }

  /** The rows may be read at all, and all of them count. */
  ghost predicate RowsCount(w: World, keys: map<OrderDay, Key>, rows: seq<Entry>)
    requires Runnable(w)
  {
    var p, s := w.proc.value, w.proc.value.state;
    && (rows != [] ==> p.err == None && s.Started())
    && AllCountable(keys, s.target, s.intent.side, TallyOf(w), rows, {})
  }

  /** Exactly when the loop over the snapshot reaches its end. */
  lemma LoopEndsExactlyWhen(w: World, keys: map<OrderDay, Key>, orders: seq<LedgerOrder>, read: Readings)
    requires Runnable(w) && BrokerKeys(w.disk.lines) == Some(keys) && OrdersKnown(w.proc.value.state, keys)
    ensures var s := w.proc.value.state;
            var end := OrdersIn(w, s, keys, orders, read, Progress({}, {}, true)).1;
            && (end.Some? <==>
                  && RowsCount(w, keys, EntriesOfAll(orders))
                  && AllRead(s, keys, orders, read) && Apart(NumberList(orders), {}))
            && (end.Some? ==> end.value.seen == IdsOfEntries(EntriesOfAll(orders)))
  {
    var p, s, so := w.proc.value, w.proc.value.state, Progress({}, {}, true);
    var rows := EntriesOfAll(orders);
    IdsOfAll(orders);
    if p.err == None && s.Started() {
      OrdersAreCounted(w, s, keys, orders, read, so);
      CountsExactlyWhen(keys, s.target, s.intent.side, TallyOf(w), rows, {});
      assert {} + IdsOfOrders(orders) == IdsOfOrders(orders);
    } else {
      OnlyRowlessOrders(w, s, keys, orders, read, so);
      assert IdsOfEntries([]) == {};
    }
  }

  /** What a refresh asks, given that the loop ends when it does. */
  lemma NilExactlyWhenTheLoopEnds(w: World, snap: Snapshot, read: Readings, keys: map<OrderDay, Key>)
    requires Runnable(w) && BrokerKeys(w.disk.lines) == Some(keys) && OrdersKnown(w.proc.value.state, keys)
    ensures var s := w.proc.value.state;
            RefreshIn(w, snap, read).1 <==>
              && s.inFlight == None && snap.intentID == s.intent.intentID && |keys| == |snap.orders|
              && (s.order.Some? ==> exists id :: id in keys && keys[id] == s.order.value.key)
              && RowsCount(w, keys, EntriesOfAll(snap.orders))
              && AllRead(s, keys, snap.orders, read) && Apart(NumberList(snap.orders), {})
              && s.fills.Keys <= IdsOfEntries(EntriesOfAll(snap.orders))
  {
    LoopEndsExactlyWhen(w, keys, snap.orders, read);
  }

  lemma UnknownOrdersFail(w: World, snap: Snapshot, read: Readings)
    requires Runnable(w)
    requires BrokerKeys(w.disk.lines).Some? ==>
               !OrdersKnown(w.proc.value.state, BrokerKeys(w.disk.lines).value)
    ensures !RefreshIn(w, snap, read).1 && !Reconciles(w, snap, read)
  {
  }

  lemma RowsCoverFills(fills: map<FillID, Fill>, rows: seq<Entry>)
    ensures fills.Keys <= IdsOfEntries(rows) <==> forall id :: id in fills ==> exists e :: e in rows && e.row.id == id
  {
  }

  /**
   * A refresh returns nil exactly when nothing is unresolved, the journal's orders are the
   * snapshot's and the working order is one of them, every row fits its order, the broker has
   * executed what the ledger shows for each, every recorded fill is still there, and the new ones
   * stay within the target and reach the disk.
   */
  lemma RefreshReturnsNilExactlyWhen(w: World, snap: Snapshot, read: Readings)
    requires Runnable(w)
    ensures RefreshIn(w, snap, read).1 <==> Reconciles(w, snap, read)
  {
    var s := w.proc.value.state;
    if BrokerKeys(w.disk.lines).Some? && OrdersKnown(s, BrokerKeys(w.disk.lines).value) {
      var keys := BrokerKeys(w.disk.lines).value;
      NilExactlyWhenTheLoopEnds(w, snap, read, keys);
      SameOrdersMeans(keys, snap.orders);
      AllReadMeans(s, keys, snap.orders, read);
      RowsCoverFills(s.fills, EntriesOfAll(snap.orders));
    } else {
      UnknownOrdersFail(w, snap, read);
    }
  }

  // ---------------------------------------------------------------- rows that fit nowhere

  /** A readable row that fits no order, or contradicts what is recorded, stops the executor. */
  lemma StrayRowsStopIt(w: World, s: State, keys: map<OrderDay, Key>, number: OrderNumber, f: LedgerFill)
    requires Counting(w, s, keys) && Execution(f).Some? && !RowFits(keys, w.proc.value.state.fills, number, f)
    ensures var (w1, ok) := LedgerFillIn(w, number, Execution(f).value);
            !ok && w1 == w.(proc := Some(w.proc.value.(err := Some(Attribution))))
  {
    RowIsAttributed(w.proc.value.state, w.disk.lines, keys, number, f);
  }

}
