/** Refreshing from the same snapshot with its orders, and the rows of each, in any other order. */
module Reordered {
  import opened Prices
  import opened Machine
  import opened Executors
  import opened Protocol
  import opened Ledger
  import opened Reconciled

  // ---------------------------------------------------------------- what a refresh that ended says of its snapshot

  ghost predicate DistinctIds(fills: seq<LedgerFill>) {
    forall i, j :: 0 <= i < j < |fills| ==> fills[i].id != fills[j].id
  }

  ghost predicate DistinctOrders(orders: seq<LedgerOrder>) {
    && (forall o :: o in orders ==> DistinctIds(o.fills))
    && (forall i, j :: 0 <= i < j < |orders| ==> IdsOfRows(orders[i].fills) !! IdsOfRows(orders[j].fills))
    && (forall i, j :: 0 <= i < j < |orders| ==> Normalize(orders[i].number) != Normalize(orders[j].number))
  }

  /** A latched executor reads no row. */
  ghost predicate MayRead(w: World, orders: seq<LedgerOrder>)
    requires Runnable(w)
  {
    forall o :: o in orders && o.fills != [] ==> w.proc.value.err == None
  }

  /** What reading rows to the end says of them. */
  ghost predicate RowsWereRead(
      w: World, side: Side, number: OrderNumber, fills: seq<LedgerFill>, seen: set<FillID>, after: set<FillID>)
    requires Runnable(w)
  {
    && DistinctIds(fills) && seen !! IdsOfRows(fills) && after == seen + IdsOfRows(fills)
    && if fills == [] then RowsIn(w, side, number, fills, seen).0 == w else w.proc.value.err == None
  }

  /** The first row, and the reading of the rest. */
  lemma FirstRowRead(
      w: World, side: Side, number: OrderNumber, fills: seq<LedgerFill>, seen: set<FillID>, after: set<FillID>)
    returns (w1: World)
    requires Runnable(w) && fills != [] && RowsIn(w, side, number, fills, seen).1 == Some(after)
    ensures Runnable(w1) && RowsIn(w1, side, number, fills[1..], seen + {fills[0].id}).1 == Some(after)
    ensures fills[0].id !in seen && w.proc.value.err == None
  {
    w1 := LedgerFillIn(w, number, Execution(fills[0]).value).0;
  }

  lemma {:induction false} ReadRowsAreDistinct(
      w: World, side: Side, number: OrderNumber, fills: seq<LedgerFill>, seen: set<FillID>, after: set<FillID>)
    requires Runnable(w) && RowsIn(w, side, number, fills, seen).1 == Some(after)
    ensures RowsWereRead(w, side, number, fills, seen, after)
    decreases |fills|
  {
    if fills == [] {
      assert IdsOfRows(fills) == {};
    } else {
      var w1 := FirstRowRead(w, side, number, fills, seen, after);
      ReadRowsAreDistinct(w1, side, number, fills[1..], seen + {fills[0].id}, after);
      DistinctIdsGrow(fills[0], fills[1..]);
      RowsReadJoin(fills[0], fills[1..], fills, seen, after);
    }
  }

  lemma RowsReadJoin(
      f: LedgerFill, rest: seq<LedgerFill>, fills: seq<LedgerFill>, seen: set<FillID>, after: set<FillID>)
    requires fills != [] && f == fills[0] && rest == fills[1..] && f.id !in seen
    requires DistinctIds([f] + rest) && IdsOfRows([f] + rest) == {f.id} + IdsOfRows(rest)
    requires seen + {f.id} !! IdsOfRows(rest) && after == seen + {f.id} + IdsOfRows(rest)
    ensures DistinctIds(fills) && seen !! IdsOfRows(fills) && after == seen + IdsOfRows(fills)
  {
    assert fills == [f] + rest;
  }

  lemma DistinctIdsGrow(f: LedgerFill, rest: seq<LedgerFill>)
    requires DistinctIds(rest) && f.id !in IdsOfRows(rest)
    ensures DistinctIds([f] + rest) && IdsOfRows([f] + rest) == {f.id} + IdsOfRows(rest)
  {
    var all := [f] + rest;
    forall j | 0 < j < |all|
      ensures all[j].id != f.id
    {
      assert all[j] == rest[j - 1] && rest[j - 1] in rest;
    }
  }

  lemma DistinctOrdersGrow(o: LedgerOrder, rest: seq<LedgerOrder>)
    requires DistinctIds(o.fills) && DistinctOrders(rest)
    requires IdsOfRows(o.fills) !! IdsOfOrders(rest) && Normalize(o.number) !in NumbersOf(rest)
    ensures DistinctOrders([o] + rest)
  {
    var all := [o] + rest;
    forall i, j | 0 <= i < j < |all|
      ensures IdsOfRows(all[i].fills) !! IdsOfRows(all[j].fills)
      ensures Normalize(all[i].number) != Normalize(all[j].number)
    {
      assert all[j] == rest[j - 1] && rest[j - 1] in rest;
      assert IdsOfRows(all[j].fills) <= IdsOfOrders(rest);
      assert Normalize(all[j].number) in NumbersOf(rest);
    }
  }

  /** Reading the orders from `w` ends with `end`. */
  ghost predicate ReadsTo(
      w: World, s: State, keys: map<OrderDay, Key>, orders: seq<LedgerOrder>, read: Readings, so: Progress,
      end: Progress)
  {
    Runnable(w) && OrdersKnown(s, keys) && OrdersIn(w, s, keys, orders, read, so).1 == Some(end)
  }

  lemma NothingReads(
      w: World, s: State, keys: map<OrderDay, Key>, read: Readings, so: Progress, end: Progress)
    requires ReadsTo(w, s, keys, [], read, so, end)
    ensures OrdersWereRead(w, [], so, end)
  {
    assert IdsOfOrders([]) == {} && NumbersOf([]) == {};
  }

  /** The first order, and the reading of the rest. */
  lemma FirstOrderRead(
      w: World, s: State, keys: map<OrderDay, Key>, orders: seq<LedgerOrder>, read: Readings, so: Progress,
      end: Progress)
    returns (w1: World, next: Progress)
    requires orders != [] && ReadsTo(w, s, keys, orders, read, so, end)
    ensures ReadsTo(w1, s, keys, orders[1..], read, next, end)
    ensures var o := orders[0];
            && DistinctIds(o.fills) && so.seen !! IdsOfRows(o.fills) && next.seen == so.seen + IdsOfRows(o.fills)
            && Normalize(o.number) !in so.seenOrders && next.seenOrders == so.seenOrders + {Normalize(o.number)}
            && (if o.fills == [] then w1 == w else w.proc.value.err == None)
  {
    var o := orders[0];
    var (x, p) := OrderIn(w, s, keys, o, read, so);
    w1, next := x, p.value;
    ReadRowsAreDistinct(w, s.intent.side, Normalize(o.number), o.fills, so.seen, next.seen);
  }

  ghost predicate OrdersWereRead(w: World, orders: seq<LedgerOrder>, so: Progress, end: Progress)
    requires Runnable(w)
  {
    && DistinctOrders(orders)
    && so.seen !! IdsOfOrders(orders) && end.seen == so.seen + IdsOfOrders(orders)
    && so.seenOrders !! NumbersOf(orders)
    && MayRead(w, orders)
  }

  lemma {:induction false} ReadOrdersAreDistinct(
      w: World, s: State, keys: map<OrderDay, Key>, orders: seq<LedgerOrder>, read: Readings, so: Progress,
      end: Progress)
    requires ReadsTo(w, s, keys, orders, read, so, end)
    ensures OrdersWereRead(w, orders, so, end)
    decreases |orders|
  {
    if orders == [] {
      NothingReads(w, s, keys, read, so, end);
    } else {
      var w1, next := FirstOrderRead(w, s, keys, orders, read, so, end);
      ReadOrdersAreDistinct(w1, s, keys, orders[1..], read, next, end);
      OrdersReadJoin(w, w1, orders[0], orders[1..], so, next, end);
      assert orders == [orders[0]] + orders[1..];
    }
  }

  lemma OrdersReadJoin(
      w: World, w1: World, o: LedgerOrder, rest: seq<LedgerOrder>, so: Progress, next: Progress, end: Progress)
    requires Runnable(w) && Runnable(w1) && OrdersWereRead(w1, rest, next, end)
    requires DistinctIds(o.fills) && so.seen !! IdsOfRows(o.fills) && next.seen == so.seen + IdsOfRows(o.fills)
    requires Normalize(o.number) !in so.seenOrders && next.seenOrders == so.seenOrders + {Normalize(o.number)}
    requires if o.fills == [] then w1 == w else w.proc.value.err == None
    ensures OrdersWereRead(w, [o] + rest, so, end)
  {
    DistinctOrdersGrow(o, rest);
    assert IdsOfOrders([o] + rest) == IdsOfRows(o.fills) + IdsOfOrders(rest);
    NumbersJoin(o, rest);
  }

  // ---------------------------------------------------------------- reading recorded rows in any order

  lemma RecordedRowIsRead(v: World, number: OrderNumber, f: LedgerFill)
    requires Runnable(v) && v.proc.value.err == None && BrokerKeys(v.disk.lines).Some?
    requires RowRecorded(v.proc.value.state, BrokerKeys(v.disk.lines).value, number, f)
    ensures Execution(f).Some? && LedgerFillIn(v, number, Execution(f).value) == (v, true)
  {
  }

  /** Recorded rows with distinct ids are read without moving anything, whatever their order. */
  lemma {:induction false} RecordedRowsAreRead(
      v: World, side: Side, number: OrderNumber, fills: seq<LedgerFill>, seen: set<FillID>)
    requires Runnable(v) && (fills != [] ==> v.proc.value.err == None) && BrokerKeys(v.disk.lines).Some?
    requires forall f :: f in fills ==>
               f.side == side && RowRecorded(v.proc.value.state, BrokerKeys(v.disk.lines).value, number, f)
    requires DistinctIds(fills) && seen !! IdsOfRows(fills)
    ensures RowsIn(v, side, number, fills, seen) == (v, Some(seen + IdsOfRows(fills)))
    decreases |fills|
  {
    if fills == [] {
      assert seen + IdsOfRows(fills) == seen;
    } else {
      var f, rest := fills[0], fills[1..];
      assert fills == [f] + rest && f in fills;
      assert f.id in IdsOfRows(fills);
      assert IdsOfRows(fills) == {f.id} + IdsOfRows(rest);
      RecordedRowIsRead(v, number, f);
      assert DistinctIds(rest) && f.id !in IdsOfRows(rest);
      RecordedRowsAreRead(v, side, number, rest, seen + {f.id});
      assert seen + IdsOfRows(fills) == (seen + {f.id}) + IdsOfRows(rest);
    }
  }

  lemma AgreedOrderIsRead(v: World, s: State, keys: map<OrderDay, Key>, o: LedgerOrder, read: Readings, so: Progress)
    requires Runnable(v) && (o.fills != [] ==> v.proc.value.err == None)
    requires BrokerKeys(v.disk.lines) == Some(keys) && OrdersKnown(s, keys)
    requires OrderAgrees(v.proc.value.state, s, keys, o, read) && DistinctIds(o.fills)
    requires so.seen !! IdsOfRows(o.fills) && Normalize(o.number) !in so.seenOrders
    ensures OrderIn(v, s, keys, o, read, so) ==
            (v, Some(Progress(so.seen + IdsOfRows(o.fills), so.seenOrders + {Normalize(o.number)},
                              so.complete && IsTerminal(s, keys, o, read))))
  {
    RecordedRowsAreRead(v, s.intent.side, Normalize(o.number), o.fills, so.seen);
  }

  /** Orders that agree, with distinct ids and numbers, are read without moving anything, whatever their order. */
  lemma {:induction false} AgreedOrdersAreRead(
      v: World, s: State, keys: map<OrderDay, Key>, orders: seq<LedgerOrder>, read: Readings, so: Progress)
    requires Runnable(v) && MayRead(v, orders) && BrokerKeys(v.disk.lines) == Some(keys) && OrdersKnown(s, keys)
    requires AllAgree(v.proc.value.state, s, keys, orders, read) && DistinctOrders(orders)
    requires so.seen !! IdsOfOrders(orders) && so.seenOrders !! NumbersOf(orders)
    ensures OrdersIn(v, s, keys, orders, read, so) ==
            (v, Some(Progress(so.seen + IdsOfOrders(orders), so.seenOrders + NumbersOf(orders),
                              so.complete && AllTerminal(s, keys, orders, read))))
    decreases |orders|
  {
    if orders == [] {
      assert so.seen + IdsOfOrders(orders) == so.seen && so.seenOrders + NumbersOf(orders) == so.seenOrders;
    } else {
      var o, rest := orders[0], orders[1..];
      FirstOrderApart(o, rest, orders);
      assert OrderAgrees(v.proc.value.state, s, keys, o, read);
      AgreedOrderIsRead(v, s, keys, o, read, so);
      var next := OrderIn(v, s, keys, o, read, so).1.value;
      AgreedOrdersAreRead(v, s, keys, rest, read, next);
      assert next.seen + IdsOfOrders(rest) == so.seen + IdsOfOrders(orders);
      assert next.seenOrders + NumbersOf(rest) == so.seenOrders + NumbersOf(orders);
      assert AllTerminal(s, keys, orders, read)
             <==> IsTerminal(s, keys, o, read) && AllTerminal(s, keys, rest, read) by {
        assert forall x :: x in orders <==> x == o || x in rest;
      }
    }
  }

  lemma FirstOrderApart(o: LedgerOrder, rest: seq<LedgerOrder>, orders: seq<LedgerOrder>)
    requires orders != [] && o == orders[0] && rest == orders[1..] && DistinctOrders(orders)
    ensures o in orders && (forall x :: x in rest ==> x in orders)
    ensures DistinctIds(o.fills) && DistinctOrders(rest)
    ensures IdsOfOrders(orders) == IdsOfRows(o.fills) + IdsOfOrders(rest) && IdsOfRows(o.fills) !! IdsOfOrders(rest)
    ensures NumbersOf(orders) == {Normalize(o.number)} + NumbersOf(rest) && Normalize(o.number) !in NumbersOf(rest)
  {
    assert orders == [o] + rest;
    NumbersJoin(o, rest);
    forall x | x in rest
      ensures IdsOfRows(o.fills) !! IdsOfRows(x.fills) && Normalize(o.number) != Normalize(x.number)
    {
      var j :| 0 <= j < |rest| && rest[j] == x;
      assert orders[j + 1] == x;
    }
  }

  // ---------------------------------------------------------------- shuffled snapshots

  /** `p` permutes `0..n`, and `q` undoes it. */
  ghost predicate Permutes(p: seq<nat>, q: seq<nat>, n: nat) {
    && |p| == |q| == n
    && (forall i :: 0 <= i < n ==> p[i] < n && q[i] < n)
    && (forall i :: 0 <= i < n ==> q[p[i]] == i)
    && (forall i :: 0 <= i < n ==> p[q[i]] == i)
  }

  /** The same order with its rows in any order. */
  ghost predicate SameRows(o: LedgerOrder, x: LedgerOrder) {
    o.number == x.number && o.cumulativeQty == x.cumulativeQty && multiset(o.fills) == multiset(x.fills)
  }

  ghost predicate ShuffledBy(a: Snapshot, b: Snapshot, p: seq<nat>, q: seq<nat>) {
    && a.intentID == b.intentID && |a.orders| == |b.orders| && Permutes(p, q, |a.orders|)
    && forall i :: 0 <= i < |b.orders| ==> SameRows(a.orders[p[i]], b.orders[i])
  }

  /** `b` is `a` with its orders, and the rows of each order, in any order. */
  ghost predicate Shuffled(a: Snapshot, b: Snapshot) {
    exists p, q :: ShuffledBy(a, b, p, q)
  }

  lemma {:induction false} SumQtyWithout(fills: seq<LedgerFill>, k: nat)
    requires k < |fills|
    ensures SumQty(fills) == fills[k].qty + SumQty(fills[..k] + fills[k + 1..])
    decreases k
  {
    var f, rest := fills[0], fills[1..];
    if k == 0 {
      assert fills[..0] + fills[1..] == rest;
    } else {
      SumQtyWithout(rest, k - 1);
      var less := rest[..k - 1] + rest[k..];
      assert fills[..k] + fills[k + 1..] == [f] + less;
      RowQtyFirst(f, less);
    }
  }

  /** Takes one row out, wherever it stands. */
  lemma TakeOut(fills: seq<LedgerFill>, f: LedgerFill) returns (less: seq<LedgerFill>)
    requires f in multiset(fills)
    ensures multiset(less) == multiset(fills) - multiset{f} && SumQty(fills) == f.qty + SumQty(less)
  {
    var k :| 0 <= k < |fills| && fills[k] == f;
    less := fills[..k] + fills[k + 1..];
    assert fills == fills[..k] + ([f] + fills[k + 1..]);
    SumQtyWithout(fills, k);
  }

  lemma FirstOut(fills: seq<LedgerFill>)
    requires fills != []
    ensures multiset(fills[1..]) == multiset(fills) - multiset{fills[0]}
  {
    assert fills == [fills[0]] + fills[1..];
  }

  lemma {:induction false} SumQtyIgnoresOrder(a: seq<LedgerFill>, b: seq<LedgerFill>)
    requires multiset(a) == multiset(b)
    ensures SumQty(a) == SumQty(b)
    decreases |a|
  {
    if a == [] {
      assert |b| == |multiset(b)| == 0;
    } else {
      assert a[0] in multiset(a);
      var less := TakeOut(b, a[0]);
      FirstOut(a);
      SumQtyIgnoresOrder(a[1..], less);
    }
  }

  lemma SameRowsKeep(o: LedgerOrder, x: LedgerOrder)
    requires SameRows(o, x)
    ensures forall f :: f in o.fills <==> f in x.fills
    ensures IdsOfRows(o.fills) == IdsOfRows(x.fills) && SumQty(o.fills) == SumQty(x.fills)
    ensures DistinctIds(o.fills) ==> DistinctIds(x.fills)
  {
    SumQtyIgnoresOrder(o.fills, x.fills);
    forall f
      ensures f in o.fills <==> f in x.fills
    {
      assert f in multiset(o.fills) <==> f in multiset(x.fills);
    }
    if DistinctIds(o.fills) {
      forall i, j | 0 <= i < j < |x.fills|
        ensures x.fills[i].id != x.fills[j].id
      {
        if x.fills[i].id == x.fills[j].id {
          DistinctIdsCountOnce(o.fills, x.fills[i], x.fills[j]);
          CountedTwice(x.fills, i, j);
        }
      }
    }
  }

  lemma DistinctIdsCountOnce(fills: seq<LedgerFill>, f: LedgerFill, g: LedgerFill)
    requires DistinctIds(fills) && f in fills && g in fills && f.id == g.id
    ensures f == g && multiset(fills)[f] == 1
  {
    var k :| 0 <= k < |fills| && fills[k] == f;
    assert fills == fills[..k] + [f] + fills[k + 1..];
    assert f !in fills[..k] && f !in fills[k + 1..];
  }

  lemma CountedTwice(fills: seq<LedgerFill>, i: nat, j: nat)
    requires i < j < |fills| && fills[i] == fills[j]
    ensures multiset(fills)[fills[i]] >= 2
  {
    assert fills == fills[..j] + [fills[j]] + fills[j + 1..];
    assert fills[i] in fills[..j];
  }

  lemma SameRowsAgree(n: State, s: State, keys: map<OrderDay, Key>, o: LedgerOrder, x: LedgerOrder, read: Readings)
    requires OrdersKnown(s, keys) && SameRows(o, x) && OrderAgrees(n, s, keys, o, read)
    ensures OrderAgrees(n, s, keys, x, read)
  {
    SameRowsKeep(o, x);
  }

  lemma ShuffledIds(a: Snapshot, b: Snapshot, p: seq<nat>, q: seq<nat>)
    requires ShuffledBy(a, b, p, q)
    ensures IdsOfOrders(a.orders) <= IdsOfOrders(b.orders)
  {
    forall o, f | o in a.orders && f in o.fills
      ensures f.id in IdsOfOrders(b.orders)
    {
      var i :| 0 <= i < |a.orders| && a.orders[i] == o;
      var x := b.orders[q[i]];
      assert SameRows(a.orders[p[q[i]]], x);
      SameRowsKeep(o, x);
      assert f in x.fills && x in b.orders;
    }
  }

  /** What `DistinctOrders` asks of two places. */
  ghost predicate Apart(o: LedgerOrder, x: LedgerOrder) {
    IdsOfRows(o.fills) !! IdsOfRows(x.fills) && Normalize(o.number) != Normalize(x.number)
  }

  lemma PlacesApart(orders: seq<LedgerOrder>, i: nat, j: nat)
    requires DistinctOrders(orders) && i < |orders| && j < |orders| && i != j
    ensures Apart(orders[i], orders[j])
  {
  }

  lemma SameRowsStayApart(o: LedgerOrder, x: LedgerOrder, o1: LedgerOrder, x1: LedgerOrder)
    requires Apart(o, x) && SameRows(o, o1) && SameRows(x, x1)
    ensures Apart(o1, x1)
  {
    SameRowsKeep(o, o1);
    SameRowsKeep(x, x1);
  }

  lemma ShuffledStaysDistinct(a: Snapshot, b: Snapshot, p: seq<nat>, q: seq<nat>)
    requires ShuffledBy(a, b, p, q) && DistinctOrders(a.orders)
    ensures DistinctOrders(b.orders)
  {
    forall i | 0 <= i < |b.orders|
      ensures DistinctIds(b.orders[i].fills)
    {
      assert a.orders[p[i]] in a.orders;
      SameRowsKeep(a.orders[p[i]], b.orders[i]);
    }
    forall i, j | 0 <= i < j < |b.orders|
      ensures Apart(b.orders[i], b.orders[j])
    {
      assert q[p[i]] == i && q[p[j]] == j;
      PlacesApart(a.orders, p[i], p[j]);
      SameRowsStayApart(a.orders[p[i]], a.orders[p[j]], b.orders[i], b.orders[j]);
    }
  }

  lemma ShuffledAgrees(
      n: State, s: State, keys: map<OrderDay, Key>, a: Snapshot, b: Snapshot, p: seq<nat>, q: seq<nat>,
      read: Readings)
    requires OrdersKnown(s, keys) && ShuffledBy(a, b, p, q) && AllAgree(n, s, keys, a.orders, read)
    ensures AllAgree(n, s, keys, b.orders, read)
    ensures AllTerminal(s, keys, a.orders, read) <==> AllTerminal(s, keys, b.orders, read)
  {
    forall i | 0 <= i < |b.orders|
      ensures OrderAgrees(n, s, keys, b.orders[i], read)
      ensures IsTerminal(s, keys, b.orders[i], read) <==> IsTerminal(s, keys, a.orders[p[i]], read)
    {
      assert a.orders[p[i]] in a.orders;
      SameRowsAgree(n, s, keys, a.orders[p[i]], b.orders[i], read);
    }
    forall i | 0 <= i < |a.orders|
      ensures IsTerminal(s, keys, a.orders[i], read) <==> IsTerminal(s, keys, b.orders[q[i]], read)
    {
      assert p[q[i]] == i;
    }
    TerminalOneWay(s, keys, a.orders, b.orders, p, read);
    TerminalOneWay(s, keys, b.orders, a.orders, q, read);
  }

  lemma TerminalOneWay(
      s: State, keys: map<OrderDay, Key>, a: seq<LedgerOrder>, b: seq<LedgerOrder>, p: seq<nat>, read: Readings)
    requires OrdersKnown(s, keys) && |p| == |b|
    requires forall i :: 0 <= i < |b| ==>
               p[i] < |a| && (IsTerminal(s, keys, b[i], read) <==> IsTerminal(s, keys, a[p[i]], read))
    ensures AllTerminal(s, keys, a, read) ==> AllTerminal(s, keys, b, read)
  {
    if AllTerminal(s, keys, a, read) {
      forall o | o in b
        ensures IsTerminal(s, keys, o, read)
      {
        var i :| 0 <= i < |b| && b[i] == o;
        assert a[p[i]] in a;
      }
    }
  }

  lemma ShuffledMayBeRead(w: World, a: Snapshot, b: Snapshot, p: seq<nat>, q: seq<nat>)
    requires Runnable(w) && ShuffledBy(a, b, p, q) && MayRead(w, a.orders)
    ensures MayRead(w, b.orders)
  {
    forall i | 0 <= i < |b.orders| && b.orders[i].fills != []
      ensures w.proc.value.err == None
    {
      assert a.orders[p[i]] in a.orders;
      SameRowsBothEmpty(a.orders[p[i]], b.orders[i]);
    }
  }

  lemma SameRowsBothEmpty(o: LedgerOrder, x: LedgerOrder)
    requires SameRows(o, x)
    ensures o.fills == [] <==> x.fills == []
  {
    assert |o.fills| == |multiset(o.fills)| == |x.fills|;
  }

  // ---------------------------------------------------------------- the theorem

  /** What the first refresh leaves behind, for a second one. */
  ghost predicate Settled(w1: World, snap: Snapshot, read: Readings, s: State, keys: map<OrderDay, Key>) {
    && Runnable(w1) && MayRead(w1, snap.orders)
    && BrokerKeys(w1.disk.lines) == Some(keys) && OrdersKnown(s, keys)
    && DistinctOrders(snap.orders)
    && AllAgree(w1.proc.value.state, s, keys, snap.orders, read)
    && w1.proc.value.state.fills.Keys == IdsOfOrders(snap.orders)
    && (w1.proc.value.ledgerComplete <==> AllTerminal(s, keys, snap.orders, read))
    && var n := w1.proc.value.state;
    && n == s.(fills := n.fills, filled := n.filled, fillNotional := n.fillNotional)
    && MayRefresh(s, Some(keys), snap)
  }

  lemma RefreshLeavesSettled(w: World, snap: Snapshot, read: Readings)
    requires Runnable(w) && FilledIsSum(w.proc.value.state) && RefreshIn(w, snap, read).1
    ensures BrokerKeys(w.disk.lines).Some?
    ensures Settled(RefreshIn(w, snap, read).0, snap, read, w.proc.value.state, BrokerKeys(w.disk.lines).value)
  {
    RefreshAgrees(w, snap, read);
    var s, keys := w.proc.value.state, BrokerKeys(w.disk.lines).value;
    var so := Progress({}, {}, true);
    var w0, end := RefreshShape(w, snap, read);
    ReadOrdersAreDistinct(w, s, keys, snap.orders, read, so, end);
    OrdersSettle(w, s, keys, snap.orders, read, so, w0, end);
  }

  lemma SettledRefreshes(w1: World, a: Snapshot, b: Snapshot, read: Readings, s: State, keys: map<OrderDay, Key>)
    requires Settled(w1, a, read, s, keys) && Shuffled(a, b)
    ensures RefreshIn(w1, b, read) == (Completed(w1, w1.proc.value.ledgerComplete), true)
  {
    var p, q :| ShuffledBy(a, b, p, q);
    var n, so := w1.proc.value.state, Progress({}, {}, true);
    ShuffledStaysDistinct(a, b, p, q);
    ShuffledAgrees(n, s, keys, a, b, p, q, read);
    ShuffledIds(a, b, p, q);
    ShuffledMayBeRead(w1, a, b, p, q);
    AgreedOrdersAreRead(w1, s, keys, b.orders, read, so);
    OnlySentMatters(w1, s, n, keys, b.orders, read, so);
    var end := OrdersIn(w1, s, keys, b.orders, read, so).1.value;
    RefreshFrom(w1, b, read, end);
  }

  /**
   * After a refresh that returned nil, a refresh from the same snapshot with its orders, and the
   * rows of each order, in any order returns nil again, takes the same completeness decision, and
   * leaves state, journal and error latch as they are.
   */
  lemma ReorderedRefreshChangesNothing(w: World, snap: Snapshot, other: Snapshot, read: Readings)
    requires Runnable(w) && FilledIsSum(w.proc.value.state)
    requires RefreshIn(w, snap, read).1 && Shuffled(snap, other)
    ensures var w1 := RefreshIn(w, snap, read).0;
            Runnable(w1) && RefreshIn(w1, other, read) == (Completed(w1, w1.proc.value.ledgerComplete), true)
  {
    RefreshLeavesSettled(w, snap, read);
    SettledRefreshes(RefreshIn(w, snap, read).0, snap, other, read, w.proc.value.state, BrokerKeys(w.disk.lines).value);
  }
}
