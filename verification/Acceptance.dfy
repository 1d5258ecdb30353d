/**
 * What `decide` emits is what `commit` takes: sizing against E1's caps, and the
 * caps, lineage, price and grid properties of whole executor runs.
 */
module Acceptance {
  import opened Prices
  import opened Intents
  import opened Machine
  import opened Caps
  import opened Decisions
  import opened Runs

  // ---------------------------------------------------------------- sizing a new order

  /** The price a new order of one share at least needs: a buy keeps `p`, a sell may come down to the cap. */
  function FloorPrice(s: State, p: int): int {
    if s.intent.side == Buy then p else s.cap
  }

  lemma BuyFits(s: State, room: Exposure, rem: int, p: int, k: int)
    requires s.intent.side == Buy && p >= 1 && !s.intent.Worse(p, s.cap)
    ensures var (q, price) := FitNewOrder(s, room, rem, p);
            && (q >= 1 ==> q <= rem && q <= room.qty && price == p && q * price <= room.notional)
            && (k >= 1 ==> (k <= q <==> k <= rem && k <= room.qty && k * p <= room.notional))
  {
    DivisionFits(room.notional, p, k);
    DivisionFits(room.notional, p, FitNewOrder(s, room, rem, p).0);
  }

  /** A sell is sized at the cap... */
  lemma SellQuantity(s: State, room: Exposure, rem: int, p: int, k: int)
    requires s.intent.side == Sell && s.cap >= 1 && p >= 1
    ensures var q := FitNewOrder(s, room, rem, p).0;
            && (q >= 1 ==> q <= rem && q <= room.qty && q * s.cap <= room.notional)
            && (k >= 1 ==> (k <= q <==> k <= rem && k <= room.qty && k * s.cap <= room.notional))
  {
    var least := Min(rem, room.qty);
    DivisionFits(room.notional, s.cap, k);
    DivisionFits(room.notional, s.cap, least);
    DivisionFits(room.notional, s.cap, FitNewOrder(s, room, rem, p).0);
    if 1 <= k <= least {
      ProductGrowsLeft(k, least, s.cap);
    }
  }

  /** ...and priced at the floor of what is left for each share. */
  lemma SellPrice(n: int, cap: int, q: int, p: int)
    requires OnGrid(cap) && q >= 1 && q * cap <= n && p >= cap
    ensures var price := Min(p, FloorTick(n / q));
            cap <= price <= p && q * price <= n
  {
    FloorAtLeastCap(n, cap, q);
    var price := Min(p, FloorTick(n / q));
    DivisionFits(n, q, price);
    assert price * q == q * price;
  }

  lemma SellFits(s: State, room: Exposure, rem: int, p: int, k: int)
    requires s.intent.side == Sell && OnGrid(s.cap) && p >= 1 && !s.intent.Worse(p, s.cap)
    ensures var (q, price) := FitNewOrder(s, room, rem, p);
            && (q >= 1 ==> q <= rem && q <= room.qty && price >= 1 && q * price <= room.notional
                           && !s.intent.Worse(price, s.cap) && price <= p)
            && (k >= 1 ==> (k <= q <==> k <= rem && k <= room.qty && k * s.cap <= room.notional))
  {
    SellQuantity(s, room, rem, p, k);
    var q := FitNewOrder(s, room, rem, p).0;
    if q >= 1 {
      SellPrice(room.notional, s.cap, q, p);
    }
  }

  /**
   * `FitNewOrder` finds the largest quantity that fits the rest, the room and the cap, at a
   * price no worse than the cap; it finds nothing exactly when not even one share fits.
   */
  lemma FitIsLargest(s: State, room: Exposure, rem: int, p: int, k: int)
    requires OnGrid(s.cap) && p >= 1 && !s.intent.Worse(p, s.cap)
    ensures var (q, price) := FitNewOrder(s, room, rem, p);
            && (q >= 1 ==> q <= rem && q <= room.qty && price >= 1 && q * price <= room.notional
                           && !s.intent.Worse(price, s.cap) && !s.intent.Worse(p, price))
            && (k >= 1 ==> (k <= q <==> k <= rem && k <= room.qty && k * FloorPrice(s, p) <= room.notional))
  {
    if s.intent.side == Buy {
      BuyFits(s, room, rem, p, k);
    } else {
      SellFits(s, room, rem, p, k);
    }
  }

  /** When `q` shares fit at a grid price `cap`, the floor of the notional per share is still at or above it. */
  lemma FloorAtLeastCap(n: int, cap: int, q: int)
    requires OnGrid(cap) && q >= 1 && q * cap <= n
    ensures cap <= FloorTick(n / q) <= n / q
  {
    DivisionFits(n, q, cap);
    FloorTickIsGreatest(n / q);
  }

  // ---------------------------------------------------------------- decide against commit

  predicate OrderIsPriced(s: State) {
    s.order.Some? ==> s.order.value.price >= 1
  }

  /** The far end of the inventory range after a submit of `c`; the only check `decide` does not mirror. */
  ghost predicate SubmitFitsFarEnd(s: State, r: Record) {
    r.SendRec? && r.child.action == Submit ==>
      FarEndInRange(s.intent, Max(0, r.child.qty) + Total(E1Exposure(s.sent)).qty)
  }

  lemma RoomOfNewLineage(s: State, c: Child)
    requires Sound(s) && s.Started() && c.key == NextKey(s) && c.action == Submit
    ensures E1Room(s, LineageOf(s, c)) == E1Room(s, NoKey)
    ensures At(E1Exposure(s.sent), c.key) == ZERO && E1Exposure(s.sent) - {c.key} == E1Exposure(s.sent)
  {
    var m := E1Exposure(s.sent);
    MarksBelongToSubmits(s.intent.intentID, s.sent, |s.sent|);
    assert c.key !in m && NoKey !in m;
    assert m - {c.key} == m && m - {NoKey} == m;
  }

  lemma AmendIsAllowed(s: State, room: Exposure)
    requires Sound(s) && OrderIsPriced(s) && s.order.Some? && s.done == NoReason && s.inFlight == None
             && s.halt == NoReason
    requires AmendQty(s, room) >= 1 && s.intent.Worse(AmendCap(s, room), s.order.value.price) && s.Started()
    ensures SendAllowed(s, AmendStep(s, room))
  {
    NextKeyIsFresh(s);
    CapIsBestGridPrice(s.intent);
  }

  lemma NextKeyIsFresh(s: State)
    requires Sound(s) && s.Started()
    ensures !SentKey(s.sent, NextKey(s)) && NextKey(s) != NoKey
  {
    KeysAreNumbered(s.intent.intentID, s.sent, NextKey(s));
  }

  lemma OpeningPriceIsGood(s: State, t: Top)
    requires Sound(s) && s.Started() && t.bid >= 1 && t.ask >= 1
    ensures OnGrid(s.cap)
    ensures OpeningPrice(s, t) >= 1 && !s.intent.Worse(OpeningPrice(s, t), s.cap)
  {
    CapIsBestGridPrice(s.intent);
  }

  lemma SubmitIsAccepted(s: State, in_: Inputs, r: Record)
    requires Sound(s) && Decide(s, in_) == Commit(r) && r.SendRec? && r.child.action == Submit
    ensures SendAllowed(s, r.child)
    ensures E1CapsRefusal(s, r.child) == Fits <==> SubmitFitsFarEnd(s, r)
    ensures s.intent.PositionInRange() ==> SubmitFitsFarEnd(s, r)
  {
    var room, t, c := E1Room(s, NoKey), in_.top.value, r.child;
    OpeningPriceIsGood(s, t);
    FitIsLargest(s, room, s.Remaining(), OpeningPrice(s, t), 1);
    NextKeyIsFresh(s);
    RoomOfNewLineage(s, c);
    RoomIsExact(s, c);
  }

  /**
   * Everything `decide` emits in a sound state is taken by `commit`, with one exception: a
   * submit whose projected position leaves the inventory range at the far end. With the
   * authorized position inside its range there is no exception.
   */
  lemma DecisionsAreAccepted(s: State, in_: Inputs, r: Record)
    requires Sound(s) && OrderIsPriced(s) && Decide(s, in_) == Commit(r)
    ensures TryCommit(s, r).Ok? <==> SubmitFitsFarEnd(s, r)
    ensures s.intent.PositionInRange() ==> TryCommit(s, r).Ok?
  {
    if r.SendRec? {
      DecidedSend(s, in_, r);
      NextKeyIsFresh(s);
      if r.child.action == Submit {
        SubmitIsAccepted(s, in_, r);
      } else if r.child.action == Amend {
        AmendIsAllowed(s, E1Room(s, LineageInHand(s)));
        assert r.child == AmendStep(s, E1Room(s, LineageInHand(s)));
      }
    }
  }

  /** Whatever the gateway answers, the outcome record `send` builds for it is accepted. */
  lemma OutcomesAreAccepted(s: State, r: Record, o: Outcome, atNS: int, deferFinish: bool)
    requires r.SendRec? && TryCommit(s, r).Ok? && o.key == r.child.key
    ensures Apply(TryCommit(s, r).value, OutcomeRec(atNS, o, deferFinish)).Ok?
  {
  }

  const STRAY := Intent("a", Buy, 10, 3_000, 1_000, 0, 1_000, Inventory(0, 5, 10), true)

  const STRAY_STATE := EMPTY_STATE.(intent := STRAY, cap := 1_000, target := 3)

  const STRAY_SEND := SendRec(0, Child(Submit, "a", ChildKey("a", 1), NoKey, 3, 1_000), OpenReason)

  lemma StrayStart()
    ensures STRAY.Valid() && !STRAY.PositionInRange() && STRAY.Cap() == 1_000 && STRAY.TargetQty() == 3
    ensures Apply(EMPTY_STATE, StartRec(0, STRAY)) == Ok(STRAY_STATE) && Priced(STRAY_STATE)
  {
  }

  lemma StrayDecision(in_: Inputs)
    requires in_ == Inputs(0, Some(Top(1_000, 1_001, 0, true)), Config(true, false, 0, 0), false)
    ensures Priced(STRAY_STATE) && Decide(STRAY_STATE, in_) == Commit(STRAY_SEND)
  {
    StrayStart();
    assert E1Exposure(STRAY_STATE.sent) == map[];
    assert E1Room(STRAY_STATE, NoKey) == Exposure(10, 3_000);
  }

  lemma StrayRefusal()
    ensures TryCommit(STRAY_STATE, STRAY_SEND) == Err(BeyondCaps(InventoryCap))
  {
    var c := STRAY_SEND.child;
    assert E1Exposure(STRAY_STATE.sent) == map[];
    TotalOfUpdate(map[], c.key, Widen(ZERO, c));
    var none: map<Key, Exposure> := map[];
    assert none - {c.key} == none;
  }

  /**
   * `Validate` lets an authorized position outside its own range through, and then `decide`
   * sizes a submit that `commit` refuses: three shares from zero, in a range that starts at five.
   */
  lemma OutOfRangePositionIsRefused()
    ensures exists i: Intent, in_: Inputs, r: Record ::
              && i.Valid() && !i.PositionInRange()
              && var s := Apply(EMPTY_STATE, StartRec(0, i)).value;
              Priced(s) && Decide(s, in_) == Commit(r) && TryCommit(s, r) == Err(BeyondCaps(InventoryCap))
  {
    var in_ := Inputs(0, Some(Top(1_000, 1_001, 0, true)), Config(true, false, 0, 0), false);
    StrayStart();
    StrayDecision(in_);
    StrayRefusal();
    assert STRAY.Valid() && Decide(Apply(EMPTY_STATE, StartRec(0, STRAY)).value, in_) == Commit(STRAY_SEND);
  }

  // ---------------------------------------------------------------- whole runs

  predicate PricedView(r: Record) {
    r.ReconcileRec? && r.view.order.Some? ==> r.view.order.value.price >= 1
  }

  lemma StepStaysPriced(s: State, r: Record)
    requires Sound(s) && OrderIsPriced(s) && Builds(s, r) && TryCommit(s, r).Ok? && PricedView(r)
    ensures OrderIsPriced(TryCommit(s, r).value)
  {
    if r.OutcomeRec? {
      UnresolvedIsOurs(s);
    } else if r.SendRec? {
      SendAppends(s, r);
    }
  }

  lemma {:induction false} OrdersStayPriced(rs: seq<Record>)
    requires ExecRun(rs) && forall r :: r in rs ==> PricedView(r)
    ensures Replay(rs).Ok? && OrderIsPriced(Replay(rs).value)
  {
    RunIsSound(rs);
    if rs != [] {
      var init, r := rs[..|rs| - 1], rs[|rs| - 1];
      OrdersStayPriced(init);
      RunIsSound(init);
      assert r in rs;
      StepStaysPriced(Replay(init).value, r);
    }
  }

  /**
   * In every run from an empty journal the summed high-water marks stay within all three
   * caps, and each submit counts at least one share; so a run submits at most `maxQuantity` times.
   */
  lemma CapsHoldInEveryRun(rs: seq<Record>)
    requires ExecRun(rs)
    ensures Replay(rs).Ok?
    ensures var s := Replay(rs).value;
            s.Started() ==>
              var i, total := s.intent, Total(E1Exposure(s.sent));
              && total.qty <= i.maxQuantity && total.qty <= i.PositionRoom() && total.notional <= i.maxNotionalKRW
              && Submits(s.sent) <= total.qty
              && (Submits(s.sent) > 0 ==>
                    i.inventory.minPositionAfter <= Projected(i, total.qty) <= i.inventory.maxPositionAfter)
  {
    RunIsSound(rs);
  }

  /** In every run each lineage is rooted at a submit sent no later than the child it is asked for. */
  lemma LineagesAreRooted(rs: seq<Record>, n: nat)
    requires ExecRun(rs) && Replay(rs).Ok? && n < |Replay(rs).value.sent|
    ensures var sent := Replay(rs).value.sent;
            exists m: nat :: m <= n && sent[m].action == Submit && RootOf(sent, sent[n].key) == sent[m].key
  {
    RunIsSound(rs);
    var s := Replay(rs).value;
    var id := s.intent.intentID;
    RootIsASubmit(id, s.sent, n, {});
    var m := RootIndex(id, s.sent, n);
    assert s.sent[m].key == ChildKey(id, m + 1);
  }

  /** No child of any run comes near the 64-bit range of the source's quantities and notionals. */
  lemma ChildrenAreSmall(rs: seq<Record>, n: nat)
    requires ExecRun(rs) && Replay(rs).Ok? && n < |Replay(rs).value.sent|
    ensures var c := Replay(rs).value.sent[n];
            CarriesQuantity(c) ==> 1 <= c.qty <= MAX_INTENT_QUANTITY && c.qty * c.price <= MAX_INTENT_NOTIONAL_KRW
  {
    RunIsSound(rs);
    var s := Replay(rs).value;
    if CarriesQuantity(s.sent[n]) {
      assert s.sent[n] in s.sent;
      ChildWithinTotal(s.sent, n);
    }
  }

  /** No child exceeds the total of the marks. */
  lemma ChildWithinTotal(sent: seq<Child>, k: nat)
    requires k < |sent| && CarriesQuantity(sent[k])
    ensures sent[k].qty <= Total(E1Exposure(sent)).qty
    ensures sent[k].qty * sent[k].price <= Total(E1Exposure(sent)).notional
  {
    var m, root := E1Exposure(sent), RootOf(sent, sent[k].key);
    MarkCoversChild(sent, |sent|, k);
    TotalSplit(m, root);
    ExposureIsNonNegative(sent, |sent|);
    TotalIsNonNegative(m - {root});
  }

  // ---------------------------------------------------------------- the branch that cannot be reached

  /** A reconcile view that reports the named child as sent: its price, and one share up to its quantity. */
  predicate HonestOrder(sent: seq<Child>, o: Order) {
    exists k :: 0 <= k < |sent| && sent[k].key == o.key && sent[k].price == o.price && 1 <= o.qty <= sent[k].qty
                && CarriesQuantity(sent[k])
  }

  /** What honest views keep: the order as sent, empty cancels, and no trace of a past-caps cancel. */
  predicate HonestState(s: State) {
    && (s.order.Some? ==> HonestOrder(s.sent, s.order.value))
    && (forall c :: c in s.sent && c.action == Cancel ==> c.qty == 0)
    && s.halt != DoneE1Caps && s.inFlightReason != DoneE1Caps
  }

  /** As the view reports it, without the observation that a cancel carries no quantity. */
  predicate HonestView(s: State, r: Record) {
    r.ReconcileRec? && r.view.order.Some? ==>
      var o := r.view.order.value;
      exists k :: 0 <= k < |s.sent| && s.sent[k].key == o.key && s.sent[k].price == o.price
        && 1 <= o.qty <= s.sent[k].qty
  }

  /** A run whose every reconcile reports the named child as it was sent. */
  ghost predicate HonestRun(rs: seq<Record>) {
    && ExecRun(rs)
    && (rs != [] ==>
          && HonestRun(rs[..|rs| - 1])
          && Replay(rs[..|rs| - 1]).Ok?
          && HonestView(Replay(rs[..|rs| - 1]).value, rs[|rs| - 1]))
  }

  lemma {:induction false} HonestRunStaysHonest(rs: seq<Record>)
    requires HonestRun(rs)
    ensures Replay(rs).Ok? && HonestState(Replay(rs).value)
  {
    RunIsSound(rs);
    if rs != [] {
      var init, r := rs[..|rs| - 1], rs[|rs| - 1];
      HonestRunStaysHonest(init);
      RunIsSound(init);
      HonestStep(Replay(init).value, r);
    }
  }

  lemma HonestSend(s: State, r: Record)
    requires Sound(s) && HonestState(s)
    requires r.SendRec? && Builds(s, r) && TryCommit(s, r).Ok?
    ensures HonestState(TryCommit(s, r).value)
  {
    var n := TryCommit(s, r).value;
    var in_ :| Decide(s, in_) == Commit(r);
    DecidedSend(s, in_, r);
    NoPastCapsCancel(s, in_, r);
    SendAppends(s, r);
    if s.order.Some? {
      var o := s.order.value;
      var k :| 0 <= k < |s.sent| && s.sent[k].key == o.key && s.sent[k].price == o.price
               && 1 <= o.qty <= s.sent[k].qty && CarriesQuantity(s.sent[k]);
      assert n.sent[k] == s.sent[k];
    }
  }

  lemma HonestAnswer(s: State, o: Outcome, deferFinish: bool)
    requires Sound(s) && HonestState(s) && s.inFlight.Some?
    ensures HonestState(ApplyOutcome(s, o, deferFinish))
  {
    UnresolvedIsOurs(s);
    var c := s.sent[|s.sent| - 1];
    assert c == s.inFlight.value;
    if c.action != Cancel {
      assert HonestOrder(s.sent, Order(c.key, c.price, c.qty));
    }
  }

  lemma HonestReconcile(s: State, r: Record)
    requires Sound(s) && HonestState(s) && r.ReconcileRec? && HonestView(s, r) && s.inFlight.Some?
    ensures HonestState(ApplyReconcile(s, r.view, r.deferFinish))
  {
    if r.view.order.Some? {
      var o := r.view.order.value;
      var k :| 0 <= k < |s.sent| && s.sent[k].key == o.key && s.sent[k].price == o.price && 1 <= o.qty <= s.sent[k].qty;
      assert s.sent[k] in s.sent && s.sent[k].action != UnknownAction;
      assert HonestOrder(s.sent, o);
    }
  }

  lemma HonestStep(s: State, r: Record)
    requires Sound(s) && HonestState(s)
    requires Builds(s, r) && TryCommit(s, r).Ok? && HonestView(s, r)
    ensures HonestState(TryCommit(s, r).value)
  {
    match r
    case SendRec(_, _, _) => HonestSend(s, r);
    case OutcomeRec(_, o, deferFinish) => HonestAnswer(s, o, deferFinish);
    case ReconcileRec(_, _, _) => HonestReconcile(s, r);
    case FinishRec(_, _) =>
    case _ =>
  }

  lemma NoPastCapsCancel(s: State, in_: Inputs, r: Record)
    requires Sound(s) && HonestState(s) && Decide(s, in_) == Commit(r) && r.SendRec?
    ensures r.reason != DoneE1Caps
    ensures r.child.action == Cancel ==> r.child.qty == 0
  {
    if s.order.Some? {
      var room := E1Room(s, LineageInHand(s));
      if AmendQty(s, room) >= 1 && s.intent.Worse(AmendCap(s, room), s.order.value.price) {
        AmendWithinMark(s, room);
      }
    }
  }

  /**
   * With honest views E1 never refuses the amend step that survives the cancel tests: in no
   * such run is a lineage "already past E1's caps", and no cancel is ever sent for it.
   */
  lemma PastCapsBranchIsDead(rs: seq<Record>, in_: Inputs)
    requires HonestRun(rs)
    ensures Replay(rs).Ok? && Priced(Replay(rs).value)
    ensures forall r :: Decide(Replay(rs).value, in_) == Commit(r) && r.SendRec? ==> r.reason != DoneE1Caps
  {
    RunIsSound(rs);
    HonestRunStaysHonest(rs);
    forall r | Decide(Replay(rs).value, in_) == Commit(r) && r.SendRec?
      ensures r.reason != DoneE1Caps
    {
      NoPastCapsCancel(Replay(rs).value, in_, r);
    }
  }

  lemma ProductGrows(a: int, b: int, c: int, d: int)
    requires 0 <= a <= c && 0 <= b <= d
    ensures a * b <= c * d
  {
    ProductGrowsLeft(a, c, b);
    ProductGrowsLeft(b, d, c);
  }

  lemma {:induction false} SubmitsArePositive(sent: seq<Child>, k: nat)
    requires k < |sent| && sent[k].action == Submit
    ensures Submits(sent) > 0
  {
    if k < |sent| - 1 {
      SubmitsArePositive(sent[..|sent| - 1], k);
    }
  }

  /** An amend never exceeds its lineage's quantity mark, and its notional stays in the room or below the mark. */
  lemma AmendWithinMark(s: State, room: Exposure)
    requires Sound(s) && HonestState(s) && s.order.Some?
    requires room == E1Room(s, LineageInHand(s))
    requires AmendQty(s, room) >= 1 && s.intent.Worse(AmendCap(s, room), s.order.value.price)
    ensures E1CapsRefusal(s, AmendStep(s, room)) == Fits
  {
    var o, c := s.order.value, AmendStep(s, room);
    var k :| 0 <= k < |s.sent| && s.sent[k].key == o.key && s.sent[k].price == o.price
             && 1 <= o.qty <= s.sent[k].qty && CarriesQuantity(s.sent[k]);
    var m, root := E1Exposure(s.sent), LineageOf(s, c);
    var e, others := At(m, root), Total(m - {root});
    assert root == RootOf(s.sent, s.sent[k].key);
    MarkCoversChild(s.sent, |s.sent|, k);
    ExposureIsNonNegative(s.sent, |s.sent|);
    TotalIsNonNegative(m - {root});
    TotalSplit(m, root);
    TotalOfUpdate(m, root, Widen(e, c));
    SubmitsArePositive(s.sent, RootIndex(s.intent.intentID, s.sent, k));
    AmendNotional(s, room, s.sent[k]);
    WidenedFits(s.intent, e, others, c);
  }

  /** A buy's amend fits the room it was priced from; a sell's is below the order it moves. */
  lemma AmendNotional(s: State, room: Exposure, from: Child)
    requires s.order.Some? && room.notional >= 0 && from.price == s.order.value.price
    requires 1 <= s.order.value.qty <= from.qty && s.cap >= 1
    requires AmendQty(s, room) >= 1 && s.intent.Worse(AmendCap(s, room), s.order.value.price)
    ensures var c := AmendStep(s, room);
            c.qty <= from.qty && (c.qty * c.price <= room.notional || c.qty * c.price <= from.qty * from.price)
  {
    var c := AmendStep(s, room);
    if s.intent.side == Buy {
      DivisionFits(room.notional, c.qty, c.price);
    } else {
      ProductGrows(c.qty, c.price, from.qty, from.price);
    }
  }

  lemma WidenedFits(i: Intent, e: Exposure, others: Exposure, c: Child)
    requires e.notional >= 0
    requires Judge(i, Plus(e, others)) == Fits && c.qty <= e.qty
    requires c.qty * c.price <= Max(i.maxNotionalKRW - others.notional, 0) || c.qty * c.price <= e.notional
    ensures Judge(i, Plus(Widen(e, c), others)) == Fits
  {
  }

  // ---------------------------------------------------------------- the price grid over runs

  predicate OnGridState(s: State) {
    && (s.order.Some? ==> OnGrid(s.order.value.price))
    && (forall c :: c in s.sent && CarriesQuantity(c) ==> OnGrid(c.price))
  }

  predicate GridBook(in_: Inputs) {
    in_.top.Some? && in_.top.value.bid >= 1 && in_.top.value.ask >= 1 ==>
      OnGrid(in_.top.value.bid) && OnGrid(in_.top.value.ask)
  }

  /** A run whose books and reconcile views quote grid prices. */
  ghost predicate GridRun(rs: seq<Record>) {
    && ExecRun(rs)
    && (rs != [] ==>
          && GridRun(rs[..|rs| - 1])
          && Replay(rs[..|rs| - 1]).Ok?
          && var s, r := Replay(rs[..|rs| - 1]).value, rs[|rs| - 1];
          && Priced(s)
          && (r.SendRec? ==> exists in_ :: GridBook(in_) && Decide(s, in_) == Commit(r))
          && (r.ReconcileRec? && r.view.order.Some? ==> OnGrid(r.view.order.value.price)))
  }

  lemma DecidedOnGrid(s: State, in_: Inputs, r: Record)
    requires Sound(s) && OnGridState(s) && GridBook(in_) && Decide(s, in_) == Commit(r) && r.SendRec?
    ensures CarriesQuantity(r.child) ==> OnGrid(r.child.price)
  {
    CapIsBestGridPrice(s.intent);
    var room := E1Room(s, LineageInHand(s));
    if r.child.action == Submit {
      var t := in_.top.value;
      OpeningPriceIsGood(s, t);
      FitIsLargest(s, room, s.Remaining(), OpeningPrice(s, t), 1);
      FitOnGrid(s, room, s.Remaining(), OpeningPrice(s, t));
    } else if r.child.action == Amend {
      var cp := AmendCap(s, room);
      if cp != s.cap {
        if room.notional / AmendQty(s, room) >= 1 {
          FloorTickIsGreatest(room.notional / AmendQty(s, room));
        }
      }
      StepPassesOne(s.intent.side, s.order.value.price, cp);
    }
  }

  lemma FitOnGrid(s: State, room: Exposure, rem: int, p: int)
    requires OnGrid(s.cap) && OnGrid(p)
    ensures var (q, price) := FitNewOrder(s, room, rem, p);
            q >= 1 ==> OnGrid(price)
  {
    var (q, price) := FitNewOrder(s, room, rem, p);
    if q >= 1 && s.intent.side == Sell {
      DivisionFits(room.notional, s.cap, q);
      FloorAtLeastCap(room.notional, s.cap, q);
      FloorTickIsGreatest(room.notional / q);
    }
  }

  lemma GridStep(s: State, r: Record)
    requires Sound(s) && OnGridState(s) && Builds(s, r) && TryCommit(s, r).Ok?
    requires r.SendRec? ==> exists in_ :: GridBook(in_) && Decide(s, in_) == Commit(r)
    requires r.ReconcileRec? && r.view.order.Some? ==> OnGrid(r.view.order.value.price)
    ensures OnGridState(TryCommit(s, r).value)
  {
    if r.SendRec? {
      var in_ :| GridBook(in_) && Decide(s, in_) == Commit(r);
      DecidedOnGrid(s, in_, r);
      SendAppends(s, r);
    } else if r.OutcomeRec? {
      UnresolvedIsOurs(s);
      GridOutcome(s, r.outcome, r.deferFinish);
    }
  }

  lemma GridOutcome(s: State, o: Outcome, deferFinish: bool)
    requires OnGridState(s) && s.inFlight.Some? && s.inFlight.value in s.sent
    requires s.inFlight.value.action != Cancel ==> CarriesQuantity(s.inFlight.value)
    ensures OnGridState(ApplyOutcome(s, o, deferFinish))
  {
  }

  /** With on-grid books and views, every price a run ever sends is on the grid. */
  lemma {:induction false} RunsStayOnGrid(rs: seq<Record>)
    requires GridRun(rs)
    ensures Replay(rs).Ok? && OnGridState(Replay(rs).value)
  {
    RunIsSound(rs);
    if rs != [] {
      var init, r := rs[..|rs| - 1], rs[|rs| - 1];
      RunsStayOnGrid(init);
      RunIsSound(init);
      GridStep(Replay(init).value, r);
    }
  }
}
