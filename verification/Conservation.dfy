/**
 * Fills across the system: the executor counts each execution at most once however the
 * ledger delivers it, and what a buy spends at the broker stays within the approved notional.
 */
module Conservation {
  import opened Prices
  import opened Intents
  import opened Machine
  import opened Caps
  import opened Decisions
  import opened Gateway
  import opened Runs
  import opened Executors
  import opened Protocol
  import opened Safety

  function ValueOf(f: Fill): Exposure {
    Exposure(f.qty, f.qty * f.price)
  }

  /** Quantity and notional of the executions whose ids are in `ids`. */
  function Counted(fs: seq<Fill>, ids: set<FillID>): Exposure {
    if fs == [] then ZERO
    else
      var last := fs[|fs| - 1];
      var rest := Counted(fs[..|fs| - 1], ids);
      if last.id in ids then Plus(rest, ValueOf(last)) else rest
  }

  function IdsOf(fs: seq<Fill>): set<FillID> {
    set f | f in fs :: f.id
  }

  function Executed(b: Broker): Exposure {
    Counted(b.issued, IdsOf(b.issued))
  }

  predicate Numbered(b: Broker) {
    forall k :: 0 <= k < |b.issued| ==>
      var f := b.issued[k];
      f.id == FakeFill(k + 1) && f.qty >= 1 && f.price >= 1 && !b.intent.Worse(f.price, b.intent.Cap())
  }

  /** The fills the executor holds are executions of this broker, each counted once. */
  predicate FillsAreExecutions(s: State, b: Broker) {
    && (forall id :: id in s.fills ==> id.FakeFill? && 1 <= id.n <= |b.issued| && s.fills[id] == b.issued[id.n - 1])
    && Exposure(s.filled, s.fillNotional) == Counted(b.issued, s.fills.Keys)
  }

  /** The broker's own books: numbered executions inside the cap, adding up to what it filled. */
  predicate Booked(b: Broker) {
    Numbered(b) && b.filled == Executed(b).qty
  }

  lemma {:induction false} CountedIgnoresNew(fs: seq<Fill>, ids: set<FillID>, id: FillID)
    requires forall f :: f in fs ==> f.id != id
    ensures Counted(fs, ids + {id}) == Counted(fs, ids)
  {
    if fs != [] {
      assert fs[|fs| - 1] in fs;
      CountedIgnoresNew(fs[..|fs| - 1], ids, id);
    }
  }

  /** Counting one more execution adds its value, wherever it stands in the list. */
  lemma {:induction false} CountedOneMore(fs: seq<Fill>, ids: set<FillID>, k: nat)
    requires k < |fs| && fs[k].id !in ids
    requires forall i, j :: 0 <= i < j < |fs| ==> fs[i].id != fs[j].id
    ensures Counted(fs, ids + {fs[k].id}) == Plus(Counted(fs, ids), ValueOf(fs[k]))
  {
    var init := fs[..|fs| - 1];
    if k == |fs| - 1 {
      CountedIgnoresNew(init, ids, fs[k].id);
    } else {
      CountedOneMore(init, ids, k);
    }
  }

  lemma {:induction false} CountedIsPartial(fs: seq<Fill>, ids: set<FillID>, all: set<FillID>)
    requires forall f :: f in fs ==> f.qty >= 1 && f.price >= 1 && f.id in all
    ensures 0 <= Counted(fs, ids).qty <= Counted(fs, all).qty
    ensures 0 <= Counted(fs, ids).notional <= Counted(fs, all).notional
    ensures (forall f :: f in fs ==> f.id in ids) ==> Counted(fs, ids) == Counted(fs, all)
  {
    if fs != [] {
      var last := fs[|fs| - 1];
      assert last in fs;
      CountedIsPartial(fs[..|fs| - 1], ids, all);
      ValueIsPositive(last);
    }
  }

  lemma ValueIsPositive(f: Fill)
    requires f.qty >= 1 && f.price >= 1
    ensures ValueOf(f).qty >= 1 && ValueOf(f).notional >= 1
  {
  }

  /** Every execution at or inside the cap: the notional stays on the cap's side of the quantity. */
  lemma {:induction false} CountedWithinCap(fs: seq<Fill>, ids: set<FillID>, side: Side, cap: int)
    requires forall f :: f in fs ==> f.qty >= 1 && !Worse(side, f.price, cap)
    ensures !Worse(side, Counted(fs, ids).notional, Counted(fs, ids).qty * cap)
  {
    if fs != [] {
      var last := fs[|fs| - 1];
      assert last in fs;
      CountedWithinCap(fs[..|fs| - 1], ids, side, cap);
      FillWithinCap(last, side, cap);
      var rest := Counted(fs[..|fs| - 1], ids);
      assert (rest.qty + last.qty) * cap == rest.qty * cap + last.qty * cap;
    }
  }

  lemma FillWithinCap(f: Fill, side: Side, cap: int)
    requires f.qty >= 1 && !Worse(side, f.price, cap)
    ensures !Worse(side, f.qty * f.price, f.qty * cap)
  {
    if side == Buy {
      ProductGrowsLeft(f.price, cap, f.qty);
    } else {
      ProductGrowsLeft(cap, f.price, f.qty);
    }
  }

  // ---------------------------------------------------------------- along a run

  predicate SameFills(s: State, n: State) {
    n.fills == s.fills && n.filled == s.filled && n.fillNotional == s.fillNotional
  }

  lemma CommitIsApply(s: State, r: Record)
    requires TryCommit(s, r).Ok?
    ensures Apply(s, r) == Ok(TryCommit(s, r).value)
  {
  }

  lemma RecordKeepsFills(s: State, r: Record)
    requires Sound(s) && !r.FillRec? && TryCommit(s, r).Ok?
    ensures SameFills(s, TryCommit(s, r).value)
  {
    CommitIsApply(s, r);
    if r.StartRec? {
      assert s == EMPTY_STATE;
    } else {
      OthersKeepFills(s, r);
    }
  }

  /** A commit leaves the durable state where it was or moves it by the record. */
  lemma DurableAfterCommit(w: World, r: Record, s: State, next: State)
    requires Safe(w) && Runnable(w) && w.proc.value.err == None
    requires s == w.proc.value.state && TryCommit(s, r) == Ok(next)
    ensures Durable(w) == s
    ensures Durable(CommitIn(w, r).0) in {s, next}
    ensures CommitIn(w, r).0.broker == w.broker
  {
    CommitLines(w, r);
    LevelMeansReplayed(w, r);
  }

  lemma CommitKeepsFills(w: World, r: Record)
    requires Safe(w) && Runnable(w) && !r.FillRec?
    ensures SameFills(Durable(w), Durable(CommitIn(w, r).0)) && CommitIn(w, r).0.broker == w.broker
  {
    var p := w.proc.value;
    if p.err == None && TryCommit(p.state, r).Ok? {
      var next := TryCommit(p.state, r).value;
      DurableIsSound(w);
      DurableAfterCommit(w, r, p.state, next);
      RecordKeepsFills(p.state, r);
    }
  }

  /** Nothing executed and no fill counted between the two worlds. */
  ghost predicate FillsRest(w: World, w1: World) {
    SameFills(Durable(w), Durable(w1)) && BooksRest(w.broker, w1.broker)
  }

  predicate BooksRest(b: Broker, b1: Broker) {
    b1.issued == b.issued && b1.filled == b.filled && b1.intent == b.intent
  }

  lemma SendIssuesNothing(b: Broker, c: Child)
    ensures BooksRest(b, BrokerSend(b, c).0)
  {
    ReceiptIssuesNothing(b, c);
    SettlementIssuesNothing(BrokerReceives(b, c), c);
  }

  lemma ReceiptIssuesNothing(b: Broker, c: Child)
    ensures BooksRest(b, BrokerReceives(b, c))
  {
  }

  lemma SettlementIssuesNothing(b: Broker, c: Child)
    ensures BooksRest(b, BrokerSettles(b, c).0)
  {
  }

  lemma AnswerKeepsFills(w: World, c: Child, now: int)
    requires Safe(w) && Runnable(w) && w.proc.value.err == None && ReadyToGo(w.proc.value.state, w.broker, c)
    ensures FillsRest(w, AnswerIn(w, c, now).0)
  {
    var (b, a) := BrokerSend(w.broker, c);
    SendIssuesNothing(w.broker, c);
    SentStaysSafe(w, c);
    if a != Killed {
      CommitKeepsFills(w.(broker := b), OutcomeFor(c, a, now, w.cfg.requireLedgerComplete));
    }
  }

  lemma QueryKeepsFills(w: World, now: int)
    requires Safe(w) && Runnable(w) && w.proc.value.err == None && Sound(w.proc.value.state)
    requires w.proc.value.state.Started() && w.proc.value.state.inFlight.Some?
    ensures FillsRest(w, QueryIn(w, now).0)
  {
    var (b, v) := BrokerQuery(w.broker);
    if v.Some? {
      QueryIsLinked(w.proc.value.state, w.broker, w.cfg.requireLedgerComplete);
      CommitKeepsFills(w.(broker := b), ReconcileRec(now, v.value, w.cfg.requireLedgerComplete));
    }
  }

  lemma SendKeepsFills(w: World, r: Record, now: int)
    requires Safe(w) && Runnable(w) && w.proc.value.err == None && Sound(w.proc.value.state)
    requires r.SendRec? && Decide(w.proc.value.state, InputsOf(w, now)) == Commit(r)
    ensures FillsRest(w, CommitDecided(w, r, now).0)
  {
    CommitKeepsFills(w, r);
    var (w1, c) := CommitIn(w, r);
    if c == Committed {
      CommittedSendIsReady(w, r, now);
      AnswerKeepsFills(w1, r.child, now);
    }
  }

  lemma DecidedKeepsFills(w: World, r: Record, now: int, d: Decision)
    requires Safe(w) && Runnable(w) && w.proc.value.err == None && Sound(w.proc.value.state)
    requires d == Decide(w.proc.value.state, InputsOf(w, now)) && d == Commit(r) && !r.FillRec?
    ensures FillsRest(w, CommitDecided(w, r, now).0)
  {
    if r.SendRec? {
      SendKeepsFills(w, r, now);
    } else {
      CommitKeepsFills(w, r);
    }
  }

  lemma PassKeepsFills(w: World, now: int)
    requires Safe(w) && Runnable(w)
    ensures FillsRest(w, PassIn(w, now).0)
  {
    var p := w.proc.value;
    if p.err == None {
      DurableIsSound(w);
      var d := Decide(p.state, InputsOf(w, now));
      DecisionShape(p.state, InputsOf(w, now));
      if d.Query? {
        QueryKeepsFills(w, now);
      } else if d.Commit? {
        DecidedKeepsFills(w, d.rec, now, d);
      }
    }
  }

  /** A delivery of something the broker executed, or of another executor's fill. */
  predicate Genuine(w: World, e: Event) {
    e.Deliver? ==> e.fill in w.broker.issued || e.fill.key.ForeignKey?
  }

  /** The ledger delivers genuine fills only; late, early, reordered and repeated all count as genuine. */
  ghost predicate GenuineRun(w: World, es: seq<Event>) {
    es != [] ==> GenuineRun(w, es[..|es| - 1]) && Genuine(After(w, es[..|es| - 1]), es[|es| - 1])
  }

  lemma CountsOneMore(b: Broker, ids: set<FillID>, f: Fill)
    requires Booked(b) && f in b.issued && f.id !in ids
    ensures Counted(b.issued, ids + {f.id}) == Plus(Counted(b.issued, ids), ValueOf(f))
    ensures f.id.FakeFill? && 1 <= f.id.n <= |b.issued| && b.issued[f.id.n - 1] == f
  {
    var k :| 0 <= k < |b.issued| && b.issued[k] == f;
    CountedOneMore(b.issued, ids, k);
  }

  lemma FillIsAccounted(s: State, b: Broker, f: Fill)
    requires Booked(b) && FillsAreExecutions(s, b) && FillAllowed(s, f) && f in b.issued
    ensures FillsAreExecutions(ApplyFill(s, f), b)
  {
    CountsOneMore(b, s.fills.Keys, f);
    var n := ApplyFill(s, f);
    assert n.fills.Keys == s.fills.Keys + {f.id};
    assert Exposure(n.filled, n.fillNotional) == Plus(Exposure(s.filled, s.fillNotional), ValueOf(f));
  }

  lemma FillStep(s: State, f: Fill)
    requires TryCommit(s, FillRec(f.atNS, f)).Ok?
    ensures TryCommit(s, FillRec(f.atNS, f)).value == ApplyFill(s, f) && FillAllowed(s, f) && SentKey(s.sent, f.key)
  {
  }

  lemma DeliveryIsAccounted(w: World, f: Fill)
    requires Safe(w) && Runnable(w) && Booked(w.broker) && FillsAreExecutions(Durable(w), w.broker)
             && Genuine(w, Deliver(f))
    ensures FillsAreExecutions(Durable(OnFillIn(w, f).0), w.broker) && OnFillIn(w, f).0.broker == w.broker
  {
    var p := w.proc.value;
    var r := FillRec(f.atNS, f);
    if p.err == None && TryCommit(p.state, r).Ok? {
      DurableIsSound(w);
      DurableAfterCommit(w, r, p.state, TryCommit(p.state, r).value);
      FillStep(p.state, f);
      KeysAreNumbered(p.state.intent.intentID, p.state.sent, f.key);
      FillIsAccounted(p.state, w.broker, f);
    }
  }

  lemma CountedAppend(fs: seq<Fill>, f: Fill)
    requires f.id !in IdsOf(fs)
    ensures Counted(fs + [f], IdsOf(fs + [f])) == Plus(Counted(fs, IdsOf(fs)), ValueOf(f))
    ensures forall ids :: f.id !in ids ==> Counted(fs + [f], ids) == Counted(fs, ids)
  {
    assert (fs + [f])[..|fs|] == fs;
    assert IdsOf(fs + [f]) == IdsOf(fs) + {f.id};
    CountedIgnoresNew(fs, IdsOf(fs), f.id);
  }

  /** What one execution does to the broker's books. */
  lemma ExecutionAppends(b: Broker, qty: int, atNS: int) returns (f: Fill)
    requires BrokerFill(b, qty, atNS).1.Some?
    ensures var b1 := BrokerFill(b, qty, atNS).0;
            && BrokerFill(b, qty, atNS).1 == Some(f)
            && b1.issued == b.issued + [f] && b1.filled == b.filled + f.qty && b1.intent == b.intent
            && f.id == FakeFill(|b.issued| + 1)
  {
    f := BrokerFill(b, qty, atNS).1.value;
  }

  lemma ExecutionIsBooked(s: State, b: Broker, qty: int, atNS: int)
    requires Booked(b) && Linked(s, b)
    ensures var b1 := BrokerFill(b, qty, atNS).0;
            Booked(b1) && (FillsAreExecutions(s, b) ==> FillsAreExecutions(s, b1))
  {
    var (b1, made) := BrokerFill(b, qty, atNS);
    if made.Some? {
      var f := ExecutionAppends(b, qty, atNS);
      assert Numbered(b1);
      BookOneMore(b, b1, f);
      FillsSurvive(s, b, b1, f);
    }
  }

  lemma BookOneMore(b: Broker, b1: Broker, f: Fill)
    requires Booked(b) && Numbered(b1)
    requires b1.issued == b.issued + [f] && b1.filled == b.filled + f.qty && f.id == FakeFill(|b.issued| + 1)
    ensures Booked(b1)
  {
    assert forall g :: g in b.issued ==> g.id.FakeFill? && g.id.n <= |b.issued|;
    CountedAppend(b.issued, f);
  }

  lemma FillsSurvive(s: State, b: Broker, b1: Broker, f: Fill)
    requires b1.issued == b.issued + [f] && f.id == FakeFill(|b.issued| + 1) && Numbered(b)
    ensures FillsAreExecutions(s, b) ==> FillsAreExecutions(s, b1)
  {
    assert forall g :: g in b.issued ==> g.id.FakeFill? && g.id.n <= |b.issued|;
    CountedAppend(b.issued, f);
    if FillsAreExecutions(s, b) {
      assert f.id !in s.fills.Keys;
    }
  }

  lemma RestKeepsBooks(w: World, w1: World)
    requires FillsRest(w, w1) && Booked(w.broker)
    ensures Booked(w1.broker)
    ensures FillsAreExecutions(Durable(w), w.broker) ==> FillsAreExecutions(Durable(w1), w1.broker)
  {
  }

  lemma QuietEventsRest(w: World, e: Event)
    requires !e.Pass? && !e.Begin? && !e.Deliver? && !e.Execute?
    ensures FillsRest(w, Next(w, e))
  {
  }

  lemma DeliveryIsBooked(w: World, f: Fill)
    requires Safe(w) && Runnable(w) && Booked(w.broker)
    ensures Booked(OnFillIn(w, f).0.broker)
    ensures Genuine(w, Deliver(f)) && FillsAreExecutions(Durable(w), w.broker) ==>
              FillsAreExecutions(Durable(OnFillIn(w, f).0), OnFillIn(w, f).0.broker)
  {
    CommitKeepsIntent(w, FillRec(f.atNS, f));
    if Genuine(w, Deliver(f)) && FillsAreExecutions(Durable(w), w.broker) {
      DeliveryIsAccounted(w, f);
    }
  }

  lemma EventIsBooked(w: World, e: Event)
    requires Safe(w) && Booked(w.broker)
    ensures Booked(Next(w, e).broker)
    ensures Genuine(w, e) && FillsAreExecutions(Durable(w), w.broker) ==>
              FillsAreExecutions(Durable(Next(w, e)), Next(w, e).broker)
  {
    if e.Execute? {
      ExecutionIsBooked(Durable(w), w.broker, e.qty, e.atNS);
    } else if e.Deliver? {
      if Runnable(w) {
        DeliveryIsBooked(w, e.fill);
      }
    } else {
      RestingEvent(w, e);
      RestKeepsBooks(w, Next(w, e));
    }
  }

  lemma RestingEvent(w: World, e: Event)
    requires Safe(w) && !e.Deliver? && !e.Execute?
    ensures FillsRest(w, Next(w, e))
  {
    if e.Pass? {
      if Runnable(w) {
        PassKeepsFills(w, e.now);
      }
    } else if e.Begin? {
      if Runnable(w) {
        CommitKeepsFills(w, StartRec(e.now, w.broker.intent));
      }
    } else {
      QuietEventsRest(w, e);
    }
  }

  lemma {:induction false} RunIsBooked(cfg: Config, i: Intent, es: seq<Event>)
    requires i.Valid()
    ensures var w := After(FirstWorld(cfg, i), es);
            Booked(w.broker) && (GenuineRun(FirstWorld(cfg, i), es) ==> FillsAreExecutions(Durable(w), w.broker))
  {
    if es != [] {
      RunIsBooked(cfg, i, es[..|es| - 1]);
      RunIsSafe(cfg, i, es[..|es| - 1]);
      EventIsBooked(After(FirstWorld(cfg, i), es[..|es| - 1]), es[|es| - 1]);
    }
  }

  /**
   * In every run with genuine evidence the executor has counted exactly the executions
   * delivered so far, each once: never more than the broker filled, so never past the
   * target, and exactly that once everything has been delivered.
   */
  lemma FillsAreConserved(cfg: Config, i: Intent, es: seq<Event>)
    requires i.Valid() && GenuineRun(FirstWorld(cfg, i), es)
    ensures var w := After(FirstWorld(cfg, i), es);
            var s, b := Durable(w), w.broker;
            && Exposure(s.filled, s.fillNotional) == Counted(b.issued, s.fills.Keys)
            && b.filled == Executed(b).qty
            && 0 <= s.filled <= b.filled <= i.TargetQty()
            && (s.Started() ==> s.Overfill() == 0)
            && (IdsOf(b.issued) <= s.fills.Keys ==> s.filled == b.filled && s.fillNotional == Executed(b).notional)
  {
    var w := After(FirstWorld(cfg, i), es);
    RunIsSafe(cfg, i, es);
    IntentIsFixed(FirstWorld(cfg, i), es);
    RunIsBooked(cfg, i, es);
    DurableIsSound(w);
    CountedIsPartial(w.broker.issued, Durable(w).fills.Keys, IdsOf(w.broker.issued));
  }

  /**
   * For a buy, what the broker executed over any run, whatever the faults and the ledger,
   * costs at most the target at the cap, which is at most the approved notional; a sell
   * brings in at least its quantity at the cap.
   */
  lemma SpendIsApproved(cfg: Config, i: Intent, es: seq<Event>)
    requires i.Valid()
    ensures var spent := Executed(After(FirstWorld(cfg, i), es).broker);
            && (i.side == Buy ==> spent.notional <= spent.qty * i.Cap() <= i.TargetQty() * i.Cap() <= i.maxNotionalKRW)
            && (i.side == Sell ==> spent.notional >= spent.qty * i.Cap())
  {
    var b := After(FirstWorld(cfg, i), es).broker;
    RunIsSafe(cfg, i, es);
    RunIsBooked(cfg, i, es);
    IntentIsFixed(FirstWorld(cfg, i), es);
    CountedWithinCap(b.issued, IdsOf(b.issued), i.side, i.Cap());
    TargetIsLargestThatFits(i, i.TargetQty());
    ProductGrowsLeft(b.filled, i.TargetQty(), i.Cap());
  }
}
