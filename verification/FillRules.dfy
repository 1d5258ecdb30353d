/**
 * What the simulator's fill rules execute: at every event exactly what the rule says of that event,
 * and nothing at any other time (`internal/exec/sim/sim.go`).
 */
module FillRules {
  import opened Prices
  import opened Intents
  import opened Machine
  import opened Decisions
  import opened Gateway
  import opened Executors
  import opened Protocol
  import opened Safety
  import opened Sim
  import opened SimRules

  /** The market trades at a price strictly better for the order's counterparty. */
  predicate StrictlyThrough(side: Side, price: int, order: int) {
    (side == Buy && price < order) || (side == Sell && price > order)
  }

  /** The market trades or stands at the order's price or beyond. */
  predicate AtOrThrough(side: Side, price: int, order: int) {
    price >= 1 && (price == order || StrictlyThrough(side, price, order))
  }

  /** How many shares of the live order an event executes under a rule. */
  function Executed(b: Broker, ev: SimEvent, rule: Rule): int {
    if b.live == None || ev.atNS >= b.intent.expiresAtNS then 0
    else
      var side, o := b.intent.side, b.live.value;
      match rule
      case Through =>
        // only a trade strictly through the order fills it, and only up to that trade's quantity
        if ev.TradeEvent? && StrictlyThrough(side, ev.price, o.price) then Min(ev.qty, o.open) else 0
      case Touch =>
        // a trade at the order's price, or the opposite touch reaching it, fills all of it
        var reached := || (ev.TradeEvent? && AtOrThrough(side, ev.price, o.price))
                       || (ev.BookEvent? && ev.synced
                         && AtOrThrough(side, if side == Buy then ev.ask else ev.bid, o.price));
        if reached then Min(b.intent.TargetQty(), o.open) else 0
  }

  /** The evidence an event adds: one execution at the order's own price and key, or nothing. */
  function Evidence(b: Broker, ev: SimEvent, rule: Rule): seq<Fill> {
    if Executed(b, ev, rule) < 1 then []
    else
      [Fill(FakeFill(|b.issued| + 1), b.live.value.key, Executed(b, ev, rule), b.live.value.price, ev.atNS)]
  }

  // ---------------------------------------------------------------- only the rule executes

  lemma SendIssuesNothing(b: Broker, c: Child)
    ensures BrokerSend(b, c).0.issued == b.issued
  {
  }

  lemma AnswerIssuesNothing(w: World, c: Child, now: int)
    requires Runnable(w)
    ensures AnswerIn(w, c, now).0.broker.issued == w.broker.issued
  {
    var (b, a) := BrokerSend(w.broker, c);
    SendIssuesNothing(w.broker, c);
    if a != Killed {
      CommitSendsNothing(w.(broker := b), OutcomeFor(c, a, now, w.cfg.requireLedgerComplete));
    }
  }

  lemma QueryIssuesNothing(w: World, now: int)
    requires Runnable(w)
    ensures QueryIn(w, now).0.broker.issued == w.broker.issued
  {
    var (b, v) := BrokerQuery(w.broker);
    if v.Some? {
      CommitSendsNothing(w.(broker := b), ReconcileRec(now, v.value, w.cfg.requireLedgerComplete));
    }
  }

  lemma PassIssuesNothing(w: World, now: int)
    requires Runnable(w)
    ensures PassIn(w, now).0.broker.issued == w.broker.issued
  {
    if w.proc.value.err == None {
      var d := Decide(w.proc.value.state, InputsOf(w, now));
      if d.Query? {
        QueryIssuesNothing(w, now);
      } else if d.Commit? {
        CommitSendsNothing(w, d.rec);
        var (w1, c) := CommitIn(w, d.rec);
        if c == Committed && d.rec.SendRec? {
          AnswerIssuesNothing(w1, d.rec.child, now);
        }
      }
    }
  }

  lemma {:induction false} PassesIssueNothing(w: World, es: seq<Event>)
    requires forall k :: 0 <= k < |es| ==> es[k].Pass?
    ensures After(w, es).broker.issued == w.broker.issued
  {
    if es != [] {
      var n := |es| - 1;
      PassesIssueNothing(w, es[..n]);
      if Runnable(After(w, es[..n])) {
        PassIssuesNothing(After(w, es[..n]), es[n].now);
      }
    }
  }

  lemma TickIssuesNothing(w: World, now: int)
    requires Runnable(w)
    ensures TickIn(w, now).0.broker.issued == w.broker.issued
  {
    var es := TickIsARun(w, now);
    PassesIssueNothing(w, es);
  }

  lemma BeginKeepsBroker(x: SimState, ev: SimEvent)
    requires Runnable(x.w) && BeginIn(x, ev).Some?
    ensures BeginIn(x, ev).value.broker == x.w.broker
  {
    if !x.started {
      CommitSendsNothing(x.w, StartRec(ev.atNS, x.w.broker.intent));
    }
  }

  lemma DeliveryKeepsBroker(w: World, f: Fill)
    requires Runnable(w)
    ensures OnFillIn(w, f).0.broker == w.broker
  {
    CommitSendsNothing(w, FillRec(f.atNS, f));
  }

  /** What the rule asks is what it executes of the open shares. */
  lemma AskedIsExecuted(b: Broker, t: Top, ev: SimEvent, rule: Rule)
    requires b.live.Some? ==> b.live.value.open >= 1
    ensures var asked := AskedQty(b, TopAfter(t, ev), ev, rule);
            && (Executed(b, ev, rule) < 1 <==> b.live == None || asked < 1)
            && (b.live.Some? && asked >= 1 ==> Executed(b, ev, rule) == Min(asked, b.live.value.open))
  {
  }

  lemma FillNowIssues(w: World, t: Top, ev: SimEvent, rule: Rule, w2: World)
    requires Runnable(w) && FillNow(w, AskedQty(w.broker, TopAfter(t, ev), ev, rule), ev.atNS) == Some(w2)
    requires w.broker.live.Some? ==> w.broker.live.value.open >= 1
    ensures w2.broker.issued == w.broker.issued + Evidence(w.broker, ev, rule)
  {
    var asked := AskedQty(w.broker, TopAfter(t, ev), ev, rule);
    var (b, f) := BrokerFill(w.broker, asked, ev.atNS);
    AskedIsExecuted(w.broker, t, ev, rule);
    if f.Some? {
      DeliveryKeepsBroker(w.(broker := b), f.value);
    }
  }

  /** An event that goes through adds exactly the execution its rule calls for at the order it finds. */
  lemma EventExecutes(x: SimState, ev: SimEvent, rule: Rule, y: SimState)
    requires Runnable(x.w) && SimStep(x, ev, rule) == Some(y)
    requires x.w.broker.live.Some? ==> x.w.broker.live.value.open >= 1
    ensures y.w.broker.issued == x.w.broker.issued + Evidence(x.w.broker, ev, rule)
  {
    var w1, w2 := StepParts(x, ev, rule, y);
    BeginKeepsBroker(x, ev);
    FillNowIssues(w1, x.top, ev, rule, w2);
    TickIssuesNothing(w2, ev.atNS);
  }

  // ---------------------------------------------------------------- over a whole simulation

  /** The evidence of a simulation, event by event: what each event's rule executes of the order it finds. */
  ghost function EvidenceOf(cfg: Config, i: Intent, evs: seq<SimEvent>, rule: Rule): seq<Fill>
    requires SimRun(FirstSim(cfg, i), evs, rule).Some?
  {
    if evs == [] then []
    else
      var n := |evs| - 1;
      var x := SimRun(FirstSim(cfg, i), evs[..n], rule).value;
      EvidenceOf(cfg, i, evs[..n], rule) + Evidence(x.w.broker, evs[n], rule)
  }

  lemma SimulationIsOpen(cfg: Config, i: Intent, evs: seq<SimEvent>, rule: Rule)
    requires i.Valid() && SimRun(FirstSim(cfg, i), evs, rule).Some?
    ensures var b := SimRun(FirstSim(cfg, i), evs, rule).value.w.broker;
            b.live.Some? ==> b.live.value.open >= 1
  {
    var es := SimulationIsARun(cfg, i, evs, rule);
    RunIsSafe(cfg, i, es);
  }

  /**
   * What a simulation executes, in order, is exactly what its rule says of each event: under the
   * conservative rule only trades strictly through the order's price, up to their own quantity;
   * under the optimistic one a trade or the opposite touch at the price; never at or past the
   * deadline, always at the order's own price.
   */
  lemma {:induction false} ExecutionsFollowTheRule(cfg: Config, i: Intent, evs: seq<SimEvent>, rule: Rule)
    requires i.Valid() && SimRun(FirstSim(cfg, i), evs, rule).Some?
    ensures SimRun(FirstSim(cfg, i), evs, rule).value.w.broker.issued == EvidenceOf(cfg, i, evs, rule)
  {
    if evs != [] {
      var n := |evs| - 1;
      ExecutionsFollowTheRule(cfg, i, evs[..n], rule);
      SimulationIsOpen(cfg, i, evs[..n], rule);
      EventExecutes(SimRun(FirstSim(cfg, i), evs[..n], rule).value, evs[n], rule,
                    SimRun(FirstSim(cfg, i), evs, rule).value);
    }
  }

  // ---------------------------------------------------------------- the book the executor sees

  lemma CommitKeepsTop(w: World, r: Record)
    requires Runnable(w)
    ensures CommitIn(w, r).0.proc.Some? ==> CommitIn(w, r).0.proc.value.top == w.proc.value.top
  {
  }

  lemma AnswerKeepsTop(w: World, c: Child, now: int)
    requires Runnable(w)
    ensures AnswerIn(w, c, now).0.proc.Some? ==> AnswerIn(w, c, now).0.proc.value.top == w.proc.value.top
  {
    var (b, a) := BrokerSend(w.broker, c);
    if a != Killed {
      CommitKeepsTop(w.(broker := b), OutcomeFor(c, a, now, w.cfg.requireLedgerComplete));
    }
  }

  lemma QueryKeepsTop(w: World, now: int)
    requires Runnable(w)
    ensures QueryIn(w, now).0.proc.Some? ==> QueryIn(w, now).0.proc.value.top == w.proc.value.top
  {
    var (b, v) := BrokerQuery(w.broker);
    if v.Some? {
      CommitKeepsTop(w.(broker := b), ReconcileRec(now, v.value, w.cfg.requireLedgerComplete));
    }
  }

  lemma PassKeepsTop(w: World, now: int)
    requires Runnable(w)
    ensures PassIn(w, now).0.proc.Some? ==> PassIn(w, now).0.proc.value.top == w.proc.value.top
  {
    if w.proc.value.err == None {
      var d := Decide(w.proc.value.state, InputsOf(w, now));
      if d.Query? {
        QueryKeepsTop(w, now);
      } else if d.Commit? {
        CommitKeepsTop(w, d.rec);
        var (w1, c) := CommitIn(w, d.rec);
        if c == Committed && d.rec.SendRec? {
          AnswerKeepsTop(w1, d.rec.child, now);
        }
      }
    }
  }

  lemma {:induction false} PassesKeepTop(w: World, es: seq<Event>)
    requires w.proc.Some? && forall k :: 0 <= k < |es| ==> es[k].Pass?
    ensures After(w, es).proc.Some? ==> After(w, es).proc.value.top == w.proc.value.top
  {
    if es != [] {
      var n := |es| - 1;
      PassesKeepTop(w, es[..n]);
      if Runnable(After(w, es[..n])) {
        PassKeepsTop(After(w, es[..n]), es[n].now);
      }
    }
  }

  /** The last book of the events, unsynced when a reconnect, a session or a silence came after it. */
  function LatestBook(evs: seq<SimEvent>): Top {
    if evs == [] then Top(0, 0, 0, false)
    else
      var n := |evs| - 1;
      match evs[n]
      case BookEvent(at, bid, ask, synced) => Top(bid, ask, at, synced)
      case Unsync(_) => LatestBook(evs[..n]).(synced := false)
      case _ => LatestBook(evs[..n])
  }

  lemma StepTakesTheBook(x: SimState, ev: SimEvent, rule: Rule, y: SimState)
    requires Runnable(x.w) && SimStep(x, ev, rule) == Some(y)
    ensures Runnable(y.w) && y.top == TopAfter(x.top, ev)
    ensures y.w.proc.value.top == if ev.BookEvent? || ev.Unsync? then Some(y.top) else x.w.proc.value.top
  {
    var w1, w2 := StepParts(x, ev, rule, y);
    if !x.started {
      CommitKeepsTop(x.w, StartRec(ev.atNS, x.w.broker.intent));
    }
    FillKeepsTop(w1, AskedQty(w1.broker, TopAfter(x.top, ev), ev, rule), ev.atNS, w2);
    var es := TickIsARun(w2, ev.atNS);
    PassesKeepTop(w2, es);
  }

  lemma FillKeepsTop(w: World, qty: int, atNS: int, w2: World)
    requires Runnable(w) && FillNow(w, qty, atNS) == Some(w2)
    ensures Runnable(w2) && w2.proc.value.top == w.proc.value.top
  {
    var (b, f) := BrokerFill(w.broker, qty, atNS);
    if f.Some? {
      CommitKeepsTop(w.(broker := b), FillRec(f.value.atNS, f.value));
    }
  }

  /** Whether any event told of a book. */
  predicate HeardOfBook(evs: seq<SimEvent>) {
    evs != [] && (evs[|evs| - 1].BookEvent? || evs[|evs| - 1].Unsync? || HeardOfBook(evs[..|evs| - 1]))
  }

  /**
   * Throughout a simulation the executor decides on the last book of the events so far, or on none
   * before the first.
   */
  lemma {:induction false} TheBookIsTheLatest(cfg: Config, i: Intent, evs: seq<SimEvent>, rule: Rule)
    requires SimRun(FirstSim(cfg, i), evs, rule).Some?
    ensures var x := SimRun(FirstSim(cfg, i), evs, rule).value;
            && Runnable(x.w) && x.top == LatestBook(evs)
            && x.w.proc.value.top == if HeardOfBook(evs) then Some(LatestBook(evs)) else None
  {
    if evs != [] {
      var n := |evs| - 1;
      TheBookIsTheLatest(cfg, i, evs[..n], rule);
      StepTakesTheBook(SimRun(FirstSim(cfg, i), evs[..n], rule).value, evs[n], rule,
                       SimRun(FirstSim(cfg, i), evs, rule).value);
    }
  }
}
