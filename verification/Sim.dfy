/** Replaying recorded books through the executor under two fill rules: `internal/exec/sim/sim.go`. */
module Sim {
  import opened Prices
  import opened Intents
  import opened Machine
  import opened Decisions
  import opened Gateway
  import opened Runs
  import opened Executors

  datatype Rule = Through | Touch

  /** Replay events as the simulator tells them apart; `OtherEvent` only moves the clock. */
  datatype SimEvent =
    | Unsync(atNS: int)
    | BookEvent(atNS: int, bid: int, ask: int, synced: bool)
    | TradeEvent(atNS: int, price: int, qty: int)
    | OtherEvent(atNS: int)

  function Opposite(side: Side, t: Top): int {
    if side == Buy then t.ask else t.bid
  }

  /** A market price at or through order price `o`. */
  predicate Reaches(side: Side, p: int, o: int) {
    p >= 1 && if side == Buy then p <= o else p >= o
  }

  /** A trade strictly through order price `o`. */
  predicate GoesThrough(side: Side, p: int, o: int) {
    if side == Buy then p < o else p > o
  }

  /** A system under simulation, with the simulator's own copy of the touch. */
  datatype SimState = SimState(w: World, top: Top, started: bool)

  function FirstSim(cfg: Config, i: Intent): SimState {
    SimState(World(cfg, Disk([], []), Some(Proc(EMPTY_STATE, None, None, false, 0)), NewBroker(i), false, []),
             Top(0, 0, 0, false), false)
  }

  /** The touch after an event. */
  function TopAfter(t: Top, ev: SimEvent): Top {
    match ev
    case Unsync(_) => t.(synced := false)
    case BookEvent(at, bid, ask, synced) => Top(bid, ask, at, synced)
    case _ => t
  }

  /** How much an event asks the broker to fill under a rule; 0 for nothing. `t` is the touch after the event. */
  function AskedQty(b: Broker, t: Top, ev: SimEvent, rule: Rule): int {
    if b.live == None || ev.atNS >= b.intent.expiresAtNS then 0
    else
      var o := b.live.value.price;
      match ev
      case BookEvent(_, _, _, _) =>
        if rule == Touch && t.synced && Reaches(b.intent.side, Opposite(b.intent.side, t), o)
           then b.intent.TargetQty() else 0
      case TradeEvent(_, price, qty) =>
        if rule == Through && GoesThrough(b.intent.side, price, o) then qty
        else if rule == Touch && Reaches(b.intent.side, price, o) then b.intent.TargetQty()
        else 0
      case _ => 0
  }

  /** An execution at the broker and its delivery; `None` is an error, which ends the run. */
  ghost function FillNow(w: World, qty: int, atNS: int): (res: Option<World>)
    requires Runnable(w)
    ensures res.Some? ==> Runnable(res.value)
  {
    var (b, f) := BrokerFill(w.broker, qty, atNS);
    if f == None then Some(w)
    else
      var (w1, c) := OnFillIn(w.(broker := b), f.value);
      if c == Committed && (w1 == w.(broker := b) || w1.proc.value.state.Overfill() == 0) then Some(w1) else None
  }

  ghost function BeginIn(x: SimState, ev: SimEvent): (res: Option<World>)
    requires Runnable(x.w)
    ensures res.Some? ==> Runnable(res.value)
  {
    if x.started then Some(x.w)
    else
      var (w, c) := CommitIn(x.w, StartRec(ev.atNS, x.w.broker.intent));
      if c == Committed then Some(w) else None
  }

  function WithBook(w: World, t: Top, ev: SimEvent): World
    requires w.proc.Some?
  {
    if ev.Unsync? || ev.BookEvent? then w.(proc := Some(w.proc.value.(top := Some(t)))) else w
  }

  /** One replay event: start if needed, take the book, fill under the rule, then one `Tick`. */
  ghost function SimStep(x: SimState, ev: SimEvent, rule: Rule): Option<SimState>
    requires Runnable(x.w)
  {
    match BeginIn(x, ev)
    case None => None
    case Some(w0) =>
      var t := TopAfter(x.top, ev);
      var w1 := WithBook(w0, t, ev);
      match FillNow(w1, AskedQty(w1.broker, t, ev, rule), ev.atNS)
      case None => None
      case Some(w2) =>
        var (w3, flow) := TickIn(w2, ev.atNS);
        if flow == ReturnNil && Runnable(w3) then Some(SimState(w3, t, true)) else None
  }

  /** The stages of one event that went through. */
  lemma StepParts(x: SimState, ev: SimEvent, rule: Rule, y: SimState)
    returns (w1: World, w2: World)
    requires Runnable(x.w) && SimStep(x, ev, rule) == Some(y)
    ensures BeginIn(x, ev).Some? && w1 == WithBook(BeginIn(x, ev).value, TopAfter(x.top, ev), ev)
    ensures Runnable(w1) && FillNow(w1, AskedQty(w1.broker, TopAfter(x.top, ev), ev, rule), ev.atNS) == Some(w2)
    ensures Runnable(w2) && TickIn(w2, ev.atNS) == (y.w, ReturnNil)
  {
    var t := TopAfter(x.top, ev);
    w1 := WithBook(BeginIn(x, ev).value, t, ev);
    w2 := FillNow(w1, AskedQty(w1.broker, t, ev, rule), ev.atNS).value;
  }

  ghost function SimRun(x: SimState, evs: seq<SimEvent>, rule: Rule): (res: Option<SimState>)
    requires Runnable(x.w)
    ensures res.Some? ==> Runnable(res.value.w)
  {
    if evs == [] then Some(x)
    else
      match SimRun(x, evs[..|evs| - 1], rule)
      case None => None
      case Some(y) => SimStep(y, evs[|evs| - 1], rule)
  }

  datatype SimResult = SimResult(target: int, filled: int, fillNotional: int, sends: nat, done: Reason, violations: nat)

  function ResultOf(w: World): SimResult
    requires w.proc.Some?
  {
    var s := w.proc.value.state;
    SimResult(s.target, s.filled, s.fillNotional, |w.broker.sends|, s.done, |w.broker.violations|)
  }

  /** `RunOne` on a fresh journal whose writes succeed; `None` is an error return. */
  method RunOne(evs: seq<SimEvent>, i: Intent, cfg: Config, rule: Rule) returns (r: Option<SimResult>)
    ensures var end := SimRun(FirstSim(cfg, i), evs, rule);
            r == if end.Some? then Some(ResultOf(end.value.w)) else None
  {
    var j := new Journal(Disk([], []));
    var g := new FakeGateway(i);
    var kill := new KillSwitch();
    var e := new Executor(cfg, j, EMPTY_STATE, g, kill);
    var started := false;
    var top := Top(0, 0, 0, false);
    ghost var x0 := FirstSim(cfg, i);
    for n := 0 to |evs|
      invariant fresh(e) && fresh(j) && fresh(g) && fresh(kill)
      invariant e.j == j && e.gw == g && e.kill == kill && Runnable(e.View())
      invariant SimRun(x0, evs[..n], rule) == Some(SimState(e.View(), top, started))
    {
      var ev := evs[n];
      RunUnrolls(x0, evs, n, rule, SimState(e.View(), top, started));
      var ok := HandleEvent(e, ev, rule, started, top);
      if !ok {
        return None;
      }
      started, top := true, TopAfter(top, ev);
      assert SimRun(x0, evs[..n + 1], rule) == Some(SimState(e.View(), top, started));
    }
    assert evs[..|evs|] == evs;
    r := Some(SimResult(e.state.target, e.state.filled, e.state.fillNotional, |g.sends|, e.state.done, |g.violations|));
  }

  lemma RunUnrolls(x0: SimState, evs: seq<SimEvent>, n: nat, rule: Rule, x: SimState)
    requires Runnable(x0.w) && n < |evs| && SimRun(x0, evs[..n], rule) == Some(x)
    ensures SimRun(x0, evs[..n + 1], rule) == SimStep(x, evs[n], rule)
    ensures SimStep(x, evs[n], rule) == None ==> SimRun(x0, evs, rule) == None
  {
    assert evs[..n + 1][..n] == evs[..n] && evs[..n + 1][n] == evs[n];
    if SimStep(x, evs[n], rule) == None {
      ErrorEnds(x0, evs, n + 1, rule);
    }
  }

  lemma {:induction false} ErrorEnds(x0: SimState, evs: seq<SimEvent>, n: nat, rule: Rule)
    requires Runnable(x0.w) && n <= |evs| && SimRun(x0, evs[..n], rule) == None
    ensures SimRun(x0, evs, rule) == None
  {
    if n == |evs| {
      assert evs[..n] == evs;
    } else {
      var init := evs[..|evs| - 1];
      assert init[..n] == evs[..n];
      ErrorEnds(x0, init, n, rule);
    }
  }

  /** Starts the executor at the first event and hands it the book. */
  method OpenEvent(e: Executor, ev: SimEvent, started: bool, top: Top) returns (ok: bool)
    requires Runnable(e.View())
    modifies e, e.j, e.gw
    ensures var begun := BeginIn(SimState(old(e.View()), top, started), ev);
            && (ok <==> begun.Some?)
            && (ok ==> Runnable(e.View()) && e.View() == WithBook(begun.value, TopAfter(top, ev), ev))
  {
    if !started {
      var c := e.Start(e.gw.intent, ev.atNS);
      if c != Committed {
        return false;
      }
    }
    if ev.Unsync? || ev.BookEvent? {
      e.OnBook(TopAfter(top, ev));
    }
    ok := true;
  }

  /** The event once the executor has started and holds the book. */
  lemma StepAfterBegin(x: SimState, ev: SimEvent, rule: Rule, w1: World)
    requires Runnable(x.w) && BeginIn(x, ev).Some? && w1 == WithBook(BeginIn(x, ev).value, TopAfter(x.top, ev), ev)
    ensures Runnable(w1)
    ensures var t := TopAfter(x.top, ev);
            var w2 := FillNow(w1, AskedQty(w1.broker, t, ev, rule), ev.atNS);
            SimStep(x, ev, rule) ==
              if w2 == None then None
              else
                var (w3, flow) := TickIn(w2.value, ev.atNS);
                if flow == ReturnNil && Runnable(w3) then Some(SimState(w3, t, true)) else None
  {
  }

  /** The tick that ends an event. */
  method TickEvent(e: Executor, now: int) returns (ok: bool)
    requires Runnable(e.View())
    modifies e, e.j, e.gw
    ensures var (w, flow) := TickIn(old(e.View()), now);
            (ok <==> flow == ReturnNil) && (ok ==> Runnable(e.View()) && e.View() == w)
  {
    var flow := e.Tick(now);
    ok := flow == ReturnNil;
  }

  method HandleEvent(e: Executor, ev: SimEvent, rule: Rule, started: bool, top: Top) returns (ok: bool)
    requires Runnable(e.View())
    modifies e, e.j, e.gw
    ensures var next := SimStep(SimState(old(e.View()), top, started), ev, rule);
            && (ok <==> next.Some?)
            && (ok ==> Runnable(e.View()) && next == Some(SimState(e.View(), TopAfter(top, ev), true)))
  {
    ghost var x := SimState(e.View(), top, started);
    var t := TopAfter(top, ev);
    ok := OpenEvent(e, ev, started, top);
    if !ok {
      return;
    }
    ghost var w1 := e.View();
    ok := FillByRule(e, t, ev, rule);
    StepAfterBegin(x, ev, rule, w1);
    if !ok {
      return;
    }
    ok := TickEvent(e, ev.atNS);
  }

  method FillByRule(e: Executor, t: Top, ev: SimEvent, rule: Rule) returns (ok: bool)
    requires Runnable(e.View())
    modifies e, e.j, e.gw
    ensures var next := FillNow(old(e.View()), AskedQty(old(e.View()).broker, t, ev, rule), ev.atNS);
            && (ok <==> next.Some?)
            && (ok ==> Runnable(e.View()) && next == Some(e.View()))
  {
    var f := e.gw.Fill(AskedQty(e.gw.View(), t, ev, rule), ev.atNS);
    if f == None {
      return true;
    }
    var c, over := e.OnFill(f.value);
    ok := c == Committed && !over;
  }
}
