/**
 * The rules of the gateway: exactly when each is recorded as broken, and, without looking at
 * that record, that no child of any run breaks one.
 */
module Rules {
  import opened Prices
  import opened Intents
  import opened Machine
  import opened Caps
  import opened Decisions
  import opened Gateway
  import opened Runs
  import opened Executors
  import opened Protocol
  import opened Safety

  /** The violations a call appended. */
  function NewViolations(before: Broker, after: Broker): seq<Violation>
    requires before.violations <= after.violations
  {
    after.violations[|before.violations|..]
  }

  /** On the wrong side of the cap: dearer for a buyer, cheaper for a seller. */
  predicate BeyondCap(i: Intent, price: int) {
    if i.side == Buy then price > i.Cap() else price < i.Cap()
  }

  /** A child that no fault keeps from the order book. */
  predicate IsApplied(b: Broker, c: Child) {
    && !b.faults.down && c.key !in b.answers
    && !b.faults.dropRequest && !b.faults.killBefore && !b.faults.refuseNext
  }

  /** The list of `v` if it is broken. */
  function Broken(broken: bool, v: Violation): seq<Violation> {
    if broken then [v] else []
  }

  lemma FlagAppends(b: Broker, broken: bool, v: Violation)
    ensures Flag(b, broken, v) == b.(violations := b.violations + Broken(broken, v))
  {
  }

  /** What a receipt appends, in order. */
  lemma ReceiptRecords(b: Broker, c: Child)
    ensures BrokerReceives(b, c) == b.(sends := b.sends + [c], violations := BrokerReceives(b, c).violations)
    ensures BrokerReceives(b, c).violations ==
            b.violations + Broken(b.unanswered, SentUnreconciled)
            + if c.key in b.answers then [KeySentTwice]
              else Broken(c.action in {Submit, Amend} && BeyondCap(b.intent, c.price), PriceBeyondCap)
  {
    var b0 := b.(sends := b.sends + [c]);
    FlagAppends(b0, b.unanswered, SentUnreconciled);
    var b1 := Flag(b0, b.unanswered, SentUnreconciled);
    FlagAppends(b1, true, KeySentTwice);
    assert b.intent.Worse(c.price, b.intent.Cap()) <==> BeyondCap(b.intent, c.price);
  }

  lemma ApplyRecords(b: Broker, c: Child)
    ensures BrokerSettles(b, c).0.violations ==
            b.violations + Broken(c.action == Submit && b.live.Some?, SecondLiveOrder)
    ensures BrokerSettles(b, c).0.sends == b.sends
  {
    FlagAppends(b, b.live.Some?, SecondLiveOrder);
  }

  /** What a send that is not down appends, rule by rule. */
  lemma SendRecords(b: Broker, c: Child) returns (receipt: seq<Violation>, order: seq<Violation>)
    requires !b.faults.down
    ensures receipt == Broken(b.unanswered, SentUnreconciled)
                       + if c.key in b.answers then [KeySentTwice]
                         else Broken(c.action in {Submit, Amend} && BeyondCap(b.intent, c.price), PriceBeyondCap)
    ensures order == Broken(IsApplied(b, c) && c.action == Submit && b.live.Some?, SecondLiveOrder)
    ensures BrokerSend(b, c).0.violations == b.violations + (receipt + order)
    ensures BrokerSend(b, c).0.sends == b.sends + [c]
  {
    ReceiptRecords(b, c);
    var b1 := BrokerReceives(b, c);
    ApplyRecords(b1, c);
    receipt := Broken(b.unanswered, SentUnreconciled)
               + if c.key in b.answers then [KeySentTwice]
                 else Broken(c.action in {Submit, Amend} && BeyondCap(b.intent, c.price), PriceBeyondCap);
    order := Broken(IsApplied(b, c) && c.action == Submit && b.live.Some?, SecondLiveOrder);
    assert b1.violations == b.violations + receipt;
    assert b.violations + receipt + order == b.violations + (receipt + order);
  }

  /** Which rules a send breaks at the gateway as it finds it. */
  predicate Breaks(b: Broker, c: Child, v: Violation) {
    !b.faults.down &&
    match v
    case SentUnreconciled => b.unanswered
    case KeySentTwice => c.key in b.answers
    case PriceBeyondCap => c.key !in b.answers && c.action in {Submit, Amend} && BeyondCap(b.intent, c.price)
    case SecondLiveOrder => IsApplied(b, c) && c.action == Submit && b.live.Some?
    case FilledBeyondTarget => false
  }

  /** `news` lists the rules the send breaks, each once. */
  ghost predicate Lists(news: seq<Violation>, b: Broker, c: Child) {
    && (forall v :: v in news <==> Breaks(b, c, v))
    && (forall m, n :: 0 <= m < n < |news| ==> news[m] != news[n])
  }

  lemma BrokenIsListed(b: Broker, c: Child)
    requires !b.faults.down
    ensures Lists(Broken(b.unanswered, SentUnreconciled)
                  + (if c.key in b.answers then [KeySentTwice]
                     else Broken(c.action in {Submit, Amend} && BeyondCap(b.intent, c.price), PriceBeyondCap))
                  + Broken(IsApplied(b, c) && c.action == Submit && b.live.Some?, SecondLiveOrder), b, c)
  {
  }

  /** A send is recorded as breaking a rule exactly when it breaks it, once; and a send that arrives is listed. */
  lemma SendRecordsExactly(b: Broker, c: Child)
    ensures b.violations <= BrokerSend(b, c).0.violations
    ensures Lists(NewViolations(b, BrokerSend(b, c).0), b, c)
    ensures BrokerSend(b, c).0.sends == if b.faults.down then b.sends else b.sends + [c]
  {
    if b.faults.down {
      assert NewViolations(b, BrokerSend(b, c).0) == [];
    } else {
      var receipt, order := SendRecords(b, c);
      BrokenIsListed(b, c);
      assert NewViolations(b, BrokerSend(b, c).0) == receipt + order;
    }
  }

  /** An execution is recorded exactly when it takes what is filled past the target; asking breaks nothing. */
  lemma OtherCallsRecordExactly(b: Broker, qty: int, atNS: int)
    ensures BrokerQuery(b).0.violations == b.violations
    ensures b.violations <= BrokerFill(b, qty, atNS).0.violations
    ensures var news := NewViolations(b, BrokerFill(b, qty, atNS).0);
            && (FilledBeyondTarget in news <==>
                  b.live.Some? && qty >= 1
                  && (b.filled + qty > b.intent.TargetQty() && b.filled + b.live.value.open > b.intent.TargetQty()))
            && (forall v :: v in news ==> v == FilledBeyondTarget) && |news| <= 1
  {
  }

  /**
   * What the order book does with a child: a submit stands in its own terms, an amend takes the
   * child's key and price and never adds shares, a cancel leaves nothing, and a child for an order
   * that is not there changes nothing.
   */
  lemma ApplyMeans(b: Broker, c: Child)
    ensures var (b1, out) := BrokerApply(b, c);
            var found := b.live.Some? && b.live.value.key == c.target;
            && out.key == c.key
            && (out.status == Accepted <==> c.action == Submit || (c.action in {Amend, Cancel} && found))
            && (out.status == Refused <==> c.action == UnknownAction)
            && (out.status == Accepted || out.status == Refused || out.status == Uncertain)
            && (out.status != Accepted ==> b1 == b)
            && (c.action == Submit ==> b1.live == Some(LiveOrder(c.key, c.price, c.qty, 0)))
            && (c.action == Cancel && found ==> b1.live == None)
            && (c.action == Amend && found ==>
                  && b1.live.Some?
                  && var o := b1.live.value;
                  && o.key == c.key && o.price == c.price && o.filled == b.live.value.filled
                  && o.open <= c.qty && o.open <= b.live.value.open && (o.open == c.qty || o.open == b.live.value.open))
            && b1.filled == b.filled && b1.issued == b.issued && b1.answers == b.answers && b1.faults == b.faults
  {
  }

  /** A key answered once is answered the same ever after, and touches no order again. */
  lemma ResendChangesNothing(b: Broker, c: Child, again: Child)
    requires var b1 := BrokerSend(b, c).0; c.key in b1.answers && !b1.faults.down && again.key == c.key
    ensures var b1 := BrokerSend(b, c).0;
            var (b2, a) := BrokerSend(b1, again);
            && a == Replied(b1.answers[c.key])
            && b2.live == b1.live && b2.filled == b1.filled && b2.answers == b1.answers && b2.faults == b1.faults
  {
    var b1 := BrokerSend(b, c).0;
    ReceiptRecords(b1, again);
  }

  // ---------------------------------------------------------------- over every run

  /** A child that breaks no rule of the gateway it reaches. */
  ghost predicate CleanArrival(b: Broker, c: Child) {
    && !b.faults.down && !b.unanswered
    && (forall d :: d in b.sends ==> d.key != c.key)
    && c.action != UnknownAction
    && (c.action in {Submit, Amend} ==> c.qty >= 1 && c.price >= 1 && !BeyondCap(b.intent, c.price))
    && (c.action == Submit ==> b.live == None && b.filled + c.qty <= b.intent.TargetQty())
    && (c.action != Submit && b.live.Some? ==> b.live.value.key == c.target)
  }

  lemma ReadyIsClean(s: State, b: Broker, c: Child)
    requires ReadyToGo(s, b, c) && s.intent == b.intent && !b.faults.down
    ensures CleanArrival(b, c)
  {
    forall d | d in b.sends
      ensures d.key != c.key
    {
      assert d.key in SentKeys(b.sends);
    }
  }

  lemma AnswerSends(w: World, c: Child, now: int)
    requires Runnable(w)
    ensures AnswerIn(w, c, now).0.broker.sends == if w.broker.faults.down then w.broker.sends else w.broker.sends + [c]
  {
    var (b, a) := BrokerSend(w.broker, c);
    SendRecordsExactly(w.broker, c);
    if a != Killed {
      CommitSendsNothing(w.(broker := b), OutcomeFor(c, a, now, w.cfg.requireLedgerComplete));
    }
  }

  /** What the gateway has received after an event: as before, or one clean child more. */
  ghost predicate AtMostOneArrival(before: Broker, after: Broker) {
    || after.sends == before.sends
    || (after.sends != [] && after.sends[..|after.sends| - 1] == before.sends
        && CleanArrival(before, after.sends[|after.sends| - 1]))
  }

  lemma SentIsClean(w: World, r: Record, now: int)
    requires Safe(w) && Runnable(w) && w.proc.value.err == None && Sound(w.proc.value.state)
    requires r.SendRec? && Decide(w.proc.value.state, InputsOf(w, now)) == Commit(r)
    ensures AtMostOneArrival(w.broker, CommitDecided(w, r, now).0.broker)
  {
    CommitSendsNothing(w, r);
    var (w1, c) := CommitIn(w, r);
    if c == Committed {
      CommittedSendIsReady(w, r, now);
      AnswerSends(w1, r.child, now);
      if !w.broker.faults.down {
        ReadyIsClean(w1.proc.value.state, w1.broker, r.child);
        assert (w.broker.sends + [r.child])[..|w.broker.sends|] == w.broker.sends;
      }
    }
  }

  lemma PassSendsClean(w: World, now: int)
    requires Safe(w) && Runnable(w)
    ensures AtMostOneArrival(w.broker, PassIn(w, now).0.broker)
  {
    var p := w.proc.value;
    if p.err == None {
      DurableIsSound(w);
      var d := Decide(p.state, InputsOf(w, now));
      DecisionShape(p.state, InputsOf(w, now));
      if d.Query? {
        QuerySendsNothing(w, now);
      } else if d.Commit? && d.rec.SendRec? {
        SentIsClean(w, d.rec, now);
      } else if d.Commit? {
        CommitSendsNothing(w, d.rec);
      }
    }
  }

  lemma EventSendsClean(w: World, e: Event)
    requires Safe(w)
    ensures AtMostOneArrival(w.broker, Next(w, e).broker)
    ensures Next(w, e).broker.sends != w.broker.sends ==> e.Pass?
  {
    if Runnable(w) {
      match e
      case Pass(now) => PassSendsClean(w, now);
      case Begin(now) => CommitSendsNothing(w, StartRec(now, w.broker.intent));
      case Deliver(f) => CommitSendsNothing(w, FillRec(f.atNS, f));
      case _ =>
    }
  }

  /**
   * Whatever happened before and whatever happens next, what reaches the gateway is one child of a
   * pass that breaks none of its rules: nothing awaits an answer, its key never came before, its
   * price is within the cap, and a submit finds no order live and room below the target.
   */
  lemma EveryArrivalIsClean(cfg: Config, i: Intent, es: seq<Event>, e: Event)
    requires i.Valid()
    ensures var w := After(FirstWorld(cfg, i), es);
            && AtMostOneArrival(w.broker, Next(w, e).broker)
            && (Next(w, e).broker.sends != w.broker.sends ==> e.Pass?)
  {
    RunIsSafe(cfg, i, es);
    EventSendsClean(After(FirstWorld(cfg, i), es), e);
  }

  // ---------------------------------------------------------------- faults

  /**
   * What each fault does to a new child that arrives, the first that is set: a request lost on the
   * way and a kill before it leave nothing; a refusal is remembered; a response lost, a kill after
   * and an uncertain answer leave the child applied and its answer remembered but unanswered; and
   * each happens once.
   */
  lemma FaultsMean(b: Broker, c: Child)
    requires !b.faults.down && c.key !in b.answers
    ensures var f, (b1, a) := b.faults, BrokerSend(b, c);
            var (applied, out) := BrokerApply(b, c);
            && (if f.dropRequest || f.killBefore then b1.live == b.live && b1.answers == b.answers
                else if f.refuseNext then
                  b1.live == b.live && b1.answers == b.answers[c.key := Outcome(c.key, Refused, OrderNo(""))]
                else b1.live == applied.live && b1.answers == b.answers[c.key := out])
            && (if f.dropRequest then
                  a == LinkDown && b1.unanswered && b1.faults == f.(dropRequest := false, down := true)
                else if f.killBefore then a == Killed && b1.unanswered && b1.faults == f.(killBefore := false)
                else if f.refuseNext then
                  a == Replied(Outcome(c.key, Refused, OrderNo(""))) && b1.unanswered == b.unanswered
                  && b1.faults == f.(refuseNext := false)
                else if f.dropResponse then
                  a == LinkDown && b1.unanswered && b1.faults == f.(dropResponse := false, down := true)
                else if f.killAfter then a == Killed && b1.unanswered && b1.faults == f.(killAfter := false)
                else if f.uncertain then
                  a == Replied(Outcome(c.key, Uncertain, OrderNo(""))) && b1.unanswered
                  && b1.faults == f.(uncertain := false)
                else
                  a == Replied(out) && b1.faults == f && (b1.unanswered <==> b.unanswered || out.status == Uncertain))
            && b1.filled == b.filled && b1.issued == b.issued && b1.intent == b.intent
  {
    ReceiptRecords(b, c);
    var b1 := BrokerReceives(b, c);
    ApplyLooksAtLive(b, b1, c);
  }

  /** What applying a child does depends on the live order alone. */
  lemma ApplyLooksAtLive(b: Broker, b1: Broker, c: Child)
    requires b1.live == b.live && b1.filled == b.filled && b1.issued == b.issued && b1.intent == b.intent
    requires b1.answers == b.answers && b1.faults == b.faults && b1.unanswered == b.unanswered
    ensures BrokerApply(b1, c).0.live == BrokerApply(b, c).0.live && BrokerApply(b1, c).1 == BrokerApply(b, c).1
    ensures var b2 := BrokerApply(b1, c).0;
            && b2.filled == b.filled && b2.issued == b.issued && b2.intent == b.intent
            && b2.answers == b.answers && b2.faults == b.faults && b2.unanswered == b.unanswered
  {
  }

}
