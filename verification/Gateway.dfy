/** The faulty gateway and broker the executor is run against: `internal/exec/exectest/fake.go`. */
module Gateway {
  import opened Prices
  import opened Intents
  import opened Machine

  datatype LiveOrder = LiveOrder(key: Key, price: int, open: int, filled: int)

  /** The rules an executor may break. */
  datatype Violation = SentUnreconciled | KeySentTwice | PriceBeyondCap | SecondLiveOrder | FilledBeyondTarget

  datatype Faults = Faults(
    down: bool, dropRequest: bool, dropResponse: bool, uncertain: bool, refuseNext: bool, killBefore: bool,
    killAfter: bool)

  const NO_FAULTS := Faults(false, false, false, false, false, false, false)

  /** `issued` lists the evidence of every execution so far; its length is the source's fill sequence. */
  datatype Broker = Broker(
    intent: Intent, live: Option<LiveOrder>, filled: int, issued: seq<Fill>,
    sends: seq<Child>, answers: map<Key, Outcome>, violations: seq<Violation>, unanswered: bool, faults: Faults)

  /** What a send comes back with; `Killed` is the simulated process kill. */
  datatype Answer = Replied(outcome: Outcome) | LinkDown | Killed

  function NewBroker(i: Intent): Broker {
    Broker(i, None, 0, [], [], map[], [], false, NO_FAULTS)
  }

  function Flag(b: Broker, broken: bool, v: Violation): Broker {
    if broken then b.(violations := b.violations + [v]) else b
  }

  /** A request that reaches the broker. */
  function BrokerApply(b: Broker, c: Child): (Broker, Outcome) {
    var ok := Outcome(c.key, Accepted, FakeNo(c.key));
    match c.action
    case Submit =>
      (Flag(b, b.live.Some?, SecondLiveOrder).(live := Some(LiveOrder(c.key, c.price, c.qty, 0))), ok)
    case UnknownAction => (b, Outcome(c.key, Refused, OrderNo("")))
    case _ =>
      if b.live == None || b.live.value.key != c.target then (b, Outcome(c.key, Uncertain, OrderNo("")))
      else if c.action == Cancel then (b.(live := None), ok)
      else
        var o := b.live.value;
        (b.(live := Some(LiveOrder(c.key, c.price, Min(c.qty, o.open), o.filled))), ok)
  }

  /** The rules a child that arrives is checked against; a key answered before is checked no further. */
  function BrokerReceives(b: Broker, c: Child): Broker {
    var b1 := Flag(b.(sends := b.sends + [c]), b.unanswered, SentUnreconciled);
    if c.key in b.answers then Flag(b1, true, KeySentTwice)
    else
      Flag(b1, (c.action == Submit || c.action == Amend) && b.intent.Worse(c.price, b.intent.Cap()), PriceBeyondCap)
  }

  /** A child that is applied, under the faults that follow. */
  function BrokerSettles(b: Broker, c: Child): (Broker, Answer) {
    var (b1, out) := BrokerApply(b, c);
    var b2 := b1.(answers := b1.answers[c.key := out]);
    if b2.faults.dropResponse then
      (b2.(faults := b2.faults.(dropResponse := false, down := true), unanswered := true), LinkDown)
    else if b2.faults.killAfter then
      (b2.(faults := b2.faults.(killAfter := false), unanswered := true), Killed)
    else if b2.faults.uncertain then
      (b2.(faults := b2.faults.(uncertain := false), unanswered := true),
       Replied(Outcome(c.key, Uncertain, OrderNo(""))))
    else (b2.(unanswered := b2.unanswered || out.status == Uncertain), Replied(out))
  }

  function BrokerSend(b: Broker, c: Child): (Broker, Answer) {
    if b.faults.down then (b.(unanswered := true), LinkDown)
    else
      var b1 := BrokerReceives(b, c);
      if c.key in b.answers then (b1, Replied(b.answers[c.key]))
      else if b.faults.dropRequest then
        (b1.(faults := b.faults.(dropRequest := false, down := true), unanswered := true), LinkDown)
      else if b.faults.killBefore then (b1.(faults := b.faults.(killBefore := false), unanswered := true), Killed)
      else if b.faults.refuseNext then
        var out := Outcome(c.key, Refused, OrderNo(""));
        (b1.(faults := b.faults.(refuseNext := false), answers := b.answers[c.key := out]), Replied(out))
      else BrokerSettles(b1, c)
  }

  function BrokerView(b: Broker): View {
    View(if b.live.Some? then Some(Order(b.live.value.key, b.live.value.price, b.live.value.open)) else None, b.filled)
  }

  function BrokerQuery(b: Broker): (Broker, Option<View>) {
    if b.faults.down then (b, None) else (b.(unanswered := false), Some(BrokerView(b)))
  }

  /** Executes up to `qty` of the live order at its price. */
  function BrokerFill(b: Broker, qty: int, atNS: int): (Broker, Option<Fill>) {
    if b.live == None || qty < 1 then (b, None)
    else
      var o := b.live.value;
      var q := Min(qty, o.open);
      var f := Fill(FakeFill(|b.issued| + 1), o.key, q, o.price, atNS);
      var left := if o.open == q then None else Some(o.(open := o.open - q, filled := o.filled + q));
      (Flag(b.(filled := b.filled + q, issued := b.issued + [f], live := left),
            b.filled + q > b.intent.TargetQty(), FilledBeyondTarget), Some(f))
  }

  /** The gateway as the object the tests and the simulator hold. */
  class FakeGateway {
    const intent: Intent
    var live: Option<LiveOrder>
    var filled: int
    var issued: seq<Fill>
    var sends: seq<Child>
    var answers: map<Key, Outcome>
    var violations: seq<Violation>
    var unanswered: bool
    var faults: Faults

    function View(): Broker
      reads this
    {
      Broker(intent, live, filled, issued, sends, answers, violations, unanswered, faults)
    }

    constructor (i: Intent)
      ensures View() == NewBroker(i)
    {
      intent := i;
      live, filled, issued, sends, answers := None, 0, [], [], map[];
      violations, unanswered, faults := [], false, NO_FAULTS;
    }

    method Violate(broken: bool, v: Violation)
      modifies this`violations
      ensures View() == Flag(old(View()), broken, v)
    {
      if broken {
        violations := violations + [v];
      }
    }

    method Apply(c: Child) returns (out: Outcome)
      modifies this
      ensures (View(), out) == BrokerApply(old(View()), c)
    {
      out := Outcome(c.key, Accepted, FakeNo(c.key));
      if c.action == Submit {
        Violate(live.Some?, SecondLiveOrder);
        live := Some(LiveOrder(c.key, c.price, c.qty, 0));
      } else if c.action == UnknownAction {
        out := Outcome(c.key, Refused, OrderNo(""));
      } else if live == None || live.value.key != c.target {
        out := Outcome(c.key, Uncertain, OrderNo(""));
      } else if c.action == Cancel {
        live := None;
      } else {
        live := Some(live.value.(key := c.key, price := c.price, open := Min(c.qty, live.value.open)));
      }
    }

    /** The rules a child is checked against before anything happens to it; `None` when it is answered again. */
    method Receive(c: Child) returns (again: Option<Outcome>)
      requires !faults.down
      modifies this`sends, this`violations
      ensures View() == BrokerReceives(old(View()), c)
      ensures again == if c.key in answers then Some(answers[c.key]) else None
    {
      sends := sends + [c];
      Violate(unanswered, SentUnreconciled);
      if c.key in answers {
        Violate(true, KeySentTwice);
        return Some(answers[c.key]);
      }
      Violate((c.action == Submit || c.action == Amend) && intent.Worse(c.price, intent.Cap()), PriceBeyondCap);
      again := None;
    }

    /** Applies the child, and answers as the faults after it say. */
    method Settle(c: Child) returns (a: Answer)
      modifies this
      ensures (View(), a) == BrokerSettles(old(View()), c)
    {
      var out := Apply(c);
      answers := answers[c.key := out];
      if faults.dropResponse {
        faults, unanswered := faults.(dropResponse := false, down := true), true;
        return LinkDown;
      }
      if faults.killAfter {
        faults, unanswered := faults.(killAfter := false), true;
        return Killed;
      }
      if faults.uncertain {
        faults, unanswered := faults.(uncertain := false), true;
        return Replied(Outcome(c.key, Uncertain, OrderNo("")));
      }
      if out.status == Uncertain {
        unanswered := true;
      }
      return Replied(out);
    }

    method Send(c: Child) returns (a: Answer)
      modifies this
      ensures (View(), a) == BrokerSend(old(View()), c)
    {
      if faults.down {
        unanswered := true;
        return LinkDown;
      }
      var again := Receive(c);
      if again.Some? {
        return Replied(again.value);
      }
      if faults.dropRequest {
        faults, unanswered := faults.(dropRequest := false, down := true), true;
        return LinkDown;
      }
      if faults.killBefore {
        faults, unanswered := faults.(killBefore := false), true;
        return Killed;
      }
      if faults.refuseNext {
        var refused := Outcome(c.key, Refused, OrderNo(""));
        faults, answers := faults.(refuseNext := false), answers[c.key := refused];
        return Replied(refused);
      }
      a := Settle(c);
    }

    method Query() returns (v: Option<Machine.View>)
      modifies this`unanswered
      ensures (View(), v) == BrokerQuery(old(View()))
    {
      if faults.down {
        return None;
      }
      unanswered := false;
      var order := if live.Some? then Some(Order(live.value.key, live.value.price, live.value.open)) else None;
      v := Some(Machine.View(order, filled));
    }

    method Fill(qty: int, atNS: int) returns (f: Option<Machine.Fill>)
      modifies this
      ensures (View(), f) == BrokerFill(old(View()), qty, atNS)
    {
      if live == None || qty < 1 {
        return None;
      }
      var o := live.value;
      var q := Min(qty, o.open);
      filled := filled + q;
      var fill := Machine.Fill(FakeFill(|issued| + 1), o.key, q, o.price, atNS);
      issued := issued + [fill];
      Violate(filled > intent.TargetQty(), FilledBeyondTarget);
      live := if o.open == q then None else Some(o.(open := o.open - q, filled := o.filled + q));
      f := Some(fill);
    }
  }
}
