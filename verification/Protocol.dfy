/**
 * The executor, its disk and the faulty gateway as one system, and what every run of it
 * keeps. A run is any list of events: passes of `Tick`, crashes and restarts, fault
 * settings, executions at the broker, and ledger deliveries in any order.
 */
module Protocol {
  import opened Prices
  import opened Intents
  import opened Machine
  import opened Caps
  import opened Decisions
  import opened Gateway
  import opened Runs
  import opened Executors

  datatype Event =
    | Restart
    | Begin(now: int)
    | Book(top: Top)
    | Pass(now: int)
    | Deliver(fill: Fill)
    | SetComplete(complete: bool)
    | Misattribute
    | Crash
    | PlanDisk(plan: seq<DiskFault>)
    | SetFaults(faults: Faults)
    | SetKill(engaged: bool)
    | Execute(qty: int, atNS: int)

  function FirstWorld(cfg: Config, i: Intent): World {
    World(cfg, Disk([], []), None, NewBroker(i), false, [])
  }

  /** A new process: the replayed state, no book, no completeness. */
  function Reopened(w: World): World {
    match ReplayLines(w.disk.lines)
    case Some(s) => w.(proc := Some(Proc(s, None, None, false, |w.disk.lines|)))
    case None => w
  }

  /** A ledger row that cannot be attributed stops the executor; an earlier latch stays. */
  function Stopped(w: World): World
    requires w.proc.Some?
  {
    if w.proc.value.err.Some? then w else w.(proc := Some(w.proc.value.(err := Some(Attribution))))
  }

  ghost function Next(w: World, e: Event): World {
    match e
    case Restart => if w.proc.Some? then w else Reopened(w)
    case Crash => w.(proc := None)
    case PlanDisk(plan) => w.(disk := Disk(w.disk.lines, plan))
    case SetFaults(faults) => w.(broker := w.broker.(faults := faults))
    case SetKill(engaged) => w.(killed := engaged)
    case Execute(qty, atNS) => w.(broker := BrokerFill(w.broker, qty, atNS).0)
    case Begin(now) => if Runnable(w) then CommitIn(w, StartRec(now, w.broker.intent)).0 else w
    case Book(top) => if Runnable(w) then w.(proc := Some(w.proc.value.(top := Some(top)))) else w
    case Pass(now) => if Runnable(w) then PassIn(w, now).0 else w
    case Deliver(fill) => if Runnable(w) then OnFillIn(w, fill).0 else w
    case SetComplete(complete) => if Runnable(w) then Completed(w, complete) else w
    case Misattribute => if Runnable(w) then Stopped(w) else w
  }

  ghost function After(w: World, es: seq<Event>): World {
    if es == [] then w else Next(After(w, es[..|es| - 1]), es[|es| - 1])
  }

  lemma {:induction false} AfterAppend(w: World, es: seq<Event>, more: seq<Event>)
    ensures After(w, es + more) == After(After(w, es), more)
  {
    if more == [] {
      assert es + more == es;
    } else {
      var init := more[..|more| - 1];
      AfterAppend(w, es, init);
      assert (es + more)[..|es + more| - 1] == es + init;
    }
  }

  lemma AfterOne(w: World, es: seq<Event>, e: Event)
    ensures After(w, es + [e]) == Next(After(w, es), e)
    ensures (es + [e])[..|es|] == es
  {
    assert (es + [e])[..|es|] == es;
  }

  // ---------------------------------------------------------------- the journal

  function Recs(lines: seq<JLine>): seq<Record> {
    seq(|lines|, i requires 0 <= i < |lines| => lines[i].rec)
  }

  /** The journal replays, and its records are those of an executor run. */
  ghost predicate JournalSound(lines: seq<JLine>) {
    ReplayLines(lines).Some? && ExecRun(Recs(lines)) && Replay(Recs(lines)) == Ok(ReplayLines(lines).value)
  }

  ghost function Durable(w: World): State {
    var s := ReplayLines(w.disk.lines);
    if s.Some? then s.value else EMPTY_STATE
  }

  lemma LineReplays(lines: seq<JLine>, s: State, r: Record, next: State)
    requires ReplayLines(lines) == Some(s) && Apply(s, r) == Ok(next)
    ensures ReplayLines(lines + [JLine(JOURNAL_VERSION, |lines| + 1, r, next)]) == Some(next)
  {
    assert (lines + [JLine(JOURNAL_VERSION, |lines| + 1, r, next)])[..|lines|] == lines;
  }

  lemma RunGrows(rs: seq<Record>, s: State, r: Record, next: State)
    requires ExecRun(rs) && Replay(rs) == Ok(s)
    requires Priced(s) && Builds(s, r) && TryCommit(s, r) == Ok(next)
    ensures ExecRun(rs + [r]) && Replay(rs + [r]) == Ok(next)
  {
    assert (rs + [r])[..|rs|] == rs;
  }

  lemma JournalGrows(lines: seq<JLine>, r: Record, next: State)
    requires JournalSound(lines)
    requires var s := ReplayLines(lines).value; Priced(s) && Builds(s, r) && TryCommit(s, r) == Ok(next)
    ensures var more := lines + [JLine(JOURNAL_VERSION, |lines| + 1, r, next)];
            JournalSound(more) && ReplayLines(more) == Some(next)
  {
    var s := ReplayLines(lines).value;
    LineReplays(lines, s, r, next);
    RunGrows(Recs(lines), s, r, next);
    assert Recs(lines + [JLine(JOURNAL_VERSION, |lines| + 1, r, next)]) == Recs(lines) + [r];
  }

  lemma DurableIsSound(w: World)
    requires JournalSound(w.disk.lines)
    ensures Sound(Durable(w))
  {
    RunIsSound(Recs(w.disk.lines));
  }

  /** A running process is level with its journal; a halted one may be a record behind. */
  ghost predicate ProcLevel(w: World) {
    w.proc.Some? ==>
      var p, lines := w.proc.value, w.disk.lines;
      if p.err == Some(Halted) then
        ReplayLines(lines) == Some(p.state) || (lines != [] && ReplayLines(lines[..|lines| - 1]) == Some(p.state))
      else ReplayLines(lines) == Some(p.state) && p.seqNo == |lines|
  }

  // ---------------------------------------------------------------- the broker

  predicate LiveOrderInBounds(s: State, b: Broker) {
    b.live.Some? ==>
      var o := b.live.value;
      && o.open >= 1 && o.price >= 1 && SentKey(s.sent, o.key) && !b.intent.Worse(o.price, b.intent.Cap())
      && b.filled + o.open <= b.intent.TargetQty()
  }

  /** Every send that reached the gateway is durable, and none reached it twice. */
  predicate SendsAreOurs(s: State, b: Broker) {
    && (forall c :: c in b.sends ==> c in s.sent)
    && (forall i, j :: 0 <= i < j < |b.sends| ==> b.sends[i].key != b.sends[j].key)
    && b.answers.Keys <= SentKeys(b.sends)
  }

  /** With nothing unresolved the executor knows the live order, and a new order fits what is left. */
  predicate NothingHidden(s: State, b: Broker) {
    s.inFlight == None ==>
      && !b.unanswered
      && (b.live.Some? ==> s.order.Some? && s.order.value.key == b.live.value.key)
      && (s.order == None && s.done == NoReason && s.halt == NoReason ==> b.filled <= Max(s.filled, s.brokerFilled))
  }

  predicate Linked(s: State, b: Broker) {
    && b.violations == []
    && 0 <= b.filled <= b.intent.TargetQty()
    && s.brokerFilled <= b.filled
    && (if s.Started() then s.intent == b.intent
        else b.live == None && b.filled == 0 && b.sends == [] && !b.unanswered)
    && SendsAreOurs(s, b) && LiveOrderInBounds(s, b) && NothingHidden(s, b)
    && (s.inFlight.Some? && s.inFlight.value.action == Cancel ==> s.inFlightReason != NoReason)
  }

  ghost predicate Safe(w: World) {
    JournalSound(w.disk.lines) && ProcLevel(w) && Linked(Durable(w), w.broker)
  }

  // ---------------------------------------------------------------- one commit

  /** The two ways an append leaves the disk: as it was, or with the record as its last line. */
  ghost predicate OneLineMore(w: World, r: Record, next: State, w1: World, c: CommitResult)
    requires w.proc.Some?
  {
    var p := w.proc.value;
    var more := w.disk.lines + [JLine(JOURNAL_VERSION, p.seqNo + 1, r, next)];
    && w1.broker == w.broker && w1.cfg == w.cfg && w1.completeAt == w.completeAt
    && (w1.disk.lines == w.disk.lines || w1.disk.lines == more)
    && (c == Committed ==> w1.disk.lines == more && w1.proc == Some(p.(state := next, seqNo := p.seqNo + 1)))
    && (c != Committed ==> w1.proc == None || w1.proc == Some(p.(err := Some(Halted))))
  }

  lemma RecordLines(w: World, r: Record, next: State)
    requires w.proc.Some?
    ensures OneLineMore(w, r, next, RecordIn(w, r, next).0, RecordIn(w, r, next).1)
  {
  }

  lemma CommitLines(w: World, r: Record)
    requires Runnable(w) && w.proc.value.err == None && TryCommit(w.proc.value.state, r).Ok?
    ensures OneLineMore(w, r, TryCommit(w.proc.value.state, r).value, CommitIn(w, r).0, CommitIn(w, r).1)
  {
    RecordLines(w, r, TryCommit(w.proc.value.state, r).value);
  }

  /** A commit of a record the executor builds is safe if the new state is linked to the gateway. */
  lemma CommitIsSafe(w: World, r: Record)
    requires Safe(w) && Runnable(w) && w.proc.value.err == None
    requires Builds(w.proc.value.state, r)
    requires TryCommit(w.proc.value.state, r).Ok? ==> Linked(TryCommit(w.proc.value.state, r).value, w.broker)
    ensures Safe(CommitIn(w, r).0)
  {
    var p := w.proc.value;
    if TryCommit(p.state, r).Ok? {
      var next := TryCommit(p.state, r).value;
      var more := w.disk.lines + [JLine(JOURNAL_VERSION, |w.disk.lines| + 1, r, next)];
      JournalGrows(w.disk.lines, r, next);
      assert more[..|more| - 1] == w.disk.lines;
      CommitLines(w, r);
    }
  }

  lemma StartIsLinked(s: State, b: Broker, r: Record)
    requires Linked(s, b) && r.StartRec? && r.intent == b.intent && Sound(s) && TryCommit(s, r).Ok?
    ensures Linked(TryCommit(s, r).value, b)
  {
  }

  lemma FillIsLinked(s: State, b: Broker, f: Fill)
    requires Linked(s, b) && s.Started() && FillAllowed(s, f)
    ensures Linked(ApplyFill(s, f), b)
  {
  }

  lemma FinishIsLinked(s: State, b: Broker, r: Record)
    requires Linked(s, b) && r.FinishRec? && TryCommit(s, r).Ok?
    ensures Linked(TryCommit(s, r).value, b)
  {
  }

  lemma KeyStaysSent(s: State, c: Child, k: Key)
    requires SentKey(s.sent, k)
    ensures SentKey(s.sent + [c], k)
  {
    var i := SentIndex(s.sent, k).value;
    assert (s.sent + [c])[i].key == k;
  }

  /** What holds when a child is journaled and about to go out. */
  predicate ReadyToGo(s: State, b: Broker, c: Child) {
    && s.Started() && s.inFlight == Some(c) && s.done == NoReason
    && !b.unanswered && c in s.sent && c.key !in SentKeys(b.sends)
    && c.action != UnknownAction
    && (CarriesQuantity(c) ==> c.qty >= 1 && c.price >= 1 && !s.intent.Worse(c.price, s.intent.Cap()))
    && (c.action == Submit ==> b.live == None && s.order == None && b.filled + c.qty <= b.intent.TargetQty())
    && (c.action != Submit ==> s.order.Some? && c.target == s.order.value.key
                               && (b.live.Some? ==> b.live.value.key == c.target))
  }

  lemma FreshAtGateway(s: State, b: Broker, k: Key)
    requires SendsAreOurs(s, b) && !SentKey(s.sent, k)
    ensures k !in SentKeys(b.sends)
  {
  }

  lemma SendIsReady(s: State, b: Broker, in_: Inputs, r: Record)
    requires Linked(s, b) && Sound(s) && Decide(s, in_) == Commit(r) && r.SendRec? && TryCommit(s, r).Ok?
    ensures Linked(TryCommit(s, r).value, b) && ReadyToGo(TryCommit(s, r).value, b, r.child)
  {
    var c, n := r.child, TryCommit(s, r).value;
    DecidedSend(s, in_, r);
    assert n == ApplySend(s, r);
    if b.live.Some? {
      KeyStaysSent(s, c, b.live.value.key);
    }
    KeysAreNumbered(s.intent.intentID, s.sent, c.key);
    FreshAtGateway(s, b, c.key);
    assert c.action == Cancel ==> r.reason != NoReason;
  }

  /** Nothing but the list of sends changed, and no rule was broken. */
  lemma ReceiptBreaksNothing(s: State, b: Broker, c: Child)
    requires Linked(s, b) && ReadyToGo(s, b, c) && s.intent.Valid()
    ensures c.key !in b.answers && BrokerReceives(b, c) == b.(sends := b.sends + [c])
  {
  }

  lemma ApplyBreaksNothing(s: State, b: Broker, c: Child)
    requires Linked(s, b) && ReadyToGo(s, b, c)
    ensures var (b1, out) := BrokerApply(b, c);
            && b1 == b.(live := b1.live)
            && out.key == c.key && out.status in {Accepted, Refused, Uncertain}
            && (out.status == Accepted && c.action != Submit ==> b.live.Some?)
            && (out.status == Refused ==> b1.live == b.live)
  {
  }

  /** `BrokerApply` looks at the intent, the live order and nothing else of what a receipt changes. */
  lemma ApplyAfterReceipt(b: Broker, c: Child)
    requires BrokerApply(b, c).0 == b.(live := BrokerApply(b, c).0.live)
    ensures var b1 := b.(sends := b.sends + [c]);
            BrokerApply(b1, c) == (b1.(live := BrokerApply(b, c).0.live), BrokerApply(b, c).1)
  {
  }

  /** What a ready send does to the gateway under any fault: no rule broken, and the answer tells no lie. */
  lemma SendEffects(s: State, b: Broker, c: Child)
    requires Linked(s, b) && ReadyToGo(s, b, c) && s.intent.Valid()
    ensures var (b1, a) := BrokerSend(b, c);
            var applied := BrokerApply(b, c).0.live;
            && b1.violations == [] && b1.filled == b.filled && b1.intent == b.intent && b1.issued == b.issued
            && (b1.sends == b.sends || b1.sends == b.sends + [c]) && b1.answers.Keys <= SentKeys(b1.sends)
            && (b1.live == b.live || b1.live == applied)
            && (a.Replied? ==>
                  && a.outcome.key == c.key && a.outcome.status in {Accepted, Refused, Uncertain}
                  && (a.outcome.status == Accepted ==>
                        !b1.unanswered && b1.live == applied && (c.action != Submit ==> b.live.Some?))
                  && (a.outcome.status == Refused ==> !b1.unanswered && b1.live == b.live))
  {
    assert SentKeys(b.sends + [c]) == SentKeys(b.sends) + {c.key};
    ReceiptBreaksNothing(s, b, c);
    ApplyBreaksNothing(s, b, c);
    ApplyAfterReceipt(b, c);
  }

  lemma SendKeepsOurs(s: State, b: Broker, c: Child, b1: Broker)
    requires SendsAreOurs(s, b) && c in s.sent && c.key !in SentKeys(b.sends)
    requires b1.sends == b.sends || b1.sends == b.sends + [c]
    requires b1.answers.Keys <= SentKeys(b1.sends)
    ensures SendsAreOurs(s, b1)
  {
    forall i | 0 <= i < |b.sends|
      ensures b1.sends[i] == b.sends[i] && b.sends[i].key in SentKeys(b.sends)
    {
      assert b.sends[i] in b.sends;
    }
  }

  lemma AppliedIsInBounds(s: State, b: Broker, c: Child)
    requires Linked(s, b) && ReadyToGo(s, b, c)
    ensures LiveOrderInBounds(s, BrokerApply(b, c).0)
  {
    var i :| 0 <= i < |s.sent| && s.sent[i] == c;
    assert SentKey(s.sent, c.key);
  }

  /** After a send and before its answer is recorded: safe to die here. */
  lemma SendIsLinked(s: State, b: Broker, c: Child)
    requires Linked(s, b) && ReadyToGo(s, b, c) && s.intent.Valid()
    ensures Linked(s, BrokerSend(b, c).0)
  {
    var b1 := BrokerSend(b, c).0;
    SendEffects(s, b, c);
    SendKeepsOurs(s, b, c, b1);
    AppliedIsInBounds(s, b, c);
  }

  /** An outcome touches only the order, the unresolved child and how the intent ends. */
  lemma OutcomeFields(s: State, o: Outcome, deferFinish: bool)
    requires s.inFlight.Some?
    ensures var n := ApplyOutcome(s, o, deferFinish);
            && n.sent == s.sent && n.brokerFilled == s.brokerFilled && n.intent == s.intent && n.filled == s.filled
            && n.inFlightReason in {s.inFlightReason, NoReason}
            && (n.inFlight == None || (n.inFlight == s.inFlight && n.inFlightReason == s.inFlightReason))
  {
  }

  lemma OutcomeHidesNothing(s: State, b: Broker, c: Child, o: Outcome, deferFinish: bool)
    requires Linked(s, b) && ReadyToGo(s, b, c) && s.intent.Valid() && BrokerSend(b, c).1 != Killed
    requires o == OutcomeFor(c, BrokerSend(b, c).1, 0, deferFinish).outcome
    ensures NothingHidden(ApplyOutcome(s, o, deferFinish), BrokerSend(b, c).0)
  {
    SendEffects(s, b, c);
    SendIsLinked(s, b, c);
  }

  /** The recorded answer leaves nothing hidden: what the executor now believes is what the gateway did. */
  lemma AnswerIsLinked(s: State, b: Broker, c: Child, now: int, deferFinish: bool)
    requires Linked(s, b) && ReadyToGo(s, b, c) && s.intent.Valid() && BrokerSend(b, c).1 != Killed
    ensures var (b1, a) := BrokerSend(b, c);
            Linked(ApplyOutcome(s, OutcomeFor(c, a, now, deferFinish).outcome, deferFinish), b1)
  {
    var (b1, a) := BrokerSend(b, c);
    var o := OutcomeFor(c, a, now, deferFinish).outcome;
    SendIsLinked(s, b, c);
    OutcomeFields(s, o, deferFinish);
    OutcomeHidesNothing(s, b, c, o, deferFinish);
  }

  lemma QueryIsLinked(s: State, b: Broker, deferFinish: bool)
    requires Linked(s, b) && Sound(s) && s.Started() && s.inFlight.Some? && !b.faults.down
    ensures var (b1, v) := BrokerQuery(b);
            && v.Some? && Linked(s, b1) && ReconcileAllowed(s, v.value)
            && Linked(ApplyReconcile(s, v.value, deferFinish), b1)
  {
  }

  lemma ExecutionIsLinked(s: State, b: Broker, qty: int, atNS: int)
    requires Linked(s, b)
    ensures Linked(s, BrokerFill(b, qty, atNS).0)
  {
  }

  // ---------------------------------------------------------------- one event

  /** A pass asks only about an unresolved child and commits only sends and finishes. */
  lemma DecisionShape(s: State, in_: Inputs)
    requires Priced(s)
    ensures Decide(s, in_).Query? ==> s.Started() && s.inFlight.Some?
    ensures Decide(s, in_).Commit? ==> Decide(s, in_).rec.SendRec? || Decide(s, in_).rec.FinishRec?
  {
  }

  lemma PassIsSafe(w: World, now: int)
    requires Safe(w) && Runnable(w)
    ensures Safe(PassIn(w, now).0)
  {
    var p := w.proc.value;
    if p.err == None {
      DurableIsSound(w);
      var d := Decide(p.state, InputsOf(w, now));
      DecisionShape(p.state, InputsOf(w, now));
      if d.Query? {
        QueryIsSafe(w, now);
      } else if d.Commit? && d.rec.SendRec? {
        SendPassIsSafe(w, d.rec, now);
      } else if d.Commit? {
        assert Builds(p.state, d.rec);
        FinishPassIsSafe(w, d.rec, now);
      }
    }
  }

  lemma QueryIsSafe(w: World, now: int)
    requires Safe(w) && Runnable(w) && w.proc.value.err == None && w.proc.value.state.inFlight.Some?
    requires Sound(w.proc.value.state)
    ensures Safe(QueryIn(w, now).0)
  {
    var p, b1 := w.proc.value, BrokerQuery(w.broker).0;
    if !w.broker.faults.down {
      var deferFinish := w.cfg.requireLedgerComplete;
      QueryIsLinked(p.state, w.broker, deferFinish);
      var r := ReconcileRec(now, BrokerView(w.broker), deferFinish);
      CommitIsSafe(w.(broker := b1), r);
    }
  }

  lemma FinishPassIsSafe(w: World, r: Record, now: int)
    requires Safe(w) && Runnable(w) && w.proc.value.err == None
    requires r.FinishRec? && Builds(w.proc.value.state, r)
    ensures Safe(CommitDecided(w, r, now).0)
  {
    var p := w.proc.value;
    if TryCommit(p.state, r).Ok? {
      FinishIsLinked(p.state, w.broker, r);
    }
    CommitIsSafe(w, r);
  }

  lemma SendCommitIsSafe(w: World, r: Record, now: int)
    requires Safe(w) && Runnable(w) && w.proc.value.err == None && Sound(w.proc.value.state)
    requires r.SendRec? && Decide(w.proc.value.state, InputsOf(w, now)) == Commit(r)
    ensures Safe(CommitIn(w, r).0)
  {
    var p := w.proc.value;
    assert Builds(p.state, r);
    if TryCommit(p.state, r).Ok? {
      SendIsReady(p.state, w.broker, InputsOf(w, now), r);
    }
    CommitIsSafe(w, r);
  }

  /** A send that was journaled may go to the gateway. */
  lemma CommittedSendIsReady(w: World, r: Record, now: int)
    requires Safe(w) && Runnable(w) && w.proc.value.err == None && Sound(w.proc.value.state)
    requires r.SendRec? && Decide(w.proc.value.state, InputsOf(w, now)) == Commit(r)
    requires CommitIn(w, r).1 == Committed
    ensures var w1 := CommitIn(w, r).0;
            && Safe(w1) && Runnable(w1) && w1.proc.value.err == None
            && ReadyToGo(w1.proc.value.state, w1.broker, r.child)
  {
    var p := w.proc.value;
    SendCommitIsSafe(w, r, now);
    SendIsReady(p.state, w.broker, InputsOf(w, now), r);
    CommitLines(w, r);
  }

  lemma SendPassIsSafe(w: World, r: Record, now: int)
    requires Safe(w) && Runnable(w) && w.proc.value.err == None && Sound(w.proc.value.state)
    requires r.SendRec? && Decide(w.proc.value.state, InputsOf(w, now)) == Commit(r)
    ensures Safe(CommitDecided(w, r, now).0)
  {
    SendCommitIsSafe(w, r, now);
    var (w1, c) := CommitIn(w, r);
    if c == Committed {
      CommittedSendIsReady(w, r, now);
      AnswerIsSafe(w1, r.child, now);
    }
  }

  /** The outcome record of an answer is one the executor builds, and commits to what `ApplyOutcome` says. */
  lemma AnswerBuilds(s: State, c: Child, a: Answer, now: int, deferFinish: bool)
    requires Priced(s) && s.inFlight == Some(c) && a != Killed
    ensures var r := OutcomeFor(c, a, now, deferFinish);
            Builds(s, r) && (TryCommit(s, r).Ok? ==> TryCommit(s, r).value == ApplyOutcome(s, r.outcome, deferFinish))
  {
  }

  lemma SentStaysSafe(w: World, c: Child)
    requires Safe(w) && Runnable(w) && w.proc.value.err == None && ReadyToGo(w.proc.value.state, w.broker, c)
    ensures Safe(w.(broker := BrokerSend(w.broker, c).0))
  {
    SendIsLinked(w.proc.value.state, w.broker, c);
  }

  lemma AnswerIsSafe(w: World, c: Child, now: int)
    requires Safe(w) && Runnable(w) && w.proc.value.err == None && ReadyToGo(w.proc.value.state, w.broker, c)
    ensures Safe(AnswerIn(w, c, now).0)
  {
    var s, deferFinish := w.proc.value.state, w.cfg.requireLedgerComplete;
    var (b1, a) := BrokerSend(w.broker, c);
    SentStaysSafe(w, c);
    if a != Killed {
      AnswerIsLinked(s, w.broker, c, now, deferFinish);
      AnswerBuilds(s, c, a, now, deferFinish);
      AnsweredIsSafe(w.(broker := b1), OutcomeFor(c, a, now, deferFinish));
    }
  }

  /** The commit of the answer, and completeness taken back. */
  lemma AnsweredIsSafe(w: World, r: Record)
    requires Safe(w) && Runnable(w) && w.proc.value.err == None && Builds(w.proc.value.state, r)
    requires TryCommit(w.proc.value.state, r).Ok? ==> Linked(TryCommit(w.proc.value.state, r).value, w.broker)
    ensures Safe(CommitIn(w, r).0)
    ensures CommitIn(w, r).1 == Committed ==>
              CommitIn(w, r).0.proc.Some? &&
              Safe(CommitIn(w, r).0.(proc := Some(CommitIn(w, r).0.proc.value.(ledgerComplete := false))))
  {
    CommitIsSafe(w, r);
  }

  lemma DeliveryIsSafe(w: World, f: Fill)
    requires Safe(w) && Runnable(w)
    ensures Safe(OnFillIn(w, f).0)
  {
    var p := w.proc.value;
    if p.err == None && TryCommit(p.state, FillRec(f.atNS, f)).Ok? {
      FillIsLinked(p.state, w.broker, f);
    }
    if p.err == None {
      CommitIsSafe(w, FillRec(f.atNS, f));
    }
  }

  lemma BeginIsSafe(w: World, now: int)
    requires Safe(w) && Runnable(w)
    ensures Safe(Next(w, Begin(now)))
  {
    var p, r := w.proc.value, StartRec(now, w.broker.intent);
    if p.err == None {
      DurableIsSound(w);
      if TryCommit(p.state, r).Ok? {
        StartIsLinked(p.state, w.broker, r);
      }
      CommitIsSafe(w, r);
    }
  }

  lemma RestartIsSafe(w: World)
    requires Safe(w)
    ensures Safe(Next(w, Restart))
  {
  }

  lemma BrokerMoves(w: World, b: Broker)
    requires Safe(w) && Linked(Durable(w), b)
    ensures Safe(w.(broker := b))
  {
  }

  lemma ExecutionMoves(s: State, b: Broker, qty: int, atNS: int) returns (after: Broker)
    requires Linked(s, b)
    ensures after == BrokerFill(b, qty, atNS).0 && Linked(s, after)
  {
    ExecutionIsLinked(s, b, qty, atNS);
    after := BrokerFill(b, qty, atNS).0;
  }

  lemma ExecuteIsSafe(w: World, qty: int, atNS: int)
    requires Safe(w)
    ensures Safe(Next(w, Execute(qty, atNS)))
  {
    var b := ExecutionMoves(Durable(w), w.broker, qty, atNS);
    BrokerMoves(w, b);
  }

  /** Events that touch neither the journal nor the orders. */
  lemma QuietEventIsSafe(w: World, e: Event)
    requires Safe(w) && !e.Begin? && !e.Pass? && !e.Deliver? && !e.Restart? && !e.Execute?
    ensures Safe(Next(w, e))
  {
  }

  lemma EventIsSafe(w: World, e: Event)
    requires Safe(w)
    ensures Safe(Next(w, e))
  {
    match e
    case Begin(now) => if Runnable(w) { BeginIsSafe(w, now); }
    case Pass(now) => if Runnable(w) { PassIsSafe(w, now); }
    case Deliver(f) => if Runnable(w) { DeliveryIsSafe(w, f); }
    case Restart => RestartIsSafe(w);
    case Execute(qty, atNS) => ExecuteIsSafe(w, qty, atNS);
    case _ => QuietEventIsSafe(w, e);
  }

  lemma {:induction false} RunIsSafe(cfg: Config, i: Intent, es: seq<Event>)
    requires i.Valid()
    ensures Safe(After(FirstWorld(cfg, i), es))
  {
    if es == [] {
      assert Recs([]) == [];
    } else {
      RunIsSafe(cfg, i, es[..|es| - 1]);
      EventIsSafe(After(FirstWorld(cfg, i), es[..|es| - 1]), es[|es| - 1]);
    }
  }
}
