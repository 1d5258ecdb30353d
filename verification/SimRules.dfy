/** What the two fill rules promise about each other: `internal/exec/sim/sim.go`, on every evidence stream. */
module SimRules {
  import opened Prices
  import opened Intents
  import opened Machine
  import opened Caps
  import opened Decisions
  import opened Gateway
  import opened Runs
  import opened Executors
  import opened Acceptance
  import opened Protocol
  import opened Safety
  import opened Conservation
  import opened Reconciled
  import opened Sim
  import opened Openings

  /** No fault is set anywhere and the process is up. */
  ghost predicate Up(w: World) {
    Safe(w) && Runnable(w) && w.proc.value.err == None && w.disk.plan == [] && w.broker.faults == NO_FAULTS
  }

  /** Nothing filled, one lineage, and the executor's order is the live one, open at the full target. */
  predicate Untouched(s: State, b: Broker) {
    && s.filled == 0 && s.brokerFilled == 0 && b.filled == 0 && s.fills == map[] && OneLineage(s.sent)
    && (if s.order == None then b.live == None
        else && b.live.Some? && b.live.value.key == s.order.value.key && b.live.value.price == s.order.value.price
             && b.live.value.open == s.order.value.qty == s.target)
  }

  /** Before any fill: untouched, nothing unresolved, and a second lineage is out of the question. */
  predicate CleanPair(s: State, b: Broker) {
    Untouched(s, b) && s.inFlight == None
    && (s.order == None && s.done == NoReason && s.halt == NoReason ==> s.sent == [])
  }

  ghost predicate Clean(w: World) {
    Up(w) && CleanPair(w.proc.value.state, w.broker)
  }

  /** After a fill of everything: nothing is live and the target is counted. */
  predicate SatedPair(s: State, b: Broker) {
    s.Started() && b.live == None && s.filled == s.target
  }

  ghost predicate Sated(w: World) {
    Up(w) && SatedPair(w.proc.value.state, w.broker)
  }

  lemma CleanSendIsFull(s: State, in_: Inputs, r: Record)
    requires Sound(s) && s.filled == 0 && s.brokerFilled == 0 && OneLineage(s.sent)
    requires s.order.Some? ==> s.order.value.qty == s.target
    requires s.order == None && s.done == NoReason && s.halt == NoReason ==> s.sent == []
    requires Decide(s, in_) == Commit(r) && r.SendRec? && TryCommit(s, r).Ok?
    ensures CarriesQuantity(r.child) ==> r.child.qty == s.target
    ensures r.child.action == Submit ==> s.sent == []
  {
    DecidedSend(s, in_, r);
    if r.child.action == Submit {
      OpeningIsFull(s, in_.top.value);
    } else if r.child.action == Amend {
      RoomIsWhole(s);
      TargetIsLargestThatFits(s.intent, s.target);
    }
  }

  // ---------------------------------------------------------------- passes without faults

  lemma CommitWhenUp(w: World, r: Record)
    requires Runnable(w) && w.proc.value.err == None && w.disk.plan == []
    ensures var p, (w1, c) := w.proc.value, CommitIn(w, r);
            match TryCommit(p.state, r)
            case Ok(next) =>
              c == Committed
              && w1 == w.(disk := Disk(w.disk.lines + [JLine(JOURNAL_VERSION, p.seqNo + 1, r, next)], []),
                          proc := Some(p.(state := next, seqNo := p.seqNo + 1)))
            case Err(_) => c.Rejected? && w1 == w
  {
  }

  /** A safe commit of a process that is up leaves it up, in the new state. */
  lemma CommitKeepsUp(w: World, r: Record, next: State)
    requires Up(w) && TryCommit(w.proc.value.state, r) == Ok(next) && Safe(CommitIn(w, r).0)
    ensures var (w1, c) := CommitIn(w, r);
            && c == Committed && Up(w1) && w1.proc.value.state == next
            && w1.broker == w.broker && w1.cfg == w.cfg
  {
    CommitWhenUp(w, r);
  }

  /** Without faults a ready send is applied and answered. */
  lemma SendWhenUp(s: State, b: Broker, c: Child)
    requires Linked(s, b) && ReadyToGo(s, b, c) && s.intent.Valid() && b.faults == NO_FAULTS
    ensures var (b1, a) := BrokerSend(b, c);
            var (applied, out) := BrokerApply(b, c);
            && a == Replied(out) && b1.live == applied.live && b1.filled == b.filled && b1.faults == NO_FAULTS
            && b1.intent == b.intent && b1.issued == b.issued
  {
  }

  /** A replied outcome commits. */
  lemma ReplyCommits(w: World, c: Child, out: Outcome, now: int)
    requires Up(w) && ReadyToGo(w.proc.value.state, w.broker, c) && out.key == c.key
    ensures var r, s := OutcomeFor(c, Replied(out), now, w.cfg.requireLedgerComplete), w.proc.value.state;
            && r == OutcomeRec(now, out, w.cfg.requireLedgerComplete)
            && TryCommit(s, r) == Ok(ApplyOutcome(s, out, w.cfg.requireLedgerComplete))
  {
  }

  lemma AppliedKey(b: Broker, c: Child)
    ensures BrokerApply(b, c).1.key == c.key
  {
  }

  lemma AnswerWhenUp(w: World, c: Child, now: int)
    requires Up(w) && ReadyToGo(w.proc.value.state, w.broker, c)
    ensures var (w1, flow) := AnswerIn(w, c, now);
            var (applied, out) := BrokerApply(w.broker, c);
            && Up(w1) && flow in {Again, ReturnNil}
            && w1.broker.live == applied.live && w1.broker.filled == w.broker.filled
               && w1.broker.issued == w.broker.issued
            && w1.proc.value.state == ApplyOutcome(w.proc.value.state, out, w.cfg.requireLedgerComplete)
  {
    var b1, out := BrokerSend(w.broker, c).0, BrokerApply(w.broker, c).1;
    AppliedKey(w.broker, c);
    SendWhenUp(w.proc.value.state, w.broker, c);
    AnswerIsSafe(w, c, now);
    ReplyCommits(w, c, out, now);
    CommitWhenUp(w.(broker := b1), OutcomeFor(c, Replied(out), now, w.cfg.requireLedgerComplete));
  }

  /** A full-size child that goes out while untouched comes back clean. */
  lemma AnsweredIsClean(s: State, b: Broker, c: Child, deferFinish: bool, b1: Broker)
    requires ReadyToGo(s, b, c) && Untouched(s, b) && s.sent != [] && s.inFlightReason != NoReason
    requires CarriesQuantity(c) ==> c.qty == s.target
    requires b1.live == BrokerApply(b, c).0.live && b1.filled == b.filled
    ensures CleanPair(ApplyOutcome(s, BrokerApply(b, c).1, deferFinish), b1)
  {
  }

  lemma SentIsUntouched(s: State, b: Broker, r: Record)
    requires CleanPair(s, b) && r.SendRec? && (r.child.action == Submit ==> s.sent == [])
    ensures Untouched(ApplySend(s, r), b) && ApplySend(s, r).sent != []
  {
  }

  /** A decided send of a process that is up goes into the journal and is ready to go out. */
  lemma SendJournaled(w: World, r: Record, now: int)
    requires Up(w) && Sound(w.proc.value.state)
    requires r.SendRec? && Decide(w.proc.value.state, InputsOf(w, now)) == Commit(r)
    requires TryCommit(w.proc.value.state, r).Ok?
    ensures var (w1, c) := CommitIn(w, r);
            && c == Committed && Up(w1) && w1.broker == w.broker && w1.cfg == w.cfg
            && w1.proc.value.state == TryCommit(w.proc.value.state, r).value
            && ReadyToGo(w1.proc.value.state, w1.broker, r.child)
  {
    SendCommitIsSafe(w, r, now);
    SendIsReady(w.proc.value.state, w.broker, InputsOf(w, now), r);
    CommitKeepsUp(w, r, TryCommit(w.proc.value.state, r).value);
  }

  /** The state after a decided send from a clean pair. */
  lemma CleanSent(s: State, b: Broker, in_: Inputs, r: Record)
    requires Sound(s) && CleanPair(s, b)
    requires r.SendRec? && Decide(s, in_) == Commit(r) && TryCommit(s, r).Ok?
    ensures var n := TryCommit(s, r).value;
            && Untouched(n, b) && n.sent != [] && n.inFlightReason != NoReason
            && (CarriesQuantity(r.child) ==> r.child.qty == n.target)
  {
    CleanSendIsFull(s, in_, r);
    SendHasReason(s, in_, r);
    SentIsUntouched(s, b, r);
    SendIsApplied(s, r);
  }

  lemma SendIsApplied(s: State, r: Record)
    requires r.SendRec? && TryCommit(s, r).Ok?
    ensures TryCommit(s, r).value == ApplySend(s, r)
  {
  }

  lemma CleanJournaled(w: World, r: Record, now: int)
    requires Clean(w) && Sound(w.proc.value.state)
    requires r.SendRec? && Decide(w.proc.value.state, InputsOf(w, now)) == Commit(r)
    requires TryCommit(w.proc.value.state, r).Ok?
    ensures var (w1, c) := CommitIn(w, r);
            && c == Committed && Up(w1) && w1.cfg == w.cfg && ReadyToGo(w1.proc.value.state, w1.broker, r.child)
            && Untouched(w1.proc.value.state, w1.broker) && w1.proc.value.state.sent != []
            && w1.proc.value.state.inFlightReason != NoReason
            && (CarriesQuantity(r.child) ==> r.child.qty == w1.proc.value.state.target)
  {
    SendJournaled(w, r, now);
    CleanSent(w.proc.value.state, w.broker, InputsOf(w, now), r);
  }

  lemma CleanSettled(w: World, c: Child, now: int)
    requires Up(w) && ReadyToGo(w.proc.value.state, w.broker, c)
    requires Untouched(w.proc.value.state, w.broker) && w.proc.value.state.sent != []
    requires w.proc.value.state.inFlightReason != NoReason
    requires CarriesQuantity(c) ==> c.qty == w.proc.value.state.target
    ensures Clean(AnswerIn(w, c, now).0)
  {
    AnswerWhenUp(w, c, now);
    AnsweredIsClean(w.proc.value.state, w.broker, c, w.cfg.requireLedgerComplete, AnswerIn(w, c, now).0.broker);
  }

  /** What `CommitDecided` does with a send of a process that is up. */
  lemma SendDecided(w: World, r: Record, now: int)
    requires Up(w) && r.SendRec?
    ensures if TryCommit(w.proc.value.state, r).Ok?
            then var (w1, c) := CommitIn(w, r);
                 c == Committed && Runnable(w1) && CommitDecided(w, r, now) == AnswerIn(w1, r.child, now)
            else CommitDecided(w, r, now).1 == ReturnError
  {
    CommitWhenUp(w, r);
  }

  lemma CleanSendPass(w: World, r: Record, now: int)
    requires Clean(w) && Sound(w.proc.value.state)
    requires r.SendRec? && Decide(w.proc.value.state, InputsOf(w, now)) == Commit(r)
    ensures CommitDecided(w, r, now).1 != ReturnError ==> Clean(CommitDecided(w, r, now).0)
  {
    SendDecided(w, r, now);
    if TryCommit(w.proc.value.state, r).Ok? {
      CleanJournaled(w, r, now);
      CleanSettled(CommitIn(w, r).0, r.child, now);
    }
  }

  lemma SendHasReason(s: State, in_: Inputs, r: Record)
    requires Priced(s) && Decide(s, in_) == Commit(r) && r.SendRec?
    ensures r.reason != NoReason
    ensures s.filled >= s.target ==> r.child.action == Cancel
  {
  }

  lemma CleanPass(w: World, now: int)
    requires Clean(w)
    ensures PassIn(w, now).1 in {Again, ReturnNil} ==> Clean(PassIn(w, now).0)
  {
    var p := w.proc.value;
    DurableIsSound(w);
    var d := Decide(p.state, InputsOf(w, now));
    DecisionShape(p.state, InputsOf(w, now));
    if d.Commit? && d.rec.SendRec? {
      CleanSendPass(w, d.rec, now);
    } else if d.Commit? {
      CleanFinish(w, d.rec, now);
    }
  }

  /** A finish changes only how the intent ended. */
  lemma FinishIsApplied(s: State, r: Record)
    requires r.FinishRec? && TryCommit(s, r).Ok?
    ensures TryCommit(s, r).value == s.(done := r.reason)
  {
  }

  lemma RefusedFinishReturns(w: World, r: Record, now: int)
    requires Up(w) && r.FinishRec? && CommitDecided(w, r, now).1 in {Again, ReturnNil}
    ensures TryCommit(w.proc.value.state, r).Ok? && CommitDecided(w, r, now).0 == CommitIn(w, r).0
  {
    CommitWhenUp(w, r);
  }

  lemma FinishKeepsUp(w: World, r: Record, now: int)
    requires Up(w) && Sound(w.proc.value.state) && r.FinishRec?
    requires Decide(w.proc.value.state, InputsOf(w, now)) == Commit(r)
    requires CommitDecided(w, r, now).1 in {Again, ReturnNil}
    ensures var w1 := CommitDecided(w, r, now).0;
            Up(w1) && w1.broker == w.broker && w1.proc.value.state == w.proc.value.state.(done := r.reason)
  {
    assert Builds(w.proc.value.state, r);
    RefusedFinishReturns(w, r, now);
    FinishPassIsSafe(w, r, now);
    FinishIsApplied(w.proc.value.state, r);
    CommitKeepsUp(w, r, w.proc.value.state.(done := r.reason));
  }

  lemma CleanFinish(w: World, r: Record, now: int)
    requires Clean(w) && Sound(w.proc.value.state) && r.FinishRec?
    requires Decide(w.proc.value.state, InputsOf(w, now)) == Commit(r)
    ensures CommitDecided(w, r, now).1 in {Again, ReturnNil} ==> Clean(CommitDecided(w, r, now).0)
  {
    if CommitDecided(w, r, now).1 in {Again, ReturnNil} {
      FinishKeepsUp(w, r, now);
      FinishHasReason(w.proc.value.state, InputsOf(w, now), r);
    }
  }

  lemma FinishHasReason(s: State, in_: Inputs, r: Record)
    requires Priced(s) && Decide(s, in_) == Commit(r) && r.FinishRec?
    ensures r.reason != NoReason
  {
  }

  lemma ReconcileApplied(s: State, v: View, now: int, deferFinish: bool)
    requires s.Started() && ReconcileAllowed(s, v)
    ensures TryCommit(s, ReconcileRec(now, v, deferFinish)) == Ok(ApplyReconcile(s, v, deferFinish))
  {
  }

  lemma SatedReconcile(s: State, b: Broker, deferFinish: bool)
    requires SatedPair(s, b)
    ensures SatedPair(ApplyReconcile(s, BrokerView(b), deferFinish), b)
  {
  }

  /** A query of a process that is up is answered, and the reconcile commits. */
  lemma QueryWhenUp(w: World, now: int)
    requires Up(w) && Sound(w.proc.value.state) && w.proc.value.state.inFlight.Some? && w.proc.value.state.Started()
    ensures var (w1, flow) := QueryIn(w, now);
            && flow == Again && Up(w1) && w1.broker == BrokerQuery(w.broker).0
            && w1.proc.value.state
               == ApplyReconcile(w.proc.value.state, BrokerView(w.broker), w.cfg.requireLedgerComplete)
  {
    var asked := w.(broker := BrokerQuery(w.broker).0);
    var r := ReconcileRec(now, BrokerView(w.broker), w.cfg.requireLedgerComplete);
    QueryIsSafe(w, now);
    QueryIsLinked(w.proc.value.state, w.broker, w.cfg.requireLedgerComplete);
    ReconcileApplied(w.proc.value.state, BrokerView(w.broker), now, w.cfg.requireLedgerComplete);
    CommitWhenUp(asked, r);
  }

  lemma SatedQuery(w: World, now: int)
    requires Sated(w) && Sound(w.proc.value.state) && w.proc.value.state.inFlight.Some?
    ensures Sated(QueryIn(w, now).0)
  {
    QueryWhenUp(w, now);
    SatedReconcile(w.proc.value.state, w.broker, w.cfg.requireLedgerComplete);
  }

  lemma SatedPass(w: World, now: int)
    requires Sated(w)
    ensures PassIn(w, now).1 in {Again, ReturnNil} ==> Sated(PassIn(w, now).0)
  {
    var p := w.proc.value;
    DurableIsSound(w);
    var d := Decide(p.state, InputsOf(w, now));
    DecisionShape(p.state, InputsOf(w, now));
    if d.Query? {
      SatedQuery(w, now);
    } else if d.Commit? && d.rec.SendRec? {
      SatedSend(w, d.rec, now);
    } else if d.Commit? {
      SatedFinish(w, d.rec, now);
    }
  }

  lemma SatedFinish(w: World, r: Record, now: int)
    requires Sated(w) && Sound(w.proc.value.state) && r.FinishRec?
    requires Decide(w.proc.value.state, InputsOf(w, now)) == Commit(r)
    ensures CommitDecided(w, r, now).1 in {Again, ReturnNil} ==> Sated(CommitDecided(w, r, now).0)
  {
    if CommitDecided(w, r, now).1 in {Again, ReturnNil} {
      FinishKeepsUp(w, r, now);
    }
  }

  /** With the target counted the only send left is the cancel of an order that is already gone. */
  lemma SatedJournaled(w: World, r: Record, now: int)
    requires Sated(w) && Sound(w.proc.value.state)
    requires r.SendRec? && Decide(w.proc.value.state, InputsOf(w, now)) == Commit(r)
    requires TryCommit(w.proc.value.state, r).Ok?
    ensures var (w1, c) := CommitIn(w, r);
            && c == Committed && Sated(w1) && r.child.action == Cancel
            && ReadyToGo(w1.proc.value.state, w1.broker, r.child)
  {
    SendHasReason(w.proc.value.state, InputsOf(w, now), r);
    SendJournaled(w, r, now);
    SendAppends(w.proc.value.state, r);
  }

  lemma SatedAnswered(w: World, c: Child, now: int)
    requires Sated(w) && c.action == Cancel && ReadyToGo(w.proc.value.state, w.broker, c)
    ensures Sated(AnswerIn(w, c, now).0)
  {
    AnswerWhenUp(w, c, now);
  }

  lemma SatedSend(w: World, r: Record, now: int)
    requires Sated(w) && Sound(w.proc.value.state)
    requires r.SendRec? && Decide(w.proc.value.state, InputsOf(w, now)) == Commit(r)
    ensures CommitDecided(w, r, now).1 != ReturnError ==> Sated(CommitDecided(w, r, now).0)
  {
    SendDecided(w, r, now);
    if TryCommit(w.proc.value.state, r).Ok? {
      SatedJournaled(w, r, now);
      SatedAnswered(CommitIn(w, r).0, r.child, now);
    }
  }

  // ---------------------------------------------------------------- ticks and events

  ghost predicate CleanAfter(w: World, now: int, n: nat)
    requires Runnable(w)
  {
    Passes(w, now, n).1 in {Again, ReturnNil} ==> Clean(Passes(w, now, n).0)
  }

  lemma NextStaysClean(w: World, now: int, n: nat, w1: World, r: (World, Flow))
    requires Runnable(w) && Clean(w1) && Passes(w, now, n) == (w1, Again) && r == PassIn(w1, now)
    ensures Passes(w, now, n + 1) == r && (r.1 in {Again, ReturnNil} ==> Clean(r.0))
  {
    CleanPass(w1, now);
    NextPass(w, now, n, w1, r);
  }

  lemma CleanAtFirst(w: World, now: int)
    requires Clean(w)
    ensures CleanAfter(w, now, 0)
  {
  }

  lemma CleanNext(w: World, now: int, n: nat)
    requires Runnable(w) && CleanAfter(w, now, n)
    ensures CleanAfter(w, now, n + 1)
  {
    var r := Passes(w, now, n);
    if r.1 == Again {
      NextStaysClean(w, now, n, r.0, PassIn(r.0, now));
    } else {
      PassesStop(w, now, n, n + 1);
    }
  }

  lemma {:induction false} PassesKeepClean(w: World, now: int, n: nat)
    requires Clean(w)
    ensures CleanAfter(w, now, n)
  {
    if n == 0 {
      CleanAtFirst(w, now);
    } else {
      PassesKeepClean(w, now, n - 1);
      CleanNext(w, now, n - 1);
    }
  }

  lemma TickKeepsClean(w: World, now: int)
    requires Clean(w)
    ensures TickIn(w, now).1 == ReturnNil ==> Clean(TickIn(w, now).0)
  {
    PassesKeepClean(w, now, MAX_STEPS_PER_TICK);
  }

  ghost predicate SatedAfter(w: World, now: int, n: nat)
    requires Runnable(w)
  {
    Passes(w, now, n).1 in {Again, ReturnNil} ==> Sated(Passes(w, now, n).0)
  }

  lemma NextStaysSated(w: World, now: int, n: nat, w1: World, r: (World, Flow))
    requires Runnable(w) && Sated(w1) && Passes(w, now, n) == (w1, Again) && r == PassIn(w1, now)
    ensures Passes(w, now, n + 1) == r && (r.1 in {Again, ReturnNil} ==> Sated(r.0))
  {
    SatedPass(w1, now);
    NextPass(w, now, n, w1, r);
  }

  lemma SatedAtFirst(w: World, now: int)
    requires Sated(w)
    ensures SatedAfter(w, now, 0)
  {
  }

  lemma SatedNext(w: World, now: int, n: nat)
    requires Runnable(w) && SatedAfter(w, now, n)
    ensures SatedAfter(w, now, n + 1)
  {
    var r := Passes(w, now, n);
    if r.1 == Again {
      NextStaysSated(w, now, n, r.0, PassIn(r.0, now));
    } else {
      PassesStop(w, now, n, n + 1);
    }
  }

  lemma {:induction false} PassesKeepSated(w: World, now: int, n: nat)
    requires Sated(w)
    ensures SatedAfter(w, now, n)
  {
    if n == 0 {
      SatedAtFirst(w, now);
    } else {
      PassesKeepSated(w, now, n - 1);
      SatedNext(w, now, n - 1);
    }
  }

  lemma TickKeepsSated(w: World, now: int)
    requires Sated(w)
    ensures TickIn(w, now).1 == ReturnNil ==> Sated(TickIn(w, now).0)
  {
    PassesKeepSated(w, now, MAX_STEPS_PER_TICK);
  }

  lemma StartKeepsClean(s: State, b: Broker, r: Record)
    requires Sound(s) && CleanPair(s, b) && r.StartRec? && TryCommit(s, r).Ok?
    ensures CleanPair(TryCommit(s, r).value, b)
  {
  }

  lemma BeginKeepsClean(x: SimState, ev: SimEvent)
    requires Clean(x.w) && BeginIn(x, ev).Some?
    ensures Clean(BeginIn(x, ev).value)
  {
    if !x.started {
      var r := StartRec(ev.atNS, x.w.broker.intent);
      DurableIsSound(x.w);
      BeginIsSafe(x.w, ev.atNS);
      CommitWhenUp(x.w, r);
      StartKeepsClean(x.w.proc.value.state, x.w.broker, r);
    }
  }

  lemma BeginKeepsSated(x: SimState, ev: SimEvent)
    requires Sated(x.w) && BeginIn(x, ev).Some?
    ensures Sated(BeginIn(x, ev).value)
  {
    if !x.started {
      CommitWhenUp(x.w, StartRec(ev.atNS, x.w.broker.intent));
    }
  }

  /** From a clean state an order for the whole target executes all of the live order. */
  lemma FullExecution(w: World, q: int, atNS: int) returns (b: Broker, f: Fill)
    requires Clean(w) && w.broker.live.Some? && q == w.broker.intent.TargetQty()
    ensures BrokerFill(w.broker, q, atNS) == (b, Some(f))
    ensures b.live == None && b.faults == NO_FAULTS && f.qty == w.proc.value.state.target && f.id.FakeFill?
            && f.price >= 1
    ensures w.proc.value.state.Started() && SentKey(w.proc.value.state.sent, f.key)
  {
    b, f := BrokerFill(w.broker, q, atNS).0, BrokerFill(w.broker, q, atNS).1.value;
    DurableIsSound(w);
  }

  lemma ExecutionStaysUp(w: World, q: int, atNS: int)
    requires Up(w)
    ensures Up(w.(broker := BrokerFill(w.broker, q, atNS).0))
  {
    ExecutionIsLinked(w.proc.value.state, w.broker, q, atNS);
  }

  /** Its delivery counts the target at once. */
  lemma FullDelivery(v: World, f: Fill)
    requires Up(v) && v.broker.live == None
    requires var s := v.proc.value.state;
             s.Started() && s.filled == 0 && s.fills == map[] && f.qty == s.target
             && FillAllowed(s, f) && s.target >= 1
    ensures OnFillIn(v, f).1 == Committed && Sated(OnFillIn(v, f).0)
  {
    var r := FillRec(f.atNS, f);
    DeliveryIsSafe(v, f);
    CommitWhenUp(v, r);
    assert TryCommit(v.proc.value.state, r) == Ok(ApplyFill(v.proc.value.state, f));
  }

  lemma FullFillSates(w: World, atNS: int, w2: World)
    requires Clean(w) && w.broker.live.Some? && FillNow(w, w.broker.intent.TargetQty(), atNS) == Some(w2)
    ensures Sated(w2)
  {
    var q := w.broker.intent.TargetQty();
    var b, f := FullExecution(w, q, atNS);
    ExecutionStaysUp(w, q, atNS);
    FullDelivery(w.(broker := b), f);
  }

  /** One event of the optimistic rule, from a clean state: nothing filled, or everything. */
  lemma TouchStep(x: SimState, ev: SimEvent, y: SimState)
    requires Clean(x.w) && SimStep(x, ev, Touch) == Some(y)
    ensures if TouchAsks(x, ev) then Sated(y.w) else Clean(y.w)
  {
    var w1, w2 := StepParts(x, ev, Touch, y);
    OpeningKeepsClean(x, ev, w1);
    var q := AskedQty(w1.broker, TopAfter(x.top, ev), ev, Touch);
    if TouchAsks(x, ev) {
      AskIsWhole(w1.broker, TopAfter(x.top, ev), ev);
      FullFillSates(w1, ev.atNS, w2);
      TickKeepsSated(w2, ev.atNS);
    } else {
      NoFillNow(w1, q, ev.atNS);
      TickKeepsClean(w2, ev.atNS);
    }
  }

  lemma OpeningKeepsClean(x: SimState, ev: SimEvent, w1: World)
    requires Clean(x.w) && BeginIn(x, ev).Some?
    requires w1 == WithBook(BeginIn(x, ev).value, TopAfter(x.top, ev), ev)
    ensures Clean(w1)
  {
    BeginKeepsClean(x, ev);
    BookKeepsClean(BeginIn(x, ev).value, TopAfter(x.top, ev), ev);
  }

  lemma BookKeepsClean(w: World, t: Top, ev: SimEvent)
    requires Clean(w)
    ensures Clean(WithBook(w, t, ev))
  {
  }

  lemma AskIsWhole(b: Broker, t: Top, ev: SimEvent)
    requires AskedQty(b, t, ev, Touch) >= 1
    ensures b.live.Some? && AskedQty(b, t, ev, Touch) == b.intent.TargetQty()
  {
  }

  lemma NoFillNow(w: World, q: int, atNS: int)
    requires Runnable(w) && q < 1
    ensures FillNow(w, q, atNS) == Some(w)
  {
  }

  /** Whether the optimistic rule fills at this event. */
  ghost predicate TouchAsks(x: SimState, ev: SimEvent)
    requires Runnable(x.w)
  {
    BeginIn(x, ev).Some? &&
    var t := TopAfter(x.top, ev);
    AskedQty(WithBook(BeginIn(x, ev).value, t, ev).broker, t, ev, Touch) >= 1
  }

  lemma SatedStep(x: SimState, ev: SimEvent, rule: Rule, y: SimState)
    requires Sated(x.w) && SimStep(x, ev, rule) == Some(y)
    ensures Sated(y.w)
  {
    var w1, w2 := StepParts(x, ev, rule, y);
    BeginKeepsSated(x, ev);
    assert Sated(w1);
    NothingToFill(w1, AskedQty(w1.broker, TopAfter(x.top, ev), ev, rule), ev.atNS);
    TickKeepsSated(w2, ev.atNS);
  }

  lemma NothingToFill(w: World, q: int, atNS: int)
    requires Runnable(w) && w.broker.live == None
    ensures FillNow(w, q, atNS) == Some(w)
  {
  }

  /** Trades as `ParseFrame` lets them through. */
  predicate ValidEvent(ev: SimEvent) {
    ev.TradeEvent? ==> ev.price >= 1 && ev.qty >= 1
  }

  /** The conservative rule only fills where the optimistic one does. */
  lemma SameAsk(b: Broker, t: Top, ev: SimEvent)
    requires ValidEvent(ev) && b.intent.TargetQty() >= 1 && AskedQty(b, t, ev, Touch) < 1
    ensures AskedQty(b, t, ev, Through) == AskedQty(b, t, ev, Touch) == 0
  {
  }

  lemma ThroughImpliesTouch(x: SimState, ev: SimEvent)
    requires Runnable(x.w) && ValidEvent(ev) && !TouchAsks(x, ev) && Clean(x.w)
    ensures SimStep(x, ev, Through) == SimStep(x, ev, Touch)
  {
    if BeginIn(x, ev).Some? {
      var t := TopAfter(x.top, ev);
      var w1 := WithBook(BeginIn(x, ev).value, t, ev);
      OpeningKeepsClean(x, ev, w1);
      SameFillNow(w1, t, ev);
      SameAskSameStep(x, ev, w1);
    }
  }

  lemma SameAskSameStep(x: SimState, ev: SimEvent, w1: World)
    requires Runnable(x.w) && BeginIn(x, ev).Some? && w1 == WithBook(BeginIn(x, ev).value, TopAfter(x.top, ev), ev)
    requires AskedQty(w1.broker, TopAfter(x.top, ev), ev, Through)
             == AskedQty(w1.broker, TopAfter(x.top, ev), ev, Touch)
    ensures SimStep(x, ev, Through) == SimStep(x, ev, Touch)
  {
    StepAfterBegin(x, ev, Through, w1);
    StepAfterBegin(x, ev, Touch, w1);
  }

  lemma SameFillNow(w: World, t: Top, ev: SimEvent)
    requires Clean(w) && ValidEvent(ev) && AskedQty(w.broker, t, ev, Touch) < 1
    ensures AskedQty(w.broker, t, ev, Through) == AskedQty(w.broker, t, ev, Touch)
  {
    if w.broker.live.Some? {
      LiveMeansTarget(w);
      SameAsk(w.broker, t, ev);
    }
  }

  lemma LiveMeansTarget(w: World)
    requires Clean(w) && w.broker.live.Some?
    ensures w.broker.intent.TargetQty() >= 1
  {
  }

  lemma FirstIsClean(cfg: Config, i: Intent)
    requires i.Valid()
    ensures Clean(FirstSim(cfg, i).w)
  {
    RunIsSafe(cfg, i, [Restart]);
    assert [Restart][..0] == [];
    assert After(FirstWorld(cfg, i), [Restart]) == FirstSim(cfg, i).w;
  }

  /** The two runs are one run until the optimistic rule fills; from then on that run is done filling. */
  lemma {:induction false} Lockstep(cfg: Config, i: Intent, evs: seq<SimEvent>)
    requires i.Valid() && forall ev :: ev in evs ==> ValidEvent(ev)
    requires SimRun(FirstSim(cfg, i), evs, Touch).Some?
    ensures var t := SimRun(FirstSim(cfg, i), evs, Touch).value;
            Sated(t.w) || (Clean(t.w) && SimRun(FirstSim(cfg, i), evs, Through) == Some(t))
  {
    FirstIsClean(cfg, i);
    if evs != [] {
      var init, ev := evs[..|evs| - 1], evs[|evs| - 1];
      assert ev in evs;
      Lockstep(cfg, i, init);
      var x := SimRun(FirstSim(cfg, i), init, Touch).value;
      var t := SimRun(FirstSim(cfg, i), evs, Touch).value;
      if Sated(x.w) {
        SatedStep(x, ev, Touch, t);
      } else {
        TouchStep(x, ev, t);
        if !TouchAsks(x, ev) {
          ThroughImpliesTouch(x, ev);
        }
      }
    }
  }

  // ---------------------------------------------------------------- a simulation is a run

  /** The error latch is open. */
  predicate Unlatched(w: World) {
    w.proc.Some? && w.proc.value.err == None
  }

  lemma AnswerLatches(w: World, c: Child, now: int)
    requires Runnable(w) && Unlatched(w)
    ensures AnswerIn(w, c, now).1 in {Again, ReturnNil} ==> Unlatched(AnswerIn(w, c, now).0)
  {
  }

  /** A pass that does not return an error leaves none latched. */
  lemma PassLatches(w: World, now: int)
    requires Runnable(w)
    ensures PassIn(w, now).1 in {Again, ReturnNil} ==> Unlatched(PassIn(w, now).0)
  {
    if w.proc.value.err == None {
      var d := Decide(w.proc.value.state, InputsOf(w, now));
      if d.Commit? {
        DecidedLatches(w, d.rec, now);
      }
    }
  }

  lemma CommitLatches(w: World, r: Record)
    requires Runnable(w) && Unlatched(w)
    ensures CommitIn(w, r).1 == Committed ==> Unlatched(CommitIn(w, r).0)
  {
  }

  lemma DecidedLatches(w: World, r: Record, now: int)
    requires Runnable(w) && Unlatched(w)
    ensures CommitDecided(w, r, now).1 in {Again, ReturnNil} ==> Unlatched(CommitDecided(w, r, now).0)
  {
    CommitLatches(w, r);
    var (w1, c) := CommitIn(w, r);
    if c == Committed && r.SendRec? {
      AnswerLatches(w1, r.child, now);
    }
  }

  lemma PassIsAnEvent(w: World, es: seq<Event>, w1: World, now: int)
    requires After(w, es) == w1 && Runnable(w1)
    ensures After(w, es + [Pass(now)]) == PassIn(w1, now).0
    ensures Unlatched(w1) && PassIn(w1, now).1 in {Again, ReturnNil} ==> Unlatched(PassIn(w1, now).0)
  {
    AfterOne(w, es, Pass(now));
    if Unlatched(w1) {
      PassLatches(w1, now);
    }
  }

  /** The events `es` are passes at `now` and lead to where the first `n` passes of the loop do. */
  ghost predicate PassEvents(w: World, now: int, n: nat, es: seq<Event>)
    requires Runnable(w)
  {
    var (w1, flow) := Passes(w, now, n);
    && After(w, es) == w1
    && (forall k :: 0 <= k < |es| ==> es[k] == Pass(now))
    && (Unlatched(w) && flow in {Again, ReturnNil} ==> Unlatched(w1))
  }

  lemma NextPassEvent(w: World, now: int, n: nat, es: seq<Event>, w1: World, r: (World, Flow))
    requires Runnable(w) && Runnable(w1) && PassEvents(w, now, n, es)
    requires Passes(w, now, n) == (w1, Again) && r == PassIn(w1, now)
    ensures Passes(w, now, n + 1) == r && PassEvents(w, now, n + 1, es + [Pass(now)])
  {
    PassIsAnEvent(w, es, w1, now);
    NextPass(w, now, n, w1, r);
  }

  lemma NextPassEvents(w: World, now: int, n: nat, es: seq<Event>) returns (more: seq<Event>)
    requires Runnable(w) && PassEvents(w, now, n, es)
    ensures PassEvents(w, now, n + 1, more)
  {
    more := es;
    var r := Passes(w, now, n);
    if r.1 == Again {
      NextPassEvent(w, now, n, es, r.0, PassIn(r.0, now));
      more := es + [Pass(now)];
    } else {
      PassesStop(w, now, n, n + 1);
    }
  }

  lemma {:induction false} PassesAreARun(w: World, now: int, n: nat) returns (es: seq<Event>)
    requires Runnable(w)
    ensures PassEvents(w, now, n, es)
  {
    es := [];
    if n > 0 {
      es := PassesAreARun(w, now, n - 1);
      es := NextPassEvents(w, now, n - 1, es);
    }
  }

  /** A tick is a list of passes at one time. */
  lemma TickIsARun(w: World, now: int) returns (es: seq<Event>)
    requires Runnable(w)
    ensures After(w, es) == TickIn(w, now).0
    ensures forall k :: 0 <= k < |es| ==> es[k] == Pass(now)
    ensures Unlatched(w) && TickIn(w, now).1 == ReturnNil ==> Unlatched(TickIn(w, now).0)
  {
    es := PassesAreARun(w, now, MAX_STEPS_PER_TICK);
  }

  lemma {:induction false} GenuineAppend(w: World, es: seq<Event>, more: seq<Event>)
    requires GenuineRun(w, es) && GenuineRun(After(w, es), more)
    ensures GenuineRun(w, es + more)
  {
    if more == [] {
      assert es + more == es;
    } else {
      var init := more[..|more| - 1];
      GenuineAppend(w, es, init);
      AfterAppend(w, es, init);
      assert (es + more)[..|es + more| - 1] == es + init;
    }
  }

  lemma {:induction false} NoDeliveryIsGenuine(w: World, es: seq<Event>)
    requires forall k :: 0 <= k < |es| ==> !es[k].Deliver?
    ensures GenuineRun(w, es)
  {
    if es != [] {
      NoDeliveryIsGenuine(w, es[..|es| - 1]);
    }
  }

  /** An execution and its delivery, as two events. */
  lemma ExecuteThenDeliver(w: World, qty: int, atNS: int, f: Fill)
    requires Runnable(w) && BrokerFill(w.broker, qty, atNS).1 == Some(f)
    ensures var es := [Execute(qty, atNS), Deliver(f)];
            && After(w, es) == OnFillIn(w.(broker := BrokerFill(w.broker, qty, atNS).0), f).0
            && GenuineRun(w, es)
  {
    var one := [Execute(qty, atNS)];
    assert [] + [Execute(qty, atNS)] == one && one + [Deliver(f)] == [Execute(qty, atNS), Deliver(f)];
    AfterOne(w, [], Execute(qty, atNS));
    AfterOne(w, one, Deliver(f));
    NoDeliveryIsGenuine(w, one);
    ExecutionIsIssued(w.broker, qty, atNS, f);
    assert [Execute(qty, atNS), Deliver(f)][..1] == one;
  }

  lemma ExecutionIsIssued(b: Broker, qty: int, atNS: int, f: Fill)
    requires BrokerFill(b, qty, atNS).1 == Some(f)
    ensures f in BrokerFill(b, qty, atNS).0.issued
  {
    var g := ExecutionAppends(b, qty, atNS);
    assert f in b.issued + [f];
  }

  /** The simulator's fill is an execution and the delivery of just that execution. */
  lemma FillIsARun(w: World, qty: int, atNS: int) returns (es: seq<Event>)
    requires Runnable(w) && Unlatched(w) && FillNow(w, qty, atNS).Some?
    ensures After(w, es) == FillNow(w, qty, atNS).value && GenuineRun(w, es) && Unlatched(After(w, es))
  {
    var (b, f) := BrokerFill(w.broker, qty, atNS);
    es := [];
    if f.Some? {
      es := [Execute(qty, atNS), Deliver(f.value)];
      ExecuteThenDeliver(w, qty, atNS, f.value);
    }
  }

  lemma OpeningIsARun(x: SimState, ev: SimEvent) returns (es: seq<Event>)
    requires Runnable(x.w) && Unlatched(x.w) && BeginIn(x, ev).Some?
    ensures After(x.w, es) == WithBook(BeginIn(x, ev).value, TopAfter(x.top, ev), ev)
    ensures GenuineRun(x.w, es) && Unlatched(After(x.w, es))
  {
    es := [];
    if !x.started {
      AfterOne(x.w, es, Begin(ev.atNS));
      es := es + [Begin(ev.atNS)];
    }
    if ev.Unsync? || ev.BookEvent? {
      AfterOne(x.w, es, Book(TopAfter(x.top, ev)));
      es := es + [Book(TopAfter(x.top, ev))];
    }
    NoDeliveryIsGenuine(x.w, es);
  }

  lemma StepIsARun(x: SimState, ev: SimEvent, rule: Rule) returns (es: seq<Event>)
    requires Runnable(x.w) && Unlatched(x.w) && SimStep(x, ev, rule).Some?
    ensures After(x.w, es) == SimStep(x, ev, rule).value.w && GenuineRun(x.w, es) && Unlatched(After(x.w, es))
  {
    var v1, v2 := StepParts(x, ev, rule, SimStep(x, ev, rule).value);
    var opening := OpeningIsARun(x, ev);
    var w1 := After(x.w, opening);
    var qty := AskedQty(w1.broker, TopAfter(x.top, ev), ev, rule);
    var filling := FillIsARun(w1, qty, ev.atNS);
    var w2 := After(w1, filling);
    var ticking := TickIsARun(w2, ev.atNS);
    NoDeliveryIsGenuine(w2, ticking);
    AfterAppend(x.w, opening, filling);
    GenuineAppend(x.w, opening, filling);
    AfterAppend(x.w, opening + filling, ticking);
    GenuineAppend(x.w, opening + filling, ticking);
    es := opening + filling + ticking;
  }

  /**
   * Every simulation is a protocol run whose ledger is genuine, so everything proved of those
   * runs holds of the simulator; and it ends with no error latched.
   */
  lemma {:induction false} SimulationIsARun(
      cfg: Config, i: Intent, evs: seq<SimEvent>, rule: Rule)
    returns (es: seq<Event>)
    requires SimRun(FirstSim(cfg, i), evs, rule).Some?
    ensures After(FirstWorld(cfg, i), es) == SimRun(FirstSim(cfg, i), evs, rule).value.w
    ensures GenuineRun(FirstWorld(cfg, i), es) && Unlatched(After(FirstWorld(cfg, i), es))
  {
    if evs == [] {
      es := [Restart];
      AfterOne(FirstWorld(cfg, i), [], Restart);
      assert [] + [Restart] == es;
      NoDeliveryIsGenuine(FirstWorld(cfg, i), es);
    } else {
      var init := evs[..|evs| - 1];
      var x := SimRun(FirstSim(cfg, i), init, rule).value;
      var before := SimulationIsARun(cfg, i, init, rule);
      var step := StepIsARun(x, evs[|evs| - 1], rule);
      AfterAppend(FirstWorld(cfg, i), before, step);
      GenuineAppend(FirstWorld(cfg, i), before, step);
      es := before + step;
    }
  }

  /** Under either rule, whatever the evidence: no rule of the gateway is broken and at most the target is filled. */
  lemma EveryRunIsWithinTarget(cfg: Config, i: Intent, evs: seq<SimEvent>, rule: Rule)
    requires i.Valid() && SimRun(FirstSim(cfg, i), evs, rule).Some?
    ensures var r := ResultOf(SimRun(FirstSim(cfg, i), evs, rule).value.w);
            r.violations == 0 && 0 <= r.filled <= i.TargetQty()
  {
    var es := SimulationIsARun(cfg, i, evs, rule);
    RunIsSafe(cfg, i, es);
    FillsAreConserved(cfg, i, es);
  }

  /** The optimistic run fills nothing or the whole target. */
  lemma TouchIsAllOrNothing(cfg: Config, i: Intent, evs: seq<SimEvent>)
    requires i.Valid() && forall ev :: ev in evs ==> ValidEvent(ev)
    requires SimRun(FirstSim(cfg, i), evs, Touch).Some?
    ensures var r := ResultOf(SimRun(FirstSim(cfg, i), evs, Touch).value.w);
            r.filled == 0 || (r.filled == r.target == i.TargetQty())
  {
    Lockstep(cfg, i, evs);
    var es := SimulationIsARun(cfg, i, evs, Touch);
    IntentIsFixed(FirstWorld(cfg, i), es);
    RunIsSafe(cfg, i, es);
    DurableIsSound(After(FirstWorld(cfg, i), es));
  }

  /** When both rules return a result, the conservative run never fills more than the optimistic one. */
  lemma ThroughIsConservative(cfg: Config, i: Intent, evs: seq<SimEvent>)
    requires i.Valid() && forall ev :: ev in evs ==> ValidEvent(ev)
    requires SimRun(FirstSim(cfg, i), evs, Touch).Some? && SimRun(FirstSim(cfg, i), evs, Through).Some?
    ensures ResultOf(SimRun(FirstSim(cfg, i), evs, Through).value.w).filled
            <= ResultOf(SimRun(FirstSim(cfg, i), evs, Touch).value.w).filled
  {
    Lockstep(cfg, i, evs);
    TouchIsAllOrNothing(cfg, i, evs);
    EveryRunIsWithinTarget(cfg, i, evs, Through);
    TargetIsLargestThatFits(i, 1);
  }
}
