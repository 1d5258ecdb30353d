/**
 * What a tick gets done (`Tick` of `internal/exec/executor.go`): it works until nothing is left to
 * do, an executor that was stopped stays stopped, and a kill or a deadline takes the order back.
 */
module Ticks {
  import opened Machine
  import opened Decisions
  import opened Gateway
  import opened Runs
  import opened Executors
  import opened Protocol
  import opened Safety
  import opened Conduct
  import opened SimRules
  import opened Acceptance

  // ---------------------------------------------------------------- progress

  lemma CommittedWrites(w: World, r: Record)
    requires Runnable(w) && CommitIn(w, r).1 == Committed
    ensures |CommitIn(w, r).0.disk.lines| == |w.disk.lines| + 1
    ensures CommitIn(w, r).0.proc.Some? && CommitIn(w, r).0.cfg == w.cfg
  {
    CommitLines(w, r);
  }

  lemma AnswerProgress(w: World, c: Child, now: int)
    requires Runnable(w)
    ensures var (w1, flow) := AnswerIn(w, c, now);
            && (flow == Again ==> |w1.disk.lines| >= |w.disk.lines| + 1)
            && (flow == ReturnNil ==>
                  && w.cfg.requireLedgerComplete && |w1.disk.lines| == |w.disk.lines| + 1
                  && w1.proc.Some? && !w1.proc.value.ledgerComplete)
  {
    var (b, a) := BrokerSend(w.broker, c);
    if a != Killed {
      var r := OutcomeFor(c, a, now, w.cfg.requireLedgerComplete);
      if CommitIn(w.(broker := b), r).1 == Committed {
        CommittedWrites(w.(broker := b), r);
      }
    }
  }

  /** A child went out and completeness was taken back: the send and its answer are the last two lines. */
  ghost predicate SentAndWaits(w: World, w1: World) {
    && w.cfg.requireLedgerComplete && |w1.disk.lines| >= |w.disk.lines| + 2
    && w1.proc.Some? && !w1.proc.value.ledgerComplete
  }

  /** A pass that goes round again has journaled something; one that returns nil had nothing to do, or sent. */
  lemma PassProgress(w: World, now: int)
    requires Runnable(w)
    ensures var (w1, flow) := PassIn(w, now);
            && (flow == Again ==> |w1.disk.lines| >= |w.disk.lines| + 1)
            && (flow == ReturnNil ==>
                  || SentAndWaits(w, w1)
                  || (w1 == w && w.proc.value.err == None && Decide(w.proc.value.state, InputsOf(w, now)) == Idle))
  {
    if w.proc.value.err == None {
      var d := Decide(w.proc.value.state, InputsOf(w, now));
      if d.Query? {
        QueryProgress(w, now);
      } else if d.Commit? {
        DecidedProgress(w, d.rec, now);
      }
    }
  }

  lemma QueryProgress(w: World, now: int)
    requires Runnable(w)
    ensures var (w1, flow) := QueryIn(w, now);
            flow != ReturnNil && (flow == Again ==> |w1.disk.lines| >= |w.disk.lines| + 1)
  {
    var (b, v) := BrokerQuery(w.broker);
    if v.Some? {
      var r := ReconcileRec(now, v.value, w.cfg.requireLedgerComplete);
      if CommitIn(w.(broker := b), r).1 == Committed {
        CommittedWrites(w.(broker := b), r);
      }
    }
  }

  lemma DecidedProgress(w: World, r: Record, now: int)
    requires Runnable(w)
    ensures var (w1, flow) := CommitDecided(w, r, now);
            && (flow == Again ==> |w1.disk.lines| >= |w.disk.lines| + 1)
            && (flow == ReturnNil ==> SentAndWaits(w, w1))
  {
    var (w1, c) := CommitIn(w, r);
    if c == Committed {
      CommittedWrites(w, r);
      if r.SendRec? {
        AnswerProgress(w1, r.child, now);
      }
    }
  }

  /** The passes so far have journaled a line each, or the last of them had nothing left to do. */
  ghost predicate Progressed(w: World, now: int, n: nat)
    requires Runnable(w)
  {
    var (w1, flow) := Passes(w, now, n);
    && w1.cfg == w.cfg
    && (flow == Again ==> |w1.disk.lines| >= |w.disk.lines| + n)
    && (flow == ReturnNil ==>
          || (w.cfg.requireLedgerComplete && |w1.disk.lines| >= |w.disk.lines| + 2
              && w1.proc.Some? && !w1.proc.value.ledgerComplete)
          || (Runnable(w1) && w1.proc.value.err == None && Decide(w1.proc.value.state, InputsOf(w1, now)) == Idle))
  }

  lemma NextProgress(w: World, now: int, n: nat, w1: World, r: (World, Flow))
    requires Runnable(w) && Runnable(w1) && Progressed(w, now, n)
    requires Passes(w, now, n) == (w1, Again) && r == PassIn(w1, now)
    ensures Progressed(w, now, n + 1)
  {
    NextPass(w, now, n, w1, r);
    PassProgress(w1, now);
    PassKeepsIntent(w1, now);
  }

  lemma OnePassMore(w: World, now: int, n: nat)
    requires Runnable(w) && Progressed(w, now, n)
    ensures Progressed(w, now, n + 1)
  {
    var r := Passes(w, now, n);
    if r.1 == Again {
      NextProgress(w, now, n, r.0, PassIn(r.0, now));
    } else {
      PassesStop(w, now, n, n + 1);
    }
  }

  lemma NoPassYet(w: World, now: int)
    requires Runnable(w)
    ensures Progressed(w, now, 0)
  {
  }

  /** What each step passes on holds all along. */
  lemma {:induction false} PassedOn(good: seq<bool>, n: nat)
    requires n < |good| && good[0] && forall j :: 0 <= j < |good| - 1 ==> good[j] ==> good[j + 1]
    ensures good[n]
    decreases n
  {
    if n > 0 {
      PassedOn(good, n - 1);
      assert good[n - 1 + 1];
    }
  }

  lemma PassesProgress(w: World, now: int, n: nat)
    requires Runnable(w)
    ensures Progressed(w, now, n)
  {
    NoPassYet(w, now);
    var good := seq(n + 1, j requires 0 <= j <= n => Progressed(w, now, j));
    forall j | 0 <= j < n && good[j]
      ensures good[j + 1]
    {
      OnePassMore(w, now, j);
    }
    PassedOn(good, n);
  }

  /**
   * A tick that returns nil has left nothing to do at its time, or has sent a child and waits for
   * the ledger, or has used all eight passes and journaled something in each.
   */
  lemma TicksWorkUntilDone(w: World, now: int)
    requires Runnable(w)
    ensures var (w1, flow) := TickIn(w, now);
            flow == ReturnNil ==>
              || (Runnable(w1) && w1.proc.value.err == None && Decide(w1.proc.value.state, InputsOf(w1, now)) == Idle)
              || (w.cfg.requireLedgerComplete && |w1.disk.lines| >= |w.disk.lines| + 2
                  && w1.proc.Some? && !w1.proc.value.ledgerComplete)
              || |w1.disk.lines| >= |w.disk.lines| + 8
  {
    PassesProgress(w, now, MAX_STEPS_PER_TICK);
  }

  // ---------------------------------------------------------------- a latched executor

  /** The process has stopped for good: no event but a crash changes its latch, its journal or what was sent. */
  lemma LatchedEvent(w: World, e: Event)
    requires Runnable(w) && w.proc.value.err.Some? && !e.Crash?
    ensures var w1 := Next(w, e);
            && Runnable(w1) && w1.proc.value.err == w.proc.value.err && w1.proc.value.state == w.proc.value.state
            && w1.disk.lines == w.disk.lines && w1.broker.sends == w.broker.sends
  {
    if e.Execute? {
      ExecutionSendsNothing(w.broker, e.qty, e.atNS);
    }
  }

  /** Whatever happens, short of a crash, an executor that latched an error journals and sends nothing more. */
  lemma {:induction false} LatchedStaysStopped(w: World, es: seq<Event>)
    requires Runnable(w) && w.proc.value.err.Some? && forall k :: 0 <= k < |es| ==> !es[k].Crash?
    ensures var w1 := After(w, es);
            && Runnable(w1) && w1.proc.value.err == w.proc.value.err && w1.proc.value.state == w.proc.value.state
            && w1.disk.lines == w.disk.lines && w1.broker.sends == w.broker.sends
  {
    if es != [] {
      var n := |es| - 1;
      LatchedStaysStopped(w, es[..n]);
      LatchedEvent(After(w, es[..n]), es[n]);
    }
  }

  // ---------------------------------------------------------------- a kill or a deadline

  /** Up, with sending enabled, and to be stopped: the switch is engaged or the deadline has passed. */
  ghost predicate Stopping(w: World, now: int) {
    && Up(w) && w.cfg.sendEnabled && w.proc.value.state.Started()
    && (w.killed || now >= w.broker.intent.expiresAtNS)
    && (w.proc.value.state.done != NoReason ==> w.broker.live == None)
  }

  lemma CommitKeepsSwitch(w: World, r: Record)
    requires Runnable(w)
    ensures CommitIn(w, r).0.killed == w.killed
  {
  }

  lemma AnswerKeepsSwitch(w: World, c: Child, now: int)
    requires Runnable(w)
    ensures AnswerIn(w, c, now).0.killed == w.killed
  {
    var (b, a) := BrokerSend(w.broker, c);
    if a != Killed {
      CommitKeepsSwitch(w.(broker := b), OutcomeFor(c, a, now, w.cfg.requireLedgerComplete));
    }
  }

  lemma QueryKeepsSwitch(w: World, now: int)
    requires Runnable(w)
    ensures QueryIn(w, now).0.killed == w.killed
  {
    var (b, v) := BrokerQuery(w.broker);
    if v.Some? {
      CommitKeepsSwitch(w.(broker := b), ReconcileRec(now, v.value, w.cfg.requireLedgerComplete));
    }
  }

  /** The state as the system knows it: sound, linked to the gateway, on the gateway's intent. */
  lemma UpIsSound(w: World)
    requires Up(w)
    ensures Sound(w.proc.value.state) && Linked(w.proc.value.state, w.broker)
  {
    DurableIsSound(w);
  }

  /** How far a stopping executor is from its end. */
  function Rank(s: State, b: Broker): nat {
    if s.done != NoReason then 0
    else if s.inFlight == None then (if s.order == None then 1 else 3)
    else if b.live == None then 2
    else 4
  }

  /**
   * What a pass of a stopping executor leaves behind: an unresolved child is resolved, a resolved one
   * leaves no order live, and without the ledger's gate every pass comes nearer to the end.
   */
  ghost predicate StopStep(w: World, now: int, w1: World, flow: Flow)
    requires w.proc.Some?
  {
    var s := w.proc.value.state;
    && (flow == Again ==> Stopping(w1, now) && w1.cfg == w.cfg)
    && (w.broker.live == None || s.inFlight == None ==> w1.broker.live == None)
    && (s.inFlight.Some? ==> flow == Again && w1.proc.Some? && w1.proc.value.state.inFlight == None)
    && (!w.cfg.requireLedgerComplete ==>
          && ((flow == ReturnNil && w1 == w && s.done != NoReason)
              || (flow == Again && Rank(w1.proc.value.state, w1.broker) < Rank(s, w.broker))))
  }

  lemma ReconciledFields(s: State, b: Broker, deferFinish: bool)
    requires s.inFlight.Some? && s.done == NoReason
    ensures var n := ApplyReconcile(s, BrokerView(b), deferFinish);
            && n.inFlight == None && n.intent == s.intent && (n.done != NoReason ==> b.live == None)
            && (n.order == None <==> b.live == None)
  {
  }

  lemma QueryKeepsLive(b: Broker)
    ensures BrokerQuery(b).0.live == b.live && BrokerQuery(b).0.intent == b.intent
  {
  }

  lemma StoppingQuery(w: World, now: int)
    requires Stopping(w, now) && w.proc.value.state.inFlight.Some?
    ensures StopStep(w, now, QueryIn(w, now).0, QueryIn(w, now).1)
  {
    UpIsSound(w);
    QueryWhenUp(w, now);
    QueryKeepsSwitch(w, now);
    QueryKeepsLive(w.broker);
    ReconciledFields(w.proc.value.state, w.broker, w.cfg.requireLedgerComplete);
    QueryKeepsCfg(w, now);
  }

  lemma QueryKeepsCfg(w: World, now: int)
    requires Runnable(w)
    ensures QueryIn(w, now).0.cfg == w.cfg
  {
    var (b, v) := BrokerQuery(w.broker);
    if v.Some? {
      CommitKeepsIntent(w.(broker := b), ReconcileRec(now, v.value, w.cfg.requireLedgerComplete));
    }
  }

  /** What a cancel that is ready to go comes to: no order is live, and it is answered or asked about next. */
  lemma CancelledIsGone(s: State, b: Broker, c: Child, deferFinish: bool)
    requires ReadyToGo(s, b, c) && c.action == Cancel && s.inFlightReason != NoReason
    ensures BrokerApply(b, c).0.live == None
    ensures var n := ApplyOutcome(s, BrokerApply(b, c).1, deferFinish);
            n.intent == s.intent && (n.inFlight == None && !deferFinish ==> n.done != NoReason)
  {
  }

  /** A decided cancel is always taken. */
  lemma CancelIsTaken(s: State, in_: Inputs, r: Record)
    requires Sound(s) && Decide(s, in_) == Commit(r) && r.SendRec? && r.child.action == Cancel
    ensures TryCommit(s, r).Ok? && TryCommit(s, r).value == ApplySend(s, r) && r.reason != NoReason
    ensures s.done == NoReason && s.inFlight == None && s.order.Some?
  {
    DecidedSend(s, in_, r);
    NextKeyIsFresh(s);
    SendHasReason(s, in_, r);
  }

  lemma StopCancels(w: World, r: Record, now: int)
    requires Stopping(w, now) && r.SendRec? && r.child.action == Cancel
    requires Decide(w.proc.value.state, InputsOf(w, now)) == Commit(r)
    ensures var (w1, flow) := CommitDecided(w, r, now);
            && w1.broker.live == None && flow in {Again, ReturnNil} && w1.cfg == w.cfg
            && Stopping(w1, now) && w1.proc.Some?
            && (!w.cfg.requireLedgerComplete ==> flow == Again && Rank(w1.proc.value.state, w1.broker) < 3)
  {
    UpIsSound(w);
    CancelIsTaken(w.proc.value.state, InputsOf(w, now), r);
    SendDecided(w, r, now);
    SendJournaled(w, r, now);
    var w1 := CommitIn(w, r).0;
    AnswerWhenUp(w1, r.child, now);
    CancelledIsGone(w1.proc.value.state, w1.broker, r.child, w1.cfg.requireLedgerComplete);
    CommitKeepsSwitch(w, r);
    AnswerKeepsSwitch(w1, r.child, now);
    AnswerKeepsIntent(w1, r.child, now);
    NothingWaits(w1, r.child, now);
  }

  /** Without the ledger's gate an answered child sends the tick round again. */
  lemma NothingWaits(w: World, c: Child, now: int)
    requires Runnable(w)
    ensures !w.cfg.requireLedgerComplete ==> AnswerIn(w, c, now).1 != ReturnNil
  {
  }

  /** With nothing unresolved and no order in hand, no order is live. */
  lemma NoOrderNoLive(s: State, b: Broker)
    requires Linked(s, b) && s.inFlight == None && s.order == None
    ensures b.live == None
  {
  }

  lemma FinishIsTaken(s: State, r: Record)
    requires r.FinishRec? && r.reason != NoReason && s.Started() && s.done == NoReason
    requires s.inFlight == None && s.order == None
    ensures TryCommit(s, r) == Ok(s.(done := r.reason))
  {
  }

  lemma StopFinishes(w: World, r: Record, now: int)
    requires Stopping(w, now) && w.proc.value.state.inFlight == None && w.proc.value.state.order == None
    requires r.FinishRec? && r.reason != NoReason && w.proc.value.state.done == NoReason
    requires Decide(w.proc.value.state, InputsOf(w, now)) == Commit(r)
    ensures StopStep(w, now, CommitDecided(w, r, now).0, CommitDecided(w, r, now).1)
  {
    UpIsSound(w);
    NoOrderNoLive(w.proc.value.state, w.broker);
    FinishIsTaken(w.proc.value.state, r);
    if !(w.cfg.requireLedgerComplete && !w.proc.value.ledgerComplete) {
      FinishGoesRound(w, r, now);
      FinishKeepsUp(w, r, now);
      CommitKeepsSwitch(w, r);
      CommitKeepsIntent(w, r);
    }
  }

  /** Past the gate, a finish is its commit. */
  lemma FinishGoesRound(w: World, r: Record, now: int)
    requires Up(w) && r.FinishRec? && TryCommit(w.proc.value.state, r).Ok?
    requires !(w.cfg.requireLedgerComplete && !w.proc.value.ledgerComplete)
    ensures CommitDecided(w, r, now) == (CommitIn(w, r).0, Again)
  {
    CommitWhenUp(w, r);
  }

  /** The reason a stopping executor has. */
  function StopReason(s: State, in_: Inputs): Reason {
    if s.filled >= s.target then DoneFilled else if in_.killed then DoneKilled else DoneDeadline
  }

  /** With nothing unresolved and the intent open, it takes the order back or ends. */
  lemma StoppingActs(w: World, now: int) returns (r: Record)
    requires Stopping(w, now) && w.proc.value.state.done == NoReason && w.proc.value.state.inFlight == None
    ensures Decide(w.proc.value.state, InputsOf(w, now)) == Commit(r)
    ensures PassIn(w, now) == CommitDecided(w, r, now)
    ensures if w.proc.value.state.order == None then r.FinishRec? && r.reason != NoReason
            else r.SendRec? && r.child.action == Cancel
  {
    var s, in_ := w.proc.value.state, InputsOf(w, now);
    LinkedIntent(w);
    r := StopRecord(s, now, StopReason(s, in_));
    StopsExactlyWhen(s, in_, StopReason(s, in_));
  }

  lemma LinkedIntent(w: World)
    requires Up(w) && w.proc.value.state.Started()
    ensures w.proc.value.state.intent == w.broker.intent && Priced(w.proc.value.state)
  {
    UpIsSound(w);
  }

  lemma StoppingOpen(w: World, now: int)
    requires Stopping(w, now) && w.proc.value.state.done == NoReason && w.proc.value.state.inFlight == None
    ensures StopStep(w, now, PassIn(w, now).0, PassIn(w, now).1)
  {
    var r := StoppingActs(w, now);
    if w.proc.value.state.order == None {
      StopFinishes(w, r, now);
    } else {
      StopCancels(w, r, now);
    }
  }

  lemma DoneIsResolved(w: World)
    requires Up(w) && w.proc.value.state.done != NoReason
    ensures w.proc.value.state.inFlight == None
  {
    UpIsSound(w);
  }

  lemma StoppingPass(w: World, now: int)
    requires Stopping(w, now)
    ensures StopStep(w, now, PassIn(w, now).0, PassIn(w, now).1)
  {
    var s := w.proc.value.state;
    if s.done != NoReason {
      DoneIsResolved(w);
    } else if s.inFlight.Some? {
      StoppingQuery(w, now);
    } else {
      StoppingOpen(w, now);
    }
  }

  /** As long as it goes round, it is stopping. */
  ghost predicate StillStopping(w: World, now: int, n: nat)
    requires Runnable(w)
  {
    Passes(w, now, n).1 == Again ==> Stopping(Passes(w, now, n).0, now)
  }

  lemma StopsOn(w: World, now: int, n: nat, w1: World, r: (World, Flow))
    requires Runnable(w) && Stopping(w1, now) && Passes(w, now, n) == (w1, Again) && r == PassIn(w1, now)
    ensures Passes(w, now, n + 1) == r && StopStep(w1, now, r.0, r.1)
  {
    NextPass(w, now, n, w1, r);
    StoppingPass(w1, now);
  }

  lemma NextStillStopping(w: World, now: int, n: nat)
    requires Runnable(w) && StillStopping(w, now, n)
    ensures StillStopping(w, now, n + 1)
  {
    var r := Passes(w, now, n);
    if r.1 == Again {
      StopsOn(w, now, n, r.0, PassIn(r.0, now));
    } else {
      PassesStop(w, now, n, n + 1);
    }
  }

  lemma StoppingAtFirst(w: World, now: int)
    requires Stopping(w, now)
    ensures StillStopping(w, now, 0)
  {
  }

  lemma {:induction false} StaysStopping(w: World, now: int, n: nat)
    requires Stopping(w, now)
    ensures StillStopping(w, now, n)
  {
    if n == 0 {
      StoppingAtFirst(w, now);
    } else {
      StaysStopping(w, now, n - 1);
      NextStillStopping(w, now, n - 1);
    }
  }

  /** After `n` passes: nothing is live from the second on, and each pass took one step to the end. */
  ghost predicate StoppedAt(gated: bool, n: nat, w1: World, flow: Flow) {
    && w1.cfg.requireLedgerComplete == gated
    && (flow == Again && n >= 1 ==> w1.broker.live == None || (w1.proc.Some? && w1.proc.value.state.inFlight == None))
    && (flow != Again || n >= 2 ==> w1.broker.live == None)
    && (!gated && flow == Again ==> w1.proc.Some? && Rank(w1.proc.value.state, w1.broker) + n <= 4)
    && (!gated && flow != Again ==> flow == ReturnNil && w1.proc.Some? && w1.proc.value.state.done != NoReason)
  }

  ghost predicate StoppedAfter(w: World, now: int, n: nat)
    requires Runnable(w)
  {
    StoppedAt(w.cfg.requireLedgerComplete, n, Passes(w, now, n).0, Passes(w, now, n).1)
  }

  lemma StepStops(gated: bool, now: int, n: nat, w1: World, w2: World, flow: Flow)
    requires StoppedAt(gated, n, w1, Again) && w1.proc.Some? && StopStep(w1, now, w2, flow) && w2.cfg == w1.cfg
    ensures StoppedAt(gated, n + 1, w2, flow)
  {
  }

  lemma OneStopMore(w: World, now: int, n: nat)
    requires Stopping(w, now) && StoppedAfter(w, now, n)
    ensures StoppedAfter(w, now, n + 1)
  {
    StaysStopping(w, now, n);
    var r := Passes(w, now, n);
    if r.1 == Again {
      var next := PassIn(r.0, now);
      StopsOn(w, now, n, r.0, next);
      PassKeepsIntent(r.0, now);
      StepStops(w.cfg.requireLedgerComplete, now, n, r.0, next.0, next.1);
    } else {
      PassesStop(w, now, n, n + 1);
    }
  }

  lemma NoStopYet(w: World, now: int)
    requires Stopping(w, now)
    ensures StoppedAfter(w, now, 0)
  {
  }

  lemma {:induction false} PassesStopIt(w: World, now: int, n: nat)
    requires Stopping(w, now)
    ensures StoppedAfter(w, now, n)
  {
    if n == 0 {
      NoStopYet(w, now);
    } else {
      PassesStopIt(w, now, n - 1);
      OneStopMore(w, now, n - 1);
    }
  }

  /**
   * One tick after the kill switch or the deadline, with the gateway and the disk working, no order
   * is live at the broker, whatever was unresolved before; and unless a ledger check is still due,
   * the intent has ended.
   */
  lemma StopsWithinATick(w: World, now: int)
    requires Stopping(w, now)
    ensures var (w1, flow) := TickIn(w, now);
            && w1.broker.live == None
            && (!w.cfg.requireLedgerComplete ==>
                  flow == ReturnNil && w1.proc.Some? && w1.proc.value.state.done != NoReason)
  {
    PassesStopIt(w, now, MAX_STEPS_PER_TICK);
  }

  // ---------------------------------------------------------------- fills

  /**
   * A fill of a sent key under a new id is recorded, once; a repeated one, one of a key this intent
   * never sent, and one before the start change nothing and are no error.
   */
  lemma FillsAreRecordedOnce(w: World, f: Fill)
    requires Runnable(w) && w.proc.value.err == None && w.disk.plan == []
    requires f.id != NoFillID && f.qty >= 1 && f.price >= 1
    ensures var s := w.proc.value.state;
            var (w1, c) := OnFillIn(w, f);
            var ours := s.Started() && f.id !in s.fills && exists d :: d in s.sent && d.key == f.key;
            && c == Committed
            && (!ours ==> w1 == w)
            && (ours ==>
                  && w1.proc.Some? && w1.proc.value.state.fills == s.fills[f.id := f]
                  && w1.proc.value.state.filled == s.filled + f.qty
                  && w1.proc.value.state.fillNotional == s.fillNotional + f.qty * f.price
                  && OnFillIn(w1, f) == (w1, Committed))
  {
    SentKeyMeans(w.proc.value.state.sent, f.key);
    CommitWhenUp(w, FillRec(f.atNS, f));
  }

}
