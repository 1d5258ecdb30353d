/** What the system of module `Protocol` guarantees in every run. */
module Safety {
  import opened Intents
  import opened Machine
  import opened Caps
  import opened Decisions
  import opened Gateway
  import opened Runs
  import opened Executors
  import opened Protocol

  /**
   * No run breaks a rule at the gateway: nothing is sent before an unanswered send is
   * reconciled, no key arrives twice, no submit finds an order live, no price passes the
   * cap, and what is filled and what is open together never exceed the target.
   */
  lemma NoRunBreaksARule(cfg: Config, i: Intent, es: seq<Event>)
    requires i.Valid()
    ensures var b := After(FirstWorld(cfg, i), es).broker;
            && b.violations == []
            && (forall m, n :: 0 <= m < n < |b.sends| ==> b.sends[m].key != b.sends[n].key)
            && b.filled + (if b.live.Some? then b.live.value.open else 0) <= i.TargetQty()
  {
    RunIsSafe(cfg, i, es);
    IntentIsFixed(FirstWorld(cfg, i), es);
  }

  lemma {:induction false} IntentIsFixed(w: World, es: seq<Event>)
    ensures After(w, es).broker.intent == w.broker.intent && After(w, es).cfg == w.cfg
  {
    if es != [] {
      IntentIsFixed(w, es[..|es| - 1]);
      EventKeepsIntent(After(w, es[..|es| - 1]), es[|es| - 1]);
    }
  }

  lemma CommitKeepsIntent(w: World, r: Record)
    requires Runnable(w)
    ensures CommitIn(w, r).0.broker == w.broker && CommitIn(w, r).0.cfg == w.cfg
  {
  }

  lemma BrokerKeepsIntent(b: Broker, c: Child)
    ensures BrokerSend(b, c).0.intent == b.intent
  {
  }

  lemma AnswerKeepsIntent(w: World, c: Child, now: int)
    requires Runnable(w)
    ensures AnswerIn(w, c, now).0.broker.intent == w.broker.intent && AnswerIn(w, c, now).0.cfg == w.cfg
  {
    var (b, a) := BrokerSend(w.broker, c);
    BrokerKeepsIntent(w.broker, c);
    if a != Killed {
      CommitKeepsIntent(w.(broker := b), OutcomeFor(c, a, now, w.cfg.requireLedgerComplete));
    }
  }

  lemma PassKeepsIntent(w: World, now: int)
    requires Runnable(w)
    ensures PassIn(w, now).0.broker.intent == w.broker.intent && PassIn(w, now).0.cfg == w.cfg
  {
    if w.proc.value.err == None {
      match Decide(w.proc.value.state, InputsOf(w, now))
      case Idle =>
      case Query =>
        var (b, v) := BrokerQuery(w.broker);
        if v.Some? {
          CommitKeepsIntent(w.(broker := b), ReconcileRec(now, v.value, w.cfg.requireLedgerComplete));
        }
      case Commit(r) =>
        CommitKeepsIntent(w, r);
        var (w1, c) := CommitIn(w, r);
        if c == Committed && r.SendRec? {
          AnswerKeepsIntent(w1, r.child, now);
        }
    }
  }

  lemma EventKeepsIntent(w: World, e: Event)
    ensures Next(w, e).broker.intent == w.broker.intent && Next(w, e).cfg == w.cfg
  {
    if Runnable(w) {
      match e
      case Pass(now) => PassKeepsIntent(w, now);
      case Begin(now) => CommitKeepsIntent(w, StartRec(now, w.broker.intent));
      case Deliver(f) => CommitKeepsIntent(w, FillRec(f.atNS, f));
      case _ =>
    }
  }

  /** In every run the durable journal is that of an executor run, so all of `Acceptance` applies to it. */
  lemma JournalIsAlwaysSound(cfg: Config, i: Intent, es: seq<Event>)
    requires i.Valid()
    ensures var w := After(FirstWorld(cfg, i), es);
            ReplayLines(w.disk.lines).Some? && ExecRun(Recs(w.disk.lines))
            && Replay(Recs(w.disk.lines)) == Ok(ReplayLines(w.disk.lines).value)
  {
    RunIsSafe(cfg, i, es);
  }

  // ---------------------------------------------------------------- write-ahead

  /** The one record a halted process may be behind has not reached the gateway. */
  ghost predicate LagIsUnsent(w: World) {
    var lines := w.disk.lines;
    w.proc.Some? && lines != [] && ReplayLines(lines) != Some(w.proc.value.state) && lines[|lines| - 1].rec.SendRec? ==>
      w.proc.value.err == Some(Halted) && lines[|lines| - 1].rec.child.key !in SentKeys(w.broker.sends)
  }

  /**
   * The journal runs ahead of the process, never behind: replaying it gives the state in
   * memory, or that state and one more record, which the gateway has not seen. Every child
   * the gateway has seen is in it.
   */
  lemma JournalRunsAhead(cfg: Config, i: Intent, es: seq<Event>)
    requires i.Valid()
    ensures var w := After(FirstWorld(cfg, i), es);
            var lines := w.disk.lines;
            && (w.proc.Some? ==>
                  || ReplayLines(lines) == Some(w.proc.value.state)
                  || (w.proc.value.err == Some(Halted) && lines != []
                      && ReplayLines(lines[..|lines| - 1]) == Some(w.proc.value.state)
                      && (lines[|lines| - 1].rec.SendRec? ==>
                            lines[|lines| - 1].rec.child.key !in SentKeys(w.broker.sends))))
            && (forall c :: c in w.broker.sends ==> c in Durable(w).sent)
  {
    RunIsSafe(cfg, i, es);
    LagStaysUnsent(cfg, i, es);
  }

  lemma {:induction false} LagStaysUnsent(cfg: Config, i: Intent, es: seq<Event>)
    requires i.Valid()
    ensures LagIsUnsent(After(FirstWorld(cfg, i), es))
  {
    if es != [] {
      LagStaysUnsent(cfg, i, es[..|es| - 1]);
      RunIsSafe(cfg, i, es[..|es| - 1]);
      LagStep(After(FirstWorld(cfg, i), es[..|es| - 1]), es[|es| - 1]);
    }
  }

  lemma LagStep(w: World, e: Event)
    requires Safe(w) && LagIsUnsent(w)
    ensures LagIsUnsent(Next(w, e))
  {
    if e.Pass? || e.Begin? || e.Deliver? {
      if Runnable(w) {
        match e
        case Pass(now) => PassLag(w, now);
        case Begin(now) => CommitLag(w, StartRec(now, w.broker.intent));
        case Deliver(f) => CommitLag(w, FillRec(f.atNS, f));
      }
    } else {
      OtherStepsLag(w, e);
    }
  }

  /** What `LagIsUnsent` reads. */
  predicate SameLag(w: World, w1: World) {
    && w1.disk.lines == w.disk.lines && w1.broker.sends == w.broker.sends
    && (w1.proc.Some? ==>
          w.proc.Some? && w1.proc.value.state == w.proc.value.state && w1.proc.value.err == w.proc.value.err)
  }

  lemma SameLagStays(w: World, w1: World)
    requires LagIsUnsent(w) && SameLag(w, w1)
    ensures LagIsUnsent(w1)
  {
  }

  lemma ExecutionSendsNothing(b: Broker, qty: int, atNS: int)
    ensures BrokerFill(b, qty, atNS).0.sends == b.sends
  {
  }

  lemma QuietEventsKeepLag(w: World, e: Event)
    requires !e.Pass? && !e.Begin? && !e.Deliver? && !e.Restart? && !e.Misattribute?
    ensures SameLag(w, Next(w, e))
  {
    if e.Execute? {
      ExecutionSendsNothing(w.broker, e.qty, e.atNS);
    }
  }

  lemma StopKeepsLag(w: World)
    requires LagIsUnsent(w) && w.proc.Some?
    ensures LagIsUnsent(Stopped(w))
  {
    if w.proc.value.err.Some? {
      SameLagStays(w, Stopped(w));
    }
  }

  lemma RestartHasNoLag(w: World)
    requires w.proc == None
    ensures LagIsUnsent(Reopened(w))
  {
  }

  lemma OtherStepsLag(w: World, e: Event)
    requires LagIsUnsent(w) && !e.Pass? && !e.Begin? && !e.Deliver?
    ensures LagIsUnsent(Next(w, e))
  {
    if e.Restart? {
      if w.proc == None {
        RestartHasNoLag(w);
      }
    } else if e.Misattribute? {
      if Runnable(w) {
        StopKeepsLag(w);
      }
    } else {
      QuietEventsKeepLag(w, e);
      SameLagStays(w, Next(w, e));
    }
  }

  lemma CommitLag(w: World, r: Record)
    requires Safe(w) && Runnable(w) && LagIsUnsent(w)
    requires r.SendRec? ==> r.child.key !in SentKeys(w.broker.sends)
    ensures LagIsUnsent(CommitIn(w, r).0)
  {
    var p := w.proc.value;
    if p.err == None && TryCommit(p.state, r).Ok? {
      CommitLines(w, r);
      LevelMeansReplayed(w, r);
    }
  }

  /** After a commit that went through, the journal replays to the new state. */
  lemma LevelMeansReplayed(w: World, r: Record)
    requires Safe(w) && Runnable(w) && w.proc.value.err == None && TryCommit(w.proc.value.state, r).Ok?
    ensures var next := TryCommit(w.proc.value.state, r).value;
            ReplayLines(w.disk.lines + [JLine(JOURNAL_VERSION, w.proc.value.seqNo + 1, r, next)]) == Some(next)
  {
    var next := TryCommit(w.proc.value.state, r).value;
    var more := w.disk.lines + [JLine(JOURNAL_VERSION, w.proc.value.seqNo + 1, r, next)];
    assert more[..|more| - 1] == w.disk.lines;
  }

  lemma QueryLag(w: World, now: int)
    requires Safe(w) && Runnable(w) && LagIsUnsent(w) && w.proc.value.err == None && Sound(w.proc.value.state)
    requires w.proc.value.state.Started() && w.proc.value.state.inFlight.Some?
    ensures LagIsUnsent(QueryIn(w, now).0)
  {
    var (b, v) := BrokerQuery(w.broker);
    if v.Some? {
      QueryIsLinked(w.proc.value.state, w.broker, w.cfg.requireLedgerComplete);
      CommitLag(w.(broker := b), ReconcileRec(now, v.value, w.cfg.requireLedgerComplete));
    }
  }

  lemma PassLag(w: World, now: int)
    requires Safe(w) && Runnable(w) && LagIsUnsent(w)
    ensures LagIsUnsent(PassIn(w, now).0)
  {
    var p := w.proc.value;
    if p.err == None {
      DurableIsSound(w);
      var d := Decide(p.state, InputsOf(w, now));
      DecisionShape(p.state, InputsOf(w, now));
      if d.Query? {
        QueryLag(w, now);
      } else if d.Commit? && d.rec.SendRec? {
        SendLag(w, d.rec, now);
      } else if d.Commit? {
        CommitLag(w, d.rec);
      }
    }
  }

  lemma ReadySendIsUnsent(w: World, r: Record, now: int)
    requires Safe(w) && Runnable(w) && Sound(w.proc.value.state)
    requires r.SendRec? && Decide(w.proc.value.state, InputsOf(w, now)) == Commit(r)
    requires TryCommit(w.proc.value.state, r).Ok? && w.proc.value.err == None
    ensures r.child.key !in SentKeys(w.broker.sends)
  {
    SendIsReady(w.proc.value.state, w.broker, InputsOf(w, now), r);
  }

  lemma SendLag(w: World, r: Record, now: int)
    requires Safe(w) && Runnable(w) && LagIsUnsent(w) && w.proc.value.err == None && Sound(w.proc.value.state)
    requires r.SendRec? && Decide(w.proc.value.state, InputsOf(w, now)) == Commit(r)
    ensures LagIsUnsent(CommitDecided(w, r, now).0)
  {
    if TryCommit(w.proc.value.state, r).Ok? {
      ReadySendIsUnsent(w, r, now);
      CommitLag(w, r);
      var (w1, c) := CommitIn(w, r);
      if c == Committed {
        CommittedSendIsReady(w, r, now);
        AnswerLag(w1, r.child, now);
      }
    }
  }

  lemma SentKeepsLag(w: World, c: Child)
    requires Runnable(w) && w.proc.value.err == None && LagIsUnsent(w)
    ensures LagIsUnsent(w.(broker := BrokerSend(w.broker, c).0))
  {
  }

  lemma AnswerLag(w: World, c: Child, now: int)
    requires Safe(w) && Runnable(w) && LagIsUnsent(w) && w.proc.value.err == None
    requires ReadyToGo(w.proc.value.state, w.broker, c)
    ensures LagIsUnsent(AnswerIn(w, c, now).0)
  {
    var (b, a) := BrokerSend(w.broker, c);
    SentKeepsLag(w, c);
    SentStaysSafe(w, c);
    if a != Killed {
      CommitLag(w.(broker := b), OutcomeFor(c, a, now, w.cfg.requireLedgerComplete));
    }
  }

  lemma UnresolvedDecides(s: State, in_: Inputs)
    requires Priced(s) && s.inFlight.Some?
    ensures s.Started() && s.done == NoReason ==> Decide(s, in_) == Query
    ensures !(s.Started() && s.done == NoReason) ==> Decide(s, in_) == Idle
  {
  }

  lemma CommitSendsNothing(w: World, r: Record)
    requires Runnable(w)
    ensures CommitIn(w, r).0.broker == w.broker
  {
  }

  lemma QuerySendsNothing(w: World, now: int)
    requires Runnable(w)
    ensures QueryIn(w, now).0.broker.sends == w.broker.sends
  {
    var (b, v) := BrokerQuery(w.broker);
    if v.Some? {
      CommitSendsNothing(w.(broker := b), ReconcileRec(now, v.value, w.cfg.requireLedgerComplete));
    }
  }

  /** While a child is unresolved a pass only asks the gateway; it sends nothing, before or after a crash. */
  lemma UnresolvedIsNeverResent(w: World, now: int)
    requires Safe(w) && Runnable(w) && w.proc.value.err == None && Durable(w).inFlight.Some?
    ensures PassIn(w, now).0.broker.sends == w.broker.sends
    ensures Durable(w).Started() && Durable(w).done == NoReason ==>
              Decide(Durable(w), InputsOf(w, now)) == Query
  {
    UnresolvedDecides(w.proc.value.state, InputsOf(w, now));
    QuerySendsNothing(w, now);
  }

  /** A crash and a restart bring back exactly the durable state. */
  lemma RestartRebuilds(cfg: Config, i: Intent, es: seq<Event>)
    requires i.Valid()
    ensures var w, back := After(FirstWorld(cfg, i), es), After(FirstWorld(cfg, i), es + [Crash, Restart]);
            back.proc == Some(Proc(Durable(w), None, None, false, |w.disk.lines|)) && back.disk == w.disk
              && back.broker == w.broker
  {
    RunIsSafe(cfg, i, es);
    var first := FirstWorld(cfg, i);
    assert es + [Crash, Restart] == (es + [Crash]) + [Restart];
    AfterOne(first, es, Crash);
    AfterOne(first, es + [Crash], Restart);
    RestartOf(After(first, es));
  }

  lemma RestartOf(w: World)
    requires ReplayLines(w.disk.lines).Some?
    ensures var back := Next(Next(w, Crash), Restart);
            back.proc == Some(Proc(Durable(w), None, None, false, |w.disk.lines|))
            && back.disk == w.disk && back.broker == w.broker
  {
    var down := w.(proc := None);
    assert Next(w, Crash) == down;
    var back := Reopened(down);
    assert Next(down, Restart) == back;
    assert back == down.(proc := Some(Proc(Durable(w), None, None, false, |w.disk.lines|)));
  }
}
