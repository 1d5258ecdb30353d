/**
 * Where the sends of a journal come from: in every run each was decided by one pass, in the state
 * its earlier lines replay to, with the clock, book, switch and settings of that moment.
 */
module Origins {
  import opened Intents
  import opened Machine
  import opened Decisions
  import opened Gateway
  import opened Runs
  import opened Executors
  import opened Protocol

  // ---------------------------------------------------------------- what one event writes

  /** `more` continues `lines`, and its only new send, if any, comes first and is the decision `d`. */
  ghost predicate WritesOnly(lines: seq<JLine>, more: seq<JLine>, d: Decision) {
    && lines <= more
    && forall q :: |lines| <= q < |more| && more[q].rec.SendRec? ==> q == |lines| && d == Commit(more[q].rec)
  }

  lemma WritesJoin(a: seq<JLine>, b: seq<JLine>, c: seq<JLine>, d: Decision)
    requires WritesOnly(a, b, d) && WritesOnly(b, c, Idle)
    ensures WritesOnly(a, c, d)
  {
    forall q | |a| <= q < |c| && c[q].rec.SendRec?
      ensures q == |a| && d == Commit(c[q].rec)
    {
      if q < |b| {
        assert b[q] == c[q];
      }
    }
  }

  lemma OneLineWrites(lines: seq<JLine>, l: JLine, d: Decision)
    requires l.rec.SendRec? ==> d == Commit(l.rec)
    ensures WritesOnly(lines, lines + [l], d)
  {
  }

  lemma CommitWrites(w: World, r: Record, d: Decision)
    requires Runnable(w) && (r.SendRec? ==> d == Commit(r))
    ensures WritesOnly(w.disk.lines, CommitIn(w, r).0.disk.lines, d)
  {
    var p := w.proc.value;
    if p.err == None && TryCommit(p.state, r).Ok? {
      CommitLines(w, r);
      OneLineWrites(w.disk.lines, JLine(JOURNAL_VERSION, p.seqNo + 1, r, TryCommit(p.state, r).value), d);
    }
  }

  lemma AnswerWrites(w: World, c: Child, now: int)
    requires Runnable(w)
    ensures WritesOnly(w.disk.lines, AnswerIn(w, c, now).0.disk.lines, Idle)
  {
    var (b, a) := BrokerSend(w.broker, c);
    if a != Killed {
      CommitWrites(w.(broker := b), OutcomeFor(c, a, now, w.cfg.requireLedgerComplete), Idle);
    }
  }

  lemma DecidedWrites(w: World, r: Record, now: int)
    requires Runnable(w)
    ensures WritesOnly(w.disk.lines, CommitDecided(w, r, now).0.disk.lines, Commit(r))
  {
    CommitWrites(w, r, Commit(r));
    var (w1, c) := CommitIn(w, r);
    if c == Committed && r.SendRec? {
      AnswerWrites(w1, r.child, now);
      WritesJoin(w.disk.lines, w1.disk.lines, AnswerIn(w1, r.child, now).0.disk.lines, Commit(r));
    }
  }

  lemma QueryWrites(w: World, now: int, d: Decision)
    requires Runnable(w)
    ensures WritesOnly(w.disk.lines, QueryIn(w, now).0.disk.lines, d)
  {
    var (b, v) := BrokerQuery(w.broker);
    if v.Some? {
      CommitWrites(w.(broker := b), ReconcileRec(now, v.value, w.cfg.requireLedgerComplete), d);
    }
  }

  /** What the executor decides at an event: only a pass of a process that is not latched decides anything. */
  ghost function DecisionAt(w: World, e: Event): Decision {
    if e.Pass? && Runnable(w) && w.proc.value.err == None then Decide(w.proc.value.state, InputsOf(w, e.now)) else Idle
  }

  lemma PassWrites(w: World, now: int)
    requires Runnable(w)
    ensures WritesOnly(w.disk.lines, PassIn(w, now).0.disk.lines, DecisionAt(w, Pass(now)))
  {
    if w.proc.value.err == None {
      var d := Decide(w.proc.value.state, InputsOf(w, now));
      if d.Query? {
        QueryWrites(w, now, d);
      } else if d.Commit? {
        DecidedWrites(w, d.rec, now);
      }
    }
  }

  lemma EventWrites(w: World, e: Event)
    ensures WritesOnly(w.disk.lines, Next(w, e).disk.lines, DecisionAt(w, e))
  {
    if Runnable(w) {
      match e
      case Pass(now) => PassWrites(w, now);
      case Begin(now) => CommitWrites(w, StartRec(now, w.broker.intent), DecisionAt(w, e));
      case Deliver(f) => CommitWrites(w, FillRec(f.atNS, f), DecisionAt(w, e));
      case _ =>
    }
  }

  // ---------------------------------------------------------------- every send of a run

  /** A pass at world `w` decided the send at line `q`, which found the lines before it in the journal. */
  ghost predicate DecidedAt(w: World, e: Event, lines: seq<JLine>, q: nat)
    requires q < |lines|
  {
    && e.Pass? && Runnable(w) && w.proc.value.err == None
    && w.disk.lines == lines[..q] && ReplayLines(lines[..q]) == Some(w.proc.value.state)
    && Decide(w.proc.value.state, InputsOf(w, e.now)) == Commit(lines[q].rec)
  }

  lemma NewSendIsDecided(w: World, e: Event, q: nat)
    requires Safe(w) && |w.disk.lines| <= q < |Next(w, e).disk.lines| && Next(w, e).disk.lines[q].rec.SendRec?
    ensures DecidedAt(w, e, Next(w, e).disk.lines, q)
  {
    EventWrites(w, e);
  }

  lemma {:induction false} EverySendWasDecided(cfg: Config, i: Intent, es: seq<Event>, q: nat) returns (k: nat)
    requires i.Valid()
    requires q < |After(FirstWorld(cfg, i), es).disk.lines| && After(FirstWorld(cfg, i), es).disk.lines[q].rec.SendRec?
    ensures k < |es| && DecidedAt(After(FirstWorld(cfg, i), es[..k]), es[k],
            After(FirstWorld(cfg, i), es).disk.lines, q)
  {
    var first := FirstWorld(cfg, i);
    var n := |es| - 1;
    var before, after := After(first, es[..n]), After(first, es);
    RunIsSafe(cfg, i, es[..n]);
    EventWrites(before, es[n]);
    if q < |before.disk.lines| {
      k := EverySendWasDecided(cfg, i, es[..n], q);
      assert es[..n][..k] == es[..k] && after.disk.lines[..q] == before.disk.lines[..q];
    } else {
      k := n;
      NewSendIsDecided(before, es[n], q);
    }
  }
}
