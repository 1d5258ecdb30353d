/**
 * Finishing under `RequireLedgerComplete`: `internal/exec/executor.go` and `resolveCancel` of
 * `internal/exec/machine.go`. A finish is always backed by a completeness check that passed
 * after the last send.
 */
module Completeness {
  import opened Intents
  import opened Machine
  import opened Decisions
  import opened Gateway
  import opened Runs
  import opened Executors
  import opened Protocol

  /** A completeness check passed at or before journal length `n`, and nothing was sent between it and `n`. */
  predicate Backed(lines: seq<JLine>, completeAt: seq<nat>, n: nat)
    requires n <= |lines|
  {
    exists k :: k in completeAt && k <= n && forall j :: k <= j < n ==> !lines[j].rec.SendRec?
  }

  predicate FinishesBacked(lines: seq<JLine>, completeAt: seq<nat>) {
    forall f :: 0 <= f < |lines| && lines[f].rec.FinishRec? ==> Backed(lines, completeAt, f)
  }

  /** A cancel that resolves only halts. */
  predicate Deferred(lines: seq<JLine>) {
    forall j :: 0 <= j < |lines| ==>
      && (lines[j].rec.OutcomeRec? ==> lines[j].rec.deferFinish)
      && (lines[j].rec.ReconcileRec? ==> lines[j].rec.deferFinish)
  }

  predicate Gated(w: World) {
    && w.cfg.requireLedgerComplete
    && Deferred(w.disk.lines)
    && FinishesBacked(w.disk.lines, w.completeAt)
    && (w.proc.Some? && w.proc.value.err == None && w.proc.value.ledgerComplete ==>
          Backed(w.disk.lines, w.completeAt, |w.disk.lines|))
  }

  predicate DeferredRec(r: Record) {
    (r.OutcomeRec? ==> r.deferFinish) && (r.ReconcileRec? ==> r.deferFinish)
  }

  lemma BackedGrows(lines: seq<JLine>, completeAt: seq<nat>, n: nat, l: JLine)
    requires n <= |lines| && Backed(lines, completeAt, n)
    ensures Backed(lines + [l], completeAt, n)
    ensures n == |lines| && !l.rec.SendRec? ==> Backed(lines + [l], completeAt, n + 1)
  {
    var k :| k in completeAt && k <= n && forall j :: k <= j < n ==> !lines[j].rec.SendRec?;
    assert forall j :: k <= j < n ==> (lines + [l])[j] == lines[j];
  }

  lemma LinesGrow(lines: seq<JLine>, completeAt: seq<nat>, l: JLine)
    requires Deferred(lines) && FinishesBacked(lines, completeAt) && DeferredRec(l.rec)
    requires l.rec.FinishRec? ==> Backed(lines, completeAt, |lines|)
    ensures Deferred(lines + [l]) && FinishesBacked(lines + [l], completeAt)
  {
    var more := lines + [l];
    forall f | 0 <= f < |more| && more[f].rec.FinishRec?
      ensures Backed(more, completeAt, f)
    {
      BackedGrows(lines, completeAt, f, l);
    }
  }

  /** Any commit but a send keeps the gate; a send keeps it once `ledgerComplete` is taken back. */
  lemma CommitKeepsGate(w: World, r: Record)
    requires Gated(w) && Runnable(w) && DeferredRec(r) && w.proc.value.err == None
    requires r.FinishRec? ==> w.proc.value.ledgerComplete
    ensures var w1 := CommitIn(w, r).0;
            && w1.cfg == w.cfg && Deferred(w1.disk.lines) && FinishesBacked(w1.disk.lines, w1.completeAt)
            && (r.SendRec? || Gated(w1))
  {
    var p := w.proc.value;
    if TryCommit(p.state, r).Ok? {
      var l := JLine(JOURNAL_VERSION, p.seqNo + 1, r, TryCommit(p.state, r).value);
      CommitLines(w, r);
      LinesGrow(w.disk.lines, w.completeAt, l);
      if p.ledgerComplete {
        BackedGrows(w.disk.lines, w.completeAt, |w.disk.lines|, l);
      }
    }
  }

  lemma PassKeepsGate(w: World, now: int)
    requires Gated(w) && Runnable(w)
    ensures Gated(PassIn(w, now).0)
  {
    var p := w.proc.value;
    if p.err == None {
      var d := Decide(p.state, InputsOf(w, now));
      DecisionShape(p.state, InputsOf(w, now));
      if d.Query? {
        QueryKeepsGate(w, now);
      } else if d.Commit? && d.rec.SendRec? {
        SendKeepsGate(w, d.rec, now);
      } else if d.Commit? && p.ledgerComplete {
        CommitKeepsGate(w, d.rec);
      }
    }
  }

  lemma QueryKeepsGate(w: World, now: int)
    requires Gated(w) && Runnable(w) && w.proc.value.err == None
    ensures Gated(QueryIn(w, now).0)
  {
    var (b, v) := BrokerQuery(w.broker);
    if v.Some? {
      CommitKeepsGate(w.(broker := b), ReconcileRec(now, v.value, true));
    }
  }

  lemma SendKeepsGate(w: World, r: Record, now: int)
    requires Gated(w) && Runnable(w) && w.proc.value.err == None && r.SendRec?
    ensures Gated(CommitDecided(w, r, now).0)
  {
    CommitKeepsGate(w, r);
    var (w1, c) := CommitIn(w, r);
    if c == Committed {
      AnswerKeepsGate(w1, r.child, now);
    }
  }

  /** The answer of a send: whatever happens, the process that survives has lost its completeness. */
  lemma AnswerKeepsGate(w: World, c: Child, now: int)
    requires Runnable(w) && w.cfg.requireLedgerComplete && w.proc.value.err == None
    requires Deferred(w.disk.lines) && FinishesBacked(w.disk.lines, w.completeAt)
    requires w.proc.value.state.inFlight.Some? && w.proc.value.state.inFlight.value.key == c.key
             && w.proc.value.state.Started()
    ensures Gated(AnswerIn(w, c, now).0)
  {
    var (b, a) := BrokerSend(w.broker, c);
    if a != Killed {
      var r := OutcomeFor(c, a, now, true);
      var w1 := w.(broker := b);
      var s := w.proc.value.state;
      assert TryCommit(s, r).Ok?;
      CommitLines(w1, r);
      LinesGrow(w.disk.lines, w.completeAt, JLine(JOURNAL_VERSION, w.proc.value.seqNo + 1, r, TryCommit(s, r).value));
    }
  }

  lemma EventKeepsGate(w: World, e: Event)
    requires Gated(w)
    ensures Gated(Next(w, e))
  {
    match e
    case Pass(now) =>
      if Runnable(w) {
        PassKeepsGate(w, now);
      }
    case Begin(now) =>
      if Runnable(w) && w.proc.value.err == None {
        CommitKeepsGate(w, StartRec(now, w.broker.intent));
      }
    case Deliver(f) =>
      if Runnable(w) && w.proc.value.err == None {
        CommitKeepsGate(w, FillRec(f.atNS, f));
      }
    case SetComplete(complete) =>
      if Runnable(w) && complete {
        MarkKeepsGate(w);
      }
    case _ =>
  }

  lemma MarkKeepsGate(w: World)
    requires Gated(w) && Runnable(w)
    ensures Gated(Completed(w, true))
  {
    var n := |w.disk.lines|;
    var marks := Completed(w, true).completeAt;
    forall f | 0 <= f < n && w.disk.lines[f].rec.FinishRec?
      ensures Backed(w.disk.lines, marks, f)
    {
      var k :| k in w.completeAt && k <= f && forall j :: k <= j < f ==> !w.disk.lines[j].rec.SendRec?;
      assert k in marks;
    }
    if w.proc.value.err == None {
      assert n in marks;
      assert Backed(w.disk.lines, marks, n);
    }
  }

  lemma {:induction false} RunIsGated(cfg: Config, i: Intent, es: seq<Event>)
    requires cfg.requireLedgerComplete
    ensures Gated(After(FirstWorld(cfg, i), es))
  {
    if es != [] {
      RunIsGated(cfg, i, es[..|es| - 1]);
      EventKeepsGate(After(FirstWorld(cfg, i), es[..|es| - 1]), es[|es| - 1]);
    }
  }

  /** With deferred cancels only a finish record ends an intent. */
  lemma {:induction false} DoneNeedsAFinish(lines: seq<JLine>)
    requires Deferred(lines) && ReplayLines(lines).Some? && ReplayLines(lines).value.done != NoReason
    ensures exists f ::
              0 <= f < |lines| && lines[f].rec.FinishRec? && lines[f].rec.reason == ReplayLines(lines).value.done
  {
    var n := |lines| - 1;
    var init := lines[..n];
    if ReplayLines(init).value.done == ReplayLines(lines).value.done {
      DoneNeedsAFinish(init);
      var f :| 0 <= f < n && init[f].rec.FinishRec? && init[f].rec.reason == ReplayLines(init).value.done;
      assert lines[f] == init[f];
    } else {
      assert Apply(ReplayLines(init).value, lines[n].rec) == Ok(ReplayLines(lines).value);
      assert lines[n].rec.FinishRec?;
    }
  }

  /**
   * In every run under `RequireLedgerComplete` an intent that is done has a finish record in
   * its journal, and a completeness check passed before it with no send in between; an
   * accepted cancel alone never ends it.
   */
  lemma DoneIsBacked(cfg: Config, i: Intent, es: seq<Event>)
    requires i.Valid() && cfg.requireLedgerComplete
    ensures var w := After(FirstWorld(cfg, i), es);
            var lines, s := w.disk.lines, Durable(w);
            s.done != NoReason ==>
              exists f, k :: 0 <= f < |lines| && lines[f].rec.FinishRec? && lines[f].rec.reason == s.done
                             && k in w.completeAt && k <= f && forall j :: k <= j < f ==> !lines[j].rec.SendRec?
  {
    var w := After(FirstWorld(cfg, i), es);
    var lines := w.disk.lines;
    RunIsSafe(cfg, i, es);
    RunIsGated(cfg, i, es);
    if Durable(w).done != NoReason {
      DoneNeedsAFinish(lines);
      var f :| 0 <= f < |lines| && lines[f].rec.FinishRec? && lines[f].rec.reason == Durable(w).done;
      assert Backed(lines, w.completeAt, f);
      var k :| k in w.completeAt && k <= f && forall j :: k <= j < f ==> !lines[j].rec.SendRec?;
    }
  }
}
