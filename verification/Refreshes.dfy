/**
 * The system with its real completeness check: ledger refreshes instead of the free completeness
 * event of `Protocol`. An intent ends only behind a refresh that found journal, ledger and broker
 * in agreement and every order terminal, after the last send.
 */
module Refreshes {
  import opened Intents
  import opened Machine
  import opened Decisions
  import opened Gateway
  import opened Runs
  import opened Executors
  import opened Protocol
  import opened Ledger
  import opened Reconciled
  import opened Completeness

  /** A protocol event, or a refresh from a snapshot with the broker's readings. */
  datatype Step = Happens(event: Event) | Refreshes(snap: Snapshot, read: Readings)

  /** Only a refresh may say that the ledger is complete. */
  ghost function Taken(w: World, st: Step): World {
    match st
    case Happens(e) => if e.SetComplete? then w else Next(w, e)
    case Refreshes(snap, read) => if Runnable(w) then RefreshIn(w, snap, read).0 else w
  }

  ghost function Along(w: World, steps: seq<Step>): World {
    if steps == [] then w else Taken(Along(w, steps[..|steps| - 1]), steps[|steps| - 1])
  }

  // ---------------------------------------------------------------- reachable states count their fills

  lemma {:induction false} ReplayedIsTheSum(lines: seq<JLine>)
    requires ReplayLines(lines).Some?
    ensures FilledIsSum(ReplayLines(lines).value)
  {
    if lines == [] {
      assert Amounts(map[], {}) == map[];
    } else {
      var n := |lines| - 1;
      ReplayedIsTheSum(lines[..n]);
      StepKeepsSum(ReplayLines(lines[..n]).value, lines[n].rec);
    }
  }

  /** In every reachable world the process counts exactly the fills it holds. */
  lemma ReachableIsTheSum(w: World)
    requires Safe(w) && Runnable(w)
    ensures FilledIsSum(w.proc.value.state)
  {
    var lines := w.disk.lines;
    if ReplayLines(lines) == Some(w.proc.value.state) {
      ReplayedIsTheSum(lines);
    } else {
      ReplayedIsTheSum(lines[..|lines| - 1]);
    }
  }

  // ---------------------------------------------------------------- every such run is a protocol run

  lemma StepIsARun(w: World, st: Step) returns (es: seq<Event>)
    requires Safe(w)
    ensures After(w, es) == Taken(w, st)
  {
    es := [];
    if st.Happens? {
      if !st.event.SetComplete? {
        AfterOne(w, [], st.event);
        es := [] + [st.event];
      }
    } else if Runnable(w) {
      ReachableIsTheSum(w);
      es := RefreshIsARun(w, st.snap, st.read);
    }
  }

  /** A run with refreshes is a run of the protocol, so everything proved of those holds of it. */
  lemma {:induction false} AlongIsARun(cfg: Config, i: Intent, steps: seq<Step>) returns (es: seq<Event>)
    requires i.Valid()
    ensures After(FirstWorld(cfg, i), es) == Along(FirstWorld(cfg, i), steps)
    ensures Safe(Along(FirstWorld(cfg, i), steps))
  {
    if steps == [] {
      es := [];
    } else {
      var before := AlongIsARun(cfg, i, steps[..|steps| - 1]);
      var more := StepIsARun(Along(FirstWorld(cfg, i), steps[..|steps| - 1]), steps[|steps| - 1]);
      AfterAppend(FirstWorld(cfg, i), before, more);
      es := before + more;
    }
    RunIsSafe(cfg, i, es);
  }

  // ---------------------------------------------------------------- the journal only grows

  lemma CommitExtends(w: World, r: Record)
    requires Runnable(w)
    ensures w.disk.lines <= CommitIn(w, r).0.disk.lines
    ensures CommitIn(w, r).0.completeAt == w.completeAt
  {
    if w.proc.value.err == None && TryCommit(w.proc.value.state, r).Ok? {
      CommitLines(w, r);
    }
  }

  lemma AnswerExtends(w: World, c: Child, now: int)
    requires Runnable(w)
    ensures w.disk.lines <= AnswerIn(w, c, now).0.disk.lines
    ensures AnswerIn(w, c, now).0.completeAt == w.completeAt
  {
    var (b, a) := BrokerSend(w.broker, c);
    if a != Killed {
      CommitExtends(w.(broker := b), OutcomeFor(c, a, now, w.cfg.requireLedgerComplete));
    }
  }

  lemma DecidedExtends(w: World, r: Record, now: int)
    requires Runnable(w)
    ensures w.disk.lines <= CommitDecided(w, r, now).0.disk.lines
    ensures CommitDecided(w, r, now).0.completeAt == w.completeAt
  {
    CommitExtends(w, r);
    var (w1, c) := CommitIn(w, r);
    if c == Committed && r.SendRec? {
      AnswerExtends(w1, r.child, now);
    }
  }

  lemma QueryExtends(w: World, now: int)
    requires Runnable(w)
    ensures w.disk.lines <= QueryIn(w, now).0.disk.lines
    ensures QueryIn(w, now).0.completeAt == w.completeAt
  {
    var (b, v) := BrokerQuery(w.broker);
    if v.Some? {
      CommitExtends(w.(broker := b), ReconcileRec(now, v.value, w.cfg.requireLedgerComplete));
    }
  }

  lemma PassExtends(w: World, now: int)
    requires Runnable(w)
    ensures w.disk.lines <= PassIn(w, now).0.disk.lines
    ensures PassIn(w, now).0.completeAt == w.completeAt
  {
    if w.proc.value.err == None {
      var d := Decide(w.proc.value.state, InputsOf(w, now));
      if d.Query? {
        QueryExtends(w, now);
      } else if d.Commit? {
        DecidedExtends(w, d.rec, now);
      }
    }
  }

  lemma DeliveryExtends(w: World, f: Fill)
    requires Runnable(w)
    ensures w.disk.lines <= OnFillIn(w, f).0.disk.lines
    ensures OnFillIn(w, f).0.completeAt == w.completeAt
  {
    CommitExtends(w, FillRec(f.atNS, f));
  }

  /** Nothing but a completeness mark touches the marks, and nothing takes a line back. */
  lemma EventExtends(w: World, e: Event)
    ensures w.disk.lines <= Next(w, e).disk.lines
    ensures !e.SetComplete? ==> Next(w, e).completeAt == w.completeAt
  {
    if Runnable(w) {
      match e
      case Pass(now) => PassExtends(w, now);
      case Begin(now) => CommitExtends(w, StartRec(now, w.broker.intent));
      case Deliver(f) => DeliveryExtends(w, f);
      case _ =>
    }
  }

  lemma {:induction false} RunExtends(w: World, es: seq<Event>)
    ensures w.disk.lines <= After(w, es).disk.lines
    ensures (forall e :: e in es ==> LedgerEvent(e)) ==> After(w, es).completeAt == w.completeAt
  {
    if es != [] {
      var n := |es| - 1;
      assert es[n] in es;
      RunExtends(w, es[..n]);
      EventExtends(After(w, es[..n]), es[n]);
    }
  }

  lemma StepExtends(w: World, st: Step)
    requires Safe(w)
    ensures w.disk.lines <= Taken(w, st).disk.lines
  {
    var es := StepIsARun(w, st);
    RunExtends(w, es);
  }

  lemma AlongOne(w: World, steps: seq<Step>, n: nat)
    requires n < |steps|
    ensures Along(w, steps[..n + 1]) == Taken(Along(w, steps[..n]), steps[n])
  {
    assert steps[..n + 1][..n] == steps[..n];
  }

  lemma AlongIsSafe(cfg: Config, i: Intent, steps: seq<Step>)
    requires i.Valid()
    ensures Safe(Along(FirstWorld(cfg, i), steps))
  {
    var es := AlongIsARun(cfg, i, steps);
  }

  lemma {:induction false} PrefixesChain<T>(ls: seq<seq<T>>, m: nat, n: nat)
    requires m <= n < |ls| && forall j :: 0 <= j < |ls| - 1 ==> ls[j] <= ls[j + 1]
    ensures ls[m] <= ls[n]
    decreases n
  {
    if m < n {
      PrefixesChain(ls, m, n - 1);
      assert ls[n - 1] <= ls[n - 1 + 1];
    }
  }

  ghost function LinesAlong(w: World, steps: seq<Step>, n: nat): seq<JLine>
    requires n <= |steps|
  {
    Along(w, steps[..n]).disk.lines
  }

  lemma OneStepExtends(cfg: Config, i: Intent, steps: seq<Step>, j: nat)
    requires i.Valid() && j < |steps|
    ensures LinesAlong(FirstWorld(cfg, i), steps, j) <= LinesAlong(FirstWorld(cfg, i), steps, j + 1)
  {
    AlongIsSafe(cfg, i, steps[..j]);
    AlongOne(FirstWorld(cfg, i), steps, j);
    StepExtends(Along(FirstWorld(cfg, i), steps[..j]), steps[j]);
  }

  lemma AlongExtends(cfg: Config, i: Intent, steps: seq<Step>, m: nat, n: nat)
    requires i.Valid() && m <= n <= |steps|
    ensures LinesAlong(FirstWorld(cfg, i), steps, m) <= LinesAlong(FirstWorld(cfg, i), steps, n)
  {
    var first := FirstWorld(cfg, i);
    var ls := seq(|steps| + 1, j requires 0 <= j <= |steps| => LinesAlong(first, steps, j));
    forall j | 0 <= j < |ls| - 1
      ensures ls[j] <= ls[j + 1]
    {
      OneStepExtends(cfg, i, steps, j);
    }
    PrefixesChain(ls, m, n);
  }

  // ---------------------------------------------------------------- every mark is a refresh that agreed

  /** Journal, ledger and broker in agreement after a refresh of `w` to `w1`, and every order terminal. */
  ghost predicate AgreedAndTerminal(w: World, w1: World, snap: Snapshot, read: Readings)
    requires Runnable(w) && Runnable(w1)
  {
    var s, n := w.proc.value.state, w1.proc.value.state;
    && BrokerKeys(w.disk.lines).Some? && OrdersKnown(s, BrokerKeys(w.disk.lines).value)
    && var keys := BrokerKeys(w.disk.lines).value;
    && NumbersOf(snap.orders) == JournalNumbers(keys) && |NumbersOf(snap.orders)| == |snap.orders| == |keys|
    && n.fills.Keys == IdsOfOrders(snap.orders)
    && AllAgree(n, s, keys, snap.orders, read)
    && n.filled == CumulativeOf(snap.orders) == ReadSum(s, keys, snap.orders, read)
    && AllTerminal(s, keys, snap.orders, read)
    && BrokerKeys(w1.disk.lines) == Some(keys)
  }

  /** The step is a refresh that returned nil on a working process, complete, and left the journal at length `k`. */
  ghost predicate CompleteRefresh(w: World, st: Step, k: nat) {
    && st.Refreshes? && Runnable(w) && w.proc.value.err == None
    && var (w1, ok) := RefreshIn(w, st.snap, st.read);
    && ok && Runnable(w1) && w1.proc.value.err == None && w1.proc.value.state.inFlight == None
    && AgreedAndTerminal(w, w1, st.snap, st.read)
    && k == |w1.disk.lines|
  }

  lemma NilRefreshMarks(w: World, snap: Snapshot, read: Readings)
    requires Runnable(w) && FilledIsSum(w.proc.value.state) && RefreshIn(w, snap, read).1
    ensures var w1 := RefreshIn(w, snap, read).0;
            && w1.proc.Some?
            && (w1.completeAt == w.completeAt ||
                (w1.completeAt == w.completeAt + [|w1.disk.lines|]
                 && CompleteRefresh(w, Refreshes(snap, read), |w1.disk.lines|)))
  {
    RefreshAgrees(w, snap, read);
    var w0, end := RefreshShape(w, snap, read);
    OrdersSettle(w, w.proc.value.state, BrokerKeys(w.disk.lines).value, snap.orders, read, Progress({}, {}, true),
      w0, end);
  }

  lemma FailedRefreshMarksNothing(w: World, snap: Snapshot, read: Readings)
    requires Runnable(w) && !RefreshIn(w, snap, read).1
    ensures RefreshIn(w, snap, read).0.completeAt == w.completeAt
  {
    var es := FailedRefreshIsARun(w, snap, read);
    RunExtends(w, es);
  }

  /** A step adds at most the mark of a complete refresh. */
  lemma StepMarks(w: World, st: Step)
    requires Safe(w)
    ensures var w1 := Taken(w, st);
            || w1.completeAt == w.completeAt
            || (w1.completeAt == w.completeAt + [|w1.disk.lines|] && CompleteRefresh(w, st, |w1.disk.lines|))
  {
    match st
    case Happens(e) => EventExtends(w, e);
    case Refreshes(snap, read) =>
      if Runnable(w) {
        ReachableIsTheSum(w);
        if RefreshIn(w, snap, read).1 {
          NilRefreshMarks(w, snap, read);
        } else {
          FailedRefreshMarksNothing(w, snap, read);
        }
      }
  }

  /** Step `m` of the run is a complete refresh at journal length `k`. */
  ghost predicate RefreshedAt(w: World, steps: seq<Step>, m: nat, k: nat)
    requires m < |steps|
  {
    CompleteRefresh(Along(w, steps[..m]), steps[m], k)
  }

  /** An element of a later list that the first lacks was added at some step. */
  lemma {:induction false} AddedAtSomeStep(marks: seq<seq<nat>>, n: nat, k: nat) returns (m: nat)
    requires n < |marks| && marks[0] == [] && k in marks[n]
    ensures m < n && k !in marks[m] && k in marks[m + 1]
    decreases n
  {
    if n > 0 && k in marks[n - 1] {
      m := AddedAtSomeStep(marks, n - 1, k);
    } else {
      m := n - 1;
    }
  }

  ghost function MarksAlong(w: World, steps: seq<Step>, n: nat): seq<nat>
    requires n <= |steps|
  {
    Along(w, steps[..n]).completeAt
  }

  lemma OneStepMarks(cfg: Config, i: Intent, steps: seq<Step>, j: nat) returns (x: nat)
    requires i.Valid() && j < |steps|
    ensures var first := FirstWorld(cfg, i);
            || MarksAlong(first, steps, j + 1) == MarksAlong(first, steps, j)
            || (MarksAlong(first, steps, j + 1) == MarksAlong(first, steps, j) + [x] && RefreshedAt(first, steps, j, x))
  {
    var w := Along(FirstWorld(cfg, i), steps[..j]);
    AlongIsSafe(cfg, i, steps[..j]);
    AlongOne(FirstWorld(cfg, i), steps, j);
    StepMarks(w, steps[j]);
    x := |Taken(w, steps[j]).disk.lines|;
  }

  lemma MarksAreRefreshes(cfg: Config, i: Intent, steps: seq<Step>, k: nat) returns (m: nat)
    requires i.Valid() && k in MarksAlong(FirstWorld(cfg, i), steps, |steps|)
    ensures m < |steps| && RefreshedAt(FirstWorld(cfg, i), steps, m, k)
  {
    var first := FirstWorld(cfg, i);
    var marks := seq(|steps| + 1, j requires 0 <= j <= |steps| => MarksAlong(first, steps, j));
    assert steps[..0] == [];
    m := AddedAtSomeStep(marks, |steps|, k);
    var x := OneStepMarks(cfg, i, steps, m);
    assert x == k;
  }

  // ---------------------------------------------------------------- nothing is ordered after it

  lemma QuietLine(seen: Identities, s: State, l: JLine)
    requires s.inFlight == None && Apply(s, l.rec) == Ok(l.digest) && !l.rec.SendRec?
    ensures l.digest.inFlight == None && Identify(seen, l.rec) == Some(seen)
  {
  }

  /** What the first `n` lines leave: nothing unresolved, and the identities they tell. */
  ghost predicate Quiet(lines: seq<JLine>, n: nat)
    requires n <= |lines|
  {
    ReplayLines(lines[..n]).Some? && ReplayLines(lines[..n]).value.inFlight == None
  }

  ghost predicate StaysQuiet(lines: seq<JLine>, j: nat)
    requires j < |lines|
  {
    Quiet(lines, j) ==> Quiet(lines, j + 1) && IdentifyUpTo(lines, j + 1) == IdentifyUpTo(lines, j)
  }

  lemma QuietStep(lines: seq<JLine>, j: nat)
    requires j < |lines| && ReplayLines(lines[..j + 1]).Some? && !lines[j].rec.SendRec?
    ensures StaysQuiet(lines, j)
  {
    if Quiet(lines, j) {
      assert lines[..j + 1][..j] == lines[..j];
      var seen := IdentifyUpTo(lines, j);
      QuietLine(if seen.Some? then seen.value else Identities(map[], map[]), ReplayLines(lines[..j]).value, lines[j]);
    }
  }

  /** A value that every step from a quiet place keeps, together with the quiet. */
  lemma {:induction false} KeptWhileQuiet<T>(quiet: seq<bool>, values: seq<T>, k: nat, f: nat)
    requires k <= f < |quiet| == |values| && quiet[k]
    requires forall j :: k <= j < f && quiet[j] ==> quiet[j + 1] && values[j + 1] == values[j]
    ensures quiet[f] && values[f] == values[k]
    decreases f
  {
    if k < f {
      KeptWhileQuiet(quiet, values, k, f - 1);
      assert quiet[f - 1 + 1];
    }
  }

  lemma {:induction false} PrefixReplays(lines: seq<JLine>, n: nat)
    requires n <= |lines| && ReplayLines(lines).Some?
    ensures ReplayLines(lines[..n]).Some?
  {
    if n < |lines| {
      assert lines[..|lines| - 1][..n] == lines[..n];
      PrefixReplays(lines[..|lines| - 1], n);
    } else {
      assert lines[..n] == lines;
    }
  }

  lemma SentlessStep(lines: seq<JLine>, j: nat)
    requires j < |lines| && ReplayLines(lines).Some? && !lines[j].rec.SendRec?
    ensures StaysQuiet(lines, j)
  {
    PrefixReplays(lines, j + 1);
    QuietStep(lines, j);
  }

  lemma QuietKeepsIdentities(lines: seq<JLine>, k: nat, f: nat)
    requires k <= f <= |lines| && Quiet(lines, k)
    requires forall j :: k <= j < f ==> StaysQuiet(lines, j)
    ensures IdentifyUpTo(lines, f) == IdentifyUpTo(lines, k)
  {
    var quiet := seq(|lines| + 1, j requires 0 <= j <= |lines| => Quiet(lines, j));
    var values := seq(|lines| + 1, j requires 0 <= j <= |lines| => IdentifyUpTo(lines, j));
    forall j | k <= j < f && quiet[j]
      ensures quiet[j + 1] && values[j + 1] == values[j]
    {
      assert StaysQuiet(lines, j);
    }
    KeptWhileQuiet(quiet, values, k, f);
  }

  /** With nothing unresolved and nothing sent, the journal learns of no further order. */
  lemma NoOrderWithoutASend(lines: seq<JLine>, k: nat, f: nat)
    requires k <= f <= |lines| && Quiet(lines, k) && ReplayLines(lines).Some?
    requires forall j :: k <= j < f ==> !lines[j].rec.SendRec?
    ensures IdentifyUpTo(lines, f) == IdentifyUpTo(lines, k)
  {
    forall j | k <= j < f
      ensures StaysQuiet(lines, j)
    {
      SentlessStep(lines, j);
    }
    QuietKeepsIdentities(lines, k, f);
  }

  lemma {:induction false} IdentifyIsLocal(lines: seq<JLine>, n: nat, k: nat)
    requires k <= n <= |lines|
    ensures IdentifyUpTo(lines[..n], k) == IdentifyUpTo(lines, k)
    decreases k
  {
    if k > 0 {
      IdentifyIsLocal(lines, n, k - 1);
    }
  }

  lemma SameOrdersAtTheFinish(lines: seq<JLine>, k: nat, f: nat)
    requires k <= f <= |lines| && ReplayLines(lines).Some? && Quiet(lines, k)
    requires forall j :: k <= j < f ==> !lines[j].rec.SendRec?
    ensures BrokerKeys(lines[..f]) == BrokerKeys(lines[..k])
  {
    NoOrderWithoutASend(lines, k, f);
    IdentifyIsLocal(lines, f, f);
    IdentifyIsLocal(lines, k, k);
  }

  // ---------------------------------------------------------------- the theorem

  /**
   * Record `f` of the journal finishes the intent, step `m` of the run was a complete refresh that
   * left the journal at length `k`, nothing was sent in between, and the orders the journal knows
   * at the finish are those the refresh found terminal.
   */
  ghost predicate FinishedBehind(cfg: Config, i: Intent, steps: seq<Step>, m: nat, k: nat, f: nat)
    requires m < |steps|
  {
    var first := FirstWorld(cfg, i);
    var lines := Along(first, steps).disk.lines;
    && k <= f < |lines|
    && lines[f].rec.FinishRec? && lines[f].rec.reason == Durable(Along(first, steps)).done
    && RefreshedAt(first, steps, m, k)
    && lines[..k] == Along(first, steps[..m + 1]).disk.lines
    && (forall j :: k <= j < f ==> !lines[j].rec.SendRec?)
    && BrokerKeys(lines[..f]) == BrokerKeys(lines[..k])
  }

  lemma RefreshIsThere(cfg: Config, i: Intent, steps: seq<Step>, m: nat, k: nat)
    requires i.Valid() && m < |steps| && RefreshedAt(FirstWorld(cfg, i), steps, m, k)
    ensures var lines := LinesAlong(FirstWorld(cfg, i), steps, |steps|);
            k <= |lines| && lines[..k] == LinesAlong(FirstWorld(cfg, i), steps, m + 1) && Quiet(lines, k)
  {
    AlongExtends(cfg, i, steps, m + 1, |steps|);
    RefreshEndsQuiet(cfg, i, steps, m, k);
    QuietPrefix(LinesAlong(FirstWorld(cfg, i), steps, m + 1), LinesAlong(FirstWorld(cfg, i), steps, |steps|));
  }

  lemma QuietPrefix(left: seq<JLine>, lines: seq<JLine>)
    requires left <= lines && ReplayLines(left).Some? && ReplayLines(left).value.inFlight == None
    ensures lines[..|left|] == left && Quiet(lines, |left|)
  {
    assert lines[..|left|] == left;
  }

  lemma RefreshEndsQuiet(cfg: Config, i: Intent, steps: seq<Step>, m: nat, k: nat)
    requires i.Valid() && m < |steps| && RefreshedAt(FirstWorld(cfg, i), steps, m, k)
    ensures var left := LinesAlong(FirstWorld(cfg, i), steps, m + 1);
            k == |left| && ReplayLines(left).Some? && ReplayLines(left).value.inFlight == None
  {
    AlongOne(FirstWorld(cfg, i), steps, m);
    AlongIsSafe(cfg, i, steps[..m + 1]);
    RefreshedIsQuiet(Along(FirstWorld(cfg, i), steps[..m]), steps[m], k);
  }

  /** The journal a complete refresh leaves replays to a state with nothing unresolved. */
  lemma RefreshedIsQuiet(w: World, st: Step, k: nat)
    requires CompleteRefresh(w, st, k) && Safe(Taken(w, st))
    ensures var lines := Taken(w, st).disk.lines;
            k == |lines| && ReplayLines(lines).Some? && ReplayLines(lines).value.inFlight == None
  {
  }

  /**
   * With the ledger required, in every run of ticks, crashes, restarts, faults, executions and
   * refreshes an intent that is done was finished by a record behind a refresh that returned nil:
   * journal, ledger and broker agreed, every order was terminal, nothing was sent since, and no
   * further order is known at the finish. An accepted cancel alone never ends it.
   */
  lemma DoneNeedsARefresh(cfg: Config, i: Intent, steps: seq<Step>) returns (m: nat, k: nat, f: nat)
    requires i.Valid() && cfg.requireLedgerComplete
    requires Durable(Along(FirstWorld(cfg, i), steps)).done != NoReason
    ensures m < |steps| && FinishedBehind(cfg, i, steps, m, k, f)
  {
    assert steps[..|steps|] == steps;
    k, f := FinishIsBacked(cfg, i, steps);
    m := MarksAreRefreshes(cfg, i, steps, k);
    RefreshIsThere(cfg, i, steps, m, k);
    var es := AlongIsARun(cfg, i, steps);
    SameOrdersAtTheFinish(LinesAlong(FirstWorld(cfg, i), steps, |steps|), k, f);
  }

  /** The finish record and the completeness mark behind it. */
  lemma FinishIsBacked(cfg: Config, i: Intent, steps: seq<Step>) returns (k: nat, f: nat)
    requires i.Valid() && cfg.requireLedgerComplete
    requires Durable(Along(FirstWorld(cfg, i), steps)).done != NoReason
    ensures var w := Along(FirstWorld(cfg, i), steps);
            var lines := w.disk.lines;
            && ReplayLines(lines).Some? && k <= f < |lines|
            && lines[f].rec.FinishRec? && lines[f].rec.reason == Durable(w).done
            && k in w.completeAt && forall j :: k <= j < f ==> !lines[j].rec.SendRec?
  {
    var es := AlongIsARun(cfg, i, steps);
    var w := Along(FirstWorld(cfg, i), steps);
    var lines := w.disk.lines;
    DoneIsBacked(cfg, i, es);
    f, k :| 0 <= f < |lines| && lines[f].rec.FinishRec? && lines[f].rec.reason == Durable(w).done
            && k in w.completeAt && k <= f && forall j :: k <= j < f ==> !lines[j].rec.SendRec?;
  }
}
