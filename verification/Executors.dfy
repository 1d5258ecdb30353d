/**
 * The executor as a process over a disk and a gateway: `internal/exec/executor.go` and the
 * record level of `internal/exec/journal.go`. The functions describe each operation on a
 * whole `World`; the classes carry the source's fields and are proved to follow them.
 */
module Executors {
  import opened Intents
  import opened Machine
  import opened Caps
  import opened Decisions
  import opened Gateway
  import opened Runs

  /** One journal line; the state digest is the state itself, so equal digests mean equal states. */
  datatype JLine = JLine(v: int, seqNo: nat, rec: Record, digest: State)

  const JOURNAL_VERSION := 1

  /** What becomes of one append: written and synced, failed (with or without the line), or the process dies there. */
  datatype DiskFault = Synced | FailLost | FailKept | CrashLost | CrashKept

  /** The durable lines, and the environment's plan for the coming appends. */
  datatype Disk = Disk(lines: seq<JLine>, plan: seq<DiskFault>)

  function NextFault(d: Disk): DiskFault {
    if d.plan == [] then Synced else d.plan[0]
  }

  function Written(d: Disk, l: JLine): Disk {
    var kept := NextFault(d) in {Synced, FailKept, CrashKept};
    Disk(if kept then d.lines + [l] else d.lines, if d.plan == [] then [] else d.plan[1..])
  }

  /** `replay`: version, sequence, `Apply` and digest of every line. */
  function ReplayLines(lines: seq<JLine>): Option<State> {
    if lines == [] then Some(EMPTY_STATE)
    else
      var n := |lines| - 1;
      match ReplayLines(lines[..n])
      case None => None
      case Some(s) =>
        if lines[n].v == JOURNAL_VERSION && lines[n].seqNo == n + 1 && Apply(s, lines[n].rec) == Ok(lines[n].digest)
        then Some(lines[n].digest) else None
  }

  /** Errors that stop an executor for good. */
  datatype Latch = Halted | Incomplete | Attribution

  /** The process: what a crash loses. */
  datatype Proc = Proc(state: State, top: Option<Top>, err: Option<Latch>, ledgerComplete: bool, seqNo: nat)

  /** `completeAt` remembers at which journal lengths a working process was told it is complete; nothing reads it. */
  datatype World = World(
    cfg: Config, disk: Disk, proc: Option<Proc>, broker: Broker, killed: bool, completeAt: seq<nat>)

  datatype CommitResult = Committed | Rejected(why: CommitError) | Latched(err: Latch) | Died

  ghost predicate Runnable(w: World) {
    w.proc.Some? && Priced(w.proc.value.state)
  }

  /** The journal's append of an accepted record, and only after it the new state. */
  ghost function RecordIn(w: World, r: Record, next: State): (World, CommitResult)
    requires w.proc.Some?
  {
    var p := w.proc.value;
    var disk := Written(w.disk, JLine(JOURNAL_VERSION, p.seqNo + 1, r, next));
    match NextFault(w.disk)
    case Synced => (w.(disk := disk, proc := Some(p.(state := next, seqNo := p.seqNo + 1))), Committed)
    case FailLost => (w.(disk := disk, proc := Some(p.(err := Some(Halted)))), Latched(Halted))
    case FailKept => (w.(disk := disk, proc := Some(p.(err := Some(Halted)))), Latched(Halted))
    case _ => (w.(disk := disk, proc := None), Died)
  }

  /** `commit`: caps, `Apply`, journal, and only then the new state. */
  ghost function CommitIn(w: World, r: Record): (res: (World, CommitResult))
    requires Runnable(w)
    ensures res.1 == Committed ==> Runnable(res.0)
  {
    var p := w.proc.value;
    if p.err.Some? then (w, Latched(p.err.value))
    else
      match TryCommit(p.state, r)
      case Err(why) => (w, Rejected(why))
      case Ok(next) =>
        RecordIn(w, r, next)
  }

  /** The outcome record for an answer: a lost or misaddressed answer counts as uncertain. */
  function OutcomeFor(c: Child, a: Answer, now: int, deferFinish: bool): Record
    requires a != Killed
  {
    var lost := Outcome(c.key, Uncertain, OrderNo(""));
    OutcomeRec(now, if a.Replied? && a.outcome.key == c.key then a.outcome else lost, deferFinish)
  }

  /** `send`: the gateway call for a child already journaled, and the record of its answer. */
  ghost function SendIn(w: World, c: Child, now: int): (res: (World, CommitResult))
    requires Runnable(w)
    ensures res.1 == Committed ==> Runnable(res.0)
  {
    var (b, a) := BrokerSend(w.broker, c);
    var sent := w.(broker := b);
    if a == Killed then (sent.(proc := None), Died)
    else CommitIn(sent, OutcomeFor(c, a, now, w.cfg.requireLedgerComplete))
  }

  /** How one pass of `Tick`'s loop ends: go round again, return nil or an error, or the process is gone. */
  datatype Flow = Again | ReturnNil | ReturnError | ProcessGone

  function FlowOf(r: CommitResult): Flow {
    match r
    case Committed => Again
    case Died => ProcessGone
    case _ => ReturnError
  }

  function InputsOf(w: World, now: int): Inputs
    requires w.proc.Some?
  {
    Inputs(now, w.proc.value.top, w.cfg, w.killed)
  }

  ghost function QueryIn(w: World, now: int): (res: (World, Flow))
    requires Runnable(w)
    ensures res.1 == Again || res.1 == ReturnNil ==> Runnable(res.0)
  {
    var (b, v) := BrokerQuery(w.broker);
    match v
    case None => (w.(broker := b), ReturnError)
    case Some(view) =>
      var (w1, c) := CommitIn(w.(broker := b), ReconcileRec(now, view, w.cfg.requireLedgerComplete));
      (w1, FlowOf(c))
  }

  /** The gateway call of a send just journaled, and what `Tick` does after it. */
  ghost function AnswerIn(w: World, c: Child, now: int): (res: (World, Flow))
    requires Runnable(w)
    ensures res.1 == Again || res.1 == ReturnNil ==> Runnable(res.0)
  {
    var (w1, r) := SendIn(w, c, now);
    if r == Committed && w.cfg.requireLedgerComplete then
      (w1.(proc := Some(w1.proc.value.(ledgerComplete := false))), ReturnNil)
    else (w1, FlowOf(r))
  }

  ghost function CommitDecided(w: World, r: Record, now: int): (res: (World, Flow))
    requires Runnable(w)
    ensures res.1 == Again || res.1 == ReturnNil ==> Runnable(res.0)
  {
    var p := w.proc.value;
    if r.FinishRec? && w.cfg.requireLedgerComplete && !p.ledgerComplete then
      (w.(proc := Some(p.(err := Some(Incomplete)))), ReturnError)
    else
      var (w1, c) := CommitIn(w, r);
      if c != Committed || !r.SendRec? then (w1, FlowOf(c)) else AnswerIn(w1, r.child, now)
  }

  /** One pass of the loop in `Tick`. */
  ghost function PassIn(w: World, now: int): (res: (World, Flow))
    requires Runnable(w)
    ensures res.1 == Again || res.1 == ReturnNil ==> Runnable(res.0)
  {
    if w.proc.value.err.Some? then (w, ReturnError)
    else
      match Decide(w.proc.value.state, InputsOf(w, now))
      case Idle => (w, ReturnNil)
      case Query => QueryIn(w, now)
      case Commit(r) => CommitDecided(w, r, now)
  }

  const MAX_STEPS_PER_TICK := 8

  /** The first `n` passes of the loop in `Tick`; it stops at the first that does not go round again. */
  ghost function Passes(w: World, now: int, n: nat): (res: (World, Flow))
    requires Runnable(w)
    ensures res.1 == Again || res.1 == ReturnNil ==> Runnable(res.0)
  {
    if n == 0 then (w, Again)
    else
      var (w1, flow) := Passes(w, now, n - 1);
      if flow == Again then PassIn(w1, now) else (w1, flow)
  }

  /** The whole loop, which returns nil when it runs out of passes. */
  ghost function TickIn(w: World, now: int): (res: (World, Flow))
    requires Runnable(w)
    ensures res.1 == ReturnNil ==> Runnable(res.0)
  {
    var (w1, flow) := Passes(w, now, MAX_STEPS_PER_TICK);
    (w1, if flow == Again then ReturnNil else flow)
  }

  /** `OnFill`: a repeated id, or a key this intent never sent, changes nothing. */
  ghost function OnFillIn(w: World, f: Fill): (World, CommitResult)
    requires Runnable(w)
  {
    var s := w.proc.value.state;
    if !s.Started() || f.id in s.fills || !SentKey(s.sent, f.key) then (w, Committed)
    else CommitIn(w, FillRec(f.atNS, f))
  }

  /** `SetLedgerComplete`. */
  function Completed(w: World, complete: bool): World
    requires w.proc.Some?
  {
    w.(proc := Some(w.proc.value.(ledgerComplete := complete)),
       completeAt := if complete && w.proc.value.err == None then w.completeAt + [|w.disk.lines|] else w.completeAt)
  }

  // ---------------------------------------------------------------- the objects

  class Journal {
    var lines: seq<JLine>
    var plan: seq<DiskFault>
    var seqNo: nat

    function View(): Disk
      reads this
    {
      Disk(lines, plan)
    }

    /** `OpenJournal` on whole lines; the byte level is in module `JournalBytes`. */
    constructor (d: Disk)
      ensures View() == d && seqNo == |d.lines|
    {
      lines, plan, seqNo := d.lines, d.plan, |d.lines|;
    }

    method Append(r: Record, after: State) returns (fault: DiskFault)
      modifies this
      ensures fault == NextFault(old(View()))
      ensures View() == Written(old(View()), JLine(JOURNAL_VERSION, old(seqNo) + 1, r, after))
      ensures seqNo == old(seqNo) + if fault == Synced then 1 else 0
    {
      fault := Synced;
      if plan != [] {
        fault, plan := plan[0], plan[1..];
      }
      if fault in {Synced, FailKept, CrashKept} {
        lines := lines + [JLine(JOURNAL_VERSION, seqNo + 1, r, after)];
      }
      if fault == Synced {
        seqNo := seqNo + 1;
      }
    }
  }

  class KillSwitch {
    var engaged: bool

    constructor ()
      ensures !engaged
    {
      engaged := false;
    }
  }

  class Executor {
    const cfg: Config
    const j: Journal
    const gw: FakeGateway
    const kill: KillSwitch
    var state: State
    var top: Option<Top>
    var err: Option<Latch>
    var ledgerComplete: bool
    var alive: bool  // false once a simulated kill has unwound the process
    ghost var completeAt: seq<nat>

    ghost function View(): World
      reads this, j, gw, kill
    {
      World(cfg, j.View(), if alive then Some(Proc(state, top, err, ledgerComplete, j.seqNo)) else None,
            gw.View(), kill.engaged, completeAt)
    }

    /** `New`: resumes from the state `OpenJournal` returned. */
    constructor (cfg: Config, j: Journal, state: State, gw: FakeGateway, kill: KillSwitch)
      ensures this.cfg == cfg && this.j == j && this.gw == gw && this.kill == kill
      ensures this.state == state && top == None && err == None && !ledgerComplete && alive && completeAt == []
    {
      this.cfg, this.j, this.state, this.gw, this.kill := cfg, j, state, gw, kill;
      top, err, ledgerComplete, alive, completeAt := None, None, false, true, [];
    }

    method OnBook(t: Top)
      modifies this`top
      ensures top == Some(t)
    {
      top := Some(t);
    }

    method SetLedgerComplete(complete: bool)
      requires alive
      modifies this
      ensures View() == Completed(old(View()), complete)
    {
      ledgerComplete := complete;
      if complete && err == None {
        completeAt := completeAt + [|j.lines|];
      }
    }

    /** The caps of new submits and amends, and the transition: nothing is written yet. */
    method Propose(r: Record) returns (next: Result<State, CommitError>)
      requires Priced(state)
      ensures next == TryCommit(state, r)
    {
      if r.SendRec? && CarriesQuantity(r.child) {
        var why := CheckCaps(state, r.child);
        if why != Fits {
          return Err(BeyondCaps(why));
        }
      }
      var applied := Apply(state, r);
      next := if applied.Ok? then Ok(applied.value) else Err(BadTransition);
    }

    /** Journal first, state after; a failed append latches the executor. */
    method Keep(r: Record, next: State) returns (c: CommitResult)
      requires alive
      modifies this, j
      ensures (View(), c) == RecordIn(old(View()), r, next)
    {
      var fault := j.Append(r, next);
      if fault in {CrashLost, CrashKept} {
        alive := false;
        return Died;
      }
      if fault != Synced {
        err := Some(Halted);
        return Latched(Halted);
      }
      state := next;
      return Committed;
    }

    method Commit(r: Record) returns (c: CommitResult)
      requires Runnable(View())
      modifies this, j
      ensures (View(), c) == CommitIn(old(View()), r)
    {
      if err.Some? {
        return Latched(err.value);
      }
      var next := Propose(r);
      if next.Err? {
        return Rejected(next.error);
      }
      c := Keep(r, next.value);
    }

    method Start(i: Intent, now: int) returns (c: CommitResult)
      requires Runnable(View())
      modifies this, j
      ensures (View(), c) == CommitIn(old(View()), StartRec(now, i))
    {
      c := Commit(StartRec(now, i));
    }

    /** Returns whether the ledger now exceeds the target, beside the commit's result. */
    method OnFill(f: Fill) returns (c: CommitResult, over: bool)
      requires Runnable(View())
      modifies this, j
      ensures (View(), c) == OnFillIn(old(View()), f)
      ensures over <==> View() != old(View()) && c == Committed && state.Overfill() > 0
    {
      if !state.Started() || f.id in state.fills || !SentKey(state.sent, f.key) {
        return Committed, false;
      }
      c := Commit(FillRec(f.atNS, f));
      over := c == Committed && state.Overfill() > 0;
      if c == Committed {
        assert f.id in state.fills && f.id !in old(state.fills);
      }
    }

    method Send(c: Child, now: int) returns (r: CommitResult)
      requires Runnable(View())
      modifies this, j, gw
      ensures (View(), r) == SendIn(old(View()), c, now)
    {
      var a := gw.Send(c);
      if a == Killed {
        alive := false;
        return Died;
      }
      r := Commit(OutcomeFor(c, a, now, cfg.requireLedgerComplete));
    }

    method Reconcile(now: int) returns (flow: Flow)
      requires Runnable(View())
      modifies this, j, gw
      ensures (View(), flow) == QueryIn(old(View()), now)
    {
      var v := gw.Query();
      if v == None {
        return ReturnError;
      }
      var c := Commit(ReconcileRec(now, v.value, cfg.requireLedgerComplete));
      flow := FlowOf(c);
    }

    method SendAndSettle(c: Child, now: int) returns (flow: Flow)
      requires Runnable(View())
      modifies this, j, gw
      ensures (View(), flow) == AnswerIn(old(View()), c, now)
    {
      var r := Send(c, now);
      if r == Committed && cfg.requireLedgerComplete {
        ledgerComplete := false;
        return ReturnNil;
      }
      flow := FlowOf(r);
    }

    method Perform(r: Record, now: int) returns (flow: Flow)
      requires Runnable(View())
      modifies this, j, gw
      ensures (View(), flow) == CommitDecided(old(View()), r, now)
    {
      if r.FinishRec? && cfg.requireLedgerComplete && !ledgerComplete {
        err := Some(Incomplete);
        return ReturnError;
      }
      var c := Commit(r);
      if c != Committed || !r.SendRec? {
        return FlowOf(c);
      }
      flow := SendAndSettle(r.child, now);
    }

    method Pass(now: int) returns (flow: Flow)
      requires Runnable(View())
      modifies this, j, gw
      ensures (View(), flow) == PassIn(old(View()), now)
    {
      if err.Some? {
        return ReturnError;
      }
      var d := MakeDecision(state, Inputs(now, top, cfg, kill.engaged));
      match d
      case Idle => flow := ReturnNil;
      case Query => flow := Reconcile(now);
      case Commit(r) => flow := Perform(r, now);
    }

    method Tick(now: int) returns (flow: Flow)
      requires Runnable(View())
      modifies this, j, gw
      ensures (View(), flow) == TickIn(old(View()), now)
    {
      ghost var start := View();
      flow := Again;
      for steps := 0 to MAX_STEPS_PER_TICK
        invariant Runnable(View()) && flow == Again && (View(), flow) == Passes(start, now, steps)
      {
        ghost var before := View();
        flow := Pass(now);
        NextPass(start, now, steps, before, (View(), flow));
        if flow != Again {
          PassesStop(start, now, steps + 1, MAX_STEPS_PER_TICK);
          return;
        }
      }
      flow := ReturnNil;
    }
  }

  lemma NextPass(start: World, now: int, n: nat, w: World, r: (World, Flow))
    requires Runnable(start) && Runnable(w) && Passes(start, now, n) == (w, Again) && r == PassIn(w, now)
    ensures Passes(start, now, n + 1) == r
  {
  }

  lemma {:induction false} PassesStop(w: World, now: int, k: nat, n: nat)
    requires Runnable(w) && k <= n && Passes(w, now, k).1 != Again
    ensures Passes(w, now, n) == Passes(w, now, k)
    decreases n
  {
    if k < n {
      PassesStop(w, now, k, n - 1);
    }
  }
}
