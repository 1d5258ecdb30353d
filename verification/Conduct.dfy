/**
 * How the executor conducts an order: what each decision requires of the moment, when it must
 * stop, and what that says about every journal (`decide` of `internal/exec/machine.go`).
 */
module Conduct {
  import opened Prices
  import opened Intents
  import opened Machine
  import opened Caps
  import opened Decisions
  import opened Runs
  import opened Executors
  import opened Protocol
  import opened Safety
  import opened Acceptance
  import opened Origins

  // ---------------------------------------------------------------- one decision

  /** A synced book with both sides, no older than the limit and not from the future. */
  predicate FreshBook(top: Option<Top>, now: int, staleAfterNS: int) {
    && top.Some? && top.value.synced && top.value.bid >= 1 && top.value.ask >= 1
    && top.value.atNS <= now <= top.value.atNS + staleAfterNS
  }

  /** What a new order or an amend requires of the moment. */
  predicate MayTrade(s: State, in_: Inputs) {
    && in_.cfg.sendEnabled && !in_.killed && in_.now < s.intent.expiresAtNS
    && s.halt == NoReason && s.filled < s.target && s.brokerFilled < s.target
    && FreshBook(in_.top, in_.now, in_.cfg.staleAfterNS)
  }

  /** A new order stands at the near touch, held to the cap; a seller's may stand lower to fit the room. */
  predicate GoodOpening(s: State, t: Top, c: Child) {
    if s.intent.side == Buy then c.price == Min(t.bid, s.cap)
    else s.cap <= c.price <= Max(t.ask, s.cap)
  }

  /** An amend moves the order by at most one tick towards the cap, and never adds shares. */
  predicate GoodStep(s: State, c: Child) {
    && s.order.Some?
    && var o := s.order.value;
    && c.target == o.key && (o.qty > 0 ==> c.qty <= o.qty)
    && if s.intent.side == Buy then o.price < c.price <= Min(o.price + TickAt(o.price), s.cap)
       else Max(o.price - TickAt(o.price - 1), s.cap) <= c.price < o.price
  }

  /** Every send is decided with sending enabled and nothing unresolved, at its own time. */
  lemma SendNeeds(s: State, in_: Inputs, r: Record)
    requires Priced(s) && Decide(s, in_) == Commit(r) && r.SendRec?
    ensures r.atNS == in_.now && in_.cfg.sendEnabled && s.Started() && s.done == NoReason && s.inFlight == None
    ensures CarriesQuantity(r.child) ==>
              MayTrade(s, in_) && 1 <= r.child.qty <= s.target - Max(s.filled, s.brokerFilled)
  {
    if r.child.action == Submit {
      SubmitNeeds(s, in_, r);
    } else if r.child.action == Amend {
      AmendNeeds(s, in_, r);
    }
  }

  lemma SubmitNeeds(s: State, in_: Inputs, r: Record)
    requires Priced(s) && Decide(s, in_) == Commit(r) && r.SendRec? && r.child.action == Submit
    ensures MayTrade(s, in_) && s.order == None && r.child.target == NoKey
    ensures 1 <= r.child.qty <= s.target - Max(s.filled, s.brokerFilled) && GoodOpening(s, in_.top.value, r.child)
  {
    OpeningFits(s, in_.top.value, E1Room(s, NoKey));
  }

  lemma OpeningFits(s: State, t: Top, room: Exposure)
    requires Priced(s) && s.Started() && t.bid >= 1 && t.ask >= 1
    ensures var (q, price) := FitNewOrder(s, room, s.Remaining(), OpeningPrice(s, t));
            q >= 1 ==> q <= s.Remaining() && GoodOpening(s, t, Child(Submit, "", NoKey, NoKey, q, price))
  {
    CapIsBestGridPrice(s.intent);
    FitIsLargest(s, room, s.Remaining(), OpeningPrice(s, t), 1);
  }

  /** An amend is decided for an order that has rested a full step since the last move. */
  lemma AmendNeeds(s: State, in_: Inputs, r: Record)
    requires Priced(s) && Decide(s, in_) == Commit(r) && r.SendRec? && r.child.action == Amend
    ensures MayTrade(s, in_) && in_.now - s.lastMoveNS >= in_.cfg.stepEveryNS
    ensures 1 <= r.child.qty <= s.target - Max(s.filled, s.brokerFilled) && GoodStep(s, r.child)
  {
    StepIsGood(s, E1Room(s, LineageInHand(s)));
  }

  lemma StepIsGood(s: State, room: Exposure)
    requires Priced(s) && s.Started() && s.order.Some?
    requires AmendQty(s, room) >= 1 && s.intent.Worse(AmendCap(s, room), s.order.value.price)
    ensures GoodStep(s, AmendStep(s, room)) && AmendQty(s, room) <= s.target - Max(s.filled, s.brokerFilled)
  {
  }

  // ---------------------------------------------------------------- when it must stop

  /** Nothing has been heard of the book for 30 seconds, nor has the order moved. */
  predicate BookIsSilent(s: State, in_: Inputs) {
    && (in_.top.Some? && in_.top.value.synced && 0 < in_.top.value.atNS <= in_.now ==>
          in_.top.value.atNS < in_.now - 30 * 1_000_000_000)
    && (!(in_.top.Some? && in_.top.value.synced && 0 < in_.top.value.atNS <= in_.now) ==>
          s.lastMoveNS < in_.now - 30 * 1_000_000_000)
  }

  /** The reason to stop at this moment: the first that holds, or what an earlier answer left behind. */
  predicate MustStop(s: State, in_: Inputs, why: Reason) {
    if s.filled >= s.target then why == DoneFilled
    else if in_.killed then why == DoneKilled
    else if in_.now >= s.intent.expiresAtNS then why == DoneDeadline
    else if s.order.Some? && BookIsSilent(s, in_) then why == DoneStaleBook
    else why == s.halt && why != NoReason
  }

  /** With sending enabled and nothing unresolved, the executor can act. */
  predicate CanAct(s: State, in_: Inputs) {
    s.Started() && s.done == NoReason && s.inFlight == None && in_.cfg.sendEnabled
  }

  /** The record that takes the working order back, or ends the intent when there is none. */
  function StopRecord(s: State, now: int, why: Reason): Record {
    if s.order == None then FinishRec(now, why)
    else
      SendRec(now, Child(Cancel, s.intent.intentID, ChildKey(s.intent.intentID, |s.sent| + 1), s.order.value.key, 0,
        0), why)
  }

  /**
   * When it must stop, at a kill, a deadline, a full target, a silent book or a refusal, it takes the
   * working order back or ends the intent, with that reason; and when it must not, it does so only
   * where no better price or no room is left.
   */
  lemma StopsExactlyWhen(s: State, in_: Inputs, why: Reason)
    requires Priced(s) && CanAct(s, in_)
    ensures MustStop(s, in_, why) ==> Decide(s, in_) == Commit(StopRecord(s, in_.now, why))
    ensures Decide(s, in_) == Commit(StopRecord(s, in_.now, why)) && why !in {DoneCap, DoneE1Caps}
            && why != NoReason ==>
              MustStop(s, in_, why)
    ensures (forall x :: !MustStop(s, in_, x)) && Decide(s, in_) == Commit(StopRecord(s, in_.now, DoneCap)) ==>
              && s.order.Some? && in_.now - s.lastMoveNS >= in_.cfg.stepEveryNS
              && var room := E1Room(s, LineageInHand(s));
              (AmendQty(s, room) < 1 || !s.intent.Worse(AmendCap(s, room), s.order.value.price))
  {
    assert MustStop(s, in_, Closing(s, in_)) || Closing(s, in_) == NoReason;
    if Closing(s, in_) == NoReason {
      assert !MustStop(s, in_, why);
    }
  }

  /** A full target ends the intent even where sending is disabled; and otherwise nothing is decided there. */
  lemma DisabledDecides(s: State, in_: Inputs)
    requires Priced(s) && s.Started() && s.done == NoReason && s.inFlight == None && !in_.cfg.sendEnabled
    ensures Decide(s, in_) ==
            if s.filled >= s.target && s.order == None then Commit(FinishRec(in_.now, DoneFilled)) else Idle
  {
  }

  // ---------------------------------------------------------------- when it must go on

  /** It may trade and has something left: whatever it waits for, it is not this moment's doing. */
  ghost predicate ShouldTrade(s: State, in_: Inputs) {
    && CanAct(s, in_) && (forall why :: !MustStop(s, in_, why))
    && s.target - Max(s.filled, s.brokerFilled) >= 1 && FreshBook(in_.top, in_.now, in_.cfg.staleAfterNS)
  }

  lemma NoStopNoClosing(s: State, in_: Inputs)
    requires forall why :: !MustStop(s, in_, why)
    ensures Closing(s, in_) == NoReason
  {
    assert !MustStop(s, in_, Closing(s, in_));
  }

  /** With no order out it opens one, unless not even one share fits the caps' room: then it ends. */
  lemma OpensWhenItShould(s: State, in_: Inputs)
    requires Priced(s) && ShouldTrade(s, in_) && s.order == None
    ensures var d, room, p := Decide(s, in_), E1Room(s, NoKey), OpeningPrice(s, in_.top.value);
            if 1 <= room.qty && FloorPrice(s, p) <= room.notional
            then d.Commit? && d.rec.SendRec? && d.rec.child.action == Submit && d.rec.reason == OpenReason
            else d == Commit(FinishRec(in_.now, DoneE1Caps))
  {
    NoStopNoClosing(s, in_);
    CapIsBestGridPrice(s.intent);
    FitIsLargest(s, E1Room(s, NoKey), s.Remaining(), OpeningPrice(s, in_.top.value), 1);
  }

  /** An order that has rested a full step is moved, or taken back where it cannot be. */
  lemma MovesWhenItShould(s: State, in_: Inputs)
    requires Priced(s) && ShouldTrade(s, in_) && s.order.Some? && in_.now - s.lastMoveNS >= in_.cfg.stepEveryNS
    ensures var d, room := Decide(s, in_), E1Room(s, LineageInHand(s));
            if AmendQty(s, room) < 1 || !s.intent.Worse(AmendCap(s, room), s.order.value.price)
            then d == Commit(StopRecord(s, in_.now, DoneCap))
            else if E1CapsRefusal(s, AmendStep(s, room)) != Fits
            then d == Commit(StopRecord(s, in_.now, DoneE1Caps))
            else d.Commit? && d.rec.SendRec? && d.rec.child.action == Amend && d.rec.reason == StepReason
  {
    NoStopNoClosing(s, in_);
  }

  /** It waits only when it must not stop, and the order is resting, the book is not fresh or the broker is ahead. */
  lemma WaitsOnlyWhen(s: State, in_: Inputs)
    requires Priced(s) && CanAct(s, in_) && Decide(s, in_) == Idle
    ensures forall why :: !MustStop(s, in_, why)
    ensures || s.target - Max(s.filled, s.brokerFilled) < 1
            || (s.order.Some? && in_.now - s.lastMoveNS < in_.cfg.stepEveryNS)
            || !FreshBook(in_.top, in_.now, in_.cfg.staleAfterNS)
  {
    forall why
      ensures !MustStop(s, in_, why)
    {
      StopsExactlyWhen(s, in_, why);
    }
  }

  // ---------------------------------------------------------------- over every run

  /** What the moment of a decided send must have been: the pass `e` at the world `w`. */
  ghost predicate Authorised(cfg: Config, i: Intent, w: World, e: Event, r: Record)
    requires Runnable(w) && e.Pass? && r.SendRec?
  {
    var s := w.proc.value.state;
    && r.atNS == e.now && cfg.sendEnabled && s.intent == i && s.done == NoReason && s.inFlight == None
    && (CarriesQuantity(r.child) ==>
          && !w.killed && e.now < i.expiresAtNS && s.halt == NoReason && s.filled < i.TargetQty()
          && FreshBook(w.proc.value.top, e.now, cfg.staleAfterNS))
    && (r.child.action == Submit ==> s.order == None && GoodOpening(s, w.proc.value.top.value, r.child))
    && (r.child.action == Amend ==> GoodStep(s, r.child) && e.now - s.lastMoveNS >= cfg.stepEveryNS)
    && (r.child.action == Cancel ==> s.order.Some? && r.child.target == s.order.value.key)
  }

  lemma DecidedIsAuthorised(cfg: Config, i: Intent, w: World, e: Event, r: Record)
    requires Safe(w) && Runnable(w) && e.Pass? && r.SendRec? && w.cfg == cfg && w.broker.intent == i
    requires w.proc.value.err == None && Decide(w.proc.value.state, InputsOf(w, e.now)) == Commit(r)
    ensures Authorised(cfg, i, w, e, r)
  {
    var s, in_ := w.proc.value.state, InputsOf(w, e.now);
    SendNeeds(s, in_, r);
    DecidedSend(s, in_, r);
    if r.child.action == Submit {
      SubmitNeeds(s, in_, r);
    } else if r.child.action == Amend {
      AmendNeeds(s, in_, r);
    }
  }

  /**
   * Every send in any journal was decided by a pass with sending enabled and nothing unresolved; one
   * that carries shares, before the deadline, with the kill switch open, after no refusal and on a
   * fresh book. A submit stood at the touch or the cap, an amend moved a rested order one tick.
   */
  lemma EverySendWasAuthorised(cfg: Config, i: Intent, es: seq<Event>, q: nat) returns (k: nat)
    requires i.Valid()
    requires q < |After(FirstWorld(cfg, i), es).disk.lines| && After(FirstWorld(cfg, i), es).disk.lines[q].rec.SendRec?
    ensures k < |es| && es[k].Pass?
    ensures var w, lines := After(FirstWorld(cfg, i), es[..k]), After(FirstWorld(cfg, i), es).disk.lines;
            && Runnable(w) && w.disk.lines == lines[..q]
            && ReplayLines(lines[..q]) == Some(w.proc.value.state)
            && Authorised(cfg, i, w, es[k], lines[q].rec)
  {
    var first := FirstWorld(cfg, i);
    k := EverySendWasDecided(cfg, i, es, q);
    RunIsSafe(cfg, i, es[..k]);
    IntentIsFixed(first, es[..k]);
    DecidedIsAuthorised(cfg, i, After(first, es[..k]), es[k], After(first, es).disk.lines[q].rec);
  }

  /** An engaged kill switch or a passed deadline: no event journals a send that carries shares. */
  lemma NothingNewAfterKillOrDeadline(w: World, e: Event, q: nat)
    requires Safe(w) && |w.disk.lines| <= q < |Next(w, e).disk.lines|
    requires w.killed || (e.Pass? && e.now >= w.broker.intent.expiresAtNS)
    ensures var r := Next(w, e).disk.lines[q].rec; r.SendRec? ==> !CarriesQuantity(r.child)
  {
    var r := Next(w, e).disk.lines[q].rec;
    if r.SendRec? {
      NewSendIsDecided(w, e, q);
      DecidedIsAuthorised(w.cfg, w.broker.intent, w, e, r);
    }
  }

  // ---------------------------------------------------------------- the rest between moves

  /** Line `p` is the last before line `n` to send shares. */
  ghost predicate LastMove(lines: seq<JLine>, n: int, p: int) {
    && 0 <= p < n <= |lines| && lines[p].rec.SendRec? && CarriesQuantity(lines[p].rec.child)
    && forall j :: p < j < n ==> !(lines[j].rec.SendRec? && CarriesQuantity(lines[j].rec.child))
  }

  lemma LineMoves(s: State, l: JLine)
    requires Apply(s, l.rec) == Ok(l.digest)
    ensures l.rec.SendRec? && CarriesQuantity(l.rec.child) ==> l.digest.lastMoveNS == l.rec.atNS
    ensures !(l.rec.SendRec? && CarriesQuantity(l.rec.child)) && !l.rec.StartRec?
            ==> l.digest.lastMoveNS == s.lastMoveNS
    ensures l.rec.StartRec? ==> !s.Started()
  {
  }

  lemma {:induction false} LastMoveIsRemembered(lines: seq<JLine>, p: int)
    requires ReplayLines(lines).Some? && LastMove(lines, |lines|, p)
    ensures ReplayLines(lines).value.lastMoveNS == lines[p].rec.atNS && ReplayLines(lines).value.Started()
  {
    var n := |lines| - 1;
    LineMoves(ReplayLines(lines[..n]).value, lines[n]);
    if p < n {
      assert LastMove(lines[..n], n, p);
      LastMoveIsRemembered(lines[..n], p);
    }
  }

  /** In every run, an amend is journaled a full step or more after the last send that carried shares. */
  lemma AmendsRest(cfg: Config, i: Intent, es: seq<Event>, p: nat, q: nat)
    requires i.Valid()
    requires var lines := After(FirstWorld(cfg, i), es).disk.lines;
             q < |lines| && lines[q].rec.SendRec? && lines[q].rec.child.action == Amend && LastMove(lines, q, p)
    ensures var lines := After(FirstWorld(cfg, i), es).disk.lines;
            lines[q].rec.atNS - lines[p].rec.atNS >= cfg.stepEveryNS
  {
    var lines := After(FirstWorld(cfg, i), es).disk.lines;
    var k := EverySendWasAuthorised(cfg, i, es, q);
    assert LastMove(lines[..q], q, p);
    LastMoveIsRemembered(lines[..q], p);
  }

  // ---------------------------------------------------------------- refusals and ends are final

  /** A cancel under way knows why it was sent. */
  predicate CancelHasReason(s: State) {
    s.inFlight.Some? && s.inFlight.value.action == Cancel ==> s.inFlightReason != NoReason
  }

  lemma CancelDecidedWithReason(s: State, in_: Inputs, r: Record)
    requires Priced(s) && Decide(s, in_) == Commit(r) && r.SendRec?
    ensures r.reason != NoReason
  {
  }

  /** What one record does to a halt and to an end: a halt stays, an end lets only late fills through. */
  ghost predicate FinalStep(s: State, r: Record, n: State) {
    CancelHasReason(s) ==>
      && CancelHasReason(n)
      && (s.halt != NoReason ==> n.halt != NoReason && !(r.SendRec? && CarriesQuantity(r.child)))
      && (s.done != NoReason ==> r.FillRec? && n.done == s.done && n.sent == s.sent)
  }

  lemma StepIsFinal(s: State, r: Record)
    requires Sound(s) && Builds(s, r) && TryCommit(s, r).Ok?
    ensures FinalStep(s, r, TryCommit(s, r).value)
  {
    if r.SendRec? {
      var in_ :| Decide(s, in_) == Commit(r);
      CancelDecidedWithReason(s, in_, r);
    }
  }

  /** The state after the first `n` records. */
  function StateAt(rs: seq<Record>, n: nat): State
    requires n <= |rs|
  {
    var s := Replay(rs[..n]);
    if s.Ok? then s.value else EMPTY_STATE
  }

  lemma {:induction false} PrefixRuns(rs: seq<Record>, n: nat)
    requires ExecRun(rs) && n <= |rs|
    ensures ExecRun(rs[..n])
  {
    if n == |rs| {
      assert rs[..n] == rs;
    } else {
      assert rs[..|rs| - 1][..n] == rs[..n];
      PrefixRuns(rs[..|rs| - 1], n);
    }
  }

  lemma StepOfRun(rs: seq<Record>, n: nat)
    requires ExecRun(rs) && n < |rs|
    ensures FinalStep(StateAt(rs, n), rs[n], StateAt(rs, n + 1))
  {
    PrefixRuns(rs, n);
    PrefixRuns(rs, n + 1);
    RunIsSound(rs[..n]);
    assert rs[..n + 1][..n] == rs[..n];
    StepIsFinal(StateAt(rs, n), rs[n]);
  }

  /** Halts and ends along states that pass from one to the next by final steps. */
  lemma {:induction false} FinalSteps(ss: seq<State>, rs: seq<Record>, m: nat, n: nat)
    requires |ss| == |rs| + 1 && m <= n <= |rs| && CancelHasReason(ss[m])
    requires forall j :: 0 <= j < |rs| ==> FinalStep(ss[j], rs[j], ss[j + 1])
    ensures CancelHasReason(ss[n])
    ensures ss[m].halt != NoReason ==>
              ss[n].halt != NoReason && forall k :: m <= k < n ==> !(rs[k].SendRec? && CarriesQuantity(rs[k].child))
    ensures ss[m].done != NoReason ==>
              ss[n].done == ss[m].done && ss[n].sent == ss[m].sent && forall k :: m <= k < n ==> rs[k].FillRec?
    decreases n
  {
    if m < n {
      FinalSteps(ss, rs, m, n - 1);
      assert FinalStep(ss[n - 1], rs[n - 1], ss[n - 1 + 1]);
    }
  }

  /**
   * In every run, once a child was refused or a deferred cancel resolved, no shares are sent again;
   * and once the intent has ended, it keeps its reason and only late fills are recorded.
   */
  lemma HaltsAndEndsAreFinal(rs: seq<Record>, m: nat, n: nat)
    requires ExecRun(rs) && m <= n <= |rs|
    ensures StateAt(rs, m).halt != NoReason ==>
              && StateAt(rs, n).halt != NoReason
              && forall k :: m <= k < n ==> !(rs[k].SendRec? && CarriesQuantity(rs[k].child))
    ensures StateAt(rs, m).done != NoReason ==>
              && StateAt(rs, n).done == StateAt(rs, m).done && StateAt(rs, n).sent == StateAt(rs, m).sent
              && forall k :: m <= k < n ==> rs[k].FillRec?
  {
    var ss := seq(|rs| + 1, j requires 0 <= j <= |rs| => StateAt(rs, j));
    forall j | 0 <= j < |rs|
      ensures FinalStep(ss[j], rs[j], ss[j + 1])
    {
      StepOfRun(rs, j);
    }
    assert ss[0] == EMPTY_STATE;
    FinalSteps(ss, rs, 0, m);
    FinalSteps(ss, rs, m, n);
  }

  // ---------------------------------------------------------------- what each record means

  /**
   * Whoever wrote the journal: a send is accepted exactly when nothing is open and it keeps within what
   * was approved.
   */
  ghost predicate SendIsInOrder(s: State, c: Child) {
    && s.Started() && s.done == NoReason && s.inFlight == None && c.intentID == s.intent.intentID
    && c.key != NoKey && (forall d :: d in s.sent ==> d.key != c.key)
    && match c.action
       case Submit => s.order == None && CarriesFittingShares(s, c)
       case Amend => s.order.Some? && c.target == s.order.value.key && CarriesFittingShares(s, c)
       case Cancel => s.order.Some? && c.target == s.order.value.key
       case UnknownAction => false
  }

  /** Shares that are still missing, on the right side of the cap, with no refusal before. */
  predicate CarriesFittingShares(s: State, c: Child) {
    && s.halt == NoReason && c.price >= 1
    && 1 <= c.qty && s.filled + c.qty <= s.target && s.brokerFilled + c.qty <= s.target
    && if s.intent.side == Buy then c.price <= s.cap else c.price >= s.cap
  }

  /** Exactly which records a state accepts. */
  ghost predicate InOrder(s: State, r: Record) {
    match r
    case StartRec(_, i) => !s.Started() && i.Valid()
    case SendRec(_, c, _) => SendIsInOrder(s, c)
    case OutcomeRec(_, o, _) => s.Started() && s.inFlight.Some? && o.key == s.inFlight.value.key
    case ReconcileRec(_, v, _) =>
      s.Started() &&
      (v.order.Some? ==>
         && (exists d :: d in s.sent && d.key == v.order.value.key)
         && if s.intent.side == Buy then v.order.value.price <= s.cap else v.order.value.price >= s.cap)
    case FillRec(_, f) =>
      s.Started() && f.id != NoFillID && f.id !in s.fills && f.qty >= 1 && f.price >= 1
      && exists d :: d in s.sent && d.key == f.key
    case FinishRec(_, reason) =>
      s.Started() && s.done == NoReason && s.inFlight == None && s.order == None && reason != NoReason
  }

  lemma SentKeyMeans(sent: seq<Child>, key: Key)
    ensures SentKey(sent, key) <==> exists d :: d in sent && d.key == key
  {
    if SentKey(sent, key) {
      assert sent[SentIndex(sent, key).value] in sent;
    }
  }

  lemma AcceptsExactly(s: State, r: Record)
    ensures Apply(s, r).Ok? <==> InOrder(s, r)
  {
    match r
    case SendRec(_, c, _) => SentKeyMeans(s.sent, c.key);
    case ReconcileRec(_, v, _) => if v.order.Some? { SentKeyMeans(s.sent, v.order.value.key); }
    case FillRec(_, f) => SentKeyMeans(s.sent, f.key);
    case _ =>
  }

  /** The state that is left when a child's answer resolves it. */
  predicate Resolved(s: State, n: State) {
    n.inFlight == None && n.inFlightStatus == None && n.inFlightReason == NoReason && n.sent == s.sent
  }

  /**
   * What an answer means: an accepted child is the working order, an accepted cancel leaves none and
   * ends the intent or, with a ledger to wait for, halts it; a refused child halts it and keeps the
   * order; anything else is still open, to be asked about and never sent again.
   */
  lemma AnswersMean(s: State, at: int, o: Outcome, deferFinish: bool)
    requires s.Started() && s.inFlight.Some? && o.key == s.inFlight.value.key
    ensures var c, n := s.inFlight.value, Apply(s, OutcomeRec(at, o, deferFinish)).value;
            if o.status == Accepted && c.action == Cancel then
              && Resolved(s, n) && n.order == None
              && n.done == (if deferFinish then s.done else s.inFlightReason)
              && n.halt == (if deferFinish then s.inFlightReason else s.halt)
            else if o.status == Accepted then
              Resolved(s, n) && n.order == Some(Order(c.key, c.price, c.qty)) && n.done == s.done && n.halt == s.halt
            else if o.status == Refused && c.action != Cancel then
              Resolved(s, n) && n.order == s.order && n.done == s.done && n.halt == DoneRefused
            else n == s.(inFlightStatus := Some(Uncertain))
    ensures var n := Apply(s, OutcomeRec(at, o, deferFinish)).value;
            n.filled == s.filled && n.brokerFilled == s.brokerFilled && n.lastMoveNS == s.lastMoveNS
  {
  }

  /** What the broker's view means: its order is the working order, and what it has filled only grows. */
  lemma ViewsMean(s: State, at: int, v: View, deferFinish: bool)
    requires Apply(s, ReconcileRec(at, v, deferFinish)).Ok?
    ensures var n := Apply(s, ReconcileRec(at, v, deferFinish)).value;
            var gone := s.inFlight.Some? && s.inFlight.value.action == Cancel && v.order == None;
            && Resolved(s, n) && n.order == v.order
            && n.brokerFilled >= s.brokerFilled && n.brokerFilled >= v.filledQty
               && n.brokerFilled in {s.brokerFilled, v.filledQty}
            && n.done == (if gone && !deferFinish then s.inFlightReason else s.done)
            && n.halt == (if gone && deferFinish then s.inFlightReason else s.halt)
            && n.filled == s.filled && n.fills == s.fills && n.lastMoveNS == s.lastMoveNS
  {
  }
}
