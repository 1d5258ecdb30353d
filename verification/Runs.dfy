/**
 * Runs of the executor alone, against any gateway: which records it builds
 * (`internal/exec/executor.go`), which states those can reach, and what holds there.
 */
module Runs {
  import opened Intents
  import opened Machine
  import opened Caps
  import opened Decisions

  datatype CommitError = BadTransition | BeyondCaps(why: CapsRefusal)

  /** `commit` without the disk: E1's caps first, for new submits and amends only, then `Apply`. */
  ghost function TryCommit(s: State, r: Record): (res: Result<State, CommitError>)
    ensures Priced(s) && res.Ok? ==> Priced(res.value)
  {
    if r.SendRec? && CarriesQuantity(r.child) && E1CapsRefusal(s, r.child) != Fits then
      Err(BeyondCaps(E1CapsRefusal(s, r.child)))
    else
      match Apply(s, r)
      case Ok(n) => Ok(n)
      case Err(_) => Err(BadTransition)
  }

  /** The records the executor builds in state `s`, whatever the clock, book, gateway and ledger say. */
  ghost predicate Builds(s: State, r: Record)
    requires Priced(s)
  {
    match r
    case StartRec(_, _) => true
    case FillRec(_, _) => true
    case OutcomeRec(_, o, _) => s.inFlight.Some? && o.key == s.inFlight.value.key
    case ReconcileRec(_, _, _) => s.inFlight.Some?
    case SendRec(_, _, _) => exists in_ :: Decide(s, in_) == Commit(r)
    case FinishRec(_, _) => exists in_ :: Decide(s, in_) == Commit(r)
  }

  function Replay(rs: seq<Record>): Result<State, Refusal> {
    if rs == [] then Ok(EMPTY_STATE)
    else
      match Replay(rs[..|rs| - 1])
      case Ok(s) => Apply(s, rs[|rs| - 1])
      case Err(e) => Err(e)
  }

  /** `rs` is what an executor that started from an empty journal may have committed. */
  ghost predicate ExecRun(rs: seq<Record>) {
    if rs == [] then true
    else
      && ExecRun(rs[..|rs| - 1])
      && Replay(rs[..|rs| - 1]).Ok?
      && var s := Replay(rs[..|rs| - 1]).value;
      Priced(s) && Builds(s, rs[|rs| - 1]) && TryCommit(s, rs[|rs| - 1]).Ok?
  }

  // ---------------------------------------------------------------- what every run keeps

  predicate ChildInBounds(i: Intent, c: Child) {
    && c.intentID == i.intentID
    && (CarriesQuantity(c) ==> 1 <= c.qty <= i.TargetQty() && c.price >= 1 && !i.Worse(c.price, i.Cap()))
  }

  predicate UnresolvedIsLast(s: State) {
    s.inFlight.Some? ==>
      && |s.sent| > 0 && s.inFlight.value == s.sent[|s.sent| - 1] && s.done == NoReason
      && (s.inFlight.value.action == Submit ==> s.order == None)
      && (s.inFlight.value.action != Submit ==> s.order.Some? && s.inFlight.value.target == s.order.value.key)
  }

  predicate OrderIsOurs(s: State) {
    s.order.Some? ==> SentKey(s.sent, s.order.value.key) && !s.intent.Worse(s.order.value.price, s.cap)
  }

  ghost predicate CapsKept(i: Intent, sent: seq<Child>) {
    var total := Total(E1Exposure(sent));
    && SumsFit(i, sent)
    && Submits(sent) <= total.qty
    && (Submits(sent) > 0 ==> Judge(i, total) == Fits)
  }

  /** Everything the run says about the children it sent. */
  ghost predicate HistorySound(i: Intent, sent: seq<Child>) {
    && Chained(i.intentID, sent)
    && (forall c :: c in sent ==> ChildInBounds(i, c))
    && CapsKept(i, sent)
  }

  ghost predicate Sound(s: State) {
    && Priced(s)
    && (!s.Started() ==> s == EMPTY_STATE)
    && (s.Started() ==>
          && HistorySound(s.intent, s.sent)
          && s.filled >= 0 && s.brokerFilled >= 0
          && OrderIsOurs(s) && UnresolvedIsLast(s))
  }

  lemma DecidedSend(s: State, in_: Inputs, r: Record)
    requires Priced(s) && Decide(s, in_) == Commit(r) && r.SendRec?
    ensures s.Started() && s.done == NoReason && s.inFlight == None
    ensures r.child.key == NextKey(s) && r.child.intentID == s.intent.intentID && r.child.action != UnknownAction
    ensures r.child.action == Submit ==> s.order == None && r.child.target == NoKey
    ensures r.child.action != Submit ==> s.order.Some? && r.child.target == s.order.value.key
  {
  }

  lemma ChainedAfter(s: State, c: Child)
    requires Chained(s.intent.intentID, s.sent)
    requires c.key == NextKey(s) && c.action != UnknownAction
    requires c.action == Submit ==> c.target == NoKey
    requires c.action != Submit ==> SentKey(s.sent, c.target)
    ensures Chained(s.intent.intentID, s.sent + [c])
  {
    var id, all := s.intent.intentID, s.sent + [c];
    if c.action != Submit {
      KeysAreNumbered(id, s.sent, c.target);
    }
    forall i | 0 <= i < |all|
      ensures all[i] == if i < |s.sent| then s.sent[i] else c
    {
    }
  }

  lemma FitsMeansRoom(i: Intent, t: Exposure)
    requires Judge(i, t) == Fits
    ensures t.qty <= QtyLimit(i) && t.notional <= i.maxNotionalKRW
  {
  }

  /** E1's verdict of `Fits` on a send is exactly what keeps the caps afterwards. */
  lemma CapsAfterSend(s: State, c: Child)
    requires CapsKept(s.intent, s.sent) && Chained(s.intent.intentID, s.sent + [c])
    requires CarriesQuantity(c) ==> c.qty >= 1 && E1CapsRefusal(s, c) == Fits
    ensures CapsKept(s.intent, s.sent + [c])
  {
    if CarriesQuantity(c) {
      TotalAfterSend(s, c);
      FitsMeansRoom(s.intent, Total(E1Exposure(s.sent + [c])));
      SubmitsAreCounted(s, c);
    } else {
      SubmitsAfter(s.sent, c);
      ExposureAfterSend(s, c);
    }
  }

  /** A committed send appends its child, which is then unresolved. */
  lemma SendAppends(s: State, r: Record)
    requires Priced(s) && r.SendRec? && TryCommit(s, r).Ok?
    ensures var n := TryCommit(s, r).value;
            && SendAllowed(s, r.child)
            && n.sent == s.sent + [r.child] && n.inFlight == Some(r.child)
            && n.intent == s.intent && n.cap == s.cap && n.target == s.target
            && n.order == s.order && n.done == s.done && n.filled == s.filled && n.brokerFilled == s.brokerFilled
    ensures CarriesQuantity(r.child) ==> E1CapsRefusal(s, r.child) == Fits
  {
  }

  lemma SendKeepsHistory(s: State, c: Child)
    requires Sound(s) && s.Started() && SendAllowed(s, c)
    requires CarriesQuantity(c) ==> E1CapsRefusal(s, c) == Fits
    requires c.key == NextKey(s) && c.intentID == s.intent.intentID && c.action != UnknownAction
    requires c.action == Submit ==> s.order == None && c.target == NoKey
    requires c.action != Submit ==> s.order.Some? && c.target == s.order.value.key
    ensures HistorySound(s.intent, s.sent + [c])
  {
    ChainedAfter(s, c);
    CapsAfterSend(s, c);
    forall d | d in s.sent + [c]
      ensures ChildInBounds(s.intent, d)
    {
      assert d in s.sent || d == c;
    }
  }

  lemma SendKeepsSound(s: State, r: Record)
    requires Sound(s) && r.SendRec? && Builds(s, r) && TryCommit(s, r).Ok?
    ensures Sound(TryCommit(s, r).value)
  {
    var in_ :| Decide(s, in_) == Commit(r);
    DecidedSend(s, in_, r);
    SendAppends(s, r);
    SendKeepsHistory(s, r.child);
    OrderStaysOurs(s, TryCommit(s, r).value, r.child);
  }

  lemma OrderStaysOurs(s: State, n: State, c: Child)
    requires OrderIsOurs(s) && n.sent == s.sent + [c] && n.order == s.order && n.intent == s.intent && n.cap == s.cap
    ensures OrderIsOurs(n)
  {
    if s.order.Some? {
      var i := SentIndex(s.sent, s.order.value.key).value;
      assert n.sent[i] == s.sent[i];
    }
  }

  lemma StartIsSound(in_: Intent)
    requires in_.Valid()
    ensures Sound(EMPTY_STATE.(intent := in_, cap := in_.Cap(), target := in_.TargetQty()))
  {
    TargetIsLargestThatFits(in_, 1);
    assert E1Exposure([]) == map[];
  }

  lemma UnresolvedIsOurs(s: State)
    requires Sound(s) && s.inFlight.Some?
    ensures var c := s.inFlight.value;
            && SentKey(s.sent, c.key) && ChildInBounds(s.intent, c)
            && (c.action != Cancel ==> CarriesQuantity(c))
  {
    var n := |s.sent| - 1;
    assert s.inFlight.value == s.sent[n] && s.sent[n] in s.sent;
    ChildIsFound(s.intent.intentID, s.sent, n);
  }

  /** The parts of a state that an outcome leaves alone. */
  lemma OutcomeKeepsHistory(s: State, o: Outcome, deferFinish: bool)
    requires s.inFlight.Some?
    ensures var n := ApplyOutcome(s, o, deferFinish);
            && n.sent == s.sent && n.intent == s.intent && n.cap == s.cap && n.target == s.target
            && n.filled == s.filled && n.brokerFilled == s.brokerFilled
  {
  }

  lemma OutcomeKeepsOrder(s: State, o: Outcome, deferFinish: bool)
    requires Sound(s) && s.Started() && s.inFlight.Some?
    ensures OrderIsOurs(ApplyOutcome(s, o, deferFinish)) && UnresolvedIsLast(ApplyOutcome(s, o, deferFinish))
  {
    UnresolvedIsOurs(s);
  }

  lemma OutcomeKeepsSound(s: State, o: Outcome, deferFinish: bool)
    requires Sound(s) && s.inFlight.Some?
    ensures Sound(ApplyOutcome(s, o, deferFinish))
  {
    OutcomeKeepsHistory(s, o, deferFinish);
    OutcomeKeepsOrder(s, o, deferFinish);
  }

  lemma ReconcileKeepsSound(s: State, v: View, deferFinish: bool)
    requires Sound(s) && s.inFlight.Some? && ReconcileAllowed(s, v)
    ensures Sound(ApplyReconcile(s, v, deferFinish))
  {
  }

  lemma FillKeepsSound(s: State, f: Fill)
    requires Sound(s) && s.Started() && FillAllowed(s, f)
    ensures Sound(ApplyFill(s, f))
  {
  }

  lemma StepKeepsSound(s: State, r: Record)
    requires Sound(s) && Builds(s, r) && TryCommit(s, r).Ok?
    ensures Sound(TryCommit(s, r).value)
  {
    match r
    case StartRec(_, in_) => StartIsSound(in_);
    case SendRec(_, _, _) => SendKeepsSound(s, r);
    case OutcomeRec(_, o, deferFinish) => OutcomeKeepsSound(s, o, deferFinish);
    case ReconcileRec(_, v, deferFinish) => ReconcileKeepsSound(s, v, deferFinish);
    case FillRec(_, f) => FillKeepsSound(s, f);
    case FinishRec(_, _) =>
  }

  lemma {:induction false} RunIsSound(rs: seq<Record>)
    requires ExecRun(rs)
    ensures Replay(rs).Ok? && Sound(Replay(rs).value)
  {
    if rs != [] {
      RunIsSound(rs[..|rs| - 1]);
      StepKeepsSound(Replay(rs[..|rs| - 1]).value, rs[|rs| - 1]);
    }
  }
}
