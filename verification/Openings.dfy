/**
 * The first order of an intent, and which intents `decide` and `commit` agree on for good
 * (`internal/exec/machine.go`, `internal/exec/exposure.go`).
 */
module Openings {
  import opened Prices
  import opened Intents
  import opened Machine
  import opened Caps
  import opened Decisions
  import opened Runs
  import opened Acceptance

  predicate OneLineage(sent: seq<Child>) {
    forall k :: 1 <= k < |sent| ==> sent[k].action != Submit
  }

  lemma {:induction false} OneLineageOneMark(id: string, sent: seq<Child>, n: nat)
    requires Chained(id, sent) && OneLineage(sent) && n <= |sent|
    ensures ExposureUpTo(sent, n).Keys <= {ChildKey(id, 1)}
    decreases n
  {
    if n > 0 {
      OneLineageOneMark(id, sent, n - 1);
      RootIsASubmit(id, sent, n - 1, {});
    }
  }

  /** With one lineage its room is the whole of E1's limits. */
  lemma RoomIsWhole(s: State)
    requires Sound(s) && s.Started() && OneLineage(s.sent) && (s.order == None ==> s.sent == [])
    ensures E1Room(s, LineageInHand(s)) == Exposure(Max(QtyLimit(s.intent), 0), Max(s.intent.maxNotionalKRW, 0))
  {
    var id, m := s.intent.intentID, E1Exposure(s.sent);
    OneLineageOneMark(id, s.sent, |s.sent|);
    if s.order.Some? {
      var k := SentIndex(s.sent, s.order.value.key).value;
      RootIsASubmit(id, s.sent, k, {});
      assert LineageInHand(s) == ChildKey(id, 1);
    }
    assert (m - {LineageInHand(s)}).Keys == {};
  }

  /** An opening order is sized by the whole of E1's limits, which the target fits. */
  lemma OpeningIsFull(s: State, t: Top)
    requires Sound(s) && s.Started() && OneLineage(s.sent) && s.order == None && s.sent == []
    requires t.bid >= 1 && t.ask >= 1
    ensures var room, p := E1Room(s, NoKey), OpeningPrice(s, t);
            FitNewOrder(s, room, s.target, p).0 == s.target
  {
    RoomIsWhole(s);
    assert LineageInHand(s) == NoKey;
    TargetIsLargestThatFits(s.intent, s.target);
    OpeningPriceIsGood(s, t);
    TargetFits(s, E1Room(s, NoKey), OpeningPrice(s, t));
  }

  lemma TargetFits(s: State, room: Exposure, p: int)
    requires Sound(s) && s.Started() && p >= 1 && !s.intent.Worse(p, s.cap)
    requires room == Exposure(Max(QtyLimit(s.intent), 0), Max(s.intent.maxNotionalKRW, 0))
    ensures FitNewOrder(s, room, s.target, p).0 == s.target
  {
    TargetIsLargestThatFits(s.intent, s.target);
    TargetIsLargestThatFits(s.intent, 1);
    CapIsBestGridPrice(s.intent);
    FitIsLargest(s, room, s.target, p, s.target);
    if s.intent.side == Buy {
      ProductGrowsLeft(p, s.cap, s.target);
    }
  }

  // ---------------------------------------------------------------- a run that sent nothing has filled nothing

  predicate UntilFirstSend(s: State) {
    s.sent == [] ==> s.filled == 0 && s.brokerFilled == 0 && s.order == None
  }

  lemma StepUntilFirstSend(s: State, r: Record)
    requires Sound(s) && UntilFirstSend(s) && Builds(s, r) && TryCommit(s, r).Ok?
    ensures UntilFirstSend(TryCommit(s, r).value)
  {
    if r.SendRec? {
      SendAppends(s, r);
    } else if r.FillRec? {
      assert SentKey(s.sent, r.fill.key);
    }
  }

  lemma {:induction false} NothingFilledUnsent(rs: seq<Record>)
    requires ExecRun(rs)
    ensures Replay(rs).Ok? && UntilFirstSend(Replay(rs).value)
  {
    if rs != [] {
      var init := rs[..|rs| - 1];
      NothingFilledUnsent(init);
      RunIsSound(init);
      StepUntilFirstSend(Replay(init).value, rs[|rs| - 1]);
    }
  }

  // ---------------------------------------------------------------- the far end, from the intent alone

  lemma FarEndIsMonotone(i: Intent, low: int, high: int)
    requires low <= high && FarEndInRange(i, low)
    ensures FarEndInRange(i, high)
  {
  }

  lemma FirstSubmitIsWhole(s: State, in_: Inputs, r: Record)
    requires Sound(s) && UntilFirstSend(s) && s.sent == []
    requires Decide(s, in_) == Commit(r) && r.SendRec? && r.child.action == Submit
    ensures r.child.qty == s.intent.TargetQty() && Total(E1Exposure(s.sent)) == ZERO
  {
    OpeningIsFull(s, in_.top.value);
    assert E1Exposure(s.sent) == map[];
  }

  lemma LaterSubmitFits(s: State, r: Record)
    requires Sound(s) && s.Started() && s.sent != [] && r.SendRec?
    ensures SubmitFitsFarEnd(s, r)
  {
    RootIsASubmit(s.intent.intentID, s.sent, 0, {});
    SubmitsArePositive(s.sent, RootIndex(s.intent.intentID, s.sent, 0));
    FarEndIsMonotone(s.intent, Total(E1Exposure(s.sent)).qty,
                     Max(0, r.child.qty) + Total(E1Exposure(s.sent)).qty);
  }

  lemma TargetInRangeSuffices(s: State, in_: Inputs, r: Record)
    requires Sound(s) && UntilFirstSend(s) && OrderIsPriced(s) && Decide(s, in_) == Commit(r)
    requires FarEndInRange(s.intent, s.intent.TargetQty())
    ensures TryCommit(s, r).Ok?
  {
    DecisionsAreAccepted(s, in_, r);
    if r.SendRec? && r.child.action == Submit {
      DecidedSend(s, in_, r);
      if s.sent == [] {
        FirstSubmitIsWhole(s, in_, r);
      } else {
        LaterSubmitFits(s, r);
      }
    }
  }

  /** A run of this intent whose views carry prices of at least 1. */
  ghost predicate PricedRunOf(i: Intent, rs: seq<Record>) {
    ExecRun(rs) && Replay(rs).Ok? && Replay(rs).value.intent == i && forall r :: r in rs ==> PricedView(r)
  }

  /** What is decided after the run is refused by `commit`. */
  ghost predicate RefusedAfter(rs: seq<Record>, in_: Inputs) {
    && Replay(rs).Ok? && Priced(Replay(rs).value)
    && Decide(Replay(rs).value, in_).Commit?
    && TryCommit(Replay(rs).value, Decide(Replay(rs).value, in_).rec).Err?
  }

  ghost predicate NeverRefused(i: Intent) {
    forall rs, in_ :: PricedRunOf(i, rs) ==> !RefusedAfter(rs, in_)
  }

  /** A usable book for the first decision of an intent. */
  function OpeningInputs(i: Intent): Inputs {
    var now := i.expiresAtNS - 1;
    Inputs(now, Some(Top(1, 1, now, true)), Config(true, false, 0, 0), false)
  }

  function Started(i: Intent): State {
    EMPTY_STATE.(intent := i, cap := i.Cap(), target := i.TargetQty())
  }

  /** The first decision with a usable book is a submit of the whole target. */
  lemma OpeningIsDecided(i: Intent) returns (r: Record)
    requires i.Valid()
    ensures Sound(Started(i)) && Priced(Started(i))
    ensures Decide(Started(i), OpeningInputs(i)) == Commit(r)
    ensures r.SendRec? && r.child.action == Submit && r.child.qty == i.TargetQty()
  {
    var s, in_ := Started(i), OpeningInputs(i);
    StartIsSound(i);
    OpeningIsFull(s, in_.top.value);
    r := Decide(s, in_).rec;
  }

  lemma StartIsARun(i: Intent)
    requires i.Valid()
    ensures PricedRunOf(i, [StartRec(0, i)]) && Replay([StartRec(0, i)]).value == Started(i)
  {
    var rs := [StartRec(0, i)];
    assert rs[..0] == [] && Replay([]) == Ok(EMPTY_STATE);
    assert TryCommit(EMPTY_STATE, rs[0]) == Ok(Started(i));
  }

  lemma OtherwiseTheFirstIsRefused(i: Intent)
    requires i.Valid() && !FarEndInRange(i, i.TargetQty())
    ensures PricedRunOf(i, [StartRec(0, i)]) && RefusedAfter([StartRec(0, i)], OpeningInputs(i))
  {
    StartIsARun(i);
    var r := OpeningIsDecided(i);
    DecisionsAreAccepted(Started(i), OpeningInputs(i), r);
    assert E1Exposure([]) == map[];
  }

  /**
   * Whether `decide` and `commit` can ever disagree on an intent is decided before it starts: in
   * every run with priced views every decided record is accepted, if and only if the projected
   * position after the whole target lies inside the inventory range at the far end.
   */
  lemma NeverRefusedExactlyWhen(i: Intent)
    requires i.Valid()
    ensures NeverRefused(i) <==> FarEndInRange(i, i.TargetQty())
  {
    if FarEndInRange(i, i.TargetQty()) {
      forall rs, in_ | PricedRunOf(i, rs)
        ensures !RefusedAfter(rs, in_)
      {
        RunIsSound(rs);
        OrdersStayPriced(rs);
        NothingFilledUnsent(rs);
        var s := Replay(rs).value;
        if Decide(s, in_).Commit? {
          TargetInRangeSuffices(s, in_, Decide(s, in_).rec);
        }
      }
    } else {
      OtherwiseTheFirstIsRefused(i);
    }
  }

  /** An authorized position inside the range is enough. */
  lemma PositionInRangeSuffices(i: Intent)
    requires i.Valid() && i.PositionInRange()
    ensures NeverRefused(i)
  {
    NeverRefusedExactlyWhen(i);
  }
}
