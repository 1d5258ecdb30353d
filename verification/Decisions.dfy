/** The executor's one decision point: `decide` and `fitNewOrder` of `internal/exec/machine.go`. */
module Decisions {
  import opened Prices
  import opened Machine
  import opened Caps

  /** The touch of the latest book snapshot. */
  datatype Top = Top(bid: int, ask: int, atNS: int, synced: bool)

  datatype Config = Config(sendEnabled: bool, requireLedgerComplete: bool, stepEveryNS: int, staleAfterNS: int)

  /** Everything outside the state that a decision reads. */
  datatype Inputs = Inputs(now: int, top: Option<Top>, cfg: Config, killed: bool)

  datatype Decision = Idle | Query | Commit(rec: Record)

  const SILENCE_LIMIT_NS := 30_000_000_000

  /** `Start` makes this hold and nothing changes it: the arithmetic below divides by the cap. */
  predicate Priced(s: State) {
    s.Started() ==> s.intent.Valid() && s.cap == s.intent.Cap() && s.target == s.intent.TargetQty()
  }

  function BookSilentSince(s: State, in_: Inputs): int {
    if in_.top.Some? && in_.top.value.synced && 0 < in_.top.value.atNS <= in_.now then in_.top.value.atNS
    else s.lastMoveNS
  }

  function NextKey(s: State): Key {
    ChildKey(s.intent.intentID, |s.sent| + 1)
  }

  function SendOf(s: State, in_: Inputs, action: Action, qty: int, price: int, reason: Reason): Decision {
    var target := if action != Submit && s.order.Some? then s.order.value.key else NoKey;
    Commit(SendRec(in_.now, Child(action, s.intent.intentID, NextKey(s), target, qty, price), reason))
  }

  function Closing(s: State, in_: Inputs): Reason {
    if s.filled >= s.target then DoneFilled
    else if in_.killed then DoneKilled
    else if in_.now >= s.intent.expiresAtNS then DoneDeadline
    else if s.order.Some? && BookSilentSince(s, in_) < in_.now - SILENCE_LIMIT_NS then DoneStaleBook
    else s.halt
  }

  predicate BookUsable(in_: Inputs) {
    && in_.top.Some?
    && var t := in_.top.value;
    t.synced && t.atNS <= in_.now && in_.now - t.atNS <= in_.cfg.staleAfterNS && t.bid >= 1 && t.ask >= 1
  }

  /** The lineage whose room matters: the working order's, or a new one. */
  function LineageInHand(s: State): Key {
    if s.order.Some? then RootOf(s.sent, s.order.value.key) else NoKey
  }

  function AmendQty(s: State, room: Exposure): int
    requires s.order.Some?
  {
    var o := s.order.value;
    Min(if o.qty > 0 then Min(s.Remaining(), o.qty) else s.Remaining(), room.qty)
  }

  function AmendCap(s: State, room: Exposure): int
    requires s.order.Some?
  {
    var q := AmendQty(s, room);
    if s.intent.side == Buy && q > 0 then Min(s.cap, FloorTick(room.notional / q)) else s.cap
  }

  /** The amend that moves the working order one step. */
  function AmendStep(s: State, room: Exposure): Child
    requires s.order.Some?
  {
    Child(Amend, s.intent.intentID, NextKey(s), s.order.value.key, AmendQty(s, room),
          StepToward(s.intent.side, s.order.value.price, AmendCap(s, room)))
  }

  /** Size of a new order at price `p` in the room: a quantity (below 1: nothing fits) and a price. */
  function FitNewOrder(s: State, room: Exposure, rem: int, p: int): (int, int)
    requires s.cap >= 1 && p >= 1
  {
    var q := Min(rem, room.qty);
    if q < 1 then (0, p)
    else if s.intent.side == Buy then (Min(q, room.notional / p), p)
    else
      var k := if q * s.cap > room.notional then room.notional / s.cap else q;
      if k < 1 then (0, p) else (k, Min(p, FloorTick(room.notional / k)))
  }

  /** The price a new order starts from: the near touch, held to the cap. */
  function OpeningPrice(s: State, t: Top): int {
    var p := if s.intent.side == Sell then t.ask else t.bid;
    if s.intent.Worse(p, s.cap) then s.cap else p
  }

  /** The working order rested a full step: cancel it at its cap, or amend it one tick. */
  function MoveOrder(s: State, in_: Inputs, room: Exposure, why: CapsRefusal): Decision
    requires s.order.Some?
  {
    if in_.now - s.lastMoveNS < in_.cfg.stepEveryNS then Idle
    else if AmendQty(s, room) < 1 || !s.intent.Worse(AmendCap(s, room), s.order.value.price) then
      SendOf(s, in_, Cancel, 0, 0, DoneCap)
    else if why != Fits then SendOf(s, in_, Cancel, 0, 0, DoneE1Caps)
    else if !BookUsable(in_) then Idle
    else
      var step := AmendStep(s, room);
      SendOf(s, in_, Amend, step.qty, step.price, StepReason)
  }

  function OpenOrder(s: State, in_: Inputs, room: Exposure): Decision
    requires s.cap >= 1
  {
    if !BookUsable(in_) then Idle
    else
      var (q, p) := FitNewOrder(s, room, s.Remaining(), OpeningPrice(s, in_.top.value));
      if q < 1 then Commit(FinishRec(in_.now, DoneE1Caps))
      else SendOf(s, in_, Submit, q, p, OpenReason)
  }

  /** `decide`, given the room of the lineage in hand and E1's verdict on the amend step. */
  function DecideGiven(s: State, in_: Inputs, room: Exposure, why: CapsRefusal): Decision
    requires Priced(s)
  {
    if !s.Started() || s.done != NoReason then Idle
    else if s.inFlight != None then Query
    else if s.filled >= s.target && s.order == None then Commit(FinishRec(in_.now, DoneFilled))
    else if !in_.cfg.sendEnabled then Idle
    else if Closing(s, in_) != NoReason then
      if s.order.Some? then SendOf(s, in_, Cancel, 0, 0, Closing(s, in_))
      else Commit(FinishRec(in_.now, Closing(s, in_)))
    else if s.Remaining() < 1 then Idle
    else if s.order.Some? then MoveOrder(s, in_, room, why)
    else OpenOrder(s, in_, room)
  }

  ghost function AmendVerdict(s: State, room: Exposure): CapsRefusal {
    if s.order.Some? then E1CapsRefusal(s, AmendStep(s, room)) else Fits
  }

  ghost function Decide(s: State, in_: Inputs): Decision
    requires Priced(s)
  {
    var room := E1Room(s, LineageInHand(s));
    DecideGiven(s, in_, room, AmendVerdict(s, room))
  }

  method MakeDecision(s: State, in_: Inputs) returns (d: Decision)
    requires Priced(s)
    ensures d == Decide(s, in_)
  {
    var lineage := NoKey;
    if s.order.Some? {
      lineage := FollowToRoot(s.sent, s.order.value.key);
    }
    var room := MeasureRoom(s, lineage);
    var why := Fits;
    if s.order.Some? {
      why := CheckCaps(s, AmendStep(s, room));
    }
    d := DecideGiven(s, in_, room, why);
  }
}
