/** The executor's state machine: types, `Apply` and `decide` of `internal/exec/machine.go`. */
module Machine {
  import opened Prices
  import opened Intents

  datatype Option<+T> = None | Some(value: T)

  datatype Result<+T, +E> = Ok(value: T) | Err(error: E)

  /** Idempotency keys. `ChildKey(id, n)` is the text `id:n`; keeping it a term makes the format injective. */
  datatype Key = NoKey | ChildKey(intent: string, n: nat) | ForeignKey(text: string)

  datatype Action = Submit | Amend | Cancel | UnknownAction

  datatype Status = Accepted | Uncertain | Sending | Refused | Conflict | UnknownStatus

  /** Finish, halt and send reasons; `NoReason` is the empty string. */
  datatype Reason =
    NoReason | DoneFilled | DoneCap | DoneDeadline | DoneKilled | DoneRefused | DoneStaleBook | DoneE1Caps
    | OpenReason | StepReason | OtherReason(text: string)

  /** Broker order numbers: `OrderNo` as KIS writes them, `FakeNo` as the fake gateway does. */
  datatype OrderNumber = OrderNo(text: string) | FakeNo(key: Key)

  datatype FillID = NoFillID | FakeFill(n: nat) | LedgerID(text: string)

  datatype Child = Child(action: Action, intentID: string, key: Key, target: Key, qty: int, price: int)

  datatype Outcome = Outcome(key: Key, status: Status, brokerOrder: OrderNumber)

  datatype Order = Order(key: Key, price: int, qty: int)

  datatype View = View(order: Option<Order>, filledQty: int)

  datatype Fill = Fill(id: FillID, key: Key, qty: int, price: int, atNS: int)

  datatype Record =
    | StartRec(atNS: int, intent: Intent)
    | SendRec(atNS: int, child: Child, reason: Reason)
    | OutcomeRec(atNS: int, outcome: Outcome, deferFinish: bool)
    | ReconcileRec(atNS: int, view: View, deferFinish: bool)
    | FillRec(atNS: int, fill: Fill)
    | FinishRec(atNS: int, reason: Reason)

  datatype State = State(
    intent: Intent, cap: int, target: int,
    filled: int, fillNotional: int, fills: map<FillID, Fill>, brokerFilled: int,
    sent: seq<Child>, order: Option<Order>,
    inFlight: Option<Child>, inFlightStatus: Option<Status>, inFlightReason: Reason,
    lastMoveNS: int, halt: Reason, done: Reason)
  {
    predicate Started() { intent.intentID != "" }

    /** What may still be sent. */
    function Remaining(): int { target - Max(filled, brokerFilled) }

    function Overfill(): int { Max(filled - target, 0) }
  }

  const NO_INTENT := Intent("", Buy, 0, 0, 0, 0, 0, Inventory(0, 0, 0), false)

  const EMPTY_STATE := State(NO_INTENT, 0, 0, 0, 0, map[], 0, [], None, None, None, NoReason, 0, NoReason, NoReason)

  /** The first child sent with `key`. */
  function SentIndex(sent: seq<Child>, key: Key): (i: Option<nat>)
    ensures i.Some? ==> i.value < |sent| && sent[i.value].key == key
                        && forall j :: 0 <= j < i.value ==> sent[j].key != key
    ensures i.None? ==> forall j :: 0 <= j < |sent| ==> sent[j].key != key
  {
    if sent == [] then None
    else if sent[0].key == key then Some(0)
    else
      match SentIndex(sent[1..], key)
      case None => None
      case Some(j) => Some(j + 1)
  }

  predicate SentKey(sent: seq<Child>, key: Key) {
    SentIndex(sent, key).Some?
  }

  // ---------------------------------------------------------------- Apply

  /** A cancel resolved: finish with its reason, or halt with it when finishing is deferred. */
  function ResolveCancel(s: State, reason: Reason, deferFinish: bool): State {
    if deferFinish then s.(halt := reason) else s.(done := reason)
  }

  function ClearInFlight(s: State): State {
    s.(inFlight := None, inFlightStatus := None, inFlightReason := NoReason)
  }

  predicate SendAllowed(s: State, c: Child) {
    && s.done == NoReason && s.inFlight == None
    && c.intentID == s.intent.intentID
    && c.key != NoKey && !SentKey(s.sent, c.key)
    && c.action != UnknownAction
    && (c.action == Submit || c.action == Amend ==>
          && s.halt == NoReason
          && 1 <= c.qty <= s.Remaining() && c.price >= 1 && !s.intent.Worse(c.price, s.cap)
          && (c.action == Submit <==> s.order == None))
    && (c.action != Submit ==> s.order.Some? && c.target == s.order.value.key)
  }

  predicate FillAllowed(s: State, f: Fill) {
    f.id != NoFillID && f.qty >= 1 && f.price >= 1 && f.id !in s.fills && SentKey(s.sent, f.key)
  }

  predicate ReconcileAllowed(s: State, v: View) {
    v.order.Some? ==> SentKey(s.sent, v.order.value.key) && !s.intent.Worse(v.order.value.price, s.cap)
  }

  function ApplySend(s: State, r: Record): State
    requires r.SendRec?
  {
    var moved := if r.child.action == Cancel then s else s.(lastMoveNS := r.atNS);
    moved.(sent := s.sent + [r.child], inFlight := Some(r.child), inFlightStatus := Some(Sending),
           inFlightReason := r.reason)
  }

  function ApplyOutcome(s: State, o: Outcome, deferFinish: bool): State
    requires s.inFlight.Some?
  {
    var c := s.inFlight.value;
    if o.status == Accepted && c.action == Cancel then
      ClearInFlight(ResolveCancel(s.(order := None), s.inFlightReason, deferFinish))
    else if o.status == Accepted then
      ClearInFlight(s.(order := Some(Order(c.key, c.price, c.qty))))
    else if o.status == Refused && c.action != Cancel then
      ClearInFlight(s.(halt := DoneRefused))
    else
      s.(inFlightStatus := Some(Uncertain))
  }

  function ApplyReconcile(s: State, v: View, deferFinish: bool): State {
    var n := s.(order := v.order, brokerFilled := Max(s.brokerFilled, v.filledQty));
    var m := if s.inFlight.Some? && s.inFlight.value.action == Cancel && v.order == None
             then ResolveCancel(n, s.inFlightReason, deferFinish) else n;
    ClearInFlight(m)
  }

  function ApplyFill(s: State, f: Fill): State {
    s.(fills := s.fills[f.id := f], filled := s.filled + f.qty, fillNotional := s.fillNotional + f.qty * f.price)
  }

  datatype Refusal = Transition

  /** The only function that changes a state. */
  function Apply(s: State, r: Record): Result<State, Refusal> {
    if !r.StartRec? && !s.Started() then Err(Transition)
    else
      match r
      case StartRec(_, intent) =>
        if s.Started() || !intent.Valid() then Err(Transition)
        else Ok(EMPTY_STATE.(intent := intent, cap := intent.Cap(), target := intent.TargetQty()))
      case SendRec(_, c, _) =>
        if SendAllowed(s, c) then Ok(ApplySend(s, r)) else Err(Transition)
      case OutcomeRec(_, o, deferFinish) =>
        if s.inFlight == None || o.key != s.inFlight.value.key then Err(Transition)
        else Ok(ApplyOutcome(s, o, deferFinish))
      case ReconcileRec(_, v, deferFinish) =>
        if ReconcileAllowed(s, v) then Ok(ApplyReconcile(s, v, deferFinish)) else Err(Transition)
      case FillRec(_, f) =>
        if FillAllowed(s, f) then Ok(ApplyFill(s, f)) else Err(Transition)
      case FinishRec(_, reason) =>
        if s.done != NoReason || s.inFlight != None || reason == NoReason || s.order != None then Err(Transition)
        else Ok(s.(done := reason))
  }

  /** Only a fill record touches the fills. */
  lemma OthersKeepFills(s: State, r: Record)
    requires Apply(s, r).Ok? && !r.FillRec? && !r.StartRec?
    ensures var n := Apply(s, r).value;
            n.fills == s.fills && n.filled == s.filled && n.fillNotional == s.fillNotional
  {
  }
}
