/**
 * E1's cumulative caps as the executor mirrors them: `internal/exec/exposure.go`.
 * The functions say what each computation means; the methods are the loops, proved to compute it.
 */
module Caps {
  import opened Prices
  import opened Intents
  import opened Machine

  datatype Exposure = Exposure(qty: int, notional: int)

  datatype CapsRefusal = Fits | QuantityCap | NotionalCap | InventoryCap

  const ZERO := Exposure(0, 0)

  function Plus(a: Exposure, b: Exposure): Exposure {
    Exposure(a.qty + b.qty, a.notional + b.notional)
  }

  /** High-water mark of `e` after a child of quantity and price `c.qty`, `c.price`. */
  function Widen(e: Exposure, c: Child): Exposure {
    Exposure(Max(e.qty, c.qty), Max(e.notional, c.qty * c.price))
  }

  function At(m: map<Key, Exposure>, k: Key): Exposure {
    if k in m then m[k] else ZERO
  }

  function SentKeys(sent: seq<Child>): set<Key> {
    set c | c in sent :: c.key
  }

  /** Follow target keys from `key`, giving up on a key already `seen`. */
  function RootFrom(sent: seq<Child>, key: Key, seen: set<Key>): Key
    decreases SentKeys(sent) - seen
  {
    if key in seen then key
    else
      match SentIndex(sent, key)
      case None => key
      case Some(i) =>
        if sent[i].target == NoKey then key
        else
          assert sent[i] in sent;
          assert key in SentKeys(sent) - seen;
          RootFrom(sent, sent[i].target, seen + {key})
  }

  function RootOf(sent: seq<Child>, key: Key): Key {
    RootFrom(sent, key, {})
  }

  predicate CarriesQuantity(c: Child) {
    c.action == Submit || c.action == Amend
  }

  /** The high-water marks over the first `n` children; lineages are taken from all of `sent`. */
  function ExposureUpTo(sent: seq<Child>, n: nat): map<Key, Exposure>
    requires n <= |sent|
  {
    if n == 0 then map[]
    else
      var m := ExposureUpTo(sent, n - 1);
      var c := sent[n - 1];
      if CarriesQuantity(c) then
        var root := RootOf(sent, c.key);
        m[root := Widen(At(m, root), c)]
      else m
  }

  function E1Exposure(sent: seq<Child>): map<Key, Exposure> {
    ExposureUpTo(sent, |sent|)
  }

  /** The sum over a set of lineages; `TotalWithout` makes the order of summation irrelevant. */
  ghost function Total<K>(m: map<K, Exposure>): Exposure
    decreases m.Keys
  {
    if m.Keys == {} then ZERO
    else
      var k :| k in m.Keys;
      Plus(m[k], Total(m - {k}))
  }

  lemma {:induction false} TotalWithout<K>(m: map<K, Exposure>, k: K)
    requires k in m
    ensures Total(m) == Plus(m[k], Total(m - {k}))
    decreases m.Keys
  {
    var j :| j in m.Keys && Total(m) == Plus(m[j], Total(m - {j}));
    if j != k {
      var mj, mk := m - {j}, m - {k};
      assert k in mj && mj[k] == m[k] && j in mk && mk[j] == m[j];
      TotalWithout(mj, k);
      TotalWithout(mk, j);
      assert mj - {k} == mk - {j};
      assert Total(m) == Plus(m[j], Plus(m[k], Total(mj - {k})));
      assert Total(m) == Plus(m[k], Total(mk));
    }
  }

  lemma WithoutAbsent(m: map<Key, Exposure>, k: Key)
    requires k !in m
    ensures m - {k} == m
  {
    assert (m - {k}).Keys == m.Keys;
  }

  lemma TotalSplit(m: map<Key, Exposure>, k: Key)
    ensures Total(m) == Plus(At(m, k), Total(m - {k}))
  {
    if k in m {
      TotalWithout(m, k);
    } else {
      WithoutAbsent(m, k);
      var t := Total(m);
      assert Plus(ZERO, t) == t;
    }
  }

  lemma TotalOfUpdate(m: map<Key, Exposure>, k: Key, e: Exposure)
    ensures Total(m[k := e]) == Plus(e, Total(m - {k}))
  {
    var u := m[k := e];
    assert u - {k} == m - {k};
    TotalSplit(u, k);
  }

  lemma {:induction false} TotalIsNonNegative(m: map<Key, Exposure>)
    requires forall k :: k in m ==> m[k].qty >= 0 && m[k].notional >= 0
    ensures Total(m).qty >= 0 && Total(m).notional >= 0
    decreases m.Keys
  {
    if m.Keys != {} {
      var k :| k in m.Keys;
      TotalWithout(m, k);
      TotalIsNonNegative(m - {k});
    }
  }

  function QtyLimit(i: Intent): int {
    Min(i.maxQuantity, i.PositionRoom())
  }

  /** What E1's limits leave beside the marks of the other lineages. */
  function RoomBeside(i: Intent, others: Exposure): Exposure {
    Exposure(Max(QtyLimit(i) - others.qty, 0), Max(i.maxNotionalKRW - others.notional, 0))
  }

  /** What a child in the lineage rooted at `root` may carry. */
  ghost function E1Room(s: State, root: Key): Exposure {
    RoomBeside(s.intent, Total(E1Exposure(s.sent) - {root}))
  }

  function LineageOf(s: State, c: Child): Key {
    if c.action == Amend then RootOf(s.sent, c.target) else c.key
  }

  function Projected(i: Intent, qty: int): int {
    if i.side == Sell then i.inventory.positionAtAuthorization - qty
    else i.inventory.positionAtAuthorization + qty
  }

  function Judge(i: Intent, total: Exposure): CapsRefusal {
    var pos := Projected(i, total.qty);
    if total.qty > i.maxQuantity then QuantityCap
    else if total.notional > i.maxNotionalKRW then NotionalCap
    else if pos < i.inventory.minPositionAfter || pos > i.inventory.maxPositionAfter then InventoryCap
    else Fits
  }

  ghost function E1CapsRefusal(s: State, c: Child): CapsRefusal {
    var exp := E1Exposure(s.sent);
    var root := LineageOf(s, c);
    Judge(s.intent, Total(exp[root := Widen(At(exp, root), c)]))
  }

  // ---------------------------------------------------------------- the loops

  method FollowToRoot(sent: seq<Child>, start: Key) returns (key: Key)
    ensures key == RootOf(sent, start)
  {
    var seen: set<Key> := {};
    key := start;
    while key !in seen
      invariant RootFrom(sent, key, seen) == RootOf(sent, start)
      decreases SentKeys(sent) - seen
    {
      var i := SentIndex(sent, key);
      if i == None || sent[i.value].target == NoKey {
        return;
      }
      assert sent[i.value] in sent;
      assert key in SentKeys(sent) - seen;
      seen := seen + {key};
      key := sent[i.value].target;
    }
  }

  method MeasureExposure(sent: seq<Child>) returns (out: map<Key, Exposure>)
    ensures out == E1Exposure(sent)
  {
    out := map[];
    for n := 0 to |sent|
      invariant out == ExposureUpTo(sent, n)
    {
      if CarriesQuantity(sent[n]) {
        var root := FollowToRoot(sent, sent[n].key);
        out := out[root := Widen(At(out, root), sent[n])];
      }
    }
  }

  /** Adds up a map of lineages in whatever order they come. */
  method AddUp(m: map<Key, Exposure>) returns (total: Exposure)
    ensures total == Total(m)
  {
    total := ZERO;
    var rest := m;
    while rest.Keys != {}
      invariant Plus(total, Total(rest)) == Total(m)
      decreases rest.Keys
    {
      var k :| k in rest.Keys;
      TotalWithout(rest, k);
      total := Plus(total, rest[k]);
      rest := rest - {k};
    }
  }

  method MeasureRoom(s: State, root: Key) returns (room: Exposure)
    ensures room == E1Room(s, root)
  {
    var exp := MeasureExposure(s.sent);
    var others := AddUp(exp - {root});
    room := Exposure(Max(QtyLimit(s.intent) - others.qty, 0), Max(s.intent.maxNotionalKRW - others.notional, 0));
  }

  method CheckCaps(s: State, c: Child) returns (why: CapsRefusal)
    ensures why == E1CapsRefusal(s, c)
  {
    var exp := MeasureExposure(s.sent);
    var root := c.key;
    if c.action == Amend {
      root := FollowToRoot(s.sent, c.target);
    }
    var total := AddUp(exp[root := Widen(At(exp, root), c)]);
    why := Judge(s.intent, total);
  }

  // ---------------------------------------------------------------- exactness of the room

  lemma {:induction false} ExposureIsNonNegative(sent: seq<Child>, n: nat)
    requires n <= |sent|
    ensures forall k :: k in ExposureUpTo(sent, n) ==>
              ExposureUpTo(sent, n)[k].qty >= 0 && ExposureUpTo(sent, n)[k].notional >= 0
    decreases n
  {
    if n > 0 {
      ExposureIsNonNegative(sent, n - 1);
    }
  }

  ghost predicate SumsFit(i: Intent, sent: seq<Child>) {
    var total := Total(E1Exposure(sent));
    total.qty <= QtyLimit(i) && total.notional <= i.maxNotionalKRW
  }

  /** Projected position at the far end, which `E1Room` does not look at. */
  predicate FarEndInRange(i: Intent, qty: int) {
    if i.side == Sell then Projected(i, qty) <= i.inventory.maxPositionAfter
    else i.inventory.minPositionAfter <= Projected(i, qty)
  }

  /** `RoomIsExact` in numbers: `e` is the lineage's mark, `o` the other lineages' sum, `n` the child's notional. */
  lemma RoomArithmetic(i: Intent, e: Exposure, o: Exposure, qty: int, n: int)
    requires e.qty >= 0 && e.notional >= 0 && o.qty >= 0 && o.notional >= 0
    requires e.qty + o.qty <= QtyLimit(i) && e.notional + o.notional <= i.maxNotionalKRW
    ensures var t := Exposure(Max(e.qty, qty) + o.qty, Max(e.notional, n) + o.notional);
            && (Judge(i, t) == Fits <==>
                qty <= Max(QtyLimit(i) - o.qty, 0) && n <= Max(i.maxNotionalKRW - o.notional, 0)
                && FarEndInRange(i, t.qty))
            && (i.PositionInRange() ==> FarEndInRange(i, t.qty))
  {
  }

  /**
   * E1 takes the child exactly when it is within the room and the far end holds; a position in range
   * keeps the far end.
   */
  predicate ExactRoom(i: Intent, c: Child, refusal: CapsRefusal, room: Exposure, far: int) {
    && (refusal == Fits <==>
        c.qty <= room.qty && c.qty * c.price <= room.notional && FarEndInRange(i, far))
    && (i.PositionInRange() ==> FarEndInRange(i, far))
  }

  /**
   * While the sums fit, E1 takes a child exactly when it is within the room of its
   * lineage and the far end of the inventory range holds; with the authorized position
   * in range the far end always holds.
   */
  lemma RoomIsExact(s: State, c: Child)
    requires SumsFit(s.intent, s.sent)
    ensures var root := LineageOf(s, c);
            var far := Widen(At(E1Exposure(s.sent), root), c).qty + Total(E1Exposure(s.sent) - {root}).qty;
            ExactRoom(s.intent, c, E1CapsRefusal(s, c), E1Room(s, root), far)
  {
    var mark, others := MarkAndOthers(s, LineageOf(s, c));
    RefusalJudgesWidened(s, c);
    RoomFromOthers(s, LineageOf(s, c), others);
    WidenedArithmetic(s.intent, mark, others, c);
  }

  /** `RoomArithmetic` for a child that widens the mark. */
  lemma WidenedArithmetic(i: Intent, mark: Exposure, others: Exposure, c: Child)
    requires mark.qty >= 0 && mark.notional >= 0 && others.qty >= 0 && others.notional >= 0
    requires Plus(mark, others).qty <= QtyLimit(i) && Plus(mark, others).notional <= i.maxNotionalKRW
    ensures ExactRoom(i, c, Judge(i, Plus(Widen(mark, c), others)), RoomBeside(i, others),
            Widen(mark, c).qty + others.qty)
  {
    RoomArithmetic(i, mark, others, c.qty, c.qty * c.price);
  }

  lemma RoomFromOthers(s: State, root: Key, others: Exposure)
    requires others == Total(E1Exposure(s.sent) - {root})
    ensures E1Room(s, root) == RoomBeside(s.intent, others)
  {
  }

  /** A lineage's mark and the sum of the others: neither negative, and together the total. */
  lemma MarkAndOthers(s: State, root: Key) returns (mark: Exposure, others: Exposure)
    ensures mark == At(E1Exposure(s.sent), root) && others == Total(E1Exposure(s.sent) - {root})
    ensures mark.qty >= 0 && mark.notional >= 0 && others.qty >= 0 && others.notional >= 0
    ensures Total(E1Exposure(s.sent)) == Plus(mark, others)
  {
    var exp := E1Exposure(s.sent);
    mark, others := At(exp, root), Total(exp - {root});
    ExposureIsNonNegative(s.sent, |s.sent|);
    TotalSplit(exp, root);
    TotalIsNonNegative(exp - {root});
  }

  lemma RefusalJudgesWidened(s: State, c: Child)
    ensures var exp, root := E1Exposure(s.sent), LineageOf(s, c);
            E1CapsRefusal(s, c) == Judge(s.intent, Plus(Widen(At(exp, root), c), Total(exp - {root})))
  {
    var exp, root := E1Exposure(s.sent), LineageOf(s, c);
    TotalOfUpdate(exp, root, Widen(At(exp, root), c));
  }

  // ---------------------------------------------------------------- lineages

  /** Children as the executor numbers them: keys in order, targets strictly earlier. */
  predicate Chained(id: string, sent: seq<Child>) {
    forall i {:trigger sent[i]} :: 0 <= i < |sent| ==>
      && sent[i].key == ChildKey(id, i + 1)
      && sent[i].action != UnknownAction
      && (sent[i].action == Submit ==> sent[i].target == NoKey)
      && (sent[i].action != Submit ==>
            sent[i].target.ChildKey? && sent[i].target.intent == id && 1 <= sent[i].target.n <= i)
  }

  /** The index of the submit that started the lineage of child `i`. */
  function RootIndex(id: string, sent: seq<Child>, i: nat): (r: nat)
    requires Chained(id, sent) && i < |sent|
    ensures r <= i && sent[r].action == Submit
    decreases i
  {
    if sent[i].action == Submit then i else RootIndex(id, sent, sent[i].target.n - 1)
  }

  lemma ChildIsFound(id: string, sent: seq<Child>, i: nat)
    requires Chained(id, sent) && i < |sent|
    ensures SentIndex(sent, ChildKey(id, i + 1)) == Some(i)
  {
    assert sent[i].key == ChildKey(id, i + 1);
    var found := SentIndex(sent, ChildKey(id, i + 1));
    if found.Some? {
      assert sent[found.value].key == ChildKey(id, found.value + 1);
    }
  }

  lemma KeysAreNumbered(id: string, sent: seq<Child>, key: Key)
    requires Chained(id, sent)
    ensures SentKey(sent, key) <==> key.ChildKey? && key.intent == id && 1 <= key.n <= |sent|
  {
    if key.ChildKey? && key.intent == id && 1 <= key.n <= |sent| {
      ChildIsFound(id, sent, key.n - 1);
    }
  }

  /** On chained children the cycle guard never fires: the walk ends at a submit. */
  lemma {:induction false} RootIsASubmit(id: string, sent: seq<Child>, i: nat, seen: set<Key>)
    requires Chained(id, sent) && i < |sent|
    requires forall k :: k in seen ==> k.ChildKey? && k.n > i + 1
    ensures RootFrom(sent, sent[i].key, seen) == ChildKey(id, RootIndex(id, sent, i) + 1)
    ensures RootFrom(sent, sent[i].key, seen) !in seen
    decreases i
  {
    ChildIsFound(id, sent, i);
    if sent[i].action != Submit {
      var j := sent[i].target.n - 1;
      assert sent[j].key == sent[i].target;
      RootIsASubmit(id, sent, j, seen + {sent[i].key});
    }
  }

  lemma {:induction false} RootIndexOfPrefix(id: string, sent: seq<Child>, c: Child, i: nat)
    requires Chained(id, sent + [c]) && i < |sent|
    ensures Chained(id, sent)
    ensures RootIndex(id, sent + [c], i) == RootIndex(id, sent, i)
    decreases i
  {
    ChainedPrefix(id, sent, c);
    assert (sent + [c])[i] == sent[i];
    if sent[i].action != Submit {
      RootIndexOfPrefix(id, sent, c, sent[i].target.n - 1);
    }
  }

  lemma ChainedPrefix(id: string, sent: seq<Child>, c: Child)
    requires Chained(id, sent + [c])
    ensures Chained(id, sent)
  {
    forall i | 0 <= i < |sent|
      ensures (sent + [c])[i] == sent[i]
    {
    }
  }

  lemma RootOfPrefix(id: string, sent: seq<Child>, c: Child, i: nat)
    requires Chained(id, sent + [c]) && i < |sent|
    ensures RootOf(sent + [c], sent[i].key) == RootOf(sent, sent[i].key)
  {
    RootIndexOfPrefix(id, sent, c, i);
    assert (sent + [c])[i] == sent[i];
    RootIsASubmit(id, sent, i, {});
    RootIsASubmit(id, sent + [c], i, {});
  }

  lemma {:induction false} ExposureOfPrefix(id: string, sent: seq<Child>, c: Child, n: nat)
    requires Chained(id, sent + [c]) && n <= |sent|
    ensures ExposureUpTo(sent + [c], n) == ExposureUpTo(sent, n)
    decreases n
  {
    if n > 0 {
      ExposureOfPrefix(id, sent, c, n - 1);
      RootOfPrefix(id, sent, c, n - 1);
    }
  }

  /** Sending `c` raises exactly the mark of the lineage `E1CapsRefusal` judged it by. */
  lemma ExposureAfterSend(s: State, c: Child)
    requires Chained(s.intent.intentID, s.sent + [c])
    ensures var m := E1Exposure(s.sent);
            E1Exposure(s.sent + [c]) ==
              if CarriesQuantity(c) then m[LineageOf(s, c) := Widen(At(m, LineageOf(s, c)), c)] else m
  {
    var id, sent, n := s.intent.intentID, s.sent, |s.sent|;
    ChainedPrefix(id, sent, c);
    ExposureOfPrefix(id, sent, c, n);
    assert (sent + [c])[n] == c;
    if CarriesQuantity(c) {
      RootOfLatest(s, c);
    }
  }

  /** The child just sent roots where `E1CapsRefusal` looked. */
  lemma RootOfLatest(s: State, c: Child)
    requires Chained(s.intent.intentID, s.sent + [c]) && CarriesQuantity(c)
    ensures RootOf(s.sent + [c], c.key) == LineageOf(s, c)
  {
    var id, sent := s.intent.intentID, s.sent;
    assert (sent + [c])[|sent|] == c;
    RootIsASubmit(id, sent + [c], |sent|, {});
    if c.action == Amend {
      RootOfTarget(id, sent, c);
    }
  }

  /** An amend's root is its target's, and its target's root is not moved by the amend. */
  lemma RootOfTarget(id: string, sent: seq<Child>, c: Child)
    requires Chained(id, sent + [c]) && c.action == Amend
    ensures ChildKey(id, RootIndex(id, sent + [c], |sent|) + 1) == RootOf(sent, c.target)
  {
    ChainedPrefix(id, sent, c);
    assert (sent + [c])[|sent|] == c;
    var j := c.target.n - 1;
    assert sent[j].key == c.target && (sent + [c])[j] == sent[j];
    RootIsASubmit(id, sent, j, {});
    RootIndexOfPrefix(id, sent, c, j);
  }

  /** Every child counts in its lineage's mark. */
  lemma {:induction false} MarkCoversChild(sent: seq<Child>, n: nat, i: nat)
    requires i < n <= |sent| && CarriesQuantity(sent[i])
    ensures var e := At(ExposureUpTo(sent, n), RootOf(sent, sent[i].key));
            sent[i].qty <= e.qty && sent[i].qty * sent[i].price <= e.notional
    decreases n
  {
    if i < n - 1 {
      MarkCoversChild(sent, n - 1, i);
    }
  }

  /** Keys of submits numbered up to `n`. */
  predicate NumberedUpTo(k: Key, n: int) {
    k.ChildKey? && 1 <= k.n <= n
  }

  lemma RootIsNumbered(id: string, sent: seq<Child>, i: nat)
    requires Chained(id, sent) && i < |sent|
    ensures NumberedUpTo(RootOf(sent, sent[i].key), i + 1)
  {
    RootIsASubmit(id, sent, i, {});
  }

  lemma {:induction false} MarksBelongToSubmits(id: string, sent: seq<Child>, n: nat)
    requires Chained(id, sent) && n <= |sent|
    ensures forall k :: k in ExposureUpTo(sent, n) ==> NumberedUpTo(k, n)
    decreases n
  {
    if n > 0 {
      MarksBelongToSubmits(id, sent, n - 1);
      RootIsNumbered(id, sent, n - 1);
      forall k | k in ExposureUpTo(sent, n)
        ensures NumberedUpTo(k, n)
      {
        assert k in ExposureUpTo(sent, n - 1) || k == RootOf(sent, sent[n - 1].key);
      }
    }
  }

  function Submits(sent: seq<Child>): nat {
    if sent == [] then 0
    else Submits(sent[..|sent| - 1]) + if sent[|sent| - 1].action == Submit then 1 else 0
  }

  /**
   * The total after a send is the one E1 judged; it only grows, and the old mark plus the others was
   * the total before.
   */
  lemma TotalAfterSend(s: State, c: Child)
    requires Chained(s.intent.intentID, s.sent + [c]) && CarriesQuantity(c)
    ensures var m, root := E1Exposure(s.sent), LineageOf(s, c);
            && Judge(s.intent, Total(E1Exposure(s.sent + [c]))) == E1CapsRefusal(s, c)
            && Total(E1Exposure(s.sent + [c])) == Plus(Widen(At(m, root), c), Total(m - {root}))
            && Total(m) == Plus(At(m, root), Total(m - {root}))
  {
    var m, root := E1Exposure(s.sent), LineageOf(s, c);
    ExposureAfterSend(s, c);
    TotalOfUpdate(m, root, Widen(At(m, root), c));
    TotalSplit(m, root);
  }

  lemma FreshLineageIsUnmarked(id: string, sent: seq<Child>, c: Child)
    requires Chained(id, sent + [c])
    ensures At(E1Exposure(sent), c.key) == ZERO
  {
    ChainedPrefix(id, sent, c);
    MarksBelongToSubmits(id, sent, |sent|);
    assert (sent + [c])[|sent|].key == ChildKey(id, |sent| + 1);
  }

  /** Before and after a send: the mark it widens, and the rest; a new lineage starts unmarked. */
  lemma TotalParts(s: State, c: Child) returns (mark: Exposure, others: Exposure)
    requires Chained(s.intent.intentID, s.sent + [c]) && CarriesQuantity(c)
    ensures Total(E1Exposure(s.sent)) == Plus(mark, others)
    ensures Total(E1Exposure(s.sent + [c])) == Plus(Widen(mark, c), others)
    ensures c.action == Submit ==> mark == ZERO
  {
    mark, others := At(E1Exposure(s.sent), LineageOf(s, c)), Total(E1Exposure(s.sent) - {LineageOf(s, c)});
    TotalAfterSend(s, c);
    if c.action == Submit {
      FreshLineageIsUnmarked(s.intent.intentID, s.sent, c);
    }
  }

  /** A new lineage of at least one share adds at least one share to the total. */
  lemma SubmitsAreCounted(s: State, c: Child)
    requires Chained(s.intent.intentID, s.sent + [c]) && CarriesQuantity(c) && c.qty >= 1
    ensures Total(E1Exposure(s.sent)).qty + Submits(s.sent + [c])
            <= Total(E1Exposure(s.sent + [c])).qty + Submits(s.sent)
  {
    var mark, others := TotalParts(s, c);
    WiderTotal(mark, c, others);
    SubmitsAfter(s.sent, c);
  }

  lemma WiderTotal(e: Exposure, c: Child, others: Exposure)
    ensures Plus(Widen(e, c), others).qty == Max(e.qty, c.qty) + others.qty
    ensures Plus(e, others).qty == e.qty + others.qty
  {
  }

  lemma SubmitsAfter(sent: seq<Child>, c: Child)
    ensures Submits(sent + [c]) == Submits(sent) + if c.action == Submit then 1 else 0
  {
    assert (sent + [c])[..|sent|] == sent;
  }
}
