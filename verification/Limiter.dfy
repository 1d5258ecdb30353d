/** The rolling-window declaration limiter of `internal/quote/limits.go`; times are nanoseconds since the zero time. */
module Limiter {

  const DECLARE_LIMIT := 5

  const DECLARE_WINDOW := 1_000_000_000

  datatype Limits = Limits(admitted: seq<nat>, notBefore: nat)

  const NEW_LIMITS := Limits([], 0)

  /** The admissions less than a window old. */
  function Recent(admitted: seq<nat>, now: nat): seq<nat> {
    if admitted == [] then []
    else
      var last := admitted[|admitted| - 1];
      Recent(admitted[..|admitted| - 1], now) + if now - last < DECLARE_WINDOW then [last] else []
  }

  function CooledDown(l: Limits, until: nat): Limits {
    if until > l.notBefore then l.(notBefore := until) else l
  }

  /** `Admitted`, or how long to wait. */
  datatype Slot = Admitted | WaitFor(ns: int)

  function Reserved(l: Limits, now: nat): (Limits, Slot) {
    var kept := l.(admitted := Recent(l.admitted, now));
    if now < l.notBefore then (kept, WaitFor(l.notBefore - now))
    else if |kept.admitted| >= DECLARE_LIMIT then (kept, WaitFor(kept.admitted[0] + DECLARE_WINDOW - now))
    else (kept.(admitted := kept.admitted + [now]), Admitted)
  }

  class DeclareLimiter {
    var admitted: seq<nat>
    var notBefore: nat

    function View(): Limits
      reads this
    {
      Limits(admitted, notBefore)
    }

    constructor ()
      ensures View() == NEW_LIMITS
    {
      admitted, notBefore := [], 0;
    }

    method CoolDown(until: nat)
      modifies this
      ensures View() == CooledDown(old(View()), until)
    {
      if until > notBefore {
        notBefore := until;
      }
    }

    method Reserve(now: nat) returns (wait: int, ok: bool)
      modifies this
      ensures View() == Reserved(old(View()), now).0
      ensures Reserved(old(View()), now).1 == if ok then Admitted else WaitFor(wait)
    {
      var kept: seq<nat> := [];
      var i := 0;
      while i < |admitted|
        invariant i <= |admitted| && kept == Recent(admitted[..i], now)
      {
        assert admitted[..i + 1][..i] == admitted[..i];
        if now - admitted[i] < DECLARE_WINDOW {
          kept := kept + [admitted[i]];
        }
        i := i + 1;
      }
      assert admitted[..i] == admitted;
      admitted := kept;
      if now < notBefore {
        return notBefore - now, false;
      }
      if |admitted| >= DECLARE_LIMIT {
        return admitted[0] + DECLARE_WINDOW - now, false;
      }
      admitted := admitted + [now];
      return 0, true;
    }
  }

  datatype Op = CoolDown(until: nat) | Reserve(now: nat)

  /** A limiter with all it has ever admitted, the latest clock reading and the latest cool-down it was given. */
  datatype Trace = Trace(l: Limits, history: seq<nat>, clock: nat, coolest: nat)

  function OnOp(t: Trace, op: Op): Trace {
    match op
    case CoolDown(until) => t.(l := CooledDown(t.l, until), coolest := if until > t.coolest then until else t.coolest)
    case Reserve(now) =>
      var (l, slot) := Reserved(t.l, now);
      t.(l := l, clock := now, history := if slot.Admitted? then t.history + [now] else t.history)
  }

  function OnOps(ops: seq<Op>): Trace {
    if ops == [] then Trace(NEW_LIMITS, [], 0, 0) else OnOp(OnOps(ops[..|ops| - 1]), ops[|ops| - 1])
  }

  /** The clock of the reservations never goes back. */
  ghost predicate Monotone(ops: seq<Op>) {
    forall i, j :: 0 <= i < j < |ops| && ops[i].Reserve? && ops[j].Reserve? ==> ops[i].now <= ops[j].now
  }

  ghost predicate Sorted(s: seq<nat>) {
    forall i, j :: 0 <= i < j < |s| ==> s[i] <= s[j]
  }

  /** Everything from `k` on is less than a window old, and nothing before. */
  ghost predicate Splits(s: seq<nat>, now: nat, k: nat) {
    && k <= |s|
    && (forall i :: 0 <= i < k ==> now - s[i] >= DECLARE_WINDOW)
    && (forall i :: k <= i < |s| ==> now - s[i] < DECLARE_WINDOW)
  }

  lemma SplitPoint(s: seq<nat>, now: nat) returns (k: nat)
    requires Sorted(s)
    ensures Splits(s, now, k)
  {
    k := 0;
    while k < |s| && now - s[k] >= DECLARE_WINDOW
      invariant k <= |s|
      invariant forall i :: 0 <= i < k ==> now - s[i] >= DECLARE_WINDOW
    {
      k := k + 1;
    }
  }

  /** Recent admissions are the end of the history. */
  lemma {:induction false} RecentIsASuffix(s: seq<nat>, now: nat, k: nat)
    requires Splits(s, now, k)
    ensures Recent(s, now) == s[k..]
  {
    if s != [] {
      var m := |s| - 1;
      if k <= m {
        RecentIsASuffix(s[..m], now, k);
        assert s[k..] == s[..m][k..] + [s[m]];
      } else {
        RecentIsASuffix(s[..m], now, m);
      }
    }
  }

  /** Dropping old admissions earlier loses nothing for a later reading. */
  lemma RecentOfRecent(s: seq<nat>, before: nat, now: nat)
    requires Sorted(s) && before <= now
    ensures Recent(Recent(s, before), now) == Recent(s, now)
    ensures |Recent(s, now)| <= |Recent(s, before)|
  {
    var j := SplitPoint(s, before);
    var k := SplitPoint(s, now);
    if k < |s| {
      assert now - s[k] < DECLARE_WINDOW;
    }
    assert j <= k;
    RecentIsASuffix(s, before, j);
    RecentIsASuffix(s, now, k);
    RecentIsASuffix(s[j..], now, k - j);
    assert s[j..][k - j..] == s[k..];
  }

  /** Five admissions fill a window: the sixth comes a window after the first. */
  ghost predicate Spaced(history: seq<nat>) {
    forall i :: 0 <= i < |history| - DECLARE_LIMIT ==>
      history[i + DECLARE_LIMIT] - history[i] >= DECLARE_WINDOW
  }

  /** What holds after every operation. */
  ghost predicate Kept(t: Trace) {
    && Sorted(t.history)
    && (forall i :: 0 <= i < |t.history| ==> t.history[i] <= t.clock)
    && t.l.admitted == Recent(t.history, t.clock)
    && t.l.notBefore == t.coolest
    && |t.l.admitted| <= DECLARE_LIMIT
    && Spaced(t.history)
  }

  lemma AdmissionIsSpaced(history: seq<nat>, now: nat)
    requires Sorted(history) && Spaced(history)
    requires forall i :: 0 <= i < |history| ==> history[i] <= now
    requires |Recent(history, now)| < DECLARE_LIMIT
    ensures Sorted(history + [now]) && Spaced(history + [now])
    ensures Recent(history + [now], now) == Recent(history, now) + [now]
  {
    var k := SplitPoint(history, now);
    RecentIsASuffix(history, now, k);
    assert (history + [now])[..|history|] == history;
    var n := |history| - DECLARE_LIMIT;
    if n >= 0 {
      assert now - history[n] >= DECLARE_WINDOW;
    }
  }

  lemma ReserveKeeps(t: Trace, now: nat)
    requires Kept(t) && t.clock <= now
    ensures Kept(OnOp(t, Reserve(now)))
  {
    RecentOfRecent(t.history, t.clock, now);
    if Reserved(t.l, now).1.Admitted? {
      AdmissionIsSpaced(t.history, now);
    }
  }

  /**
   * With a clock that never goes back, after any operations: any six consecutive admissions span
   * at least a window, `admitted` is exactly the admissions of the last window at the latest
   * reading, never more than five, and `notBefore` is the latest cool-down.
   */
  lemma {:induction false} EveryWindowIsBounded(ops: seq<Op>)
    requires Monotone(ops)
    ensures Kept(OnOps(ops))
  {
    if ops != [] {
      var n := |ops| - 1;
      MonotonePrefix(ops, n);
      EveryWindowIsBounded(ops[..n]);
      ClockIsARead(ops[..n]);
      if ops[n].Reserve? {
        ClockComesFirst(ops, OnOps(ops[..n]).clock);
        ReserveKeeps(OnOps(ops[..n]), ops[n].now);
      }
    }
  }

  lemma MonotonePrefix(ops: seq<Op>, n: nat)
    requires n <= |ops| && Monotone(ops)
    ensures Monotone(ops[..n])
  {
    assert forall i :: 0 <= i < n ==> ops[..n][i] == ops[i];
  }

  lemma ClockComesFirst(ops: seq<Op>, clock: nat)
    requires ops != [] && Monotone(ops) && ops[|ops| - 1].Reserve?
    requires clock == 0 || Reserve(clock) in ops[..|ops| - 1]
    ensures clock <= ops[|ops| - 1].now
  {
    if clock != 0 {
      var i :| 0 <= i < |ops| - 1 && ops[..|ops| - 1][i] == Reserve(clock);
      assert ops[i] == Reserve(clock);
    }
  }

  /** `coolest` is at least every cool-down given. */
  lemma {:induction false} CoolestIsLatest(ops: seq<Op>, until: nat)
    requires CoolDown(until) in ops
    ensures until <= OnOps(ops).coolest
  {
    var n := |ops| - 1;
    if ops[n] != CoolDown(until) {
      assert CoolDown(until) in ops[..n];
      CoolestIsLatest(ops[..n], until);
    }
  }

  /** The trace's clock is zero or one of the readings. */
  lemma {:induction false} ClockIsARead(ops: seq<Op>)
    ensures OnOps(ops).clock == 0 || Reserve(OnOps(ops).clock) in ops
  {
    if ops != [] {
      ClockIsARead(ops[..|ops| - 1]);
    }
  }

  /** Nothing is admitted before any cool-down given so far. */
  lemma NoneBeforeCoolDown(ops: seq<Op>, now: nat, until: nat)
    requires Monotone(ops + [Reserve(now)]) && CoolDown(until) in ops
    requires OnOps(ops + [Reserve(now)]).history != OnOps(ops).history
    ensures until <= now
  {
    var all := ops + [Reserve(now)];
    assert all[..|ops|] == ops;
    MonotonePrefix(all, |ops|);
    EveryWindowIsBounded(ops);
    CoolestIsLatest(ops, until);
  }

  /** While a full window blocks, the oldest of its admissions decides. */
  lemma FullWindowOpens(admitted: seq<nat>, later: nat)
    requires Sorted(admitted) && |admitted| == DECLARE_LIMIT
    ensures later < admitted[0] + DECLARE_WINDOW ==> Recent(admitted, later) == admitted
    ensures later >= admitted[0] + DECLARE_WINDOW ==> |Recent(admitted, later)| < DECLARE_LIMIT
  {
    var k := SplitPoint(admitted, later);
    RecentIsASuffix(admitted, later, k);
    if later < admitted[0] + DECLARE_WINDOW {
      assert k == 0;
    }
  }

  lemma OldestIsRecent(history: seq<nat>, now: nat)
    requires Sorted(history) && Recent(history, now) != []
    ensures Sorted(Recent(history, now)) && now - Recent(history, now)[0] < DECLARE_WINDOW
  {
    var k := SplitPoint(history, now);
    RecentIsASuffix(history, now, k);
  }

  /** The limits a refusal leaves, and why it refused. */
  lemma RefusedLimits(ops: seq<Op>, now: nat)
    requires Monotone(ops + [Reserve(now)])
    requires Reserved(OnOps(ops).l, now).1.WaitFor?
    ensures var (l, slot) := Reserved(OnOps(ops).l, now);
            && Sorted(l.admitted) && |l.admitted| <= DECLARE_LIMIT
            && (now < l.notBefore ==> slot.ns == l.notBefore - now)
            && (now >= l.notBefore ==>
                && |l.admitted| == DECLARE_LIMIT
                && now - l.admitted[0] < DECLARE_WINDOW
                && slot.ns == l.admitted[0] + DECLARE_WINDOW - now)
  {
    var all := ops + [Reserve(now)];
    assert all[|ops|] == Reserve(now) && all[..|ops|] == ops;
    EveryWindowIsBounded(all);
    var t := OnOps(all);
    if t.l.admitted != [] {
      OldestIsRecent(t.history, now);
    }
  }

  /**
   * A refused reservation's wait is positive and exact: asking again earlier is refused too, with
   * the rest of the wait, and when it has passed the constraint that refused no longer does.
   */
  lemma WaitIsExact(ops: seq<Op>, now: nat, later: nat, l: Limits, wait: int)
    requires Monotone(ops + [Reserve(now)])
    requires Reserved(OnOps(ops).l, now) == (l, WaitFor(wait)) && now <= later
    ensures wait > 0
    ensures later < now + wait ==> Reserved(l, later).1 == WaitFor(now + wait - later)
    ensures later >= now + wait ==>
              if now < l.notBefore then later >= l.notBefore else Reserved(l, later).1.Admitted?
  {
    RefusedLimits(ops, now);
    if now >= l.notBefore {
      FullWindowOpens(l.admitted, later);
    }
  }
}
