/**
 * The approval key's single flight (`internal/reader/approval.go`): any number of attempts, each
 * with its own lock token, over one atomic store, in milliseconds of a common clock.
 */
module Approval {
  import opened Machine
  import opened Texts

  const LOCK_TTL := 15_000

  const CACHE_TTL := 23 * 3600 * 1000

  const ISSUE_TIMEOUT := 10_000

  const PUBLISH_DEADLINE := 14_000

  datatype Lock = Lock(token: nat, expiry: int)

  datatype Entry = Entry(key: string, expiry: int)

  datatype Store = Store(lock: Option<Lock>, cache: Option<Entry>)

  /** Whose token `GET` on the lock key returns. */
  function Holder(s: Store, now: int): Option<nat> {
    if s.lock.Some? && now < s.lock.value.expiry then Some(s.lock.value.token) else None
  }

  /** The cached key, when it has more than `margin` to live and a forced attempt may take it. */
  function Acceptable(s: Store, now: int, margin: int, force: bool, rejected: string): Option<string> {
    if s.cache.None? || now >= s.cache.value.expiry then None
    else
      var key, ttl := s.cache.value.key, s.cache.value.expiry - now;
      if !IsBlank(key) && ttl > margin && (!force || (rejected != "" && key != rejected)) then Some(key) else None
  }

  function SetNX(s: Store, now: int, token: nat): (Store, bool) {
    if Holder(s, now).Some? then (s, false) else (s.(lock := Some(Lock(token, now + LOCK_TTL))), true)
  }

  function RunPublish(s: Store, now: int, token: nat, key: string): (Store, bool) {
    if Holder(s, now) == Some(token) then (s.(cache := Some(Entry(key, now + CACHE_TTL))), true) else (s, false)
  }

  function RunInvalidate(s: Store, now: int, token: nat): (Store, bool) {
    if Holder(s, now) == Some(token) then (s.(cache := None), true) else (s, false)
  }

  function RunRelease(s: Store, now: int, token: nat): Store {
    if Holder(s, now) == Some(token) then s.(lock := None) else s
  }

  /** The store the scripts run on. */
  class RedisStore {
    var lock: Option<Lock>
    var cache: Option<Entry>

    function View(): Store
      reads this
    {
      Store(lock, cache)
    }

    constructor ()
      ensures View() == Store(None, None)
    {
      lock, cache := None, None;
    }

    method Get(now: int) returns (token: Option<nat>)
      ensures token == Holder(View(), now)
    {
      token := None;
      if lock.Some? && now < lock.value.expiry {
        token := Some(lock.value.token);
      }
    }

    method Acquire(now: int, token: nat) returns (acquired: bool)
      modifies this
      ensures (View(), acquired) == SetNX(old(View()), now, token)
    {
      var held := Get(now);
      if held.Some? {
        return false;
      }
      lock := Some(Lock(token, now + LOCK_TTL));
      acquired := true;
    }

    method PublishKey(now: int, token: nat, key: string) returns (done: bool)
      modifies this
      ensures (View(), done) == RunPublish(old(View()), now, token, key)
    {
      var held := Get(now);
      if held != Some(token) {
        return false;
      }
      cache := Some(Entry(key, now + CACHE_TTL));
      done := true;
    }

    method Invalidate(now: int, token: nat) returns (done: bool)
      modifies this
      ensures (View(), done) == RunInvalidate(old(View()), now, token)
    {
      var held := Get(now);
      if held != Some(token) {
        return false;
      }
      cache := None;
      done := true;
    }

    method Release(now: int, token: nat)
      modifies this
      ensures View() == RunRelease(old(View()), now, token)
    {
      var held := Get(now);
      if held == Some(token) {
        lock := None;
      }
    }
  }

  datatype Answer = NoAnswer | FromCache(key: string) | FromIssuer(key: string)

  /** Where one `singleFlight` call stands between its requests. */
  datatype Phase =
    | Asking                 // SETNX not yet executed
    | Waiting                // another attempt holds the lock
    | Holding                // before reading the cache
    | Clearing               // forced: before the invalidate script
    | Ready                  // before the REST request
    | Issuing(start: int)    // the REST request is under way
    | Issued(key: string)    // before the publish script
    | Releasing(leaving: Answer)
    | Finished(result: Answer)

  /** `startedAt` is taken before SETNX is sent; `acquiredAt` is when the store ran it. */
  datatype Flight = Flight(
    startedAt: int, acquiredAt: int, force: bool, rejected: string, margin: int, phase: Phase)

  /** A REST request that has ended. */
  datatype Window = Window(token: nat, start: int, end: int)

  datatype System = System(now: int, store: Store, flights: map<nat, Flight>, windows: seq<Window>)

  /**
   * What can happen next. `answered` is false when the store ran the request and its answer was
   * lost; a request that never ran is `GiveUp`, as is every other error outside the REST request.
   */
  datatype Event =
    | Advance(ms: nat)
    | Begin(newToken: nat, force: bool, rejected: string, margin: int)
    | Ask(token: nat, answered: bool)
    | Poll(token: nat)
    | Check(token: nat)
    | Clear(token: nat, answered: bool)
    | CallIssuer(token: nat)
    | IssuerReturns(token: nat, key: Option<string>)
    | Publish(token: nat, answered: bool)
    | GiveUp(token: nat)
    | Release(token: nat, executed: bool)

  /** The issuer honours its context: its own timeout and the publish deadline. */
  function IssueLimit(f: Flight, start: int): int {
    if start + ISSUE_TIMEOUT < f.startedAt + PUBLISH_DEADLINE then start + ISSUE_TIMEOUT
    else f.startedAt + PUBLISH_DEADLINE
  }

  ghost predicate MayAdvance(s: System, ms: nat) {
    forall t :: t in s.flights && s.flights[t].phase.Issuing? ==>
      s.now + ms <= IssueLimit(s.flights[t], s.flights[t].phase.start)
  }

  function In(s: System, token: nat, phase: Phase): System {
    if token in s.flights then s.(flights := s.flights[token := s.flights[token].(phase := phase)]) else s
  }

  /** An event of the attempt `token`, in the phase it is in. */
  function FlightStep(s: System, f: Flight, e: Event, t: nat): System {
    match (e, f.phase)
    case (Ask(_, answered), Asking) =>
      var (store, acquired) := SetNX(s.store, s.now, t);
      var next := s.(store := store);
      if !answered then In(next, t, Finished(NoAnswer))
      else if acquired then next.(flights := s.flights[t := f.(acquiredAt := s.now, phase := Holding)])
      else In(next, t, Waiting)
    case (Poll(_), Waiting) =>
      var key := Acceptable(s.store, s.now, f.margin, f.force, f.rejected);
      if key.Some? then In(s, t, Finished(FromCache(key.value))) else s
    case (Check(_), Holding) =>
      var key := Acceptable(s.store, s.now, f.margin, f.force, f.rejected);
      In(s, t, if key.Some? then Releasing(FromCache(key.value)) else if f.force then Clearing else Ready)
    case (Clear(_, answered), Clearing) =>
      var (store, done) := RunInvalidate(s.store, s.now, t);
      In(s.(store := store), t, if done && answered then Ready else Releasing(NoAnswer))
    case (CallIssuer(_), Ready) =>
      In(s, t, if s.now < f.startedAt + PUBLISH_DEADLINE then Issuing(s.now) else Releasing(NoAnswer))
    case (IssuerReturns(_, key), Issuing(start)) =>
      In(s.(windows := s.windows + [Window(t, start, s.now)]), t,
         if key.Some? && !IsBlank(key.value) then Issued(key.value) else Releasing(NoAnswer))
    case (Publish(_, answered), Issued(key)) =>
      var (store, done) := RunPublish(s.store, s.now, t, key);
      In(s.(store := store), t, Releasing(if done && answered then FromIssuer(key) else NoAnswer))
    case (GiveUp(_), Asking) => In(s, t, Finished(NoAnswer))
    case (GiveUp(_), Waiting) => In(s, t, Finished(NoAnswer))
    case (GiveUp(_), Holding) => In(s, t, Releasing(NoAnswer))
    case (GiveUp(_), Clearing) => In(s, t, Releasing(NoAnswer))
    case (GiveUp(_), Issued(_)) => In(s, t, Releasing(NoAnswer))
    case (Release(_, executed), Releasing(answer)) =>
      In(s.(store := if executed then RunRelease(s.store, s.now, t) else s.store), t, Finished(answer))
    case _ => s
  }

  /** An event that is not possible now changes nothing. */
  ghost function Step(s: System, e: Event): System {
    match e
    case Advance(ms) => if MayAdvance(s, ms) then s.(now := s.now + ms) else s
    case Begin(newToken, force, rejected, margin) =>
      if newToken in s.flights then s
      else s.(flights := s.flights[newToken := Flight(s.now, s.now, force, rejected, margin, Asking)])
    case _ => if e.token in s.flights then FlightStep(s, s.flights[e.token], e, e.token) else s
  }

  ghost function Run(s: System, es: seq<Event>): System {
    if es == [] then s else Step(Run(s, es[..|es| - 1]), es[|es| - 1])
  }

  function Initially(now: int, cache: Option<Entry>): System {
    System(now, Store(None, cache), map[], [])
  }

  /** The phases between acquiring and releasing. */
  predicate Owns(p: Phase) {
    p.Holding? || p.Clearing? || p.Ready? || p.Issuing? || p.Issued? || p.Releasing?
  }

  /** An attempt that acquired the lock still holds it until the TTL runs out. */
  ghost predicate Tenured(s: System, t: nat)
    requires t in s.flights
  {
    var f := s.flights[t];
    && f.startedAt <= s.now
    && (Owns(f.phase) ==>
        && f.startedAt <= f.acquiredAt <= s.now
        && (s.now < f.acquiredAt + LOCK_TTL ==> s.store.lock == Some(Lock(t, f.acquiredAt + LOCK_TTL))))
    && (f.phase.Issuing? ==> f.phase.start <= s.now <= IssueLimit(f, f.phase.start))
  }

  ghost predicate AllTenured(s: System) {
    && (s.store.lock.Some? ==> s.store.lock.value.token in s.flights)
    && forall t :: t in s.flights ==> Tenured(s, t)
  }

  lemma StepOnlyMovesItsOwn(s: System, e: Event, t: nat)
    requires !e.Advance? && !e.Begin? && e.token != t
    requires t in s.flights
    ensures t in Step(s, e).flights && Step(s, e).flights[t] == s.flights[t]
    ensures Step(s, e).now == s.now
  {
  }

  /** A live lock is left alone by everyone but its holder. */
  lemma StepLeavesOthersLock(s: System, e: Event, t: nat)
    requires Holder(s.store, s.now) == Some(t)
    requires !e.Advance? && !e.Begin? && e.token != t
    ensures Step(s, e).store.lock == s.store.lock
  {
  }

  lemma OthersStayTenured(s: System, e: Event, t: nat)
    requires AllTenured(s) && t in s.flights
    requires !e.Advance? && !e.Begin? && e.token != t
    ensures t in Step(s, e).flights && Tenured(Step(s, e), t)
  {
    StepOnlyMovesItsOwn(s, e, t);
    assert Tenured(s, t);
    var f := s.flights[t];
    if Owns(f.phase) && s.now < f.acquiredAt + LOCK_TTL {
      StepLeavesOthersLock(s, e, t);
    }
  }

  lemma MoverStaysTenured(s: System, e: Event)
    requires AllTenured(s) && !e.Advance? && !e.Begin? && e.token in s.flights
    ensures e.token in Step(s, e).flights && Tenured(Step(s, e), e.token)
  {
    assert Tenured(s, e.token);
  }

  lemma ClockAndNewcomers(s: System, e: Event, t: nat)
    requires AllTenured(s) && (e.Advance? || e.Begin?) && t in Step(s, e).flights
    ensures Tenured(Step(s, e), t)
  {
    assert t in s.flights ==> Tenured(s, t);
  }

  lemma StepKeepsTokens(s: System, e: Event)
    requires s.store.lock.Some? ==> s.store.lock.value.token in s.flights
    ensures s.flights.Keys <= Step(s, e).flights.Keys
    ensures !e.Begin? ==> Step(s, e).flights.Keys == s.flights.Keys
    ensures Step(s, e).store.lock.Some? ==> Step(s, e).store.lock.value.token in Step(s, e).flights
  {
  }

  lemma StepKeepsTenure(s: System, e: Event)
    requires AllTenured(s)
    ensures AllTenured(Step(s, e))
  {
    var next := Step(s, e);
    StepKeepsTokens(s, e);
    forall t | t in next.flights ensures Tenured(next, t) {
      if e.Advance? || e.Begin? {
        ClockAndNewcomers(s, e, t);
      } else if t == e.token {
        MoverStaysTenured(s, e);
      } else {
        OthersStayTenured(s, e, t);
      }
    }
  }

  lemma {:induction false} TenureHolds(now: int, cache: Option<Entry>, es: seq<Event>)
    ensures AllTenured(Run(Initially(now, cache), es))
  {
    if es != [] {
      TenureHolds(now, cache, es[..|es| - 1]);
      StepKeepsTenure(Run(Initially(now, cache), es[..|es| - 1]), es[|es| - 1]);
    }
  }

  /** Whoever issues holds the lock for the whole request. */
  lemma IssuerHoldsTheLock(s: System, t: nat)
    requires AllTenured(s) && t in s.flights && s.flights[t].phase.Issuing?
    ensures Holder(s.store, s.now) == Some(t)
  {
    assert Tenured(s, t);
  }

  /** At most one REST request is under way at any time. */
  lemma OneIssuerAtATime(now: int, cache: Option<Entry>, es: seq<Event>, t: nat, u: nat)
    requires var s := Run(Initially(now, cache), es);
             && t in s.flights && s.flights[t].phase.Issuing?
             && u in s.flights && s.flights[u].phase.Issuing?
    ensures t == u
  {
    TenureHolds(now, cache, es);
    var s := Run(Initially(now, cache), es);
    IssuerHoldsTheLock(s, t);
    IssuerHoldsTheLock(s, u);
  }

  /** Requests end in the order they began, each before the next begins. */
  ghost predicate Sequential(s: System) {
    && (forall i, j :: 0 <= i < j < |s.windows| ==> s.windows[i].end <= s.windows[j].start)
    && (forall i :: 0 <= i < |s.windows| ==> s.windows[i].start <= s.windows[i].end <= s.now)
    && (forall i, t :: 0 <= i < |s.windows| && t in s.flights && s.flights[t].phase.Issuing? ==>
          s.windows[i].end <= s.flights[t].phase.start)
  }

  /** A request that ends was the only one under way. */
  lemma EndKeepsSequence(s: System, e: Event)
    requires AllTenured(s) && Sequential(s)
    requires e.IssuerReturns? && e.token in s.flights && s.flights[e.token].phase.Issuing?
    ensures Sequential(Step(s, e))
  {
    var next := Step(s, e);
    assert Tenured(s, e.token);
    forall t | t in next.flights && next.flights[t].phase.Issuing?
      ensures false
    {
      IssuerHoldsTheLock(s, e.token);
      IssuerHoldsTheLock(s, t);
    }
  }

  /** Any other event leaves the ended requests alone; a request that begins, begins now. */
  lemma OtherStepWindows(s: System, e: Event, t: nat)
    requires !(e.IssuerReturns? && e.token in s.flights && s.flights[e.token].phase.Issuing?)
    requires t in Step(s, e).flights && Step(s, e).flights[t].phase.Issuing?
    ensures Step(s, e).windows == s.windows && s.now <= Step(s, e).now
    ensures t in s.flights
    ensures Step(s, e).flights[t].phase.start == s.now || s.flights[t].phase == Step(s, e).flights[t].phase
  {
  }

  lemma WindowsStay(s: System, e: Event)
    requires !(e.IssuerReturns? && e.token in s.flights && s.flights[e.token].phase.Issuing?)
    ensures Step(s, e).windows == s.windows && s.now <= Step(s, e).now
  {
  }

  lemma StepKeepsSequence(s: System, e: Event)
    requires AllTenured(s) && Sequential(s)
    ensures Sequential(Step(s, e))
  {
    if e.IssuerReturns? && e.token in s.flights && s.flights[e.token].phase.Issuing? {
      EndKeepsSequence(s, e);
    } else {
      WindowsStay(s, e);
      var next := Step(s, e);
      forall i, t | 0 <= i < |next.windows| && t in next.flights && next.flights[t].phase.Issuing?
        ensures next.windows[i].end <= next.flights[t].phase.start
      {
        OtherStepWindows(s, e, t);
      }
    }
  }

  /** No two REST issue windows overlap, in any run. */
  lemma {:induction false} WindowsNeverOverlap(now: int, cache: Option<Entry>, es: seq<Event>)
    ensures Sequential(Run(Initially(now, cache), es))
  {
    if es != [] {
      var s := Run(Initially(now, cache), es[..|es| - 1]);
      WindowsNeverOverlap(now, cache, es[..|es| - 1]);
      TenureHolds(now, cache, es[..|es| - 1]);
      StepKeepsSequence(s, es[|es| - 1]);
    }
  }

  /** An attempt that still holds the lock with an issued key in hand made the latest request. */
  ghost predicate Latest(s: System, t: nat)
    requires t in s.flights
  {
    s.flights[t].phase.Issued? && Holder(s.store, s.now) == Some(t) ==>
      s.windows != [] && s.windows[|s.windows| - 1].token == t
  }

  ghost predicate AllLatest(s: System) {
    forall t :: t in s.flights ==> Latest(s, t)
  }

  /** When a request ends, its own attempt holds the lock, and it is the latest. */
  lemma EndIsLatest(s: System, e: Event, t: nat)
    requires AllTenured(s) && t in s.flights
    requires e.IssuerReturns? && e.token in s.flights && s.flights[e.token].phase.Issuing?
    ensures t in Step(s, e).flights && Latest(Step(s, e), t)
  {
    IssuerHoldsTheLock(s, e.token);
    assert Tenured(s, t);
  }

  lemma OthersStayLatest(s: System, e: Event, t: nat)
    requires AllTenured(s) && t in s.flights && Latest(s, t)
    requires !(e.IssuerReturns? && e.token in s.flights && s.flights[e.token].phase.Issuing?)
    ensures t in Step(s, e).flights && Latest(Step(s, e), t)
  {
    WindowsStay(s, e);
    assert Tenured(s, t);
  }

  lemma StepKeepsLatest(s: System, e: Event)
    requires AllTenured(s) && AllLatest(s)
    ensures AllLatest(Step(s, e))
  {
    forall t | t in Step(s, e).flights ensures Latest(Step(s, e), t) {
      if t in s.flights {
        if e.IssuerReturns? && e.token in s.flights && s.flights[e.token].phase.Issuing? {
          EndIsLatest(s, e, t);
        } else {
          OthersStayLatest(s, e, t);
        }
      }
    }
  }

  lemma {:induction false} LatestHolds(now: int, cache: Option<Entry>, es: seq<Event>)
    ensures AllLatest(Run(Initially(now, cache), es))
  {
    if es != [] {
      var s := Run(Initially(now, cache), es[..|es| - 1]);
      LatestHolds(now, cache, es[..|es| - 1]);
      TenureHolds(now, cache, es[..|es| - 1]);
      StepKeepsLatest(s, es[|es| - 1]);
    }
  }

  lemma CacheStep(s: System, e: Event)
    requires Step(s, e).store.cache != s.store.cache
    ensures (e.Publish? || e.Clear?) && Holder(s.store, s.now) == Some(e.token) && e.token in s.flights
    ensures e.Publish? ==>
              && s.flights[e.token].phase.Issued?
              && Step(s, e).store.cache == Some(Entry(s.flights[e.token].phase.key, s.now + CACHE_TTL))
    ensures e.Clear? ==> s.flights[e.token].phase.Clearing? && Step(s, e).store.cache == None
  {
  }

  /** While someone else holds the lock no request is under way. */
  lemma NoRequestBesideTheHolder(s: System, t: nat)
    requires AllTenured(s) && Holder(s.store, s.now) == Some(t)
    requires t in s.flights && !s.flights[t].phase.Issuing?
    ensures forall u :: u in s.flights ==> !s.flights[u].phase.Issuing?
  {
    forall u | u in s.flights && s.flights[u].phase.Issuing?
      ensures false
    {
      IssuerHoldsTheLock(s, u);
    }
  }

  /**
   * The event is a publish or a clear by the holder of the lock, with no REST request under way;
   * a published key is the one that attempt was issued, by the latest request.
   */
  ghost predicate OwnCacheChange(s: System, e: Event) {
    && (e.Publish? || e.Clear?)
    && Holder(s.store, s.now) == Some(e.token)
    && (forall t :: t in s.flights ==> !s.flights[t].phase.Issuing?)
    && (e.Publish? ==>
          && e.token in s.flights && s.flights[e.token].phase.Issued?
          && Step(s, e).store.cache == Some(Entry(s.flights[e.token].phase.key, s.now + CACHE_TTL))
          && s.windows != [] && s.windows[|s.windows| - 1].token == e.token)
    && (e.Clear? ==> Step(s, e).store.cache == None)
  }

  lemma CacheChangeIsOwn(s: System, e: Event)
    requires AllTenured(s) && AllLatest(s) && Step(s, e).store.cache != s.store.cache
    ensures OwnCacheChange(s, e)
  {
    CacheStep(s, e);
    NoRequestBesideTheHolder(s, e.token);
    assert Latest(s, e.token);
  }

  /** Whatever changes the cached key in any run: it is an attempt whose own token holds the lock. */
  lemma CacheChangesUnderOwnLock(now: int, cache: Option<Entry>, es: seq<Event>, e: Event)
    requires Step(Run(Initially(now, cache), es), e).store.cache != Run(Initially(now, cache), es).store.cache
    ensures OwnCacheChange(Run(Initially(now, cache), es), e)
  {
    TenureHolds(now, cache, es);
    LatestHolds(now, cache, es);
    CacheChangeIsOwn(Run(Initially(now, cache), es), e);
  }

  lemma OnlyTheHolderReleases(s: System, e: Event, t: nat)
    requires Holder(s.store, s.now) == Some(t) && e != Release(t, true)
    ensures Step(s, e).store.lock == s.store.lock && s.now <= Step(s, e).now
  {
  }

  lemma {:induction false} ClockRuns(s: System, es: seq<Event>)
    ensures s.now <= Run(s, es).now
  {
    if es != [] {
      ClockRuns(s, es[..|es| - 1]);
    }
  }

  /** Whatever the other attempts do, a held lock stays as it is until its TTL or its own holder's release. */
  lemma {:induction false} LockLasts(s: System, es: seq<Event>, t: nat)
    requires Holder(s.store, s.now) == Some(t) && Release(t, true) !in es
    requires Run(s, es).now < s.store.lock.value.expiry
    ensures Run(s, es).store.lock == s.store.lock && Holder(Run(s, es).store, Run(s, es).now) == Some(t)
  {
    if es != [] {
      var n := |es| - 1;
      var before := Run(s, es[..n]);
      assert Run(s, es) == Run(before, [es[n]]) by {
        assert [es[n]][..0] == [];
      }
      ClockRuns(before, [es[n]]);
      assert es[n] in es;
      LockLasts(s, es[..n], t);
      OnlyTheHolderReleases(before, es[n], t);
    }
  }

  /** A key taken from the cache is not the one a forced attempt was told is rejected. */
  predicate Fit(f: Flight, a: Answer) {
    a.FromCache? && f.force ==> f.rejected != "" && a.key != f.rejected
  }

  predicate AnswerIsFit(f: Flight) {
    && (f.phase.Releasing? ==> Fit(f, f.phase.leaving))
    && (f.phase.Finished? ==> Fit(f, f.phase.result))
  }

  lemma StepKeepsFit(s: System, e: Event, t: nat)
    requires t in Step(s, e).flights
    requires t in s.flights ==> AnswerIsFit(s.flights[t])
    ensures AnswerIsFit(Step(s, e).flights[t])
  {
    if !e.Advance? && !e.Begin? && t != e.token {
      StepOnlyMovesItsOwn(s, e, t);
    }
  }

  /**
   * In every run, whatever key a forced attempt takes from the cache, while polling or holding the
   * lock, is not the rejected one.
   */
  lemma {:induction false} RejectedKeysStayOut(now: int, cache: Option<Entry>, es: seq<Event>, t: nat)
    requires t in Run(Initially(now, cache), es).flights
    ensures AnswerIsFit(Run(Initially(now, cache), es).flights[t])
  {
    if es != [] {
      var s := Run(Initially(now, cache), es[..|es| - 1]);
      if t in s.flights {
        RejectedKeysStayOut(now, cache, es[..|es| - 1], t);
      }
      StepKeepsFit(s, es[|es| - 1], t);
    }
  }
}
