/**
 * Where a key comes from: every key that an attempt holds, answers with or leaves in the cache was
 * returned by the issuer to that very attempt, or stood in the cache when it was taken.
 */
module Provenance {
  import opened Machine
  import opened Texts
  import opened Approval

  /** The issuer returned `key` to `t` while the request of `t` was under way. */
  ghost predicate Returned(first: System, es: seq<Event>, t: nat, key: string) {
    exists j :: 0 <= j < |es| && es[j] == IssuerReturns(t, Some(key)) && WasIssuing(Run(first, es[..j]), t)
  }

  predicate WasIssuing(s: System, t: nat) {
    t in s.flights && s.flights[t].phase.Issuing?
  }

  /** At `s` the attempt `t` held the lock, and the store after it holds `key` for the full time to live. */
  predicate Puts(s: System, after: Store, t: nat, key: string) {
    Holder(s.store, s.now) == Some(t) && after.cache == Some(Entry(key, s.now + 23 * 3600 * 1000))
  }

  /** `t` held the lock and put `key` into the cache. */
  ghost predicate Published(first: System, es: seq<Event>, t: nat, key: string) {
    exists j :: 0 <= j < |es| && es[j].Publish? && es[j].token == t
                && Puts(Run(first, es[..j]), Run(first, es[..j + 1]).store, t, key)
  }

  /** `key` stood in the cache with time to spare, and was not the one `t` had been told is rejected. */
  ghost predicate Takes(s: System, t: nat, key: string) {
    && t in s.flights && s.store.cache.Some? && s.store.cache.value.key == key
    && var f, ttl := s.flights[t], s.store.cache.value.expiry - s.now;
    && ttl > 0 && ttl > f.margin && !IsBlank(key)
    && (f.force ==> f.rejected != "" && key != f.rejected)
  }

  ghost predicate Taken(first: System, es: seq<Event>, t: nat, key: string) {
    exists j :: 0 <= j < |es| && es[j] in {Poll(t), Check(t)} && Takes(Run(first, es[..j]), t, key)
  }

  ghost predicate AnswerSourced(first: System, es: seq<Event>, t: nat, a: Answer) {
    match a
    case NoAnswer => true
    case FromCache(key) => Taken(first, es, t, key)
    case FromIssuer(key) => Returned(first, es, t, key) && Published(first, es, t, key)
  }

  ghost predicate Sourced(first: System, es: seq<Event>, t: nat, p: Phase) {
    match p
    case Issued(key) => Returned(first, es, t, key) && !IsBlank(key)
    case Releasing(a) => AnswerSourced(first, es, t, a)
    case Finished(a) => AnswerSourced(first, es, t, a)
    case _ => true
  }

  ghost predicate KeySourced(first: System, es: seq<Event>, t: nat, key: string) {
    Returned(first, es, t, key) && Published(first, es, t, key)
  }

  /** The cached entry was there at the start, or an attempt was issued its key and published it. */
  ghost predicate CacheSourced(first: System, es: seq<Event>) {
    var cache := Run(first, es).store.cache;
    cache.Some? && cache != first.store.cache ==>
      exists t :: KeySourced(first, es, t, cache.value.key)
  }

  // ---------------------------------------------------------------- more events keep what happened

  lemma ReturnedStays(first: System, es: seq<Event>, e: Event, t: nat, key: string)
    requires Returned(first, es, t, key)
    ensures Returned(first, es + [e], t, key)
  {
    var j :| 0 <= j < |es| && es[j] == IssuerReturns(t, Some(key)) && WasIssuing(Run(first, es[..j]), t);
    assert (es + [e])[j] == es[j] && (es + [e])[..j] == es[..j];
  }

  lemma PublishedStays(first: System, es: seq<Event>, e: Event, t: nat, key: string)
    requires Published(first, es, t, key)
    ensures Published(first, es + [e], t, key)
  {
    var j :| 0 <= j < |es| && es[j].Publish? && es[j].token == t
             && Puts(Run(first, es[..j]), Run(first, es[..j + 1]).store, t, key);
    assert (es + [e])[j] == es[j] && (es + [e])[..j] == es[..j] && (es + [e])[..j + 1] == es[..j + 1];
  }

  lemma TakenStays(first: System, es: seq<Event>, e: Event, t: nat, key: string)
    requires Taken(first, es, t, key)
    ensures Taken(first, es + [e], t, key)
  {
    var j :| 0 <= j < |es| && es[j] in {Poll(t), Check(t)} && Takes(Run(first, es[..j]), t, key);
    assert (es + [e])[j] == es[j] && (es + [e])[..j] == es[..j];
  }

  lemma AnswerStaysSourced(first: System, es: seq<Event>, e: Event, t: nat, a: Answer)
    requires AnswerSourced(first, es, t, a)
    ensures AnswerSourced(first, es + [e], t, a)
  {
    match a
    case NoAnswer =>
    case FromCache(key) => TakenStays(first, es, e, t, key);
    case FromIssuer(key) =>
      ReturnedStays(first, es, e, t, key);
      PublishedStays(first, es, e, t, key);
  }

  lemma StaysSourced(first: System, es: seq<Event>, e: Event, t: nat, p: Phase)
    requires Sourced(first, es, t, p)
    ensures Sourced(first, es + [e], t, p)
  {
    match p
    case Issued(key) => ReturnedStays(first, es, e, t, key);
    case Releasing(a) => AnswerStaysSourced(first, es, e, t, a);
    case Finished(a) => AnswerStaysSourced(first, es, e, t, a);
    case _ =>
  }

  // ---------------------------------------------------------------- one event

  lemma RunOne(first: System, es: seq<Event>, e: Event)
    ensures Run(first, es + [e]) == Step(Run(first, es), e)
    ensures (es + [e])[..|es|] == es && (es + [e])[..|es| + 1] == es + [e]
  {
    assert (es + [e])[..|es|] == es;
  }

  /** What an event that moved the attempt to a new phase must have been. */
  lemma NewPhase(s: System, e: Event, t: nat)
    requires t in Step(s, e).flights && (t in s.flights ==> Step(s, e).flights[t].phase != s.flights[t].phase)
    ensures var p := Step(s, e).flights[t].phase;
            && (p.Issued? ==> e == IssuerReturns(t, Some(p.key)) && WasIssuing(s, t) && !IsBlank(p.key))
            && (p.Finished? && t in s.flights && s.flights[t].phase.Releasing? ==>
                  p.result == s.flights[t].phase.leaving)
            && (p.Finished? && p.result.FromCache? && !(t in s.flights && s.flights[t].phase.Releasing?) ==>
                  e == Poll(t) && Takes(s, t, p.result.key))
            && (p.Finished? && p.result.FromIssuer? ==> t in s.flights && s.flights[t].phase.Releasing?)
            && (p.Releasing? && p.leaving.FromCache? ==> e == Check(t) && Takes(s, t, p.leaving.key))
            && (p.Releasing? && p.leaving.FromIssuer? ==>
                  && e == Publish(t, true) && t in s.flights && s.flights[t].phase == Issued(p.leaving.key)
                  && Puts(s, Step(s, e).store, t, p.leaving.key))
  {
    if !e.Advance? && !e.Begin? && t in s.flights && t != e.token {
      StepOnlyMovesItsOwn(s, e, t);
    }
  }

  lemma ReturnsNow(first: System, es: seq<Event>, t: nat, key: string)
    requires WasIssuing(Run(first, es), t)
    ensures Returned(first, es + [IssuerReturns(t, Some(key))], t, key)
  {
    var all := es + [IssuerReturns(t, Some(key))];
    assert all[|es|] == IssuerReturns(t, Some(key)) && all[..|es|] == es;
  }

  lemma PublishesNow(first: System, es: seq<Event>, t: nat, answered: bool, key: string)
    requires Puts(Run(first, es), Step(Run(first, es), Publish(t, answered)).store, t, key)
    ensures Published(first, es + [Publish(t, answered)], t, key)
  {
    var all := es + [Publish(t, answered)];
    RunOne(first, es, Publish(t, answered));
    var j := |es|;
    assert all[j] == Publish(t, answered) && all[..j] == es && all[..j + 1] == all;
  }

  lemma TakesNow(first: System, es: seq<Event>, e: Event, t: nat, key: string)
    requires e in {Poll(t), Check(t)} && Takes(Run(first, es), t, key)
    ensures Taken(first, es + [e], t, key)
  {
    var all := es + [e];
    assert all[|es|] == e && all[..|es|] == es;
  }

  lemma StepSources(first: System, es: seq<Event>, e: Event, t: nat)
    requires var s := Run(first, es);
             && t in Step(s, e).flights && (t in s.flights ==> Sourced(first, es, t, s.flights[t].phase))
    ensures Sourced(first, es + [e], t, Step(Run(first, es), e).flights[t].phase)
  {
    var s := Run(first, es);
    var p := Step(s, e).flights[t].phase;
    if t in s.flights {
      StaysSourced(first, es, e, t, s.flights[t].phase);
    }
    if t !in s.flights || p != s.flights[t].phase {
      NewPhase(s, e, t);
      if p.Issued? {
        ReturnsNow(first, es, t, p.key);
      } else if p.Releasing? {
        ReleasingIsSourced(first, es, e, t, p.leaving);
      } else if p.Finished? && p.result.FromCache? && !(t in s.flights && s.flights[t].phase.Releasing?) {
        TakesNow(first, es, e, t, p.result.key);
      }
    }
  }

  lemma ReleasingIsSourced(first: System, es: seq<Event>, e: Event, t: nat, a: Answer)
    requires var s := Run(first, es);
             && t in s.flights && Sourced(first, es, t, s.flights[t].phase)
             && (a.FromCache? ==> e == Check(t) && Takes(s, t, a.key))
             && (a.FromIssuer? ==>
                   && e == Publish(t, true) && s.flights[t].phase == Issued(a.key)
                   && Puts(s, Step(s, e).store, t, a.key))
    ensures AnswerSourced(first, es + [e], t, a)
  {
    match a
    case NoAnswer =>
    case FromCache(key) => TakesNow(first, es, e, t, key);
    case FromIssuer(key) =>
      ReturnedStays(first, es, e, t, key);
      PublishesNow(first, es, t, true, key);
  }

  // ---------------------------------------------------------------- every run

  /**
   * In any run, a key an attempt was issued, leaves with or has answered with has a source: from the
   * issuer, it was returned to this attempt while its request was under way, and an answer was also
   * published under the own lock; from the cache, it stood there with time to spare.
   */
  lemma {:induction false} EveryKeyHasASource(now: int, cache: Option<Entry>, es: seq<Event>, t: nat)
    requires t in Run(Initially(now, cache), es).flights
    ensures Sourced(Initially(now, cache), es, t, Run(Initially(now, cache), es).flights[t].phase)
  {
    var first := Initially(now, cache);
    if es != [] {
      var n := |es| - 1;
      var s := Run(first, es[..n]);
      if t in s.flights {
        EveryKeyHasASource(now, cache, es[..n], t);
      }
      StepSources(first, es[..n], es[n], t);
      assert es[..n] + [es[n]] == es;
    }
  }

  /** In any run, whatever stands in the cache was there at the start or is an issued and published key. */
  lemma {:induction false} CachedKeysAreIssued(now: int, cache: Option<Entry>, es: seq<Event>)
    ensures CacheSourced(Initially(now, cache), es)
  {
    var first := Initially(now, cache);
    if es != [] {
      var n := |es| - 1;
      CachedKeysAreIssued(now, cache, es[..n]);
      CacheStaysSourced(now, cache, es[..n], es[n]);
      assert es[..n] + [es[n]] == es;
    }
  }

  lemma KeyStaysSourced(first: System, es: seq<Event>, e: Event, t: nat, key: string)
    requires KeySourced(first, es, t, key)
    ensures KeySourced(first, es + [e], t, key)
  {
    ReturnedStays(first, es, e, t, key);
    PublishedStays(first, es, e, t, key);
  }

  /** A new entry is the key its publisher was issued. */
  lemma NewEntryIsSourced(now: int, cache: Option<Entry>, es: seq<Event>, e: Event) returns (t: nat)
    requires var s := Run(Initially(now, cache), es);
             Step(s, e).store.cache.Some? && Step(s, e).store.cache != s.store.cache
    ensures KeySourced(Initially(now, cache), es + [e], t,
            Step(Run(Initially(now, cache), es), e).store.cache.value.key)
  {
    var first := Initially(now, cache);
    var s := Run(first, es);
    var key := Step(s, e).store.cache.value.key;
    CacheStep(s, e);
    t := e.token;
    EveryKeyHasASource(now, cache, es, t);
    ReturnedStays(first, es, e, t, key);
    PublishesNow(first, es, t, e.answered, key);
  }

  lemma CacheStaysSourced(now: int, cache: Option<Entry>, es: seq<Event>, e: Event)
    requires CacheSourced(Initially(now, cache), es)
    ensures CacheSourced(Initially(now, cache), es + [e])
  {
    var first := Initially(now, cache);
    var before, after := Run(first, es).store.cache, Step(Run(first, es), e).store.cache;
    RunOne(first, es, e);
    if after.Some? && after != before {
      var t := NewEntryIsSourced(now, cache, es, e);
    } else if after.Some? && after != first.store.cache {
      var t :| KeySourced(first, es, t, after.value.key);
      KeyStaysSourced(first, es, e, t, after.value.key);
    }
  }

  // ---------------------------------------------------------------- when a key may be taken, and the lock

  /**
   * A waiting attempt takes the cached key exactly when it may, and so does the holder, who otherwise
   * goes on to clear the cache if it was forced, or to ask the issuer.
   */
  lemma KeysAreTakenExactly(s: System, t: nat, key: string)
    requires t in s.flights
    ensures s.flights[t].phase.Waiting? ==>
              (Step(s, Poll(t)).flights[t].phase == Finished(FromCache(key)) <==> Takes(s, t, key))
    ensures s.flights[t].phase.Holding? ==>
              (Step(s, Check(t)).flights[t].phase == Releasing(FromCache(key)) <==> Takes(s, t, key))
    ensures s.flights[t].phase.Holding? && (forall k :: !Takes(s, t, k)) ==>
              Step(s, Check(t)).flights[t].phase == if s.flights[t].force then Clearing else Ready
  {
    var f := s.flights[t];
    var found := Acceptable(s.store, s.now, f.margin, f.force, f.rejected);
    assert found == Some(key) <==> Takes(s, t, key);
    if found.Some? {
      assert Takes(s, t, found.value);
    }
  }

  /** An attempt gets the lock exactly when no lock is alive, for fifteen seconds. */
  lemma LocksAreGrantedExactly(s: System, t: nat)
    requires t in s.flights && s.flights[t].phase.Asking?
    ensures var free := s.store.lock.None? || s.now >= s.store.lock.value.expiry;
            var s1 := Step(s, Ask(t, true));
            && s1.flights[t].phase == (if free then Holding else Waiting)
            && s1.store.lock == (if free then Some(Lock(t, s.now + 15_000)) else s.store.lock)
  {
  }

}
