/**
 * Providers that hand out keys and reissue the one that was rejected
 * (`ApprovalKey`, `Reissue` and `present` of `internal/reader/approval.go`).
 */
module Providers {
  import opened Machine
  import opened Approval

  /** The attempts over the store, the key each provider presented last, and whose attempt each token is. */
  datatype Fleet = Fleet(sys: System, last: map<nat, string>, owner: map<nat, nat>)

  /** `lastKey`: empty until a key was presented. */
  function LastKey(f: Fleet, p: nat): string {
    if p in f.last then f.last[p] else ""
  }

  datatype Call =
    | AskKey(p: nat, token: nat, margin: int)   // `ApprovalKey` starts an attempt
    | Reissue(p: nat, token: nat, margin: int)  // the key presented last was rejected
    | Serve(p: nat)                             // `ApprovalKey` hands out the cached key while it lives
    | Present(done: nat)                        // an attempt's key is handed out
    | Meanwhile(event: Event)                   // any other event of the attempts and the store

  function AnswerKey(a: Answer): Option<string> {
    match a
    case NoAnswer => None
    case FromCache(key) => Some(key)
    case FromIssuer(key) => Some(key)
  }

  ghost function Called(f: Fleet, c: Call): Fleet {
    match c
    case AskKey(p, token, margin) =>
      if token in f.sys.flights then f
      else Fleet(Step(f.sys, Begin(token, false, "", margin)), f.last, f.owner[token := p])
    case Reissue(p, token, margin) =>
      if token in f.sys.flights then f
      else Fleet(Step(f.sys, Begin(token, true, LastKey(f, p), margin)), f.last, f.owner[token := p])
    case Serve(p) =>
      var cache := f.sys.store.cache;
      if cache.Some? && f.sys.now < cache.value.expiry then f.(last := f.last[p := cache.value.key]) else f
    case Present(t) =>
      if t !in f.owner || t !in f.sys.flights || !f.sys.flights[t].phase.Finished? then f
      else
        var key := AnswerKey(f.sys.flights[t].phase.result);
        if key.Some? then f.(last := f.last[f.owner[t] := key.value]) else f
    case Meanwhile(e) => if e.Begin? then f else f.(sys := Step(f.sys, e))
  }

  ghost function Calls(f: Fleet, cs: seq<Call>): Fleet {
    if cs == [] then f else Called(Calls(f, cs[..|cs| - 1]), cs[|cs| - 1])
  }

  /** A reissue that was told `rejected`, and what it answered so far. */
  ghost predicate AvoidsKey(f: Fleet, t: nat, rejected: string) {
    && t in f.sys.flights
    && f.sys.flights[t].force && f.sys.flights[t].rejected == rejected
    && AnswerIsFit(f.sys.flights[t])
  }

  lemma StepKeepsRequest(s: System, e: Event, t: nat)
    requires t in s.flights
    ensures t in Step(s, e).flights
    ensures Step(s, e).flights[t].force == s.flights[t].force && Step(s, e).flights[t].rejected == s.flights[t].rejected
  {
    if !e.Advance? && !e.Begin? && t != e.token {
      StepOnlyMovesItsOwn(s, e, t);
    }
  }

  lemma CallKeepsAvoiding(f: Fleet, c: Call, t: nat, rejected: string)
    requires AvoidsKey(f, t, rejected)
    ensures AvoidsKey(Called(f, c), t, rejected)
  {
    match c
    case AskKey(p, token, margin) =>
      StepKeepsRequest(f.sys, Begin(token, false, "", margin), t);
      StepKeepsFit(f.sys, Begin(token, false, "", margin), t);
    case Reissue(p, token, margin) =>
      StepKeepsRequest(f.sys, Begin(token, true, LastKey(f, p), margin), t);
      StepKeepsFit(f.sys, Begin(token, true, LastKey(f, p), margin), t);
    case Meanwhile(e) =>
      StepKeepsRequest(f.sys, e, t);
      StepKeepsFit(f.sys, e, t);
    case _ =>
  }

  lemma {:induction false} CallsKeepAvoiding(f: Fleet, cs: seq<Call>, t: nat, rejected: string)
    requires AvoidsKey(f, t, rejected)
    ensures AvoidsKey(Calls(f, cs), t, rejected)
  {
    if cs != [] {
      CallsKeepAvoiding(f, cs[..|cs| - 1], t, rejected);
      CallKeepsAvoiding(Calls(f, cs[..|cs| - 1]), cs[|cs| - 1], t, rejected);
    }
  }

  /**
   * A provider that presented a key and reissues: whatever all providers do meanwhile, the key
   * this reissue takes from the cache is not the one presented last, and without a presented key
   * it takes none.
   */
  lemma ReissueAvoidsThePresentedKey(f: Fleet, p: nat, token: nat, margin: int, cs: seq<Call>)
    requires token !in f.sys.flights
    ensures var end := Calls(Called(f, Reissue(p, token, margin)), cs);
            && token in end.sys.flights
            && var phase := end.sys.flights[token].phase;
            && (phase.Finished? && phase.result.FromCache? ==>
                LastKey(f, p) != "" && phase.result.key != LastKey(f, p))
            && (phase.Releasing? && phase.leaving.FromCache? ==>
                LastKey(f, p) != "" && phase.leaving.key != LastKey(f, p))
  {
    CallsKeepAvoiding(Called(f, Reissue(p, token, margin)), cs, token, LastKey(f, p));
  }

  /** What a finished attempt hands out is what its provider reissues against next. */
  lemma PresentedKeyIsRejectedNext(f: Fleet, t: nat, token: nat, margin: int, key: string)
    requires t in f.owner && t in f.sys.flights && f.sys.flights[t].phase.Finished?
    requires AnswerKey(f.sys.flights[t].phase.result) == Some(key)
    requires token !in f.sys.flights
    ensures var p := f.owner[t];
            var next := Called(Called(f, Present(t)), Reissue(p, token, margin));
            token in next.sys.flights && next.sys.flights[token].force && next.sys.flights[token].rejected == key
  {
  }
}
