/**
 * What the recorder says of silence: between two frames of a stream there is one stale line at
 * most, with the time of the last frame, and there is one whenever the silence was too long
 * (`internal/book/recorder.go`).
 */
module Silences {
  import opened Machine
  import opened Lines
  import opened Tracking
  import opened Recording

  // ---------------------------------------------------------------- lines of one stream

  predicate IsMark(l: Line, k: StreamKey) {
    l.body.StaleMark? && l.body.staleTR == k.tr && l.body.symbol == k.symbol
  }

  /** A frame with a record of the stream. */
  predicate IsHeard(l: Line, k: StreamKey) {
    l.body.FrameGot? && l.body.tr == k.tr && exists v :: v in l.body.verdicts && v.symbol == k.symbol
  }

  /** Line `m` is the last before line `n` to carry the stream. */
  ghost predicate LastHeard(ls: seq<Line>, n: int, k: StreamKey, m: int) {
    && 0 <= m < n <= |ls| && IsHeard(ls[m], k)
    && forall j :: m < j < n ==> !IsHeard(ls[j], k)
  }

  ghost predicate MarkedBetween(ls: seq<Line>, k: StreamKey, m: int, n: int) {
    exists p :: 0 <= p < |ls| && m < p < n && IsMark(ls[p], k)
  }

  /**
   * A stale line of the stream comes after a frame of it, tells that frame's time, comes too long
   * after it, and is the only one since.
   */
  ghost predicate MarkIsRight(after: int, ls: seq<Line>, k: StreamKey, q: int)
    requires 0 <= q < |ls| && ls[q].body.StaleMark?
  {
    exists m :: LastHeard(ls, q, k, m) && 0 <= m < |ls| && ls[m].atNS == ls[q].body.sinceNS
                && ls[q].atNS - ls[m].atNS > after && !MarkedBetween(ls, k, m, q)
  }

  ghost predicate MarksAreRight(after: int, ls: seq<Line>, k: StreamKey) {
    forall q :: 0 <= q < |ls| && IsMark(ls[q], k) ==> MarkIsRight(after, ls, k, q)
  }

  /** Two frames of the stream too far apart have a stale line between them. */
  ghost predicate GapsAreMarked(after: int, ls: seq<Line>, k: StreamKey) {
    forall q, m ::
      0 <= q < |ls| && IsHeard(ls[q], k) && LastHeard(ls, q, k, m) && 0 <= m < |ls| && ls[q].atNS - ls[m].atNS > after
      ==> MarkedBetween(ls, k, m, q)
  }

  /** The lines say of the stream what `st` does: when it was last heard, and whether it has been marked since. */
  ghost predicate StateOf(ls: seq<Line>, k: StreamKey, st: Option<StreamState>) {
    match st
    case None => forall q :: 0 <= q < |ls| ==> !IsHeard(ls[q], k) && !IsMark(ls[q], k)
    case Some(s) =>
      exists m :: LastHeard(ls, |ls|, k, m) && 0 <= m < |ls| && ls[m].atNS == s.lastNS
                  && (s.stale <==> MarkedBetween(ls, k, m, |ls|))
  }

  ghost predicate Tidy(after: int, ls: seq<Line>, k: StreamKey, st: Option<StreamState>) {
    MarksAreRight(after, ls, k) && GapsAreMarked(after, ls, k) && StateOf(ls, k, st)
  }

  // ---------------------------------------------------------------- one more line

  lemma EarlierLines(ls: seq<Line>, l: Line, n: int, k: StreamKey, m: int)
    requires n <= |ls|
    ensures LastHeard(ls + [l], n, k, m) <==> LastHeard(ls, n, k, m)
    ensures MarkedBetween(ls + [l], k, m, n) <==> MarkedBetween(ls, k, m, n)
  {
    var more := ls + [l];
    assert forall p :: 0 <= p < |ls| ==> more[p] == ls[p];
    if MarkedBetween(ls, k, m, n) {
      var p :| 0 <= p < |ls| && m < p < n && IsMark(ls[p], k);
      assert IsMark(more[p], k);
    }
    if MarkedBetween(more, k, m, n) {
      var p :| 0 <= p < |more| && m < p < n && IsMark(more[p], k);
      assert IsMark(ls[p], k);
    }
  }

  lemma OldMarksStayRight(after: int, ls: seq<Line>, l: Line, k: StreamKey)
    requires MarksAreRight(after, ls, k)
    requires IsMark(l, k) ==> MarkIsRight(after, ls + [l], k, |ls|)
    ensures MarksAreRight(after, ls + [l], k)
  {
    var more := ls + [l];
    forall q | 0 <= q < |more| && IsMark(more[q], k)
      ensures MarkIsRight(after, more, k, q)
    {
      if q < |ls| {
        assert more[q] == ls[q] && MarkIsRight(after, ls, k, q);
        var m :| LastHeard(ls, q, k, m) && 0 <= m < |ls| && ls[m].atNS == ls[q].body.sinceNS
                 && ls[q].atNS - ls[m].atNS > after && !MarkedBetween(ls, k, m, q);
        EarlierLines(ls, l, q, k, m);
        assert more[m] == ls[m];
      }
    }
  }

  lemma OldGapsStayMarked(after: int, ls: seq<Line>, l: Line, k: StreamKey)
    requires GapsAreMarked(after, ls, k)
    requires IsHeard(l, k) ==>
               forall m :: LastHeard(ls, |ls|, k, m) && 0 <= m < |ls| && l.atNS - ls[m].atNS > after ==>
                 MarkedBetween(ls, k, m, |ls|)
    ensures GapsAreMarked(after, ls + [l], k)
  {
    var more := ls + [l];
    forall q, m | 0 <= q < |more| && IsHeard(more[q], k) && LastHeard(more, q, k, m) && 0 <= m < |more|
                  && more[q].atNS - more[m].atNS > after
      ensures MarkedBetween(more, k, m, q)
    {
      EarlierLines(ls, l, q, k, m);
      assert more[m] == ls[m];
    }
  }

  /** A line of no concern to the stream. */
  lemma TidyNeutral(after: int, ls: seq<Line>, l: Line, k: StreamKey, st: Option<StreamState>)
    requires Tidy(after, ls, k, st) && !IsMark(l, k) && !IsHeard(l, k)
    ensures Tidy(after, ls + [l], k, st)
  {
    OldMarksStayRight(after, ls, l, k);
    OldGapsStayMarked(after, ls, l, k);
    var more := ls + [l];
    if st.Some? {
      var m :| LastHeard(ls, |ls|, k, m) && 0 <= m < |ls| && ls[m].atNS == st.value.lastNS
               && (st.value.stale <==> MarkedBetween(ls, k, m, |ls|));
      EarlierLines(ls, l, |ls|, k, m);
      assert LastHeard(more, |more|, k, m) && more[m] == ls[m];
      if p :| 0 <= p < |more| && m < p < |more| && IsMark(more[p], k) {
        assert p < |ls|;
      }
      if p :| 0 <= p < |more| && m < p < |ls| && IsMark(more[p], k) {
        assert p < |more|;
      }
    }
  }

  /** The stale line of a stream that has been silent too long and is not marked. */
  lemma TidyMark(after: int, ls: seq<Line>, l: Line, k: StreamKey, last: int)
    requires Tidy(after, ls, k, Some(StreamState(last, false)))
    requires IsMark(l, k) && l.body.sinceNS == last && l.atNS - last > after
    ensures Tidy(after, ls + [l], k, Some(StreamState(last, true)))
  {
    var more := ls + [l];
    var m :| LastHeard(ls, |ls|, k, m) && 0 <= m < |ls| && ls[m].atNS == last && !MarkedBetween(ls, k, m, |ls|);
    EarlierLines(ls, l, |ls|, k, m);
    assert more[m] == ls[m] && more[|ls|] == l;
    assert MarkIsRight(after, more, k, |ls|);
    OldMarksStayRight(after, ls, l, k);
    OldGapsStayMarked(after, ls, l, k);
    assert LastHeard(more, |more|, k, m) && MarkedBetween(more, k, m, |more|);
  }

  /** A frame after which a too long silence is marked. */
  predicate Settled(after: int, st: Option<StreamState>, atNS: int) {
    st.None? || st.value.stale || atNS - st.value.lastNS <= after
  }

  lemma TidyHeard(after: int, ls: seq<Line>, l: Line, k: StreamKey, st: Option<StreamState>)
    requires Tidy(after, ls, k, st) && IsHeard(l, k) && Settled(after, st, l.atNS)
    ensures Tidy(after, ls + [l], k, Some(StreamState(l.atNS, false)))
  {
    var more := ls + [l];
    OldMarksStayRight(after, ls, l, k);
    forall m | LastHeard(ls, |ls|, k, m) && 0 <= m < |ls| && l.atNS - ls[m].atNS > after
      ensures MarkedBetween(ls, k, m, |ls|)
    {
      var n :| LastHeard(ls, |ls|, k, n) && 0 <= n < |ls| && ls[n].atNS == st.value.lastNS
               && (st.value.stale <==> MarkedBetween(ls, k, n, |ls|));
      assert m == n;
    }
    OldGapsStayMarked(after, ls, l, k);
    assert more[|ls|] == l && LastHeard(more, |more|, k, |ls|);
    assert !MarkedBetween(more, k, |ls|, |more|);
  }

  // ---------------------------------------------------------------- one call

  function StreamAt(r: Rec, k: StreamKey): Option<StreamState> {
    if k in r.streams then Some(r.streams[k]) else None
  }

  /** The lines of a recorder tell of the stream what it keeps of it. */
  ghost predicate TidyFor(r: Rec, k: StreamKey) {
    r.staleAfter > 0 && Tidy(r.staleAfter, r.lines, k, StreamAt(r, k))
  }

  /**
   * The recorder has taken in some records of a frame at `atNS`, and written their stale lines, but
   * not yet the frame: what the lines tell of the stream, and what is kept of it.
   */
  ghost predicate Arriving(r: Rec, k: StreamKey, atNS: int, touched: bool, st: Option<StreamState>) {
    && Tidy(r.staleAfter, r.lines, k, st)
    && if touched then StreamAt(r, k) == Some(StreamState(atNS, false)) && Settled(r.staleAfter, st, atNS)
       else StreamAt(r, k) == st
  }

  predicate Touches(tr: string, vs: seq<Verdict>, k: StreamKey) {
    tr == k.tr && exists v :: v in vs && v.symbol == k.symbol
  }

  /** Whether a record that arrives on a stream gets its stale line. */
  predicate Marks(r: Rec, key: StreamKey, atNS: int) {
    key in r.streams && !r.streams[key].stale && atNS - r.streams[key].lastNS > r.staleAfter
  }

  lemma ArriveShape(r: Rec, key: StreamKey, atNS: int) returns (l: Line)
    ensures var r1 := Arrive(r, key, atNS);
            && r1.staleAfter == r.staleAfter && r1.streams == r.streams[key := StreamState(atNS, false)]
            && r1.lines == if Marks(r, key, atNS) then r.lines + [l] else r.lines
    ensures Marks(r, key, atNS) ==>
              l.atNS == atNS && l.body == StaleMark(key.tr, key.symbol, r.streams[key].lastNS)
  {
    l := Line(FORMAT_VERSION, r.seqNo + 1, atNS,
              StaleMark(key.tr, key.symbol, if key in r.streams then r.streams[key].lastNS else 0));
  }

  /** One record arrives on another stream. */
  lemma OtherArrives(r: Rec, key: StreamKey, atNS: int, k: StreamKey, touched: bool, st: Option<StreamState>)
    requires Arriving(r, k, atNS, touched, st) && key != k
    ensures Arriving(Arrive(r, key, atNS), k, atNS, touched, st)
  {
    var l := ArriveShape(r, key, atNS);
    if Marks(r, key, atNS) {
      TidyNeutral(r.staleAfter, r.lines, l, k, st);
    }
  }

  /** A record arrives on the stream itself. */
  lemma OwnArrives(r: Rec, k: StreamKey, atNS: int, touched: bool, st: Option<StreamState>)
    returns (now: Option<StreamState>)
    requires r.staleAfter > 0 && Arriving(r, k, atNS, touched, st)
    ensures Arriving(Arrive(r, k, atNS), k, atNS, true, now)
  {
    now := st;
    var l := ArriveShape(r, k, atNS);
    if Marks(r, k, atNS) {
      TidyMark(r.staleAfter, r.lines, l, k, r.streams[k].lastNS);
      now := Some(StreamState(r.streams[k].lastNS, true));
    }
  }

  /** One record arrives on a stream. */
  lemma ArriveStep(r: Rec, key: StreamKey, atNS: int, k: StreamKey, touched: bool, st: Option<StreamState>)
    returns (now: Option<StreamState>)
    requires r.staleAfter > 0 && Arriving(r, k, atNS, touched, st)
    ensures Arriving(Arrive(r, key, atNS), k, atNS, touched || key == k, now)
  {
    if key == k {
      now := OwnArrives(r, k, atNS, touched, st);
    } else {
      now := st;
      OtherArrives(r, key, atNS, k, touched, st);
    }
  }

  lemma {:induction false} ArrivalsStep(r: Rec, tr: string, vs: seq<Verdict>, atNS: int, k: StreamKey)
    returns (now: Option<StreamState>)
    requires TidyFor(r, k)
    ensures Arrivals(r, tr, vs, atNS).staleAfter == r.staleAfter
    ensures Arriving(Arrivals(r, tr, vs, atNS), k, atNS, Touches(tr, vs, k), now)
  {
    if vs == [] {
      now := StreamAt(r, k);
    } else {
      var n := |vs| - 1;
      now := ArrivalsStep(r, tr, vs[..n], atNS, k);
      now := ArriveStep(Arrivals(r, tr, vs[..n], atNS), StreamKey(tr, vs[n].symbol), atNS, k,
        Touches(tr, vs[..n], k), now);
      assert Touches(tr, vs, k) <==> Touches(tr, vs[..n], k) || StreamKey(tr, vs[n].symbol) == k by {
        assert vs == vs[..n] + [vs[n]];
      }
    }
  }

  /** The frame's own line. */
  lemma FrameLineIsTidy(
      r: Rec, raw: seq<Byte>, tr: string, vs: seq<Verdict>, atNS: int, k: StreamKey, now: Option<StreamState>)
    requires r.staleAfter > 0 && Arriving(r, k, atNS, Touches(tr, vs, k), now)
    ensures TidyFor(Wrote(r, atNS, FrameGot(tr, raw, None, vs)), k)
  {
    var l := Line(FORMAT_VERSION, r.seqNo + 1, atNS, FrameGot(tr, raw, None, vs));
    if Touches(tr, vs, k) {
      TidyHeard(r.staleAfter, r.lines, l, k, now);
    } else {
      TidyNeutral(r.staleAfter, r.lines, l, k, now);
    }
  }

  /** The tracker is no concern of the lines. */
  lemma TrackerMoves(r: Rec, t: Tracked, k: StreamKey)
    requires TidyFor(r, k)
    ensures TidyFor(r.(t := t), k)
  {
  }

  lemma FrameStaysTidy(r: Rec, f: Frame, raw: seq<Byte>, atNS: int, k: StreamKey)
    requires TidyFor(r, k)
    ensures TidyFor(OnFrame(r, f, raw, atNS), k)
  {
    var tracked := TrackRecords(OnDay(r.t, atNS), f);
    var r1 := r.(t := tracked.0);
    TrackerMoves(r, tracked.0, k);
    var now := ArrivalsStep(r1, TROf(f), tracked.1, atNS, k);
    FrameLineIsTidy(Arrivals(r1, TROf(f), tracked.1, atNS), raw, TROf(f), tracked.1, atNS, k, now);
  }

  /** The keys of an honest tick: each silent stream once. */
  ghost predicate Honest(r: Rec, call: Call) {
    call.Ticked? ==> InOrder(call.keys) && forall k :: k in call.keys <==> Silent(r, k, call.nowNS)
  }

  /** What is kept of the stream once `keys` are flagged. */
  function Flagged(r: Rec, keys: seq<StreamKey>, k: StreamKey): Option<StreamState> {
    if k in keys && k in r.streams then Some(r.streams[k].(stale := true)) else StreamAt(r, k)
  }

  /** The recorder `r1` has flagged `keys` for `r`, as far as the stream goes. */
  ghost predicate FlaggedTo(r: Rec, keys: seq<StreamKey>, r1: Rec, k: StreamKey) {
    && r1.staleAfter == r.staleAfter && r1.streams.Keys == r.streams.Keys
    && Tidy(r.staleAfter, r1.lines, k, StreamAt(r1, k))
    && StreamAt(r1, k) == Flagged(r, keys, k)
  }

  lemma {:induction false} FlagStep(r: Rec, keys: seq<StreamKey>, now: int, k: StreamKey)
    requires TidyFor(r, k)
    requires InOrder(keys) && forall x :: x in keys ==> Silent(r, x, now)
    ensures FlaggedTo(r, keys, Flag(r, keys, now), k)
  {
    if keys != [] {
      var n := |keys| - 1;
      FlagStep(r, keys[..n], now, k);
      assert keys == keys[..n] + [keys[n]] && keys[n] in keys;
      LastIsNew(keys);
      FlagOneMore(r, keys[..n], keys[n], now, k, Flag(r, keys[..n], now));
    }
  }

  lemma FlagOneMore(r: Rec, keys: seq<StreamKey>, key: StreamKey, now: int, k: StreamKey, front: Rec)
    requires Silent(r, key, now) && key !in keys && FlaggedTo(r, keys, front, k)
    requires key == k ==> front.streams[key] == r.streams[key]
    ensures FlaggedTo(r, keys + [key],
                      Wrote(front.(streams := front.streams[key := front.streams[key].(stale := true)]), now,
                            StaleMark(key.tr, key.symbol, front.streams[key].lastNS)), k)
  {
    var l := Line(FORMAT_VERSION, front.seqNo + 1, now, StaleMark(key.tr, key.symbol, front.streams[key].lastNS));
    if key == k {
      TidyMark(r.staleAfter, front.lines, l, k, r.streams[k].lastNS);
    } else {
      TidyNeutral(r.staleAfter, front.lines, l, k, StreamAt(front, k));
      assert k in keys + [key] <==> k in keys;
    }
  }

  /** Keys in order are all different. */
  lemma LastIsNew(keys: seq<StreamKey>)
    requires keys != [] && InOrder(keys)
    ensures keys[|keys| - 1] !in keys[..|keys| - 1]
  {
    var n := |keys| - 1;
    forall i | 0 <= i < n
      ensures keys[i] != keys[n]
    {
      BeforeIsTotal(keys[i].tr, keys[n].tr);
      BeforeIsTotal(keys[i].symbol, keys[n].symbol);
    }
  }

  lemma CallStaysTidy(parse: seq<Byte> -> Parsing, r: Rec, call: Call, k: StreamKey)
    requires TidyFor(r, k) && Honest(r, call)
    ensures TidyFor(OnCall(parse, r, call), k)
  {
    match call
    case GotFrame(raw, atNS) =>
      var parsed := parse(raw);
      if parsed.Parsed? {
        FrameStaysTidy(r, parsed.frame, raw, atNS, k);
      } else if parsed.Damaged? {
        TidyNeutral(r.staleAfter, r.lines, OnCall(parse, r, call).lines[|r.lines|], k, StreamAt(r, k));
      }
    case SocketBack(atNS, attempt) =>
      TidyNeutral(r.staleAfter, r.lines, OnCall(parse, r, call).lines[|r.lines|], k, StreamAt(r, k));
    case Ticked(now, keys) => FlagStep(r, keys, now, k);
  }

  // ---------------------------------------------------------------- a session

  /** Every tick of the session flagged exactly the streams that were silent. */
  ghost predicate HonestCalls(parse: seq<Byte> -> Parsing, r: Rec, calls: seq<Call>) {
    forall n :: 0 <= n < |calls| ==> Honest(OnCalls(parse, r, calls[..n]), calls[n])
  }

  lemma {:induction false} CallsStayTidy(parse: seq<Byte> -> Parsing, r: Rec, calls: seq<Call>, k: StreamKey)
    requires TidyFor(r, k) && HonestCalls(parse, r, calls)
    ensures TidyFor(OnCalls(parse, r, calls), k)
  {
    if calls != [] {
      var n := |calls| - 1;
      forall m | 0 <= m < n
        ensures Honest(OnCalls(parse, r, calls[..n][..m]), calls[..n][m])
      {
        assert calls[..n][..m] == calls[..m];
      }
      CallsStayTidy(parse, r, calls[..n], k);
      CallStaysTidy(parse, OnCalls(parse, r, calls[..n]), calls[n], k);
    }
  }

  lemma {:induction false} ArrivalsKeepLimit(r: Rec, tr: string, vs: seq<Verdict>, atNS: int)
    ensures Arrivals(r, tr, vs, atNS).staleAfter == r.staleAfter
  {
    if vs != [] {
      ArrivalsKeepLimit(r, tr, vs[..|vs| - 1], atNS);
    }
  }

  lemma {:induction false} FlagKeepsLimit(r: Rec, keys: seq<StreamKey>, now: int)
    ensures Flag(r, keys, now).staleAfter == r.staleAfter
  {
    if keys != [] {
      FlagKeepsLimit(r, keys[..|keys| - 1], now);
    }
  }

  lemma CallKeepsLimit(parse: seq<Byte> -> Parsing, r: Rec, call: Call)
    ensures OnCall(parse, r, call).staleAfter == r.staleAfter
  {
    match call
    case GotFrame(raw, atNS) =>
      var parsed := parse(raw);
      if parsed.Parsed? {
        var tracked := TrackRecords(OnDay(r.t, atNS), parsed.frame);
        ArrivalsKeepLimit(r.(t := tracked.0), TROf(parsed.frame), tracked.1, atNS);
      }
    case SocketBack(_, _) =>
    case Ticked(now, keys) => FlagKeepsLimit(r, keys, now);
  }

  lemma {:induction false} LimitStays(parse: seq<Byte> -> Parsing, r: Rec, calls: seq<Call>)
    ensures OnCalls(parse, r, calls).staleAfter == r.staleAfter
  {
    if calls != [] {
      LimitStays(parse, r, calls[..|calls| - 1]);
      CallKeepsLimit(parse, OnCalls(parse, r, calls[..|calls| - 1]), calls[|calls| - 1]);
    }
  }

  lemma NewIsTidy(staleAfter: int, now: int, k: StreamKey)
    ensures TidyFor(NewRec(staleAfter, now), k)
  {
  }

  /**
   * In every session, for every stream: a stale line comes after the stream's last frame, tells that
   * frame's time, comes more than the limit after it, and no other has come since; and wherever two
   * frames of the stream are further apart than the limit, there is a stale line between them.
   */
  lemma SilencesAreMarkedOnce(
      parse: seq<Byte> -> Parsing, staleAfter: int, now: int, calls: seq<Call>, k: StreamKey)
    requires HonestCalls(parse, NewRec(staleAfter, now), calls)
    ensures var lines := OnCalls(parse, NewRec(staleAfter, now), calls).lines;
            var limit := if staleAfter <= 0 then 2_000_000_000 else staleAfter;
            MarksAreRight(limit, lines, k) && GapsAreMarked(limit, lines, k)
  {
    NewIsTidy(staleAfter, now, k);
    LimitStays(parse, NewRec(staleAfter, now), calls);
    CallsStayTidy(parse, NewRec(staleAfter, now), calls, k);
  }

  /** After a tick no silence is unmarked, so a second tick in the same silence flags nothing. */
  lemma SecondTickFlagsNothing(parse: seq<Byte> -> Parsing, r: Rec, now: int, keys: seq<StreamKey>, k: StreamKey)
    requires r.staleAfter > 0 && Honest(r, Ticked(now, keys)) && k in keys
    ensures var r1 := OnCall(parse, r, Ticked(now, keys));
            k in r1.streams && r1.streams[k] == r.streams[k].(stale := true)
            && forall later: int :: !Silent(r1, k, later)
  {
    FlagMarks(r, keys, now, k);
  }

  lemma {:induction false} FlagMarks(r: Rec, keys: seq<StreamKey>, now: int, k: StreamKey)
    requires InOrder(keys) && forall x :: x in keys ==> Silent(r, x, now)
    ensures Flag(r, keys, now).streams.Keys == r.streams.Keys
    ensures k in r.streams ==>
              Flag(r, keys, now).streams[k] == if k in keys then r.streams[k].(stale := true) else r.streams[k]
  {
    if keys != [] {
      var n := |keys| - 1;
      assert keys == keys[..n] + [keys[n]];
      FlagMarks(r, keys[..n], now, k);
    }
  }
}
