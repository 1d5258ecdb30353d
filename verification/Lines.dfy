/** Files of newline-terminated records, as `internal/exec/journal.go` and `internal/book/evidence.go` write them. */
module Lines {
  import opened Machine

  type Byte = b: int | 0 <= b < 256

  const NEWLINE: Byte := 10

  /** How one record becomes the bytes of one line, and back. */
  datatype Codec<!L> = Codec(enc: L -> seq<Byte>, dec: seq<Byte> -> Option<L>)

  /** What JSON encoding gives: decoding inverts it, and an encoded record holds no newline. */
  ghost predicate Faithful<L(!new)>(c: Codec<L>) {
    && (forall l :: c.dec(c.enc(l)) == Some(l))
    && (forall l :: NEWLINE !in c.enc(l))
  }

  function Terminated<L>(c: Codec<L>, l: L): seq<Byte> {
    c.enc(l) + [NEWLINE]
  }

  function Joined<L>(c: Codec<L>, ls: seq<L>): seq<Byte> {
    if ls == [] then [] else Joined(c, ls[..|ls| - 1]) + Terminated(c, ls[|ls| - 1])
  }

  /** `data` is the whole lines `ls` followed by bytes without a newline. */
  ghost predicate Holds<L>(c: Codec<L>, data: seq<Byte>, ls: seq<L>) {
    && Joined(c, ls) <= data
    && NEWLINE !in data[|Joined(c, ls)|..]
  }

  /** `bytes.IndexByte`, from `start`; the length of `data` when there is none. */
  function IndexNewline(data: seq<Byte>, start: nat): (i: nat)
    requires start <= |data|
    ensures start <= i <= |data|
    ensures NEWLINE !in data[start..i]
    ensures i < |data| ==> data[i] == NEWLINE
    decreases |data| - start
  {
    if start == |data| || data[start] == NEWLINE then start
    else
      var i := IndexNewline(data, start + 1);
      assert data[start..i] == [data[start]] + data[start + 1..i];
      i
  }

  lemma NewlineIsFirst(data: seq<Byte>, start: nat, at: nat)
    requires start <= at < |data| && data[at] == NEWLINE && NEWLINE !in data[start..at]
    ensures IndexNewline(data, start) == at
  {
    var i := IndexNewline(data, start);
    assert forall k :: start <= k < at ==> data[k] == data[start..at][k - start];
    assert forall k :: start <= k < i ==> data[k] == data[start..i][k - start];
  }

  lemma {:induction false} JoinedGrows<L>(c: Codec<L>, ls: seq<L>, k: nat)
    requires k <= |ls|
    ensures Joined(c, ls[..k]) <= Joined(c, ls)
    ensures k < |ls| ==> Joined(c, ls[..k + 1]) == Joined(c, ls[..k]) + Terminated(c, ls[k])
  {
    if k < |ls| {
      assert ls[..k + 1][..k] == ls[..k];
      var front := ls[..|ls| - 1];
      assert front[..k] == ls[..k];
      JoinedGrows(c, front, k);
    } else {
      assert ls[..k] == ls;
    }
  }

  /** The line after the first `k` starts at their length and ends at the next newline. */
  lemma NextLine<L(!new)>(c: Codec<L>, data: seq<Byte>, ls: seq<L>, k: nat)
    requires Faithful(c) && Joined(c, ls) <= data && k < |ls|
    ensures var start := |Joined(c, ls[..k])|;
            && start < |data|
            && IndexNewline(data, start) == start + |c.enc(ls[k])| < |data|
            && data[start..start + |c.enc(ls[k])|] == c.enc(ls[k])
            && |Joined(c, ls[..k + 1])| == start + |c.enc(ls[k])| + 1 <= |data|
  {
    JoinedGrows(c, ls, k);
    JoinedGrows(c, ls, k + 1);
    var head, line := Joined(c, ls[..k]), c.enc(ls[k]);
    var start, at := |head|, |head| + |line|;
    var prefix := head + (line + [NEWLINE]);
    assert prefix == Joined(c, ls[..k + 1]);
    assert prefix <= data;
    assert data[..|prefix|] == prefix;
    assert data[start..at] == prefix[start..at] == line;
    assert data[at] == prefix[at] == NEWLINE;
    NewlineIsFirst(data, start, at);
  }

  /** After the last whole line there is no further newline. */
  lemma NoLineAfter<L>(c: Codec<L>, data: seq<Byte>, ls: seq<L>)
    requires Holds(c, data, ls)
    ensures IndexNewline(data, |Joined(c, ls)|) == |data|
  {
    var start := |Joined(c, ls)|;
    assert forall k :: start <= k < |data| ==> data[k] == data[start..][k - start];
  }

  /**
   * Writing the first `n` bytes of one more line keeps the old lines, and adds the new one only when
   * all of it arrived.
   */
  lemma PartialWrite<L(!new)>(c: Codec<L>, ls: seq<L>, l: L, n: nat)
    requires Faithful(c) && n <= |Terminated(c, l)|
    ensures var data := Joined(c, ls) + Terminated(c, l)[..n];
            && Holds(c, data, if n == |Terminated(c, l)| then ls + [l] else ls)
            && (n == |Terminated(c, l)| ==> data == Joined(c, ls + [l]))
  {
    var data := Joined(c, ls) + Terminated(c, l)[..n];
    assert (ls + [l])[..|ls|] == ls;
    assert data[|Joined(c, ls)|..] == Terminated(c, l)[..n];
    if n == |Terminated(c, l)| {
      assert Terminated(c, l)[..n] == Terminated(c, l);
      assert data == Joined(c, ls + [l]);
    } else {
      assert Terminated(c, l)[..n] == c.enc(l)[..n];
    }
  }

  /** Cutting a file of whole lines anywhere keeps the lines that ended before the cut. */
  lemma {:induction false} CutHolds<L(!new)>(c: Codec<L>, ls: seq<L>, cut: nat) returns (k: nat)
    requires Faithful(c) && cut <= |Joined(c, ls)|
    ensures k <= |ls| && Holds(c, Joined(c, ls)[..cut], ls[..k])
    ensures |Joined(c, ls[..k])| <= cut
    ensures k < |ls| ==> cut <= |Joined(c, ls[..k])| + |c.enc(ls[k])| < |Joined(c, ls[..k + 1])|
    ensures k < |ls| ==> Joined(c, ls)[..cut] == Joined(c, ls[..k]) + c.enc(ls[k])[..cut - |Joined(c, ls[..k])|]
  {
    var all := Joined(c, ls);
    if ls == [] || cut == |all| {
      k := |ls|;
      assert ls[..k] == ls && all[..cut] == all;
    } else {
      var m := |ls| - 1;
      var head := Joined(c, ls[..m]);
      var line := Terminated(c, ls[m]);
      assert all == head + line;
      if cut < |head| {
        k := CutHolds(c, ls[..m], cut);
        assert ls[..m][..m] == ls[..m];
        assert ls[..m][..k] == ls[..k] && ls[..m][..k + 1] == ls[..k + 1];
        assert all[..cut] == head[..cut];
      } else {
        k := m;
        PartialWrite(c, ls[..m], ls[m], cut - |head|);
        assert all[..cut] == head + line[..cut - |head|];
        assert line[..cut - |head|] == c.enc(ls[m])[..cut - |head|];
        assert ls[..k + 1] == ls;
      }
    }
  }

  /**
   * What a reading found: the callback's state, the accepted lines, the offset after the last of them,
   * and whether all was sound.
   */
  datatype Scanned<S> = Scanned(state: S, n: nat, end: nat, ok: bool)

  /** `eachLine` from offset `end` on, where `step` is the callback and refuses a line with `None`. */
  function Scan<S, L>(
      c: Codec<L>, step: (S, nat, L) -> Option<S>, data: seq<Byte>, s: S, n: nat, end: nat): (r: Scanned<S>)
    requires end <= |data|
    ensures r.end <= |data|
    decreases |data| - end
  {
    var i := IndexNewline(data, end);
    if i == |data| then Scanned(s, n, end, true)
    else
      match c.dec(data[end..i])
      case None => Scanned(s, n, end, false)
      case Some(l) =>
        match step(s, n, l)
        case None => Scanned(s, n, end, false)
        case Some(next) => Scan(c, step, data, next, n + 1, i + 1)
  }

  /** The loop the source runs. */
  method EachLine<S, L>(c: Codec<L>, step: (S, nat, L) -> Option<S>, data: seq<Byte>, init: S)
    returns (st: S, n: nat, end: nat, ok: bool)
    ensures Scanned(st, n, end, ok) == Scan(c, step, data, init, 0, 0)
  {
    st, n, end := init, 0, 0;
    while end < |data|
      invariant end <= |data|
      invariant Scan(c, step, data, st, n, end) == Scan(c, step, data, init, 0, 0)
      decreases |data| - end
    {
      var i := IndexNewline(data, end);
      if i == |data| {
        return st, n, end, true;
      }
      var decoded := c.dec(data[end..i]);
      if decoded.None? {
        return st, n, end, false;
      }
      var next := step(st, n, decoded.value);
      if next.None? {
        return st, n, end, false;
      }
      st, n, end := next.value, n + 1, i + 1;
    }
    ok := true;
  }

  /** The callback over a list of lines. */
  function Folded<S, L>(step: (S, nat, L) -> Option<S>, init: S, ls: seq<L>): Option<S> {
    if ls == [] then Some(init)
    else
      match Folded(step, init, ls[..|ls| - 1])
      case None => None
      case Some(s) => step(s, |ls| - 1, ls[|ls| - 1])
  }

  lemma {:induction false} FoldedPrefix<S, L>(step: (S, nat, L) -> Option<S>, init: S, ls: seq<L>, k: nat)
    requires k <= |ls| && Folded(step, init, ls).Some?
    ensures Folded(step, init, ls[..k]).Some?
  {
    if k < |ls| {
      assert ls[..|ls| - 1][..k] == ls[..k];
      FoldedPrefix(step, init, ls[..|ls| - 1], k);
    } else {
      assert ls[..k] == ls;
    }
  }

  lemma {:induction false} FirstRefused<S, L>(step: (S, nat, L) -> Option<S>, init: S, ls: seq<L>) returns (k: nat)
    requires Folded(step, init, ls).None?
    ensures k < |ls| && Folded(step, init, ls[..k]).Some? && Folded(step, init, ls[..k + 1]).None?
  {
    var m := |ls| - 1;
    if Folded(step, init, ls[..m]).Some? {
      k := m;
      assert ls[..m + 1] == ls;
    } else {
      k := FirstRefused(step, init, ls[..m]);
      assert ls[..m][..k] == ls[..k] && ls[..m][..k + 1] == ls[..k + 1];
    }
  }

  /** Reading from the start comes past the first `k` lines with the state they fold to. */
  lemma {:induction false} ScanReaches<S, L(!new)>(
      c: Codec<L>, step: (S, nat, L) -> Option<S>, data: seq<Byte>, init: S, ls: seq<L>, k: nat)
    requires Faithful(c) && Joined(c, ls) <= data && k <= |ls|
    requires Folded(step, init, ls[..k]).Some?
    ensures |Joined(c, ls[..k])| <= |data|
    ensures Scan(c, step, data, init, 0, 0)
            == Scan(c, step, data, Folded(step, init, ls[..k]).value, k, |Joined(c, ls[..k])|)
  {
    if k == 0 {
      assert ls[..k] == [];
    } else {
      assert ls[..k][..k - 1] == ls[..k - 1];
      ScanReaches(c, step, data, init, ls, k - 1);
      NextLine(c, data, ls, k - 1);
    }
  }

  /**
   * A file cut anywhere after its whole lines is accepted exactly when they fold, and gives their fold,
   * number and length.
   */
  lemma ScanOfLines<S, L(!new)>(c: Codec<L>, step: (S, nat, L) -> Option<S>, data: seq<Byte>, init: S, ls: seq<L>)
    requires Faithful(c) && Holds(c, data, ls)
    ensures var r := Scan(c, step, data, init, 0, 0);
            && (r.ok <==> Folded(step, init, ls).Some?)
            && (r.ok ==> r == Scanned(Folded(step, init, ls).value, |ls|, |Joined(c, ls)|, true))
  {
    if Folded(step, init, ls).Some? {
      assert ls[..|ls|] == ls;
      ScanReaches(c, step, data, init, ls, |ls|);
      NoLineAfter(c, data, ls);
    } else {
      var k := FirstRefused(step, init, ls);
      ScanReaches(c, step, data, init, ls, k);
      NextLine(c, data, ls, k);
      assert ls[..k + 1][..k] == ls[..k];
    }
  }
}
