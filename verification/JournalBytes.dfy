/** The bytes of the write-ahead log: reading, truncation and append of `internal/exec/journal.go`. */
module JournalBytes {
  import opened Machine
  import opened Executors
  import opened Lines

  /** The callback of `replay`, after the version and sequence checks of `eachLine`. */
  function Accept(s: State, n: nat, l: JLine): Option<State> {
    if l.v == JOURNAL_VERSION && l.seqNo == n + 1 && Apply(s, l.rec) == Ok(l.digest) then Some(l.digest) else None
  }

  lemma {:induction false} FoldIsReplay(lines: seq<JLine>)
    ensures Folded(Accept, EMPTY_STATE, lines) == ReplayLines(lines)
  {
    if lines != [] {
      FoldIsReplay(lines[..|lines| - 1]);
    }
  }

  /**
   * Reading a journal cut anywhere after its whole lines accepts it exactly when those lines
   * replay, and then finds their state, their number and the offset where the next line belongs.
   */
  lemma ReadingIsReplay(c: Codec<JLine>, data: seq<Byte>, lines: seq<JLine>)
    requires Faithful(c) && Holds(c, data, lines)
    ensures var r := Scan(c, Accept, data, EMPTY_STATE, 0, 0);
            && (r.ok <==> ReplayLines(lines).Some?)
            && (r.ok ==> r == Scanned(ReplayLines(lines).value, |lines|, |Joined(c, lines)|, true))
  {
    ScanOfLines(c, Accept, data, EMPTY_STATE, lines);
    FoldIsReplay(lines);
  }

  /** The journal file behind one open handle. */
  class JournalFile {
    const codec: Codec<JLine>
    var data: seq<Byte>
    var seqNo: nat

    constructor (c: Codec<JLine>, found: seq<Byte>)
      ensures codec == c && data == found && seqNo == 0
    {
      codec, data, seqNo := c, found, 0;
    }

    /**
     * `openJournal`, on any bytes: replays, and cuts a torn tail off so the next record starts on
     * its own line. A journal with a whole line that does not decode, or is refused, is left alone.
     */
    method Open() returns (st: Option<State>)
      modifies this
      ensures var r := Scan(codec, Accept, old(data), EMPTY_STATE, 0, 0);
              && (st.Some? <==> r.ok)
              && (r.ok ==> st == Some(r.state) && data == old(data)[..r.end] && seqNo == r.n)
              && (!r.ok ==> data == old(data) && seqNo == old(seqNo))
      ensures forall lines :: Faithful(codec) && Holds(codec, old(data), lines) ==>
                && st == ReplayLines(lines)
                && (st.Some? ==> data == Joined(codec, lines) && seqNo == |lines|)
    {
      ghost var found := data;
      forall lines | Faithful(codec) && Holds(codec, found, lines)
        ensures var r := Scan(codec, Accept, found, EMPTY_STATE, 0, 0);
                && (r.ok <==> ReplayLines(lines).Some?)
                && (r.ok ==> r == Scanned(ReplayLines(lines).value, |lines|, |Joined(codec, lines)|, true))
                && found[..|Joined(codec, lines)|] == Joined(codec, lines)
      {
        ReadingIsReplay(codec, found, lines);
      }
      var state, n, end, ok := EachLine(codec, Accept, data, EMPTY_STATE);
      if !ok {
        return None;
      }
      if end < |data| {
        data := data[..end];
      }
      assert data == found[..end];
      seqNo := n;
      st := Some(state);
    }

    /** `append`, of which `reached` bytes arrive and are or are not synced. */
    method Append(r: Record, after: State, reached: nat, synced: bool, ghost lines: seq<JLine>) returns (ok: bool)
      requires Faithful(codec) && data == Joined(codec, lines) && seqNo == |lines|
      requires reached <= |Terminated(codec, JLine(JOURNAL_VERSION, |lines| + 1, r, after))|
      modifies this
      ensures var l := JLine(JOURNAL_VERSION, |lines| + 1, r, after);
              var whole := reached == |Terminated(codec, l)|;
              && ok == (whole && synced)
              && Holds(codec, data, if whole then lines + [l] else lines)
              && (ok ==> data == Joined(codec, lines + [l]) && seqNo == |lines| + 1)
    {
      var l := JLine(JOURNAL_VERSION, seqNo + 1, r, after);
      var b := Terminated(codec, l);
      PartialWrite(codec, lines, l, reached);
      data := data + b[..reached];
      if reached < |b| || !synced {
        return false;
      }
      seqNo := seqNo + 1;
      ok := true;
    }
  }

  /**
   * A crash that leaves any byte prefix of a sound journal loses only records from its end:
   * what reopens is the replay of the first `k` lines, where the cut fell in line `k + 1`.
   */
  lemma CrashKeepsAPrefix(c: Codec<JLine>, lines: seq<JLine>, cut: nat) returns (k: nat)
    requires Faithful(c) && ReplayLines(lines).Some? && cut <= |Joined(c, lines)|
    ensures k <= |lines| && |Joined(c, lines[..k])| <= cut
    ensures k < |lines| ==> cut < |Joined(c, lines[..k + 1])|
    ensures ReplayLines(lines[..k]).Some?
    ensures Scan(c, Accept, Joined(c, lines)[..cut], EMPTY_STATE, 0, 0)
            == Scanned(ReplayLines(lines[..k]).value, k, |Joined(c, lines[..k])|, true)
  {
    k := CutHolds(c, lines, cut);
    FoldIsReplay(lines);
    FoldedPrefix(Accept, EMPTY_STATE, lines, k);
    FoldIsReplay(lines[..k]);
    ReadingIsReplay(c, Joined(c, lines)[..cut], lines[..k]);
  }

  /** Line `n` of a journal is of the known version, numbered in sequence, and its record leads to its digest. */
  ghost predicate LineFollows(lines: seq<JLine>, n: nat)
    requires n < |lines|
  {
    && lines[n].v == 1 && lines[n].seqNo == n + 1
    && Apply(if n == 0 then EMPTY_STATE else lines[n - 1].digest, lines[n].rec) == Ok(lines[n].digest)
  }

  lemma FollowsInPrefix(lines: seq<JLine>, n: nat, m: nat)
    requires n < m <= |lines|
    ensures LineFollows(lines[..m], n) <==> LineFollows(lines, n)
  {
    assert lines[..m][n] == lines[n] && (n > 0 ==> lines[..m][n - 1] == lines[n - 1]);
  }

  ghost predicate AllFollow(lines: seq<JLine>) {
    forall n :: 0 <= n < |lines| ==> LineFollows(lines, n)
  }

  lemma AllFollowStep(lines: seq<JLine>)
    requires lines != []
    ensures AllFollow(lines) <==> AllFollow(lines[..|lines| - 1]) && LineFollows(lines, |lines| - 1)
  {
    var m := |lines| - 1;
    forall n | 0 <= n < m
      ensures LineFollows(lines[..m], n) <==> LineFollows(lines, n)
    {
      FollowsInPrefix(lines, n, m);
    }
    if AllFollow(lines[..m]) && LineFollows(lines, m) {
      forall n | 0 <= n < |lines|
        ensures LineFollows(lines, n)
      {
        assert n < m ==> LineFollows(lines[..m], n);
      }
    }
  }

  /** A journal replays exactly when every line follows the one before it, and then to the last digest. */
  lemma {:induction false} JournalReplaysExactly(lines: seq<JLine>)
    ensures ReplayLines(lines).Some? <==> AllFollow(lines)
    ensures ReplayLines(lines).Some? ==>
              ReplayLines(lines).value == if lines == [] then EMPTY_STATE else lines[|lines| - 1].digest
  {
    if lines != [] {
      var m := |lines| - 1;
      JournalReplaysExactly(lines[..m]);
      AllFollowStep(lines);
      assert m > 0 ==> lines[..m][m - 1] == lines[m - 1];
    }
  }
}
