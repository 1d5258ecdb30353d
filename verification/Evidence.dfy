/**
 * Evidence files as bytes: reopening after a crash (`internal/book/evidence.go`) and the reading
 * loop of `internal/book/replay.go`.
 */
module Evidence {
  import opened Machine
  import opened Lines
  import opened Recording
  import opened Replaying

  /**
   * What JSON gives beyond `Faithful`: no strict prefix of a record decodes, a record starts with a
   * brace, a newline after it is space.
   */
  ghost predicate TornSafe(c: Codec<Line>) {
    && Faithful(c)
    && (forall l, n :: 0 <= n < |c.enc(l)| ==> c.dec(c.enc(l)[..n]) == None)
    && (forall l :: c.enc(l) != [] && !IsSpaceByte(c.enc(l)[0]))
    && (forall b :: c.dec(b + [NEWLINE]) == c.dec(b))
  }

  /** The white space of ASCII. */
  predicate IsSpaceByte(b: Byte) {
    9 <= b <= 13 || b == 32
  }

  /** `len(bytes.TrimSpace(chunk)) == 0`. */
  predicate Blank(chunk: seq<Byte>) {
    forall i :: 0 <= i < |chunk| ==> IsSpaceByte(chunk[i])
  }

  function Step(c: Codec<Line>, parse: seq<Byte> -> Parsing, r: Replay, chunk: seq<Byte>): Result<Replay, ReplayError> {
    if Blank(chunk) then Ok(r) else OnDecoded(parse, r, c.dec(chunk))
  }

  /** `Replay`: chunk by chunk, each up to and with its newline, the last one possibly without. */
  function ReadAll(c: Codec<Line>, parse: seq<Byte> -> Parsing, r: Replay, data: seq<Byte>): Result<Replay, ReplayError>
    decreases |data|
  {
    var i := IndexNewline(data, 0);
    if i == |data| then Step(c, parse, r, data)
    else
      match Step(c, parse, r, data[..i + 1])
      case Err(e) => Err(e)
      case Ok(next) => ReadAll(c, parse, next, data[i + 1..])
  }

  /** What is left at `pos`, cut where the next chunk ends. */
  lemma ChunkOfRest(data: seq<Byte>, pos: nat, next: nat)
    requires pos <= |data|
    requires var i := IndexNewline(data, pos); next == if i == |data| then i else i + 1
    ensures var rest := data[pos..];
            && IndexNewline(rest, 0) == IndexNewline(data, pos) - pos
            && data[pos..next] == rest[..next - pos] && data[next..] == rest[next - pos..]
            && (IndexNewline(data, pos) == |data| ==> data[pos..next] == rest)
  {
    NewlineInRest(data, pos);
  }

  /** One step of reading: the chunk up to `next` and what is left after it. */
  lemma ReadStep(c: Codec<Line>, parse: seq<Byte> -> Parsing, r: Replay, data: seq<Byte>, pos: nat, next: nat)
    requires pos <= |data|
    requires var i := IndexNewline(data, pos); next == if i == |data| then i else i + 1
    ensures ReadAll(c, parse, r, data[pos..]) ==
            match Step(c, parse, r, data[pos..next])
            case Err(e) => Err(e)
            case Ok(r1) => if IndexNewline(data, pos) == |data| then Ok(r1) else ReadAll(c, parse, r1, data[next..])
  {
    ChunkOfRest(data, pos, next);
    ReadFront(c, parse, r, data[pos..]);
  }

  lemma ReadFront(c: Codec<Line>, parse: seq<Byte> -> Parsing, r: Replay, rest: seq<Byte>)
    ensures var i := IndexNewline(rest, 0);
            ReadAll(c, parse, r, rest) ==
              if i == |rest| then Step(c, parse, r, rest)
              else
                match Step(c, parse, r, rest[..i + 1])
                case Err(e) => Err(e)
                case Ok(r1) => ReadAll(c, parse, r1, rest[i + 1..])
  {
  }

  method ReadChunk(c: Codec<Line>, rp: Replayer, chunk: seq<Byte>, lineNo: nat) returns (err: Option<ReplayError>)
    requires lineNo > 0
    modifies rp, rp.tracker
    ensures rp.tracker == old(rp.tracker) || fresh(rp.tracker)
    ensures match Step(c, rp.parse, old(rp.View()), chunk)
            case Ok(next) => err == None && rp.View() == next
            case Err(e) => err == Some(e)
  {
    err := None;
    if !Blank(chunk) {
      err := rp.Line(c.dec(chunk), lineNo);
    }
  }

  /** The reading loop, from a new replayer. */
  method ReplayFile(c: Codec<Line>, rp: Replayer, data: seq<Byte>) returns (err: Option<ReplayError>)
    requires rp.View() == NEW_REPLAY
    modifies rp, rp.tracker
    ensures match ReadAll(c, rp.parse, NEW_REPLAY, data)
            case Ok(final) => err == None && rp.View() == final
            case Err(e) => err == Some(e)
  {
    var pos, lineNo := 0, 1;
    assert data[0..] == data;
    while true
      invariant pos <= |data|
      invariant rp.tracker == old(rp.tracker) || fresh(rp.tracker)
      invariant ReadAll(c, rp.parse, rp.View(), data[pos..]) == ReadAll(c, rp.parse, NEW_REPLAY, data)
      decreases |data| - pos
    {
      var i := IndexNewline(data, pos);
      var next := if i == |data| then i else i + 1;
      ReadStep(c, rp.parse, rp.View(), data, pos, next);
      err := ReadChunk(c, rp, data[pos..next], lineNo);
      if err.Some? || i == |data| {
        return;
      }
      pos, lineNo := next, lineNo + 1;
    }
  }

  lemma NewlineInRest(data: seq<Byte>, pos: nat)
    requires pos <= |data|
    ensures IndexNewline(data[pos..], 0) == IndexNewline(data, pos) - pos
  {
    var i, rest := IndexNewline(data, pos), data[pos..];
    assert rest[..i - pos] == data[pos..i];
    if i < |data| {
      assert rest[0..i - pos] == data[pos..i];
      NewlineIsFirst(rest, 0, i - pos);
    } else {
      assert rest == data[pos..i];
      var j := IndexNewline(rest, 0);
    }
  }

  /** `OpenEvidence`: a torn last line gets its newline, and nothing else is touched. */
  function Reopened(data: seq<Byte>): seq<Byte> {
    if data != [] && data[|data| - 1] != NEWLINE then data + [NEWLINE] else data
  }

  class EvidenceFile {
    var data: seq<Byte>

    constructor (found: seq<Byte>)
      ensures data == found
    {
      data := found;
    }

    method TerminateTornLine()
      modifies this
      ensures data == Reopened(old(data))
    {
      if |data| == 0 || data[|data| - 1] == NEWLINE {
        return;
      }
      data := data + [NEWLINE];
    }
  }

  ghost predicate EndsLine(data: seq<Byte>) {
    data == [] || data[|data| - 1] == NEWLINE
  }

  function Then(c: Codec<Line>, parse: seq<Byte> -> Parsing, r: Result<Replay, ReplayError>, data: seq<Byte>)
    : Result<Replay, ReplayError>
  {
    match r
    case Err(e) => Err(e)
    case Ok(next) => ReadAll(c, parse, next, data)
  }

  lemma {:induction false} ReadConcat(
      c: Codec<Line>, parse: seq<Byte> -> Parsing, r: Replay, a: seq<Byte>, b: seq<Byte>)
    requires EndsLine(a)
    ensures ReadAll(c, parse, r, a + b) == Then(c, parse, ReadAll(c, parse, r, a), b)
    decreases |a|
  {
    if a == [] {
      assert a + b == b;
    } else {
      var i := IndexNewline(a, 0);
      assert forall k :: 0 <= k < i ==> a[k] == a[0..i][k];
      assert (a + b)[0..i] == a[0..i];
      NewlineIsFirst(a + b, 0, i);
      assert (a + b)[..i + 1] == a[..i + 1] && (a + b)[i + 1..] == a[i + 1..] + b;
      match Step(c, parse, r, a[..i + 1])
      case Err(_) =>
      case Ok(next) => ReadConcat(c, parse, next, a[i + 1..], b);
    }
  }

  /** The newline `OpenEvidence` adds changes nothing a reader sees. */
  lemma {:induction false} ReopeningIsInvisible(c: Codec<Line>, parse: seq<Byte> -> Parsing, r: Replay, data: seq<Byte>)
    requires TornSafe(c)
    ensures ReadAll(c, parse, r, Reopened(data)) == ReadAll(c, parse, r, data)
    ensures EndsLine(Reopened(data))
    decreases |data|
  {
    if !EndsLine(data) {
      var i := IndexNewline(data, 0);
      var more := data + [NEWLINE];
      assert more[0..i] == data[0..i];
      NewlineIsFirst(more, 0, i);
      if i < |data| {
        assert more[..i + 1] == data[..i + 1] && more[i + 1..] == data[i + 1..] + [NEWLINE];
        match Step(c, parse, r, data[..i + 1])
        case Err(_) =>
        case Ok(next) => ReopeningIsInvisible(c, parse, next, data[i + 1..]);
      } else {
        assert more[..i + 1] == more && more[i + 1..] == [];
        NewlineIsBlank(data);
      }
    }
  }

  lemma NewlineIsBlank(data: seq<Byte>)
    ensures Blank(data + [NEWLINE]) <==> Blank(data)
  {
    var more := data + [NEWLINE];
    assert forall k :: 0 <= k < |data| ==> more[k] == data[k];
    assert more[|data|] == NEWLINE;
  }

  function OnWhole(parse: seq<Byte> -> Parsing, r: Replay, ls: seq<Line>): Result<Replay, ReplayError> {
    if ls == [] then Ok(r)
    else
      match OnWhole(parse, r, ls[..|ls| - 1])
      case Err(e) => Err(e)
      case Ok(next) => OnDecoded(parse, next, Some(ls[|ls| - 1]))
  }

  lemma ReadOneLine(c: Codec<Line>, parse: seq<Byte> -> Parsing, r: Replay, l: Line)
    requires TornSafe(c)
    ensures ReadAll(c, parse, r, Terminated(c, l)) == OnDecoded(parse, r, Some(l))
  {
    var line := Terminated(c, l);
    assert line[0..|c.enc(l)|] == c.enc(l);
    NewlineIsFirst(line, 0, |c.enc(l)|);
    assert line[..|c.enc(l)| + 1] == line;
    assert !IsSpaceByte(line[0]);
    assert !Blank(line);
  }

  lemma {:induction false} ReadWholeLines(c: Codec<Line>, parse: seq<Byte> -> Parsing, r: Replay, ls: seq<Line>)
    requires TornSafe(c)
    ensures ReadAll(c, parse, r, Joined(c, ls)) == OnWhole(parse, r, ls)
    ensures EndsLine(Joined(c, ls))
  {
    if ls != [] {
      var front := ls[..|ls| - 1];
      ReadWholeLines(c, parse, r, front);
      ReadConcat(c, parse, r, Joined(c, front), Terminated(c, ls[|ls| - 1]));
      if OnWhole(parse, r, front).Ok? {
        ReadOneLine(c, parse, OnWhole(parse, r, front).value, ls[|ls| - 1]);
      }
    }
  }

  /** How many of the lines survive a cut; a line missing only its newline does. */
  function WholeLines(c: Codec<Line>, ls: seq<Line>, cut: nat): (w: nat)
    ensures w <= |ls|
  {
    if ls == [] then 0
    else if cut + 1 >= |Joined(c, ls)| then |ls|
    else WholeLines(c, ls[..|ls| - 1], cut)
  }

  /** Whether the cut leaves part of a line. */
  predicate CutsInside(c: Codec<Line>, ls: seq<Line>, cut: nat) {
    cut > |Joined(c, ls[..WholeLines(c, ls, cut)])|
  }

  lemma {:induction false} WholeLinesIs(c: Codec<Line>, ls: seq<Line>, cut: nat, w: nat)
    requires w <= |ls|
    requires w == 0 || |Joined(c, ls[..w])| <= cut + 1
    requires w < |ls| ==> cut + 1 < |Joined(c, ls[..w + 1])|
    ensures WholeLines(c, ls, cut) == w
  {
    if w < |ls| {
      var m := |ls| - 1;
      JoinedGrows(c, ls, w + 1);
      assert ls[..m][..w] == ls[..w];
      if w < m {
        assert ls[..m][..w + 1] == ls[..w + 1];
      }
      WholeLinesIs(c, ls[..m], cut, w);
    } else {
      assert ls[..w] == ls;
    }
  }

  function Cut(parse: seq<Byte> -> Parsing, r: Result<Replay, ReplayError>, inside: bool): Result<Replay, ReplayError> {
    match r
    case Err(e) => Err(e)
    case Ok(next) => if inside then OnDecoded(parse, next, None) else Ok(next)
  }

  lemma ReadTail(c: Codec<Line>, parse: seq<Byte> -> Parsing, r: Replay, l: Line, n: nat)
    requires TornSafe(c) && n <= |c.enc(l)|
    ensures ReadAll(c, parse, r, c.enc(l)[..n]) ==
            if n == 0 then Ok(r) else OnDecoded(parse, r, if n == |c.enc(l)| then Some(l) else None)
  {
    var tail := c.enc(l)[..n];
    var i := IndexNewline(tail, 0);
    assert NEWLINE !in tail;
    assert i == |tail|;
    if n == 0 {
      assert Blank(tail);
    } else {
      assert tail[0] == c.enc(l)[0] && !IsSpaceByte(tail[0]);
      assert n == |c.enc(l)| ==> tail == c.enc(l);
    }
  }

  /** Reading the whole lines before a cut and the tail the cut left. */
  lemma ReadHeadAndTail(c: Codec<Line>, parse: seq<Byte> -> Parsing, r: Replay, ls: seq<Line>, k: nat, n: nat)
    requires TornSafe(c) && k < |ls| && n <= |c.enc(ls[k])|
    ensures ReadAll(c, parse, r, Joined(c, ls[..k]) + c.enc(ls[k])[..n]) ==
            if n == |c.enc(ls[k])| then OnWhole(parse, r, ls[..k + 1])
            else Cut(parse, OnWhole(parse, r, ls[..k]), n > 0)
  {
    ReadWholeLines(c, parse, r, ls[..k]);
    ReadConcat(c, parse, r, Joined(c, ls[..k]), c.enc(ls[k])[..n]);
    if OnWhole(parse, r, ls[..k]).Ok? {
      ReadTail(c, parse, OnWhole(parse, r, ls[..k]).value, ls[k], n);
    }
    assert ls[..k + 1][..k] == ls[..k];
    assert c.enc(ls[k]) != [];
  }

  /** Where a cut falls. */
  lemma CutPoint(c: Codec<Line>, ls: seq<Line>, cut: nat, k: nat)
    requires k < |ls| && |Joined(c, ls[..k])| <= cut <= |Joined(c, ls[..k])| + |c.enc(ls[k])|
    ensures var whole := cut == |Joined(c, ls[..k])| + |c.enc(ls[k])|;
            && WholeLines(c, ls, cut) == (if whole then k + 1 else k)
            && (CutsInside(c, ls, cut) <==> !whole && cut > |Joined(c, ls[..k])|)
  {
    JoinedGrows(c, ls, k);
    if cut == |Joined(c, ls[..k])| + |c.enc(ls[k])| {
      if k + 1 < |ls| {
        JoinedGrows(c, ls, k + 1);
      }
      WholeLinesIs(c, ls, cut, k + 1);
    } else {
      WholeLinesIs(c, ls, cut, k);
    }
  }

  lemma ReadUncut(c: Codec<Line>, parse: seq<Byte> -> Parsing, r: Replay, ls: seq<Line>)
    requires TornSafe(c)
    ensures ReadAll(c, parse, r, Joined(c, ls)) == OnWhole(parse, r, ls)
    ensures WholeLines(c, ls, |Joined(c, ls)|) == |ls| && !CutsInside(c, ls, |Joined(c, ls)|)
  {
    ReadWholeLines(c, parse, r, ls);
    assert ls[..|ls|] == ls;
    WholeLinesIs(c, ls, |Joined(c, ls)|, |ls|);
  }

  /** The bytes a cut leaves, as whole lines and a tail. */
  lemma CutBytes(c: Codec<Line>, ls: seq<Line>, cut: nat) returns (k: nat, n: nat)
    requires Faithful(c) && cut <= |Joined(c, ls)|
    ensures k <= |ls| && (k == |ls| ==> cut == |Joined(c, ls)|)
    ensures k < |ls| ==>
              && n <= |c.enc(ls[k])| && cut == |Joined(c, ls[..k])| + n
              && Joined(c, ls)[..cut] == Joined(c, ls[..k]) + c.enc(ls[k])[..n]
  {
    k := CutHolds(c, ls, cut);
    n := 0;
    if k < |ls| {
      n := cut - |Joined(c, ls[..k])|;
    } else {
      assert ls[..k] == ls;
    }
  }

  /** Reading a session cut at any byte: its whole lines, and then one torn line when the cut fell inside one. */
  lemma ReadCut(c: Codec<Line>, parse: seq<Byte> -> Parsing, r: Replay, ls: seq<Line>, cut: nat)
    requires TornSafe(c) && cut <= |Joined(c, ls)|
    ensures ReadAll(c, parse, r, Joined(c, ls)[..cut])
            == Cut(parse, OnWhole(parse, r, ls[..WholeLines(c, ls, cut)]), CutsInside(c, ls, cut))
  {
    var k, n := CutBytes(c, ls, cut);
    if k == |ls| {
      assert ls[..k] == ls;
      assert Joined(c, ls)[..cut] == Joined(c, ls);
      ReadUncut(c, parse, r, ls);
    } else {
      CutPoint(c, ls, cut, k);
      ReadHeadAndTail(c, parse, r, ls, k, n);
    }
  }
}
