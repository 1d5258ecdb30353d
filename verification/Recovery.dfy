/** Evidence of any number of sessions, each cut at any byte: what a replay of the reopened file gives. */
module Recovery {
  import opened Machine
  import opened Lines
  import opened Recording
  import opened Replaying
  import opened Playback
  import opened Evidence

  /** One session: every line it would have written, and how many bytes of them reached the file. */
  datatype Fragment = Fragment(lines: seq<Line>, cut: nat)

  ghost predicate Cuttable(c: Codec<Line>, f: Fragment) {
    && f.lines != [] && f.lines[0].body.SessionStart?
    && f.cut <= |Joined(c, f.lines)|
  }

  /** The file: each session opens it again and appends. */
  ghost function FileOf(c: Codec<Line>, fs: seq<Fragment>): seq<Byte>
    requires forall f :: f in fs ==> Cuttable(c, f)
  {
    if fs == [] then []
    else
      var last := fs[|fs| - 1];
      assert Cuttable(c, last);
      Reopened(FileOf(c, fs[..|fs| - 1])) + Joined(c, last.lines)[..last.cut]
  }

  function Whole(c: Codec<Line>, f: Fragment): nat {
    WholeLines(c, f.lines, f.cut)
  }

  predicate Inside(c: Codec<Line>, f: Fragment) {
    CutsInside(c, f.lines, f.cut)
  }

  /** The complete lines of the file. */
  function Kept(c: Codec<Line>, fs: seq<Fragment>): seq<Line> {
    if fs == [] then []
    else Kept(c, fs[..|fs| - 1]) + fs[|fs| - 1].lines[..Whole(c, fs[|fs| - 1])]
  }

  /** The sessions cut inside a line. */
  function TornSessions(c: Codec<Line>, fs: seq<Fragment>): nat {
    if fs == [] then 0
    else TornSessions(c, fs[..|fs| - 1]) + if Inside(c, fs[|fs| - 1]) then 1 else 0
  }

  /** Whether the file ends in a torn line; a session of which nothing arrived changes nothing. */
  predicate EndsTorn(c: Codec<Line>, fs: seq<Fragment>) {
    fs != [] &&
    (Inside(c, fs[|fs| - 1]) || (Whole(c, fs[|fs| - 1]) == 0 && EndsTorn(c, fs[..|fs| - 1])))
  }

  /** No session torn within its opening line comes right after a torn line. */
  predicate Recoverable(c: Codec<Line>, fs: seq<Fragment>) {
    fs == [] ||
    var (front, last) := (fs[..|fs| - 1], fs[|fs| - 1]);
    Recoverable(c, front) && !(EndsTorn(c, front) && Whole(c, last) == 0 && Inside(c, last))
  }

  lemma {:induction false} WholeFold(parse: seq<Byte> -> Parsing, r: Replay, ls: seq<Line>)
    requires ls != [] ==> !r.torn || ls[0].body.SessionStart?
    requires OnLines(parse, r.core, ls).Ok?
    ensures OnWhole(parse, r, ls) == Ok(Replay(OnLines(parse, r.core, ls).value, r.torn && ls == [], r.tornLines))
  {
    if ls != [] {
      WholeFold(parse, r, ls[..|ls| - 1]);
    }
  }

  /** Bytes appended to a reopened file are read from where the file ended. */
  lemma AppendedIsRead(c: Codec<Line>, parse: seq<Byte> -> Parsing, file: seq<Byte>, more: seq<Byte>)
    requires TornSafe(c)
    ensures ReadAll(c, parse, NEW_REPLAY, Reopened(file) + more)
            == Then(c, parse, ReadAll(c, parse, NEW_REPLAY, file), more)
  {
    ReopeningIsInvisible(c, parse, NEW_REPLAY, file);
    ReadConcat(c, parse, NEW_REPLAY, Reopened(file), more);
  }

  /** What one session adds to a replay. */
  function AfterSession(r: Replay, core: Core, whole: nat, inside: bool): Result<Replay, ReplayError> {
    if r.torn && whole == 0 && inside then Err(Corrupt)
    else Ok(Replay(core, inside || (whole == 0 && r.torn), r.tornLines + if inside then 1 else 0))
  }

  lemma SessionIsRead(c: Codec<Line>, parse: seq<Byte> -> Parsing, r: Replay, f: Fragment, core: Core)
    requires TornSafe(c) && Cuttable(c, f)
    requires OnLines(parse, r.core, f.lines[..Whole(c, f)]) == Ok(core)
    ensures ReadAll(c, parse, r, Joined(c, f.lines)[..f.cut]) == AfterSession(r, core, Whole(c, f), Inside(c, f))
  {
    ReadCut(c, parse, r, f.lines, f.cut);
    WholeFold(parse, r, f.lines[..Whole(c, f)]);
  }

  /** One more session after a file that ended at `r`. */
  lemma SessionAppended(
      c: Codec<Line>, parse: seq<Byte> -> Parsing, file: seq<Byte>, r: Replay, f: Fragment, core: Core)
    requires TornSafe(c) && Cuttable(c, f)
    requires ReadAll(c, parse, NEW_REPLAY, file) == Ok(r)
    requires OnLines(parse, r.core, f.lines[..Whole(c, f)]) == Ok(core)
    ensures ReadAll(c, parse, NEW_REPLAY, Reopened(file) + Joined(c, f.lines)[..f.cut])
            == AfterSession(r, core, Whole(c, f), Inside(c, f))
  {
    AppendedIsRead(c, parse, file, Joined(c, f.lines)[..f.cut]);
    SessionIsRead(c, parse, r, f, core);
  }

  lemma CorruptStays(c: Codec<Line>, parse: seq<Byte> -> Parsing, file: seq<Byte>, more: seq<Byte>)
    requires TornSafe(c) && ReadAll(c, parse, NEW_REPLAY, file).Err?
    ensures ReadAll(c, parse, NEW_REPLAY, Reopened(file) + more) == ReadAll(c, parse, NEW_REPLAY, file)
  {
    AppendedIsRead(c, parse, file, more);
  }

  lemma EmptyFile(c: Codec<Line>, parse: seq<Byte> -> Parsing)
    ensures ReadAll(c, parse, NEW_REPLAY, []) == Ok(NEW_REPLAY)
  {
    var none: seq<Byte> := [];
    assert Blank(none);
  }

  lemma KeptSplits(c: Codec<Line>, parse: seq<Byte> -> Parsing, fs: seq<Fragment>)
    requires fs != [] && OnLines(parse, NEW_CORE, Kept(c, fs)).Ok?
    ensures var (front, last) := (fs[..|fs| - 1], fs[|fs| - 1]);
            var before := OnLines(parse, NEW_CORE, Kept(c, front));
            before.Ok? &&
            OnLines(parse, before.value, last.lines[..Whole(c, last)]) == OnLines(parse, NEW_CORE, Kept(c, fs))
  {
    var last := fs[|fs| - 1];
    OnLinesAppend(parse, NEW_CORE, Kept(c, fs[..|fs| - 1]), last.lines[..Whole(c, last)]);
  }

  ghost predicate Recovered(
      c: Codec<Line>, parse: seq<Byte> -> Parsing, fs: seq<Fragment>, res: Result<Replay, ReplayError>)
  {
    var core := OnLines(parse, NEW_CORE, Kept(c, fs));
    core.Ok? && res == Expected(c, fs, core.value)
  }

  lemma RecoverableGrows(c: Codec<Line>, fs: seq<Fragment>)
    requires fs != []
    ensures var (front, last) := (fs[..|fs| - 1], fs[|fs| - 1]);
            && (Recoverable(c, fs) <==>
                Recoverable(c, front) && !(EndsTorn(c, front) && Whole(c, last) == 0 && Inside(c, last)))
            && (EndsTorn(c, fs) <==> Inside(c, last) || (Whole(c, last) == 0 && EndsTorn(c, front)))
            && TornSessions(c, fs) == TornSessions(c, front) + if Inside(c, last) then 1 else 0
  {
  }

  lemma RecoveredGrows(
      c: Codec<Line>, parse: seq<Byte> -> Parsing, front: seq<Fragment>, last: Fragment, file: seq<Byte>)
    requires TornSafe(c) && Cuttable(c, last)
    requires OnLines(parse, NEW_CORE, Kept(c, front + [last])).Ok?
    requires Recovered(c, parse, front, ReadAll(c, parse, NEW_REPLAY, file))
    ensures Recovered(c, parse, front + [last],
                      ReadAll(c, parse, NEW_REPLAY, Reopened(file) + Joined(c, last.lines)[..last.cut]))
  {
    var fs := front + [last];
    assert fs[..|fs| - 1] == front && fs[|fs| - 1] == last;
    KeptSplits(c, parse, fs);
    if Recoverable(c, front) {
      var r := ReadAll(c, parse, NEW_REPLAY, file).value;
      var core := OnLines(parse, NEW_CORE, Kept(c, fs)).value;
      SessionAppended(c, parse, file, r, last, core);
      ExpectedGrows(c, fs, r, core);
    } else {
      CorruptStays(c, parse, file, Joined(c, last.lines)[..last.cut]);
      RecoverableGrows(c, fs);
    }
  }

  /** The replay a file of these sessions should end in, given what its complete lines decide. */
  function Expected(c: Codec<Line>, fs: seq<Fragment>, core: Core): Result<Replay, ReplayError> {
    if Recoverable(c, fs) then Ok(Replay(core, EndsTorn(c, fs), TornSessions(c, fs))) else Err(Corrupt)
  }

  lemma ExpectedGrows(c: Codec<Line>, fs: seq<Fragment>, r: Replay, core: Core)
    requires fs != [] && Expected(c, fs[..|fs| - 1], r.core) == Ok(r)
    ensures Expected(c, fs, core) == AfterSession(r, core, Whole(c, fs[|fs| - 1]), Inside(c, fs[|fs| - 1]))
  {
    RecoverableGrows(c, fs);
  }

  /**
   * When the complete lines replay, the file replays exactly when no torn opening line follows a
   * torn line; it then gives what the complete lines give, and counts one torn line for every
   * session cut inside a line. Otherwise it is refused as corrupt.
   */
  lemma {:induction false} CutsAreRecovered(c: Codec<Line>, parse: seq<Byte> -> Parsing, fs: seq<Fragment>)
    requires TornSafe(c) && forall f :: f in fs ==> Cuttable(c, f)
    requires OnLines(parse, NEW_CORE, Kept(c, fs)).Ok?
    ensures Recovered(c, parse, fs, ReadAll(c, parse, NEW_REPLAY, FileOf(c, fs)))
  {
    if fs == [] {
      EmptyFile(c, parse);
    } else {
      var front, last := fs[..|fs| - 1], fs[|fs| - 1];
      KeptSplits(c, parse, fs);
      CutsAreRecovered(c, parse, front);
      assert fs == front + [last];
      RecoveredGrows(c, parse, front, last, FileOf(c, front));
    }
  }

  /** Whole opening lines suffice. */
  lemma {:induction false} WholeOpeningsRecover(c: Codec<Line>, fs: seq<Fragment>)
    requires forall f :: f in fs ==> Whole(c, f) > 0
    ensures Recoverable(c, fs)
  {
    if fs != [] {
      WholeOpeningsRecover(c, fs[..|fs| - 1]);
    }
  }

  lemma TornOpeningsKeepNothing(c: Codec<Line>, fs: seq<Fragment>, f: Fragment, g: Fragment)
    requires Whole(c, f) == 0 && Inside(c, f) && Whole(c, g) == 0 && Inside(c, g)
    ensures !Recoverable(c, fs + [f, g]) && Kept(c, fs + [f, g]) == Kept(c, fs)
  {
    var all := fs + [f, g];
    assert all[..|all| - 1] == fs + [f] && (fs + [f])[..|fs|] == fs;
    assert EndsTorn(c, fs + [f]);
    assert f.lines[..0] == [] && g.lines[..0] == [];
  }

  /** Two crashes inside consecutive opening lines: replay refuses the file, whatever came before. */
  lemma TwoTornOpeningsAreCorrupt(
      c: Codec<Line>, parse: seq<Byte> -> Parsing, fs: seq<Fragment>, f: Fragment, g: Fragment)
    requires TornSafe(c) && forall x :: x in fs + [f, g] ==> Cuttable(c, x)
    requires OnLines(parse, NEW_CORE, Kept(c, fs)).Ok?
    requires CutInItsOpening(c, f) && CutInItsOpening(c, g)
    ensures ReadAll(c, parse, NEW_REPLAY, FileOf(c, fs + [f, g])) == Err(Corrupt)
  {
    assert f in fs + [f, g] && g in fs + [f, g];
    NothingWhole(c, f);
    NothingWhole(c, g);
    TornOpeningsKeepNothing(c, fs, f, g);
    CutsAreRecovered(c, parse, fs + [f, g]);
  }

  /** Some bytes of the opening line arrived, and not all. */
  predicate CutInItsOpening(c: Codec<Line>, f: Fragment) {
    f.lines != [] && 0 < f.cut < |c.enc(f.lines[0])|
  }

  lemma NothingWhole(c: Codec<Line>, f: Fragment)
    requires Cuttable(c, f) && CutInItsOpening(c, f)
    ensures Whole(c, f) == 0 && Inside(c, f)
  {
    assert f.lines[..1][..0] == [] && f.lines[..0] == [];
    assert Joined(c, f.lines[..1]) == Joined(c, []) + Terminated(c, f.lines[0]);
    WholeLinesIs(c, f.lines, f.cut, 0);
  }

  /** A recorded session: its calls, and the bytes of it that reached the file. */
  datatype Recorded = Recorded(staleAfter: int, now: int, calls: seq<Call>, cut: nat)

  function FragmentOf(parse: seq<Byte> -> Parsing, s: Recorded): Fragment {
    Fragment(SessionOf(parse, s.staleAfter, s.now, s.calls).lines, s.cut)
  }

  function Fragments(parse: seq<Byte> -> Parsing, ss: seq<Recorded>): seq<Fragment> {
    if ss == [] then [] else Fragments(parse, ss[..|ss| - 1]) + [FragmentOf(parse, ss[|ss| - 1])]
  }

  lemma {:induction false} SessionOpens(parse: seq<Byte> -> Parsing, staleAfter: int, now: int, calls: seq<Call>)
    ensures var ls := SessionOf(parse, staleAfter, now, calls).lines;
            ls != [] && ls[0].body.SessionStart?
  {
    if calls != [] {
      var front := calls[..|calls| - 1];
      SessionOpens(parse, staleAfter, now, front);
      var r := SessionOf(parse, staleAfter, now, front);
      CallExtends(parse, r, calls[|calls| - 1]);
      assert SessionOf(parse, staleAfter, now, calls).lines[0] == r.lines[0];
    }
  }

  ghost predicate AllCuttable(c: Codec<Line>, parse: seq<Byte> -> Parsing, ss: seq<Recorded>) {
    forall s :: s in ss ==> s.cut <= |Joined(c, FragmentOf(parse, s).lines)|
  }

  lemma {:induction false} FragmentsAreCuttable(c: Codec<Line>, parse: seq<Byte> -> Parsing, ss: seq<Recorded>)
    requires AllCuttable(c, parse, ss)
    ensures forall f :: f in Fragments(parse, ss) ==> Cuttable(c, f)
  {
    if ss != [] {
      FragmentsAreCuttable(c, parse, ss[..|ss| - 1]);
      var s := ss[|ss| - 1];
      assert s in ss;
      SessionOpens(parse, s.staleAfter, s.now, s.calls);
    }
  }

  /** Whatever was kept of every session replays without a verdict mismatch. */
  lemma {:induction false} KeptLinesReplay(c: Codec<Line>, parse: seq<Byte> -> Parsing, ss: seq<Recorded>)
    requires ParsesRecords(parse)
    ensures var core := OnLines(parse, NEW_CORE, Kept(c, Fragments(parse, ss)));
            core.Ok? && core.value.sum.verdictMismatches == 0
  {
    if ss != [] {
      var front, s := ss[..|ss| - 1], ss[|ss| - 1];
      KeptLinesReplay(c, parse, front);
      var fs := Fragments(parse, ss);
      assert fs[..|fs| - 1] == Fragments(parse, front);
      var ls := FragmentOf(parse, s).lines;
      var w := Whole(c, FragmentOf(parse, s));
      OnLinesAppend(parse, NEW_CORE, Kept(c, Fragments(parse, front)), ls[..w]);
      var core := OnLines(parse, NEW_CORE, Kept(c, Fragments(parse, front))).value;
      SessionReplays(parse, core, s.staleAfter, s.now, s.calls);
      PrefixReplays(parse, core, ls, w);
    }
  }

  /**
   * Evidence recorded by any calls in any number of sessions, each stopped at any byte and
   * reopened: replay accepts the file exactly when it is recoverable, and then finds no verdict
   * mismatch, one torn line per session cut inside a line, the books and tape of the complete
   * lines, and every book synced exactly when its cursor is.
   */
  lemma EveryRecordingReplays(c: Codec<Line>, parse: seq<Byte> -> Parsing, ss: seq<Recorded>)
    requires TornSafe(c) && ParsesRecords(parse) && AllCuttable(c, parse, ss)
    ensures var fs := Fragments(parse, ss);
            && (forall f :: f in fs ==> Cuttable(c, f))
            && var r := ReadAll(c, parse, NEW_REPLAY, FileOf(c, fs));
            && (r.Ok? <==> Recoverable(c, fs))
            && (r.Ok? ==>
                && Ok(r.value.core) == OnLines(parse, NEW_CORE, Kept(c, fs))
                && r.value.core.sum.verdictMismatches == 0
                && r.value.tornLines == TornSessions(c, fs)
                && SyncAgrees(r.value.core))
  {
    FragmentsAreCuttable(c, parse, ss);
    KeptLinesReplay(c, parse, ss);
    CutsAreRecovered(c, parse, Fragments(parse, ss));
    SyncedMeansTracked(parse, Kept(c, Fragments(parse, ss)));
  }

  lemma TwoFragments(parse: seq<Byte> -> Parsing, a: Recorded, b: Recorded)
    ensures Fragments(parse, [a, b]) == [FragmentOf(parse, a), FragmentOf(parse, b)]
  {
    assert [a, b][..1] == [a] && [a][..0] == [];
    assert Fragments(parse, [a]) == Fragments(parse, []) + [FragmentOf(parse, a)];
  }

  /** A file that is lost: two recorders that died while writing their opening lines. */
  lemma TwoDeadRecordersLoseTheFile(c: Codec<Line>, parse: seq<Byte> -> Parsing, a: Recorded, b: Recorded)
    requires TornSafe(c)
    requires Cuttable(c, FragmentOf(parse, a)) && Cuttable(c, FragmentOf(parse, b))
    requires CutInItsOpening(c, FragmentOf(parse, a)) && CutInItsOpening(c, FragmentOf(parse, b))
    ensures var fs := Fragments(parse, [a, b]);
            (forall f :: f in fs ==> Cuttable(c, f)) && ReadAll(c, parse, NEW_REPLAY, FileOf(c, fs)) == Err(Corrupt)
  {
    TwoFragments(parse, a, b);
    var f, g := FragmentOf(parse, a), FragmentOf(parse, b);
    assert [] + [f, g] == [f, g];
    TwoTornOpeningsAreCorrupt(c, parse, [], f, g);
  }

  /** What a recorder leaves behind, failing writer or not, is its session cut at some byte. */
  lemma WriterLeavesACut(r: Recorder)
    requires r.Valid()
    ensures |r.base| <= |r.w.data|
    ensures var cut := |r.w.data| - |r.base|;
            && cut <= |Joined(r.codec, r.full.lines)|
            && r.w.data == r.base + Joined(r.codec, r.full.lines)[..cut]
  {
    assert r.w.data == r.base + r.w.data[|r.base|..];
  }
}
