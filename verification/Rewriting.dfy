/** Sealing the log and merging segments (clip/src/lib.rs, seal and merge): the same
    history under another manifest. */
module Rewriting {
  import opened Codec
  import opened PostingLists
  import opened Disk
  import opened Logs
  import opened Entries
  import opened Stores
  import opened Rows
  import opened Segments
  import opened SegmentWriter
  import opened Manifests
  import opened Recovery
  import opened Changes

  lemma MaxIsEntry(env: Env, s: Segment, next: nat)
    requires SegGood(env, s)
    requires forall id :: id in SegFacts(s).entries ==> id < next
    ensures s.entries > 0 ==> s.maxId < next
  {
    hide MapOf, TermIndexed, HashesOf;
    if s.entries > 0 {
      SegRowsAscend(s);
      MapOfMembers(SegRows(s));
      assert SegRows(s)[s.entries - 1].0 == s.maxId;
    }
  }

  lemma EmptyLogIsGood(env: Env)
    ensures LogGood(env, EMPTY, LogHeader()) && Mirrors(LogHeader(), EMPTY, env.crc)
    ensures LogFacts(EMPTY, LogHeader()) == NOTHING
  {
    hide Frame;
    assert LogRows(EMPTY, LogHeader()) == [];
    NoFrameAtEnd(LogHeader(), env.crc);
  }

  /** The manifest of the log sealed as segment `n`, the new log after it. */
  function SealedManifest(m: Manifest, next: u64): Manifest
    requires m.nextFile + 2 < TWO_64
  {
    m.(nextFile := m.nextFile + 2, nextId := next, active := m.nextFile + 1, segments := m.segments + [m.nextFile])
  }

  ghost function SealedFound(f: Found, s: Segment): Found
    requires f.m.nextFile + 2 < TWO_64 && NextOf(f) < TWO_64
  {
    Found(SealedManifest(f.m, NextOf(f)), f.segments + [s], EMPTY, LogHeader())
  }

  /** The log's facts rewritten as a segment's. */
  ghost predicate SealedAs(f: Found, s: Segment) {
    Rewrites(PartsOf(f.segments, f.mirror, f.log)[|f.segments|..], SegFacts(s),
             Dead(PartsOf(f.segments, f.mirror, f.log)),
             Blobs(PartsOf(f.segments, f.mirror, f.log)[..|f.segments|]).Keys)
  }

  lemma SealKeeps(env: Env, f: Found, s: Segment)
    requires Sound(env, f) && f.m.nextFile + 2 < TWO_64 && NextOf(f) < TWO_64 && |f.segments| + 1 < TWO_32
    requires SegGood(env, s) && s.number == f.m.nextFile && SealedAs(f, s)
    ensures Sound(env, SealedFound(f, s)) && NextOf(SealedFound(f, s)) == NextOf(f)
    ensures AbsIn(env, SealedFound(f, s)) == AbsIn(env, f)
  {
    hide Inv, SegGood, LogGood, LogFacts, SegFacts, Mirrors, Rewrites, Blobs, Dead, AbsOf, NextOf;
    var g := SealedFound(f, s);
    var k := |f.segments|;
    var parts := PartsOf(f.segments, f.mirror, f.log);
    var st := StoreOf(f);
    assert parts[k..k + 1] == parts[k..];
    RewriteKeeps(env, st, k, k + 1, SegFacts(s));
    var t := Replaced(st, k, k + 1, SegFacts(s));
    EmptyLogKeeps(env, t);
    EmptyLogIsGood(env);
    assert t.parts == parts[..k] + [SegFacts(s)] by { assert parts[k + 1..] == []; }
    assert StoreOf(g).parts == t.parts + [NOTHING];
    RewrittenNext(env, f, g, t, s);
  }

  /** The manifest's next id is the one before, and no id in the segments reaches it. */
  lemma RewrittenNext(env: Env, f: Found, g: Found, t: Store, s: Segment)
    requires SegGood(env, s) && Inv(env, t) && t.next == NextOf(f)
    requires SegFacts(s) in t.parts
    requires g.m.nextId == NextOf(f)
    requires g.mirror.ids == [] || g.mirror.ids == f.mirror.ids
    requires forall i :: 0 <= i < |g.segments| ==> g.segments[i] == s || g.segments[i] in f.segments
    ensures NextOf(g) == NextOf(f)
  {
    hide GoodEntry, Placed, Below, SegGood, SegFacts, NextOf;
    AllBelowNext(f);
    var j :| 0 <= j < |t.parts| && t.parts[j] == SegFacts(s);
    forall id | id in SegFacts(s).entries ensures id < NextOf(f) {
      assert id in t.parts[j].entries;
    }
    MaxIsEntry(env, s, NextOf(f));
    forall i | 0 <= i < |g.segments| && g.segments[i].entries > 0 ensures g.segments[i].maxId < NextOf(f) {
      if g.segments[i] != s {
        var k :| 0 <= k < |f.segments| && f.segments[k] == g.segments[i];
      }
    }
    NextIs(g, NextOf(f));
  }

  // ---- A merge ----

  function MergedManifest(m: Manifest, next: u64, lo: nat): Manifest
    requires m.nextFile + 1 < TWO_64 && lo <= |m.segments|
  {
    m.(nextFile := m.nextFile + 1, nextId := next, segments := m.segments[..lo] + [m.nextFile])
  }

  ghost function MergedFound(f: Found, s: Segment, lo: nat): Found
    requires f.m.nextFile + 1 < TWO_64 && NextOf(f) < TWO_64 && lo <= |f.m.segments| == |f.segments|
  {
    f.(m := MergedManifest(f.m, NextOf(f), lo), segments := f.segments[..lo] + [s])
  }

  /** The facts of the segments from `lo` on rewritten as one segment's. */
  ghost predicate MergedAs(f: Found, s: Segment, lo: nat)
    requires lo <= |f.segments|
  {
    Rewrites(PartsOf(f.segments, f.mirror, f.log)[lo..|f.segments|], SegFacts(s),
             Dead(PartsOf(f.segments, f.mirror, f.log)), Blobs(PartsOf(f.segments, f.mirror, f.log)[..lo]).Keys)
  }

  lemma MergeKeeps(env: Env, f: Found, s: Segment, lo: nat)
    requires Sound(env, f) && f.m.nextFile + 1 < TWO_64 && NextOf(f) < TWO_64
    requires lo < |f.segments| && f.mirror == EMPTY
    requires SegGood(env, s) && s.number == f.m.nextFile && MergedAs(f, s, lo)
    ensures Sound(env, MergedFound(f, s, lo)) && NextOf(MergedFound(f, s, lo)) == NextOf(f)
    ensures AbsIn(env, MergedFound(f, s, lo)) == AbsIn(env, f)
  {
    hide Inv, SegGood, LogGood, SegFacts, Mirrors, Rewrites, Blobs, Dead, AbsOf, NextOf;
    var g := MergedFound(f, s, lo);
    var k := |f.segments|;
    var parts := PartsOf(f.segments, f.mirror, f.log);
    NothingLogged(f.log);
    RewriteKeeps(env, StoreOf(f), lo, k, SegFacts(s));
    var t := Replaced(StoreOf(f), lo, k, SegFacts(s));
    MergedIs(f, s, lo);
    hide LogFacts;
    RewrittenNext(env, f, g, t, s);
  }

  lemma MergedIs(f: Found, s: Segment, lo: nat)
    requires Numbered(f) && f.m.nextFile + 1 < TWO_64 && NextOf(f) < TWO_64
    requires lo < |f.segments| && s.number == f.m.nextFile
    ensures var t := Replaced(StoreOf(f), lo, |f.segments|, SegFacts(s));
            && Numbered(MergedFound(f, s, lo))
            && t.parts == StoreOf(MergedFound(f, s, lo)).parts && SegFacts(s) in t.parts
  {
    hide NextOf, SegFacts, LogFacts;
    var t := Replaced(StoreOf(f), lo, |f.segments|, SegFacts(s));
    assert t.parts[lo] == SegFacts(s);
  }

  lemma NothingLogged(log: bytes)
    ensures LogFacts(EMPTY, log) == NOTHING
  {
    assert LogRows(EMPTY, log) == [];
  }

  // ---- What the writer is given ----

  lemma {:induction false} RowsCounted(parts: seq<Part>)
    ensures |AllRows(parts)| == CountRows(parts)
    decreases |parts|
  {
    if parts != [] { RowsCounted(parts[..|parts| - 1]); }
  }

  function CountRows(parts: seq<Part>): nat {
    if parts == [] then 0 else CountRows(parts[..|parts| - 1]) + |PartRows(parts[|parts| - 1])|
  }

  /** Few enough entries: every term's list fits its encoding. */
  lemma ListsFit(env: Env, parts: seq<Part>, dead: set<u64>)
    requires RowsAscend(AllRows(parts)) && 10 * CountRows(parts) < TWO_32
    ensures forall t :: Fits(WithTerm(env, LiveRows(AllRows(parts), dead), t))
  {
    hide WithTerm, LiveRows, Fits, AllRows;
    RowsCounted(parts);
    var rows := AllRows(parts);
    LiveRowsMembers(rows, dead);
    FewerRows(rows, dead);
    forall t ensures Fits(WithTerm(env, LiveRows(rows, dead), t)) {
      WithTermMembers(env, LiveRows(rows, dead), t);
      ShortListFits(WithTerm(env, LiveRows(rows, dead), t));
    }
  }

  lemma {:induction false} FewerRows(rows: seq<Row>, dead: set<u64>)
    ensures |LiveRows(rows, dead)| <= |rows|
    decreases |rows|
  {
    if rows != [] { FewerRows(rows[..|rows| - 1], dead); }
  }

  /** Parts that are part of a history ascend. */
  lemma {:induction false} RowsInOrder(env: Env, parts: seq<Part>)
    requires forall i :: 0 <= i < |parts| ==> PartGood(env, parts[i])
    requires forall i, j :: 0 <= i < j < |parts| ==> Below(PartFacts(parts[i]), PartFacts(parts[j]))
    ensures RowsAscend(AllRows(parts))
    ensures forall r :: r in AllRows(parts) ==> exists i :: 0 <= i < |parts| && r in PartRows(parts[i])
    decreases |parts|
  {
    hide PartGood, PartFacts, Below, PartRows;
    if parts != [] {
      var k := |parts| - 1;
      RowsInOrder(env, parts[..k]);
      assert PartGood(env, parts[k]);
      PartAscends(env, parts[k]);
      var a, b := AllRows(parts[..k]), PartRows(parts[k]);
      forall x, y | x in a && y in b ensures x.0 < y.0 {
        var i :| 0 <= i < k && x in PartRows(parts[i]);
        assert PartGood(env, parts[i]) && Below(PartFacts(parts[i]), PartFacts(parts[k]));
        PartAscends(env, parts[i]);
        RowsBelow(parts[i], parts[k], x, y);
      }
      TwoAscend(a, b);
      forall r | r in a + b ensures exists i :: 0 <= i < |parts| && r in PartRows(parts[i]) {
        if r in a { var i :| 0 <= i < k && r in PartRows(parts[..k][i]); assert r in PartRows(parts[i]); }
      }
    }
  }

  lemma TwoAscend(a: seq<Row>, b: seq<Row>)
    requires RowsAscend(a) && RowsAscend(b)
    requires forall x, y :: x in a && y in b ==> x.0 < y.0
    ensures RowsAscend(a + b)
  {
    var s := a + b;
    forall i, j | 0 <= i < j < |s| ensures s[i].0 < s[j].0 {
      if i < |a| <= j { assert s[i] in a && s[j] in b; }
    }
  }

  lemma PartAscends(env: Env, p: Part)
    requires PartGood(env, p)
    ensures RowsAscend(PartRows(p))
  {
    hide TermIndexed, HashesOf, StampsOf, WithTerm, WithHash;
    match p
    case Sealed(s) => SegRowsAscend(s);
    case Active(m, data) => LogRowsAscend(data, m);
  }

  lemma RowsBelow(p: Part, q: Part, x: Row, y: Row)
    requires RowsAscend(PartRows(p)) && RowsAscend(PartRows(q))
    requires Below(PartFacts(p), PartFacts(q)) && x in PartRows(p) && y in PartRows(q)
    ensures x.0 < y.0
  {
    hide MapOf, SegRows, LogRows;
    RowMember(PartRows(p), x);
    RowMember(PartRows(q), y);
  }

  // ---- The parts of a history found ----

  lemma {:induction false} CountSplit(segments: seq<Segment>, lo: nat)
    requires lo <= |segments|
    ensures CountRows(SealedParts(segments)) ==
            CountRows(SealedParts(segments[..lo])) + CountRows(SealedParts(segments[lo..]))
    decreases |segments|
  {
    hide *;
    if lo == |segments| {
      assert segments[..lo] == segments && segments[lo..] == [];
      NoRows();
    } else {
      var k := |segments| - 1;
      CountSplit(segments[..k], lo);
      CountAppend(segments[..k], segments[k]);
      assert segments == segments[..k] + [segments[k]];
      assert segments[..k][..lo] == segments[..lo];
      CountAppend(segments[..k][lo..], segments[k]);
      assert segments[lo..] == segments[..k][lo..] + [segments[k]];
    }
  }

  lemma NoRows()
    ensures CountRows(SealedParts([])) == 0
  {
  }

  lemma CountAppend(segments: seq<Segment>, s: Segment)
    ensures CountRows(SealedParts(segments + [s])) == CountRows(SealedParts(segments)) + |s.locs|
  {
    var parts := SealedParts(segments + [s]);
    assert parts[..|segments|] == SealedParts(segments);
  }

  function SealedParts(segments: seq<Segment>): seq<Part> {
    seq(|segments|, i requires 0 <= i < |segments| => Sealed(segments[i]))
  }

  lemma MergeFacts(f: Found, lo: nat)
    requires lo <= |f.segments|
    ensures AllFacts(SealedParts(f.segments[lo..])) == PartsOf(f.segments, f.mirror, f.log)[lo..|f.segments|]
  {
    hide SegFacts, LogFacts;
  }

  lemma InOrder(env: Env, f: Found, i: nat, j: nat)
    requires Sound(env, f) && i < j < |f.segments|
    ensures Below(SegFacts(f.segments[i]), SegFacts(f.segments[j]))
  {
    hide SegGood, LogGood, GoodEntry, Placed, Below, SegFacts, LogFacts, NextOf, Mirrors, Numbered;
    var all := PartsOf(f.segments, f.mirror, f.log);
    assert Below(all[i], all[j]);
  }

  /** What a merge of the segments from `lo` on is written from. */
  lemma MergeParts(env: Env, f: Found, lo: nat)
    requires Sound(env, f) && lo <= |f.segments|
    ensures PartsGood(env, SealedParts(f.segments[lo..]))
    ensures AllFacts(SealedParts(f.segments[lo..])) == PartsOf(f.segments, f.mirror, f.log)[lo..|f.segments|]
  {
    hide SegGood, LogGood, Below, SegFacts, LogFacts, AllRows, Inv, Numbered, Mirrors, PartsOf, AllFacts;
    var parts := SealedParts(f.segments[lo..]);
    MergeFacts(f, lo);
    forall i | 0 <= i < |parts| ensures PartGood(env, parts[i]) {
      assert SegGood(env, f.segments[lo + i]);
    }
    forall i, j | 0 <= i < j < |parts| ensures Below(PartFacts(parts[i]), PartFacts(parts[j])) {
      InOrder(env, f, lo + i, lo + j);
    }
    RowsInOrder(env, parts);
  }

  /** What a seal is written from. */
  lemma SealParts(env: Env, f: Found)
    requires Sound(env, f)
    ensures PartsGood(env, [Active(f.mirror, f.log)])
    ensures AllFacts([Active(f.mirror, f.log)]) == PartsOf(f.segments, f.mirror, f.log)[|f.segments|..]
  {
    hide SegGood, LogGood, GoodEntry, Placed, Below, SegFacts, LogFacts, AllRows, Inv;
    var parts := [Active(f.mirror, f.log)];
    assert PartGood(env, parts[0]);
    RowsInOrder(env, parts);
  }
}
