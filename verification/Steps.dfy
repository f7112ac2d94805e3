/** The file steps of the store (clip/src/lib.rs): each leaves a directory that still
    recovers to the history, whatever it is stopped after. */
module Steps {
  import opened Wrappers
  import opened Codec
  import opened Disk
  import opened Logs
  import opened Entries
  import opened Stores
  import opened Segments
  import opened Manifests
  import opened Recovery
  import opened Rewriting

  /** Every state of the directory from the `from`-th on recovers to one history or the
      other. */
  ghost predicate Safe(env: Env, trace: seq<Files>, from: nat, a: Abs, b: Abs) {
    && from <= |trace|
    && forall i :: from <= i < |trace| ==> Recovers(env, trace[i], a) || Recovers(env, trace[i], b)
  }

  lemma SafeOn(env: Env, trace: seq<Files>, more: seq<Files>, from: nat, a: Abs, b: Abs)
    requires Safe(env, trace, from, a, b)
    requires forall x :: x in more ==> Recovers(env, x, a) || Recovers(env, x, b)
    ensures Safe(env, trace + more, from, a, b)
  {
    hide Recovers;
    forall i | from <= i < |trace + more|
      ensures Recovers(env, (trace + more)[i], a) || Recovers(env, (trace + more)[i], b) {
      if i >= |trace| { assert (trace + more)[i] == more[i - |trace|]; }
    }
  }

  /** One step after another. */
  lemma SafeThen(env: Env, trace: seq<Files>, trace': seq<Files>, from: nat, a: Abs, b: Abs, c: Abs)
    requires trace <= trace' && Safe(env, trace, from, a, b) && Safe(env, trace', |trace|, b, c)
    requires a == b || b == c
    ensures Safe(env, trace', from, a, c)
  {
    hide Recovers;
    forall i | from <= i < |trace'| ensures Recovers(env, trace'[i], a) || Recovers(env, trace'[i], c) {
      if i < |trace| { assert trace'[i] == trace[i]; }
    }
  }

  /** Every state of the directory from the `from`-th on recovers to a history of this kind. */
  ghost predicate During(env: Env, trace: seq<Files>, from: nat, kind: Abs -> bool) {
    && from <= |trace|
    && forall i :: from <= i < |trace| ==> RecoversTo(env, trace[i], kind)
  }

  ghost predicate RecoversTo(env: Env, files: Files, kind: Abs -> bool) {
    && FoundIn(env, files).Ok?
    && Sound(env, FoundIn(env, files).value)
    && kind(AbsIn(env, FoundIn(env, files).value))
  }

  lemma SafeDuring(env: Env, trace: seq<Files>, from: nat, a: Abs, b: Abs, kind: Abs -> bool)
    requires Safe(env, trace, from, a, b) && kind(a) && kind(b)
    ensures During(env, trace, from, kind)
  {
    hide FoundIn, Sound, AbsIn;
    forall i | from <= i < |trace| ensures RecoversTo(env, trace[i], kind) {
      assert Recovers(env, trace[i], a) || Recovers(env, trace[i], b);
    }
  }

  lemma DuringThen(env: Env, trace: seq<Files>, trace': seq<Files>, from: nat, kind: Abs -> bool)
    requires trace <= trace' && During(env, trace, from, kind) && During(env, trace', |trace|, kind)
    ensures During(env, trace', from, kind)
  {
    hide RecoversTo;
    forall i | from <= i < |trace'| ensures RecoversTo(env, trace'[i], kind) {
      if i < |trace| { assert trace'[i] == trace[i]; }
    }
  }

  lemma DuringKinds(env: Env, trace: seq<Files>, from: nat, kind: Abs -> bool, wider: Abs -> bool)
    requires During(env, trace, from, kind) && forall a :: kind(a) ==> wider(a)
    ensures During(env, trace, from, wider)
  {
    hide FoundIn, Sound, AbsIn;
    forall i | from <= i < |trace| ensures RecoversTo(env, trace[i], wider) {
      assert RecoversTo(env, trace[i], kind);
    }
  }

  lemma HoldsRecovers(env: Env, files: Files, f: Found)
    requires Holds(env, files, f) && Sound(env, f)
    ensures Recovers(env, files, AbsIn(env, f))
    ensures FoundIn(env, files) == Ok(f)
    ensures forall n :: n in Kept(f.m) ==> n in files
  {
    hide Holds, Inv, SegGood, LogGood, FoundIn, AbsOf, Mirrors;
    HoldsIsFound(env, files, f);
  }

  /** A file the manifest does not name: written, renamed or removed, nothing is lost. */
  lemma Aside(env: Env, files: Files, files': Files, f: Found)
    requires Holds(env, files, f) && Sound(env, f)
    requires forall n :: n in Kept(f.m) && n in files ==> n in files' && files'[n] == files[n]
    ensures Holds(env, files', f) && Recovers(env, files', AbsIn(env, f))
  {
    hide Holds, Recovers, Sound, Kept;
    HoldsRecovers(env, files, f);
    HoldsStill(env, files, files', f);
    HoldsRecovers(env, files', f);
  }

  method WriteAside(dir: Dir, name: Name, file: File, ghost env: Env, ghost f: Found, ghost from: nat)
    requires Holds(env, dir.files, f) && Sound(env, f) && name !in Kept(f.m)
    requires Safe(env, dir.trace, from, AbsIn(env, f), AbsIn(env, f))
    modifies dir
    ensures Holds(env, dir.files, f) && Safe(env, dir.trace, from, AbsIn(env, f), AbsIn(env, f))
    ensures dir.files == old(dir.files)[name := file]
    ensures old(dir.trace) <= dir.trace
  {
    hide Holds, Recovers, Sound, Safe, AbsIn, Kept;
    ghost var was, trace := dir.files, dir.trace;
    dir.Write(name, file);
    Aside(env, was, was[name := Partial], f);
    Aside(env, was, dir.files, f);
    SafeOn(env, trace, [was[name := Partial], dir.files], from, AbsIn(env, f), AbsIn(env, f));
  }

  method RenameAside(dir: Dir, name: Name, onto: Name, ghost env: Env, ghost f: Found, ghost from: nat)
    requires Holds(env, dir.files, f) && Sound(env, f) && name !in Kept(f.m) && onto !in Kept(f.m)
    requires name in dir.files && name != onto
    requires Safe(env, dir.trace, from, AbsIn(env, f), AbsIn(env, f))
    modifies dir
    ensures Holds(env, dir.files, f) && Safe(env, dir.trace, from, AbsIn(env, f), AbsIn(env, f))
    ensures dir.files == (old(dir.files) - {name})[onto := old(dir.files)[name]]
    ensures old(dir.trace) <= dir.trace
  {
    hide Holds, Recovers, Sound, Safe, AbsIn, Kept;
    ghost var was, trace := dir.files, dir.trace;
    dir.Rename(name, onto);
    Aside(env, was, dir.files, f);
    SafeOn(env, trace, [dir.files], from, AbsIn(env, f), AbsIn(env, f));
  }

  method RemoveAside(dir: Dir, name: Name, ghost env: Env, ghost f: Found, ghost from: nat)
    requires Holds(env, dir.files, f) && Sound(env, f) && name !in Kept(f.m)
    requires Safe(env, dir.trace, from, AbsIn(env, f), AbsIn(env, f))
    modifies dir
    ensures Holds(env, dir.files, f) && Safe(env, dir.trace, from, AbsIn(env, f), AbsIn(env, f))
    ensures dir.files == old(dir.files) - {name}
    ensures old(dir.trace) <= dir.trace
  {
    hide Holds, Recovers, Sound, Safe, AbsIn, Kept;
    ghost var was, trace := dir.files, dir.trace;
    dir.Remove(name);
    Aside(env, was, dir.files, f);
    SafeOn(env, trace, [dir.files], from, AbsIn(env, f), AbsIn(env, f));
  }

  method CreateLog(dir: Dir, n: nat, env: Env, ghost f: Found, ghost from: nat) returns (log: Logs.Active)
    requires Holds(env, dir.files, f) && Sound(env, f) && LogName(n) !in Kept(f.m) && LogName(n) !in dir.files
    requires Safe(env, dir.trace, from, AbsIn(env, f), AbsIn(env, f))
    modifies dir
    ensures fresh(log) && log.dir == dir && log.number == n && log.crc == env.crc && log.Valid() && log.View() == EMPTY
    ensures Holds(env, dir.files, f) && Safe(env, dir.trace, from, AbsIn(env, f), AbsIn(env, f))
    ensures dir.files == old(dir.files)[LogName(n) := LogFile(LogHeader())]
    ensures old(dir.trace) <= dir.trace
  {
    hide Holds, Recovers, Sound, Safe, AbsIn, Kept, Mirrors;
    ghost var was, trace := dir.files, dir.trace;
    log := new Logs.Active.Create(dir, n, env.crc);
    Aside(env, was, was[LogName(n) := Partial], f);
    Aside(env, was, dir.files, f);
    SafeOn(env, trace, [was[LogName(n) := Partial], dir.files], from, AbsIn(env, f), AbsIn(env, f));
  }

  /** The files of `g` are all there but for its manifest. */
  ghost predicate Prepared(files: Files, g: Found) {
    && HasSegments(files, g.m.segments) && SegmentsIn(files, g.m.segments) == g.segments
    && LogName(g.m.active) in files && files[LogName(g.m.active)] == LogFile(g.log)
  }

  /** The manifest replaced: from the rename on, the directory holds `g`. */
  method ReplaceManifest(dir: Dir, env: Env, m: Manifest, ghost f: Found, ghost g: Found, ghost from: nat)
    requires Holds(env, dir.files, f) && Sound(env, f) && Sound(env, g) && AbsIn(env, f) == AbsIn(env, g)
    requires g.m == m && m.keycheck == f.m.keycheck && Prepared(dir.files, g)
    requires Safe(env, dir.trace, from, AbsIn(env, f), AbsIn(env, f))
    modifies dir
    ensures Holds(env, dir.files, g) && Safe(env, dir.trace, from, AbsIn(env, g), AbsIn(env, g))
    ensures dir.files.Keys == old(dir.files).Keys + {ManifestName} - {ManifestTmp}
    ensures old(dir.trace) <= dir.trace
  {
    hide Recovers, Sound, Safe, AbsIn, EncodedManifest, Decoded, Holds, Prepared, Kept;
    var data := Encode(m, env.crc);
    NumbersFit(env, g);
    KeyOf(env, dir.files, f);
    ManifestRoundTrip(m, env.crc);
    ghost var files := dir.files;
    WriteAside(dir, ManifestTmp, ManifestFile(data), env, f, from);
    ghost var trace := dir.trace;
    dir.Rename(ManifestTmp, ManifestName);
    NewManifest(env, files, dir.files, g, data);
    HoldsRecovers(env, dir.files, g);
    SafeOn(env, trace, [dir.files], from, AbsIn(env, g), AbsIn(env, g));
  }

  lemma KeyOf(env: Env, files: Files, f: Found)
    requires Holds(env, files, f)
    ensures env.keys.open(KEYCHECK_AAD, f.m.keycheck) == Some(KEYCHECK) && ManifestTmp !in Kept(f.m)
  {
    hide Decoded, HasSegments, SegmentsIn;
  }

  lemma NumbersFit(env: Env, g: Found)
    requires Sound(env, g)
    ensures |g.m.keycheck| < TWO_64 && |g.m.segments| < TWO_32
  {
    hide Inv, SegGood, LogGood, Mirrors;
  }

  lemma NewManifest(env: Env, files: Files, files': Files, g: Found, data: bytes)
    requires Prepared(files, g) && env.keys.open(KEYCHECK_AAD, g.m.keycheck) == Some(KEYCHECK)
    requires Decoded(data, env.crc) == Some(g.m)
    requires files' == (files[ManifestTmp := ManifestFile(data)] - {ManifestTmp})[ManifestName := ManifestFile(data)]
    ensures Holds(env, files', g)
  {
    hide Decoded;
    SegmentsKept(files, files', g.m.segments);
  }

  /** The record just appended: the file holds the history with it, and every part of its
      frame on the way recovers to the history before or the history after. */
  lemma RecordSteps(env: Env, files: Files, f: Found, payload: bytes, m: Mirror, trace: seq<Files>, from: nat)
    requires Holds(env, files, f) && Sound(env, f)
    requires 0 < |payload| <= MAX_FRAME && Apply(f.mirror, payload, |f.log| + 8) == Some(m)
    requires Sound(env, Longer(f, payload, m, env.crc))
    requires Safe(env, trace, from, AbsIn(env, f), AbsIn(env, Longer(f, payload, m, env.crc)))
    ensures var g := Longer(f, payload, m, env.crc);
            var name := LogName(f.m.active);
            && Holds(env, files[name := LogFile(g.log)], g)
            && files[name := LogFile(g.log)].Keys == files.Keys
            && Safe(env, trace + Writing(files, name, f.log, FrameOf(payload, env.crc)), from, AbsIn(env, f),
                    AbsIn(env, g))
  {
    hide Sound, Recovers, Apply, AbsIn, FrameOf, Writing, Mirrors, FoundIn;
    var g := Longer(f, payload, m, env.crc);
    var name := LogName(f.m.active);
    var frame := FrameOf(payload, env.crc);
    var states := Writing(files, name, f.log, frame);
    SoundLog(env, f);
    WritingLength(files, name, f.log, frame);
    forall x | x in states ensures Recovers(env, x, AbsIn(env, f)) || Recovers(env, x, AbsIn(env, g)) {
      var k :| 0 <= k < |states| && states[k] == x;
      FrameStates(env, files, f, payload, m, k);
      FoundRecovers(env, x, if k + 1 < |frame| then f else g);
    }
    SafeOn(env, trace, states, from, AbsIn(env, f), AbsIn(env, g));
    SegmentsKept(files, files[name := LogFile(g.log)], f.m.segments);
  }

  lemma WritingLength(files: Files, name: Name, data: bytes, extra: bytes)
    ensures |Writing(files, name, data, extra)| == |extra|
  {
  }

  lemma SoundLog(env: Env, f: Found)
    requires Sound(env, f)
    ensures Mirrors(f.log, f.mirror, env.crc) && LogHeader() <= f.log
  {
    hide Inv, SegGood, LogGood, Mirrors;
  }

  lemma FoundRecovers(env: Env, files: Files, f: Found)
    requires FoundIn(env, files) == Ok(f) && Sound(env, f)
    ensures Recovers(env, files, AbsIn(env, f))
  {
    hide FoundIn, Sound, AbsIn;
  }

  // ---- A seal and a merge, file by file ----

  function NumbersOf(segments: seq<Segment>): seq<nat> {
    seq(|segments|, i requires 0 <= i < |segments| => segments[i].number)
  }

  function SizesOf(segments: seq<Segment>): seq<nat> {
    seq(|segments|, i requires 0 <= i < |segments| => segments[i].size)
  }

  lemma NumbersAre(env: Env, f: Found)
    requires Sound(env, f)
    ensures Numbered(f) && NumbersOf(f.segments) == f.m.segments
  {
    hide Inv, SegGood, LogGood, Mirrors;
  }

  /** The segment under its name, a new log, the manifest that names both, the old log
      removed: stopped anywhere, the same history. */
  method SealFiles(dir: Dir, env: Env, s: Segment, m: Manifest, was: u64, ghost f: Found, ghost from: nat)
    returns (log: Logs.Active)
    requires Holds(env, dir.files, f) && Sound(env, f) && dir.files.Keys == Kept(f.m) && was == f.m.active
    requires Numbered(f) && f.m.nextFile + 2 < TWO_64 && NextOf(f) < TWO_64 && s.number == f.m.nextFile
    requires m == SealedManifest(f.m, NextOf(f))
    requires Sound(env, SealedFound(f, s)) && AbsIn(env, SealedFound(f, s)) == AbsIn(env, f)
    requires Safe(env, dir.trace, from, AbsIn(env, f), AbsIn(env, f))
    modifies dir
    ensures fresh(log) && log.dir == dir && log.number == m.active && log.crc == env.crc
    ensures log.Valid() && log.View() == EMPTY
    ensures DataIn(dir.files, m.active) == LogHeader()
    ensures Holds(env, dir.files, SealedFound(f, s)) && dir.files.Keys == Kept(m)
    ensures Safe(env, dir.trace, from, AbsIn(env, f), AbsIn(env, f))
    ensures old(dir.trace) <= dir.trace
  {
    hide Holds, Sound, Safe, AbsIn, Mirrors, NextOf, Kept, Prepared, Recovers;
    var n := s.number;
    ghost var g := SealedFound(f, s);
    SealNames(f.m, NextOf(f));
    WriteAside(dir, SegTmp(n), SegFile(s), env, f, from);
    RenameAside(dir, SegTmp(n), SegName(n), env, f, from);
    log := CreateLog(dir, n + 1, env, f, from);
    SealPrepared(env, dir.files, f, s);
    label created:
    ReplaceManifest(dir, env, m, f, g, from);
    label named:
    RemoveAside(dir, LogName(was), env, g, from);
    LogHeld(env, dir.files, g);
    assert dir.files.Keys == Kept(m);
    assert log.Valid();
  }

  lemma LogHeld(env: Env, files: Files, g: Found)
    requires Holds(env, files, g)
    ensures LogName(g.m.active) in files && files[LogName(g.m.active)] == LogFile(g.log)
  {
    hide Decoded, SegmentsIn, HasSegments;
  }

  lemma SealNames(m: Manifest, next: u64)
    requires m.nextFile + 2 < TWO_64 && m.active < m.nextFile
    requires forall i :: 0 <= i < |m.segments| ==> m.segments[i] < m.nextFile
    ensures SegTmp(m.nextFile) !in Kept(m) && SegName(m.nextFile) !in Kept(m) && LogName(m.nextFile + 1) !in Kept(m)
    ensures LogName(m.active) !in Kept(SealedManifest(m, next))
    ensures Kept(SealedManifest(m, next)) ==
            Kept(m) + {SegName(m.nextFile), LogName(m.nextFile + 1)} - {LogName(m.active)}
    ensures ManifestTmp !in Kept(m) && ManifestName in Kept(m)
  {
    var s := SealedManifest(m, next).segments;
    assert s[|m.segments|] == m.nextFile;
    assert forall i :: 0 <= i < |m.segments| ==> s[i] == m.segments[i];
  }

  lemma SealPrepared(env: Env, files: Files, f: Found, s: Segment)
    requires Holds(env, files, f) && Numbered(f)
    requires f.m.nextFile + 2 < TWO_64 && NextOf(f) < TWO_64 && s.number == f.m.nextFile
    requires SegName(f.m.nextFile) in files && files[SegName(f.m.nextFile)] == SegFile(s)
    requires LogName(f.m.nextFile + 1) in files && files[LogName(f.m.nextFile + 1)] == LogFile(LogHeader())
    ensures Prepared(files, SealedFound(f, s))
  {
    hide NextOf, Decoded;
  }

  ghost function Gone(m: Manifest, lo: nat, hi: nat): set<Name>
    requires lo <= hi <= |m.segments|
  {
    set k | lo <= k < hi :: SegName(m.segments[k])
  }

  lemma InKept(m: Manifest, x: Name)
    ensures x in Kept(m) <==> x == ManifestName || x == LogName(m.active) || (x.SegName? && x.number in m.segments)
  {
  }

  lemma InGone(m: Manifest, lo: nat, hi: nat, x: Name)
    requires lo <= hi <= |m.segments|
    ensures x in Gone(m, lo, hi) <==> x.SegName? && x.number in m.segments[lo..hi]
  {
    if x.SegName? && x.number in m.segments[lo..hi] {
      var k :| 0 <= k < hi - lo && m.segments[lo..hi][k] == x.number;
      assert m.segments[lo + k] == x.number;
    }
  }

  lemma MergeNames(f: Found, next: u64, lo: nat)
    requires Numbered(f) && lo <= |f.segments| && f.m.nextFile + 1 < TWO_64
    ensures var m, n, g := f.m, f.m.nextFile, MergedManifest(f.m, next, lo);
            && SegTmp(n) !in Kept(m) && SegName(n) !in Kept(m) && ManifestTmp !in Kept(m) && ManifestName in Kept(m)
            && Kept(g) == Kept(m) + {SegName(n)} - Gone(m, lo, |m.segments|)
            && forall k :: lo <= k < |m.segments| ==> SegName(m.segments[k]) !in Kept(g)
  {
    hide Kept, Gone;
    var m, n, g := f.m, f.m.nextFile, MergedManifest(f.m, next, lo);
    InKept(m, SegTmp(n));
    InKept(m, SegName(n));
    InKept(m, ManifestTmp);
    InKept(m, ManifestName);
    assert m.segments == m.segments[..lo] + m.segments[lo..];
    assert m.segments[lo..|m.segments|] == m.segments[lo..];
    ApartNumbers(f, lo);
    forall x ensures x in Kept(g) <==> x in Kept(m) + {SegName(n)} - Gone(m, lo, |m.segments|) {
      InKept(g, x);
      InKept(m, x);
      InGone(m, lo, |m.segments|, x);
    }
    forall k | lo <= k < |m.segments| ensures SegName(m.segments[k]) !in Kept(g) {
      InGone(m, lo, |m.segments|, SegName(m.segments[k]));
      assert m.segments[k] == m.segments[lo..][k - lo];
    }
  }

  lemma ApartNumbers(f: Found, lo: nat)
    requires Numbered(f) && lo <= |f.segments|
    ensures forall x :: x in f.m.segments[lo..] ==> x !in f.m.segments[..lo] && x != f.m.nextFile
  {
    forall x | x in f.m.segments[lo..] ensures x !in f.m.segments[..lo] && x != f.m.nextFile {
      var k :| 0 <= k < |f.m.segments[lo..]| && f.m.segments[lo..][k] == x;
      assert f.m.segments[lo + k] == x;
    }
  }

  lemma MergePrepared(env: Env, files: Files, f: Found, s: Segment, lo: nat)
    requires Holds(env, files, f) && Numbered(f) && lo <= |f.segments|
    requires f.m.nextFile + 1 < TWO_64 && NextOf(f) < TWO_64 && s.number == f.m.nextFile
    requires SegName(f.m.nextFile) in files && files[SegName(f.m.nextFile)] == SegFile(s)
    ensures Prepared(files, MergedFound(f, s, lo))
  {
    hide NextOf, Decoded;
  }

  /** The merged segment under its name, the manifest that names it, the old segments
      removed: stopped anywhere, the same history. */
  method MergeFiles(dir: Dir, env: Env, s: Segment, m: Manifest, gone: seq<u64>, ghost f: Found, lo: nat,
                    ghost from: nat)
    requires Holds(env, dir.files, f) && Sound(env, f) && dir.files.Keys == Kept(f.m) && gone == f.m.segments
    requires Numbered(f) && f.m.nextFile + 1 < TWO_64 && NextOf(f) < TWO_64 && s.number == f.m.nextFile
    requires lo <= |f.segments| && m == MergedManifest(f.m, NextOf(f), lo)
    requires Sound(env, MergedFound(f, s, lo)) && AbsIn(env, MergedFound(f, s, lo)) == AbsIn(env, f)
    requires Safe(env, dir.trace, from, AbsIn(env, f), AbsIn(env, f))
    modifies dir
    ensures Holds(env, dir.files, MergedFound(f, s, lo)) && dir.files.Keys == Kept(m)
    ensures Safe(env, dir.trace, from, AbsIn(env, f), AbsIn(env, f))
    ensures old(dir.trace) <= dir.trace
  {
    hide Holds, Sound, Safe, AbsIn, Mirrors, NextOf, Kept, Prepared, Recovers;
    var n := s.number;
    ghost var g := MergedFound(f, s, lo);
    MergeNames(f, NextOf(f), lo);
    WriteAside(dir, SegTmp(n), SegFile(s), env, f, from);
    RenameAside(dir, SegTmp(n), SegName(n), env, f, from);
    MergePrepared(env, dir.files, f, s, lo);
    ReplaceManifest(dir, env, m, f, g, from);
    for i := lo to |gone|
      invariant Holds(env, dir.files, g) && Safe(env, dir.trace, from, AbsIn(env, g), AbsIn(env, g))
      invariant dir.files.Keys == Kept(f.m) + {SegName(n)} - Gone(f.m, lo, i)
      invariant old(dir.trace) <= dir.trace
    {
      RemoveAside(dir, SegName(gone[i]), env, g, from);
    }
  }
}
