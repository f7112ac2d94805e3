/** Opening a history (clip/src/lib.rs, open_with): what a crash left is found as the
    history before or after the step it stopped, and what is not named is removed. */
module Opening {
  import opened Wrappers
  import opened Codec
  import opened Records
  import opened Disk
  import opened Logs
  import opened Entries
  import opened Stores
  import opened Segments
  import opened Manifests
  import opened Recovery
  import opened Rewriting
  import opened Steps
  import opened Histories

  /** A directory only this program wrote in: what it holds, if it holds a history, is
      sound. */
  ghost predicate Openable(env: Env, files: Files) {
    FoundIn(env, files).Ok? ==> Sound(env, FoundIn(env, files).value)
  }

  // ---- A new history ----

  function FirstManifest(keycheck: bytes): Manifest {
    Manifest(2, 1, keycheck, 1, [])
  }

  lemma FreshIsSound(env: Env, keycheck: bytes)
    requires |keycheck| < TWO_64
    ensures var f := Fresh().(m := FirstManifest(keycheck)); Sound(env, f) && AbsIn(env, f) == Abs(map[], 1)
  {
    hide LogGood, Mirrors, LogFacts, SegFacts, SegGood;
    EmptyLogIsGood(env);
    var f := Fresh().(m := FirstManifest(keycheck));
    assert StoreOf(f).parts == [NOTHING];
    Stores.One(NOTHING);
  }

  lemma NoManifest(env: Env, files: Files)
    requires ManifestName !in files
    ensures Recovers(env, files, Abs(map[], 1))
  {
    hide Sound, AbsIn, Fresh;
    FreshIsSound(env, []);
    assert Fresh().(m := FirstManifest([])) == Fresh() by { FreshIs(); }
  }

  lemma FreshIs()
    ensures Fresh().m == FirstManifest([])
  {
  }

  /** The first log and the first manifest. */
  method Begin(dir: Dir, env: Env, nonce: bytes) returns (m: Manifest)
    requires ManifestName !in dir.files && Lawful(env.keys)
    modifies dir
    ensures Holds(env, dir.files, Fresh().(m := m)) && Sound(env, Fresh().(m := m))
    ensures AbsIn(env, Fresh().(m := m)) == Abs(map[], 1)
    ensures old(dir.trace) <= dir.trace
    ensures Safe(env, dir.trace, |old(dir.trace)|, Abs(map[], 1), Abs(map[], 1))
  {
    hide Recovers, Sound, AbsIn, Decoded, EncodedManifest, LogHeader, Mirrors, Safe, Replay, Holds, Fresh;
    var keycheck := env.keys.seal(nonce, KEYCHECK_AAD, KEYCHECK);
    m := FirstManifest(keycheck);
    ghost var a, from, trace := Abs(map[], 1), |dir.trace|, dir.trace;
    NothingYet(env, trace, a, a);
    dir.Remove(LogName(1));
    ghost var x1 := dir.files;
    var _ := new Logs.Active.Create(dir, 1, env.crc);
    ghost var x2, x3 := x1[LogName(1) := Partial], dir.files;
    var data := Encode(m, env.crc);
    ManifestRoundTrip(m, env.crc);
    dir.Write(ManifestTmp, ManifestFile(data));
    ghost var x4, x5 := x3[ManifestTmp := Partial], dir.files;
    dir.Rename(ManifestTmp, ManifestName);
    ghost var f := Fresh().(m := m);
    assert Fresh().segments == [] && Fresh().log == LogHeader() by { FreshParts(); }
    BegunHolds(env, dir.files, f, data);
    FreshIsSound(env, keycheck);
    HoldsRecovers(env, dir.files, f);
    forall x | x in [x1, x2, x3, x4, x5] ensures Recovers(env, x, a) {
      NoManifest(env, x);
    }
    SafeOn(env, trace, [x1, x2, x3, x4, x5, dir.files], from, a, a);
    assert dir.trace == trace + [x1, x2, x3, x4, x5, dir.files];
  }

  lemma FreshParts()
    ensures Fresh().segments == [] && Fresh().log == LogHeader()
  {
  }

  lemma BegunHolds(env: Env, files: Files, f: Found, data: bytes)
    requires ManifestName in files && files[ManifestName] == ManifestFile(data) && Decoded(data, env.crc) == Some(f.m)
    requires env.keys.open(KEYCHECK_AAD, f.m.keycheck) == Some(KEYCHECK)
    requires f.m.segments == [] && f.segments == []
    requires LogName(f.m.active) in files && files[LogName(f.m.active)] == LogFile(f.log)
    ensures Holds(env, files, f)
  {
    hide Decoded;
  }

  // ---- An old one ----

  /** The segments named, opened one by one; None if one is missing or not a segment. */
  method OpenSegments(dir: Dir, ns: seq<u64>) returns (r: Option<seq<Segment>>)
    ensures r.Some? <==> HasSegments(dir.files, ns)
    ensures r.Some? ==> r.value == SegmentsIn(dir.files, ns)
  {
    var out: seq<Segment> := [];
    for i := 0 to |ns|
      invariant HasSegments(dir.files, ns[..i])
      invariant out == SegmentsIn(dir.files, ns[..i])
    {
      assert ns[..i + 1][i] == ns[i];
      var name := SegName(ns[i]);
      if name !in dir.files || !dir.files[name].SegFile? { return None; }
      out := out + [dir.files[name].segment.(number := ns[i])];
    }
    assert ns[..|ns|] == ns;
    r := Some(out);
  }

  method NextIdOf(m: Manifest, ids: seq<u64>, segments: seq<Segment>) returns (next: nat)
    ensures next == NextAfter(NextOfLog(m.nextId, ids), segments)
  {
    next := NextOfLog(m.nextId, ids);
    for i := 0 to |segments|
      invariant next == NextAfter(NextOfLog(m.nextId, ids), segments[..i])
    {
      assert segments[..i + 1][..i] == segments[..i];
      if segments[i].entries > 0 && segments[i].maxId + 1 > next { next := segments[i].maxId + 1; }
    }
    assert segments[..|segments|] == segments;
  }

  /** What the manifest does not name is not part of the history: it is removed. */
  method Sweep(dir: Dir, m: Manifest, ghost env: Env, ghost f: Found, ghost from: nat)
    requires Holds(env, dir.files, f) && Sound(env, f) && f.m == m
    requires Safe(env, dir.trace, from, AbsIn(env, f), AbsIn(env, f))
    modifies dir
    ensures Holds(env, dir.files, f) && dir.files.Keys == Kept(m)
    ensures Safe(env, dir.trace, from, AbsIn(env, f), AbsIn(env, f))
    ensures old(dir.trace) <= dir.trace
  {
    hide Holds, Recovers, Sound, Safe, AbsIn, Kept, FoundIn;
    var keep := Kept(m);
    HoldsRecovers(env, dir.files, f);
    var todo := dir.files.Keys - keep;
    while todo != {}
      invariant Holds(env, dir.files, f) && Safe(env, dir.trace, from, AbsIn(env, f), AbsIn(env, f))
      invariant old(dir.trace) <= dir.trace
      invariant dir.files.Keys == keep + todo && todo !! keep
      decreases |todo|
    {
      var name :| name in todo;
      RemoveAside(dir, name, env, f, from);
      todo := todo - {name};
    }
  }

  /** The log opened, its torn tail cut off: the directory holds the history found. */
  method OpenLog(dir: Dir, env: Env, m: Manifest, ghost f: Found, ghost from: nat) returns (a: Logs.Active?)
    requires LogName(m.active) in dir.files && ManifestName in dir.files
    requires FoundIn(env, dir.files).Ok? ==> FoundIn(env, dir.files) == Ok(f) && Sound(env, f)
    requires f.m == m && dir.files[ManifestName].ManifestFile?
             && Decoded(dir.files[ManifestName].data, env.crc) == Some(m)
    requires env.keys.open(KEYCHECK_AAD, m.keycheck) == Some(KEYCHECK) && HasSegments(dir.files, m.segments)
    requires HasLog(dir.files, m.active) ==> Safe(env, dir.trace, from, AbsIn(env, f), AbsIn(env, f))
    modifies dir
    ensures a == null <==> !HasLog(old(dir.files), m.active)
    ensures a == null ==> dir.files == old(dir.files) && dir.trace == old(dir.trace)
    ensures a != null ==> fresh(a) && a.dir == dir && a.number == m.active && a.crc == env.crc && a.Valid()
    ensures a != null ==> old(FoundIn(env, dir.files)) == Ok(f) && a.View() == f.mirror && Holds(env, dir.files, f)
    ensures a != null ==> Safe(env, dir.trace, from, AbsIn(env, f), AbsIn(env, f)) && old(dir.trace) <= dir.trace
  {
    hide Recovers, Sound, Safe, AbsIn, Replay, Decoded, Mirrors, SegmentsIn, HasSegments;
    ghost var files, trace := dir.files, dir.trace;
    a := Logs.Active.Open(dir, m.active, env.crc);
    if a != null {
      assert NamedBy(env, files, m) == Ok(f);
      var data := files[LogName(m.active)].data;
      ReplayEnds(data, HEADER, EMPTY, env.crc);
      SegmentsKept(files, dir.files, m.segments);
      assert Holds(env, dir.files, f);
      HoldsRecovers(env, dir.files, f);
      SafeOn(env, trace, [dir.files], from, AbsIn(env, f), AbsIn(env, f));
      assert dir.trace == trace || dir.trace == trace + [dir.files];
    }
  }

  /** What a directory recovers to: an empty history if none was begun. */
  ghost function HistoryIn(env: Env, files: Files): Abs
    requires FoundIn(env, files).Ok?
  {
    AbsIn(env, FoundIn(env, files).value)
  }

  lemma ManifestFound(env: Env, files: Files, m: Manifest)
    requires ManifestName in files && files[ManifestName].ManifestFile?
    requires Decoded(files[ManifestName].data, env.crc) == Some(m)
    ensures FoundIn(env, files) == NamedBy(env, files, m)
    ensures env.keys.open(KEYCHECK_AAD, m.keycheck) != Some(KEYCHECK) ==> FoundIn(env, files) == Err(WrongKey)
    ensures (env.keys.open(KEYCHECK_AAD, m.keycheck) == Some(KEYCHECK)
             && (!HasSegments(files, m.segments) || !HasLog(files, m.active))) ==> FoundIn(env, files) == Err(Corrupt)
    ensures FoundIn(env, files).Ok? ==>
              FoundIn(env, files).value.m == m && FoundIn(env, files).value.segments == SegmentsIn(files, m.segments)
  {
    hide Decoded, Replay, SegmentsIn;
  }

  /** The history a manifest names, or why it does not open. */
  method OpenNamed(dir: Dir, env: Env, opts: Options, m: Manifest, ghost from: nat) returns (h: History?, error: Error)
    requires Lawful(env.keys) && Openable(env, dir.files)
    requires ManifestName in dir.files && dir.files[ManifestName].ManifestFile?
    requires Decoded(dir.files[ManifestName].data, env.crc) == Some(m)
    requires FoundIn(env, dir.files).Ok? ==>
               Safe(env, dir.trace, from, HistoryIn(env, dir.files), HistoryIn(env, dir.files))
    modifies dir
    ensures h == null <==> old(FoundIn(env, dir.files)).Err?
    ensures h == null ==>
            old(FoundIn(env, dir.files)) == Err(error) && dir.files == old(dir.files) && dir.trace == old(dir.trace)
    ensures h != null ==>
              && fresh(h) && fresh(h.active) && h.dir == dir && h.env == env && h.opts == opts && h.Valid()
              && h.Abs() == old(HistoryIn(env, dir.files))
              && old(dir.trace) <= dir.trace && Safe(env, dir.trace, from, h.Abs(), h.Abs())
  {
    hide Recovers, Sound, Safe, AbsIn, Replay, Decoded, Mirrors, SegmentsIn, HasSegments, FoundIn, HasLog, Holds, Kept,
      NextOf;
    ghost var found := FoundIn(env, dir.files);
    ManifestFound(env, dir.files, m);
    if env.keys.open(KEYCHECK_AAD, m.keycheck) != Some(KEYCHECK) { return null, WrongKey; }
    var segments := OpenSegments(dir, m.segments);
    if segments.None? { return null, Corrupt; }
    ghost var f := if found.Ok? then found.value else Fresh().(m := m);
    NoLogNoHistory(dir.files, m.active);
    if LogName(m.active) !in dir.files { return null, Corrupt; }
    var a := OpenLog(dir, env, m, f, from);
    if a == null { return null, Corrupt; }
    LogHeld(env, dir.files, f);
    assert a.Data() == f.log && a.len == |f.log|;
    Sweep(dir, m, env, f, from);
    LogHeld(env, dir.files, f);
    assert a.Data() == f.log;
    assert a.Valid();
    var next := NextIdOf(m, a.ids, segments.value);
    error := Corrupt;
    assert a.View().ids == a.ids;
    h := new History.Made(dir, env, opts, next, segments.value, a, m);
    assert h.Here() == f;
    assert h.Valid() by { NextIsNext(f); }
  }

  lemma NextIsNext(f: Found)
    ensures NextOf(f) == NextAfter(NextOfLog(f.m.nextId, f.mirror.ids), f.segments)
  {
  }

  lemma NoLogNoHistory(files: Files, n: u64)
    ensures LogName(n) !in files ==> !HasLog(files, n)
  {
  }

  /** Open the history in the directory, or begin one. */
  method Open(dir: Dir, env: Env, opts: Options, nonce: bytes) returns (h: History?, error: Error)
    requires Lawful(env.keys) && Openable(env, dir.files)
    modifies dir
    ensures h == null <==> old(FoundIn(env, dir.files)).Err?
    ensures h == null ==>
            old(FoundIn(env, dir.files)) == Err(error) && dir.files == old(dir.files) && dir.trace == old(dir.trace)
    ensures h != null ==>
              && fresh(h) && fresh(h.active) && h.dir == dir && h.env == env && h.opts == opts && h.Valid()
              && h.Abs() == old(HistoryIn(env, dir.files))
              && old(dir.trace) <= dir.trace && Safe(env, dir.trace, |old(dir.trace)|, h.Abs(), h.Abs())
  {
    hide Recovers, Sound, Safe, AbsIn, Decoded, Holds, NamedBy;
    ghost var from, trace := |dir.trace|, dir.trace;
    if ManifestName !in dir.files {
      NoManifest(env, dir.files);
      assert HistoryIn(env, dir.files) == Abs(map[], 1) by { EmptyIs(env, dir.files); }
      var m := Begin(dir, env, nonce);
      HoldsRecovers(env, dir.files, Fresh().(m := m));
      ManifestIn(env, dir.files, Fresh().(m := m));
      h, error := OpenNamed(dir, env, opts, m, from);
    } else {
      var file := dir.files[ManifestName];
      if !file.ManifestFile? { return null, Corrupt; }
      var m := Decode(file.data, env.crc);
      if m.None? { return null, Corrupt; }
      if FoundIn(env, dir.files).Ok? { NothingYet(env, trace, HistoryIn(env, dir.files), HistoryIn(env, dir.files)); }
      h, error := OpenNamed(dir, env, opts, m.value, from);
    }
  }

  lemma EmptyIs(env: Env, files: Files)
    requires Recovers(env, files, Abs(map[], 1))
    ensures FoundIn(env, files).Ok? && HistoryIn(env, files) == Abs(map[], 1)
  {
    hide Sound, AbsIn, FoundIn;
  }

  lemma ManifestIn(env: Env, files: Files, f: Found)
    requires Holds(env, files, f)
    ensures ManifestName in files && files[ManifestName].ManifestFile?
    ensures Decoded(files[ManifestName].data, env.crc) == Some(f.m)
  {
    hide Decoded, SegmentsIn, HasSegments;
  }
}
