/** What a history's directory holds (clip/src/lib.rs, open_with): the manifest, the
    segments it names, the log it names as far as its frames are whole, and nothing else. */
module Recovery {
  import opened Wrappers
  import opened Codec
  import opened Records
  import opened Disk
  import opened Logs
  import opened Entries
  import opened Stores
  import opened Segments
  import opened Manifests

  /** "cellward clipboard history v1", sealed under "keycheck". */
  const KEYCHECK: bytes :=
    [99, 101, 108, 108, 119, 97, 114, 100, 32, 99, 108, 105, 112, 98, 111, 97, 114, 100, 32,
     104, 105, 115, 116, 111, 114, 121, 32, 118, 49]
  const KEYCHECK_AAD: bytes := [107, 101, 121, 99, 104, 101, 99, 107]

  datatype Found = Found(m: Manifest, segments: seq<Segment>, mirror: Mirror, log: bytes)

  /** A history not yet begun. */
  ghost function Fresh(): Found {
    Found(Manifest(2, 1, [], 1, []), [], EMPTY, LogHeader())
  }

  ghost predicate HasSegments(files: Files, ns: seq<u64>) {
    forall i :: 0 <= i < |ns| ==> SegName(ns[i]) in files && files[SegName(ns[i])].SegFile?
  }

  ghost function SegmentsIn(files: Files, ns: seq<u64>): seq<Segment>
    requires HasSegments(files, ns)
  {
    seq(|ns|, i requires 0 <= i < |ns| => files[SegName(ns[i])].segment.(number := ns[i]))
  }

  ghost predicate HasLog(files: Files, n: u64) {
    LogName(n) in files && GoodHeader(files[LogName(n)])
  }

  ghost function NamedBy(env: Env, files: Files, m: Manifest): Result<Found, Error> {
    if env.keys.open(KEYCHECK_AAD, m.keycheck) != Some(KEYCHECK) then Err(WrongKey)
    else if !HasSegments(files, m.segments) || !HasLog(files, m.active) then Err(Corrupt)
    else
      var data := files[LogName(m.active)].data;
      var (mirror, end) := Replay(data, HEADER, EMPTY, env.crc);
      ReplayEnds(data, HEADER, EMPTY, env.crc);
      Ok(Found(m, SegmentsIn(files, m.segments), mirror, data[..end]))
  }

  /** What opening these files would find. */
  ghost function FoundIn(env: Env, files: Files): Result<Found, Error> {
    if ManifestName !in files then Ok(Fresh())
    else if !files[ManifestName].ManifestFile? || Decoded(files[ManifestName].data, env.crc).None? then Err(Corrupt)
    else NamedBy(env, files, Decoded(files[ManifestName].data, env.crc).value)
  }

  function Kept(m: Manifest): set<Name> {
    {ManifestName, LogName(m.active)} + set i | 0 <= i < |m.segments| :: SegName(m.segments[i])
  }

  // ---- The history found ----

  function NextAfter(next: nat, segments: seq<Segment>): nat {
    if segments == [] then next
    else
      var k := |segments| - 1;
      var n := NextAfter(next, segments[..k]);
      if segments[k].entries > 0 && segments[k].maxId + 1 > n then segments[k].maxId + 1 else n
  }

  function NextOfLog(next: nat, ids: seq<u64>): nat {
    var n := if next > 1 then next else 1;
    if ids != [] && ids[|ids| - 1] + 1 > n then ids[|ids| - 1] + 1 else n
  }

  /** The next id: above the manifest's and every id there is. */
  ghost function NextOf(f: Found): nat {
    NextAfter(NextOfLog(f.m.nextId, f.mirror.ids), f.segments)
  }

  ghost function PartsOf(segments: seq<Segment>, mirror: Mirror, log: bytes): seq<Facts> {
    seq(|segments|, i requires 0 <= i < |segments| => SegFacts(segments[i])) + [LogFacts(mirror, log)]
  }

  ghost function StoreOf(f: Found): Store {
    Store(PartsOf(f.segments, f.mirror, f.log), NextOf(f))
  }

  ghost predicate Numbered(f: Found) {
    && |f.m.segments| == |f.segments| < TWO_32 && |f.m.keycheck| < TWO_64
    && f.m.active < f.m.nextFile
    && (forall i :: 0 <= i < |f.segments| ==> f.segments[i].number == f.m.segments[i] < f.m.nextFile)
    && (forall i, j :: 0 <= i < j < |f.m.segments| ==> f.m.segments[i] != f.m.segments[j])
  }

  /** Every index agrees with what it indexes, the log is what its file says, and the parts
      make a history. */
  ghost predicate Sound(env: Env, f: Found) {
    && Numbered(f)
    && (forall i :: 0 <= i < |f.segments| ==> SegGood(env, f.segments[i]))
    && LogGood(env, f.mirror, f.log)
    && LogHeader() <= f.log && Mirrors(f.log, f.mirror, env.crc)
    && Inv(env, StoreOf(f))
  }

  ghost function AbsIn(env: Env, f: Found): Abs {
    AbsOf(env, StoreOf(f))
  }

  /** Opening these files, whatever else happened to them, gives the history `a`. */
  ghost predicate Recovers(env: Env, files: Files, a: Abs) {
    && FoundIn(env, files).Ok?
    && Sound(env, FoundIn(env, files).value)
    && AbsIn(env, FoundIn(env, files).value) == a
  }

  // ---- What FoundIn depends on ----

  /** Files the manifest does not name are not part of the history. */
  lemma OthersDoNotMatter(env: Env, files: Files, files': Files)
    requires ManifestName in files && FoundIn(env, files).Ok?
    requires forall n :: n in Kept(FoundIn(env, files).value.m) ==> n in files && n in files' && files'[n] == files[n]
    ensures FoundIn(env, files') == FoundIn(env, files)
  {
    hide Replay, Decoded;
    var f := FoundIn(env, files).value;
    forall i | 0 <= i < |f.m.segments|
      ensures SegName(f.m.segments[i]) in files'
              && files'[SegName(f.m.segments[i])] == files[SegName(f.m.segments[i])] {
      assert SegName(f.m.segments[i]) in Kept(f.m);
    }
    assert SegmentsIn(files', f.m.segments) == SegmentsIn(files, f.m.segments);
  }

  /** The directory holds exactly this history. */
  ghost predicate Holds(env: Env, files: Files, f: Found) {
    && ManifestName in files && files[ManifestName].ManifestFile?
    && Decoded(files[ManifestName].data, env.crc) == Some(f.m)
    && env.keys.open(KEYCHECK_AAD, f.m.keycheck) == Some(KEYCHECK)
    && HasSegments(files, f.m.segments) && SegmentsIn(files, f.m.segments) == f.segments
    && LogName(f.m.active) in files && files[LogName(f.m.active)] == LogFile(f.log)
  }

  lemma HoldsIsFound(env: Env, files: Files, f: Found)
    requires Holds(env, files, f) && Mirrors(f.log, f.mirror, env.crc) && LogHeader() <= f.log
    ensures FoundIn(env, files) == Ok(f)
    ensures forall n :: n in Kept(f.m) ==> n in files
  {
    hide Replay, Decoded, SegmentsIn;
    assert f.log[..|f.log|] == f.log;
  }

  lemma HoldsStill(env: Env, files: Files, files': Files, f: Found)
    requires Holds(env, files, f)
    requires forall n :: n in Kept(f.m) ==> n in files && n in files' && files'[n] == files[n]
    ensures Holds(env, files', f)
  {
    hide Replay, Decoded;
    forall i | 0 <= i < |f.m.segments|
      ensures SegName(f.m.segments[i]) in files'
              && files'[SegName(f.m.segments[i])] == files[SegName(f.m.segments[i])] {
      assert SegName(f.m.segments[i]) in Kept(f.m);
    }
    assert SegmentsIn(files', f.m.segments) == SegmentsIn(files, f.m.segments);
  }

  // ---- A record written ----

  ghost function Longer(f: Found, payload: bytes, m: Mirror, crc: Crc): Found {
    f.(mirror := m, log := f.log + FrameOf(payload, crc))
  }

  /** A frame being written: until it is whole the history found is the old one. */
  lemma FrameStates(env: Env, files: Files, f: Found, payload: bytes, m: Mirror, k: nat)
    requires Holds(env, files, f) && Mirrors(f.log, f.mirror, env.crc) && LogHeader() <= f.log
    requires 0 < |payload| <= MAX_FRAME && Apply(f.mirror, payload, |f.log| + 8) == Some(m)
    requires k < |FrameOf(payload, env.crc)|
    ensures var state := Writing(files, LogName(f.m.active), f.log, FrameOf(payload, env.crc))[k];
            FoundIn(env, state) ==
            Ok(if k + 1 < |FrameOf(payload, env.crc)| then f else Longer(f, payload, m, env.crc))
  {
    hide Apply, Replay, Decoded, FrameOf, Mirrors, NamedBy, SegmentsIn, HasSegments;
    var frame := FrameOf(payload, env.crc);
    var name := LogName(f.m.active);
    var data := f.log + frame[..k + 1];
    var state := files[name := LogFile(data)];
    assert Writing(files, name, f.log, frame)[k] == state;
    SegmentsKept(files, state, f.m.segments);
    assert data[..|f.log|] == f.log;
    if k + 1 < |frame| {
      TornIsCut(f.log, f.mirror, payload, k + 1, env.crc);
      NamedIs(env, state, f.m, f.mirror, |f.log|);
    } else {
      assert frame[..k + 1] == frame;
      FrameAppended(f.log, f.mirror, payload, env.crc);
      WholeLog(data, m, env.crc);
      NamedIs(env, state, f.m, m, |data|);
      assert data[..|data|] == data;
    }
  }

  lemma WholeLog(data: bytes, m: Mirror, crc: Crc)
    requires Mirrors(data, m, crc)
    ensures HEADER <= |data| && Replay(data, HEADER, EMPTY, crc) == (m, |data|)
  {
  }

  lemma SegmentsKept(files: Files, files': Files, ns: seq<u64>)
    requires HasSegments(files, ns)
    requires forall n :: SegName(n) in files ==> SegName(n) in files' && files'[SegName(n)] == files[SegName(n)]
    ensures HasSegments(files', ns) && SegmentsIn(files', ns) == SegmentsIn(files, ns)
  {
  }

  lemma NamedIs(env: Env, files: Files, m: Manifest, mirror: Mirror, end: nat)
    requires env.keys.open(KEYCHECK_AAD, m.keycheck) == Some(KEYCHECK)
    requires HasSegments(files, m.segments) && HasLog(files, m.active)
    requires Replay(files[LogName(m.active)].data, HEADER, EMPTY, env.crc) == (mirror, end)
    requires end <= |files[LogName(m.active)].data|
    ensures NamedBy(env, files, m) ==
            Ok(Found(m, SegmentsIn(files, m.segments), mirror, files[LogName(m.active)].data[..end]))
  {
    hide Replay, SegmentsIn;
  }
}
