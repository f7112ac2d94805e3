/** The active segment (clip/src/active.rs): an append-only log of checksummed frames,
    mirrored in memory. */
module Logs {
  import opened Wrappers
  import opened Codec
  import opened Order
  import opened Records
  import opened Disk

  const MAGIC: bytes := [67, 87, 67, 76]
  const VERSION: u32 := 1
  const HEADER: nat := 8
  const MAX_FRAME: nat := 0x4000_0000

  const R_ENTRY: byte := 1
  const R_EVENT: byte := 2
  const R_DELETE: byte := 3

  type Crc = bytes -> u32

  /** What the log holds in memory of its file. */
  datatype Mirror = Mirror(
    ids: seq<u64>,
    locs: seq<(nat, nat)>,
    postings: map<u64, seq<u64>>,
    dedup: map<u64, seq<u64>>,
    events: seq<Event>,
    tombstones: set<u64>,
    records: nat)

  const EMPTY: Mirror := Mirror([], [], map[], map[], [], {}, 0)

  // ---- Frames ----

  function LogHeader(): bytes {
    MAGIC + PutU32(VERSION)
  }

  function FrameOf(payload: bytes, crc: Crc): bytes {
    PutU32(|payload|) + PutU32(crc(payload)) + payload
  }

  /** What a frame at `at` holds and where it ends; None unless all of it is there and its
      CRC is right. */
  function Frame(data: bytes, at: nat, crc: Crc): Option<(bytes, nat)> {
    var (len, a1) :- GetU32(data, at);
    if len > MAX_FRAME || len == 0 then None
    else
      var (sum, a2) :- GetU32(data, a1);
      var (payload, a3) :- GetTake(data, a2, len);
      if crc(payload) == sum then Some((payload, a3)) else None
  }

  /** A frame written is read back, whatever follows it. */
  lemma FrameRoundTrip(data: bytes, at: nat, payload: bytes, crc: Crc)
    requires 0 < |payload| <= MAX_FRAME
    requires at + |FrameOf(payload, crc)| <= |data|
    requires data[at..at + |FrameOf(payload, crc)|] == FrameOf(payload, crc)
    ensures Frame(data, at, crc) == Some((payload, at + |FrameOf(payload, crc)|))
  {
    hide LE, FromLE;
    ThreeParts(data, at, PutU32(|payload|), PutU32(crc(payload)), payload);
    U32RoundTrip(|payload|);
    U32RoundTrip(crc(payload));
  }

  /** What is read as a frame is one as it is written, with its length and its checksum. */
  lemma FrameIs(data: bytes, at: nat, crc: Crc)
    requires Frame(data, at, crc).Some?
    ensures var (payload, next) := Frame(data, at, crc).value;
            && 0 < |payload| <= MAX_FRAME && at + |FrameOf(payload, crc)| == next <= |data|
            && data[at..next] == FrameOf(payload, crc)
  {
    hide LE, FromLE;
    var (payload, next) := Frame(data, at, crc).value;
    Pow256Values();
    U32Unique(data[at..at + 4], |payload|);
    U32Unique(data[at + 4..at + 8], crc(payload));
    assert data[at..next] == data[at..at + 4] + data[at + 4..at + 8] + payload;
  }

  /** A frame cut short is no frame. */
  lemma TornFrame(data: bytes, at: nat, payload: bytes, crc: Crc)
    requires 0 < |payload| <= MAX_FRAME
    requires at <= |data| < at + |FrameOf(payload, crc)|
    requires data[at..] <= FrameOf(payload, crc)
    ensures Frame(data, at, crc) == None
  {
    hide LE, FromLE;
    if at + 8 <= |data| {
      var f := FrameOf(payload, crc);
      assert data[at..at + 4] == data[at..][..4] == f[..4] == PutU32(|payload|);
      U32RoundTrip(|payload|);
    }
  }

  /** Whole frames do not change when more is written after them. */
  lemma FrameStays(data: bytes, more: bytes, at: nat, crc: Crc)
    requires Frame(data, at, crc).Some?
    ensures Frame(data + more, at, crc) == Frame(data, at, crc)
    ensures at + 8 < Frame(data, at, crc).value.1 <= |data|
  {
    hide FromLE;
    var all := data + more;
    assert all[at..at + 4] == data[at..at + 4];
    assert all[at + 4..at + 8] == data[at + 4..at + 8];
    var len := GetU32(data, at).value.0;
    assert all[at + 8..at + 8 + len] == data[at + 8..at + 8 + len];
  }

  // ---- One record ----

  function PutTerms(terms: seq<u64>): bytes {
    if terms == [] then [] else PutU64(terms[0]) + PutTerms(terms[1..])
  }

  function GetTerms(b: bytes, at: nat, n: nat): Option<(seq<u64>, nat)>
    decreases n
  {
    if n == 0 then Some(([], at))
    else
      var (t, a1) :- GetU64(b, at);
      var (rest, a2) :- GetTerms(b, a1, n - 1);
      Some(([t] + rest, a2))
  }

  function EntryPayload(terms: seq<u64>, blob: bytes): (p: bytes)
    ensures |blob| < |p|
  {
    [R_ENTRY] + Varint(|terms|) + PutTerms(terms) + blob
  }

  function EventPayload(e: Event): bytes {
    [R_EVENT] + [e.kind] + PutU64(e.id) + PutI64(e.at)
  }

  function DeletePayload(id: u64): bytes {
    [R_DELETE] + PutU64(id)
  }

  function Listed(m: map<u64, seq<u64>>, key: u64): seq<u64> {
    if key in m then m[key] else []
  }

  function AddUnder(m: map<u64, seq<u64>>, key: u64, id: u64): map<u64, seq<u64>> {
    m[key := Listed(m, key) + [id]]
  }

  function AddAll(m: map<u64, seq<u64>>, keys: seq<u64>, id: u64): map<u64, seq<u64>>
    decreases keys
  {
    if keys == [] then m else AddAll(AddUnder(m, keys[0], id), keys[1..], id)
  }

  function EntryAdded(m: Mirror, terms: seq<u64>, b: Blob, at: nat, len: nat): Mirror {
    m.(ids := m.ids + [b.id],
       locs := m.locs + [(at, len)],
       postings := AddAll(m.postings, terms, b.id),
       dedup := AddUnder(m.dedup, b.dedup, b.id),
       events := m.events + [Event(b.id, b.copiedAt, COPIED)],
       records := m.records + 1)
  }

  /** A payload's meaning, before it is mirrored. */
  datatype LogRecord =
    | REntry(terms: seq<u64>, blobAt: nat, blob: Blob)
    | REvent(event: Event)
    | RDelete(id: u64)

  function RecordOf(payload: bytes): Option<LogRecord> {
    var (kind, a1) :- GetU8(payload, 0);
    if kind == R_ENTRY then
      var (n, a2) :- GetVarint(payload, a1);
      var (terms, a3) :- GetTerms(payload, a2, n);
      if a3 > |payload| then None else
        var b :- Parsed(payload[a3..]);
        Some(REntry(terms, a3, b))
    else if kind == R_EVENT then
      var (k, a2) :- GetU8(payload, a1);
      var (id, a3) :- GetU64(payload, a2);
      var (t, a4) :- GetI64(payload, a3);
      if k != COPIED && k != PASTED then None else Some(REvent(Event(id, t, k)))
    else if kind == R_DELETE then
      var (id, a2) :- GetU64(payload, a1);
      Some(RDelete(id))
    else None
  }

  /** What a payload makes of the mirror; None for a payload that makes no sense after it. */
  function Apply(m: Mirror, payload: bytes, at: nat): Option<Mirror> {
    var r :- RecordOf(payload);
    match r
    case REntry(terms, blobAt, b) =>
      if (m.ids != [] && m.ids[|m.ids| - 1] >= b.id) || blobAt > |payload| then None
      else Some(EntryAdded(m, terms, b, at + blobAt, |payload| - blobAt))
    case REvent(e) => Some(m.(events := m.events + [e], records := m.records + 1))
    case RDelete(id) => Some(m.(tombstones := m.tombstones + {id}, records := m.records + 1))
  }

  lemma {:induction false} TermsRoundTrip(b: bytes, at: nat, terms: seq<u64>)
    requires at + |PutTerms(terms)| <= |b| && b[at..at + |PutTerms(terms)|] == PutTerms(terms)
    ensures GetTerms(b, at, |terms|) == Some((terms, at + |PutTerms(terms)|))
    decreases terms
  {
    hide LE, FromLE;
    if terms != [] {
      var x, rest := PutU64(terms[0]), PutTerms(terms[1..]);
      ThreeParts(b, at, x, rest, []);
      U64RoundTrip(terms[0]);
      TermsRoundTrip(b, at + 8, terms[1..]);
      assert terms == [terms[0]] + terms[1..];
    }
  }

  lemma {:induction false} PutTermsLength(terms: seq<u64>)
    ensures |PutTerms(terms)| == 8 * |terms|
  {
    if terms != [] { PutTermsLength(terms[1..]); }
  }

  lemma EntryRoundTrip(terms: seq<u64>, blob: bytes)
    requires |terms| < TWO_64 && Parsed(blob).Some?
    ensures RecordOf(EntryPayload(terms, blob)) ==
            Some(REntry(terms, 1 + |Varint(|terms|)| + |PutTerms(terms)|, Parsed(blob).value))
  {
    hide *;
    var p := EntryPayload(terms, blob);
    var v, t := Varint(|terms|), PutTerms(terms);
    assert p == [R_ENTRY] + v + t + blob by { EntryPayloadIs(terms, blob); }
    EntryParts(p, R_ENTRY, v, t, blob, 1 + |v|, 1 + |v| + |t|);
    VarintRoundTrip(p, 1, |terms|);
    TermsRoundTrip(p, 1 + |v|, terms);
    EntryReads(p, terms, 1 + |v|, 1 + |v| + |t|);
  }

  lemma EntryPayloadIs(terms: seq<u64>, blob: bytes)
    ensures EntryPayload(terms, blob) == [R_ENTRY] + Varint(|terms|) + PutTerms(terms) + blob
  {
  }

  lemma EntryParts(p: bytes, first: byte, v: bytes, t: bytes, blob: bytes, a2: nat, a3: nat)
    requires p == [first] + v + t + blob && a2 == 1 + |v| && a3 == a2 + |t|
    ensures a3 <= |p| && p[0] == first && p[1..a2] == v && p[a2..a3] == t && p[a3..] == blob
  {
  }

  lemma EntryReads(p: bytes, terms: seq<u64>, a2: nat, a3: nat)
    requires a3 <= |p| && |p| > 0 && p[0] == R_ENTRY
    requires GetVarint(p, 1) == Some((|terms|, a2))
    requires GetTerms(p, a2, |terms|) == Some((terms, a3))
    requires Parsed(p[a3..]).Some?
    ensures RecordOf(p) == Some(REntry(terms, a3, Parsed(p[a3..]).value))
  {
    hide GetVarint, GetTerms, Parsed;
  }

  lemma EventRoundTrip(e: Event)
    requires e.kind == COPIED || e.kind == PASTED
    ensures RecordOf(EventPayload(e)) == Some(REvent(e))
  {
    hide LE, FromLE;
    var p := EventPayload(e);
    assert p[2..10] == PutU64(e.id) && p[10..18] == PutI64(e.at);
    U64RoundTrip(e.id);
    I64RoundTrip(e.at);
  }

  lemma DeleteRoundTrip(id: u64)
    ensures RecordOf(DeletePayload(id)) == Some(RDelete(id))
  {
    hide LE, FromLE;
    assert DeletePayload(id)[1..9] == PutU64(id);
    U64RoundTrip(id);
  }

  // ---- The whole file ----

  /** The mirror after the good frames from `at` on, and where they end. */
  function Replay(data: bytes, at: nat, m: Mirror, crc: Crc): (Mirror, nat)
    requires at <= |data|
    decreases |data| - at
  {
    match Frame(data, at, crc)
    case None => (m, at)
    case Some((payload, next)) =>
      FrameStays(data, [], at, crc);
      match Apply(m, payload, at + 8)
      case None => (m, at)
      case Some(more) => Replay(data, next, more, crc)
  }

  lemma {:induction false} ReplayEnds(data: bytes, at: nat, m: Mirror, crc: Crc)
    requires at <= |data|
    ensures at <= Replay(data, at, m, crc).1 <= |data|
    decreases |data| - at
  {
    hide Apply, Frame;
    var f := Frame(data, at, crc);
    if f.Some? {
      FrameStays(data, [], at, crc);
      var more := Apply(m, f.value.0, at + 8);
      if more.Some? { ReplayEnds(data, f.value.1, more.value, crc); }
    }
  }

  /** A file whose every frame is good, and more after it: the rest is read as from there. */
  lemma {:induction false} ReplayOver(data: bytes, rest: bytes, at: nat, m: Mirror, crc: Crc)
    requires at <= |data| && Replay(data, at, m, crc).1 == |data|
    ensures Replay(data + rest, at, m, crc) ==
            Replay(data + rest, |data|, Replay(data, at, m, crc).0, crc)
    decreases |data| - at
  {
    hide Apply, Frame;
    var f := Frame(data, at, crc);
    if f.Some? {
      FrameStays(data, rest, at, crc);
      FrameStays(data, [], at, crc);
      var more := Apply(m, f.value.0, at + 8);
      if more.Some? { ReplayOver(data, rest, f.value.1, more.value, crc); }
    }
  }

  /** `data` is a log of good frames only, mirrored by `m`. */
  ghost predicate Mirrors(data: bytes, m: Mirror, crc: Crc) {
    HEADER <= |data| && Replay(data, HEADER, EMPTY, crc) == (m, |data|)
  }

  /** A record written and mirrored is what reading the file again gives. */
  lemma FrameAppended(data: bytes, m: Mirror, payload: bytes, crc: Crc)
    requires Mirrors(data, m, crc) && 0 < |payload| <= MAX_FRAME
    requires Apply(m, payload, |data| + 8).Some?
    ensures Mirrors(data + FrameOf(payload, crc), Apply(m, payload, |data| + 8).value, crc)
  {
    hide Apply, Frame;
    var f := FrameOf(payload, crc);
    var all := data + f;
    ReplayOver(data, f, HEADER, EMPTY, crc);
    assert all[|data|..|data| + |f|] == f;
    FrameRoundTrip(all, |data|, payload, crc);
    NoFrameAtEnd(all, crc);
  }

  lemma NoFrameAtEnd(data: bytes, crc: Crc)
    ensures Frame(data, |data|, crc) == None
  {
  }

  /** A record half written is not there. */
  lemma TornIsCut(data: bytes, m: Mirror, payload: bytes, k: nat, crc: Crc)
    requires Mirrors(data, m, crc) && 0 < |payload| <= MAX_FRAME
    requires k < |FrameOf(payload, crc)|
    ensures Replay(data + FrameOf(payload, crc)[..k], HEADER, EMPTY, crc) == (m, |data|)
  {
    hide Apply, Frame;
    var part := FrameOf(payload, crc)[..k];
    ReplayOver(data, part, HEADER, EMPTY, crc);
    assert (data + part)[|data|..] == part;
    TornFrame(data + part, |data|, payload, crc);
  }

  /** Every record counts: a log of none is empty. */
  lemma {:induction false} ReplayCounts(data: bytes, at: nat, m: Mirror, crc: Crc)
    requires at <= |data|
    ensures var r := Replay(data, at, m, crc).0; r.records >= m.records && (r.records == m.records ==> r == m)
    decreases |data| - at
  {
    hide RecordOf, Frame;
    var f := Frame(data, at, crc);
    if f.Some? {
      FrameStays(data, [], at, crc);
      var more := Apply(m, f.value.0, at + 8);
      if more.Some? { ReplayCounts(data, f.value.1, more.value, crc); }
    }
  }

  // ---- What a mirror says of its file ----

  /** The blob at `loc` is entry `id`'s. */
  ghost predicate BlobAt(data: bytes, loc: (nat, nat), id: u64) {
    && loc.0 + loc.1 <= |data|
    && Parsed(data[loc.0..loc.0 + loc.1]).Some?
    && Parsed(data[loc.0..loc.0 + loc.1]).value.id == id
  }

  /** Ascending ids, and each one's blob where its location says. */
  ghost predicate Located(data: bytes, m: Mirror) {
    && Ascending(m.ids) && |m.locs| == |m.ids|
    && forall i :: 0 <= i < |m.ids| ==> BlobAt(data, m.locs[i], m.ids[i])
  }

  lemma ApplyLocates(data: bytes, at: nat, m: Mirror, crc: Crc)
    requires Located(data, m) && Frame(data, at, crc).Some?
    requires Apply(m, Frame(data, at, crc).value.0, at + 8).Some?
    ensures Located(data, Apply(m, Frame(data, at, crc).value.0, at + 8).value)
  {
    hide FromLE, Parsed, GetTerms, GetVarint;
    var (payload, next) := Frame(data, at, crc).value;
    assert payload == data[at + 8..next];
    match RecordOf(payload).value
    case REntry(terms, blobAt, b) =>
      SubSlice(data, at + 8, next, blobAt, |payload|);
      assert payload[blobAt..|payload|] == payload[blobAt..];
      assert BlobAt(data, (at + 8 + blobAt, |payload| - blobAt), b.id);
    case _ =>
  }

  /** Whatever a log file holds, its mirror is in order. */
  lemma {:induction false} ReplayLocates(data: bytes, at: nat, m: Mirror, crc: Crc)
    requires at <= |data| && Located(data, m)
    ensures Located(data, Replay(data, at, m, crc).0)
    decreases |data| - at
  {
    hide Apply, Frame, Located;
    var f := Frame(data, at, crc);
    if f.Some? {
      FrameStays(data, [], at, crc);
      if Apply(m, f.value.0, at + 8).Some? {
        ApplyLocates(data, at, m, crc);
        ReplayLocates(data, f.value.1, Apply(m, f.value.0, at + 8).value, crc);
      }
    }
  }

  /** Entry `id`'s blob in the log. */
  ghost function LogBlob(m: Mirror, data: bytes, id: u64): Option<bytes> {
    if i :| 0 <= i < |m.ids| && m.ids[i] == id && i < |m.locs| && m.locs[i].0 + m.locs[i].1 <= |data|
    then Some(data[m.locs[i].0..m.locs[i].0 + m.locs[i].1]) else None
  }

  /** `binary_search`. */
  method FindId(ids: seq<u64>, id: u64) returns (r: Option<nat>)
    requires Ascending(ids)
    ensures r.Some? ==> r.value < |ids| && ids[r.value] == id
    ensures r.None? ==> id !in ids
  {
    var k := PartitionPoint(ids, (x: u64) => x < id);
    r := if k < |ids| && ids[k] == id then Some(k) else None;
  }

  // ---- A log cut anywhere ----

  /** The file the records `ps` were appended to. */
  function LogOf(ps: seq<bytes>, crc: Crc): (r: bytes)
    ensures |r| >= HEADER
  {
    if ps == [] then LogHeader() else LogOf(ps[..|ps| - 1], crc) + FrameOf(ps[|ps| - 1], crc)
  }

  /** The records mirrored in turn. */
  function Folded(ps: seq<bytes>, crc: Crc): Option<Mirror> {
    if ps == [] then Some(EMPTY)
    else
      var m :- Folded(ps[..|ps| - 1], crc);
      Apply(m, ps[|ps| - 1], |LogOf(ps[..|ps| - 1], crc)| + 8)
  }

  /** How many records' frames end at `cut` or before. */
  function WholeBefore(ps: seq<bytes>, cut: nat, crc: Crc): (n: nat)
    ensures n <= |ps|
  {
    if ps == [] || |LogOf(ps, crc)| <= cut then |ps| else WholeBefore(ps[..|ps| - 1], cut, crc)
  }

  ghost predicate Written(ps: seq<bytes>, crc: Crc) {
    && Folded(ps, crc).Some?
    && forall i :: 0 <= i < |ps| ==> 0 < |ps[i]| <= MAX_FRAME
  }

  lemma {:induction false} LogMirrors(ps: seq<bytes>, crc: Crc)
    requires Written(ps, crc)
    ensures Mirrors(LogOf(ps, crc), Folded(ps, crc).value, crc)
  {
    hide Apply, Frame, FrameOf;
    if ps == [] {
      NoFrameAtEnd(LogHeader(), crc);
    } else {
      var init := ps[..|ps| - 1];
      LogMirrors(init, crc);
      FrameAppended(LogOf(init, crc), Folded(init, crc).value, ps[|ps| - 1], crc);
    }
  }

  /** A log cut at any offset past its header reopens to exactly the fold of the records
      whose frames are whole, and is cut where they end: what is left is the log those
      records alone make, so what is appended next follows them. */
  lemma {:induction false} CutRecovers(ps: seq<bytes>, cut: nat, crc: Crc)
    requires Written(ps, crc) && HEADER <= cut <= |LogOf(ps, crc)|
    ensures var whole := ps[..WholeBefore(ps, cut, crc)];
            var data := LogOf(ps, crc)[..cut];
            && Written(whole, crc)
            && Replay(data, HEADER, EMPTY, crc) == (Folded(whole, crc).value, |LogOf(whole, crc)|)
            && |LogOf(whole, crc)| <= cut
            && data[..|LogOf(whole, crc)|] == LogOf(whole, crc)
    decreases |ps|
  {
    hide Apply, Frame, FrameOf;
    if ps == [] || |LogOf(ps, crc)| <= cut {
      assert ps[..|ps|] == ps && LogOf(ps, crc)[..cut] == LogOf(ps, crc);
      LogMirrors(ps, crc);
    } else {
      var init := ps[..|ps| - 1];
      var before, f := LogOf(init, crc), FrameOf(ps[|ps| - 1], crc);
      if cut < |before| {
        CutRecovers(init, cut, crc);
        assert LogOf(ps, crc)[..cut] == before[..cut];
        assert ps[..WholeBefore(init, cut, crc)] == init[..WholeBefore(init, cut, crc)];
      } else {
        assert LogOf(ps, crc)[..cut] == before + f[..cut - |before|];
        LogMirrors(init, crc);
        TornIsCut(before, Folded(init, crc).value, ps[|ps| - 1], cut - |before|, crc);
        assert WholeBefore(init, cut, crc) == |init|;
        assert init[..|init|] == init == ps[..|init|];
      }
    }
  }

  // ---- What each append writes ----

  lemma ApplyEvent(m: Mirror, e: Event, at: nat)
    requires e.kind == COPIED || e.kind == PASTED
    ensures Apply(m, EventPayload(e), at) ==
            Some(m.(events := m.events + [e], records := m.records + 1))
    ensures |EventPayload(e)| == 18
  {
    hide RecordOf;
    EventRoundTrip(e);
  }

  lemma ApplyDelete(m: Mirror, id: u64, at: nat)
    ensures Apply(m, DeletePayload(id), at) ==
            Some(m.(tombstones := m.tombstones + {id}, records := m.records + 1))
    ensures |DeletePayload(id)| == 9
  {
    hide RecordOf;
    DeleteRoundTrip(id);
  }

  lemma ApplyEntry(m: Mirror, terms: seq<u64>, blob: bytes, at: nat)
    requires |terms| < TWO_64 && Parsed(blob).Some?
    requires m.ids != [] ==> m.ids[|m.ids| - 1] < Parsed(blob).value.id
    ensures Apply(m, EntryPayload(terms, blob), at) ==
            Some(EntryAdded(m, terms, Parsed(blob).value, at + |EntryPayload(terms, blob)| - |blob|, |blob|))
  {
    hide RecordOf, Parsed, AddAll;
    EntryRoundTrip(terms, blob);
  }

  lemma EntrySize(terms: seq<u64>, blob: bytes, crc: Crc)
    requires |terms| < TWO_64
    ensures |EntryPayload(terms, blob)| <= |blob| + 8 * |terms| + 16
    ensures 0 < |EntryPayload(terms, blob)|
    ensures |FrameOf(EntryPayload(terms, blob), crc)| == |EntryPayload(terms, blob)| + 8
    ensures var f := FrameOf(EntryPayload(terms, blob), crc); |blob| <= |f| && f[|f| - |blob|..] == blob
  {
    VarintLength(|terms|);
    PutTermsLength(terms);
    var head := [R_ENTRY] + Varint(|terms|) + PutTerms(terms);
    var f := FrameOf(EntryPayload(terms, blob), crc);
    assert f == PutU32(|EntryPayload(terms, blob)|) + PutU32(crc(EntryPayload(terms, blob))) + head + blob;
  }

  method PutEntry(terms: seq<u64>, blob: bytes) returns (p: bytes)
    requires |terms| < TWO_64
    ensures p == EntryPayload(terms, blob)
  {
    p := AppendVarint([R_ENTRY], |terms|);
    for i := 0 to |terms|
      invariant p + PutTerms(terms[i..]) == [R_ENTRY] + Varint(|terms|) + PutTerms(terms)
    {
      assert terms[i..][1..] == terms[i + 1..];
      p := p + PutU64(terms[i]);
    }
    assert PutTerms(terms[|terms|..]) == [];
    p := p + blob;
  }

  method AddTerms(postings: map<u64, seq<u64>>, terms: seq<u64>, id: u64) returns (r: map<u64, seq<u64>>)
    ensures r == AddAll(postings, terms, id)
  {
    r := postings;
    for i := 0 to |terms|
      invariant AddAll(r, terms[i..], id) == AddAll(postings, terms, id)
    {
      assert terms[i..][1..] == terms[i + 1..];
      r := AddUnder(r, terms[i], id);
    }
  }

  /** The bytes of log `number`. */
  function DataIn(files: Files, number: nat): bytes {
    if LogName(number) in files && files[LogName(number)].LogFile? then files[LogName(number)].data else []
  }

  // ---- The log, open ----

  class Active {
    const dir: Dir
    const number: nat
    const crc: Crc
    var len: nat
    var ids: seq<u64>
    var locs: seq<(nat, nat)>
    var postings: map<u64, seq<u64>>
    var dedup: map<u64, seq<u64>>
    var events: seq<Event>
    var tombstones: set<u64>
    var records: nat

    function View(): Mirror
      reads this
    {
      Mirror(ids, locs, postings, dedup, events, tombstones, records)
    }

    /** The file's bytes. */
    ghost function Data(): bytes
      reads dir
    {
      DataIn(dir.files, number)
    }

    /** The mirror is always what reading the file again would give. */
    ghost predicate Valid()
      reads this, dir
    {
      && LogName(number) in dir.files && dir.files[LogName(number)].LogFile?
      && len == |Data()|
      && LogHeader() <= Data()
      && Mirrors(Data(), View(), crc)
    }

    /** A log begun: its file with the header alone. */
    constructor Create(dir: Dir, number: nat, crc: Crc)
      requires LogName(number) !in dir.files
      modifies dir
      ensures this.dir == dir && this.number == number && this.crc == crc
      ensures Valid() && View() == EMPTY
      ensures dir.files == old(dir.files)[LogName(number) := LogFile(LogHeader())]
      ensures dir.trace == old(dir.trace) + [old(dir.files)[LogName(number) := Partial], dir.files]
    {
      this.dir, this.number, this.crc := dir, number, crc;
      len, ids, locs, postings, dedup := HEADER, [], [], map[], map[];
      events, tombstones, records := [], {}, 0;
      new;
      dir.Write(LogName(number), LogFile(LogHeader()));
      NoFrameAtEnd(LogHeader(), crc);
    }

    constructor Empty(dir: Dir, number: nat, crc: Crc)
      ensures this.dir == dir && this.number == number && this.crc == crc
      ensures View() == EMPTY && len == HEADER
    {
      this.dir, this.number, this.crc := dir, number, crc;
      len, ids, locs, postings, dedup := HEADER, [], [], map[], map[];
      events, tombstones, records := [], {}, 0;
    }

    /** One record mirrored in memory, or nothing changed if it does not parse. */
    method Mirrored(payload: bytes, at: nat) returns (ok: bool)
      modifies this
      ensures len == old(len)
      ensures ok <==> Apply(old(View()), payload, at).Some?
      ensures ok ==> View() == Apply(old(View()), payload, at).value
      ensures !ok ==> View() == old(View())
    {
      hide RecordOf, AddAll;
      match RecordOf(payload)
      case None => return false;
      case Some(REntry(terms, blobAt, b)) =>
        if (ids != [] && ids[|ids| - 1] >= b.id) || blobAt > |payload| { return false; }
        ids := ids + [b.id];
        locs := locs + [(at + blobAt, |payload| - blobAt)];
        postings := AddTerms(postings, terms, b.id);
        dedup := AddUnder(dedup, b.dedup, b.id);
        events := events + [Event(b.id, b.copiedAt, COPIED)];
        records := records + 1;
        return true;
      case Some(REvent(e)) =>
        events := events + [e];
        records := records + 1;
        return true;
      case Some(RDelete(id)) =>
        tombstones := tombstones + {id};
        records := records + 1;
        return true;
    }

    /** A record's frame written at the end; where its payload is. */
    method Write(payload: bytes, ghost m: Mirror) returns (at: nat)
      requires Valid() && 0 < |payload| <= MAX_FRAME
      requires Apply(View(), payload, len + 8) == Some(m)
      modifies this`len, dir
      ensures dir.files == old(dir.files)[LogName(number) := LogFile(old(Data()) + FrameOf(payload, crc))]
      ensures dir.trace == old(dir.trace) +
                           Writing(old(dir.files), LogName(number), old(Data()), FrameOf(payload, crc))
      ensures at == old(len) + 8 && len == |Data()| && LogHeader() <= Data()
      ensures Mirrors(Data(), m, crc)
    {
      hide Apply, Frame, Writing, Mirrors;
      FrameAppended(Data(), View(), payload, crc);
      var f := PutU32(|payload|) + PutU32(crc(payload)) + payload;
      dir.Append(LogName(number), f);
      at := len + 8;
      len := len + |f|;
    }

    /** What a write of `payload` leaves: the file and the mirror longer by that record, and
        on the way the file with every part of its frame. */
    twostate predicate Logged(payload: bytes)
      reads this, dir
    {
      && dir.files == old(dir.files)[LogName(number) := LogFile(old(Data()) + FrameOf(payload, crc))]
      && dir.trace == old(dir.trace) +
                      Writing(old(dir.files), LogName(number), old(Data()), FrameOf(payload, crc))
      && Apply(old(View()), payload, old(len) + 8) == Some(View())
    }

    /** An entry's record; refused whole when its frame would be longer than a log's may be. */
    method AppendEntry(terms: seq<u64>, blob: bytes) returns (ok: bool)
      requires Valid()
      requires |blob| + 8 * |terms| + 16 <= MAX_FRAME ==>
                 Parsed(blob).Some? && (ids != [] ==> ids[|ids| - 1] < Parsed(blob).value.id)
      modifies this, dir
      ensures Valid()
      ensures ok <==> |blob| + 8 * |terms| + 16 <= MAX_FRAME
      ensures ok ==> Logged(EntryPayload(terms, blob))
      ensures ok ==> View() == EntryAdded(old(View()), terms, Parsed(blob).value, |Data()| - |blob|, |blob|)
      ensures ok ==> Data()[|Data()| - |blob|..] == blob
      ensures !ok ==> View() == old(View()) && dir.files == old(dir.files) && dir.trace == old(dir.trace)
    {
      hide Apply, Frame, Writing, Mirrors, Parsed, EntryPayload, FrameOf;
      if |blob| + |terms| * 8 + 16 > MAX_FRAME { return false; }
      var p := PutEntry(terms, blob);
      ApplyEntry(View(), terms, blob, len + 8);
      EntrySize(terms, blob, crc);
      ghost var m := Apply(View(), p, len + 8).value;
      var at := Write(p, m);
      ok := Mirrored(p, at);
    }

    /** A copy again of an entry, or a paste of it. */
    method AppendEvent(e: Event)
      requires Valid() && (e.kind == COPIED || e.kind == PASTED)
      modifies this, dir
      ensures Valid() && Logged(EventPayload(e))
      ensures View() == old(View()).(events := old(events) + [e], records := old(records) + 1)
    {
      hide Apply, Frame, Writing, Mirrors;
      ApplyEvent(View(), e, len + 8);
      ghost var m := Apply(View(), EventPayload(e), len + 8).value;
      var _ := Write([R_EVENT] + [e.kind] + PutU64(e.id) + PutI64(e.at), m);
      events := events + [e];
      records := records + 1;
    }

    method AppendTombstone(id: u64)
      requires Valid()
      modifies this, dir
      ensures Valid() && Logged(DeletePayload(id))
      ensures View() == old(View()).(tombstones := old(tombstones) + {id}, records := old(records) + 1)
    {
      hide Apply, Frame, Writing, Mirrors;
      ApplyDelete(View(), id, len + 8);
      ghost var m := Apply(View(), DeletePayload(id), len + 8).value;
      var _ := Write([R_DELETE] + PutU64(id), m);
      tombstones := tombstones + {id};
      records := records + 1;
    }

    predicate Contains(id: u64)
      reads this
    {
      id in ids
    }

    lemma InOrder()
      requires Valid()
      ensures Located(Data(), View())
    {
      ReplayLocates(Data(), HEADER, EMPTY, crc);
    }

    /** The bytes at the place the mirror has for the id. */
    method BlobOf(id: u64) returns (r: Option<bytes>)
      requires Valid()
      ensures r == LogBlob(View(), Data(), id)
    {
      hide Mirrors, Parsed;
      InOrder();
      var k := FindId(ids, id);
      if k.None? { return None; }
      var (off, n) := locs[k.value];
      assert BlobAt(Data(), locs[k.value], id);
      r := Some(dir.files[LogName(number)].data[off..off + n]);
    }

    /** The log of a file, its torn tail cut off. */
    static method Open(dir: Dir, number: nat, crc: Crc) returns (a: Active?)
      requires LogName(number) in dir.files
      modifies dir
      ensures a == null <==> !GoodHeader(old(dir.files)[LogName(number)])
      ensures a == null ==> dir.files == old(dir.files) && dir.trace == old(dir.trace)
      ensures a != null ==>
                && fresh(a) && a.dir == dir && a.number == number && a.crc == crc
                && a.Valid()
                && var data := old(dir.files)[LogName(number)].data;
                   var (m, end) := Replay(data, HEADER, EMPTY, crc);
                   && a.View() == m
                   && end <= |data|
                   && dir.files == old(dir.files)[LogName(number) := LogFile(data[..end])]
                   && dir.trace == old(dir.trace) + if end < |data| then [dir.files] else []
    {
      var file := dir.files[LogName(number)];
      if !file.LogFile? { return null; }
      hide Apply, Frame, GetU32;
      var data := file.data;
      if |data| < HEADER { return null; }
      HeaderBytes(data);
      if data[..4] != MAGIC || FromLE(data[4..8]) != VERSION { return null; }
      var log := new Active.Empty(dir, number, crc);
      log.ReadFrames(data);
      ReplayPrefix(data, HEADER, EMPTY, crc);
      if log.len < |data| {
        dir.Truncate(LogName(number), log.len);
      } else {
        assert data[..log.len] == data;
        assert dir.files[LogName(number) := LogFile(data)] == dir.files;
      }
      assert LogHeader() <= data[..log.len];
      return log;
    }

    /** The good frames mirrored in order, up to the first bad one. */
    method ReadFrames(data: bytes)
      requires HEADER <= |data| && View() == EMPTY
      modifies this
      ensures (View(), len) == Replay(data, HEADER, EMPTY, crc)
    {
      hide Apply, Frame;
      var at := HEADER;
      while true
        invariant HEADER <= at <= |data|
        invariant Replay(data, at, View(), crc) == Replay(data, HEADER, EMPTY, crc)
        decreases |data| - at
      {
        var f := Frame(data, at, crc);
        if f.None? { break; }
        var (payload, next) := f.value;
        FrameStays(data, [], at, crc);
        var ok := Mirrored(payload, at + 8);
        if !ok { break; }
        at := next;
      }
      len := at;
    }
  }

  ghost predicate GoodHeader(f: File) {
    f.LogFile? && LogHeader() <= f.data
  }

  lemma HeaderBytes(data: bytes)
    requires HEADER <= |data|
    ensures LogHeader() <= data <==> data[..4] == MAGIC && FromLE(data[4..8]) == VERSION
  {
    hide LE, FromLE;
    U32RoundTrip(VERSION);
    var h := LogHeader();
    assert h[..4] == MAGIC && h[4..8] == PutU32(VERSION);
    if data[..4] == MAGIC && FromLE(data[4..8]) == VERSION {
      U32Unique(data[4..8], VERSION);
      assert h == h[..4] + h[4..8] == data[..4] + data[4..8] == data[..8];
    }
    if h <= data {
      assert data[..8] == h;
      assert data[..4] == data[..8][..4] && data[4..8] == data[..8][4..8];
    }
  }

  /** A file cut where its good frames end mirrors the same. */
  lemma {:induction false} ReplayPrefix(data: bytes, at: nat, m: Mirror, crc: Crc)
    requires at <= |data|
    ensures var (r, end) := Replay(data, at, m, crc);
            at <= end <= |data| && Replay(data[..end], at, m, crc) == (r, end)
    decreases |data| - at
  {
    hide Apply, Frame;
    ReplayEnds(data, at, m, crc);
    var end := Replay(data, at, m, crc).1;
    var f := Frame(data, at, crc);
    if f.Some? && Apply(m, f.value.0, at + 8).Some? {
      FrameStays(data, [], at, crc);
      var more := Apply(m, f.value.0, at + 8).value;
      assert Replay(data, at, m, crc) == Replay(data, f.value.1, more, crc);
      ReplayPrefix(data, f.value.1, more, crc);
      FrameInPrefix(data, at, end, crc);
    } else {
      assert |data[..at]| == at;
      NoFrameAtEnd(data[..at], crc);
    }
  }

  lemma FrameInPrefix(data: bytes, at: nat, end: nat, crc: Crc)
    requires Frame(data, at, crc).Some? && Frame(data, at, crc).value.1 <= end <= |data|
    ensures Frame(data[..end], at, crc) == Frame(data, at, crc)
  {
    hide FromLE;
    var cut := data[..end];
    FrameStays(data, [], at, crc);
    assert cut[at..at + 4] == data[at..at + 4];
    assert cut[at + 4..at + 8] == data[at + 4..at + 8];
    var len := GetU32(data, at).value.0;
    assert cut[at + 8..at + 8 + len] == data[at + 8..at + 8 + len];
  }
}
