/** The manifest (clip/src/lib.rs): the files that make up a history and the numbers to go on from. */
module Manifests {
  import opened Wrappers
  import opened Codec
  import opened Logs

  datatype Manifest = Manifest(nextFile: u64, nextId: u64, keycheck: bytes, active: u64, segments: seq<u64>)

  const MANIFEST_MAGIC: bytes := [67, 87, 67, 77]
  const MANIFEST_VERSION: u32 := 1

  function PutNumbers(ns: seq<u64>): bytes {
    if ns == [] then [] else PutNumbers(ns[..|ns| - 1]) + PutU64(ns[|ns| - 1])
  }

  function Body(m: Manifest): bytes {
    MANIFEST_MAGIC + PutU32(MANIFEST_VERSION) + PutU64(m.nextFile) + PutU64(m.nextId) + PutBytes(m.keycheck)
    + PutU64(m.active) + PutU32(|m.segments|) + PutNumbers(m.segments)
  }

  function EncodedManifest(m: Manifest, crc: Crc): bytes {
    Body(m) + PutU32(crc(Body(m)))
  }

  method Encode(m: Manifest, crc: Crc) returns (v: bytes)
    ensures v == EncodedManifest(m, crc)
  {
    hide LE, Varint;
    v := MANIFEST_MAGIC + PutU32(MANIFEST_VERSION) + PutU64(m.nextFile) + PutU64(m.nextId) + PutBytes(m.keycheck)
    + PutU64(m.active) + PutU32(|m.segments|);
    ghost var head := v;
    for i := 0 to |m.segments|
      invariant v == head + PutNumbers(m.segments[..i])
    {
      assert m.segments[..i + 1][..i] == m.segments[..i];
      v := v + PutU64(m.segments[i]);
    }
    assert m.segments[..|m.segments|] == m.segments;
    v := v + PutU32(crc(v));
  }

  function GetNumbers(b: bytes, at: nat, n: nat): Option<(seq<u64>, nat)>
    decreases n
  {
    if n == 0 then Some(([], at))
    else
      var (x, a1) :- GetU64(b, at);
      var (rest, a2) :- GetNumbers(b, a1, n - 1);
      Some(([x] + rest, a2))
  }

  function BodyDecoded(body: bytes): Option<Manifest> {
    var (magic, a1) :- GetTake(body, 0, 4);
    var (version, a2) :- GetU32(body, a1);
    if magic != MANIFEST_MAGIC || version != MANIFEST_VERSION then None
    else
      var (nextFile, a3) :- GetU64(body, a2);
      var (nextId, a4) :- GetU64(body, a3);
      var (keycheck, a5) :- GetBytes(body, a4);
      var (active, a6) :- GetU64(body, a5);
      var (n, a7) :- GetU32(body, a6);
      var (segments, a8) :- GetNumbers(body, a7, n);
      if a8 >= |body| then Some(Manifest(nextFile, nextId, keycheck, active, segments)) else None
  }

  function Decoded(b: bytes, crc: Crc): Option<Manifest> {
    if |b| < 4 then None
    else
      var body := b[..|b| - 4];
      var (sum, _) :- GetU32(b, |body|);
      if sum != crc(body) then None else BodyDecoded(body)
  }

  method Decode(b: bytes, crc: Crc) returns (r: Option<Manifest>)
    ensures r == Decoded(b, crc)
  {
    hide GetU64, GetBytes, GetNumbers, FromLE;
    if |b| < 4 { return None; }
    var body := b[..|b| - 4];
    Pow256Values();
    if FromLE(b[|body|..|body| + 4]) != crc(body) { return None; }
    r := DecodeBody(body);
  }

  method DecodeBody(body: bytes) returns (r: Option<Manifest>)
    ensures r == BodyDecoded(body)
  {
    hide FromLE, GetBytes, GetNumbers;
    var c := new Reader(body, 0);
    var magic := c.Take(4);
    if magic.None? { return None; }
    var version := c.U32();
    if version.None? || magic.value != MANIFEST_MAGIC || version.value != MANIFEST_VERSION { return None; }
    var nextFile := c.U64();
    if nextFile.None? { return None; }
    var nextId := c.U64();
    if nextId.None? { return None; }
    var keycheck := c.Bytes();
    if keycheck.None? { return None; }
    var active := c.U64();
    if active.None? { return None; }
    var n := c.U32();
    if n.None? { return None; }
    var segments := Numbers(c, n.value);
    if segments.None? { return None; }
    r := if c.at >= |body| then
      Some(Manifest(nextFile.value, nextId.value, keycheck.value, active.value, segments.value)) else None;
  }

  ghost function Prefixed(a: seq<u64>, r: Option<(seq<u64>, nat)>): Option<(seq<u64>, nat)> {
    match r
    case None => None
    case Some((rest, at)) => Some((a + rest, at))
  }

  lemma PrefixedMore(a: seq<u64>, x: u64, r: Option<(seq<u64>, nat)>)
    ensures Prefixed(a, Prefixed([x], r)) == Prefixed(a + [x], r)
  {
    if r.Some? { assert a + ([x] + r.value.0) == a + [x] + r.value.0; }
  }

  method Numbers(c: Reader, n: nat) returns (r: Option<seq<u64>>)
    modifies c
    ensures r.None? <==> GetNumbers(c.b, old(c.at), n).None?
    ensures r.Some? ==> GetNumbers(c.b, old(c.at), n) == Some((r.value, c.at))
  {
    hide FromLE;
    var out: seq<u64> := [];
    ghost var whole := GetNumbers(c.b, c.at, n);
    if whole.Some? { assert [] + whole.value.0 == whole.value.0; }
    for i := 0 to n
      invariant whole == Prefixed(out, GetNumbers(c.b, c.at, n - i))
    {
      ghost var at := c.at;
      var x := c.U64();
      if x.None? { return None; }
      PrefixedMore(out, x.value, GetNumbers(c.b, c.at, n - i - 1));
      assert GetNumbers(c.b, at, n - i) == Prefixed([x.value], GetNumbers(c.b, c.at, n - i - 1));
      out := out + [x.value];
    }
    assert out + [] == out;
    r := Some(out);
  }

  // ---- The round trip ----

  lemma {:induction false} PutNumbersFirst(ns: seq<u64>)
    requires ns != []
    ensures PutNumbers(ns) == PutU64(ns[0]) + PutNumbers(ns[1..])
  {
    hide LE;
    var k := |ns| - 1;
    if k == 0 {
      assert ns[..0] == [] && ns[1..] == [];
    } else {
      PutNumbersFirst(ns[..k]);
      assert ns[..k][1..] == ns[1..][..k - 1];
    }
  }

  lemma {:induction false} NumbersRoundTrip(b: bytes, at: nat, ns: seq<u64>)
    requires at + |PutNumbers(ns)| <= |b| && b[at..at + |PutNumbers(ns)|] == PutNumbers(ns)
    ensures GetNumbers(b, at, |ns|) == Some((ns, at + |PutNumbers(ns)|))
    decreases |ns|
  {
    hide LE, FromLE, PutNumbers;
    if ns != [] {
      var x, rest := PutU64(ns[0]), PutNumbers(ns[1..]);
      PutNumbersFirst(ns);
      ThreeParts(b, at, x, rest, []);
      U64RoundTrip(ns[0]);
      NumbersRoundTrip(b, at + 8, ns[1..]);
      assert ns == [ns[0]] + ns[1..];
    } else {
      assert PutNumbers(ns) == [] by { NoNumbers(); }
    }
  }

  lemma NoNumbers()
    ensures PutNumbers([]) == []
  {
  }

  /** What was written as the manifest is what is read back. */
  lemma ManifestRoundTrip(m: Manifest, crc: Crc)
    requires |m.keycheck| < TWO_64 && |m.segments| < TWO_32
    ensures Decoded(EncodedManifest(m, crc), crc) == Some(m)
  {
    hide LE, FromLE, PutBytes, GetBytes, PutNumbers, GetNumbers, BodyDecoded, Body;
    var body := Body(m);
    var b := EncodedManifest(m, crc);
    assert b[..|b| - 4] == body && b[|body|..|body| + 4] == PutU32(crc(body));
    U32RoundTrip(crc(body));
    BodyRoundTrip(m);
  }

  lemma BodyRoundTrip(m: Manifest)
    requires |m.keycheck| < TWO_64 && |m.segments| < TWO_32
    ensures BodyDecoded(Body(m)) == Some(m)
  {
    hide LE, FromLE, PutBytes, GetBytes, PutNumbers, GetNumbers, Body, BodyDecoded;
    var k, ns := PutBytes(m.keycheck), PutNumbers(m.segments);
    var a5 := 24 + |k|;
    var b := MANIFEST_MAGIC + PutU32(MANIFEST_VERSION) + PutU64(m.nextFile) + PutU64(m.nextId) + k
    + PutU64(m.active) + PutU32(|m.segments|) + ns;
    assert b == Body(m) by { BodyIs(m); }
    BodyParts(b, MANIFEST_MAGIC, PutU32(MANIFEST_VERSION), PutU64(m.nextFile), PutU64(m.nextId), k,
              PutU64(m.active), PutU32(|m.segments|), ns, a5);
    U32RoundTrip(MANIFEST_VERSION);
    U64RoundTrip(m.nextFile);
    U64RoundTrip(m.nextId);
    BytesRoundTrip(b, 24, m.keycheck);
    U64RoundTrip(m.active);
    U32RoundTrip(|m.segments|);
    NumbersRoundTrip(b, a5 + 12, m.segments);
    BodyReads(b, m, a5);
  }

  lemma BodyIs(m: Manifest)
    ensures Body(m) == MANIFEST_MAGIC + PutU32(MANIFEST_VERSION) + PutU64(m.nextFile) + PutU64(m.nextId)
                       + PutBytes(m.keycheck) + PutU64(m.active) + PutU32(|m.segments|) + PutNumbers(m.segments)
  {
  }

  lemma BodyParts(b: bytes, x1: bytes, x2: bytes, x3: bytes, x4: bytes, k: bytes, x6: bytes, x7: bytes, ns: bytes,
                  a5: nat)
    requires b == x1 + x2 + x3 + x4 + k + x6 + x7 + ns
    requires |x1| == |x2| == |x7| == 4 && |x3| == |x4| == |x6| == 8 && a5 == 24 + |k|
    ensures a5 + 12 + |ns| == |b|
    ensures b[0..4] == x1 && b[4..8] == x2 && b[8..16] == x3 && b[16..24] == x4 && b[24..a5] == k
    ensures b[a5..a5 + 8] == x6 && b[a5 + 8..a5 + 12] == x7 && b[a5 + 12..|b|] == ns
  {
  }

  lemma BodyReads(b: bytes, m: Manifest, a5: nat)
    requires 24 <= a5 && a5 + 12 <= |b|
    requires b[0..4] == MANIFEST_MAGIC && FromLE(b[4..8]) == MANIFEST_VERSION
    requires FromLE(b[8..16]) == m.nextFile && FromLE(b[16..24]) == m.nextId
    requires GetBytes(b, 24) == Some((m.keycheck, a5))
    requires FromLE(b[a5..a5 + 8]) == m.active && FromLE(b[a5 + 8..a5 + 12]) == |m.segments|
    requires GetNumbers(b, a5 + 12, |m.segments|) == Some((m.segments, |b|))
    ensures BodyDecoded(b) == Some(m)
  {
    hide FromLE, GetBytes, GetNumbers;
  }
}
