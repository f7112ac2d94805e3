/** The blob of an entry (clip/src/record.rs): its head and its body encrypted, each bound to
    the entry's id, so that neither opens as another's. */
module Records {
  import opened Wrappers
  import opened Codec

  datatype Error =
    | Corrupt
    | Undecryptable(id: u64)
    | TooLarge(size: nat)
    | BadPattern
    | WrongKey

  /** A type and the data it stands for. Strings other than the searched text are their UTF-8
      bytes. */
  datatype Content = Content(mime: bytes, data: bytes)

  /** The keyed functions (clip/src/crypto.rs): the AEAD under a nonce, and the hashes, of
      which nothing is assumed. */
  datatype Keys = Keys(
    seal: (bytes, bytes, bytes) -> bytes,
    open: (bytes, bytes) -> Option<bytes>,
    trigram: string -> u64,
    typeTerm: bytes -> u64,
    dedup: bytes -> u64)

  /** What is sealed opens again under the associated data it was sealed with. */
  ghost predicate Lawful(k: Keys) {
    forall nonce, aad, plain ::
      k.open(aad, k.seal(nonce, aad, plain)) == Some(plain)
      && |k.seal(nonce, aad, plain)| == |plain| + SEAL_OVERHEAD
  }

  /** A nonce of 24 bytes, a tag of 16. */
  const SEAL_OVERHEAD: nat := 40

  /** The two random nonces a record may take. */
  datatype Nonces = Nonces(head: bytes, body: bytes)

  /** The most data a head carries with it. */
  const INLINE: nat := 4096

  const HEAD_PART: byte := 104
  const BODY_PART: byte := 98

  datatype Blob = Blob(id: u64, copiedAt: i64, dedup: u64, head: bytes, body: bytes)

  /** What a head says in the clear. */
  datatype Head = Head(types: seq<(bytes, nat)>, preview: bytes, inline: Option<bytes>)

  /** An entry, opened. */
  datatype Record = Record(id: u64, copiedAt: i64, dedup: u64, contents: seq<Content>, preview: bytes)

  function Aad(part: byte, id: u64): bytes {
    [part] + PutU64(id)
  }

  /** What is sealed for one part of one record is authenticated for no other. */
  lemma AadBinds(part: byte, id: u64, part': byte, id': u64)
    ensures Aad(part, id) == Aad(part', id') <==> part == part' && id == id'
  {
    hide LE, FromLE;
    var a, b := Aad(part, id), Aad(part', id');
    assert a[0] == part && a[1..] == PutU64(id) && b[0] == part' && b[1..] == PutU64(id');
    U64RoundTrip(id);
    U64RoundTrip(id');
  }

  // ---- Sealing ----

  function DataSize(contents: seq<Content>): nat {
    |AllData(contents)|
  }

  function AllData(contents: seq<Content>): bytes {
    if contents == [] then [] else contents[0].data + AllData(contents[1..])
  }

  function TypesOf(contents: seq<Content>): seq<(bytes, nat)> {
    seq(|contents|, i requires 0 <= i < |contents| => (contents[i].mime, |contents[i].data|))
  }

  function PutTypes(types: seq<(bytes, nat)>): bytes {
    if types == [] then [] else PutBytes(types[0].0) + Varint(types[0].1) + PutTypes(types[1..])
  }

  function HeadPlain(contents: seq<Content>, preview: bytes): bytes {
    var inline := DataSize(contents) <= INLINE;
    [if inline then 1 else 0] + Varint(|contents|) + PutTypes(TypesOf(contents))
    + PutBytes(preview) + if inline then AllData(contents) else []
  }

  function PutBlob(b: Blob): bytes {
    PutU64(b.id) + PutI64(b.copiedAt) + PutU64(b.dedup) + PutU32(|b.head|) + b.head
    + PutU64(|b.body|) + b.body
  }

  function SealedBlob(k: Keys, r: Record, nonces: Nonces): Blob {
    Blob(r.id, r.copiedAt, r.dedup,
         k.seal(nonces.head, Aad(HEAD_PART, r.id), HeadPlain(r.contents, r.preview)),
         if DataSize(r.contents) <= INLINE then []
         else k.seal(nonces.body, Aad(BODY_PART, r.id), AllData(r.contents)))
  }

  function Sealed(k: Keys, r: Record, nonces: Nonces): bytes {
    PutBlob(SealedBlob(k, r, nonces))
  }

  lemma {:induction false} PutTypesAppend(a: seq<(bytes, nat)>, t: (bytes, nat))
    ensures PutTypes(a + [t]) == PutTypes(a) + (PutBytes(t.0) + Varint(t.1))
  {
    hide PutBytes, Varint;
    if a == [] {
      assert PutTypes([t][1..]) == [];
    } else {
      PutTypesAppend(a[1..], t);
      assert (a + [t])[1..] == a[1..] + [t];
    }
  }

  lemma {:induction false} AllDataAppend(a: seq<Content>, c: Content)
    ensures AllData(a + [c]) == AllData(a) + c.data
  {
    if a == [] {
      assert AllData([c][1..]) == [];
    } else {
      AllDataAppend(a[1..], c);
      assert (a + [c])[1..] == a[1..] + [c];
    }
  }

  method PutAllData(dst: bytes, contents: seq<Content>) returns (r: bytes)
    ensures r == dst + AllData(contents)
  {
    r := dst;
    for i := 0 to |contents|
      invariant r == dst + AllData(contents[..i])
    {
      AllDataAppend(contents[..i], contents[i]);
      assert contents[..i + 1] == contents[..i] + [contents[i]];
      r := r + contents[i].data;
    }
    assert contents[..|contents|] == contents;
  }

  method PutHeadTypes(start: bytes, contents: seq<Content>) returns (head: bytes)
    requires forall c :: c in contents ==> |c.mime| < TWO_64 && |c.data| < TWO_64
    ensures head == start + PutTypes(TypesOf(contents))
  {
    hide Varint, PutTypes;
    head := start;
    ghost var types := TypesOf(contents);
    NoTypes();
    for i := 0 to |contents|
      invariant head == start + PutTypes(types[..i])
    {
      var c := contents[i];
      assert c in contents;
      PutTypesAppend(types[..i], types[i]);
      assert types[..i + 1] == types[..i] + [types[i]];
      head := AppendVarint(head, |c.mime|);
      head := head + c.mime;
      head := AppendVarint(head, |c.data|);
    }
    assert types[..|contents|] == types;
  }

  lemma NoTypes()
    ensures PutTypes([]) == []
  {
  }

  method PutHead(contents: seq<Content>, preview: bytes, inline: bool) returns (head: bytes)
    requires inline == (DataSize(contents) <= INLINE)
    requires |contents| < TWO_64 && |preview| < TWO_64
    requires forall c :: c in contents ==> |c.mime| < TWO_64 && |c.data| < TWO_64
    ensures head == HeadPlain(contents, preview)
  {
    hide AllData, Varint, PutTypes, TypesOf;
    head := AppendVarint([if inline then 1 else 0], |contents|);
    head := PutHeadTypes(head, contents);
    head := AppendVarint(head, |preview|);
    head := head + preview;
    if inline { head := PutAllData(head, contents); }
  }

  /** An entry's contents and preview sealed into its blob. */
  method Seal(k: Keys, r: Record, nonces: Nonces) returns (out: bytes)
    requires |r.contents| < TWO_64 && |r.preview| < TWO_64
    requires forall c :: c in r.contents ==> |c.mime| < TWO_64 && |c.data| < TWO_64
    ensures out == Sealed(k, r, nonces)
  {
    var total: nat := 0;
    for i := 0 to |r.contents|
      invariant total == DataSize(r.contents[..i])
    {
      AllDataAppend(r.contents[..i], r.contents[i]);
      assert r.contents[..i + 1] == r.contents[..i] + [r.contents[i]];
      total := total + |r.contents[i].data|;
    }
    assert r.contents[..|r.contents|] == r.contents && total == DataSize(r.contents);
    var inline := total <= INLINE;
    var head := PutHead(r.contents, r.preview, inline);
    head := k.seal(nonces.head, Aad(HEAD_PART, r.id), head);
    var body: bytes := [];
    if !inline {
      body := PutAllData([], r.contents);
      assert body == AllData(r.contents);
      body := k.seal(nonces.body, Aad(BODY_PART, r.id), body);
    }
    out := PutU64(r.id) + PutI64(r.copiedAt) + PutU64(r.dedup) + PutU32(|head|) + head
    + PutU64(|body|) + body;
  }

  // ---- Opening ----

  function Parsed(b: bytes): Option<Blob> {
    var (id, a1) :- GetU64(b, 0);
    var (copiedAt, a2) :- GetI64(b, a1);
    var (dedup, a3) :- GetU64(b, a2);
    var (hl, a4) :- GetU32(b, a3);
    var (head, a5) :- GetTake(b, a4, hl);
    var (bl, a6) :- GetU64(b, a5);
    var (body, a7) :- GetTake(b, a6, bl);
    if a7 >= |b| then Some(Blob(id, copiedAt, dedup, head, body)) else None
  }

  method Parse(b: bytes) returns (r: Option<Blob>)
    ensures r == Parsed(b)
  {
    hide FromLE;
    var c := new Reader(b, 0);
    var id := c.U64();
    if id.None? { return None; }
    var copied := c.U64();
    if copied.None? { return None; }
    var dedup := c.U64();
    if dedup.None? { return None; }
    var hl := c.U32();
    if hl.None? { return None; }
    var head := c.Take(hl.value);
    if head.None? { return None; }
    var bl := c.U64();
    if bl.None? { return None; }
    var body := c.Take(bl.value);
    if body.None? { return None; }
    r := if c.at >= |b| then Some(Blob(id.value, Signed(copied.value), dedup.value, head.value, body.value)) else None;
  }

  /** `n` types read at `at`. */
  function GetTypes(b: bytes, at: nat, n: nat): Option<(seq<(bytes, nat)>, nat)>
    decreases n
  {
    if n == 0 then Some(([], at))
    else
      var (mime, a1) :- GetBytes(b, at);
      var (size, a2) :- GetVarint(b, a1);
      var (rest, a3) :- GetTypes(b, a2, n - 1);
      Some(([(mime, size)] + rest, a3))
  }

  function HeadOf(plain: bytes): Option<Head> {
    var (flags, a1) :- GetU8(plain, 0);
    var (n, a2) :- GetVarint(plain, a1);
    var (types, a3) :- GetTypes(plain, a2, n);
    var (preview, a4) :- GetBytes(plain, a3);
    Some(Head(types, preview, if flags % 2 != 0 && a4 <= |plain| then Some(plain[a4..]) else None))
  }

  function HeadOpened(k: Keys, b: Blob): Result<Head, Error> {
    match k.open(Aad(HEAD_PART, b.id), b.head)
    case None => Err(Undecryptable(b.id))
    case Some(plain) =>
      match HeadOf(plain)
      case None => Err(Corrupt)
      case Some(h) => Ok(h)
  }

  method OpenHead(k: Keys, b: Blob) returns (r: Result<Head, Error>)
    ensures r == HeadOpened(k, b)
  {
    hide Digits;
    var plain := k.open(Aad(HEAD_PART, b.id), b.head);
    if plain.None? { return Err(Undecryptable(b.id)); }
    var c := new Reader(plain.value, 0);
    var flags := c.U8();
    if flags.None? { return Err(Corrupt); }
    var n := c.Varint();
    if n.None? { return Err(Corrupt); }
    ghost var start := c.at;
    var types: seq<(bytes, nat)> := [];
    var left: nat := n.value;
    PrependNothing(GetTypes(plain.value, start, left));
    while left > 0
      invariant 0 <= left <= n.value
      invariant GetTypes(plain.value, start, n.value) == Prepend(types, GetTypes(plain.value, c.at, left))
    {
      var mime := c.Bytes();
      if mime.None? { return Err(Corrupt); }
      var size := c.Varint();
      if size.None? { return Err(Corrupt); }
      PrependMore(types, (mime.value, size.value as nat), GetTypes(plain.value, c.at, left - 1));
      types := types + [(mime.value, size.value)];
      left := left - 1;
    }
    assert types + [] == types;
    var preview := c.Bytes();
    if preview.None? { return Err(Corrupt); }
    r := Ok(Head(types, preview.value,
                 if flags.value % 2 != 0 && c.at <= |plain.value| then Some(plain.value[c.at..]) else None));
  }

  ghost function Prepend<T>(a: seq<T>, r: Option<(seq<T>, nat)>): Option<(seq<T>, nat)> {
    match r
    case None => None
    case Some((b, at)) => Some((a + b, at))
  }

  lemma PrependNothing<T>(r: Option<(seq<T>, nat)>)
    ensures Prepend([], r) == r
  {
    if r.Some? { assert [] + r.value.0 == r.value.0; }
  }

  lemma PrependIs<T>(a: seq<T>, r: Option<(seq<T>, nat)>)
    ensures r.None? ==> Prepend(a, r).None?
    ensures r.Some? ==> Prepend(a, r) == Some((a + r.value.0, r.value.1))
    ensures r.Some? && r.value.0 == [] ==> a + r.value.0 == a
  {
  }

  lemma PrependMore<T>(a: seq<T>, x: T, r: Option<(seq<T>, nat)>)
    ensures Prepend(a, Prepend([x], r)) == Prepend(a + [x], r)
  {
    if r.Some? { assert a + ([x] + r.value.0) == a + [x] + r.value.0; }
  }

  /** `all` cut into the types' contents, in order. */
  function Cut(all: bytes, at: nat, types: seq<(bytes, nat)>): Option<(seq<Content>, nat)>
    decreases types
  {
    if types == [] then Some(([], at))
    else
      var upto := at + types[0].1;
      if upto > |all| then None
      else
        var (rest, end) :- Cut(all, upto, types[1..]);
        Some(([Content(types[0].0, all[at..upto])] + rest, end))
  }

  function ContentsOpened(k: Keys, b: Blob, h: Head): Result<seq<Content>, Error> {
    match if h.inline.Some? then h.inline else k.open(Aad(BODY_PART, b.id), b.body)
    case None => Err(Undecryptable(b.id))
    case Some(all) =>
      match Cut(all, 0, h.types)
      case None => Err(Corrupt)
      case Some((contents, _)) => Ok(contents)
  }

  method CutUp(all: bytes, types: seq<(bytes, nat)>) returns (r: Option<seq<Content>>)
    ensures r == match Cut(all, 0, types) case None => None case Some((contents, _)) => Some(contents)
  {
    hide Cut, Prepend;
    var out: seq<Content> := [];
    var at: nat := 0;
    PrependNothing(Cut(all, 0, types));
    assert types[0..] == types;
    for i := 0 to |types|
      invariant at <= |all|
      invariant Cut(all, 0, types) == Prepend(out, Cut(all, at, types[i..]))
    {
      CutOne(all, at, types, i);
      var (mime, size) := types[i];
      PrependIs(out, Cut(all, at, types[i..]));
      if at + size > |all| { return None; }
      PrependMore(out, Content(mime, all[at..at + size]), Cut(all, at + size, types[i + 1..]));
      out := out + [Content(mime, all[at..at + size])];
      at := at + size;
    }
    CutNothing(all, at);
    assert types[|types|..] == [];
    PrependIs(out, Cut(all, at, types[|types|..]));
    r := Some(out);
  }

  method OpenContents(k: Keys, b: Blob, h: Head) returns (r: Result<seq<Content>, Error>)
    ensures r == ContentsOpened(k, b, h)
  {
    var all: bytes;
    match h.inline {
      case Some(inline) => all := inline;
      case None =>
        var body := k.open(Aad(BODY_PART, b.id), b.body);
        if body.None? { return Err(Undecryptable(b.id)); }
        all := body.value;
    }
    hide Cut;
    var out := CutUp(all, h.types);
    r := match out case None => Err(Corrupt) case Some(contents) => Ok(contents);
  }

  lemma CutNothing(all: bytes, at: nat)
    ensures Cut(all, at, []) == Some(([], at))
  {
  }

  lemma CutOne(all: bytes, at: nat, types: seq<(bytes, nat)>, i: nat)
    requires i < |types| && at <= |all|
    ensures Cut(all, at, types[i..]) ==
            if at + types[i].1 > |all| then None
            else Prepend([Content(types[i].0, all[at..at + types[i].1])], Cut(all, at + types[i].1, types[i + 1..]))
  {
    assert types[i..][0] == types[i] && types[i..][1..] == types[i + 1..];
  }

  /** The entry a blob holds. */
  function Opened(k: Keys, b: bytes): Option<Record> {
    var blob :- Parsed(b);
    match HeadOpened(k, blob)
    case Err(_) => None
    case Ok(head) =>
      match ContentsOpened(k, blob, head)
      case Err(_) => None
      case Ok(contents) => Some(Record(blob.id, blob.copiedAt, blob.dedup, contents, head.preview))
  }

  /** A blob parsed, its head and its contents opened: the entry, or what failed. */
  method OpenRecord(k: Keys, b: bytes) returns (r: Result<Record, Error>)
    ensures r.Ok? <==> Opened(k, b).Some?
    ensures r.Ok? ==> r.value == Opened(k, b).value
  {
    hide HeadOpened, ContentsOpened, Parsed;
    var blob := Parse(b);
    if blob.None? { return Err(Corrupt); }
    var head := OpenHead(k, blob.value);
    if head.Err? { return Err(head.error); }
    var contents := OpenContents(k, blob.value, head.value);
    if contents.Err? { return Err(contents.error); }
    r := Ok(Record(blob.value.id, blob.value.copiedAt, blob.value.dedup, contents.value, head.value.preview));
  }

  /** The entry of a blob, if there is one. */
  method OpenIfAny(k: Keys, b: Option<bytes>) returns (r: Result<Option<Record>, Error>)
    ensures b.None? ==> r == Ok(None)
    ensures b.Some? ==> if Opened(k, b.value).Some? then r == Ok(Opened(k, b.value)) else r.Err?
  {
    hide Opened;
    if b.None? { return Ok(None); }
    var record := OpenRecord(k, b.value);
    r := match record case Ok(x) => Ok(Some(x)) case Err(e) => Err(e);
  }

  // ---- The round trip ----

  lemma {:induction false} TypesRoundTrip(b: bytes, at: nat, types: seq<(bytes, nat)>)
    requires IsAt(b, at, PutTypes(types))
    requires forall t :: t in types ==> |t.0| < TWO_64 && t.1 < TWO_64
    ensures GetTypes(b, at, |types|) == Some((types, at + |PutTypes(types)|))
    decreases types
  {
    hide *;
    if types == [] {
      NoTypes();
      NoTypesRead(b, at);
    } else {
      var t, rest := types[0], types[1..];
      var mid := at + |PutBytes(t.0)|;
      var next := mid + |Varint(t.1)|;
      assert t in types;
      PutTypesOne(types);
      TypeRead(b, at, t, PutTypes(rest));
      TypesRoundTrip(b, next, rest);
      OneType(b, at, mid, next, t, rest, next + |PutTypes(rest)|);
      assert types == [t] + rest;
    }
  }

  lemma PutTypesOne(types: seq<(bytes, nat)>)
    requires types != []
    ensures PutTypes(types) == PutBytes(types[0].0) + Varint(types[0].1) + PutTypes(types[1..])
  {
  }

  lemma NoTypesRead(b: bytes, at: nat)
    ensures GetTypes(b, at, 0) == Some(([], at))
  {
  }

  lemma TypeRead(b: bytes, at: nat, t: (bytes, nat), rest: bytes)
    requires |t.0| < TWO_64 && t.1 < TWO_64 && IsAt(b, at, PutBytes(t.0) + Varint(t.1) + rest)
    ensures var mid := at + |PutBytes(t.0)|;
            var next := mid + |Varint(t.1)|;
            GetBytes(b, at) == Some((t.0, mid)) && GetVarint(b, mid) == Some((t.1, next)) && IsAt(b, next, rest)
  {
    hide PutBytes, GetBytes, GetVarint, Varint;
    ThreeParts(b, at, PutBytes(t.0), Varint(t.1), rest);
    BytesRoundTrip(b, at, t.0);
    VarintRoundTrip(b, at + |PutBytes(t.0)|, t.1);
  }

  lemma OneType(b: bytes, at: nat, mid: nat, next: nat, t: (bytes, nat), rest: seq<(bytes, nat)>, end: nat)
    requires GetBytes(b, at) == Some((t.0, mid)) && GetVarint(b, mid) == Some((t.1, next))
    requires GetTypes(b, next, |rest|) == Some((rest, end))
    ensures GetTypes(b, at, |rest| + 1) == Some(([t] + rest, end))
  {
    hide GetBytes, GetVarint;
  }

  lemma HeadRoundTrip(contents: seq<Content>, preview: bytes)
    requires |contents| < TWO_64 && |preview| < TWO_64
    requires forall c :: c in contents ==> |c.mime| < TWO_64 && |c.data| < TWO_64
    ensures var inline := DataSize(contents) <= INLINE;
            HeadOf(HeadPlain(contents, preview)) ==
            Some(Head(TypesOf(contents), preview, if inline then Some(AllData(contents)) else None))
  {
    hide AllData, HeadOf, TypesOf;
    TypesBounded(contents);
    var inline := DataSize(contents) <= INLINE;
    HeadReads(HeadPlain(contents, preview), if inline then 1 else 0, TypesOf(contents), preview,
              if inline then AllData(contents) else []);
  }

  lemma HeadReads(plain: bytes, flag: byte, types: seq<(bytes, nat)>, preview: bytes, d: bytes)
    requires |types| < TWO_64 && |preview| < TWO_64
    requires forall t :: t in types ==> |t.0| < TWO_64 && t.1 < TWO_64
    requires plain == [flag] + Varint(|types|) + PutTypes(types) + PutBytes(preview) + d
    ensures ReadsAs(plain, Head(types, preview, if flag % 2 != 0 then Some(d) else None))
  {
    hide *;
    var v, t, p := Varint(|types|), PutTypes(types), PutBytes(preview);
    var a2, a3, a4 := 1 + |v|, 1 + |v| + |t|, 1 + |v| + |t| + |p|;
    HeadParts(plain, flag, v, t, p, d, a2, a3, a4);
    HeadSteps(plain, flag, types, preview, d, a2, a3, a4);
    HeadFrom(plain, flag, types, preview, d, a2, a3, a4);
  }

  ghost predicate PartsAt(plain: bytes, flag: byte, v: bytes, t: bytes, p: bytes, d: bytes, a2: nat, a3: nat, a4: nat) {
    && a2 == 1 + |v| && a3 == a2 + |t| && a4 == a3 + |p| && a4 <= |plain|
    && plain[0] == flag && plain[1..a2] == v && plain[a2..a3] == t && plain[a3..a4] == p && plain[a4..] == d
  }

  lemma HeadSteps(plain: bytes, flag: byte, types: seq<(bytes, nat)>, preview: bytes, d: bytes,
                  a2: nat, a3: nat, a4: nat)
    requires |types| < TWO_64 && |preview| < TWO_64
    requires forall t :: t in types ==> |t.0| < TWO_64 && t.1 < TWO_64
    requires PartsAt(plain, flag, Varint(|types|), PutTypes(types), PutBytes(preview), d, a2, a3, a4)
    ensures GetVarint(plain, 1) == Some((|types|, a2))
    ensures GetTypes(plain, a2, |types|) == Some((types, a3))
    ensures GetBytes(plain, a3) == Some((preview, a4))
    ensures 0 < |plain| && plain[0] == flag && a4 <= |plain| && plain[a4..] == d
  {
    hide Varint, PutTypes, PutBytes, GetVarint, GetTypes, GetBytes;
    VarintRoundTrip(plain, 1, |types|);
    TypesRoundTrip(plain, a2, types);
    BytesRoundTrip(plain, a3, preview);
  }

  ghost predicate ReadsAs(plain: bytes, h: Head) {
    HeadOf(plain) == Some(h)
  }

  lemma HeadFrom(plain: bytes, flag: byte, types: seq<(bytes, nat)>, preview: bytes, d: bytes,
                 a2: nat, a3: nat, a4: nat)
    requires |plain| > 0 && plain[0] == flag && GetVarint(plain, 1) == Some((|types|, a2))
    requires GetTypes(plain, a2, |types|) == Some((types, a3))
    requires GetBytes(plain, a3) == Some((preview, a4)) && a4 <= |plain| && plain[a4..] == d
    ensures ReadsAs(plain, Head(types, preview, if flag % 2 != 0 then Some(d) else None))
  {
    hide GetVarint, GetTypes, GetBytes;
  }

  lemma TypesBounded(contents: seq<Content>)
    requires forall c :: c in contents ==> |c.mime| < TWO_64 && |c.data| < TWO_64
    ensures |TypesOf(contents)| == |contents|
    ensures forall t :: t in TypesOf(contents) ==> |t.0| < TWO_64 && t.1 < TWO_64
  {
    forall x | x in TypesOf(contents) ensures |x.0| < TWO_64 && x.1 < TWO_64 {
      var i :| 0 <= i < |contents| && x == TypesOf(contents)[i];
      assert contents[i] in contents;
    }
  }

  lemma HeadParts(plain: bytes, flag: byte, v: bytes, t: bytes, p: bytes, d: bytes, a2: nat, a3: nat, a4: nat)
    requires plain == [flag] + v + t + p + d
    requires a2 == 1 + |v| && a3 == a2 + |t| && a4 == a3 + |p|
    ensures PartsAt(plain, flag, v, t, p, d, a2, a3, a4)
  {
  }

  lemma {:induction false} CutAllData(all: bytes, at: nat, contents: seq<Content>)
    requires at + |AllData(contents)| == |all| && all[at..] == AllData(contents)
    requires forall c :: c in contents ==> |c.data| < TWO_64
    ensures Cut(all, at, TypesOf(contents)) == Some((contents, |all|))
    decreases contents
  {
    hide TypesOf;
    TypesOfSplit(contents);
    if contents != [] {
      var d := contents[0].data;
      assert contents[0] in contents;
      TailSlices(all, at, d, AllData(contents[1..]));
      CutAllData(all, at + |d|, contents[1..]);
      assert contents == [contents[0]] + contents[1..];
    }
  }

  lemma TailSlices(all: bytes, at: nat, d: bytes, rest: bytes)
    requires at <= |all| && all[at..] == d + rest
    ensures at + |d| <= |all| && all[at..at + |d|] == d && all[at + |d|..] == rest
  {
    assert all[at..at + |d|] == all[at..][..|d|];
    assert all[at + |d|..] == all[at..][|d|..];
  }

  lemma TypesOfSplit(contents: seq<Content>)
    ensures contents == [] ==> TypesOf(contents) == []
    ensures contents != [] ==>
              && TypesOf(contents) != []
              && TypesOf(contents)[0] == (contents[0].mime, |contents[0].data|)
              && TypesOf(contents)[1..] == TypesOf(contents[1..])
  {
  }

  lemma BlobRoundTrip(b: Blob)
    requires |b.head| < TWO_32 && |b.body| < TWO_64
    ensures Parsed(PutBlob(b)) == Some(b)
  {
    hide PutU32, PutU64, PutI64, FromLE;
    var s := PutBlob(b);
    var x1, x2, x3, x4 := PutU64(b.id), PutI64(b.copiedAt), PutU64(b.dedup), PutU32(|b.head|);
    var x6 := PutU64(|b.body|);
    BlobParts(s, x1, x2, x3, x4, b.head, x6, b.body);
    U64RoundTrip(b.id);
    I64RoundTrip(b.copiedAt);
    U64RoundTrip(b.dedup);
    U32RoundTrip(|b.head|);
    U64RoundTrip(|b.body|);
  }

  lemma BlobParts(s: bytes, x1: bytes, x2: bytes, x3: bytes, x4: bytes, h: bytes, x6: bytes, t: bytes)
    requires s == x1 + x2 + x3 + x4 + h + x6 + t
    requires |x1| == |x2| == |x3| == |x6| == 8 && |x4| == 4
    ensures s[0..8] == x1 && s[8..16] == x2 && s[16..24] == x3 && s[24..28] == x4
    ensures s[28..28 + |h|] == h && s[28 + |h|..36 + |h|] == x6
    ensures s[36 + |h|..36 + |h| + |t|] == t && |s| == 36 + |h| + |t|
  {
    var rest := h + x6 + t;
    assert s == x1 + x2 + x3 + x4 + rest;
    assert s[28..] == rest;
    assert rest[..|h|] == h && rest[|h|..|h| + 8] == x6 && rest[|h| + 8..] == t;
  }

  /** What a blob of a size the log takes was sealed from is what it opens to: the id, the
      time, the hash, the preview, and every type with its contents, inline or not. */
  lemma SealOpens(k: Keys, r: Record, nonces: Nonces)
    requires Lawful(k)
    requires |Sealed(k, r, nonces)| < TWO_32
    ensures Opened(k, Sealed(k, r, nonces)) == Some(r)
    ensures Parsed(Sealed(k, r, nonces)) == Some(SealedBlob(k, r, nonces))
  {
    hide AllData, HeadPlain, HeadOf, Cut, TypesOf, LE, FromLE;
    var b := SealedBlob(k, r, nonces);
    BlobRoundTrip(b);
    SmallParts(k, r, nonces);
    HeadRoundTrip(r.contents, r.preview);
    var all := AllData(r.contents);
    assert all[0..] == all;
    CutAllData(all, 0, r.contents);
  }

  lemma SmallParts(k: Keys, r: Record, nonces: Nonces)
    requires Lawful(k) && |Sealed(k, r, nonces)| < TWO_32
    ensures |r.contents| < TWO_32 && |r.preview| < TWO_32
    ensures forall c :: c in r.contents ==> |c.mime| < TWO_32 && |c.data| < TWO_32
  {
    hide LE;
    var plain := HeadPlain(r.contents, r.preview);
    assert |plain| < TWO_32 by { hide HeadPlain, AllData; }
    assert DataSize(r.contents) < TWO_32 by { hide HeadPlain, AllData; }
    TypesLength(TypesOf(r.contents));
    DataLength(r.contents);
    forall c | c in r.contents ensures |c.mime| < TWO_32 && |c.data| < TWO_32 {
      var i :| 0 <= i < |r.contents| && r.contents[i] == c;
      assert TypesOf(r.contents)[i] in TypesOf(r.contents);
    }
  }

  lemma {:induction false} TypesLength(types: seq<(bytes, nat)>)
    ensures |types| <= |PutTypes(types)|
    ensures forall t :: t in types ==> |t.0| <= |PutTypes(types)|
  {
    hide Varint;
    if types != [] {
      TypesLength(types[1..]);
      assert forall t :: t in types ==> t == types[0] || t in types[1..];
    }
  }

  lemma {:induction false} DataLength(contents: seq<Content>)
    ensures forall c :: c in contents ==> |c.data| <= |AllData(contents)|
  {
    if contents != [] { DataLength(contents[1..]); }
  }
}
