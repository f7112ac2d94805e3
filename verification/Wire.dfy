/** The frames of the private clipboard protocol: requests as the client writes them
    (shared/clipboard_client.rs) and the server reads them (clip/src/broker_transport.rs),
    answers as the server writes them and the client reads them. */
module Wire {
  import opened Wrappers
  import opened Codec
  import opened Brokers

  /** The character tables: what is UTF-8, what is a control character. */
  datatype Chars = Chars(utf8: bytes -> bool, control: Control)

  datatype Request =
    | AskTypes
    | SetTo(parts: seq<(bytes, bytes)>)
    | ReadAt(revision: u64, mime: bytes)
    | ClearIt
    | Capabilities

  datatype Reply =
    | TypesAre(offer: Option<(u64, seq<bytes>)>)
    | SetAs(revision: u64)
    | Data(data: bytes)
    | Cleared
    | Able(level: byte)
    | Rejected(code: byte)

  const OP_TYPES: byte := 1
  const OP_SET: byte := 2
  const OP_READ: byte := 3
  const OP_CLEAR: byte := 4
  const OP_ABLE: byte := 9

  const CONTENT: nat := 0x400_0000
  const FRAME: nat := 0x400_8000
  const ABLE: byte := 3

  function Opcode(r: Request): byte {
    match r
    case AskTypes => OP_TYPES
    case SetTo(_) => OP_SET
    case ReadAt(_, _) => OP_READ
    case ClearIt => OP_CLEAR
    case Capabilities => OP_ABLE
  }

  function SelectionByte(s: Selection): byte {
    match s case Clipboard => 0 case Primary => 1
  }

  const U16_BYTES: nat := 2
  const TWO_16: int := 0x1_0000

  function PutU16(x: nat): (r: bytes)
    ensures |r| == 2
  {
    LE(x, U16_BYTES)
  }

  function GetU16(b: bytes, at: nat): Option<(nat, nat)> {
    if at + 2 <= |b| then Some((FromLE(b[at..at + 2]), at + 2)) else None
  }

  lemma U16RoundTrip(x: nat)
    requires x < TWO_16
    ensures FromLE(PutU16(x)) == x
  {
    Pow256Values();
    LERoundTrip(x, U16_BYTES);
  }

  // ---- Requests ----

  function PutMime(m: bytes): bytes {
    PutU16(|m|) + m
  }

  function PutParts(parts: seq<(bytes, bytes)>): bytes {
    if parts == [] then []
    else PutMime(parts[0].0) + PutU32(|parts[0].1|) + parts[0].1 + PutParts(parts[1..])
  }

  /** The body the client writes. */
  function RequestBody(s: Selection, r: Request): bytes {
    [Opcode(r), SelectionByte(s)]
    + match r
      case SetTo(parts) => PutU16(|parts|) + PutParts(parts)
      case ReadAt(revision, mime) => PutU64(revision) + PutMime(mime)
      case _ => []
  }

  function DataTotal(parts: seq<(bytes, bytes)>): nat {
    if parts == [] then 0 else DataTotal(parts[..|parts| - 1]) + |parts[|parts| - 1].1|
  }

  /** What the client sends. */
  ghost predicate Sendable(chars: Chars, s: Selection, r: Request) {
    && |RequestBody(s, r)| <= FRAME
    && match r
       case SetTo(parts) =>
         && 1 <= |parts| <= MAX_TYPES && DataTotal(parts) <= CONTENT
         && (forall k :: 0 <= k < |parts| ==> ValidMime(parts[k].0, chars.control) && chars.utf8(parts[k].0))
         && (forall j, k :: 0 <= j < k < |parts| ==> parts[j].0 != parts[k].0)
       case ReadAt(revision, mime) => revision != 0 && ValidMime(mime, chars.control) && chars.utf8(mime)
       case _ => true
  }

  // ---- The server's reading ----

  function GetMime(chars: Chars, b: bytes, at: nat): Option<(bytes, nat)> {
    var (n, a1) :- GetU16(b, at);
    if n < 1 || n > MAX_MIME then None
    else
      var (m, a2) :- GetTake(b, a1, n);
      if chars.utf8(m) then Some((m, a2)) else None
  }

  function GetParts(chars: Chars, b: bytes, at: nat, n: nat): Option<(seq<(bytes, bytes)>, nat)>
    decreases n
  {
    if n == 0 then Some(([], at))
    else
      var (mime, a1) :- GetMime(chars, b, at);
      var (len, a2) :- GetU32(b, a1);
      var (data, a3) :- GetTake(b, a2, len);
      var (rest, a4) :- GetParts(chars, b, a3, n - 1);
      Some(([(mime, data)] + rest, a4))
  }

  /** What the server takes a body to ask; None is a malformed one. */
  function Asked(chars: Chars, b: bytes): Option<(Selection, Request)> {
    var (op, a1) :- GetU8(b, 0);
    var (sel, a2) :- GetU8(b, a1);
    if sel > 1 then None
    else
      var s := if sel == 0 then Clipboard else Primary;
      if op == OP_TYPES then (if |b| == a2 then Some((s, AskTypes)) else None)
      else if op == OP_SET then
        var (n, a3) :- GetU16(b, a2);
        if n < 1 || n > MAX_TYPES then None
        else
          var (parts, a4) :- GetParts(chars, b, a3, n);
          if |b| == a4 then Some((s, SetTo(parts))) else None
      else if op == OP_READ then
        var (revision, a3) :- GetU64(b, a2);
        var (mime, a4) :- GetMime(chars, b, a3);
        if |b| == a4 then Some((s, ReadAt(revision, mime))) else None
      else if op == OP_CLEAR then (if |b| == a2 then Some((s, ClearIt)) else None)
      else if op == OP_ABLE then (if |b| == a2 then Some((s, Capabilities)) else None)
      else None
  }

  lemma MimeRoundTrip(chars: Chars, b: bytes, at: nat, m: bytes)
    requires 1 <= |m| <= MAX_MIME && chars.utf8(m)
    requires at + |PutMime(m)| <= |b| && b[at..at + |PutMime(m)|] == PutMime(m)
    ensures GetMime(chars, b, at) == Some((m, at + |PutMime(m)|))
  {
    hide LE, FromLE;
    ThreeParts(b, at, PutU16(|m|), m, []);
    U16RoundTrip(|m|);
  }

  lemma {:induction false} PartsRoundTrip(chars: Chars, b: bytes, at: nat, parts: seq<(bytes, bytes)>)
    requires forall k :: 0 <= k < |parts| ==>
             1 <= |parts[k].0| <= MAX_MIME && chars.utf8(parts[k].0) && |parts[k].1| < TWO_32
    requires at + |PutParts(parts)| <= |b| && b[at..at + |PutParts(parts)|] == PutParts(parts)
    ensures GetParts(chars, b, at, |parts|) == Some((parts, at + |PutParts(parts)|))
    decreases |parts|
  {
    hide LE, FromLE, PutMime, GetMime, PutParts;
    if parts == [] {
      assert PutParts(parts) == [] by { NoParts(); }
    } else {
      var m, d, rest := PutMime(parts[0].0), parts[0].1, PutParts(parts[1..]);
      FirstPart(parts);
      var n := PutU32(|d|);
      FourPieces(b, at, m, n, d, rest);
      MimeRoundTrip(chars, b, at, parts[0].0);
      U32RoundTrip(|d|);
      PartsRoundTrip(chars, b, at + |m| + 4 + |d|, parts[1..]);
      assert parts == [parts[0]] + parts[1..] && parts[0] == (parts[0].0, d);
    }
  }

  lemma NoParts()
    ensures PutParts([]) == []
  {
  }

  lemma FirstPart(parts: seq<(bytes, bytes)>)
    requires parts != []
    ensures PutParts(parts) == PutMime(parts[0].0) + PutU32(|parts[0].1|) + parts[0].1 + PutParts(parts[1..])
  {
  }

  lemma FourPieces(b: bytes, at: nat, x: bytes, y: bytes, z: bytes, w: bytes)
    requires at + |x + y + z + w| <= |b| && b[at..at + |x + y + z + w|] == x + y + z + w
    ensures b[at..at + |x|] == x
    ensures b[at + |x|..at + |x| + |y|] == y
    ensures b[at + |x| + |y|..at + |x| + |y| + |z|] == z
    ensures b[at + |x| + |y| + |z|..at + |x| + |y| + |z| + |w|] == w
  {
    assert x + y + z + w == x + y + (z + w);
    ThreeParts(b, at, x, y, z + w);
    ThreeParts(b, at + |x| + |y|, z, w, []);
    assert z + w + [] == z + w;
  }

  /** What the client writes the server reads as the same request. */
  lemma RequestRoundTrip(chars: Chars, s: Selection, r: Request)
    requires Sendable(chars, s, r)
    ensures Asked(chars, RequestBody(s, r)) == Some((s, r))
  {
    hide GetMime, GetParts, PutMime, PutParts, LE, FromLE, ValidMime;
    var b := RequestBody(s, r);
    assert b[0] == Opcode(r) && b[1] == SelectionByte(s);
    match r
    case SetTo(parts) => SetRoundTrip(chars, b, [b[0], b[1]], parts);
    case ReadAt(revision, mime) => ReadRoundTrip(chars, b, [b[0], b[1]], revision, mime);
    case _ =>
  }

  lemma SetRoundTrip(chars: Chars, b: bytes, head: bytes, parts: seq<(bytes, bytes)>)
    requires |head| == 2 && b == head + (PutU16(|parts|) + PutParts(parts)) && |b| <= FRAME
    requires 1 <= |parts| <= MAX_TYPES
    requires forall k :: 0 <= k < |parts| ==> ValidMime(parts[k].0, chars.control) && chars.utf8(parts[k].0)
    ensures GetU16(b, 2) == Some((|parts|, 4)) && GetParts(chars, b, 4, |parts|) == Some((parts, |b|))
  {
    hide GetMime, GetParts, PutMime, PutParts, LE, FromLE;
    var n, p := PutU16(|parts|), PutParts(parts);
    assert b[0..|b|] == b && b == head + n + p;
    ThreeParts(b, 0, head, n, p);
    U16RoundTrip(|parts|);
    forall k | 0 <= k < |parts| ensures |parts[k].1| < TWO_32 { PartLength(parts, k); }
    PartsRoundTrip(chars, b, 4, parts);
  }

  lemma {:induction false} PartLength(parts: seq<(bytes, bytes)>, k: nat)
    requires k < |parts|
    ensures |parts[k].1| <= |PutParts(parts)|
  {
    hide LE;
    if k > 0 { PartLength(parts[1..], k - 1); }
  }

  lemma ReadRoundTrip(chars: Chars, b: bytes, head: bytes, revision: u64, mime: bytes)
    requires |head| == 2 && b == head + (PutU64(revision) + PutMime(mime))
    requires ValidMime(mime, chars.control) && chars.utf8(mime)
    ensures GetU64(b, 2) == Some((revision, 10)) && GetMime(chars, b, 10) == Some((mime, |b|))
  {
    hide GetMime, PutMime, LE, FromLE;
    var n, p := PutU64(revision), PutMime(mime);
    assert b[0..|b|] == b && b == head + n + p;
    ThreeParts(b, 0, head, n, p);
    U64RoundTrip(revision);
    MimeRoundTrip(chars, b, 10, mime);
  }

  // ---- Answers ----

  function PutMimes(ms: seq<bytes>): bytes {
    if ms == [] then [] else PutMime(ms[0]) + PutMimes(ms[1..])
  }

  function ErrorCode(e: Brokers.Error): byte {
    match e
    case UnknownInstance => 1
    case StaleOffer => 2
    case InvalidTypes => 3
    case Limit => 4
    case Exhausted => 5
  }

  function ErrorBody(e: Brokers.Error): bytes {
    [1, ErrorCode(e)]
  }

  /** The answers of calls that went well. */
  function TypesBody(offer: Option<(u64, seq<bytes>)>): bytes {
    match offer
    case None => [0, 0]
    case Some((revision, mimes)) => [0, 1] + PutU64(revision) + PutU16(|mimes|) + PutMimes(mimes)
  }

  function SetBody(revision: u64): bytes {
    [0] + PutU64(revision)
  }

  function DataBody(data: bytes): bytes {
    [0] + PutU32(|data|) + data
  }

  const CLEAR_BODY: bytes := [0]
  const ABLE_BODY: bytes := [0, ABLE]

  // ---- The client's reading ----

  function GetRevision(b: bytes, at: nat): Option<(u64, nat)> {
    var (n, a1) :- GetU64(b, at);
    if n == 0 then None else Some((n, a1))
  }

  /** `n` types, none of which is among those before it. */
  function GetMimes(chars: Chars, b: bytes, at: nat, n: nat, before: seq<bytes>): Option<(seq<bytes>, nat)>
    decreases n
  {
    if n == 0 then Some((before, at))
    else
      var (len, a1) :- GetU16(b, at);
      if len > MAX_MIME then None
      else
        var (m, a2) :- GetTake(b, a1, len);
        if !chars.utf8(m) || !ValidMime(m, chars.control) || m in before then None
        else GetMimes(chars, b, a2, n - 1, before + [m])
  }

  function GetReply(chars: Chars, op: byte, b: bytes): Option<(Reply, nat)> {
    var (status, a1) :- GetU8(b, 0);
    if status == 1 then
      var (code, a2) :- GetU8(b, a1);
      if 1 <= code <= 5 then Some((Rejected(code), a2)) else None
    else if status != 0 then None
    else if op == OP_TYPES then
      var (present, a2) :- GetU8(b, a1);
      if present == 0 then Some((TypesAre(None), a2))
      else if present != 1 then None
      else
        var (revision, a3) :- GetRevision(b, a2);
        var (n, a4) :- GetU16(b, a3);
        if n < 1 || n > MAX_TYPES then None
        else
          var (mimes, a5) :- GetMimes(chars, b, a4, n, []);
          Some((TypesAre(Some((revision, mimes))), a5))
    else if op == OP_SET then
      var (revision, a2) :- GetRevision(b, a1);
      Some((SetAs(revision), a2))
    else if op == OP_ABLE then
      var (level, a2) :- GetU8(b, a1);
      Some((Able(level), a2))
    else if op == OP_READ then
      var (n, a2) :- GetU32(b, a1);
      if n > CONTENT then None
      else
        var (data, a3) :- GetTake(b, a2, n);
        Some((Data(data), a3))
    else if op == OP_CLEAR then Some((Cleared, a1))
    else None
  }

  /** What the client takes an answer to be; None is an invalid one. */
  function Decoded(chars: Chars, op: byte, b: bytes): Option<Reply> {
    var (reply, at) :- GetReply(chars, op, b);
    if at == |b| then Some(reply) else None
  }

  /** Each error has a code of its own. */
  lemma ErrorDecodes(chars: Chars, op: byte, e: Brokers.Error)
    ensures Decoded(chars, op, ErrorBody(e)) == Some(Rejected(ErrorCode(e)))
    ensures Decoded(chars, op, ErrorBody(e)) ==
            Some(Rejected(match e
                          case UnknownInstance => 1
                          case StaleOffer => 2
                          case InvalidTypes => 3
                          case Limit => 4
                          case Exhausted => 5))
  {
  }

  lemma SetDecodes(chars: Chars, revision: u64)
    requires revision != 0
    ensures Decoded(chars, OP_SET, SetBody(revision)) == Some(SetAs(revision))
  {
    hide LE, FromLE;
    var b := SetBody(revision);
    assert b[1..9] == PutU64(revision);
    U64RoundTrip(revision);
  }

  /** More than the client takes at once is no answer to it. */
  lemma DataDecodes(chars: Chars, data: bytes)
    ensures Decoded(chars, OP_READ, DataBody(data)) == if |data| <= CONTENT then Some(Data(data)) else None
  {
    hide LE, FromLE;
    var b := DataBody(data);
    assert b[1..5] == PutU32(|data|) && b[5..5 + |data|] == data;
    if |data| <= CONTENT { U32RoundTrip(|data|); }
  }

  lemma RestDecodes(chars: Chars)
    ensures Decoded(chars, OP_CLEAR, CLEAR_BODY) == Some(Cleared)
    ensures Decoded(chars, OP_ABLE, ABLE_BODY) == Some(Able(ABLE))
    ensures Decoded(chars, OP_TYPES, TypesBody(None)) == Some(TypesAre(None))
  {
  }

  ghost predicate GoodMimes(chars: Chars, ms: seq<bytes>) {
    && (forall k :: 0 <= k < |ms| ==> ValidMime(ms[k], chars.control) && chars.utf8(ms[k]))
    && forall j, k :: 0 <= j < k < |ms| ==> ms[j] != ms[k]
  }

  lemma {:induction false} MimesDecode(chars: Chars, b: bytes, at: nat, ms: seq<bytes>, before: seq<bytes>)
    requires GoodMimes(chars, before + ms)
    requires at + |PutMimes(ms)| <= |b| && b[at..at + |PutMimes(ms)|] == PutMimes(ms)
    ensures GetMimes(chars, b, at, |ms|, before) == Some((before + ms, at + |PutMimes(ms)|))
    decreases |ms|
  {
    hide LE, FromLE, ValidMime;
    if ms == [] {
      assert before + ms == before;
    } else {
      var m := ms[0];
      assert before + ms == before + [m] + ms[1..];
      assert (before + ms)[|before|] == m;
      forall k | 0 <= k < |before| ensures before[k] != m { assert (before + ms)[k] == before[k]; }
      var n, rest := PutU16(|m|), PutMimes(ms[1..]);
      assert PutMimes(ms) == n + m + rest;
      ThreeParts(b, at, n, m, rest);
      MimeLength(m, chars);
      U16RoundTrip(|m|);
      MimesDecode(chars, b, at + 2 + |m|, ms[1..], before + [m]);
    }
  }

  lemma MimeLength(m: bytes, chars: Chars)
    requires ValidMime(m, chars.control)
    ensures 1 <= |m| <= MAX_MIME
  {
  }

  lemma TypesDecode(chars: Chars, revision: u64, ms: seq<bytes>)
    requires revision != 0 && 1 <= |ms| <= MAX_TYPES && GoodMimes(chars, ms)
    ensures Decoded(chars, OP_TYPES, TypesBody(Some((revision, ms)))) == Some(TypesAre(Some((revision, ms))))
  {
    hide LE, FromLE, PutMimes, GetMimes, GoodMimes;
    var b := TypesBody(Some((revision, ms)));
    var r, n, p := PutU64(revision), PutU16(|ms|), PutMimes(ms);
    assert b[0..|b|] == b && b == [0, 1] + r + n + p;
    FourPieces(b, 0, [0, 1], r, n, p);
    U64RoundTrip(revision);
    U16RoundTrip(|ms|);
    assert [] + ms == ms;
    MimesDecode(chars, b, 12, ms, []);
  }
}
