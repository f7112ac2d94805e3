/** The framed transport of the active selections (clip/src/broker_transport.rs). */
module Transports {
  import opened Wrappers
  import opened Codec
  import opened Brokers
  import opened Wire

  const MAX_FRAME: nat := 0x400_8000
  const MAX_IO: nat := 0x800_0000
  const QUANTUM: nat := 0x1_0000
  const MAX_INSTANCE_IO: nat := MAX_FRAME + QUANTUM
  const MAX_PEERS: nat := 512
  const TIMEOUT: nat := 5

  /** Reserving `n` bytes gives a capacity, or fails. */
  type Alloc = nat -> Option<nat>

  ghost predicate Reserves(alloc: Alloc) {
    forall n :: alloc(n).Some? ==> alloc(n).value >= n
  }

  datatype Buffer = Buffer(data: bytes, capacity: nat)

  const EMPTY_BUFFER: Buffer := Buffer([], 0)

  // ---- Answers ----

  /** A body framed, if there is room for it. */
  function Framed(alloc: Alloc, body: bytes, limit: nat): Buffer {
    if |body| + 4 > limit then EMPTY_BUFFER
    else
      match alloc(|body| + 4)
      case None => EMPTY_BUFFER
      case Some(c) => if c > limit then EMPTY_BUFFER else Buffer(PutU32(|body|) + body, c)
  }

  /** What arrives on the wire reserves just its bytes. */
  function Received(parts: seq<(bytes, bytes)>): seq<Payload> {
    seq(|parts|, i requires 0 <= i < |parts| => Payload(parts[i].0, parts[i].1, 0))
  }

  lemma ReceivedIs(parts: seq<(bytes, bytes)>, k: nat)
    requires k < |parts|
    ensures |Received(parts)| == |parts|
    ensures var p := Received(parts)[k]; p.mime == parts[k].0 && p.data == parts[k].1 && p.spare == 0
  {
  }

  /** The request of the body if its opcode and selection are a set's. */
  predicate IsSet(b: bytes) {
    |b| >= 2 && b[0] == OP_SET && b[1] <= 1
  }

  /** What a request makes of the broker, and the body of its answer. */
  function Served(chars: Chars, limits: Limits, s: Snapshot, total: nat, instance: u64, b: bytes, limit: nat):
    (Snapshot, bytes)
  {
    if IsSet(b) && limit < 13 then (s, ErrorBody(Error.Limit))
    else
      match Asked(chars, b)
      case None => (s, ErrorBody(InvalidTypes))
      case Some((sel, AskTypes)) =>
        if instance !in s.instances then (s, ErrorBody(UnknownInstance))
        else (s, TypesBody(OfferOf(s.instances[instance].At(sel))))
      case Some((sel, SetTo(parts))) =>
        (match Refusal(limits, chars.control, s, total, instance, sel, Received(parts))
         case Some(e) => (s, ErrorBody(e))
         case None =>
           var offer := Offer(s.next + 1, Received(parts), Reserved(Received(parts)));
           (Placed(s, instance, sel, Some(offer)).(next := offer.revision), SetBody(offer.revision)))
      case Some((sel, ReadAt(revision, mime))) =>
        (match ReadOf(s, instance, sel, revision, mime)
         case Err(e) => (s, ErrorBody(e))
         case Ok(data) => (s, if |data| + 9 > limit then ErrorBody(Error.Limit) else DataBody(data)))
      case Some((sel, ClearIt)) =>
        if instance !in s.instances then (s, ErrorBody(UnknownInstance))
        else (Placed(s, instance, sel, None), CLEAR_BODY)
      case Some((_, Capabilities)) => (s, ABLE_BODY)
  }

  function OfferOf(o: Option<Offer>): Option<(u64, seq<bytes>)> {
    match o case None => None case Some(x) => Some((x.revision, TypesOf(x.contents)))
  }

  /** Whatever changes a selection has room for its answer already. */
  lemma RoomForTheAnswer(chars: Chars, limits: Limits, s: Snapshot, total: nat, instance: u64, b: bytes, limit: nat)
    requires limit >= 6
    ensures var (t, body) := Served(chars, limits, s, total, instance, b, limit);
            t != s ==> |body| + 4 <= limit
  {
    hide Asked, Refusal, LE;
    var asked := Asked(chars, b);
    if asked.Some? && asked.value.1.SetTo? { SetIsSet(chars, b); }
  }

  lemma SetIsSet(chars: Chars, b: bytes)
    requires Asked(chars, b).Some? && Asked(chars, b).value.1.SetTo?
    ensures IsSet(b)
  {
    hide GetParts, FromLE;
  }

  // ---- The decoder ----

  method Short(c: Reader) returns (r: Option<nat>)
    modifies c
    ensures r.None? <==> GetU16(c.b, old(c.at)).None?
    ensures r.Some? ==> GetU16(c.b, old(c.at)) == Some((r.value, c.at))
  {
    var b := c.Take(2);
    if b.None? { return None; }
    r := Some(FromLE(b.value));
  }

  method Mime(c: Reader, chars: Chars) returns (r: Option<bytes>)
    modifies c
    ensures r.None? <==> GetMime(chars, c.b, old(c.at)).None?
    ensures r.Some? ==> GetMime(chars, c.b, old(c.at)) == Some((r.value, c.at))
  {
    hide FromLE;
    var n := Short(c);
    if n.None? || n.value < 1 || n.value > MAX_MIME { return None; }
    var m := c.Take(n.value);
    if m.None? || !chars.utf8(m.value) { return None; }
    r := m;
  }

  ghost function After(a: seq<(bytes, bytes)>, r: Option<(seq<(bytes, bytes)>, nat)>):
    Option<(seq<(bytes, bytes)>, nat)>
  {
    match r case None => None case Some((rest, at)) => Some((a + rest, at))
  }

  lemma AfterMore(a: seq<(bytes, bytes)>, x: (bytes, bytes), r: Option<(seq<(bytes, bytes)>, nat)>)
    ensures After(a, After([x], r)) == After(a + [x], r)
  {
    if r.Some? { assert a + ([x] + r.value.0) == a + [x] + r.value.0; }
  }

  method Part(c: Reader, chars: Chars, ghost n: nat) returns (r: Option<(bytes, bytes)>)
    requires n > 0
    modifies c
    ensures r.None? ==> GetParts(chars, c.b, old(c.at), n).None?
    ensures r.Some? ==> GetParts(chars, c.b, old(c.at), n) == After([r.value], GetParts(chars, c.b, c.at, n - 1))
  {
    hide GetMime, FromLE;
    var m := Mime(c, chars);
    if m.None? { return None; }
    var len := c.U32();
    if len.None? { return None; }
    var d := c.Take(len.value);
    if d.None? { return None; }
    r := Some((m.value, d.value));
  }

  method Parts(c: Reader, chars: Chars, n: nat) returns (r: Option<seq<(bytes, bytes)>>)
    modifies c
    ensures r.None? <==> GetParts(chars, c.b, old(c.at), n).None?
    ensures r.Some? ==> GetParts(chars, c.b, old(c.at), n) == Some((r.value, c.at))
  {
    var out: seq<(bytes, bytes)> := [];
    ghost var whole := GetParts(chars, c.b, c.at, n);
    if whole.Some? { assert [] + whole.value.0 == whole.value.0; }
    for i := 0 to n
      invariant whole == After(out, GetParts(chars, c.b, c.at, n - i))
    {
      hide GetParts;
      var p := Part(c, chars, n - i);
      if p.None? { return None; }
      AfterMore(out, p.value, GetParts(chars, c.b, c.at, n - i - 1));
      out := out + [p.value];
    }
    assert out + [] == out;
    r := Some(out);
  }

  // ---- Dispatch ----

  method PutTypes(mimes: seq<bytes>) returns (b: bytes)
    ensures b == PutMimes(mimes)
  {
    b := [];
    for i := 0 to |mimes|
      invariant b + PutMimes(mimes[i..]) == PutMimes(mimes)
    {
      assert mimes[i..][1..] == mimes[i + 1..];
      b := b + PutMime(mimes[i]);
    }
    assert PutMimes(mimes[|mimes|..]) == [];
  }

  method AnswerTypes(broker: Broker, instance: u64, sel: Selection) returns (r: Result<bytes, Error>)
    ensures r == if instance !in broker.instances then Err(UnknownInstance)
                 else Ok(TypesBody(OfferOf(broker.instances[instance].At(sel))))
  {
    hide PutMimes, LE;
    var offer := broker.Types(instance, sel);
    if offer.Err? { return Err(offer.error); }
    ghost var held := broker.instances[instance].At(sel);
    assert held.Some? ==> Current(broker.State(), instance, sel, held.value);
    if offer.value.None? { return Ok([0, 0]); }
    var (revision, mimes) := offer.value.value;
    var types := PutTypes(mimes);
    r := Ok([0, 1] + PutU64(revision) + PutU16(|mimes|) + types);
  }

  method AnswerSet(broker: Broker, instance: u64, sel: Selection, parts: seq<(bytes, bytes)>)
    returns (r: Result<bytes, Error>)
    requires broker.Valid()
    modifies broker
    ensures broker.Valid() && broker.Grown()
    ensures var was, total := old(broker.State()), old(broker.bytes);
            match Refusal(broker.limits, broker.control, was, total, instance, sel, Received(parts))
            case Some(e) => r == Err(e) && broker.State() == was
            case None =>
              var offer := Offer(was.next + 1, Received(parts), Reserved(Received(parts)));
              r == Ok(SetBody(offer.revision))
              && broker.State() == Placed(was, instance, sel, Some(offer)).(next := offer.revision)
  {
    hide Refusal, Reserved, LE, Well, Advances;
    var revision := broker.Set(instance, sel, Received(parts), None);
    r := match revision case Ok(x) => Ok([0] + PutU64(x)) case Err(e) => Err(e);
  }

  method AnswerRead(broker: Broker, instance: u64, sel: Selection, revision: u64, mime: bytes, limit: nat)
    returns (r: Result<bytes, Error>)
    requires broker.Valid()
    ensures r == match ReadOf(broker.State(), instance, sel, revision, mime)
                 case Err(e) => Err(e)
                 case Ok(data) => if |data| + 9 > limit then Err(Error.Limit) else Ok(DataBody(data))
  {
    hide LE, Well;
    var data := broker.Read(instance, sel, revision, mime);
    if data.Err? { return Err(data.error); }
    if |data.value| + 9 > limit { return Err(Error.Limit); }
    r := Ok([0] + PutU32(|data.value|) + data.value);
  }

  /** The request of a body, unless a set leaves no room for its answer. */
  method Asking(chars: Chars, b: bytes, limit: nat) returns (r: Result<(Selection, Request), Error>)
    ensures r == if IsSet(b) && limit < 13 then Err(Error.Limit)
                 else match Asked(chars, b) case None => Err(InvalidTypes) case Some(x) => Ok(x)
  {
    hide GetParts, GetMime, FromLE;
    var c := new Reader(b, 0);
    var op := c.U8();
    if op.None? { return Err(InvalidTypes); }
    var which := c.U8();
    if which.None? || which.value > 1 { return Err(InvalidTypes); }
    var sel := if which.value == 0 then Clipboard else Primary;
    if op.value == OP_TYPES {
      if c.at != |b| { return Err(InvalidTypes); }
      r := Ok((sel, AskTypes));
    } else if op.value == OP_SET {
      if limit < 13 { return Err(Error.Limit); }
      var n := Short(c);
      if n.None? || n.value < 1 || n.value > MAX_TYPES { return Err(InvalidTypes); }
      var parts := Parts(c, chars, n.value);
      if parts.None? || c.at != |b| { return Err(InvalidTypes); }
      r := Ok((sel, SetTo(parts.value)));
    } else if op.value == OP_READ {
      var revision := c.U64();
      if revision.None? { return Err(InvalidTypes); }
      var mime := Mime(c, chars);
      if mime.None? || c.at != |b| { return Err(InvalidTypes); }
      r := Ok((sel, ReadAt(revision.value, mime.value)));
    } else if op.value == OP_CLEAR {
      if c.at != |b| { return Err(InvalidTypes); }
      r := Ok((sel, ClearIt));
    } else if op.value == OP_ABLE {
      if c.at != |b| { return Err(InvalidTypes); }
      r := Ok((sel, Capabilities));
    } else {
      r := Err(InvalidTypes);
    }
  }

  /** The request carried out: the answer's body, or the error it is answered with. */
  method Run(broker: Broker, chars: Chars, instance: u64, b: bytes, limit: nat) returns (r: Result<bytes, Error>)
    requires broker.Valid() && broker.control == chars.control
    modifies broker
    ensures broker.Valid() && broker.Grown()
    ensures var (s, body) := old(Served(chars, broker.limits, broker.State(), broker.bytes, instance, b, limit));
            broker.State() == s && body == match r case Ok(x) => x case Err(e) => ErrorBody(e)
  {
    hide Asked, IsSet, Refusal, LE, Well, Advances, Placed, ReadOf, PutMimes;
    SameAdvances(broker.State());
    var asked := Asking(chars, b, limit);
    if asked.Err? { return Err(asked.error); }
    var (sel, request) := asked.value;
    match request {
      case AskTypes =>
        r := AnswerTypes(broker, instance, sel);
      case SetTo(parts) =>
        r := AnswerSet(broker, instance, sel, parts);
      case ReadAt(revision, mime) =>
        r := AnswerRead(broker, instance, sel, revision, mime, limit);
      case ClearIt =>
        var done := broker.Clear(instance, sel);
        r := match done case Ok(_) => Ok([0]) case Err(e) => Err(e);
      case Capabilities =>
        r := Ok([0, ABLE]);
    }
  }

  method Respond(alloc: Alloc, body: bytes, limit: nat) returns (out: Buffer)
    ensures out == Framed(alloc, body, limit)
  {
    hide LE;
    var length := |body| + 4;
    if length > limit { return EMPTY_BUFFER; }
    var reserved := alloc(length);
    if reserved.None? || reserved.value > limit { return EMPTY_BUFFER; }
    out := Buffer(PutU32(|body|) + body, reserved.value);
  }

  /** A request's answer, framed; empty if there is no room to answer at all. */
  method Dispatch(broker: Broker, chars: Chars, alloc: Alloc, instance: u64, b: bytes, limit: nat) returns (out: Buffer)
    requires broker.Valid() && broker.control == chars.control
    modifies broker
    ensures broker.Valid() && broker.Grown()
    ensures limit < 6 ==> out == EMPTY_BUFFER && broker.State() == old(broker.State())
    ensures limit >= 6 ==>
              var (s, body) := old(Served(chars, broker.limits, broker.State(), broker.bytes, instance, b, limit));
              broker.State() == s && out == Framed(alloc, body, limit)
  {
    hide Served, Framed, Well, Advances;
    SameAdvances(broker.State());
    if limit < 6 { return EMPTY_BUFFER; }
    var answer := Run(broker, chars, instance, b, limit);
    out := Respond(alloc, match answer case Ok(x) => x case Err(e) => ErrorBody(e), limit);
  }

  // ---- The client's view ----

  /** Only text is without control characters. */
  ghost predicate TextOnly(chars: Chars) {
    forall m :: !chars.control(m) ==> chars.utf8(m)
  }

  /** What the direct call of the broker returns, as the client should be told it. */
  function Expected(limits: Limits, control: Control, s: Snapshot, total: nat, instance: u64, sel: Selection,
                    r: Request, limit: nat): Reply
  {
    match r
    case AskTypes =>
      if instance !in s.instances then Rejected(ErrorCode(UnknownInstance))
      else TypesAre(OfferOf(s.instances[instance].At(sel)))
    case SetTo(parts) =>
      if limit < 13 then Rejected(ErrorCode(Error.Limit))
      else (match Refusal(limits, control, s, total, instance, sel, Received(parts))
            case Some(e) => Rejected(ErrorCode(e))
            case None => SetAs(s.next + 1))
    case ReadAt(revision, mime) =>
      (match ReadOf(s, instance, sel, revision, mime)
       case Err(e) => Rejected(ErrorCode(e))
       case Ok(data) => if |data| + 9 > limit then Rejected(ErrorCode(Error.Limit)) else Data(data))
    case ClearIt => if instance !in s.instances then Rejected(ErrorCode(UnknownInstance)) else Cleared
    case Capabilities => Able(ABLE)
  }

  /** What of an answer a client can be told: not more data than it takes at once. */
  function Tellable(reply: Reply): Option<Reply> {
    if reply.Data? && |reply.data| > CONTENT then None else Some(reply)
  }

  /** What the client asks is what the server carries out, and what the client is told is
      what the broker answered, or nothing if that was more than it takes; which it never is
      if an instance may hold no more. */
  lemma Transparent(chars: Chars, limits: Limits, s: Snapshot, total: nat, origins: map<u64, Origin>,
                    instance: u64, sel: Selection, r: Request, limit: nat)
    requires Well(limits, chars.control, s, total, origins) && TextOnly(chars)
    requires Sendable(chars, sel, r)
    ensures Asked(chars, RequestBody(sel, r)) == Some((sel, r))
    ensures var direct := Expected(limits, chars.control, s, total, instance, sel, r, limit);
            && Decoded(chars, Opcode(r), Served(chars, limits, s, total, instance, RequestBody(sel, r), limit).1) ==
               Tellable(direct)
            && (limits.perInstance <= CONTENT ==> Tellable(direct) == Some(direct))
  {
    hide Well, Asked, Refusal, Decoded, SetBody, DataBody, TypesBody, ErrorBody, Sendable, PutParts, PutMime, LE,
      ReadOf, OfferOf, Current, CLEAR_BODY, ABLE_BODY;
    RequestRoundTrip(chars, sel, r);
    EveryError(chars, Opcode(r));
    RestDecodes(chars);
    match r
    case AskTypes =>
      if instance in s.instances { TypesAnswer(chars, limits, s, total, origins, instance, sel); }
    case SetTo(parts) =>
      Countable(limits, chars.control, s, total, instance, sel, Received(parts));
      if s.next + 1 < TWO_64 { SetDecodes(chars, s.next + 1); }
    case ReadAt(revision, mime) =>
      var data := ReadOf(s, instance, sel, revision, mime);
      if data.Ok? {
        if limits.perInstance <= CONTENT {
          ReadAnswer(chars, limits, s, total, origins, instance, sel, revision, mime);
        }
        DataDecodes(chars, data.value);
      }
    case _ =>
  }

  lemma Countable(limits: Limits, control: Control, s: Snapshot, total: nat, instance: u64, sel: Selection,
                  contents: seq<Payload>)
    ensures Refusal(limits, control, s, total, instance, sel, contents) == None ==> s.next + 1 < TWO_64
  {
    hide Weighed;
  }

  lemma EveryError(chars: Chars, op: byte)
    ensures forall e :: Decoded(chars, op, ErrorBody(e)) == Some(Rejected(ErrorCode(e)))
  {
    forall e ensures Decoded(chars, op, ErrorBody(e)) == Some(Rejected(ErrorCode(e))) { ErrorDecodes(chars, op, e); }
  }

  lemma TypesAnswer(chars: Chars, limits: Limits, s: Snapshot, total: nat, origins: map<u64, Origin>, instance: u64,
                    sel: Selection)
    requires Well(limits, chars.control, s, total, origins) && TextOnly(chars) && instance in s.instances
    ensures var offer := OfferOf(s.instances[instance].At(sel));
            Decoded(chars, OP_TYPES, TypesBody(offer)) == Some(TypesAre(offer))
  {
    hide Decoded, TypesBody, ValidMime, Total;
    RestDecodes(chars);
    match s.instances[instance].At(sel)
    case None =>
    case Some(o) =>
      assert Current(s, instance, sel, o);
      var ms := TypesOf(o.contents);
      forall k | 0 <= k < |ms| ensures ValidMime(ms[k], chars.control) && chars.utf8(ms[k]) {
        assert o.contents[k] in o.contents;
        NoControl(ms[k], chars);
      }
      TypesDecode(chars, o.revision, ms);
  }

  lemma NoControl(m: bytes, chars: Chars)
    requires ValidMime(m, chars.control) && TextOnly(chars)
    ensures chars.utf8(m)
  {
  }

  lemma ReadAnswer(chars: Chars, limits: Limits, s: Snapshot, total: nat, origins: map<u64, Origin>,
                   instance: u64, sel: Selection, revision: u64, mime: bytes)
    requires Well(limits, chars.control, s, total, origins) && limits.perInstance <= CONTENT
    requires ReadOf(s, instance, sel, revision, mime).Ok?
    ensures |ReadOf(s, instance, sel, revision, mime).value| <= CONTENT
  {
    hide Total, ValidMime, DataOf;
    var o := s.instances[instance].At(sel).value;
    assert Current(s, instance, sel, o);
    DataIsHeld(o.contents, mime);
  }

  lemma {:induction false} DataIsHeld(contents: seq<Payload>, mime: bytes)
    requires DataOf(contents, mime).Some?
    ensures |DataOf(contents, mime).value| <= Reserved(contents)
  {
    if contents[0].mime == mime {
      OneIsHeld(contents, 0);
    } else {
      DataIsHeld(contents[1..], mime);
      FirstReserved(contents);
    }
  }

  lemma {:induction false} OneIsHeld(contents: seq<Payload>, k: nat)
    requires k < |contents|
    ensures contents[k].Memory() <= Reserved(contents)
  {
    if k < |contents| - 1 { OneIsHeld(contents[..|contents| - 1], k); }
  }

  lemma {:induction false} FirstReserved(contents: seq<Payload>)
    requires contents != []
    ensures Reserved(contents) == contents[0].Memory() + Reserved(contents[1..])
  {
    var k := |contents| - 1;
    if k > 0 {
      FirstReserved(contents[..k]);
      assert contents[..k][1..] == contents[1..][..k - 1];
    } else {
      assert contents[1..] == [] && contents[..0] == [];
    }
  }
}
