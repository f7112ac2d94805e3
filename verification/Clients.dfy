/** The client of a scoped clipboard endpoint (shared/clipboard_client.rs). */
module Clients {
  import opened Wrappers
  import opened Codec
  import opened Brokers
  import opened Wire
  import opened Transports
  import opened Peers

  datatype Failure = NotConnected | WouldBlock | Invalid | NoMemory | TimedOut | WriteZero | Eof | Io

  /** The failure that says how the stream ended. */
  function FailureOf(how: Ending): Failure {
    match how case Closed => Eof case Broke => Io case TookNothing => WriteZero
  }

  // ---- What may be sent ----

  /** Strings are text. */
  ghost predicate IsText(chars: Chars, r: Request) {
    match r
    case SetTo(parts) => forall k :: 0 <= k < |parts| ==> chars.utf8(parts[k].0)
    case ReadAt(_, mime) => chars.utf8(mime)
    case _ => true
  }

  lemma {:induction false} PartsLength(parts: seq<(bytes, bytes)>, k: nat)
    requires k < |parts|
    ensures |PutParts(parts[..k + 1])| == |PutParts(parts[..k])| + 6 + |parts[k].0| + |parts[k].1|
  {
    hide LE;
    if k == 0 {
      assert parts[..1] == [parts[0]] && parts[..1][1..] == [] && parts[..0] == [];
    } else {
      PartsLength(parts[1..], k - 1);
      assert parts[1..][..k] == parts[..k + 1][1..] && parts[1..][..k - 1] == parts[..k][1..];
    }
  }

  /** A set's parts checked one by one; how long they are on the wire. */
  method MeasureParts(chars: Chars, parts: seq<(bytes, bytes)>) returns (r: Option<nat>)
    ensures r.Some? <==>
              && 1 <= |parts| <= MAX_TYPES && DataTotal(parts) <= CONTENT
              && (forall k :: 0 <= k < |parts| ==> ValidMime(parts[k].0, chars.control))
              && (forall j, k :: 0 <= j < k < |parts| ==> parts[j].0 != parts[k].0)
    ensures r.Some? ==> r.value == |PutParts(parts)|
  {
    hide ValidMime, PutParts;
    if |parts| < 1 || |parts| > MAX_TYPES { return None; }
    var total: nat, length: nat := 0, 0;
    assert parts[..0] == [];
    NoParts();
    for i := 0 to |parts|
      invariant total == DataTotal(parts[..i]) && length == |PutParts(parts[..i])|
      invariant forall k :: 0 <= k < i ==> ValidMime(parts[k].0, chars.control)
      invariant forall j, k :: 0 <= j < k < i ==> parts[j].0 != parts[k].0
    {
      var (mime, data) := parts[i];
      if !ValidMime(mime, chars.control) || exists k :: 0 <= k < i && parts[k].0 == mime { return None; }
      PartsLength(parts, i);
      assert parts[..i + 1][..i] == parts[..i];
      total := total + |data|;
      length := length + 6 + |mime| + |data|;
    }
    assert parts[..|parts|] == parts;
    if total > CONTENT { return None; }
    r := Some(length);
  }

  /** How long the request's body is; None if it may not be sent. */
  method Measure(chars: Chars, s: Selection, r: Request) returns (n: Option<nat>)
    requires IsText(chars, r)
    ensures n.Some? <==> Sendable(chars, s, r)
    ensures n.Some? ==> n.value == |RequestBody(s, r)|
  {
    hide ValidMime, PutParts, LE;
    var length: nat := 2;
    match r {
      case SetTo(parts) =>
        var more := MeasureParts(chars, parts);
        if more.None? { return None; }
        length := length + 2 + more.value;
      case ReadAt(revision, mime) =>
        if revision == 0 || !ValidMime(mime, chars.control) { return None; }
        length := length + 10 + |mime|;
      case _ =>
    }
    if length > FRAME { return None; }
    n := Some(length);
  }

  method PutPartsInto(b: bytes, parts: seq<(bytes, bytes)>) returns (r: bytes)
    ensures r == b + PutParts(parts)
  {
    hide LE;
    r := b;
    for i := 0 to |parts|
      invariant r + PutParts(parts[i..]) == b + PutParts(parts)
    {
      assert parts[i..][1..] == parts[i + 1..];
      r := r + PutU16(|parts[i].0|) + parts[i].0 + PutU32(|parts[i].1|) + parts[i].1;
    }
    assert PutParts(parts[|parts|..]) == [];
  }

  method PutRequest(s: Selection, r: Request, length: nat) returns (b: bytes)
    requires length == |RequestBody(s, r)|
    ensures b == PutU32(length) + RequestBody(s, r)
  {
    hide LE, PutParts;
    b := PutU32(length) + [Opcode(r), SelectionByte(s)];
    match r {
      case SetTo(parts) => b := PutPartsInto(b + PutU16(|parts|), parts);
      case ReadAt(revision, mime) => b := b + PutU64(revision) + PutU16(|mime|) + mime;
      case _ =>
    }
  }

  // ---- What an answer is taken to be ----

  method ReadMimes(c: Reader, chars: Chars, n: nat) returns (r: Option<seq<bytes>>)
    modifies c
    ensures r.None? <==> GetMimes(chars, c.b, old(c.at), n, []).None?
    ensures r.Some? ==> GetMimes(chars, c.b, old(c.at), n, []) == Some((r.value, c.at))
  {
    hide FromLE, ValidMime;
    var types: seq<bytes> := [];
    for i := 0 to n
      invariant GetMimes(chars, c.b, old(c.at), n, []) == GetMimes(chars, c.b, c.at, n - i, types)
    {
      var len := Short(c);
      if len.None? || len.value > MAX_MIME { return None; }
      var m := c.Take(len.value);
      if m.None? || !chars.utf8(m.value) || !ValidMime(m.value, chars.control) || m.value in types { return None; }
      types := types + [m.value];
    }
    r := Some(types);
  }

  method ReadOffer(c: Reader, chars: Chars) returns (r: Option<Reply>)
    modifies c
    ensures var rest := GetReply(chars, OP_TYPES, c.b);
            GetU8(c.b, 0) == Some((0, old(c.at))) ==>
              (r.None? <==> rest.None?) && (r.Some? ==> rest == Some((r.value, c.at)))
  {
    hide FromLE, GetMimes;
    var present := c.U8();
    if present.None? || present.value > 1 { return None; }
    if present.value == 0 { return Some(TypesAre(None)); }
    var revision := c.U64();
    if revision.None? || revision.value == 0 { return None; }
    var n := Short(c);
    if n.None? || n.value < 1 || n.value > MAX_TYPES { return None; }
    var mimes := ReadMimes(c, chars, n.value);
    if mimes.None? { return None; }
    r := Some(TypesAre(Some((revision.value, mimes.value))));
  }

  /** An answer read field by field. */
  method Decode(chars: Chars, op: byte, b: bytes) returns (r: Option<Reply>)
    ensures r == Decoded(chars, op, b)
  {
    hide FromLE, GetMimes;
    var c := new Reader(b, 0);
    var status := c.U8();
    if status.None? || status.value > 1 { return None; }
    if status.value == 1 {
      var code := c.U8();
      if code.None? || !(1 <= code.value <= 5) || c.at != |b| { return None; }
      return Some(Rejected(code.value));
    }
    if op == OP_TYPES {
      r := ReadOffer(c, chars);
    } else if op == OP_SET {
      var revision := c.U64();
      if revision.None? || revision.value == 0 { return None; }
      r := Some(SetAs(revision.value));
    } else if op == OP_ABLE {
      var level := c.U8();
      if level.None? { return None; }
      r := Some(Able(level.value));
    } else if op == OP_READ {
      var n := c.U32();
      if n.None? || n.value > CONTENT { return None; }
      var data := c.Take(n.value);
      if data.None? { return None; }
      r := Some(Data(data.value));
    } else if op == OP_CLEAR {
      r := Some(Cleared);
    } else {
      return None;
    }
    if c.at != |b| { return None; }
  }

  // ---- The client ----

  /** What a turn came to, as the step within it says it. */
  function OneTurn(r: Option<Result<Reply, Failure>>): Result<Option<Reply>, Failure> {
    match r
    case None => Ok(None)
    case Some(Ok(x)) => Ok(Some(x))
    case Some(Err(e)) => Err(e)
  }

  /** Why a request is not begun, in the order it is looked for. */
  ghost function StartRefused(chars: Chars, alloc: Alloc, closed: bool, busy: bool, s: Selection, r: Request):
    Option<Failure>
  {
    if closed then Some(NotConnected)
    else if busy then Some(WouldBlock)
    else if !Sendable(chars, s, r) then Some(Invalid)
    else
      match alloc(|RequestBody(s, r)| + 4)
      case None => Some(NoMemory)
      case Some(room) => if room > FRAME + 4 then Some(Invalid) else None
  }

  /** An answer of this length is taken in. */
  ghost predicate Takes(alloc: Alloc, n: nat) {
    1 <= n <= FRAME && alloc(n).Some? && alloc(n).value <= FRAME
  }

  /** What the bytes of an answer come to, so far as they were received in a turn: nothing only
      while the frame is not whole; an answer just if it is whole, of a length that is taken in,
      and can be read; it is invalid only for its length, for more reserved than there may be,
      or because, whole, it cannot be read; and out of memory only if nothing is reserved. Any
      other failure is the stream's or the time's. */
  ghost predicate Verdict(chars: Chars, alloc: Alloc, op: byte, got: bytes, r: Result<Option<Reply>, Failure>) {
    match r
    case Ok(None) => |got| <= 4 || |got| < 4 + FromLE(got[..4])
    case Ok(Some(reply)) =>
      && |got| > 4 && FromLE(got[..4]) == |got| - 4 && Takes(alloc, |got| - 4)
      && Decoded(chars, op, got[4..]) == Some(reply)
    case Err(Invalid) =>
      && |got| >= 4
      && var n := FromLE(got[..4]);
         || !(1 <= n <= FRAME)
         || (alloc(n).Some? && alloc(n).value > FRAME)
         || (|got| == 4 + n && Decoded(chars, op, got[4..]).None?)
    case Err(NoMemory) => |got| >= 4 && 1 <= FromLE(got[..4]) <= FRAME && alloc(FromLE(got[..4])).None?
    case Err(e) => e in {TimedOut, WriteZero, Eof, Io}
  }

  /** A whole answer of a length that is taken in is told, whatever it says, unless the time is up
      or the stream fails. */
  lemma WholeIsTold(chars: Chars, alloc: Alloc, op: byte, got: bytes, body: bytes, r: Result<Option<Reply>, Failure>)
    requires Verdict(chars, alloc, op, got, r) && got == PutU32(|body|) + body && Takes(alloc, |body|)
    requires r.Err? ==> r.error !in {TimedOut, WriteZero, Eof, Io}
    ensures r == match Decoded(chars, op, body) case Some(x) => Ok(Some(x)) case None => Err(Invalid)
  {
    hide Decoded, LE, FromLE;
    assert got[..4] == PutU32(|body|) && got[4..] == body;
    U32RoundTrip(|body|);
    if r.Ok? && r.value.Some? { assert r == Ok(Decoded(chars, op, body)); }
  }

  lemma NothingYet(chars: Chars, alloc: Alloc, op: byte, header: bytes, head: nat, data: bytes, read: nat)
    requires |header| == 4 && head <= 4 && (data == [] ==> read == 0)
    requires data != [] ==> head == 4 && FromLE(header) == |data| && read < |data|
    ensures Verdict(chars, alloc, op, header[..head] + data[..read], Ok(None))
  {
    hide Decoded, FromLE;
    if data != [] { assert (header[..4] + data[..read])[..4] == header; }
  }

  lemma NoRoomMade(chars: Chars, alloc: Alloc, op: byte, header: bytes, e: Failure)
    requires |header| == 4 && !Takes(alloc, FromLE(header))
    requires e == if 1 <= FromLE(header) <= FRAME && alloc(FromLE(header)).None? then NoMemory else Invalid
    ensures Verdict(chars, alloc, op, header[..4] + [], Err(e))
  {
    hide Decoded, FromLE;
    assert header[..4] + [] == header && header[..4] == header;
  }

  lemma AllThere(chars: Chars, alloc: Alloc, op: byte, header: bytes, data: bytes)
    requires |header| == 4 && FromLE(header) == |data| && Takes(alloc, |data|)
    ensures Verdict(chars, alloc, op, header[..4] + data[..|data|],
                    match Decoded(chars, op, data) case Some(x) => Ok(Some(x)) case None => Err(Invalid))
  {
    hide Decoded, FromLE;
    var got := header[..4] + data[..|data|];
    assert got[..4] == header && got[4..] == data;
  }

  lemma StreamFailed(chars: Chars, alloc: Alloc, op: byte, got: bytes, how: Ending)
    ensures Verdict(chars, alloc, op, got, Err(FailureOf(how)))
  {
    hide Decoded, FromLE;
  }

  class Client {
    const stream: Stream
    const chars: Chars
    const alloc: Alloc
    var output: Buffer
    var written: nat
    var header: bytes
    var head: nat
    var input: Buffer
    var read: nat
    var opcode: byte
    var deadline: Option<int>
    var closed: bool
    ghost var sentBefore: bytes
    ghost var receivedBefore: bytes

    ghost predicate Shaped()
      reads this
    {
      && |header| == 4 && head <= 4 && Reserves(alloc)
      && written <= |output.data| && read <= |input.data|
      && (deadline.None? ==> output == input == EMPTY_BUFFER && head == 0)
      && (input.data != [] ==> head == 4 && FromLE(header) == |input.data| && Takes(alloc, |input.data|))
      && (input.data == [] ==> read == 0)
    }

    /** Since the request began: of it, what is written was sent; what was received is the
        answer as far as it is read. */
    ghost predicate Wired()
      requires Shaped()
      reads this, stream`received, stream`sent
    {
      && stream.sent == sentBefore + output.data[..written]
      && stream.received == receivedBefore + (header[..head] + input.data[..read])
    }

    ghost predicate Fit()
      reads this, stream`received, stream`sent
    {
      Shaped() && (deadline.Some? ==> Wired())
    }

    /** No answer is left unread: one all there was told in the turn that read the last of it. */
    ghost predicate Valid()
      reads this, stream`received, stream`sent
    {
      Fit() && (input.data != [] ==> read < |input.data|)
    }

    /** The answer as far as it came. */
    ghost function Got(): bytes
      requires Shaped()
      reads this
    {
      header[..head] + input.data[..read]
    }

    constructor (stream: Stream, chars: Chars, alloc: Alloc)
      requires Reserves(alloc)
      ensures Valid() && this.stream == stream && this.chars == chars && this.alloc == alloc && deadline == None
              && !closed
    {
      this.stream, this.chars, this.alloc := stream, chars, alloc;
      output, written, header, head, input, read := EMPTY_BUFFER, 0, [0, 0, 0, 0], 0, EMPTY_BUFFER, 0;
      opcode, deadline, closed := 0, None, false;
      sentBefore, receivedBefore := [], [];
    }

    /** Whether a request may begin, how long its body is and the room reserved for it. */
    method Admit(s: Selection, r: Request) returns (e: Option<Failure>, length: nat, room: nat)
      requires IsText(chars, r)
      ensures e == StartRefused(chars, alloc, closed, deadline.Some?, s, r)
      ensures e.None? ==> !closed && deadline.None? && Sendable(chars, s, r) && length == |RequestBody(s, r)|
    {
      hide Sendable, RequestBody, IsText;
      length, room := 0, 0;
      if closed { return Some(NotConnected), length, room; }
      if deadline.Some? { return Some(WouldBlock), length, room; }
      var measured := Measure(chars, s, r);
      if measured.None? { return Some(Invalid), length, room; }
      length := measured.value;
      var reserved := alloc(length + 4);
      if reserved.None? { return Some(NoMemory), length, room; }
      if reserved.value > FRAME + 4 { return Some(Invalid), length, room; }
      e, room := None, reserved.value;
    }

    /** Begin a request: refused, nothing is to be sent. */
    method Start(s: Selection, r: Request, now: int) returns (e: Option<Failure>)
      requires Valid() && IsText(chars, r)
      modifies this
      ensures Valid() && closed == old(closed)
      ensures e == StartRefused(chars, alloc, closed, old(deadline).Some?, s, r)
      ensures e.Some? ==> unchanged(this)
      ensures e.None? ==> !closed && old(deadline).None? && Sendable(chars, s, r)
      ensures e.None? ==> deadline == Some(now + TIMEOUT) && opcode == Opcode(r) && written == 0
                          && output.data == PutU32(|RequestBody(s, r)|) + RequestBody(s, r)
                          && sentBefore == stream.sent && receivedBefore == stream.received
    {
      hide Sendable, RequestBody, LE, FromLE, IsText, Reserves, StartRefused;
      var length, room;
      e, length, room := Admit(s, r);
      if e.Some? { return; }
      var data := PutRequest(s, r, length);
      output, written := Buffer(data, room), 0;
      opcode, deadline := Opcode(r), Some(now + TIMEOUT);
      sentBefore, receivedBefore := stream.sent, stream.received;
      assert header[..head] + input.data[..read] == [] && output.data[..0] == [];
      assert stream.received + [] == stream.received && stream.sent + [] == stream.sent;
    }

    method Reset()
      requires Reserves(alloc)
      modifies this
      ensures Valid() && deadline == None && closed == old(closed) && output == EMPTY_BUFFER
    {
      output, input, written, read, head := EMPTY_BUFFER, EMPTY_BUFFER, 0, 0, 0;
      header, deadline := [0, 0, 0, 0], None;
    }

    /** What is left of the budget is what did not move, unless the stream was not ready; a
        failure is the stream's. */
    twostate predicate Spent(new e: Option<Failure>, budget: nat, left: nat)
      reads stream
    {
      && stream.Passed() >= old(stream.Passed()) && stream.Due() == old(stream.Due())
      && old(stream.sent) <= stream.sent
      && (e.None? ==> stream.Passed() + left == old(stream.Passed()) + budget || (left == 0 && stream.last == Waited))
      && stream.Passed() <= old(stream.Passed()) + budget
      && (e.Some? ==> stream.last.Over? && e.value == FailureOf(stream.last.how))
    }

    /** What a turn may come to: past the deadline nothing is tried; it stops short of an
        answer only when the stream is not ready or a quantum moved. */
    twostate predicate Turned(now: int, new r: Result<Option<Reply>, Failure>)
      requires old(deadline).Some?
      reads stream
    {
      && (now >= old(deadline).value <==> r == Err(TimedOut))
      && (now >= old(deadline).value ==> unchanged(stream))
      && stream.Due() == old(stream.Due()) && old(stream.sent) <= stream.sent
      && old(stream.Passed()) <= stream.Passed() <= old(stream.Passed()) + QUANTUM
      && (r == Ok(None) ==> stream.last == Waited || stream.Passed() == old(stream.Passed()) + QUANTUM)
      && (r.Err? && r.error in {WriteZero, Eof, Io} ==> stream.last.Over? && r.error == FailureOf(stream.last.how))
    }

    /** The request sent on, as far as the budget and the stream let it. */
    method SendOn(budget: nat) returns (e: Option<Failure>, left: nat)
      requires Fit() && deadline.Some?
      modifies this`written, stream
      ensures Fit() && left <= budget && stream.received == old(stream.received)
      ensures Spent(e, budget, left) && (e.None? && left > 0 ==> written == |output.data|)
    {
      hide FromLE, Flow, Reserves, Takes;
      left := budget;
      while written < |output.data| && left > 0
        invariant Fit() && left <= budget && stream.received == old(stream.received)
        invariant stream.Passed() + left == old(stream.Passed()) + budget && stream.Due() == old(stream.Due())
        invariant old(stream.sent) <= stream.sent
        decreases left
      {
        var end := if written + left <= |output.data| then written + left else |output.data|;
        var part := output.data[written..end];
        var put := stream.Write(part);
        if put.Refused? { return Some(WriteZero), left; }
        if put.Broken? { return Some(Io), left; }
        if put.Later? { return None, 0; }
        MoreSent(output.data, written, end, put.n);
        assert sentBefore + output.data[..written] + part[..put.n] ==
               sentBefore + (output.data[..written] + part[..put.n]);
        written := written + put.n;
        left := left - put.n;
      }
      e := None;
    }

    /** The answer's length, as far as it came. */
    method ReadHead(budget: nat) returns (e: Option<Failure>, left: nat)
      requires Fit() && deadline.Some?
      modifies this`header, this`head, stream
      ensures Fit() && left <= budget
      ensures Spent(e, budget, left) && (e.None? && left > 0 ==> head == 4)
    {
      hide FromLE, Flow, Reserves, Takes;
      left := budget;
      while head < 4 && left > 0
        invariant Fit() && left <= budget
        invariant stream.Passed() + left == old(stream.Passed()) + budget && stream.Due() == old(stream.Due())
        invariant old(stream.sent) <= stream.sent
        decreases left
      {
        var got := stream.Read(if head + left <= 4 then left else 4 - head);
        if got.End? { return Some(Eof), left; }
        if got.Failed? { return Some(Io), left; }
        if got.Wait? { return None, 0; }
        HeaderGrows(header, head, got.data);
        assert receivedBefore + (header[..head] + input.data[..read]) + got.data ==
               receivedBefore + (header[..head] + got.data + input.data[..read]);
        header := header[..head] + got.data + header[head + |got.data|..];
        head := head + |got.data|;
        left := left - |got.data|;
      }
      e := None;
    }

    /** Room for the answer, if its length is one it may have. */
    method MakeRoom() returns (e: Option<Failure>)
      requires Valid() && deadline.Some? && head == 4
      modifies this`input
      ensures Valid() && (e.None? <==> Takes(alloc, FromLE(header))) && (e.None? ==> input.data != [])
      ensures e.Some? ==> input.data == []
      ensures e.Some? ==>
                e.value == if 1 <= FromLE(header) <= FRAME && alloc(FromLE(header)).None? then NoMemory else Invalid
    {
      hide FromLE, Flow, Reserves;
      if input.data != [] { return None; }
      var length := HeaderLength(header);
      if !(1 <= length <= FRAME) { return Some(Invalid); }
      var reserved := alloc(length);
      if reserved.None? { return Some(NoMemory); }
      if reserved.value > FRAME { return Some(Invalid); }
      input := Buffer(seq(length, i => 0), reserved.value);
      e := None;
    }

    method ReadBody(budget: nat) returns (e: Option<Failure>, left: nat)
      requires Fit() && deadline.Some? && head == 4 && input.data != []
      modifies this`input, this`read, stream
      ensures Fit() && left <= budget && input.data != []
      ensures Spent(e, budget, left) && (e.None? && left > 0 ==> read == |input.data|)
    {
      hide FromLE, Flow, Reserves, Takes;
      left := budget;
      while read < |input.data| && left > 0
        invariant Fit() && left <= budget && input.data != []
        invariant stream.Passed() + left == old(stream.Passed()) + budget && stream.Due() == old(stream.Due())
        invariant old(stream.sent) <= stream.sent
        decreases left
      {
        var got := stream.Read(if read + left <= |input.data| then left else |input.data| - read);
        if got.End? { return Some(Eof), left; }
        if got.Failed? { return Some(Io), left; }
        if got.Wait? { return None, 0; }
        BodyGrows(input.data, read, got.data);
        assert receivedBefore + (header[..head] + input.data[..read]) + got.data ==
               receivedBefore + (header[..head] + (input.data[..read] + got.data));
        input := input.(data := input.data[..read] + got.data + input.data[read + |got.data|..]);
        read := read + |got.data|;
        left := left - |got.data|;
      }
      e := None;
    }

    /** The whole of an answer was received after the whole of the request was sent, and
        this is what it says. */
    ghost predicate Answered(reply: Reply, body: bytes)
      requires Shaped()
      reads this, stream`received, stream`sent
    {
      && |body| < TWO_32
      && stream.sent == sentBefore + output.data
      && stream.received == receivedBefore + (PutU32(|body|) + body)
      && Decoded(chars, opcode, body) == Some(reply)
    }

    /** What of a turn is left for the answer: within the budget, and short of an answer only
        when the stream is not ready or the budget is spent. */
    twostate predicate Heard(budget: nat, new r: Result<Option<Reply>, Failure>)
      reads stream
    {
      && stream.Due() == old(stream.Due()) && old(stream.sent) <= stream.sent
      && old(stream.Passed()) <= stream.Passed() <= old(stream.Passed()) + budget
      && (r == Ok(None) ==> stream.last == Waited || stream.Passed() == old(stream.Passed()) + budget)
      && (r.Err? ==> r.error != TimedOut)
      && (r.Err? && r.error in {WriteZero, Eof, Io} ==> stream.last.Over? && r.error == FailureOf(stream.last.how))
    }

    lemma AllReceived()
      requires Fit() && deadline.Some? && input.data != [] && written == |output.data| && read == |input.data|
      ensures |input.data| < TWO_32 && stream.sent == sentBefore + output.data
      ensures stream.received == receivedBefore + (PutU32(|input.data|) + input.data)
    {
      hide FromLE, LE, Reserves, Takes;
      assert HeaderLength(header) == |input.data|;
      HeaderIs(header, |input.data|);
      assert header[..head] + input.data[..read] == PutU32(|input.data|) + input.data;
      assert output.data[..written] == output.data;
    }

    /** The request is sent: the answer, as far as it came. */
    method Receive(given: nat) returns (r: Result<Option<Reply>, Failure>, ghost body: bytes)
      requires Valid() && deadline.Some? && written == |output.data|
      modifies this`header, this`head, this`input, this`read, stream
      ensures Fit() && (r == Ok(None) ==> Valid()) && Heard(given, r)
      ensures Verdict(chars, alloc, opcode, Got(), r)
      ensures r.Ok? && r.value.Some? ==> Answered(r.value.value, body)
    {
      hide FromLE, Flow, Reserves, Decoded, LE, Takes, Verdict, Wired;
      body := [];
      var e, budget := ReadHead(given);
      if e.Some? {
        StreamFailed(chars, alloc, opcode, Got(), stream.last.how);
        return Err(e.value), body;
      }
      if head < 4 || budget == 0 {
        NothingYet(chars, alloc, opcode, header, head, input.data, read);
        return Ok(None), body;
      }
      e := MakeRoom();
      if e.Some? {
        assert input.data[..read] == [];
        NoRoomMade(chars, alloc, opcode, header, e.value);
        return Err(e.value), body;
      }
      e, budget := ReadBody(budget);
      if e.Some? {
        StreamFailed(chars, alloc, opcode, Got(), stream.last.how);
        return Err(e.value), body;
      }
      if read < |input.data| {
        NothingYet(chars, alloc, opcode, header, head, input.data, read);
        return Ok(None), body;
      }
      body := input.data;
      AllReceived();
      AllThere(chars, alloc, opcode, header, input.data);
      var reply := Decode(chars, opcode, input.data);
      r := if reply.None? then Err(Invalid) else Ok(reply);
    }

    /** One turn of at most a quantum: None while the answer is not all there. */
    method Step(now: int) returns (r: Result<Option<Reply>, Failure>, ghost body: bytes)
      requires Valid() && deadline.Some?
      modifies this`written, this`header, this`head, this`input, this`read, stream
      ensures Fit() && (r == Ok(None) ==> Valid()) && Turned(now, r)
      ensures Verdict(chars, alloc, opcode, Got(), r)
      ensures r.Ok? && r.value.Some? ==> Answered(r.value.value, body)
    {
      hide FromLE, Flow, Reserves, Decoded, LE, Wired, Takes;
      body := [];
      if now >= deadline.value { return Err(TimedOut), body; }
      var e, budget := SendOn(QUANTUM);
      if e.Some? { return Err(e.value), body; }
      if written < |output.data| || budget == 0 {
        NothingYet(chars, alloc, opcode, header, head, input.data, read);
        return Ok(None), body;
      }
      r, body := Receive(budget);
    }

    /** One turn; an answer or a failure ends the request, and a failure the client. */
    method Tick(now: int) returns (r: Option<Result<Reply, Failure>>, ghost body: bytes)
      requires Valid()
      modifies this, stream
      ensures Valid()
      ensures r.None? ==> deadline == old(deadline) && closed == old(closed) && output == old(output)
                          && opcode == old(opcode) && sentBefore == old(sentBefore)
                          && receivedBefore == old(receivedBefore)
      ensures stream.Due() == old(stream.Due()) && old(stream.sent) <= stream.sent
      ensures if old(deadline).None? then unchanged(stream)
              else stream.sent <= old(sentBefore) + old(output.data) && old(receivedBefore) <= stream.received
      ensures old(deadline).Some? ==>
                && Turned(now, OneTurn(r))
                && Verdict(chars, alloc, old(opcode), stream.received[|old(receivedBefore)|..], OneTurn(r))
      ensures old(deadline).Some? && now >= old(deadline).value ==> r == Some(Err(TimedOut)) && unchanged(stream)
      ensures r.Some? ==> deadline == None && old(deadline).Some?
      ensures r.Some? && r.value.Err? ==> closed
      ensures r.Some? && r.value.Ok? ==> old(deadline).Some? && closed == old(closed)
      ensures r.Some? && r.value.Ok? ==>
                && |body| < TWO_32 && stream.sent == old(sentBefore) + old(output.data)
                && stream.received == old(receivedBefore) + (PutU32(|body|) + body)
                && Decoded(chars, old(opcode), body) == Some(r.value.value)
    {
      hide FromLE, Flow, Reserves, Decoded, LE, Takes, Verdict;
      body := [];
      if deadline.None? { return None, body; }
      var result;
      result, body := Step(now);
      PartSent(stream.sent, sentBefore, output.data, written);
      assert stream.received[|receivedBefore|..] == Got();
      if result.Ok? && result.value.None? { return None, body; }
      if result.Err? {
        closed := true;
        Reset();
        return Some(Err(result.error)), body;
      }
      Reset();
      r := Some(Ok(result.value.value));
    }
  }

  lemma PartSent(sent: bytes, before: bytes, data: bytes, written: nat)
    requires written <= |data| && sent == before + data[..written]
    ensures sent <= before + data
  {
  }

  lemma MoreSent(data: bytes, written: nat, end: nat, n: nat)
    requires written + n <= end <= |data|
    ensures data[..written] + data[written..end][..n] == data[..written + n]
  {
  }
}
