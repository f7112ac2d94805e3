/** One peer's turn (clip/src/broker_transport.rs, Peer): reading a frame, having it carried
    out, writing the answer, over a stream that gives and takes what it likes. */
module Peers {
  import opened Wrappers
  import opened Codec
  import opened Brokers
  import opened Wire
  import opened Transports

  /** What a nonblocking read or write may come to. */
  datatype Incoming = Chunk(data: bytes) | End | Wait | Failed
  datatype Outgoing = Took(n: nat) | Refused | Later | Broken

  /** What the last read or write came to: bytes, not ready, or the end. */
  datatype Last = Moved | Waited | Over(how: Ending)
  datatype Ending = Closed | Broke | TookNothing

  /** The bytes a script will give. */
  function Flow(arrivals: seq<Incoming>): bytes {
    if arrivals == [] then []
    else (if arrivals[0].Chunk? then arrivals[0].data else []) + Flow(arrivals[1..])
  }

  lemma FlowPut(i: Incoming, rest: seq<Incoming>)
    ensures Flow([i] + rest) == (if i.Chunk? then i.data else []) + Flow(rest)
  {
    assert ([i] + rest)[1..] == rest;
  }

  lemma {:induction false} FlowMore(arrivals: seq<Incoming>, i: Incoming)
    ensures Flow(arrivals + [i]) == Flow(arrivals) + if i.Chunk? then i.data else []
  {
    if arrivals == [] {
      FlowPut(i, []);
      assert [] + [i] == [i] + [];
    } else {
      FlowMore(arrivals[1..], i);
      assert arrivals + [i] == [arrivals[0]] + (arrivals[1..] + [i]);
      FlowPut(arrivals[0], arrivals[1..] + [i]);
    }
  }

  /** A stream: any script of what its reads and writes come to. */
  class Stream {
    var arrivals: seq<Incoming>
    var takings: seq<Outgoing>
    var received: bytes
    var sent: bytes
    ghost var last: Last

    constructor (arrivals: seq<Incoming>, takings: seq<Outgoing>)
      ensures received == [] && sent == [] && last == Waited && this.arrivals == arrivals && this.takings == takings
    {
      this.arrivals, this.takings, received, sent, last := arrivals, takings, [], [], Waited;
    }

    /** How many bytes went either way. */
    ghost function Passed(): nat
      reads this
    {
      |received| + |sent|
    }

    /** All it received and is still to receive. */
    ghost function Due(): bytes
      reads this
    {
      received + Flow(arrivals)
    }

    method Read(max: nat) returns (r: Incoming)
      requires max > 0
      modifies this
      ensures sent == old(sent)
      ensures r.Chunk? ==> 0 < |r.data| <= max && received == old(received) + r.data
      ensures !r.Chunk? ==> received == old(received)
      ensures Due() == old(Due())
      ensures last == match r
                      case Chunk(_) => Moved
                      case Wait => Waited
                      case End => Over(Closed)
                      case Failed => Over(Broke)
    {
      hide Flow;
      last := Waited;
      if arrivals == [] { return Wait; }
      r := arrivals[0];
      arrivals := arrivals[1..];
      assert old(arrivals) == [r] + arrivals;
      FlowPut(r, arrivals);
      if r.Wait? { return; }
      last := Over(if r.End? then Closed else Broke);
      if !r.Chunk? { return; }
      last := Waited;
      if r.data == [] { return Wait; }
      last := Moved;
      if |r.data| > max {
        FlowPut(Chunk(r.data[max..]), arrivals);
        assert r.data == r.data[..max] + r.data[max..];
        arrivals := [Chunk(r.data[max..])] + arrivals;
        r := Chunk(r.data[..max]);
      }
      received := received + r.data;
    }

    method Write(data: bytes) returns (r: Outgoing)
      requires data != []
      modifies this
      ensures received == old(received)
      ensures r.Took? ==> 0 < r.n <= |data| && sent == old(sent) + data[..r.n]
      ensures !r.Took? ==> sent == old(sent)
      ensures Due() == old(Due())
      ensures last == match r
                      case Took(_) => Moved
                      case Later => Waited
                      case Refused => Over(TookNothing)
                      case Broken => Over(Broke)
    {
      last := Waited;
      if takings == [] { return Later; }
      r := takings[0];
      takings := takings[1..];
      if r.Later? { return; }
      last := Over(if r.Broken? then Broke else TookNothing);
      if !r.Took? { return; }
      if r.n == 0 { return Refused; }
      last := Moved;
      r := Took(if r.n > |data| then |data| else r.n);
      sent := sent + data[..r.n];
    }
  }

  function Frames(bodies: seq<bytes>): bytes {
    if bodies == [] then [] else Frames(bodies[..|bodies| - 1]) + PutU32(|bodies[|bodies| - 1]|) + bodies[|bodies| - 1]
  }

  lemma OneFrameMore(bodies: seq<bytes>, b: bytes)
    ensures Frames(bodies + [b]) == Frames(bodies) + PutU32(|b|) + b
  {
    assert (bodies + [b])[..|bodies|] == bodies;
  }

  /** What one turn comes to: on to the next stage, wait for readiness, or close. */
  datatype Turn = Go | Hold | Drop

  function Room(used: nat, remaining: nat): nat {
    var left := if used <= MAX_IO then MAX_IO - used else 0;
    if remaining <= left then remaining else left
  }

  /** It is the most that keeps to both limits. */
  lemma RoomIs(used: nat, remaining: nat, n: nat)
    ensures n <= Room(used, remaining) <==> n <= remaining && (n == 0 || used + n <= MAX_IO)
  {
  }

  /** A body of this length is taken in: a length allowed, and room for what is reserved for it
      with what its instance has left and with all that is taken. */
  ghost predicate TakenIn(alloc: Alloc, taken: nat, left: nat, n: nat) {
    2 <= n <= MAX_FRAME && alloc(n).Some? && alloc(n).value <= left && taken + alloc(n).value <= MAX_IO
  }

  /** Whether a peer has nothing in hand, and when it is to be done with what it has. */
  datatype Clock = Clock(idle: bool, deadline: Option<int>)

  /** A turn that kept the peer: it was not late, and with the first byte of a frame its time
      begins, which the last byte of the answer ends. */
  predicate Kept(was: Clock, now: int, next: Clock) {
    && (was.deadline.Some? ==> now < was.deadline.value)
    && next.deadline == if next.idle then None else if was.idle then Some(now + TIMEOUT) else was.deadline
  }

  /** Whatever happens in between, a peer is not kept for the whole timeout over one frame and its
      answer: at a turn at `times[i]` the frame began, and at no later turn before the answer's end
      had that time passed. */
  lemma {:induction false} NeverLong(clocks: seq<Clock>, times: seq<int>, i: nat, j: nat)
    requires |clocks| == |times| + 1 && forall k :: 0 <= k < |times| ==> Kept(clocks[k], times[k], clocks[k + 1])
    requires i < j < |times| && clocks[i].idle && forall k :: i < k <= j ==> !clocks[k].idle
    ensures clocks[j].deadline == Some(times[i] + TIMEOUT) && times[j] < times[i] + TIMEOUT
    decreases j - i
  {
    assert Kept(clocks[j - 1], times[j - 1], clocks[j]) && Kept(clocks[j], times[j], clocks[j + 1]);
    if j - 1 > i { NeverLong(clocks, times, i, j - 1); }
  }

  /** When a request was carried out: the broker before and after, and the room there was for
      an answer. */
  datatype Service = Service(limits: Limits, state: Snapshot, total: nat, origins: map<u64, Origin>, limit: nat,
                             after: Snapshot)

  /** The broker was left as the request leaves it, or with no room at all as it was. */
  ghost predicate ServiceOf(chars: Chars, instance: u64, at: Service, body: bytes) {
    && Well(at.limits, chars.control, at.state, at.total, at.origins)
    && at.after == if at.limit < 6 then at.state
                   else Served(chars, at.limits, at.state, at.total, instance, body, at.limit).0
  }

  /** This is the answer to the body, from the broker as it was. */
  ghost predicate AnswerOf(chars: Chars, instance: u64, at: Service, body: bytes, answer: bytes) {
    at.limit >= 6 && answer == Served(chars, at.limits, at.state, at.total, instance, body, at.limit).1
  }

  /** There was no room for the answer, or only less than it takes. */
  ghost predicate Unanswered(chars: Chars, alloc: Alloc, instance: u64, at: Service, body: bytes) {
    at.limit >= 6 ==>
      var size := |Served(chars, at.limits, at.state, at.total, instance, body, at.limit).1| + 4;
      size > at.limit || alloc(size).None? || alloc(size).value > at.limit
  }

  lemma IsUnanswered(chars: Chars, alloc: Alloc, instance: u64, at: Service, body: bytes)
    requires at.limit >= 6 ==>
               Framed(alloc, Served(chars, at.limits, at.state, at.total, instance, body, at.limit).1, at.limit).data ==
                 []
    ensures Unanswered(chars, alloc, instance, at, body)
  {
    hide Served, LE;
  }

  /** Of each request there is a record of when it was carried out, and each answer is the
      answer to its request from the broker as it was then. */
  ghost predicate Accounted(chars: Chars, instance: u64, log: seq<Service>, served: seq<bytes>, replies: seq<bytes>) {
    && |log| == |served| && |replies| <= |served| && Short32(served) && Short32(replies)
    && (forall i :: 0 <= i < |log| ==> ServiceOf(chars, instance, log[i], served[i]))
    && forall i :: 0 <= i < |replies| ==> AnswerOf(chars, instance, log[i], served[i], replies[i])
  }

  lemma AccountedMore(chars: Chars, instance: u64, log: seq<Service>, served: seq<bytes>, replies: seq<bytes>,
                      at: Service, body: bytes, answer: bytes)
    requires Accounted(chars, instance, log, served, replies) && |body| < TWO_32 && ServiceOf(chars, instance, at, body)
    ensures Accounted(chars, instance, log + [at], served + [body], replies)
    ensures |replies| == |served| && |answer| < TWO_32 && AnswerOf(chars, instance, at, body, answer) ==>
              Accounted(chars, instance, log + [at], served + [body], replies + [answer])
  {
    hide AnswerOf, ServiceOf;
  }

  /** Nothing was carried out; or this one request was, and its answer is the next or was not
      begun. */
  ghost predicate CarriedAt(chars: Chars, instance: u64, at: Service, served: seq<bytes>, served': seq<bytes>,
                            replies: seq<bytes>, replies': seq<bytes>, log: seq<Service>, log': seq<Service>)
  {
    if served' == served then at.after == at.state && replies' == replies && log' == log
    else
      && |served'| == |served| + 1 && served'[..|served|] == served && log' == log + [at]
      && if at.limit < 6 then at.after == at.state && replies' == replies
         else
           var (s, body) := Served(chars, at.limits, at.state, at.total, instance, served'[|served|], at.limit);
           at.after == s && (replies' == replies || replies' == replies + [body])
  }

  lemma NotCarried(chars: Chars, instance: u64, at: Service, served: seq<bytes>, replies: seq<bytes>, log: seq<Service>)
    requires at.after == at.state
    ensures CarriedAt(chars, instance, at, served, served, replies, replies, log, log)
  {
  }

  lemma IsService(chars: Chars, instance: u64, at: Service, body: bytes, answer: bytes)
    requires Well(at.limits, chars.control, at.state, at.total, at.origins)
    requires var (s, a) := Served(chars, at.limits, at.state, at.total, instance, body, at.limit);
             answer == a && at.after == if at.limit < 6 then at.state else s
    ensures ServiceOf(chars, instance, at, body) && (at.limit >= 6 ==> AnswerOf(chars, instance, at, body, answer))
  {
    hide Well, Served;
  }

  class Peer {
    const stream: Stream
    const instance: u64
    const chars: Chars
    const alloc: Alloc
    var header: bytes
    var head: nat
    var input: Buffer
    var read: nat
    var output: Buffer
    var written: nat
    var deadline: Option<int>
    ghost var served: seq<bytes>
    ghost var replies: seq<bytes>
    ghost var log: seq<Service>
    /** How many turns it had. */
    ghost var turns: nat
    /** Whether its last turn ended it. */
    ghost var out: bool
    /** What all the buffers came to at its last turn, and what its instance might yet reserve. */
    ghost var taken: nat
    ghost var spare: nat

    function Buffered(): nat
      reads this
    {
      input.capacity + output.capacity
    }

    /** The stages of a turn, and what the buffers hold in each. */
    ghost predicate Shaped()
      reads `header, `head, `input, `read, `output, `written
    {
      && |header| == 4 && head <= 4 && Reserves(alloc)
      && |input.data| <= input.capacity && |output.data| <= output.capacity
      && (output.data != [] ==> head == 4 && input == EMPTY_BUFFER && written < |output.data|)
      && (output.data == [] ==>
            && output == EMPTY_BUFFER && written == 0 && read <= |input.data|
            && (head < 4 ==> input == EMPTY_BUFFER && read == 0)
            && (head == 4 ==> 2 <= |input.data| && FromLE(header) == |input.data|))
    }

    /** Of what was received, the frames carried out and the one being read; of what is to
        be sent, what was sent and what is left of the last answer. */
    ghost predicate Wired()
      requires Shaped()
      reads `header, `head, `input, `read, `output, `written, `served, `replies, stream`received, stream`sent
    {
      && stream.received == Frames(served) + (if output.data != [] then [] else header[..head] + input.data[..read])
      && stream.sent + output.data[written..] == Frames(replies)
      && |served| == |replies|
    }

    /** There is a deadline just while a frame or its answer is in hand. */
    ghost predicate Timed()
      reads `head, `output, `deadline
    {
      deadline.Some? <==> head > 0 || output.data != []
    }

    /** Nothing of a frame is in hand. */
    ghost predicate Idle()
      reads `head
    {
      head == 0
    }

    ghost function Time(): Clock
      reads `head, `deadline
    {
      Clock(Idle(), deadline)
    }

    /** Each answer is the answer to its request. */
    ghost predicate Logged()
      reads `log, `served, `replies
    {
      Accounted(chars, instance, log, served, replies)
    }

    ghost predicate Valid()
      reads `header, `head, `input, `read, `output, `written, `served, `replies, `log, `deadline,
        stream`received, stream`sent
    {
      Shaped() && Wired() && Logged() && Timed()
    }

    /** However it ended: what was carried out are frames received, and in order; what was
        sent is of the answers, and in order; and each answer is that of its request. */
    ghost predicate InOrder()
      reads `served, `replies, `log, stream`received, stream`sent
    {
      Frames(served) <= stream.received && stream.sent <= Frames(replies) && |replies| <= |served| && Logged()
    }

    constructor (stream: Stream, instance: u64, chars: Chars, alloc: Alloc)
      requires stream.received == [] && stream.sent == [] && Reserves(alloc)
      ensures Valid() && this.stream == stream && this.instance == instance && this.chars == chars
              && this.alloc == alloc
      ensures Buffered() == 0 && served == replies == [] && log == [] && turns == 0 && !out
      ensures Time() == Clock(true, None) && !FrameRefused() && !AnswerRefused()
    {
      this.stream, this.instance, this.chars, this.alloc := stream, instance, chars, alloc;
      header, head, input, read := [0, 0, 0, 0], 0, EMPTY_BUFFER, 0;
      output, written, deadline := EMPTY_BUFFER, 0, None;
      served, replies, log, turns, out, taken, spare := [], [], [], 0, false, 0, 0;
    }

    lemma WiredInOrder()
      requires Valid()
      ensures InOrder()
    {
    }

    /** Bytes moved, or the stream was not ready; nothing is lost. */
    twostate predicate Moving(turn: Turn)
      reads stream
    {
      && stream.Due() == old(stream.Due()) && old(stream.sent) <= stream.sent
      && stream.Passed() >= old(stream.Passed())
      && (turn != Drop ==> stream.Passed() > old(stream.Passed()) || stream.last == Waited)
    }

    /** A peer is idle just when all that was received are whole frames carried out and every
        answer is sent, and just then it has no deadline. */
    lemma IdleIs()
      requires Valid()
      ensures Idle() <==> stream.received == Frames(served) && stream.sent == Frames(replies)
      ensures Idle() <==> deadline.None?
    {
      hide Frames, Accounted;
      assert header[..0] + input.data[..0] == [] && Frames(served) + [] == Frames(served);
      assert stream.sent + [] == stream.sent;
    }

    /** A length was read and nothing of its body, for which there was no room or which is not
        allowed. */
    ghost predicate FrameRefused()
      reads `header, `served, `taken, `spare, stream`received
    {
      && |header| == 4 && stream.received == Frames(served) + header
      && !TakenIn(alloc, taken, spare, FromLE(header))
    }

    /** The last request was carried out and there was no room for its answer. */
    ghost predicate AnswerRefused()
      reads `served, `replies, `log
    {
      && |served| == |log| == |replies| + 1
      && Unanswered(chars, alloc, instance, log[|log| - 1], served[|served| - 1])
    }

    /** The stream is over, or there was no room for a frame or for its answer. */
    ghost predicate Spent()
      reads this, stream
    {
      stream.last.Over? || FrameRefused() || AnswerRefused()
    }

    /** How the deadline goes with the bytes in hand: none without, from the first on the same. */
    twostate predicate Clocked(now: int)
      reads `head, `deadline
    {
      deadline == if Idle() then None else if old(Idle()) then Some(now + TIMEOUT) else old(deadline)
    }

    /** The bytes of the length, as they come. */
    method ReadHeader(now: int) returns (turn: Turn)
      requires Valid() && output.data == [] && head < 4
      modifies this`header, this`head, this`deadline, stream
      ensures |header| == 4 && InOrder()
      ensures turn == Hold ==> Valid()
      ensures turn == Hold ==> head < 4
      ensures Moving(turn) && (turn == Drop <==> stream.last.Over?) && Clocked(now)
      ensures turn == Go ==> head == 4 && stream.received == Frames(served) + header && stream.sent == Frames(replies)
                             && |served| == |replies|
    {
      hide Frames, Flow, Reserves, FromLE, Accounted, Shaped, Wired, InOrder;
      HeadingAt();
      var got := stream.Read(4 - head);
      if got.Chunk? {
        if deadline.None? { deadline := Some(now + TIMEOUT); }
        HeaderGrows(header, head, got.data);
        assert Frames(served) + header[..head] + got.data == Frames(served) + (header[..head] + got.data);
        header := header[..head] + got.data + header[head + |got.data|..];
        head := head + |got.data|;
      }
      HeadingHolds();
      turn := if got.End? || got.Failed? then Drop else if head < 4 then Hold else Go;
    }

    /** The length is being read: of what was received, the frames carried out and the bytes of
        it so far; and every answer is sent. */
    ghost predicate Heading()
      reads `header, `head, `input, `read, `output, `written, `served, `replies, `log, `deadline,
        stream`received, stream`sent
    {
      && |header| == 4 && head <= 4 && Reserves(alloc)
      && input == output == EMPTY_BUFFER && read == written == 0
      && stream.received == Frames(served) + header[..head] && stream.sent == Frames(replies)
      && |served| == |replies| && Logged() && Timed()
    }

    lemma HeadingAt()
      requires Valid() && output.data == [] && head < 4
      ensures Heading()
    {
      hide Frames, Accounted;
      assert header[..head] + input.data[..read] == header[..head];
      assert stream.sent + output.data[written..] == stream.sent;
    }

    lemma HeadingHolds()
      requires Heading()
      ensures InOrder() && (head < 4 ==> Valid())
      ensures head == 4 ==> stream.received == Frames(served) + header
    {
      hide Frames, Accounted;
      assert header[..head] + input.data[..read] == header[..head];
      assert stream.sent + output.data[written..] == stream.sent;
      assert header[..4] == header;
    }

    /** Room for the body, of this instance's and of all. */
    method Reserve(used: nat, remaining: nat) returns (ok: bool, used': nat, remaining': nat)
      requires |header| == 4 && head == 4 && read == 0 && input == output == EMPTY_BUFFER && written == 0
      requires Reserves(alloc) && Logged() && Timed()
      requires stream.received == Frames(served) + header && stream.sent == Frames(replies) && |served| == |replies|
      modifies this`input
      ensures ok ==> Valid() && read < |input.data| && remaining' + input.capacity == remaining
      ensures !ok ==> input == EMPTY_BUFFER && used' == used && InOrder()
      ensures ok <==> TakenIn(alloc, used, remaining, FromLE(header))
      ensures ok ==> input.capacity == alloc(FromLE(header)).value
      ensures used' == used + input.capacity && input.capacity <= remaining && remaining' <= remaining
      ensures used <= MAX_IO ==> used' <= MAX_IO
    {
      hide Frames, Flow, FromLE, Accounted;
      used', remaining' := used, remaining;
      var length := HeaderLength(header);
      var available := Room(used, remaining);
      if !(2 <= length <= MAX_FRAME) || length > available { return false, used', remaining'; }
      var reserved := alloc(length);
      if reserved.None? || reserved.value > available { return false, used', remaining'; }
      Holds(alloc, length);
      input := Buffer(seq(length, i => 0), reserved.value);
      used', remaining' := used + reserved.value, remaining - reserved.value;
      assert header[..head] + input.data[..read] == header;
      ok := true;
    }

    /** At most a quantum of the body. */
    method ReadBody() returns (turn: Turn)
      requires Valid() && output.data == [] && head == 4 && read < |input.data|
      modifies this`input, this`read, stream
      ensures input.capacity == old(input.capacity) && |input.data| == |old(input.data)| && InOrder()
      ensures turn != Drop ==> Valid()
      ensures turn == Go ==> read == |input.data|
      ensures turn == Hold ==> read < |input.data|
      ensures Moving(turn) && (turn == Drop <==> stream.last.Over?)
    {
      hide Frames, Flow, Reserves, FromLE, Accounted;
      WiredInOrder();
      var end := if |input.data| <= read + QUANTUM then |input.data| else read + QUANTUM;
      var got := stream.Read(end - read);
      if got.End? || got.Failed? { return Drop; }
      if got.Wait? { return Hold; }
      BodyGrows(input.data, read, got.data);
      ghost var was := input.data[..read];
      input := input.(data := input.data[..read] + got.data + input.data[read + |got.data|..]);
      read := read + |got.data|;
      assert Frames(served) + (header[..head] + was) + got.data == Frames(served) + (header[..head] + (was + got.data));
      turn := if read < |input.data| then Hold else Go;
    }

    /** The whole request carried out, its buffer released, its answer begun. */
    method Serve(broker: Broker, used: nat, remaining: nat) returns (ok: bool, used': nat, ghost limit: nat)
      requires Valid() && output.data == [] && head == 4 && read == |input.data| && used >= input.capacity
      requires broker.Valid() && broker.control == chars.control
      modifies this`input, this`output, this`served, this`replies, this`log, broker
      ensures broker.Valid() && broker.Grown()
      ensures served == old(served) + [old(input.data)]
      ensures limit == Room(used, remaining)
      ensures log == old(log) + [Service(broker.limits, old(broker.State()), old(broker.bytes), old(broker.origins),
                                         limit, broker.State())]
      ensures limit < 6 ==> broker.State() == old(broker.State())
      ensures limit >= 6 ==>
                var (s, body) := old(Served(chars, broker.limits, broker.State(), broker.bytes, instance, input.data,
                                            limit));
                broker.State() == s && output == Framed(alloc, body, limit)
      ensures ok ==> Valid() && output.data != [] && limit >= 6
      ensures ok ==> replies == old(replies) +
                     [old(Served(chars, broker.limits, broker.State(), broker.bytes, instance, input.data, limit)).1]
      ensures !ok ==> Buffered() == 0 && InOrder() && replies == old(replies) && AnswerRefused()
      ensures used' + old(input.capacity) == used + output.capacity && output.capacity <= remaining
              && input.capacity == 0
      ensures used <= MAX_IO ==> used' <= MAX_IO
    {
      hide Frames, Flow, Reserves, FromLE, Served, Well, Advances, Framed, Accounted, AnswerOf, ServiceOf,
        Unanswered;
      limit := Room(used, remaining);
      WiredInOrder();
      ghost var total, origins := broker.bytes, broker.origins;
      ghost var state := broker.State();
      ghost var body := Served(chars, broker.limits, broker.State(), broker.bytes, instance, input.data, limit).1;
      FramedFits(alloc, body, limit);
      assert |input.data| < TWO_32 by { assert HeaderLength(header) == |input.data|; }
      output := Dispatch(broker, chars, alloc, instance, input.data, Room(used, remaining));
      ghost var at := Service(broker.limits, state, total, origins, limit, broker.State());
      IsService(chars, instance, at, input.data, body);
      AccountedMore(chars, instance, log, served, replies, at, input.data, body);
      used' := used + output.capacity - input.capacity;
      CarriedOut(served, stream.received, header, input.data);
      OneFrameMore(replies, body);
      served, log := served + [input.data], log + [at];
      input := EMPTY_BUFFER;
      if output.data == [] {
        IsUnanswered(chars, alloc, instance, at, old(input.data));
        ShortBoth(this);
        return false, used', limit;
      }
      replies := replies + [body];
      FramedIs(alloc, body, limit);
      assert stream.sent + (PutU32(|body|) + body) == stream.sent + PutU32(|body|) + body;
      assert stream.sent + [] == stream.sent && Frames(served) + [] == Frames(served);
      assert output.data[0..] == output.data;
      ok := true;
    }

    /** An answer is being written: the requests were carried out, and of the answers there is yet
        to send the rest of this one. */
    ghost predicate Writing()
      reads `header, `head, `input, `read, `output, `written, `served, `replies, `log, `deadline,
        stream`received, stream`sent
    {
      && |header| == head == 4 && Reserves(alloc) && input == EMPTY_BUFFER
      && written < |output.data| <= output.capacity
      && stream.received == Frames(served) && stream.sent + output.data[written..] == Frames(replies)
      && |served| == |replies| && Logged() && deadline.Some?
    }

    lemma WritingAt()
      requires Valid() && output.data != []
      ensures Writing()
    {
      hide Frames, Accounted;
      assert Frames(served) + [] == Frames(served);
    }

    lemma WritingHolds()
      requires Writing()
      ensures Valid() && InOrder()
    {
      hide Frames, Accounted;
      assert Frames(served) + [] == Frames(served);
    }

    /** At most a quantum of the answer; after the last of it, ready for another frame. */
    method WriteOut(used: nat) returns (alive: bool, used': nat)
      requires Valid() && output.data != [] && used >= output.capacity
      modifies this`output, this`written, this`head, this`read, this`deadline, stream
      ensures alive ==> Valid()
      ensures InOrder()
      ensures used' + old(Buffered()) == used + Buffered() && used' <= used && Buffered() <= old(Buffered())
      ensures Moving(if alive then Hold else Drop) && (!alive <==> stream.last.Over?)
      ensures alive && output.data == [] ==> head < 4
      ensures head == (if output.data == [] then 0 else 4)
      ensures deadline == if output.data == [] then None else old(deadline)
    {
      hide Frames, Flow, Reserves, FromLE, Accounted, InOrder, Valid;
      WritingAt();
      used' := used;
      var end := if |output.data| <= written + QUANTUM then |output.data| else written + QUANTUM;
      var part := output.data[written..end];
      var put := stream.Write(part);
      if put.Refused? || put.Broken? || put.Later? {
        WritingHolds();
        return put.Later?, used';
      }
      TailTaken(output.data, written, end, put.n);
      assert old(stream.sent) + (part[..put.n] + output.data[written + put.n..]) ==
             stream.sent + output.data[written + put.n..];
      written := written + put.n;
      alive := true;
      if written == |output.data| {
        assert stream.sent + output.data[written..] == stream.sent;
        assert stream.received == Frames(served) + header[..0];
        used' := used - output.capacity;
        output := EMPTY_BUFFER;
        head, read, written, deadline := 0, 0, 0, None;
        HeadingHolds();
      } else {
        WritingHolds();
      }
    }

    /** At most one request was carried out, in the room it had, and nothing else was done to
        the broker; its answer is the next unless the peer is closed for want of room. */
    twostate predicate Carried(broker: Broker, limit: nat)
      reads this, broker
    {
      var at := Service(broker.limits, old(broker.State()), old(broker.bytes), old(broker.origins), limit,
                        broker.State());
      CarriedAt(chars, instance, at, old(served), served, old(replies), replies, old(log), log)
    }

    /** What was reserved for a body of this length in the turn in which its frame's length was
        read whole. */
    function NewlyTaken(head: nat, length: nat): nat {
      if head == 4 || alloc(length).None? then 0 else alloc(length).value
    }

    /** A request carried out had all the room for its answer that there was besides its own. */
    twostate predicate InRoom(used: nat, remaining: nat, limit: nat)
      reads `head, `served
    {
      |served| > |old(served)| ==>
        var c := NewlyTaken(old(head), |served[|served| - 1]|);
        c <= remaining && limit == Room(used + c, remaining - c)
    }

    /** The next frame, as far as it came. */
    method ReadFrame(used: nat, remaining: nat, now: int) returns (turn: Turn, used': nat, left: nat)
      requires Valid() && output.data == [] && used >= Buffered()
      modifies this`header, this`head, this`input, this`read, this`deadline, stream
      ensures InOrder()
      ensures turn != Drop ==> Valid()
      ensures turn == Go ==> head == 4 && read == |input.data|
      ensures turn == Hold ==> head < 4 || read < |input.data|
      ensures turn != Go ==> Moving(turn)
      ensures turn == Drop ==> stream.last.Over? || (taken == used && spare == remaining ==> FrameRefused())
      ensures turn == Hold ==> !stream.last.Over?
      ensures turn == Go ==> used' == used + NewlyTaken(old(head), |input.data|)
                             && left + NewlyTaken(old(head), |input.data|) == remaining
      ensures Clocked(now)
      ensures stream.Passed() >= old(stream.Passed()) && stream.Due() == old(stream.Due())
      ensures stream.sent == old(stream.sent)
      ensures used' + old(Buffered()) == used + Buffered() && (used <= MAX_IO ==> used' <= MAX_IO)
      ensures Buffered() <= old(Buffered()) + remaining && left <= remaining
    {
      hide Frames, Flow, Reserves, FromLE, Accounted;
      WiredInOrder();
      used', left := used, remaining;
      if head < 4 {
        turn := ReadHeader(now);
        if turn != Go { return; }
        var ok;
        ok, used', left := Reserve(used', left);
        if !ok { return Drop, used', left; }
      }
      turn := Go;
      if read < |input.data| { turn := ReadBody(); }
    }

    /** The turn of a peer in time: it moves bytes unless the stream is not ready, and leaves
        no whole request waiting. */
    method Work(broker: Broker, used: nat, remaining: nat, now: int) returns (alive: bool, used': nat, ghost limit: nat)
      requires Valid() && used >= Buffered() && broker.Valid() && broker.control == chars.control
      modifies this`header, this`head, this`input, this`read, this`output, this`written, this`deadline
      modifies this`served, this`replies, this`log, stream, broker
      ensures broker.Valid() && broker.Grown() && Carried(broker, limit)
      ensures (alive ==> Valid()) && InOrder()
      ensures used' + old(Buffered()) == used + Buffered() && (used <= MAX_IO ==> used' <= MAX_IO)
      ensures Buffered() <= old(Buffered()) + remaining
      ensures Moving(if alive then Hold else Drop) && (alive ==> !stream.last.Over?)
      ensures !alive && taken == used && spare == remaining ==> Spent()
      ensures alive && output.data == [] ==> head < 4 || read < |input.data|
      ensures (Clocked(now) || !alive) && InRoom(used, remaining, limit)
    {
      hide Frames, Flow, Reserves, FromLE, Served, Well, Advances, Framed, Accounted, Wired, InOrder, FrameRefused,
        AnswerRefused, Broker.Valid;
      SameAdvances(broker.State());
      WiredInOrder();
      used', limit := used, 0;
      if output.data == [] {
        var turn, left;
        turn, used', left := ReadFrame(used', remaining, now);
        if turn != Go { return turn == Hold, used', limit; }
        var ok;
        ok, used', limit := Serve(broker, used', left);
        if !ok { return false, used', limit; }
      }
      alive, used' := WriteOut(used');
    }

    /** One turn: false when the peer is to be closed; nothing is done after the deadline. */
    method Step(broker: Broker, used: nat, remaining: nat, now: int) returns (alive: bool, used': nat, ghost limit: nat)
      requires Valid() && used >= Buffered() && broker.Valid() && broker.control == chars.control
      modifies this, stream, broker
      ensures broker.Valid() && broker.Grown() && Carried(broker, limit)
      ensures (alive ==> Valid()) && InOrder()
      ensures used' + old(Buffered()) == used + Buffered() && (used <= MAX_IO ==> used' <= MAX_IO)
      ensures Buffered() <= old(Buffered()) + remaining
      ensures turns == old(turns) + 1 && out == !alive
      ensures Moving(if alive then Hold else Drop)
      ensures alive && output.data == [] ==> head < 4 || read < |input.data|
      ensures Late(old(deadline), now) ==> out && served == old(served) && unchanged(stream)
      ensures taken == used && spare == remaining && InRoom(used, remaining, limit)
      ensures out ==> Late(old(deadline), now) || Spent()
      ensures !out ==> !stream.last.Over? && Kept(old(Time()), now, Time())
      ensures old(Idle()) && out ==> Spent()
    {
      hide Frames, Flow, Reserves, FromLE, Served, Well, Advances, Accounted, Shaped, Wired, InOrder, FrameRefused,
        AnswerRefused, CarriedAt;
      IdleIs();
      turns, taken, spare := turns + 1, used, remaining;
      if deadline.Some? && now >= deadline.value {
        SameAdvances(broker.State());
        WiredInOrder();
        ghost var state := broker.State();
        NotCarried(chars, instance, Service(broker.limits, state, broker.bytes, broker.origins, 0, state), served,
                   replies, log);
        out := true;
        return false, used, 0;
      }
      alive, used', limit := Work(broker, used, remaining, now);
      out := !alive;
    }
  }

  predicate Late(deadline: Option<int>, now: int) {
    deadline.Some? && now >= deadline.value
  }

  function HeaderLength(header: bytes): (n: nat)
    requires |header| == 4
    ensures n == FromLE(header) < TWO_32
  {
    Pow256Values();
    FromLE(header)
  }

  lemma Holds(alloc: Alloc, n: nat)
    requires Reserves(alloc) && alloc(n).Some?
    ensures alloc(n).value >= n
  {
  }

  lemma HeaderGrows(header: bytes, head: nat, data: bytes)
    requires |header| == 4 && head + |data| <= 4
    ensures var h := header[..head] + data + header[head + |data|..];
            |h| == 4 && h[..head + |data|] == header[..head] + data
  {
  }

  lemma BodyGrows(data: bytes, read: nat, more: bytes)
    requires read + |more| <= |data|
    ensures var d := data[..read] + more + data[read + |more|..];
            |d| == |data| && d[..read + |more|] == data[..read] + more
  {
  }

  lemma CarriedOut(served: seq<bytes>, received: bytes, header: bytes, body: bytes)
    requires |header| == 4 && FromLE(header) == |body| && received == Frames(served) + (header[..4] + body[..|body|])
    ensures received == Frames(served + [body])
  {
    hide Frames, LE, FromLE;
    HeaderIs(header, |body|);
    OneFrameMore(served, body);
    assert header[..4] + body[..|body|] == PutU32(|body|) + body;
    assert Frames(served) + (PutU32(|body|) + body) == Frames(served) + PutU32(|body|) + body;
  }

  lemma HeaderIs(header: bytes, n: nat)
    requires |header| == 4 && FromLE(header) == n
    ensures header == PutU32(n)
  {
    Pow256Values();
    U32Unique(header, n);
  }

  ghost predicate Fits(b: Buffer, limit: nat) {
    b == EMPTY_BUFFER || (b.data != [] && |b.data| <= b.capacity <= limit)
  }

  lemma FramedIs(alloc: Alloc, body: bytes, limit: nat)
    requires Framed(alloc, body, limit).data != []
    ensures Framed(alloc, body, limit).data == PutU32(|body|) + body && |body| + 4 <= limit
  {
    hide LE;
  }

  /** An answer is nothing, or is not empty and fits its buffer and its room. */
  lemma FramedFits(alloc: Alloc, body: bytes, limit: nat)
    requires Reserves(alloc)
    ensures Fits(Framed(alloc, body, limit), limit)
  {
    hide LE;
  }

  lemma TailTaken(data: bytes, from: nat, end: nat, n: nat)
    requires from + n <= end <= |data|
    ensures data[from..] == data[from..end][..n] + data[from + n..]
  {
  }

  // ---- Any chunking ----

  lemma Grouped(a: bytes, b: bytes, c: bytes, d: bytes)
    ensures a + b + c + d == a + (b + c + d)
  {
  }

  lemma {:induction false} FramesCons(bodies: seq<bytes>)
    requires bodies != []
    ensures Frames(bodies) == PutU32(|bodies[0]|) + bodies[0] + Frames(bodies[1..])
  {
    hide *;
    var most, last := bodies[..|bodies| - 1], bodies[|bodies| - 1];
    OneFrameMore(most, last);
    if most == [] {
      NoFrames();
      assert bodies == [] + [last] && bodies[1..] == [];
      Grouped([], [], PutU32(|last|), last);
    } else {
      FramesCons(most);
      OneFrameMore(most[1..], last);
      assert bodies == most + [last] && bodies[1..] == most[1..] + [last];
      Grouped(PutU32(|bodies[0]|) + bodies[0], Frames(most[1..]), PutU32(|last|), last);
    }
  }

  ghost predicate Short32(bodies: seq<bytes>) {
    forall k :: 0 <= k < |bodies| ==> |bodies[k]| < TWO_32
  }

  /** Frames of a part are the first frames: however the bytes came, what was carried out
      are the first bodies sent, each whole. */
  lemma {:induction false} FramesPrefix(served: seq<bytes>, asked: seq<bytes>)
    requires Short32(served) && Short32(asked) && Frames(served) <= Frames(asked)
    ensures served <= asked
  {
    hide Frames, LE;
    if served != [] {
      FramesCons(served);
      NoFrames();
      assert asked != [];
      FramesCons(asked);
      var x, y := Frames(served), Frames(asked);
      FirstFrame(x, y, served[0], Frames(served[1..]), asked[0], Frames(asked[1..]));
      FramesPrefix(served[1..], asked[1..]);
      assert served == [served[0]] + served[1..] && asked == [asked[0]] + asked[1..];
    }
  }

  lemma NoFrames()
    ensures Frames([]) == []
  {
  }

  lemma FirstFrame(x: bytes, y: bytes, a: bytes, after: bytes, b: bytes, bs: bytes)
    requires x <= y && x == PutU32(|a|) + a + after && y == PutU32(|b|) + b + bs && |a| < TWO_32 && |b| < TWO_32
    ensures a == b && after <= bs
  {
    hide LE;
    U32RoundTrip(|a|);
    U32RoundTrip(|b|);
    assert x[..4] == PutU32(|a|) && y[..4] == PutU32(|b|) && x[..4] == y[..4];
    assert x[4..4 + |a|] == a && y[4..4 + |b|] == b && x[4..4 + |a|] == y[4..4 + |a|];
    assert x[4 + |a|..] == after && y[4 + |b|..] == bs;
    assert y[4 + |a|..][..|after|] == x[4 + |a|..];
  }

  /** A stream between a client and this peer that loses and reorders nothing: the bodies
      carried out are the first of those asked, and the answers read whole at the other end
      are the first answers given, one to one. */
  lemma Exchange(peer: Peer, asked: seq<bytes>, answers: seq<bytes>)
    requires peer.InOrder() && Short32(asked) && Short32(answers)
    requires peer.stream.received <= Frames(asked)
    requires Frames(answers) <= peer.stream.sent
    ensures peer.served <= asked && answers <= peer.replies && |answers| <= |peer.log| == |peer.served|
    ensures forall k :: 0 <= k < |peer.log| ==> ServiceOf(peer.chars, peer.instance, peer.log[k], asked[k])
    ensures forall k :: 0 <= k < |answers| ==> AnswerOf(peer.chars, peer.instance, peer.log[k], asked[k], answers[k])
  {
    hide Frames, Accounted, AnswerOf, Short32;
    PrefixOn(Frames(peer.served), peer.stream.received, Frames(asked));
    PrefixOn(Frames(answers), peer.stream.sent, Frames(peer.replies));
    ShortBoth(peer);
    FramesPrefix(peer.served, asked);
    FramesPrefix(answers, peer.replies);
    FirstAnswered(peer.chars, peer.instance, peer.log, peer.served, peer.replies, asked, answers);
  }

  lemma PrefixOn(a: bytes, b: bytes, c: bytes)
    requires a <= b <= c
    ensures a <= c
  {
  }

  lemma ShortBoth(peer: Peer)
    requires peer.Logged()
    ensures Short32(peer.served) && Short32(peer.replies) && |peer.log| == |peer.served|
  {
    hide AnswerOf, ServiceOf;
  }

  lemma FirstAnswered(chars: Chars, instance: u64, log: seq<Service>, served: seq<bytes>, replies: seq<bytes>,
                      asked: seq<bytes>, answers: seq<bytes>)
    requires Accounted(chars, instance, log, served, replies) && served <= asked && answers <= replies
    ensures |answers| <= |log| <= |asked|
    ensures forall k :: 0 <= k < |log| ==> ServiceOf(chars, instance, log[k], asked[k])
    ensures forall k :: 0 <= k < |answers| ==> AnswerOf(chars, instance, log[k], asked[k], answers[k])
  {
    hide AnswerOf, ServiceOf;
  }
}
