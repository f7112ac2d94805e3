/** A client and its peer, end to end: any turns of either, the bytes between them carried in
    order but in any pieces and at any time, and others calling the broker in between. */
module Exchanges {
  import opened Wrappers
  import opened Codec
  import opened Brokers
  import opened Wire
  import opened Transports
  import opened Peers
  import opened Clients
  import opened BrokerRuns

  datatype Act =
    | Begin(sel: Selection, request: Request, now: int)
    | ClientTurn(now: int)
    | PeerTurn(others: nat, remaining: nat, now: int)
    | Carry(up: bool, n: nat)
    | Cut(up: bool, came: Incoming)
    | Take(up: bool, took: Outgoing)
    | Another(ask: Ask)

  /** What an act comes to. */
  datatype Outcome =
    | Began(refused: Option<Failure>)
    | Heard(told: Option<Result<Reply, Failure>>)
    | Turned(alive: bool)
    | Called(answer: Answer)
    | Quiet

  // ---- What was asked and told ----

  /** The requests begun, the bodies of the answers, and what they told. */
  datatype Talk = Talk(requests: seq<(Selection, Request)>, answers: seq<bytes>, told: seq<Reply>)

  function Bodies(requests: seq<(Selection, Request)>): (r: seq<bytes>)
    ensures |r| == |requests|
  {
    seq(|requests|, k requires 0 <= k < |requests| => RequestBody(requests[k].0, requests[k].1))
  }

  /** The answers, one to one, are of the first requests. */
  ghost predicate Matched(chars: Chars, talk: Talk) {
    && |talk.answers| == |talk.told| <= |talk.requests| && Short32(talk.answers)
    && (forall k :: 0 <= k < |talk.requests| ==> Sendable(chars, talk.requests[k].0, talk.requests[k].1))
    && forall k :: 0 <= k < |talk.told| ==>
                     Decoded(chars, Opcode(talk.requests[k].1), talk.answers[k]) == Some(talk.told[k])
  }

  /** Every request was answered. */
  ghost predicate Idle(talk: Talk, sent: bytes, received: bytes) {
    |talk.told| == |talk.requests| && sent == Frames(Bodies(talk.requests)) && received == Frames(talk.answers)
  }

  /** All but the last request were answered before it was begun. */
  ghost predicate Waiting(talk: Talk, before: bytes, output: bytes, got: bytes, opcode: byte) {
    && |talk.told| + 1 == |talk.requests| && got == Frames(talk.answers)
    && before + output == Frames(Bodies(talk.requests)) && opcode == Opcode(talk.requests[|talk.told|].1)
  }

  lemma BodiesAt(requests: seq<(Selection, Request)>, k: nat)
    requires k < |requests|
    ensures Bodies(requests)[k] == RequestBody(requests[k].0, requests[k].1)
  {
  }

  lemma BodiesMore(requests: seq<(Selection, Request)>, q: (Selection, Request))
    ensures Bodies(requests + [q]) == Bodies(requests) + [RequestBody(q.0, q.1)]
  {
    hide RequestBody;
  }

  lemma Begun(chars: Chars, talk: Talk, q: (Selection, Request), sent: bytes, received: bytes, output: bytes)
    requires Matched(chars, talk) && Idle(talk, sent, received) && Sendable(chars, q.0, q.1)
    requires output == PutU32(|RequestBody(q.0, q.1)|) + RequestBody(q.0, q.1)
    ensures var t := talk.(requests := talk.requests + [q]);
            Matched(chars, t) && Waiting(t, sent, output, received, Opcode(q.1))
    ensures sent <= Frames(Bodies(talk.requests + [q]))
  {
    hide Frames, Bodies, Sendable, Decoded, RequestBody, LE;
    var body := RequestBody(q.0, q.1);
    BodiesMore(talk.requests, q);
    OneFrameMore(Bodies(talk.requests), body);
    assert sent + (PutU32(|body|) + body) == sent + PutU32(|body|) + body;
  }

  lemma Ended(chars: Chars, talk: Talk, before: bytes, output: bytes, got: bytes, opcode: byte, body: bytes,
              reply: Reply)
    requires Matched(chars, talk) && Waiting(talk, before, output, got, opcode) && |body| < TWO_32
    requires Decoded(chars, opcode, body) == Some(reply)
    ensures var t := talk.(answers := talk.answers + [body], told := talk.told + [reply]);
            && Matched(chars, t) && Idle(t, before + output, got + (PutU32(|body|) + body))
            && Frames(t.answers) <= got + (PutU32(|body|) + body)
  {
    hide Frames, Bodies, Sendable, Decoded, LE;
    OneFrameMore(talk.answers, body);
    assert got + (PutU32(|body|) + body) == got + PutU32(|body|) + body;
  }

  lemma AfterHeader(before: bytes, body: bytes)
    ensures (before + (PutU32(|body|) + body))[|before|..][4..] == body
  {
    hide LE;
  }

  lemma AnswersPart(talk: Talk, before: bytes, output: bytes, got: bytes, opcode: byte)
    requires Waiting(talk, before, output, got, opcode)
    ensures |talk.told| < |talk.requests| && opcode == Opcode(talk.requests[|talk.told|].1)
    ensures Frames(talk.answers) == got && before + output == Frames(Bodies(talk.requests))
  {
  }

  lemma ShortBodies(chars: Chars, talk: Talk)
    requires Matched(chars, talk)
    ensures Short32(Bodies(talk.requests))
  {
    hide RequestBody, Decoded;
    forall k | 0 <= k < |talk.requests| ensures |Bodies(talk.requests)[k]| < TWO_32 {
      assert Sendable(chars, talk.requests[k].0, talk.requests[k].1);
    }
  }

  // ---- One act ----

  /** A stream as it is. */
  datatype Pipe = Pipe(arrivals: seq<Incoming>, takings: seq<Outgoing>, received: bytes, sent: bytes, last: Last)

  ghost function PipeOf(s: Stream): Pipe
    reads s
  {
    Pipe(s.arrivals, s.takings, s.received, s.sent, s.last)
  }

  /** Both ends as they are: the client's and the peer's stream, what either is at, when the peer
      carried out its requests and the answers it gave, whether it has nothing in hand or else
      until when, whether there was no room for a frame or an answer, the broker. */
  datatype Sight = Sight(closed: bool, deadline: Option<int>, talk: Talk, here: Pipe, there: Pipe, out: bool,
                         log: seq<Service>, replies: seq<bytes>, time: Clock, refused: bool, broker: Snapshot)

  /** Bytes moved: none lost, none made up. */
  ghost predicate Moves(p: Pipe, q: Pipe) {
    && p.received + Flow(p.arrivals) == q.received + Flow(q.arrivals)
    && p.sent <= q.sent && |p.received| + |p.sent| <= |q.received| + |q.sent|
  }

  ghost predicate NotReady(p: Pipe, q: Pipe) {
    q.last == Waited || |p.received| + |p.sent| < |q.received| + |q.sent|
  }

  /** A turn of the client: nothing without a request; past the deadline a timeout, and only
      then; told nothing only if the stream is not ready or a quantum moved; an end, a break or
      a refusal to take bytes told as what it was; and an answer is the next thing told. */
  ghost predicate Listens(chars: Chars, alloc: Alloc, s: Sight, now: int, r: Option<Result<Reply, Failure>>, t: Sight) {
    && t == s.(closed := t.closed, deadline := t.deadline, talk := t.talk, here := t.here)
    && t.talk.requests == s.talk.requests
    && t.talk.told == s.talk.told + (if r.Some? && r.value.Ok? then [r.value.value] else [])
    && (s.deadline.None? ==> r == None && t == s)
    && (s.deadline.Some? ==>
          && (now >= s.deadline.value <==> r == Some(Err(TimedOut)))
          && (now >= s.deadline.value ==> t.here == s.here)
          && (if r.None? then t.deadline == s.deadline else t.deadline == None)
          && t.closed == (s.closed || (r.Some? && r.value.Err?))
          && Moves(s.here, t.here)
          && |t.here.received| + |t.here.sent| <= |s.here.received| + |s.here.sent| + QUANTUM
          && (r.None? ==>
                || t.here.last == Waited
                || |t.here.received| + |t.here.sent| == |s.here.received| + |s.here.sent| + QUANTUM)
          && (r.Some? && r.value.Err? && r.value.error in {WriteZero, Eof, Io} ==>
                t.here.last.Over? && r.value.error == FailureOf(t.here.last.how))
          && |s.talk.told| < |s.talk.requests| && Frames(s.talk.answers) <= t.here.received
          && var got := t.here.received[|Frames(s.talk.answers)|..];
             && Verdict(chars, alloc, Opcode(s.talk.requests[|s.talk.told|].1), got, OneTurn(r))
             && t.talk.answers == s.talk.answers + if r.Some? && r.value.Ok? then [got[4..]] else [])
  }

  /** The peer's next answer, if it gave one, is to the request that waits, and reads as what the
      direct call came to. */
  ghost predicate NextIs(chars: Chars, instance: u64, s: Sight) {
    var k := |s.talk.told|;
    k < |s.replies| ==>
      && k < |s.talk.requests| && k < |s.log|
      && Frames(s.replies[..k + 1]) == Frames(s.talk.answers) + PutU32(|s.replies[k]|) + s.replies[k]
      && Decoded(chars, Opcode(s.talk.requests[k].1), s.replies[k]) ==
         Tellable(Directly(chars, instance, s.log[k], s.talk.requests[k]))
  }

  lemma MustHear(chars: Chars, alloc: Alloc, instance: u64, s: Sight, now: int, r: Option<Result<Reply, Failure>>,
                 t: Sight)
    requires Listens(chars, alloc, s, now, r, t)
    requires TextOnly(chars) && s.deadline.Some? ==> NextIs(chars, instance, s)
    ensures Hears(chars, alloc, instance, s, now, r, t)
  {
    hide Verdict, Takes, Frames, LE, Directly, TextOnly, Moves, Decoded, Tellable;
    var k := |s.talk.told|;
    if TextOnly(chars) && s.deadline.Some? && now < s.deadline.value && !t.here.last.Over?
       && k < |t.replies| && t.here.received == Frames(t.replies[..k + 1]) && Takes(alloc, |t.replies[k]|)
    {
      var before, body := Frames(s.talk.answers), s.replies[k];
      var got := t.here.received[|before|..];
      assert before + PutU32(|body|) + body == before + (PutU32(|body|) + body);
      assert got == PutU32(|body|) + body;
      WholeIsTold(chars, alloc, Opcode(s.talk.requests[k].1), got, body, OneTurn(r));
    }
  }

  /** What the client is told of a direct call's answer: more data than it takes is invalid. */
  function ToldOf(reply: Reply): Result<Reply, Failure> {
    match Tellable(reply) case Some(x) => Ok(x) case None => Err(Invalid)
  }

  /** With the whole of the peer's next answer received, in time, with room for it and the stream
      not over, the client is told what the direct call of the broker came to. */
  ghost predicate Hears(chars: Chars, alloc: Alloc, instance: u64, s: Sight, now: int,
                        r: Option<Result<Reply, Failure>>, t: Sight)
  {
    var k := |s.talk.told|;
    TextOnly(chars) && s.deadline.Some? && now < s.deadline.value && !t.here.last.Over?
    && k < |t.replies| && t.here.received == Frames(t.replies[..k + 1]) && Takes(alloc, |t.replies[k]|)
    ==>
      && k < |s.talk.requests| && k < |t.log|
      && r == Some(ToldOf(Directly(chars, instance, t.log[k], s.talk.requests[k])))
  }

  /** A turn of the peer: at most one request more is carried out, on the broker as it was, and
      nothing else is done to that. It stays only if bytes moved or the stream is not ready; it
      ends if its time is up, and otherwise only with its stream or for want of room. */
  ghost predicate Attends(s: Sight, now: int, alive: bool, t: Sight) {
    && t == s.(there := t.there, out := !alive, log := t.log, replies := t.replies, time := t.time,
               refused := t.refused, broker := t.broker)
    && (alive ==> Kept(s.time, now, t.time) && !t.there.last.Over?)
    && (!alive ==>
          || (s.time.deadline.Some? && now >= s.time.deadline.value && t.log == s.log && t.there == s.there)
          || t.there.last.Over? || t.refused)
    && (!alive && s.time.idle ==> t.there.last.Over? || t.refused)
    && (t.replies == s.replies || (|t.log| > |s.log| && |t.replies| == |s.replies| + 1 && s.replies <= t.replies))
    && Moves(s.there, t.there) && (alive ==> NotReady(s.there, t.there))
    && if t.log == s.log then t.broker == s.broker
       else
         && |t.log| == |s.log| + 1 && t.log[..|s.log|] == s.log
         && t.log[|s.log|].state == s.broker && t.log[|s.log|].after == t.broker
  }

  ghost function Arriving(s: Sight, up: bool, i: Incoming): Sight {
    if up then s.(there := s.there.(arrivals := s.there.arrivals + [i]))
    else s.(here := s.here.(arrivals := s.here.arrivals + [i]))
  }

  /** The next `n` bytes that one end sent and that are not yet on their way to the other. */
  ghost function NextBytes(out: Pipe, into: Pipe, n: nat): bytes {
    var at := |into.received + Flow(into.arrivals)|;
    if at >= |out.sent| then [] else out.sent[at..if at + n <= |out.sent| then at + n else |out.sent|]
  }

  ghost function Carried(s: Sight, up: bool, n: nat): Sight {
    Arriving(s, up, Chunk(if up then NextBytes(s.here, s.there, n) else NextBytes(s.there, s.here, n)))
  }

  ghost function WithRequest(s: Sight, q: (Selection, Request), now: int): Sight {
    s.(deadline := Some(now + TIMEOUT), talk := s.talk.(requests := s.talk.requests + [q]))
  }

  /** What an act makes of both ends. */
  ghost predicate Steps(chars: Chars, limits: Limits, alloc: Alloc, instance: u64, s: Sight, act: Act, x: Outcome,
                        t: Sight)
  {
    match act
    case Begin(sel, request, now) =>
      && x == Began(StartRefused(chars, alloc, s.closed, s.deadline.Some?, sel, request))
      && t == if x.refused.Some? then s else WithRequest(s, (sel, request), now)
    case ClientTurn(now) =>
      x.Heard? && Listens(chars, alloc, s, now, x.told, t) && Hears(chars, alloc, instance, s, now, x.told, t)
    case PeerTurn(_, _, now) => x.Turned? && if s.out then !x.alive && t == s else Attends(s, now, x.alive, t)
    case Carry(up, n) => x == Quiet && t == Carried(s, up, n)
    case Cut(up, came) => x == Quiet && t == if came.Chunk? then s else Arriving(s, up, came)
    case Take(up, took) =>
      && x == Quiet
      && t == if up then s.(here := s.here.(takings := s.here.takings + [took]))
              else s.(there := s.there.(takings := s.there.takings + [took]))
    case Another(ask) =>
      && x.Called? && t == s.(broker := t.broker)
      && (x.answer, t.broker) == Direct(limits, chars.control, s.broker, Total(s.broker.instances), ask)
  }

  /** The requests begun, in order: those the client did not refuse. */
  function BegunBy(acts: seq<Act>, xs: seq<Outcome>): seq<(Selection, Request)>
    requires |acts| == |xs|
  {
    if acts == [] then []
    else
      BegunBy(acts[..|acts| - 1], xs[..|xs| - 1]) + RequestIn(acts[|acts| - 1], xs[|xs| - 1])
  }

  function RequestIn(act: Act, x: Outcome): seq<(Selection, Request)> {
    if act.Begin? && x == Began(None) then [(act.sel, act.request)] else []
  }

  /** What the client was told, in order. */
  function ToldBy(xs: seq<Outcome>): seq<Reply> {
    if xs == [] then [] else ToldBy(xs[..|xs| - 1]) + ReplyIn(xs[|xs| - 1])
  }

  function ReplyIn(x: Outcome): seq<Reply> {
    if x.Heard? && x.told.Some? && x.told.value.Ok? then [x.told.value.value] else []
  }

  lemma OneMoreAct(acts: seq<Act>, xs: seq<Outcome>, act: Act, x: Outcome)
    requires |acts| == |xs|
    ensures BegunBy(acts + [act], xs + [x]) == BegunBy(acts, xs) + RequestIn(act, x)
    ensures ToldBy(xs + [x]) == ToldBy(xs) + ReplyIn(x)
  {
    assert (acts + [act])[..|acts|] == acts && (xs + [x])[..|xs|] == xs;
  }

  // ---- The two ends ----

  class Line {
    const client: Client
    const peer: Peer
    const broker: Broker
    ghost var talk: Talk

    ghost function Look(): Sight
      reads this, client, client.stream, peer, peer.stream, broker
    {
      Sight(client.closed, client.deadline, talk, PipeOf(client.stream), PipeOf(peer.stream), peer.out, peer.log,
            peer.replies, peer.Time(), peer.FrameRefused() || peer.AnswerRefused(), broker.State())
    }

    /** Either end has of what the other sent no more than that, and in order. */
    ghost predicate Linked()
      reads client.stream, peer.stream
    {
      && client.stream != peer.stream
      && peer.stream.Due() <= client.stream.sent && client.stream.Due() <= peer.stream.sent
    }

    /** Where the client is with its requests; closed, it is told no more. */
    ghost predicate Told()
      reads this, client, client.stream
    {
      && Matched(client.chars, talk)
      && client.stream.sent <= Frames(Bodies(talk.requests)) && Frames(talk.answers) <= client.stream.received
      && (client.deadline.Some? ==>
            && !client.closed
            && Waiting(talk, client.sentBefore, client.output.data, client.receivedBefore, client.opcode))
      && (client.deadline.None? && !client.closed ==> Idle(talk, client.stream.sent, client.stream.received))
    }

    /** The peer, in its turn, carried out what it did on this broker. */
    ghost predicate Attended()
      reads peer, peer.stream, broker
    {
      && broker.Valid() && broker.control == peer.chars.control
      && peer.InOrder() && (!peer.out ==> peer.Valid())
      && IsBrokerRun(Times(peer.log) + [broker.State()]) && Under(peer.log, broker.limits)
    }

    ghost predicate Valid()
      reads this, client, client.stream, peer, peer.stream, broker
    {
      client.chars == peer.chars && client.Valid() && Linked() && Told() && Attended()
    }

    constructor (client: Client, peer: Peer, broker: Broker)
      requires client.Valid() && client.deadline.None? && !client.closed && peer.Valid() && !peer.out && peer.log == []
      requires client.chars == peer.chars && broker.Valid() && broker.control == peer.chars.control
      requires client.stream != peer.stream && client.stream.Due() == client.stream.sent == []
      requires peer.stream.Due() == peer.stream.sent == []
      ensures Valid() && talk == Talk([], [], [])
      ensures this.client == client && this.peer == peer && this.broker == broker
    {
      this.client, this.peer, this.broker, talk := client, peer, broker, Talk([], [], []);
      new;
      hide Flow, Frames, Well;
      NoTalk(client.chars);
      peer.WiredInOrder();
      FirstTime(broker);
    }

    /** A request begun, unless the client refuses it. */
    method Begin(sel: Selection, request: Request, now: int) returns (e: Option<Failure>)
      requires Valid() && IsText(client.chars, request)
      modifies this, client
      ensures Valid()
      ensures e == old(StartRefused(client.chars, client.alloc, client.closed, client.deadline.Some?, sel, request))
      ensures Look() == if e.Some? then old(Look()) else WithRequest(old(Look()), (sel, request), now)
    {
      hide Peer.Valid, Peer.InOrder, Peer.FrameRefused, Peer.AnswerRefused, Well, IsBrokerRun, Flow, Frames, Matched,
        Idle, Waiting, Sendable, Bodies;
      e := client.Start(sel, request, now);
      if e.None? {
        Begun(client.chars, talk, (sel, request), client.stream.sent, client.stream.received, client.output.data);
        talk := talk.(requests := talk.requests + [(sel, request)]);
      }
    }

    method Hear(now: int) returns (r: Option<Result<Reply, Failure>>)
      requires Valid() && client.deadline.Some?
      modifies this, client, client.stream
      ensures Valid() && client.Turned(now, OneTurn(r))
      ensures if r.None? then client.deadline == old(client.deadline) else client.deadline == None
      ensures client.closed == (old(client.closed) || (r.Some? && r.value.Err?))
      ensures talk.requests == old(talk).requests
      ensures talk.told == old(talk).told + (if r.Some? && r.value.Ok? then [r.value.value] else [])
      ensures |old(talk).told| < |old(talk).requests| && Frames(old(talk).answers) <= client.stream.received
      ensures var got := client.stream.received[|Frames(old(talk).answers)|..];
              && Verdict(client.chars, client.alloc, Opcode(old(talk).requests[|old(talk).told|].1), got, OneTurn(r))
              && talk.answers == old(talk).answers + if r.Some? && r.value.Ok? then [got[4..]] else []
    {
      hide Peer.Valid, Peer.InOrder, Well, IsBrokerRun, Flow, Frames, Matched, Idle, Waiting, Sendable, Bodies,
        Client.Turned, OneTurn, Verdict, Decoded, LE;
      ghost var body;
      AnswersPart(talk, client.sentBefore, client.output.data, client.receivedBefore, client.opcode);
      r, body := client.Tick(now);
      PrefixOn(peer.stream.Due(), old(client.stream.sent), client.stream.sent);
      if r.Some? && r.value.Ok? {
        Ended(client.chars, talk, old(client.sentBefore), old(client.output.data), old(client.receivedBefore),
              old(client.opcode), body, r.value.value);
        AfterHeader(old(client.receivedBefore), body);
        talk := talk.(answers := talk.answers + [body], told := talk.told + [r.value.value]);
      }
    }

    method ClientTurn(now: int) returns (r: Option<Result<Reply, Failure>>)
      requires Valid()
      modifies this, client, client.stream
      ensures Valid() && Listens(client.chars, client.alloc, old(Look()), now, r, Look())
      ensures Hears(client.chars, client.alloc, peer.instance, old(Look()), now, r, Look())
    {
      hide Valid, Flow, Frames, Verdict, NextIs, TextOnly, Hears, Peer.FrameRefused, Peer.AnswerRefused;
      Apart();
      if client.deadline.Some? { NextIsThere(); }
      ghost var s := Look();
      r := None;
      if client.deadline.Some? { r := Hear(now); }
      assert Listens(client.chars, client.alloc, s, now, r, Look());
      MustHear(client.chars, client.alloc, peer.instance, s, now, r, Look());
    }

    /** The answer the peer gave next is to the request that waits. */
    lemma NextIsThere()
      requires Valid() && client.deadline.Some?
      ensures TextOnly(client.chars) ==> NextIs(client.chars, peer.instance, Look())
    {
      hide Client.Valid, Peer.Valid, Well, Flow, Frames, Bodies, IsBrokerRun, Accounted, Directly, AnswerOf, ServiceOf,
        Short32, Decoded, TextOnly;
      var k := |talk.told|;
      if TextOnly(client.chars) && k < |peer.replies| {
        PrefixOn(peer.stream.received, peer.stream.Due(), client.stream.sent);
        PrefixOn(client.stream.received, client.stream.Due(), peer.stream.sent);
        PrefixOn(peer.stream.received, client.stream.sent, Frames(Bodies(talk.requests)));
        PrefixOn(Frames(talk.answers), client.stream.received, peer.stream.sent);
        ShortBodies(client.chars, talk);
        Exchange(peer, Bodies(talk.requests), talk.answers);
        FirstAnswered(peer.chars, peer.instance, peer.log, peer.served, peer.replies, Bodies(talk.requests),
                      peer.replies);
        BodiesAt(talk.requests, k);
        NextTold(client.chars, peer.instance, peer.log[k], talk.requests[k], peer.replies[k]);
        assert peer.replies[..k + 1] == talk.answers + [peer.replies[k]];
        OneFrameMore(talk.answers, peer.replies[k]);
      }
    }

    lemma Apart()
      requires Valid()
      ensures client.stream != peer.stream
    {
    }

    /** The peer's turn, whose instance holds so much besides in its other peers' buffers. */
    method Attend(others: nat, remaining: nat, now: int) returns (alive: bool)
      requires Valid() && !peer.out
      modifies peer, peer.stream, broker
      ensures Valid() && peer.out == !alive
      ensures peer.stream.Due() == old(peer.stream.Due()) && old(peer.stream.sent) <= peer.stream.sent
      ensures peer.stream.Passed() >= old(peer.stream.Passed())
      ensures alive ==> peer.stream.Passed() > old(peer.stream.Passed()) || peer.stream.last == Waited
      ensures peer.log != old(peer.log) ==>
                && |peer.log| == |old(peer.log)| + 1 && peer.log[..|old(peer.log)|] == old(peer.log)
                && peer.log[|old(peer.log)|].state == old(broker.State())
                && peer.log[|old(peer.log)|].after == broker.State()
      ensures peer.log == old(peer.log) ==> broker.State() == old(broker.State())
      ensures alive ==> Kept(old(peer.Time()), now, peer.Time()) && !peer.stream.last.Over?
      ensures !alive ==>
                || (Late(old(peer.deadline), now) && peer.log == old(peer.log) && unchanged(peer.stream))
                || peer.stream.last.Over? || peer.FrameRefused() || peer.AnswerRefused()
      ensures !alive && old(peer.Idle()) ==> peer.stream.last.Over? || peer.FrameRefused() || peer.AnswerRefused()
      ensures || peer.replies == old(peer.replies)
              || (|peer.log| > |old(peer.log)| && |peer.replies| == |old(peer.replies)| + 1
                  && old(peer.replies) <= peer.replies)
    {
      hide Client.Valid, Well, Flow, Frames, Matched, Idle, Waiting, Bodies, IsBrokerRun, Advances, Served, Peer.Valid,
        Peer.InOrder, Peer.FrameRefused, Peer.AnswerRefused, Kept, Under, Times, Numbered;
      var used;
      ghost var limit;
      alive, used, limit := peer.Step(broker, peer.Buffered() + others, remaining, now);
      StateNumbered(broker);
      PrefixOn(client.stream.Due(), old(peer.stream.sent), peer.stream.sent);
      if peer.served != old(peer.served) {
        ghost var at := peer.log[|old(peer.log)|];
        assert peer.log == old(peer.log) + [at] && at.limits == broker.limits;
        TimesMore(old(peer.log), at);
        UnderMore(old(peer.log), at, broker.limits);
      }
    }

    method PeerTurn(others: nat, remaining: nat, now: int) returns (alive: bool)
      requires Valid() && !peer.out
      modifies peer, peer.stream, broker
      ensures Valid() && peer.out == !alive && Attends(old(Look()), now, alive, Look())
    {
      hide Valid, Flow, Kept, Peer.FrameRefused, Peer.AnswerRefused;
      Apart();
      alive := Attend(others, remaining, now);
    }

    /** The next bytes one end sent are on their way to the other. */
    method Carry(up: bool, n: nat)
      requires Valid()
      modifies client.stream`arrivals, peer.stream`arrivals
      ensures Valid() && Look() == Carried(old(Look()), up, n)
    {
      hide Client.Valid, Peer.Valid, Peer.FrameRefused, Peer.AnswerRefused, Well, Flow, Frames, Matched, Idle, Waiting,
        Bodies, IsBrokerRun, Accounted;
      var out, into := if up then client.stream else peer.stream, if up then peer.stream else client.stream;
      var at := |into.received + Flow(into.arrivals)|;
      var data := out.sent[at..if at + n <= |out.sent| then at + n else |out.sent|];
      Further(into.received, into.arrivals, data, out.sent);
      into.arrivals := into.arrivals + [Chunk(data)];
    }

    /** A read will come to no bytes: not ready, the end, a failure. */
    method Cut(up: bool, came: Incoming)
      requires Valid() && !came.Chunk?
      modifies client.stream`arrivals, peer.stream`arrivals
      ensures Valid() && Look() == Arriving(old(Look()), up, came)
    {
      hide Client.Valid, Peer.Valid, Peer.FrameRefused, Peer.AnswerRefused, Well, Flow, Frames, Matched, Idle, Waiting,
        Bodies, IsBrokerRun, Accounted;
      var into := if up then peer.stream else client.stream;
      FlowMore(into.arrivals, came);
      into.arrivals := into.arrivals + [came];
    }

    /** What a write will come to. */
    method Take(up: bool, took: Outgoing)
      requires Valid()
      modifies client.stream`takings, peer.stream`takings
      ensures Valid()
      ensures Steps(client.chars, broker.limits, client.alloc, peer.instance, old(Look()), Act.Take(up, took), Quiet,
                    Look())
    {
      hide Client.Valid, Peer.Valid, Peer.FrameRefused, Peer.AnswerRefused, Well, Flow, Frames, Matched, Idle, Waiting,
        Bodies, IsBrokerRun, Accounted;
      var out := if up then client.stream else peer.stream;
      out.takings := out.takings + [took];
    }

    /** Somebody else calls the broker. */
    method Another(ask: Ask) returns (answer: Answer)
      requires Valid()
      modifies broker
      ensures Valid()
      ensures Steps(client.chars, broker.limits, client.alloc, peer.instance, old(Look()), Act.Another(ask),
                    Called(answer), Look())
    {
      hide Client.Valid, Peer.Valid, Peer.FrameRefused, Peer.AnswerRefused, Well, Flow, Frames, Matched, Idle, Waiting,
        Bodies, IsBrokerRun, Accounted, Advances, Direct;
      ghost var was := broker.State();
      BytesAreTotal(broker);
      answer := Call(broker, ask);
      StateNumbered(broker);
      StateGoesOn(Times(peer.log), was, broker.State());
    }

    /** What was carried out is what was asked, each request once and in order, and what the
        client was told is what the broker's direct calls, made in that order, come to. */
    lemma ToldTruly()
      requires Valid() && TextOnly(client.chars)
      ensures peer.served <= Bodies(talk.requests)
      ensures Truthful(client.chars, broker.limits, peer.instance, talk.requests, talk.told, peer.log)
      ensures IsBrokerRun(Times(peer.log) + [broker.State()])
    {
      hide Client.Valid, Peer.Valid, Well, Flow, Frames, Bodies, IsBrokerRun, Accounted, Advances, Directly, Decoded,
        AnswerOf, ServiceOf, LeftDirectly, Short32, Idle, Waiting;
      PrefixOn(peer.stream.received, peer.stream.Due(), client.stream.sent);
      PrefixOn(client.stream.received, client.stream.Due(), peer.stream.sent);
      PrefixOn(peer.stream.received, client.stream.sent, Frames(Bodies(talk.requests)));
      PrefixOn(Frames(talk.answers), client.stream.received, peer.stream.sent);
      ShortBodies(client.chars, talk);
      Exchange(peer, Bodies(talk.requests), talk.answers);
      forall k | 0 <= k < |peer.log|
        ensures peer.log[k].after == LeftDirectly(client.chars, peer.instance, peer.log[k], talk.requests[k])
      {
        BodiesAt(talk.requests, k);
        LeftTruly(client.chars, peer.instance, peer.log[k], talk.requests[k]);
      }
      forall k | 0 <= k < |talk.told|
        ensures talk.told[k] == Directly(client.chars, peer.instance, peer.log[k], talk.requests[k])
      {
        BodiesAt(talk.requests, k);
        NextTold(client.chars, peer.instance, peer.log[k], talk.requests[k], talk.answers[k]);
      }
    }

    /** One act; a peer that closed has no more turns. */
    method Do(act: Act, there: bool) returns (still: bool, x: Outcome)
      requires Valid() && (act.Begin? ==> IsText(client.chars, act.request)) && there == !peer.out
      modifies this, client, client.stream, peer, peer.stream, broker
      ensures Valid() && still == !peer.out
      ensures Steps(client.chars, broker.limits, client.alloc, peer.instance, old(Look()), act, x, Look())
      ensures talk.requests == old(talk).requests + RequestIn(act, x) && talk.told == old(talk).told + ReplyIn(x)
    {
      hide Valid, IsText, StartRefused, Listens, Hears, Attends, Carried, Arriving, Direct, Total, Peer.FrameRefused,
        Peer.AnswerRefused;
      still, x := there, Quiet;
      match act {
        case Begin(sel, request, now) =>
          var e := Begin(sel, request, now);
          x := Began(e);
        case ClientTurn(now) =>
          var r := ClientTurn(now);
          x := Heard(r);
          ListensOn(client.chars, client.alloc, old(Look()), now, r, Look());
        case PeerTurn(others, remaining, now) =>
          if there {
            still := PeerTurn(others, remaining, now);
            AttendsOn(old(Look()), now, still, Look());
          }
          x := Turned(still);
        case Carry(up, n) =>
          Carry(up, n);
          CarriedOn(old(Look()), up, n);
        case Cut(up, came) =>
          if !came.Chunk? {
            Cut(up, came);
            ArrivingOn(old(Look()), up, came);
          }
        case Take(up, took) => Take(up, took);
        case Another(ask) =>
          var answer := Another(ask);
          x := Called(answer);
      }
    }
  }

  lemma ListensOn(chars: Chars, alloc: Alloc, s: Sight, now: int, r: Option<Result<Reply, Failure>>, t: Sight)
    requires Listens(chars, alloc, s, now, r, t)
    ensures t.talk.requests == s.talk.requests && t.talk.told == s.talk.told + ReplyIn(Heard(r))
  {
  }

  lemma AttendsOn(s: Sight, now: int, alive: bool, t: Sight)
    requires Attends(s, now, alive, t)
    ensures t.talk == s.talk
  {
  }

  lemma ArrivingOn(s: Sight, up: bool, i: Incoming)
    ensures Arriving(s, up, i).talk == s.talk
  {
  }

  lemma CarriedOn(s: Sight, up: bool, n: nat)
    ensures Carried(s, up, n).talk == s.talk
  {
  }

  /** A request's parts as contents: each under its type, with its data and no memory besides. */
  function Offered(parts: seq<(bytes, bytes)>): seq<Payload> {
    seq(|parts|, k requires 0 <= k < |parts| => Payload(parts[k].0, parts[k].1, 0))
  }

  lemma OfferedIs(parts: seq<(bytes, bytes)>)
    ensures Offered(parts) == Received(parts)
  {
    forall k | 0 <= k < |parts| ensures Offered(parts)[k] == Received(parts)[k] { ReceivedIs(parts, k); }
  }

  /** The call of the broker that a request is. */
  function AskOf(instance: u64, q: (Selection, Request)): Option<Ask> {
    match q.1
    case AskTypes => Some(Ask.AskTypes(instance, q.0))
    case SetTo(parts) => Some(AskSet(instance, q.0, Offered(parts)))
    case ReadAt(revision, mime) => Some(AskRead(instance, q.0, revision, mime))
    case ClearIt => Some(AskClear(instance, q.0))
    case Capabilities => None
  }

  /** What the answer of a call is told as, in so much room. */
  function ReplyOf(answer: Answer, limit: nat): Reply {
    match answer
    case Given(Ok(revision)) => SetAs(revision)
    case Done(Ok(_)) => Cleared
    case Listed(Ok(types)) => TypesAre(types)
    case Read(Ok(data)) => if |data| + 9 > limit then Rejected(ErrorCode(Error.Limit)) else Data(data)
    case Given(Err(e)) => Rejected(ErrorCode(e))
    case Done(Err(e)) => Rejected(ErrorCode(e))
    case Listed(Err(e)) => Rejected(ErrorCode(e))
    case Read(Err(e)) => Rejected(ErrorCode(e))
  }

  /** What the direct call of the broker came to then. */
  function Directly(chars: Chars, instance: u64, at: Service, q: (Selection, Request)): Reply {
    match AskOf(instance, q)
    case None => Able(ABLE)
    case Some(ask) =>
      if q.1.SetTo? && at.limit < 13 then Rejected(ErrorCode(Error.Limit))
      else ReplyOf(Direct(at.limits, chars.control, at.state, at.total, ask).0, at.limit)
  }

  lemma DirectlyIs(chars: Chars, instance: u64, at: Service, q: (Selection, Request))
    ensures Expected(at.limits, chars.control, at.state, at.total, instance, q.0, q.1, at.limit) ==
            Directly(chars, instance, at, q)
  {
    hide Refusal, Reserved, ReadOf, TypesOf, Placed, Offered, Received;
    if q.1.SetTo? { OfferedIs(q.1.parts); }
  }

  /** What that call left, unless there was no room for its answer. */
  function LeftDirectly(chars: Chars, instance: u64, at: Service, q: (Selection, Request)): Snapshot {
    if at.limit < 6 || (q.1.SetTo? && at.limit < 13) || AskOf(instance, q).None? then at.state
    else Direct(at.limits, chars.control, at.state, at.total, AskOf(instance, q).value).1
  }

  /** Each request carried out left the broker as the direct call does, and each thing told is
      what that call came to. */
  ghost predicate Truthful(chars: Chars, limits: Limits, instance: u64, requests: seq<(Selection, Request)>,
                           told: seq<Reply>, log: seq<Service>)
  {
    && |told| <= |log| <= |requests| && Under(log, limits)
    && (forall k :: 0 <= k < |log| ==> log[k].after == LeftDirectly(chars, instance, log[k], requests[k]))
    && forall k :: 0 <= k < |told| ==> told[k] == Directly(chars, instance, log[k], requests[k])
  }

  lemma LeftTruly(chars: Chars, instance: u64, at: Service, q: (Selection, Request))
    requires Sendable(chars, q.0, q.1) && ServiceOf(chars, instance, at, RequestBody(q.0, q.1))
    ensures at.after == LeftDirectly(chars, instance, at, q)
  {
    hide Well, Sendable, Asked, Refusal, Reserved, Placed, ReadOf, PutParts, PutMime, LE, OfferOf;
    RequestRoundTrip(chars, q.0, q.1);
    SetBodies(q.0, q.1);
    hide RequestBody, IsSet, Offered, Received;
    if q.1.SetTo? { OfferedIs(q.1.parts); }
  }

  lemma SetBodies(s: Selection, r: Request)
    ensures IsSet(RequestBody(s, r)) <==> r.SetTo?
  {
    hide PutParts, PutMime, LE;
  }

  lemma NextTold(chars: Chars, instance: u64, at: Service, q: (Selection, Request), answer: bytes)
    requires TextOnly(chars) && Sendable(chars, q.0, q.1) && ServiceOf(chars, instance, at, RequestBody(q.0, q.1))
    requires AnswerOf(chars, instance, at, RequestBody(q.0, q.1), answer)
    ensures Decoded(chars, Opcode(q.1), answer) == Tellable(Directly(chars, instance, at, q))
  {
    hide Well, Sendable, RequestBody, Decoded, Served, Expected, Directly;
    DirectlyIs(chars, instance, at, q);
    Transparent(chars, at.limits, at.state, at.total, at.origins, instance, q.0, q.1, at.limit);
  }

  ghost predicate Under(log: seq<Service>, limits: Limits) {
    forall k :: 0 <= k < |log| ==> log[k].limits == limits
  }

  /** The broker as it was before and after each time. */
  ghost function Times(log: seq<Service>): seq<Snapshot> {
    if log == [] then [] else Times(log[..|log| - 1]) + [log[|log| - 1].state, log[|log| - 1].after]
  }

  lemma NoTalk(chars: Chars)
    ensures Matched(chars, Talk([], [], [])) && Idle(Talk([], [], []), [], []) && Frames([]) == [] && Bodies([]) == []
  {
    hide Decoded;
  }

  lemma TimesMore(log: seq<Service>, at: Service)
    requires IsBrokerRun(Times(log) + [at.state]) && Advances(at.state, at.after) && Numbered(at.after)
    ensures IsBrokerRun(Times(log + [at]) + [at.after])
  {
    hide Advances, Numbered, Times, IsBrokerRun;
    TimesAre(log, at);
    MoreStates(Times(log) + [at.state], at.after);
    SameAdvances(at.after);
    MoreStates(Times(log) + [at.state] + [at.after], at.after);
    assert Times(log) + [at.state] + [at.after] + [at.after] == Times(log) + [at.state, at.after] + [at.after];
  }

  lemma UnderMore(log: seq<Service>, at: Service, limits: Limits)
    requires Under(log, limits) && at.limits == limits
    ensures Under(log + [at], limits)
  {
  }

  lemma TimesAre(log: seq<Service>, at: Service)
    ensures Times(log + [at]) == Times(log) + [at.state, at.after]
  {
    assert (log + [at])[..|log|] == log;
  }

  lemma StateGoesOn(states: seq<Snapshot>, was: Snapshot, now: Snapshot)
    requires IsBrokerRun(states + [was]) && Advances(was, now) && Numbered(now)
    ensures IsBrokerRun(states + [now])
  {
    hide Numbered, Advances;
    var a, b := states + [was], states + [now];
    forall i | 0 <= i < |b| ensures Numbered(b[i]) {
      assert Numbered(a[i]);
    }
    forall i | 0 <= i < |b| - 1 ensures Advances(b[i], b[i + 1]) {
      assert Advances(a[i], a[i + 1]);
      assert a[i] == b[i];
      if i + 1 == |states| { AdvancesOn(a[i], was, now); }
    }
  }

  lemma Further(received: bytes, arrivals: seq<Incoming>, data: bytes, sent: bytes)
    requires var due := received + Flow(arrivals); due <= sent && data <= sent[|due|..]
    ensures received + Flow(arrivals + [Chunk(data)]) <= sent
  {
    hide Flow;
    FlowMore(arrivals, Chunk(data));
    var due := received + Flow(arrivals);
    assert sent == due + sent[|due|..];
    assert received + (Flow(arrivals) + data) == due + data;
  }

  lemma FirstTime(broker: Broker)
    requires broker.Valid()
    ensures IsBrokerRun(Times([]) + [broker.State()])
  {
    assert Times([]) + [broker.State()] == [broker.State()];
  }

  const FRESH_PIPE: Pipe := Pipe([], [], [], [], Waited)
  const FRESH_SIGHT: Sight :=
    Sight(false, None, Talk([], [], []), FRESH_PIPE, FRESH_PIPE, false, [], [], Clock(true, None), false,
          Snapshot(0, map[]))

  /** A new connection to a new broker. */
  method Connect(limits: Limits, chars: Chars, alloc: Alloc, instance: u64) returns (line: Line)
    requires Reserves(alloc)
    ensures line.Valid() && fresh(line) && fresh(line.broker)
    ensures fresh(line.client) && fresh(line.client.stream) && fresh(line.peer) && fresh(line.peer.stream)
    ensures line.client.chars == chars && line.client.alloc == alloc && line.broker.limits == limits
    ensures line.peer.instance == instance && !line.peer.out && line.Look() == FRESH_SIGHT
  {
    hide Reserves, Well, Flow, Client.Valid, Peer.Valid, Broker.Valid, Line.Valid;
    var here := new Stream([], []);
    var there := new Stream([], []);
    NothingDue(here);
    NothingDue(there);
    var client := new Client(here, chars, alloc);
    var peer := new Peer(there, instance, chars, alloc);
    var broker := new Broker(limits, chars.control);
    line := new Line(client, peer, broker);
  }

  lemma NothingDue(s: Stream)
    requires s.arrivals == [] && s.received == []
    ensures s.Due() == []
  {
  }

  /** Each act made of both ends what it does. */
  ghost predicate Stepped(chars: Chars, limits: Limits, alloc: Alloc, instance: u64, sights: seq<Sight>, acts: seq<Act>,
                          xs: seq<Outcome>)
  {
    && |xs| == |acts| && |sights| == |acts| + 1
    && forall k :: 0 <= k < |acts| ==> Steps(chars, limits, alloc, instance, sights[k], acts[k], xs[k], sights[k + 1])
  }

  lemma SteppedMore(chars: Chars, limits: Limits, alloc: Alloc, instance: u64, sights: seq<Sight>, acts: seq<Act>,
                    xs: seq<Outcome>, act: Act, x: Outcome, t: Sight)
    requires Stepped(chars, limits, alloc, instance, sights, acts, xs)
    requires Steps(chars, limits, alloc, instance, sights[|acts|], act, x, t)
    ensures Stepped(chars, limits, alloc, instance, sights + [t], acts + [act], xs + [x])
  {
    hide Steps;
    var more := sights + [t];
    assert forall k :: 0 <= k <= |acts| ==> more[k] == sights[k];
  }

  /** Any acts from a new connection to a new broker on: what each comes to, what was asked,
      what was told, and when each request was carried out. */
  method Play(limits: Limits, chars: Chars, alloc: Alloc, instance: u64, acts: seq<Act>)
    returns (outcomes: seq<Outcome>, requests: seq<(Selection, Request)>, told: seq<Reply>, ghost sights: seq<Sight>)
    requires Reserves(alloc) && TextOnly(chars)
    requires forall k :: 0 <= k < |acts| && acts[k].Begin? ==> IsText(chars, acts[k].request)
    ensures |outcomes| == |acts| && requests == BegunBy(acts, outcomes) && told == ToldBy(outcomes)
    ensures Stepped(chars, limits, alloc, instance, sights, acts, outcomes) && sights[0] == FRESH_SIGHT
    ensures requests == sights[|acts|].talk.requests && told == sights[|acts|].talk.told
    ensures Truthful(chars, limits, instance, requests, told, sights[|acts|].log)
    ensures IsBrokerRun(Times(sights[|acts|].log) + [sights[|acts|].broker])
  {
    hide Line.Valid, Reserves, TextOnly, IsText, Truthful, IsBrokerRun, Steps, Stepped, RequestIn, ReplyIn, BegunBy,
      ToldBy;
    var line := Connect(limits, chars, alloc, instance);
    var alive := true;
    outcomes, requests, told, sights := [], [], [], [line.Look()];
    NoActs(chars, limits, alloc, instance, line.Look());
    for k := 0 to |acts|
      invariant line.Valid() && alive == !line.peer.out && fresh(line) && fresh(line.broker)
      invariant fresh(line.client) && fresh(line.client.stream) && fresh(line.peer) && fresh(line.peer.stream)
      invariant line.client.chars == chars && line.client.alloc == alloc && line.broker.limits == limits
      invariant line.peer.instance == instance
      invariant |outcomes| == k && |sights| == k + 1 && sights[0] == FRESH_SIGHT && sights[k] == line.Look()
      invariant Stepped(chars, limits, alloc, instance, sights, acts[..k], outcomes)
      invariant requests == line.talk.requests == BegunBy(acts[..k], outcomes)
      invariant told == line.talk.told == ToldBy(outcomes)
    {
      var x;
      alive, x := line.Do(acts[k], alive);
      assert acts[..k + 1] == acts[..k] + [acts[k]];
      OneMoreAct(acts[..k], outcomes, acts[k], x);
      SteppedMore(chars, limits, alloc, instance, sights, acts[..k], outcomes, acts[k], x, line.Look());
      requests, told := requests + RequestIn(acts[k], x), told + ReplyIn(x);
      outcomes, sights := outcomes + [x], sights + [line.Look()];
    }
    assert acts[..|acts|] == acts;
    line.ToldTruly();
  }

  lemma NoActs(chars: Chars, limits: Limits, alloc: Alloc, instance: u64, s: Sight)
    ensures Stepped(chars, limits, alloc, instance, [s], [], []) && BegunBy([], []) == [] && ToldBy([]) == []
  {
  }
}
