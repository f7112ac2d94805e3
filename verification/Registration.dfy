/** The portal registration of a connection (rust/src/bus_filter.rs, Conn, Registration,
    register): the two directions as interleaved steps over the state under the lock. */
module Registration {
  import opened Wrappers

  type serial = i: int | 0 <= i < 0x1_0000_0000

  datatype Kind = Call | Return | Failure | Signal

  datatype Message = Message(
    kind: Kind,
    number: serial,
    replyTo: Option<serial>,
    destination: Option<string>,
    sender: Option<string>,
    wantsReply: bool,
    hello: bool)

  const PORTAL: string := "org.freedesktop.portal.Desktop"
  const REGISTER_SERIAL: serial := 0xFFFE_FF00
  const MAX_CLIENT_SERIAL: serial := 0xFFFF_FFFF - 65536

  /** Our call has a serial of its own: never the Hello's. */
  function RegisterSerial(hello: serial): serial {
    if hello == REGISTER_SERIAL then REGISTER_SERIAL - 1 else REGISTER_SERIAL
  }

  lemma RegisterSerialIsOurs(hello: serial)
    ensures RegisterSerial(hello) != hello && RegisterSerial(hello) != 0 && RegisterSerial(hello) <= MAX_CLIENT_SERIAL
  {
  }

  /** A call whose destination is the portal or could be a unique name of it. */
  predicate MayReachPortal(m: Message) {
    m.kind == Call && m.destination.Some? && (m.destination.value == PORTAL || [':'] <= m.destination.value)
  }

  /** A call by the portal's own name, or by a unique name, which begins with a colon. */
  ghost predicate CallsPortal(m: Message) {
    && m.kind == Call && m.destination.Some?
    && var d := m.destination.value;
       d == "org.freedesktop.portal.Desktop" || (d != "" && d[0] == ':')
  }

  lemma MayReachIs(m: Message)
    ensures MayReachPortal(m) <==> CallsPortal(m)
  {
  }

  predicate IsReply(m: Message) {
    (m.kind == Return || m.kind == Failure) && m.replyTo.Some?
  }

  /** How far the registration got. */
  datatype Stage = Idle | Hello(of: serial) | Welcomed(named: bool) | Register(own: serial) | Done | Closed

  /** What the thread that reads the program is at. */
  datatype Reader =
    | First
    | SendHello(m: Message)
    | AwaitHello(m: Message)
    | SendRegister(own: serial)
    | Serving
    | Held(m: Message)
    | Deciding(m: Message)
    | Ended

  /** What the thread that reads the bus is at: reading, done reading, having said so, having
      shut both sockets. */
  datatype Bus = Open | Broken | Gone | Shut

  /** A message that went up: whose, and the serial of our `Register` if it was unsettled
      then. */
  datatype Up = Up(m: Message, ours: bool, waiting: Option<serial>)

  /** A reply that came: to whose call, whether our `Register` was unsettled then, and
      whether it was kept from the program. */
  datatype Came = Came(m: Message, ours: bool, unsettled: bool, withheld: bool)

  /** A connection: what is under the lock, where either thread is, the calls sent whose
      answers are still to come, and what was read, let up, answered and passed down so far.
      `fate` says of each message read whether it went up. */
  datatype State = State(
    stage: Stage,
    outstanding: Option<serial>,
    portal: Option<string>,
    reader: Reader,
    bus: Bus,
    inFlight: multiset<(serial, bool)>,
    read: seq<Message>,
    fate: seq<bool>,
    up: seq<Up>,
    came: seq<Came>,
    down: seq<Message>,
    goneFirst: bool)

  const START: State := State(Idle, None, None, First, Open, multiset{}, [], [], [], [], [], false)

  // ---- What happens ----

  /** What either thread, the program or the bus may do next. A send may fail, and does once
      the sockets are shut; the thread then ends. */
  datatype Happening =
    | Sends(m: Message)
    | GoesOn(pass: bool, sent: bool)
    | Replies(m: Message, ours: bool, sent: bool)
    | Says(m: Message, sent: bool)
    | BusEnds
    | BusShuts
    | ProgramLeaves
    | ProgramEnds

  /** The serial of ours while it is unsettled. */
  function Waiting(stage: Stage): Option<serial> {
    if stage.Register? then Some(stage.own) else None
  }

  /** A message that must not overtake our call's answer. */
  predicate MustWait(stage: Stage, outstanding: Option<serial>, m: Message) {
    stage.Register? && (MayReachPortal(m) || outstanding == Some(m.number))
  }

  ghost function Upwards(s: State, m: Message): State {
    s.(up := s.up + [Up(m, false, Waiting(s.stage))], fate := s.fate + [true],
       inFlight := s.inFlight + multiset{(m.number, false)})
  }

  ghost function Barred(s: State): State {
    s.(fate := s.fate + [false])
  }

  ghost function OurCall(own: serial, stage: Stage): Up {
    Up(Message(Call, own, None, Some(PORTAL), None, true, false), true, Waiting(stage))
  }

  /** Our call is up. */
  ghost function WithOurs(s: State, own: serial): State {
    s.(up := s.up + [OurCall(own, s.stage)], inFlight := s.inFlight + multiset{(own, true)}, reader := Serving)
  }

  /** The program's message read, if the reader is at reading. */
  ghost function Taken(registers: bool, s: State, m: Message): State {
    var t := s.(read := s.read + [m]);
    match s.reader
    case First =>
      if !registers then t.(reader := Deciding(m))
      else if m.hello && m.wantsReply then t.(stage := Hello(m.number), reader := SendHello(m))
      else Barred(t).(reader := Ended)
    case Serving => t.(reader := if MustWait(s.stage, s.outstanding, m) then Held(m) else Deciding(m))
    case _ => s
  }

  ghost function MovedOn(s: State, own: serial): State {
    if s.stage == Welcomed(true) then
      s.(stage := Register(own), outstanding := Some(own), reader := SendRegister(own))
    else s.(stage := if s.stage == Closed then Closed else Done, reader := Serving)
  }

  /** The reader's next step, unless it has to wait. */
  ghost function Proceeded(s: State, pass: bool, sent: bool): State {
    var goes := sent && s.bus != Shut;
    match s.reader
    case SendHello(m) => if goes then Upwards(s, m).(reader := AwaitHello(m)) else Barred(s).(reader := Ended)
    case AwaitHello(m) => if s.stage.Hello? then s else MovedOn(s, RegisterSerial(m.number))
    case SendRegister(own) =>
      if goes then WithOurs(s, own) else s.(reader := Ended)
    case Held(m) => if s.stage.Register? then s else s.(reader := Deciding(m))
    case Deciding(m) =>
      if !pass then Barred(s).(reader := if sent then Serving else Ended)
      else if goes then Upwards(s, m).(reader := Serving)
      else Barred(s).(reader := Ended)
    case _ => s
  }

  ghost function Downwards(s: State, m: Message, sent: bool): State {
    if sent then s.(down := s.down + [m]) else s.(bus := Broken)
  }

  /** The answer to our call is kept from the program, and names the portal if it was waited
      for. */
  ghost function Swallowed(s: State, m: Message, ours: bool): State
    requires IsReply(m)
  {
    var number := m.replyTo.value;
    var settles := s.stage == Register(number);
    s.(inFlight := s.inFlight - multiset{(number, ours)},
       came := s.came + [Came(m, ours, s.stage.Register?, true)],
       outstanding := None,
       stage := if settles then Done else s.stage,
       portal := if settles && m.kind == Return && m.sender.Some? then m.sender else s.portal)
  }

  /** Any other reply; the one to the Hello is its answer. */
  ghost function Noticed(s: State, m: Message, ours: bool): State
    requires IsReply(m)
  {
    var number := m.replyTo.value;
    s.(inFlight := s.inFlight - multiset{(number, ours)},
       came := s.came + [Came(m, ours, s.stage.Register?, false)],
       stage := if s.stage == Hello(number) then Welcomed(m.kind == Return) else s.stage)
  }

  ghost function Answered(s: State, m: Message, ours: bool, sent: bool): State
    requires IsReply(m)
  {
    if s.outstanding == m.replyTo then Swallowed(s, m, ours) else Downwards(Noticed(s, m, ours), m, sent)
  }

  predicate BusOver(bus: Bus) {
    bus == Gone || bus == Shut
  }

  /** What one thing happening makes of a connection; what cannot happen now changes nothing. */
  ghost function Next(registers: bool, s: State, h: Happening): State {
    match h
    case Sends(m) => Taken(registers, s, m)
    case GoesOn(pass, sent) => Proceeded(s, pass, sent)
    case Replies(m, ours, sent) =>
      if s.bus == Open && IsReply(m) && (m.replyTo.value, ours) in s.inFlight then Answered(s, m, ours, sent) else s
    case Says(m, sent) => if s.bus == Open && !IsReply(m) then Downwards(s, m, sent) else s
    case BusEnds =>
      if BusOver(s.bus) then s
      else s.(stage := if s.stage == Done then Done else Closed, bus := Gone, goneFirst := s.reader == First)
    case BusShuts => if s.bus == Gone then s.(bus := Shut) else s
    case ProgramLeaves => if s.reader.Held? && s.stage.Register? then s.(stage := Closed) else s
    case ProgramEnds => if s.reader == First || s.reader == Serving then s.(reader := Ended) else s
  }

  /** A whole connection. */
  ghost function After(registers: bool, hs: seq<Happening>): State {
    if hs == [] then START else Next(registers, After(registers, hs[..|hs| - 1]), hs[|hs| - 1])
  }

  // ---- What every connection keeps ----

  /** Of the program's messages, in its order, those let up. */
  function Kept(read: seq<Message>, fate: seq<bool>): seq<Message>
    requires |fate| <= |read|
  {
    if fate == [] then []
    else Kept(read, fate[..|fate| - 1]) + if fate[|fate| - 1] then [read[|fate| - 1]] else []
  }

  function OfProgram(up: seq<Up>): seq<Message> {
    if up == [] then []
    else OfProgram(up[..|up| - 1]) + if up[|up| - 1].ours then [] else [up[|up| - 1].m]
  }

  function Withheld(came: seq<Came>): nat {
    if came == [] then 0 else Withheld(came[..|came| - 1]) + if came[|came| - 1].withheld then 1 else 0
  }

  /** While ours is unsettled nothing of the program's goes up that the portal may see or
      whose answer could pass for ours; and ours is a call of the portal. */
  ghost predicate UpRight(u: Up) {
    && (!u.ours && u.waiting.Some? ==> !CallsPortal(u.m) && u.m.number != u.waiting.value)
    && (u.ours ==> u.m.kind == Call && u.m.destination == Some("org.freedesktop.portal.Desktop") && u.m.wantsReply)
    && (u.ours && u.waiting.Some? ==> u.m.number == u.waiting.value)
  }

  /** What came answers something; while ours is unsettled the answer to it is kept from the
      program, and nothing else is. */
  ghost predicate CameRight(c: Came) {
    && (c.m.kind == Return || c.m.kind == Failure) && c.m.replyTo.Some?
    && (c.unsettled ==> (c.withheld <==> c.ours))
  }

  /** It came, and was not kept from the program. */
  ghost predicate Passed(came: seq<Came>, m: Message) {
    exists c :: c in came && c.m == m && !c.withheld
  }

  /** Every answer the program was given came as one. */
  ghost predicate DownLog(came: seq<Came>, down: seq<Message>) {
    forall m :: m in down && (m.kind == Return || m.kind == Failure) && m.replyTo.Some? ==> Passed(came, m)
  }

  predicate Early(reader: Reader) {
    reader == First || reader.SendHello? || reader.AwaitHello? || reader.SendRegister?
  }

  /** Our call is up at most once, and not before its turn. */
  ghost predicate OursOnce(up: seq<Up>, reader: Reader) {
    && (Early(reader) ==> forall u :: u in up ==> !u.ours)
    && forall i, j :: 0 <= i < j < |up| ==> !(up[i].ours && up[j].ours)
  }

  /** The answer to our call, from this portal. */
  ghost predicate Names(c: Came, portal: Option<string>) {
    c.ours && c.unsettled && c.m.kind == Return && c.m.sender == portal
  }

  /** The message the reader has in hand. */
  function InHand(reader: Reader): Option<Message> {
    match reader
    case SendHello(m) => Some(m)
    case Held(m) => Some(m)
    case Deciding(m) => Some(m)
    case _ => None
  }

  /** What the reader's place says of the stage. */
  ghost predicate Placed(registers: bool, s: State) {
    match s.reader
    case First =>
      && s.stage in {Idle, Closed} && s.outstanding == None && s.inFlight == multiset{} && s.came == []
      && s.portal == None && s.read == []
    case SendHello(m) =>
      && s.stage in {Hello(m.number), Closed} && s.outstanding == None && s.inFlight == multiset{} && s.came == []
      && s.portal == None && registers
    case AwaitHello(m) =>
      && (s.stage == Hello(m.number) || s.stage.Welcomed? || s.stage == Closed) && s.outstanding == None
      && s.portal == None && registers && s.inFlight <= multiset{(m.number, false)} && Withheld(s.came) == 0
    case SendRegister(own) =>
      && (s.stage == Register(own) || s.stage == Closed) && s.outstanding == Some(own) && s.portal == None
      && (forall k :: k in s.inFlight ==> k.0 != own) && Withheld(s.came) == 0
    case Deciding(m) =>
      && !s.stage.Hello? && !s.stage.Welcomed?
      && (s.stage.Register? ==> !MayReachPortal(m) && m.number != s.stage.own)
    case Held(m) =>
      && !s.stage.Hello? && !s.stage.Welcomed?
      && (s.stage.Register? ==> CallsPortal(m) || m.number == s.stage.own)
    case Ended => true
    case _ => !s.stage.Hello? && !s.stage.Welcomed?
  }

  /** The program's messages in its order, and what went up of them. */
  ghost predicate UpLog(s: State) {
    && |s.read| == |s.fate| + (if InHand(s.reader).Some? then 1 else 0)
    && (InHand(s.reader).Some? ==> s.read[|s.fate|] == InHand(s.reader).value)
    && OfProgram(s.up) == Kept(s.read, s.fate)
    && (forall u :: u in s.up ==> UpRight(u))
  }

  /** The replies that came, and that the portal is named by one of them. */
  ghost predicate CameLog(came: seq<Came>, portal: Option<string>) {
    && (forall c :: c in came ==> CameRight(c))
    && (portal.Some? ==> exists c :: c in came && Names(c, portal))
  }

  /** While ours is waited for, no call of the program's with its serial is in flight; one
      reply at most is ours to keep; with a portal named all is settled. */
  ghost predicate Awaited(s: State) {
    && (s.stage.Register? ==>
          && s.outstanding == Some(s.stage.own) && (s.stage.own, false) !in s.inFlight
          && forall k :: k in s.inFlight && k.1 ==> k.0 == s.stage.own)
    && Withheld(s.came) + (if s.outstanding.Some? then 1 else 0) <= 1
    && (s.portal.Some? ==> s.stage == Done)
  }

  /** Once the bus side is gone the registration is over, but for a Hello taken after. */
  ghost predicate Over(s: State) {
    && (s.goneFirst ==> BusOver(s.bus)) && (BusOver(s.bus) && s.reader == First ==> s.goneFirst)
    && (BusOver(s.bus) ==>
          || s.stage == Closed || s.stage == Done
          || (s.goneFirst && s.stage.Hello? && (s.reader.SendHello? || s.reader.AwaitHello? || s.reader == Ended)))
    && (s.goneFirst && (s.reader.SendHello? || s.reader.AwaitHello?) ==> s.stage.Hello?)
  }

  ghost predicate Right(registers: bool, s: State) {
    && Placed(registers, s) && UpLog(s) && OursOnce(s.up, s.reader) && CameLog(s.came, s.portal)
    && DownLog(s.came, s.down) && Awaited(s) && Over(s)
  }

  lemma StartRight(registers: bool)
    ensures Right(registers, START)
  {
  }

  lemma {:induction false} KeptLonger(read: seq<Message>, more: seq<Message>, fate: seq<bool>)
    requires |fate| <= |read|
    ensures Kept(read + more, fate) == Kept(read, fate)
    decreases |fate|
  {
    if fate != [] { KeptLonger(read, more, fate[..|fate| - 1]); }
  }

  lemma OneUp(up: seq<Up>, x: Up)
    ensures OfProgram(up + [x]) == OfProgram(up) + if x.ours then [] else [x.m]
  {
    assert (up + [x])[..|up|] == up;
  }

  lemma OneCame(came: seq<Came>, x: Came)
    ensures Withheld(came + [x]) == Withheld(came) + if x.withheld then 1 else 0
  {
    assert (came + [x])[..|came|] == came;
  }

  lemma OneFate(read: seq<Message>, fate: seq<bool>, passed: bool)
    requires |fate| < |read|
    ensures Kept(read, fate + [passed]) == Kept(read, fate) + if passed then [read[|fate|]] else []
  {
    assert (fate + [passed])[..|fate|] == fate;
  }

  /** One more reply, which may name the portal. */
  lemma OneReply(came: seq<Came>, portal: Option<string>, here: Came, portal': Option<string>)
    requires CameLog(came, portal) && CameRight(here)
    requires portal' == portal || Names(here, portal')
    ensures CameLog(came + [here], portal')
  {
    var all := came + [here];
    assert here in all && forall c :: c in all ==> c in came || c == here;
    if portal' == portal && portal.Some? {
      var c :| c in came && Names(c, portal);
      assert c in all;
    }
  }

  lemma OnceMore(up: seq<Up>, x: Up, reader: Reader, reader': Reader)
    requires OursOnce(up, reader) && (Early(reader') ==> Early(reader)) && (x.ours ==> Early(reader) && !Early(reader'))
    ensures OursOnce(up + [x], reader') && OursOnce(up, reader')
  {
    var all := up + [x];
    assert forall u :: u in all ==> u in up || u == x;
    assert forall i :: 0 <= i < |up| ==> all[i] == up[i] && up[i] in up;
  }

  lemma StillDown(came: seq<Came>, down: seq<Message>, c: Came)
    requires DownLog(came, down)
    ensures DownLog(came + [c], down) && (!c.withheld ==> Passed(came + [c], c.m))
  {
    var all := came + [c];
    assert c in all && forall x :: x in came ==> x in all;
    forall m | m in down && (m.kind == Return || m.kind == Failure) && m.replyTo.Some? ensures Passed(all, m) {
      assert Passed(came, m);
    }
  }

  lemma OneDown(came: seq<Came>, down: seq<Message>, m: Message)
    requires DownLog(came, down) && (IsReply(m) ==> Passed(came, m))
    ensures DownLog(came, down + [m])
  {
    hide Passed;
  }

  /** The message in hand goes up. */
  lemma UpwardsLogged(s: State, m: Message, reader: Reader)
    requires UpLog(s) && InHand(s.reader) == Some(m) && InHand(reader) == None
    requires s.stage.Register? ==> !MayReachPortal(m) && m.number != s.stage.own
    ensures UpLog(Upwards(s, m).(reader := reader))
  {
    hide OfProgram, Kept, MayReachPortal, CallsPortal;
    MayReachIs(m);
    OneUp(s.up, Up(m, false, Waiting(s.stage)));
    OneFate(s.read, s.fate, true);
  }

  /** The message in hand does not. */
  lemma BarredLogged(s: State, reader: Reader)
    requires UpLog(s) && InHand(s.reader).Some? && InHand(reader) == None
    ensures UpLog(Barred(s).(reader := reader))
  {
    hide OfProgram, Kept, UpRight;
    OneFate(s.read, s.fate, false);
  }

  lemma TakenKeeps(registers: bool, s: State, m: Message)
    requires Right(registers, s)
    ensures Right(registers, Taken(registers, s, m))
  {
    hide OfProgram, Kept, UpRight, CameLog, DownLog, MayReachPortal, CallsPortal, Withheld;
    MayReachIs(m);
    if s.reader == First || s.reader == Serving {
      KeptLonger(s.read, [m], s.fate);
      if s.reader == First && registers && !(m.hello && m.wantsReply) {
        OneFate([m], [], false);
        assert s.fate == [] && s.read + [m] == [m] && s.fate + [false] == [false];
      }
    }
  }

  /** The Hello goes up, or the reader ends. */
  lemma HelloKeeps(registers: bool, s: State, m: Message)
    requires Right(registers, s) && s.reader == SendHello(m)
    ensures Right(registers, Upwards(s, m).(reader := AwaitHello(m)))
    ensures Right(registers, Barred(s).(reader := Ended))
  {
    hide CameLog, DownLog, MayReachPortal;
    UpwardsLogged(s, m, AwaitHello(m));
    BarredLogged(s, Ended);
    NothingWithheld();
    OnceMore(s.up, Up(m, false, Waiting(s.stage)), s.reader, AwaitHello(m));
    hide UpLog, OursOnce, Withheld;
    assert OursOnce(s.up, Ended) by { OnceMore(s.up, Up(m, false, None), s.reader, Ended); }
  }

  lemma MovedOnKeeps(registers: bool, s: State, m: Message)
    requires Right(registers, s) && s.reader == AwaitHello(m) && !s.stage.Hello?
    ensures Right(registers, MovedOn(s, RegisterSerial(m.number)))
  {
    hide CameLog, DownLog, MayReachPortal;
    SameHand(s, MovedOn(s, RegisterSerial(m.number)));
    hide UpLog, Withheld;
  }

  lemma OurCallKeeps(registers: bool, s: State, own: serial)
    requires Right(registers, s) && s.reader == SendRegister(own)
    ensures Right(registers, WithOurs(s, own)) && Right(registers, s.(reader := Ended))
  {
    hide CameLog, DownLog, MayReachPortal;
    OursLogged(s, own);
    SameHand(s, s.(reader := Ended));
    OnceMore(s.up, OurCall(own, s.stage), s.reader, Serving);
    OnceMore(s.up, Up(OurCall(own, s.stage).m, false, None), s.reader, Ended);
    hide UpLog, OursOnce, Withheld;
  }

  lemma DecidedLogs(s: State, m: Message)
    requires UpLog(s) && s.reader == Deciding(m)
    requires s.stage.Register? ==> !MayReachPortal(m) && m.number != s.stage.own
    ensures UpLog(Upwards(s, m).(reader := Serving))
    ensures UpLog(Barred(s).(reader := Serving)) && UpLog(Barred(s).(reader := Ended))
  {
    hide MayReachPortal;
    UpwardsLogged(s, m, Serving);
    BarredLogged(s, Serving);
    BarredLogged(s, Ended);
  }

  lemma DecidedKeeps(registers: bool, s: State, m: Message)
    requires Right(registers, s) && s.reader == Deciding(m)
    ensures Right(registers, Upwards(s, m).(reader := Serving))
    ensures Right(registers, Barred(s).(reader := Serving)) && Right(registers, Barred(s).(reader := Ended))
  {
    hide CameLog, DownLog, MayReachPortal, UpLog, OursOnce, Withheld;
    DecidedLogs(s, m);
    OnceMore(s.up, Up(m, false, Waiting(s.stage)), s.reader, Serving);
    OnceMore(s.up, Up(m, false, None), s.reader, Ended);
  }

  lemma ReleasedKeeps(registers: bool, s: State, m: Message)
    requires Right(registers, s) && s.reader == Held(m) && !s.stage.Register?
    ensures Right(registers, s.(reader := Deciding(m)))
  {
    hide CameLog, MayReachPortal;
    SameHand(s, s.(reader := Deciding(m)));
    hide UpLog, Withheld;
  }

  lemma ProceededKeeps(registers: bool, s: State, pass: bool, sent: bool)
    requires Right(registers, s)
    ensures Right(registers, Proceeded(s, pass, sent))
  {
    hide Right, Upwards, Barred, MovedOn, WithOurs;
    match s.reader
    case SendHello(m) => HelloKeeps(registers, s, m);
    case AwaitHello(m) => if !s.stage.Hello? { MovedOnKeeps(registers, s, m); }
    case SendRegister(own) => OurCallKeeps(registers, s, own);
    case Held(m) => if !s.stage.Register? { ReleasedKeeps(registers, s, m); }
    case Deciding(m) => DecidedKeeps(registers, s, m);
    case _ =>
  }

  lemma NothingWithheld()
    ensures Withheld([]) == 0
  {
  }

  lemma SameHand(s: State, t: State)
    requires UpLog(s) && InHand(t.reader) == InHand(s.reader)
    requires t.read == s.read && t.fate == s.fate && t.up == s.up
    ensures UpLog(t)
  {
  }

  /** Our call goes up, and is none of the program's messages. */
  lemma OursLogged(s: State, own: serial)
    requires UpLog(s) && s.reader.SendRegister? && (s.stage.Register? ==> s.stage.own == own)
    ensures UpLog(WithOurs(s, own))
  {
    hide OfProgram, Kept;
    OneUp(s.up, OurCall(own, s.stage));
  }

  lemma SwallowedKeeps(registers: bool, s: State, m: Message, ours: bool)
    requires Right(registers, s) && IsReply(m) && (m.replyTo.value, ours) in s.inFlight && s.outstanding == m.replyTo
    ensures Right(registers, Swallowed(s, m, ours))
  {
    hide MayReachPortal;
    var t := Swallowed(s, m, ours);
    var here := Came(m, ours, s.stage.Register?, true);
    SameHand(s, t);
    hide UpLog;
    OneCame(s.came, here);
    hide Withheld;
    OneReply(s.came, s.portal, here, t.portal);
    StillDown(s.came, s.down, here);
    hide CameLog, DownLog;
  }

  lemma NoticedLogs(s: State, m: Message, ours: bool)
    requires UpLog(s) && CameLog(s.came, s.portal) && DownLog(s.came, s.down) && IsReply(m)
    requires s.stage.Register? ==> !ours
    ensures var t := Noticed(s, m, ours);
            && UpLog(t) && CameLog(t.came, t.portal) && DownLog(t.came, t.down) && Passed(t.came, m)
            && Withheld(t.came) == Withheld(s.came)
  {
    hide MayReachPortal, DownLog, Passed;
    var here := Came(m, ours, s.stage.Register?, false);
    SameHand(s, Noticed(s, m, ours));
    OneCame(s.came, here);
    OneReply(s.came, s.portal, here, s.portal);
    StillDown(s.came, s.down, here);
  }

  lemma NotOurs(s: State, m: Message, ours: bool)
    requires Awaited(s) && IsReply(m) && (m.replyTo.value, ours) in s.inFlight && s.outstanding != m.replyTo
    ensures s.stage.Register? ==> !ours
  {
    hide Withheld;
  }

  lemma NoticedKeeps(registers: bool, s: State, m: Message, ours: bool)
    requires Right(registers, s) && s.bus == Open
    requires IsReply(m) && (m.replyTo.value, ours) in s.inFlight && s.outstanding != m.replyTo
    ensures Right(registers, Noticed(s, m, ours)) && Passed(Noticed(s, m, ours).came, m)
  {
    hide UpLog, OursOnce, CameLog, DownLog, Passed, Withheld, IsReply, Placed, Awaited, Over;
    NotOurs(s, m, ours);
    NoticedLogs(s, m, ours);
    NoticedStands(registers, s, m, ours);
  }

  lemma NoticedStands(registers: bool, s: State, m: Message, ours: bool)
    requires Placed(registers, s) && Awaited(s) && Over(s) && s.bus == Open && IsReply(m)
    requires (m.replyTo.value, ours) in s.inFlight && s.outstanding != m.replyTo
    ensures var t := Noticed(s, m, ours); Placed(registers, t) && Awaited(t) && Over(t)
  {
    hide MayReachPortal, CallsPortal, Withheld, IsReply;
    OneCame(s.came, Came(m, ours, s.stage.Register?, false));
  }

  lemma DownwardsKeeps(registers: bool, s: State, m: Message, sent: bool)
    requires Right(registers, s) && s.bus == Open && (IsReply(m) ==> Passed(s.came, m))
    ensures Right(registers, Downwards(s, m, sent))
  {
    hide MayReachPortal, CallsPortal, CameLog, DownLog, Passed, Withheld;
    SameHand(s, Downwards(s, m, sent));
    OneDown(s.came, s.down, m);
    hide UpLog;
  }

  lemma AnsweredKeeps(registers: bool, s: State, m: Message, ours: bool, sent: bool)
    requires Right(registers, s) && s.bus == Open && IsReply(m) && (m.replyTo.value, ours) in s.inFlight
    ensures Right(registers, Answered(s, m, ours, sent))
  {
    hide Right, Swallowed, Downwards, Passed;
    if s.outstanding == m.replyTo {
      SwallowedKeeps(registers, s, m, ours);
    } else {
      NoticedKeeps(registers, s, m, ours);
      DownwardsKeeps(registers, Noticed(s, m, ours), m, sent);
    }
  }

  /** Whatever happens, a connection stays as it should be. */
  lemma NextKeeps(registers: bool, s: State, h: Happening)
    requires Right(registers, s)
    ensures Right(registers, Next(registers, s, h))
  {
    hide Taken, Proceeded, Answered, Downwards, Right;
    match h
    case Sends(m) => TakenKeeps(registers, s, m);
    case GoesOn(pass, sent) => ProceededKeeps(registers, s, pass, sent);
    case Replies(m, ours, sent) =>
      if s.bus == Open && IsReply(m) && (m.replyTo.value, ours) in s.inFlight {
        AnsweredKeeps(registers, s, m, ours, sent);
      }
    case Says(m, sent) => if s.bus == Open && !IsReply(m) { DownwardsKeeps(registers, s, m, sent); }
    case BusEnds => BusEndKeeps(registers, s);
    case BusShuts => ShutKeeps(registers, s);
    case ProgramLeaves => LeaveKeeps(registers, s);
    case ProgramEnds => FinishKeeps(registers, s);
  }

  lemma BusEndKeeps(registers: bool, s: State)
    requires Right(registers, s)
    ensures Right(registers, Next(registers, s, BusEnds))
  {
    hide MayReachPortal, CameLog, Withheld;
    SameHand(s, Next(registers, s, BusEnds));
    hide UpLog;
  }

  lemma ShutKeeps(registers: bool, s: State)
    requires Right(registers, s)
    ensures Right(registers, Next(registers, s, BusShuts))
  {
    hide MayReachPortal, CameLog, Withheld;
    SameHand(s, Next(registers, s, BusShuts));
    hide UpLog;
  }

  lemma LeaveKeeps(registers: bool, s: State)
    requires Right(registers, s)
    ensures Right(registers, Next(registers, s, ProgramLeaves))
  {
    hide MayReachPortal, CameLog, Withheld;
    SameHand(s, Next(registers, s, ProgramLeaves));
    hide UpLog;
  }

  lemma FinishKeeps(registers: bool, s: State)
    requires Right(registers, s)
    ensures Right(registers, Next(registers, s, ProgramEnds))
  {
    hide MayReachPortal, CameLog, Withheld;
    SameHand(s, Next(registers, s, ProgramEnds));
    hide UpLog;
  }

  lemma {:induction false} AfterRight(registers: bool, hs: seq<Happening>)
    ensures Right(registers, After(registers, hs))
  {
    hide Next, Right;
    if hs == [] {
      StartRight(registers);
    } else {
      AfterRight(registers, hs[..|hs| - 1]);
      NextKeeps(registers, After(registers, hs[..|hs| - 1]), hs[|hs| - 1]);
    }
  }

  // ---- What holds of every run ----

  /** What one step does while ours is unsettled. Goes up: ours, or what neither calls the portal
      nor bears our serial. Kept from the program: the answer to ours, and nothing else. A message
      just read is held if it calls the portal or bears our serial, and only then, and stays
      held. */
  ghost predicate RightStep(s: State, t: State) {
    && |t.up| <= |s.up| + 1 && |t.came| <= |s.came| + 1
    && (|t.up| > |s.up| ==> t.up[|s.up|].waiting == if s.stage.Register? then Some(s.stage.own) else None)
    && (|t.came| > |s.came| ==> t.came[|s.came|].unsettled == s.stage.Register?)
    && (s.stage.Register? && |t.up| > |s.up| ==>
          var u := t.up[|s.up|]; u.ours || (!CallsPortal(u.m) && u.m.number != s.stage.own))
    && (s.stage.Register? && |t.came| > |s.came| ==>
          var c := t.came[|s.came|]; c.withheld <==> c.ours)
    && (s.reader == Serving && |t.read| > |s.read| ==>
          var m := t.read[|s.read|];
          t.reader == if s.stage.Register? && (CallsPortal(m) || m.number == s.stage.own) then Held(m) else Deciding(m))
    && (s.stage.Register? && s.reader.Held? ==> t.reader == s.reader)
  }

  lemma StepIsRight(registers: bool, s: State, h: Happening)
    requires Right(registers, s)
    ensures RightStep(s, Next(registers, s, h))
  {
    hide Taken, Proceeded, Answered, Right, CallsPortal;
    match h
    case Sends(m) => TakenRight(registers, s, m);
    case GoesOn(pass, sent) => ProceededRight(registers, s, pass, sent);
    case Replies(m, ours, sent) =>
      if s.bus == Open && IsReply(m) && (m.replyTo.value, ours) in s.inFlight {
        AnsweredRight(registers, s, m, ours, sent);
      }
    case _ =>
  }

  lemma TakenRight(registers: bool, s: State, m: Message)
    requires Right(registers, s)
    ensures RightStep(s, Taken(registers, s, m))
  {
    hide UpLog, OursOnce, CameLog, DownLog, Withheld, Over, MayReachPortal, CallsPortal;
    MayReachIs(m);
  }

  lemma ProceededRight(registers: bool, s: State, pass: bool, sent: bool)
    requires Right(registers, s)
    ensures RightStep(s, Proceeded(s, pass, sent))
  {
    hide UpLog, OursOnce, CameLog, DownLog, Awaited, Over, MayReachPortal, CallsPortal, RegisterSerial;
    match s.reader {
      case SendHello(_) =>
      case AwaitHello(_) =>
      case SendRegister(_) =>
      case Held(_) =>
      case Deciding(m) => MayReachIs(m);
      case _ =>
    }
  }

  lemma AnsweredRight(registers: bool, s: State, m: Message, ours: bool, sent: bool)
    requires Right(registers, s) && IsReply(m) && (m.replyTo.value, ours) in s.inFlight
    ensures RightStep(s, Answered(s, m, ours, sent))
  {
    hide Placed, UpLog, OursOnce, CameLog, DownLog, Withheld, Over, CallsPortal;
    if s.outstanding != m.replyTo { NotOurs(s, m, ours); }
  }

  /** What holds of all of a connection so far. Nothing of the program's went up, while ours was
      unsettled, that is a call of the portal's name or of a unique name or that bears our
      serial; its messages went up in its order; ours, a call of the portal, at most once. At most
      one reply was kept from the program, and while ours was unsettled the answer to it and
      nothing else; every other answer the program got came as one. The portal is whoever
      answered our own call. */
  ghost predicate WholeRun(s: State) {
    && (forall u :: u in s.up && !u.ours && u.waiting.Some? ==>
                    && u.m.number != u.waiting.value
                    && (u.m.kind == Call && u.m.destination.Some? ==>
                          && u.m.destination.value != "org.freedesktop.portal.Desktop"
                          && (u.m.destination.value == "" || u.m.destination.value[0] != ':')))
    && (forall u :: u in s.up && u.ours ==>
                    u.m.kind == Call && u.m.destination == Some("org.freedesktop.portal.Desktop") && u.m.wantsReply)
    && (forall i, j :: 0 <= i < j < |s.up| ==> !(s.up[i].ours && s.up[j].ours))
    && |s.fate| <= |s.read| && OfProgram(s.up) == Kept(s.read, s.fate)
    && Withheld(s.came) <= 1
    && (forall c :: c in s.came && c.unsettled ==> (c.withheld <==> c.ours))
    && (forall m :: m in s.down && (m.kind == Return || m.kind == Failure) && m.replyTo.Some? ==> Passed(s.came, m))
    && (s.portal.Some? ==> exists c :: c in s.came && Names(c, s.portal))
  }

  /** Whatever happened, in whatever order: all of it is right, and so was every step. */
  lemma EveryRun(registers: bool, hs: seq<Happening>)
    ensures WholeRun(After(registers, hs))
    ensures forall i :: 0 <= i < |hs| ==> RightStep(After(registers, hs[..i]), After(registers, hs[..i + 1]))
  {
    AfterRight(registers, hs);
    RightIsWhole(registers, After(registers, hs));
    hide After, Next, RightStep, Right;
    forall i | 0 <= i < |hs| ensures RightStep(After(registers, hs[..i]), After(registers, hs[..i + 1])) {
      AfterRight(registers, hs[..i]);
      AfterMore(registers, hs, i);
      StepIsRight(registers, After(registers, hs[..i]), hs[i]);
    }
  }

  lemma RightIsWhole(registers: bool, s: State)
    requires Right(registers, s)
    ensures WholeRun(s)
  {
    hide Placed, Over, OfProgram, Kept, Withheld, Names, Passed;
    forall u | u in s.up ensures UpRight(u) {
    }
    forall c | c in s.came ensures CameRight(c) {
    }
  }

  /** What was read, let up, answered and passed down is never taken back, and a portal once
      named stays. */
  ghost predicate GoesOnFrom(s: State, t: State) {
    && s.read <= t.read && s.fate <= t.fate && s.up <= t.up && s.came <= t.came && s.down <= t.down
    && (s.portal.Some? ==> t.portal == s.portal)
  }

  lemma NextGoesOn(registers: bool, s: State, h: Happening)
    requires Awaited(s)
    ensures GoesOnFrom(s, Next(registers, s, h))
  {
    hide Taken, Proceeded, Answered, MustWait, Withheld;
    match h
    case Sends(m) => TakenGoesOn(registers, s, m);
    case GoesOn(pass, sent) => ProceededGoesOn(s, pass, sent);
    case Replies(m, ours, sent) => if IsReply(m) { AnsweredGoesOn(s, m, ours, sent); }
    case _ =>
  }

  lemma TakenGoesOn(registers: bool, s: State, m: Message)
    ensures GoesOnFrom(s, Taken(registers, s, m))
  {
    hide MustWait;
  }

  lemma ProceededGoesOn(s: State, pass: bool, sent: bool)
    ensures GoesOnFrom(s, Proceeded(s, pass, sent))
  {
    hide RegisterSerial, OurCall, Waiting;
    match s.reader {
      case SendHello(_) =>
      case AwaitHello(_) =>
      case SendRegister(_) =>
      case Held(_) =>
      case Deciding(_) =>
      case _ =>
    }
  }

  lemma AnsweredGoesOn(s: State, m: Message, ours: bool, sent: bool)
    requires IsReply(m) && Awaited(s)
    ensures GoesOnFrom(s, Answered(s, m, ours, sent))
  {
    hide Withheld;
  }

  lemma GoesOnOn(s: State, t: State, u: State)
    requires GoesOnFrom(s, t) && GoesOnFrom(t, u)
    ensures GoesOnFrom(s, u)
  {
  }

  lemma {:induction false} AfterGoesOn(registers: bool, hs: seq<Happening>, i: nat)
    requires i <= |hs|
    ensures GoesOnFrom(After(registers, hs[..i]), After(registers, hs))
    decreases |hs|
  {
    hide Next, GoesOnFrom;
    if i == |hs| {
      assert hs[..i] == hs;
      Itself(After(registers, hs));
    } else {
      var most := hs[..|hs| - 1];
      assert most[..i] == hs[..i];
      AfterGoesOn(registers, most, i);
      AfterRight(registers, most);
      assert Awaited(After(registers, most));
      NextGoesOn(registers, After(registers, most), hs[|hs| - 1]);
      GoesOnOn(After(registers, hs[..i]), After(registers, most), After(registers, hs));
    }
  }

  lemma Itself(s: State)
    ensures GoesOnFrom(s, s)
  {
  }

  // ---- Who is left waiting ----

  /** Whether the reader waits for an answer to come. */
  ghost predicate Waits(s: State) {
    (s.reader.AwaitHello? && s.stage.Hello?) || (s.reader.Held? && s.stage.Register?)
  }

  /** After the bus side said that it went the reader waits exactly when it went before the
      first message was taken, that was a Hello, and it still went up: then the Hello was
      noted down after the end was, and nobody is left to say so again. */
  lemma WaitsForNobody(registers: bool, hs: seq<Happening>)
    requires After(registers, hs).bus == Gone || After(registers, hs).bus == Shut
    ensures var s := After(registers, hs); Waits(s) <==> s.goneFirst && s.reader.AwaitHello?
  {
    AfterRight(registers, hs);
    hide After, UpLog, CameLog, MayReachPortal, Withheld;
  }

  /** And it waits whatever happens then. */
  lemma {:induction false} WaitsForever(registers: bool, hs: seq<Happening>, more: seq<Happening>)
    requires BusOver(After(registers, hs).bus) && Waits(After(registers, hs))
    ensures BusOver(After(registers, hs + more).bus) && Waits(After(registers, hs + more))
    decreases |more|
  {
    if more == [] {
      assert hs + more == hs;
    } else {
      var most := hs + more[..|more| - 1];
      assert (hs + more)[..|hs + more| - 1] == most && (hs + more)[|hs + more| - 1] == more[|more| - 1];
      WaitsForever(registers, hs, more[..|more| - 1]);
      WaitsForNobody(registers, most);
      StillWaits(registers, After(registers, most), more[|more| - 1]);
    }
  }

  lemma StillWaits(registers: bool, s: State, h: Happening)
    requires BusOver(s.bus) && s.reader.AwaitHello? && s.stage.Hello?
    ensures var t := Next(registers, s, h); BusOver(t.bus) && Waits(t)
  {
  }

  /** The run in which that happens: the bus side goes, the program's Hello is taken, and it
      goes up before the sockets are shut. Sent after that, it ends the reader instead. */
  lemma LeftWaiting(hello: Message)
    requires hello.hello && hello.wantsReply
    ensures var s := After(true, [BusEnds, Sends(hello), GoesOn(true, true), BusShuts]);
            s.bus == Shut && Waits(s)
    ensures var s := After(true, [BusEnds, Sends(hello), BusShuts, GoesOn(true, true)]);
            s.bus == Shut && s.reader == Ended
  {
    var gone := START.(stage := Closed, bus := Gone, goneFirst := true);
    var noted := gone.(stage := Hello(hello.number), reader := SendHello(hello), read := [hello]);
    assert Next(true, START, BusEnds) == gone;
    assert Next(true, gone, Sends(hello)) == noted by { assert gone.read + [hello] == [hello]; }
    FourDone([BusEnds, Sends(hello), GoesOn(true, true), BusShuts]);
    FourDone([BusEnds, Sends(hello), BusShuts, GoesOn(true, true)]);
    hide After;
    assert Next(true, noted, GoesOn(true, true)).reader == AwaitHello(hello);
    assert Next(true, noted, BusShuts) == noted.(bus := Shut);
  }

  lemma FourDone(hs: seq<Happening>)
    requires |hs| == 4
    ensures After(true, hs) == Next(true, Next(true, Next(true, Next(true, START, hs[0]), hs[1]), hs[2]), hs[3])
  {
    hide Next, After;
    AfterNothing(true);
    assert hs[..0] == [] && hs[..4] == hs;
    AfterMore(true, hs, 0);
    AfterMore(true, hs, 1);
    AfterMore(true, hs, 2);
    AfterMore(true, hs, 3);
  }

  // ---- The connection ----

  /** A reply's effect case by case. */
  lemma SettledIs(s: State, m: Message, ours: bool)
    requires IsReply(m)
    ensures var number := m.replyTo.value;
            var noted := s.(inFlight := s.inFlight - multiset{(number, ours)},
                            came := s.came + [Came(m, ours, s.stage.Register?, s.outstanding == m.replyTo)]);
            && (s.outstanding == m.replyTo && s.stage != Register(number) ==>
                  Swallowed(s, m, ours) == noted.(outstanding := None))
            && (s.outstanding == m.replyTo && s.stage == Register(number) && m.kind == Return && m.sender.Some? ==>
                  Swallowed(s, m, ours) == noted.(outstanding := None, stage := Done, portal := m.sender))
            && (s.outstanding == m.replyTo && s.stage == Register(number) && !(m.kind == Return && m.sender.Some?) ==>
                  Swallowed(s, m, ours) == noted.(outstanding := None, stage := Done))
            && (s.outstanding != m.replyTo && s.stage == Hello(number) ==>
                  Noticed(s, m, ours) == noted.(stage := Welcomed(m.kind == Return)))
            && (s.outstanding != m.replyTo && s.stage != Hello(number) ==> Noticed(s, m, ours) == noted)
  {
  }

  /** Only our call's answer names the portal, and a reply itself passes nothing down. */
  lemma RepliesAre(registers: bool, s: State, m: Message, ours: bool)
    requires IsReply(m) && (m.replyTo.value, ours) in s.inFlight
    ensures Swallowed(s, m, ours).down == s.down == Noticed(s, m, ours).down
    ensures Noticed(s, m, ours).portal == s.portal
    ensures s.outstanding == m.replyTo && Right(registers, s) && Swallowed(s, m, ours).portal != s.portal ==>
              ours && s.stage == Register(m.replyTo.value)
  {
    hide UpLog, CameLog, Withheld, Placed, Over;
  }

  class Connection {
    /** Whether connections of this filter are registered at all. */
    const registers: bool
    var stage: Stage
    var outstanding: Option<serial>
    var portal: Option<string>
    var reader: Reader
    var bus: Bus

    /** What the bus may still answer, and whose calls they are. */
    var inFlight: multiset<(serial, bool)>
    ghost var read: seq<Message>
    ghost var fate: seq<bool>
    ghost var up: seq<Up>
    ghost var came: seq<Came>
    ghost var down: seq<Message>
    /** Whether the bus side went before the first message. */
    ghost var goneFirst: bool

    ghost function View(): State
      reads this
    {
      State(stage, outstanding, portal, reader, bus, inFlight, read, fate, up, came, down, goneFirst)
    }

    constructor (registers: bool)
      ensures View() == START && this.registers == registers
    {
      this.registers := registers;
      stage, outstanding, portal, reader, bus := Idle, None, None, First, Open;
      inFlight, read, fate, up, came, down, goneFirst := multiset{}, [], [], [], [], [], false;
    }

    // ---- The program's side ----

    /** The first message: where connections are registered, a Hello that wants its answer,
        or the connection ends. */
    method ReadFirst(m: Message)
      requires reader == First
      modifies this`stage, this`reader, this`read, this`fate
      ensures View() == Taken(registers, old(View()), m)
      ensures reader == if !registers then Deciding(m) else if m.hello && m.wantsReply then SendHello(m) else Ended
    {
      read := read + [m];
      if registers && !(m.hello && m.wantsReply) {
        fate := fate + [false];
        reader := Ended;
      } else if registers {
        stage := Hello(m.number);
        reader := SendHello(m);
      } else {
        reader := Deciding(m);
      }
    }

    /** A message of the program's goes up. */
    method Sent(m: Message)
      modifies this`up, this`fate, this`inFlight
      ensures View() == Upwards(old(View()), m)
    {
      up := up + [Up(m, false, Waiting(stage))];
      fate := fate + [true];
      inFlight := inFlight + multiset{(m.number, false)};
    }

    /** Shut sockets take nothing. */
    predicate Goes(sent: bool)
      reads `bus
    {
      sent && bus != Shut
    }

    method PassHello(sent: bool)
      requires reader.SendHello?
      modifies this`reader, this`up, this`fate, this`inFlight
      ensures forall pass :: View() == Proceeded(old(View()), pass, sent)
      ensures reader == if Goes(sent) then AwaitHello(old(reader).m) else Ended
    {
      if Goes(sent) {
        Sent(reader.m);
        reader := AwaitHello(reader.m);
      } else {
        fate := fate + [false];
        reader := Ended;
      }
    }

    /** The answer to the Hello came: atomically, our call becomes the one awaited. */
    method MoveOn()
      requires reader.AwaitHello? && !stage.Hello?
      modifies this`stage, this`outstanding, this`reader
      ensures forall pass, sent :: View() == Proceeded(old(View()), pass, sent)
      ensures old(stage) == Welcomed(true) ==> reader == SendRegister(RegisterSerial(old(reader).m.number))
                                               && stage == Register(RegisterSerial(old(reader).m.number))
      ensures old(stage) != Welcomed(true) ==> reader == Serving && outstanding == old(outstanding)
      ensures old(stage) == Welcomed(false) ==> stage == Done
      ensures old(stage) == Closed ==> stage == Closed
    {
      var own := RegisterSerial(reader.m.number);
      if stage == Welcomed(true) {
        stage := Register(own);
        outstanding := Some(own);
        reader := SendRegister(own);
      } else {
        if stage != Closed { stage := Done; }
        reader := Serving;
      }
    }

    /** Our own call goes up. */
    method PassRegister(sent: bool)
      requires reader.SendRegister?
      modifies this`reader, this`up, this`inFlight
      ensures forall pass :: View() == Proceeded(old(View()), pass, sent)
      ensures up == if Goes(sent) then old(up) + [OurCall(old(reader).own, stage)] else old(up)
    {
      if Goes(sent) {
        up := up + [OurCall(reader.own, stage)];
        inFlight := inFlight + multiset{(reader.own, true)};
        reader := Serving;
      } else {
        reader := Ended;
      }
    }

    method ReadNext(m: Message)
      requires reader == Serving
      modifies this`reader, this`read
      ensures View() == Taken(registers, old(View()), m)
      ensures reader == if stage.Register? && (CallsPortal(m) || outstanding == Some(m.number)) then Held(m)
                        else Deciding(m)
    {
      MayReachIs(m);
      read := read + [m];
      reader := if MustWait(stage, outstanding, m) then Held(m) else Deciding(m);
    }

    /** A held message goes on once the registration is settled, or given up. */
    method Release()
      requires reader.Held? && !stage.Register?
      modifies this`reader
      ensures forall pass, sent :: View() == Proceeded(old(View()), pass, sent)
    {
      reader := Deciding(reader.m);
    }

    /** The message goes up, or is answered or refused here. */
    method Decide(pass: bool, sent: bool)
      requires reader.Deciding?
      modifies this`reader, this`up, this`fate, this`inFlight
      ensures View() == Proceeded(old(View()), pass, sent)
      ensures Right(registers, old(View())) && pass && stage.Register? ==>
                !CallsPortal(old(reader).m) && old(reader).m.number != stage.own
      ensures up == if pass && Goes(sent) then old(up) + [Up(old(reader).m, false, Waiting(stage))] else old(up)
    {
      MayReachIs(reader.m);
      if pass && Goes(sent) {
        Sent(reader.m);
        reader := Serving;
      } else {
        fate := fate + [false];
        reader := if !pass && sent then Serving else Ended;
      }
    }

    /** The program's side ended. */
    method Finish()
      requires reader == First || reader == Serving
      modifies this`reader
      ensures View() == Next(registers, old(View()), ProgramEnds)
    {
      reader := Ended;
    }

    // ---- The bus's side ----

    /** What a reply makes of the registration; true: it is ours, and kept from the program. */
    method Settle(m: Message, ours: bool) returns (mine: bool)
      requires IsReply(m) && (m.replyTo.value, ours) in inFlight
      modifies this`stage, this`outstanding, this`portal, this`inFlight, this`came
      ensures mine <==> old(outstanding) == m.replyTo
      ensures View() == if mine then Swallowed(old(View()), m, ours) else Noticed(old(View()), m, ours)
    {
      hide Swallowed, Noticed;
      SettledIs(View(), m, ours);
      var number := m.replyTo.value;
      inFlight := inFlight - multiset{(number, ours)};
      came := came + [Came(m, ours, stage.Register?, outstanding == Some(number))];
      if outstanding == Some(number) {
        outstanding := None;
        if stage != Register(number) { return true; }
        stage := Done;
        if m.kind == Return && m.sender.Some? { portal := m.sender; }
        return true;
      }
      if stage == Hello(number) { stage := Welcomed(m.kind == Return); }
      return false;
    }

    /** A reply from the bus, which answers only what was sent on this connection: a call of
        ours or a message of the program's. */
    method Reply(m: Message, ours: bool, sent: bool)
      requires bus == Open && IsReply(m) && (m.replyTo.value, ours) in inFlight
      modifies this`stage, this`outstanding, this`portal, this`bus, this`inFlight, this`came, this`down
      ensures View() == Answered(old(View()), m, ours, sent)
      ensures down == if old(outstanding) != m.replyTo && sent then old(down) + [m] else old(down)
      ensures Right(registers, old(View())) && portal != old(portal) ==>
              ours && old(stage) == Register(m.replyTo.value)
    {
      hide Swallowed, Noticed, Right;
      RepliesAre(registers, View(), m, ours);
      var mine := Settle(m, ours);
      if mine { return; }
      Deliver(m, sent);
    }

    /** What the program is to have goes down as it comes. */
    method Deliver(m: Message, sent: bool)
      modifies this`bus, this`down
      ensures View() == Downwards(old(View()), m, sent)
    {
      if sent { down := down + [m]; } else { bus := Broken; }
    }

    /** The bus closed: what still depends on its answers is settled without them. */
    method BusGone()
      requires !BusOver(bus)
      modifies this`stage, this`bus, this`goneFirst
      ensures View() == Next(registers, old(View()), BusEnds)
      ensures stage == if old(stage) == Done then Done else Closed
    {
      if stage != Done { stage := Closed; }
      bus, goneFirst := Gone, reader == First;
    }

    /** And then both sockets are shut. */
    method ShutDown()
      requires bus == Gone
      modifies this`bus
      ensures View() == Next(registers, old(View()), BusShuts)
    {
      bus := Shut;
    }

    /** The program closed while a message of its was held back. */
    method ProgramGone()
      requires reader.Held?
      modifies this`stage
      ensures View() == Next(registers, old(View()), ProgramLeaves)
      ensures stage == if old(stage).Register? then Closed else old(stage)
    {
      if stage.Register? { stage := Closed; }
    }
  }

  // ---- Interleavings ----

  /** The reader takes its next step, if it need not wait. */
  method GoOn(c: Connection, pass: bool, sent: bool)
    modifies c
    ensures c.View() == Proceeded(old(c.View()), pass, sent)
  {
    hide Upwards, OurCall, MovedOn, Barred;
    match c.reader {
      case SendHello(m) =>
        c.PassHello(sent);
      case AwaitHello(_) =>
        if !c.stage.Hello? { c.MoveOn(); }
      case SendRegister(own) =>
        c.PassRegister(sent);
      case Held(_) =>
        if !c.stage.Register? { c.Release(); }
      case Deciding(m) =>
        c.Decide(pass, sent);
      case _ =>
    }
  }

  /** One thing happens, if it can: the connection is what that makes of it. */
  method Happen(c: Connection, h: Happening)
    modifies c
    ensures c.View() == Next(c.registers, old(c.View()), h)
  {
    hide Proceeded, Answered, Downwards, MustWait;
    match h {
      case Sends(m) =>
        if c.reader == First { c.ReadFirst(m); } else if c.reader == Serving { c.ReadNext(m); }
      case GoesOn(pass, sent) =>
        GoOn(c, pass, sent);
      case Replies(m, ours, sent) =>
        if c.bus == Open && IsReply(m) && (m.replyTo.value, ours) in c.inFlight { c.Reply(m, ours, sent); }
      case Says(m, sent) =>
        if c.bus == Open && !IsReply(m) { c.Deliver(m, sent); }
      case BusEnds =>
        if !BusOver(c.bus) { c.BusGone(); }
      case BusShuts =>
        if c.bus == Gone { c.ShutDown(); }
      case ProgramLeaves =>
        if c.reader.Held? { c.ProgramGone(); }
      case ProgramEnds =>
        if c.reader == First || c.reader == Serving { c.Finish(); }
    }
  }

  /** Every interleaving of the two directions, the bus's end and the program's: the
      connection is, after each of them, what they make of it, and so all of `EveryRun` holds
      of it. */
  method Interleaved(registers: bool, hs: seq<Happening>) returns (c: Connection, ghost states: seq<State>)
    ensures c.registers == registers && |states| == |hs| + 1 && states[0] == START && states[|hs|] == c.View()
    ensures forall i :: 0 <= i < |hs| ==> states[i + 1] == Next(registers, states[i], hs[i])
    ensures c.View() == After(registers, hs)
    ensures WholeRun(c.View()) && forall i :: 0 <= i < |hs| ==> RightStep(states[i], states[i + 1])
  {
    hide Next, After, Right, RightStep, WholeRun;
    c := new Connection(registers);
    states := [START];
    AfterNothing(registers);
    assert hs[..0] == [];
    for i := 0 to |hs|
      invariant c.registers == registers && fresh(c) && c.View() == After(registers, hs[..i])
      invariant |states| == i + 1 && states[0] == START && states[i] == c.View()
      invariant forall k :: 0 <= k < i ==> states[k + 1] == Next(registers, states[k], hs[k])
      invariant forall k :: 0 <= k < i ==> RightStep(states[k], states[k + 1])
    {
      AfterMore(registers, hs, i);
      AfterRight(registers, hs[..i]);
      StepIsRight(registers, states[i], hs[i]);
      Happen(c, hs[i]);
      states := states + [c.View()];
    }
    assert hs[..|hs|] == hs;
    EveryRun(registers, hs);
  }

  lemma AfterNothing(registers: bool)
    ensures After(registers, []) == START
  {
  }

  lemma AfterMore(registers: bool, hs: seq<Happening>, i: nat)
    requires i < |hs|
    ensures After(registers, hs[..i + 1]) == Next(registers, After(registers, hs[..i]), hs[i])
  {
    hide Next;
    assert hs[..i + 1][..i] == hs[..i];
  }
}
