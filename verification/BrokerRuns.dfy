/** Runs of a broker: any sequence of its calls. */
module BrokerRuns {
  import opened Wrappers
  import opened Codec
  import opened Brokers

  datatype Ask =
    | AskRegister
    | AskRemove(instance: u64)
    | AskSet(instance: u64, sel: Selection, contents: seq<Payload>)
    | AskClear(instance: u64, sel: Selection)
    | AskTypes(instance: u64, sel: Selection)
    | AskRead(instance: u64, sel: Selection, revision: u64, mime: bytes)
    | AskTransfer(instance: u64, onto: u64, sel: Selection, revision: u64)

  datatype Answer =
    | Given(number: Result<u64, Error>)
    | Done(done: Result<(), Error>)
    | Listed(types: Result<Option<(u64, seq<bytes>)>, Error>)
    | Read(data: Result<bytes, Error>)

  /** What a call answers and what it leaves, said of what is there without the objects. */
  function Direct(limits: Limits, control: Control, s: Snapshot, total: nat, ask: Ask): (Answer, Snapshot) {
    match ask
    case AskRegister =>
      if |s.instances| >= limits.instances then (Given(Err(Limit)), s)
      else if s.next + 1 >= TWO_64 then (Given(Err(Exhausted)), s)
      else (Given(Ok(s.next + 1)), Snapshot(s.next + 1, s.instances[s.next + 1 := Slots(None, None)]))
    case AskRemove(i) =>
      if i !in s.instances then (Done(Err(UnknownInstance)), s)
      else (Done(Ok(())), s.(instances := s.instances - {i}))
    case AskSet(i, sel, contents) => SetDirectly(limits, control, s, total, i, sel, contents)
    case AskClear(i, sel) =>
      if i !in s.instances then (Done(Err(UnknownInstance)), s) else (Done(Ok(())), Placed(s, i, sel, None))
    case AskTypes(i, sel) =>
      if i !in s.instances then (Listed(Err(UnknownInstance)), s)
      else
        (match s.instances[i].At(sel)
         case None => (Listed(Ok(None)), s)
         case Some(o) => (Listed(Ok(Some((o.revision, TypesOf(o.contents))))), s))
    case AskRead(i, sel, revision, mime) => (Read(ReadOf(s, i, sel, revision, mime)), s)
    case AskTransfer(i, onto, sel, revision) =>
      if i !in s.instances then (Given(Err(UnknownInstance)), s)
      else
        (match s.instances[i].At(sel)
         case None => (Given(Err(StaleOffer)), s)
         case Some(o) =>
           if o.revision != revision then (Given(Err(StaleOffer)), s)
           else SetDirectly(limits, control, s, total, onto, sel, Cloned(o.contents)))
  }

  function SetDirectly(limits: Limits, control: Control, s: Snapshot, total: nat, i: u64, sel: Selection,
                       contents: seq<Payload>): (Answer, Snapshot)
  {
    match Refusal(limits, control, s, total, i, sel, contents)
    case Some(e) => (Given(Err(e)), s)
    case None =>
      UnusedNumber(limits, control, s, total, i, sel, contents);
      var offer := Offer(s.next + 1, contents, Reserved(contents));
      (Given(Ok(offer.revision)), Placed(s, i, sel, Some(offer)).(next := offer.revision))
  }

  lemma UnusedNumber(limits: Limits, control: Control, s: Snapshot, total: nat, i: u64, sel: Selection,
                     contents: seq<Payload>)
    requires Refusal(limits, control, s, total, i, sel, contents) == None
    ensures s.next + 1 < TWO_64
  {
    hide Weighed;
  }

  method ListTypes(broker: Broker, i: u64, sel: Selection) returns (answer: Answer)
    ensures answer == if i !in broker.instances then Listed(Err(UnknownInstance))
                      else match broker.instances[i].At(sel)
                           case None => Listed(Ok(None))
                           case Some(o) => Listed(Ok(Some((o.revision, TypesOf(o.contents)))))
  {
    var r := broker.Types(i, sel);
    if i in broker.instances && broker.instances[i].At(sel).Some? {
      assert Current(broker.State(), i, sel, broker.instances[i].At(sel).value);
    }
    answer := match r
      case Err(e) => Listed(Err(e))
      case Ok(None) => Listed(Ok(None))
      case Ok(Some((revision, mimes))) => Listed(Ok(Some((revision, mimes))));
  }

  /** The call asked for: the answer and the broker left are those said. */
  method Call(broker: Broker, ask: Ask) returns (answer: Answer)
    requires broker.Valid()
    modifies broker
    ensures broker.Valid() && broker.Grown()
    ensures (answer, broker.State()) == old(Direct(broker.limits, broker.control, broker.State(), broker.bytes, ask))
    ensures ask.AskRead? ==> answer.Read?
    ensures ask.AskRead? && answer.data.Ok? ==> ReadFrom(broker.origins, ask, answer.data.value)
  {
    hide Well, Advances, Refusal, Placed, Offerable, Reserved;
    SameAdvances(broker.State());
    match ask {
      case AskRegister =>
        var r := broker.Register();
        answer := Given(r);
      case AskRemove(i) =>
        var r := broker.Remove(i);
        answer := match r case Ok(_) => Done(Ok(())) case Err(e) => Done(Err(e));
      case AskSet(i, sel, contents) =>
        var r := broker.Set(i, sel, contents, None);
        answer := Given(r);
      case AskClear(i, sel) =>
        var r := broker.Clear(i, sel);
        answer := match r case Ok(_) => Done(Ok(())) case Err(e) => Done(Err(e));
      case AskTypes(i, sel) =>
        answer := ListTypes(broker, i, sel);
      case AskRead(i, sel, revision, mime) =>
        var r := broker.Read(i, sel, revision, mime);
        answer := Read(r);
      case AskTransfer(i, onto, sel, revision) =>
        var r := broker.TransferExplicit(i, onto, sel, revision);
        answer := Given(r);
    }
  }

  /** The data is what the call that made the revision put there, for this instance and
      selection. */
  ghost predicate ReadFrom(origins: map<u64, Origin>, ask: Ask, data: bytes)
    requires ask.AskRead?
  {
    && ask.revision in origins
    && origins[ask.revision].instance == ask.instance && origins[ask.revision].selection == ask.sel
    && DataOf(origins[ask.revision].contents, ask.mime) == Some(data)
  }

  /** Calls one after another on a new broker. What is served at a revision is, whenever it
      is served, what its one maker put there; an offer that was served and is refused once as
      gone is never served again. */
  method Play(limits: Limits, control: Control, asks: seq<Ask>)
    returns (broker: Broker, answers: seq<Answer>, ghost states: seq<Snapshot>)
    ensures broker.Valid() && |answers| == |asks| && |states| == |asks| + 1
    ensures IsBrokerRun(states) && states[0] == Snapshot(0, map[]) && states[|asks|] == broker.State()
    ensures Told(limits, control, asks, answers, states) && ReadsTold(asks, answers, states)
    ensures forall k :: 0 <= k < |asks| && asks[k].AskRead? && answers[k].data.Ok? ==>
                          ReadFrom(broker.origins, asks[k], answers[k].data.value)
    ensures forall h, i, j :: (0 <= h < i < j < |asks| && SameOffer(asks, h, i, j)
                               && answers[h].data.Ok? && GoneAnswer(answers[i].data)) ==> answers[j].data.Err?
  {
    hide Well, Advances, ReadFrom, IsBrokerRun, GoneAnswer, SameOffer, ReadOf, Told, Direct, Total;
    broker := new Broker(limits, control);
    answers, states := [], [broker.State()];
    StateNumbered(broker);
    OneState(limits, control, broker.State());
    for k := 0 to |asks|
      invariant broker.Valid() && fresh(broker)
      invariant |states| == k + 1 && states[0] == Snapshot(0, map[]) && states[k] == broker.State()
      invariant IsBrokerRun(states) && |answers| == k
      invariant Told(limits, control, asks[..k], answers, states) && ReadsTold(asks[..k], answers, states)
      invariant forall i :: 0 <= i < k && asks[i].AskRead? && answers[i].data.Ok? ==>
                              ReadFrom(broker.origins, asks[i], answers[i].data.value)
    {
      ghost var before := broker.origins;
      BytesAreTotal(broker);
      var answer := Call(broker, asks[k]);
      StateNumbered(broker);
      assert asks[..k + 1] == asks[..k] + [asks[k]];
      MoreStates(states, broker.State());
      ToldMore(limits, control, asks[..k], answers, states, asks[k], answer, broker.State());
      answers, states := answers + [answer], states + [broker.State()];
      StillFrom(asks[..k], answers[..k], before, broker.origins);
    }
    assert asks[..|asks|] == asks;
    OnceGone(asks, answers, states);
  }

  /** Every call was answered, and left the broker, as the state before it says. */
  ghost predicate Told(limits: Limits, control: Control, asks: seq<Ask>, answers: seq<Answer>, states: seq<Snapshot>)
    requires |answers| == |asks| < |states|
  {
    forall k :: 0 <= k < |asks| ==>
                  (answers[k], states[k + 1]) == Direct(limits, control, states[k], Total(states[k].instances), asks[k])
  }

  lemma OneState(limits: Limits, control: Control, s: Snapshot)
    requires Numbered(s)
    ensures IsBrokerRun([s]) && Told(limits, control, [], [], [s])
  {
  }

  lemma MoreStates(states: seq<Snapshot>, s: Snapshot)
    requires IsBrokerRun(states) && states != [] && Advances(states[|states| - 1], s) && Numbered(s)
    ensures IsBrokerRun(states + [s])
  {
    hide Advances, Numbered;
  }

  /** What a read was told is what the state at its call says. */
  ghost predicate ReadsTold(asks: seq<Ask>, answers: seq<Answer>, states: seq<Snapshot>)
    requires |answers| == |asks| <= |states|
  {
    forall k :: 0 <= k < |asks| && asks[k].AskRead? ==>
                  answers[k] == Read(ReadOf(states[k], asks[k].instance, asks[k].sel, asks[k].revision, asks[k].mime))
  }

  lemma BytesAreTotal(broker: Broker)
    requires broker.Valid()
    ensures broker.bytes == Total(broker.instances)
  {
  }

  lemma ToldMore(limits: Limits, control: Control, asks: seq<Ask>, answers: seq<Answer>, states: seq<Snapshot>,
                 ask: Ask, answer: Answer, s: Snapshot)
    requires |answers| == |asks| && |states| == |asks| + 1 && Told(limits, control, asks, answers, states)
    requires (answer, s) == Direct(limits, control, states[|asks|], Total(states[|asks|].instances), ask)
    ensures Told(limits, control, asks + [ask], answers + [answer], states + [s])
    ensures ReadsTold(asks, answers, states) ==> ReadsTold(asks + [ask], answers + [answer], states + [s])
  {
    hide Total, Refusal, ReadOf, Placed;
    if ask.AskRead? {
      assert answer == Read(ReadOf(states[|asks|], ask.instance, ask.sel, ask.revision, ask.mime));
    }
    hide Direct;
    var t := states + [s];
    assert forall k :: 0 <= k < |states| ==> t[k] == states[k];
  }

  /** Origins once recorded stay. */
  lemma StillFrom(asks: seq<Ask>, answers: seq<Answer>, was: map<u64, Origin>, now: map<u64, Origin>)
    requires |answers| == |asks| && forall r :: r in was ==> r in now && now[r] == was[r]
    ensures forall i :: (0 <= i < |asks| && asks[i].AskRead? && answers[i].Read? && answers[i].data.Ok?
                         && ReadFrom(was, asks[i], answers[i].data.value)) ==>
                            ReadFrom(now, asks[i], answers[i].data.value)
  {
  }

  lemma OnceGone(asks: seq<Ask>, answers: seq<Answer>, states: seq<Snapshot>)
    requires |answers| == |asks| < |states| && ReadsTold(asks, answers, states) && IsBrokerRun(states)
    ensures forall h, i, j :: (0 <= h < i < j < |asks| && SameOffer(asks, h, i, j)
                               && answers[h].data.Ok? && GoneAnswer(answers[i].data)) ==> answers[j].data.Err?
  {
    hide ReadOf, IsBrokerRun;
    forall h, i, j | 0 <= h < i < j < |asks| && SameOffer(asks, h, i, j) && answers[h].data.Ok?
      && GoneAnswer(answers[i].data)
      ensures answers[j].data.Err?
    {
      StaysGone(states, h, i, j, asks[h].instance, asks[h].sel, asks[h].revision, asks[h].mime, asks[i].mime,
                asks[j].mime);
    }
  }

  lemma StateNumbered(broker: Broker)
    requires broker.Valid()
    ensures Numbered(broker.State())
  {
  }

  /** Three reads of one offer. */
  predicate SameOffer(asks: seq<Ask>, h: nat, i: nat, j: nat)
    requires h < |asks| && i < |asks| && j < |asks|
  {
    && asks[h].AskRead? && asks[i].AskRead? && asks[j].AskRead?
    && asks[h].instance == asks[i].instance == asks[j].instance
    && asks[h].sel == asks[i].sel == asks[j].sel && asks[h].revision == asks[i].revision == asks[j].revision
  }

  predicate GoneAnswer(r: Result<bytes, Error>) {
    r == Err(StaleOffer) || r == Err(UnknownInstance)
  }

  lemma StaysGone(states: seq<Snapshot>, h: nat, i: nat, j: nat, instance: u64, sel: Selection, revision: u64,
                  m1: bytes, m2: bytes, m3: bytes)
    requires IsBrokerRun(states) && h < i < j < |states|
    requires ReadOf(states[h], instance, sel, revision, m1).Ok?
             && GoneAnswer(ReadOf(states[i], instance, sel, revision, m2))
    ensures ReadOf(states[j], instance, sel, revision, m3).Err?
  {
    hide Advances, DataOf;
    RunAdvances(states, h, i);
    var o := states[h].instances[instance].At(sel).value;
    assert Current(states[h], instance, sel, o) && Numbered(states[h]);
    if ReadOf(states[j], instance, sel, revision, m3).Ok? {
      var x := states[j].instances[instance].At(sel).value;
      assert revision <= states[i].next by { NextGrows(states[h], states[i]); }
      GoneForGood(states, i, j, instance, sel, x);
    }
  }

  lemma NextGrows(a: Snapshot, b: Snapshot)
    requires Advances(a, b)
    ensures a.next <= b.next
  {
  }
}
