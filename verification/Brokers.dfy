/** Active selections of scoped instances (clip/src/broker.rs). */
module Brokers {
  import opened Wrappers
  import opened Codec

  datatype Error = UnknownInstance | StaleOffer | InvalidTypes | Limit | Exhausted

  datatype Selection = Clipboard | Primary

  /** One type's name and contents, and how much more memory than they take is reserved. */
  datatype Payload = Payload(mime: bytes, data: bytes, spare: nat) {
    /** The memory reserved for both. */
    function Memory(): nat {
      |mime| + |data| + spare
    }
  }

  /** What is a control character is a matter of the character tables. */
  type Control = bytes -> bool

  datatype Limits = Limits(instances: nat, perInstance: nat, total: nat)

  datatype Offer = Offer(revision: u64, contents: seq<Payload>, size: nat)

  /** An instance's two selections. */
  datatype Slots = Slots(clipboard: Option<Offer>, primary: Option<Offer>) {
    function At(s: Selection): Option<Offer> {
      match s case Clipboard => clipboard case Primary => primary
    }

    function With(s: Selection, o: Option<Offer>): Slots {
      match s case Clipboard => this.(clipboard := o) case Primary => this.(primary := o)
    }

    function Size(): nat {
      SizeOf(clipboard) + SizeOf(primary)
    }
  }

  function SizeOf(o: Option<Offer>): nat {
    match o case None => 0 case Some(x) => x.size
  }

  const MAX_TYPES: nat := 64
  const MAX_MIME: nat := 256

  /** "application/x-cellward-clip-". */
  const PRIVATE_PREFIX: bytes :=
    [97, 112, 112, 108, 105, 99, 97, 116, 105, 111, 110, 47, 120, 45, 99, 101, 108, 108, 119, 97, 114, 100, 45,
     99, 108, 105, 112, 45]

  predicate ValidMime(mime: bytes, control: Control) {
    0 < |mime| <= MAX_MIME && !control(mime) && !(PRIVATE_PREFIX <= mime)
  }

  /** The bytes begin with the text. */
  ghost predicate BeginsWith(b: bytes, text: string) {
    |b| >= |text| && forall k :: 0 <= k < |text| ==> b[k] == text[k] as int
  }

  /** A type may be offered just if it is of 1 to 256 bytes without a control character, and not
      one of those kept for internal use. */
  lemma MimeIs(mime: bytes, control: Control)
    ensures ValidMime(mime, control) <==>
            1 <= |mime| <= 256 && !control(mime) && !BeginsWith(mime, "application/x-cellward-clip-")
  {
    var text := "application/x-cellward-clip-";
    assert |text| == |PRIVATE_PREFIX| == 28;
    assert forall k :: 0 <= k < 28 ==> PRIVATE_PREFIX[k] == text[k] as int;
    if BeginsWith(mime, text) { assert mime[..28] == PRIVATE_PREFIX; }
    if PRIVATE_PREFIX <= mime {
      assert mime[..28] == PRIVATE_PREFIX;
      assert forall k :: 0 <= k < 28 ==> mime[k] == mime[..28][k];
    }
  }

  function Reserved(contents: seq<Payload>): nat {
    if contents == [] then 0 else Reserved(contents[..|contents| - 1]) + contents[|contents| - 1].Memory()
  }

  /** Each content's name, data and spare memory count once, and both selections' offers. */
  lemma MemoryAdds(contents: seq<Payload>, mime: bytes, data: bytes, spare: nat, a: Offer, b: Offer)
    ensures Reserved([]) == 0
    ensures Reserved(contents + [Payload(mime, data, spare)]) == Reserved(contents) + |mime| + |data| + spare
    ensures Slots(None, None).Size() == 0 && Slots(Some(a), Some(b)).Size() == a.size + b.size
    ensures Slots(Some(a), None).Size() == a.size && Slots(None, Some(b)).Size() == b.size
  {
    assert (contents + [Payload(mime, data, spare)])[..|contents|] == contents;
  }

  ghost predicate DistinctTypes(contents: seq<Payload>) {
    forall i, j :: 0 <= i < j < |contents| ==> contents[i].mime != contents[j].mime
  }

  /** What may be offered. */
  ghost predicate Offerable(contents: seq<Payload>, control: Control) {
    && 1 <= |contents| <= MAX_TYPES && DistinctTypes(contents)
    && forall c :: c in contents ==> ValidMime(c.mime, control)
  }

  // ---- The whole of the instances ----

  ghost predicate IsLeast(k: u64, s: set<u64>) {
    k in s && forall x :: x in s ==> k <= x
  }

  ghost function Least(s: set<u64>): (k: u64)
    requires s != {}
    ensures IsLeast(k, s)
  {
    LeastExists(s);
    var k :| IsLeast(k, s);
    k
  }

  lemma {:induction false} LeastExists(s: set<u64>)
    requires s != {}
    ensures exists k :: IsLeast(k, s)
    decreases s
  {
    var y :| y in s;
    var rest := s - {y};
    assert forall x :: x in s ==> x == y || x in rest;
    if rest == {} {
      assert IsLeast(y, s);
    } else {
      LeastExists(rest);
      var k :| IsLeast(k, rest);
      var least: u64 := if k <= y then k else y;
      assert k in s;
      forall x: u64 | x in s ensures least <= x {
        assert x == y || x in rest;
      }
      assert IsLeast(least, s);
    }
  }

  /** The memory of every offer of every instance. */
  ghost function Total(m: map<u64, Slots>): nat
    decreases m.Keys
  {
    if m == map[] then 0
    else
      var k := Least(m.Keys);
      m[k].Size() + Total(m - {k})
  }

  lemma {:induction false} TotalWithout(m: map<u64, Slots>, k: u64)
    requires k in m
    ensures Total(m) == m[k].Size() + Total(m - {k})
    decreases m.Keys
  {
    var l := Least(m.Keys);
    if l != k {
      var a, b := m - {l}, m - {k};
      TotalWithout(a, k);
      assert l in b && k in a;
      assert IsLeast(l, b.Keys);
      assert a - {k} == b - {l};
    }
  }

  lemma TotalUpdate(m: map<u64, Slots>, k: u64, v: Slots)
    ensures Total(m[k := v]) == v.Size() + Total(m - {k})
    ensures k in m ==> Total(m) == m[k].Size() + Total(m - {k})
    ensures k !in m ==> m - {k} == m
  {
    TotalWithout(m[k := v], k);
    assert m[k := v] - {k} == m - {k};
    if k in m { TotalWithout(m, k); }
  }

  // ---- Where offers come from ----

  /** The one call that made a revision: whose it is, what it holds, and of which revision
      it is an explicit transfer, if it is one. */
  datatype Origin = Origin(instance: u64, selection: Selection, contents: seq<Payload>, from: Option<u64>)

  /** What of a broker decides its answers. */
  datatype Snapshot = Snapshot(next: u64, instances: map<u64, Slots>)

  ghost predicate Current(s: Snapshot, instance: u64, sel: Selection, o: Offer) {
    instance in s.instances && s.instances[instance].At(sel) == Some(o)
  }

  /** Later: what is offered was offered there before, or is newer than every revision and
      instance there was. */
  ghost predicate Advances(a: Snapshot, b: Snapshot) {
    && a.next <= b.next
    && (forall i :: i in b.instances ==> i in a.instances || i > a.next)
    && forall i, sel, o :: Current(b, i, sel, o) ==> Current(a, i, sel, o) || o.revision > a.next
  }

  /** Instances and revisions are numbered below the next. */
  ghost predicate Numbered(s: Snapshot) {
    && (forall i :: i in s.instances ==> i <= s.next)
    && forall i, sel, o :: Current(s, i, sel, o) ==> o.revision <= s.next
  }

  lemma AdvancesOn(a: Snapshot, b: Snapshot, c: Snapshot)
    requires Advances(a, b) && Advances(b, c)
    ensures Advances(a, c)
  {
    forall i, sel, o | Current(c, i, sel, o) ensures Current(a, i, sel, o) || o.revision > a.next {
      assert Current(b, i, sel, o) || o.revision > b.next;
    }
  }

  ghost predicate IsBrokerRun(states: seq<Snapshot>) {
    (forall i :: 0 <= i < |states| ==> Numbered(states[i]))
    && forall i :: 0 <= i < |states| - 1 ==> Advances(states[i], states[i + 1])
  }

  lemma {:induction false} RunAdvances(states: seq<Snapshot>, i: nat, j: nat)
    requires IsBrokerRun(states) && i <= j < |states|
    ensures Advances(states[i], states[j])
    decreases j
  {
    if i < j {
      RunAdvances(states, i, j - 1);
      assert Advances(states[j - 1], states[j - 1 + 1]);
      AdvancesOn(states[i], states[j - 1], states[j]);
    }
  }

  /** An offer replaced, cleared or removed with its instance is never served again. */
  lemma GoneForGood(states: seq<Snapshot>, i: nat, j: nat, instance: u64, sel: Selection, o: Offer)
    requires IsBrokerRun(states) && i <= j < |states|
    requires o.revision <= states[i].next && !Current(states[i], instance, sel, o)
    ensures !Current(states[j], instance, sel, o)
  {
    RunAdvances(states, i, j);
  }

  // ---- Refusals ----

  const USIZE: int := TWO_64

  /** The contents taken one by one: their reserved memory, or what is wrong first. */
  function Weighed(contents: seq<Payload>, n: nat, control: Control): Result<nat, Error>
    requires n <= |contents|
  {
    if n == 0 then Ok(0)
    else
      match Weighed(contents, n - 1, control)
      case Err(e) => Err(e)
      case Ok(size) =>
        var c := contents[n - 1];
        if !ValidMime(c.mime, control) || exists k :: 0 <= k < n - 1 && contents[k].mime == c.mime then
          Err(InvalidTypes)
        else if size + c.Memory() >= USIZE then Err(Limit)
        else Ok(size + c.Memory())
  }

  /** Offerable contents are weighed exactly, if their memory can be numbered. */
  lemma {:induction false} WeighedIs(contents: seq<Payload>, n: nat, control: Control)
    requires n <= |contents|
    ensures Weighed(contents, n, control).Ok? <==>
            && (forall i :: 0 <= i < n ==> ValidMime(contents[i].mime, control))
            && (forall i, j :: 0 <= i < j < n ==> contents[i].mime != contents[j].mime)
            && Reserved(contents[..n]) < USIZE
    ensures Weighed(contents, n, control).Ok? ==> Weighed(contents, n, control).value == Reserved(contents[..n])
  {
    hide ValidMime;
    if n > 0 {
      WeighedIs(contents, n - 1, control);
      assert contents[..n][..n - 1] == contents[..n - 1];
    }
  }

  /** A type is wrong, and is come to before too much memory is. */
  ghost predicate WrongType(contents: seq<Payload>, k: nat, control: Control) {
    && k < |contents| && Reserved(contents[..k]) < USIZE
    && (!ValidMime(contents[k].mime, control) || exists j :: 0 <= j < k && contents[j].mime == contents[k].mime)
  }

  /** The types are at fault just if one is wrong, and otherwise what is too much memory is. */
  lemma {:induction false} WeighedFor(contents: seq<Payload>, n: nat, control: Control)
    requires n <= |contents|
    ensures Weighed(contents, n, control) == Err(InvalidTypes) <==>
            exists k: nat :: k < n && WrongType(contents, k, control)
    ensures Weighed(contents, n, control).Err? ==> Weighed(contents, n, control).error in {InvalidTypes, Limit}
    ensures Weighed(contents, n, control) == Err(Limit) ==> Reserved(contents[..n]) >= USIZE
  {
    hide ValidMime, Reserved;
    if n > 0 {
      WeighedFor(contents, n - 1, control);
      WeighedIs(contents, n - 1, control);
      OneMoreReserved(contents, n);
      if Weighed(contents, n - 1, control).Ok? {
        assert Weighed(contents, n, control) == Err(InvalidTypes) <==> WrongType(contents, n - 1, control);
      }
      hide WrongType;
    }
  }

  lemma OneMoreReserved(contents: seq<Payload>, n: nat)
    requires 0 < n <= |contents|
    ensures Reserved(contents[..n]) == Reserved(contents[..n - 1]) + contents[n - 1].Memory()
  {
    assert contents[..n][..n - 1] == contents[..n - 1];
  }

  // ---- The broker ----

  class Broker {
    const limits: Limits
    const control: Control
    var next: u64
    var bytes: nat
    var instances: map<u64, Slots>
    ghost var origins: map<u64, Origin>

    ghost function State(): Snapshot
      reads this
    {
      Snapshot(next, instances)
    }

    ghost predicate Valid()
      reads this
    {
      Well(limits, control, State(), bytes, origins)
    }

    /** Nothing that was ever recorded of a revision changes. */
    twostate predicate Grown()
      reads this
    {
      && Advances(old(State()), State())
      && forall r :: r in old(origins) ==> r in origins && origins[r] == old(origins)[r]
    }

    constructor (limits: Limits, control: Control)
      ensures Valid() && this.limits == limits && this.control == control
      ensures next == 0 && instances == map[] && origins == map[]
    {
      this.limits, this.control := limits, control;
      next, bytes, instances, origins := 0, 0, map[], map[];
    }

    method Register() returns (r: Result<u64, Error>)
      requires Valid()
      modifies this
      ensures Valid() && Grown()
      ensures |old(instances)| >= limits.instances ==> r == Err(Limit)
      ensures |old(instances)| < limits.instances && old(next) + 1 == TWO_64 ==> r == Err(Exhausted)
      ensures |old(instances)| < limits.instances && old(next) + 1 < TWO_64 ==>
                r == Ok(old(next) + 1) && r.value !in old(instances)
                && instances == old(instances)[r.value := Slots(None, None)] && bytes == old(bytes)
                && next == old(next) + 1
      ensures r.Err? ==> State() == old(State())
    {
      hide Well, Advances;
      SameAdvances(State());
      if |instances| >= limits.instances { return Err(Limit); }
      if next + 1 >= TWO_64 { return Err(Exhausted); }
      RegisterKeeps(limits, control, State(), bytes, origins);
      next := next + 1;
      instances := instances[next := Slots(None, None)];
      r := Ok(next);
    }

    /** The instance ended: its buffers are dropped. */
    method Remove(instance: u64) returns (r: Result<(), Error>)
      requires Valid()
      modifies this
      ensures Valid() && Grown()
      ensures r.Err? <==> instance !in old(instances)
      ensures r.Err? ==> r == Err(UnknownInstance) && State() == old(State())
      ensures r.Ok? ==> instances == old(instances) - {instance} && next == old(next)
                        && bytes + old(instances)[instance].Size() == old(bytes)
    {
      hide Well, Advances;
      SameAdvances(State());
      if instance !in instances { return Err(UnknownInstance); }
      RemoveKeeps(limits, control, State(), bytes, origins, instance);
      bytes := bytes - instances[instance].Size();
      instances := instances - {instance};
      r := Ok(());
    }

    /** Replace a selection; refused, nothing changes. */
    method Set(instance: u64, sel: Selection, contents: seq<Payload>, ghost from: Option<u64>)
      returns (r: Result<u64, Error>)
      requires Valid()
      requires from.Some? ==> from.value in origins && SameData(contents, origins[from.value].contents)
      modifies this
      ensures Valid() && Grown()
      ensures r.Err? <==> old(Refusal(limits, control, State(), bytes, instance, sel, contents)).Some?
      ensures r.Err? ==> Some(r.error) == old(Refusal(limits, control, State(), bytes, instance, sel, contents))
                         && State() == old(State()) && bytes == old(bytes) && origins == old(origins)
      ensures r.Ok? ==> instance in old(instances) && r.value == old(next) + 1
                        && State() ==
                           Placed(old(State()), instance, sel,
                                  Some(Offer(r.value, contents, Reserved(contents)))).(next := r.value)
                        && origins == old(origins)[r.value := Origin(instance, sel, contents, from)]
    {
      hide Well, Advances, ValidMime, Weighed, Reserved;
      SameAdvances(State());
      if instance !in instances { return Err(UnknownInstance); }
      if |contents| == 0 || |contents| > MAX_TYPES { return Err(InvalidTypes); }
      var weighed := Weigh(contents, control);
      if weighed.Err? { return Err(weighed.error); }
      var size := weighed.value;
      var slots := instances[instance];
      var previous := SizeOf(slots.At(sel));
      Weights(limits, control, State(), bytes, origins, instance, sel);
      var others := slots.Size() - previous;
      if size > Minus(limits.perInstance, others) || size > Minus(limits.total, bytes - previous) { return Err(Limit); }
      if next + 1 >= TWO_64 { return Err(Exhausted); }
      WeighedAll(contents, control);
      SetKeeps(limits, control, State(), bytes, origins, instance, sel, contents, from);
      next := next + 1;
      instances := instances[instance := slots.With(sel, Some(Offer(next, contents, size)))];
      bytes := bytes - previous + size;
      origins := origins[next := Origin(instance, sel, contents, from)];
      r := Ok(next);
    }

    method Clear(instance: u64, sel: Selection) returns (r: Result<(), Error>)
      requires Valid()
      modifies this
      ensures Valid() && Grown() && origins == old(origins)
      ensures r.Err? <==> instance !in old(instances)
      ensures r.Err? ==> r == Err(UnknownInstance) && State() == old(State()) && bytes == old(bytes)
      ensures r.Ok? ==> State() == Placed(old(State()), instance, sel, None)
    {
      hide Well, Advances;
      SameAdvances(State());
      if instance !in instances { return Err(UnknownInstance); }
      var slots := instances[instance];
      Weights(limits, control, State(), bytes, origins, instance, sel);
      ClearKeeps(limits, control, State(), bytes, origins, instance, sel);
      ghost var was := State();
      instances := instances[instance := slots.With(sel, None)];
      bytes := bytes - SizeOf(slots.At(sel));
      r := Ok(());
    }

    /** What is offered: the revision and, in their order, the types that can be read of it. */
    method Types(instance: u64, sel: Selection) returns (r: Result<Option<(u64, seq<bytes>)>, Error>)
      ensures r.Err? ==> instance !in instances && r == Err(UnknownInstance)
      ensures r == Ok(None) ==> instance in instances && forall o :: !Current(State(), instance, sel, o)
      ensures r.Ok? && r.value.Some? ==>
                var (revision, mimes) := r.value.value;
                && Offers(State(), instance, sel, revision)
                && mimes == TypesOf(instances[instance].At(sel).value.contents)
                && forall m :: m in mimes <==> ReadOf(State(), instance, sel, revision, m).Ok?
    {
      if instance !in instances { return Err(UnknownInstance); }
      var offer := instances[instance].At(sel);
      if offer.Some? { TypesAreRead(offer.value.contents); }
      r := match offer case None => Ok(None) case Some(o) => Ok(Some((o.revision, TypesOf(o.contents))));
    }

    /** A stale offer is refused; what is served is what the one call that made the revision
        put there for this instance and selection. */
    method Read(instance: u64, sel: Selection, revision: u64, mime: bytes) returns (r: Result<bytes, Error>)
      requires Valid()
      ensures r == ReadOf(State(), instance, sel, revision, mime)
      ensures r.Ok? ==>
              revision in origins && origins[revision].instance == instance && origins[revision].selection == sel
                        && DataOf(origins[revision].contents, mime) == Some(r.value)
    {
      hide Offerable;
      if instance !in instances { return Err(UnknownInstance); }
      var offer := instances[instance].At(sel);
      if offer.None? || offer.value.revision != revision { return Err(StaleOffer); }
      assert Current(State(), instance, sel, offer.value);
      var data := DataOf(offer.value.contents, mime);
      r := match data case Some(d) => Ok(d) case None => Err(InvalidTypes);
    }

    /** The host's own operation, after the user said so. */
    method TransferExplicit(from: u64, onto: u64, sel: Selection, revision: u64) returns (r: Result<u64, Error>)
      requires Valid()
      modifies this
      ensures Valid() && Grown()
      ensures from !in old(instances) ==> r == Err(UnknownInstance)
      ensures from in old(instances) && !Offers(old(State()), from, sel, revision) ==> r == Err(StaleOffer)
      ensures Offers(old(State()), from, sel, revision) ==>
                var copies := Cloned(old(instances)[from].At(sel).value.contents);
                match old(Refusal(limits, control, State(), bytes, onto, sel,
                                  Cloned(instances[from].At(sel).value.contents)))
                case Some(e) => r == Err(e)
                case None =>
                  var offer := Offer(old(next) + 1, copies, Reserved(copies));
                  r == Ok(offer.revision)
                  && State() == Placed(old(State()), onto, sel, Some(offer)).(next := offer.revision)
      ensures r.Err? ==> State() == old(State()) && origins == old(origins)
      ensures r.Ok? ==> Offers(old(State()), from, sel, revision) && revision in old(origins) && r.value in origins
                        && origins[r.value] ==
                           Origin(onto, sel, Cloned(old(origins)[revision].contents), Some(revision))
                        && origins == old(origins)[r.value := origins[r.value]]
    {
      hide Offerable, Refusal, Advances;
      SameAdvances(State());
      if from !in instances { return Err(UnknownInstance); }
      var offer := instances[from].At(sel);
      if offer.None? || offer.value.revision != revision { return Err(StaleOffer); }
      assert Current(State(), from, sel, offer.value);
      r := Set(onto, sel, Cloned(offer.value.contents), Some(revision));
    }
  }

  /** Every offer is what one call made it, offerable, and weighed; the budgets hold. */
  ghost predicate Well(limits: Limits, control: Control, s: Snapshot, bytes: nat, origins: map<u64, Origin>) {
    && Numbered(s)
    && bytes == Total(s.instances) <= limits.total
    && |s.instances| <= limits.instances
    && (forall i :: i in s.instances ==> s.instances[i].Size() <= limits.perInstance)
    && (forall i, sel, o :: Current(s, i, sel, o) ==> Recorded(control, origins, i, sel, o))
    && (forall r :: r in origins ==> 1 <= r <= s.next && Sourced(origins, r))
  }

  /** A transferred revision holds what the revision it was transferred from holds. */
  ghost predicate Sourced(origins: map<u64, Origin>, r: u64)
    requires r in origins
  {
    match origins[r].from
    case None => true
    case Some(source) => source in origins && source < r && SameData(origins[r].contents, origins[source].contents)
  }

  ghost predicate SameData(a: seq<Payload>, b: seq<Payload>) {
    |a| == |b| && forall k :: 0 <= k < |a| ==> a[k].mime == b[k].mime && a[k].data == b[k].data
  }

  /** The revision that a `set` made, at the other end of the transfers. */
  ghost function Root(origins: map<u64, Origin>, r: u64): u64
    requires forall x :: x in origins ==> Sourced(origins, x)
    requires r in origins
    decreases r
  {
    match origins[r].from case None => r case Some(source) => Root(origins, source)
  }

  /** Whatever an instance is served was set by one call, there or at the other end of
      explicit transfers. */
  lemma {:induction false} RootIs(origins: map<u64, Origin>, r: u64)
    requires r in origins && forall x :: x in origins ==> Sourced(origins, x)
    ensures var root := Root(origins, r);
            root in origins && origins[root].from == None && SameData(origins[r].contents, origins[root].contents)
    decreases r
  {
    assert Sourced(origins, r);
    if origins[r].from.Some? { RootIs(origins, origins[r].from.value); }
  }

  ghost predicate Recorded(control: Control, origins: map<u64, Origin>, i: u64, sel: Selection, o: Offer) {
    && o.revision in origins && origins[o.revision].instance == i && origins[o.revision].selection == sel
    && origins[o.revision].contents == o.contents
    && Offerable(o.contents, control) && o.size == Reserved(o.contents)
  }

  lemma SameAdvances(s: Snapshot)
    ensures Advances(s, s)
  {
  }

  lemma RegisterKeeps(limits: Limits, control: Control, s: Snapshot, bytes: nat, origins: map<u64, Origin>)
    requires Well(limits, control, s, bytes, origins) && |s.instances| < limits.instances && s.next + 1 < TWO_64
    ensures var t := Snapshot(s.next + 1, s.instances[s.next + 1 := Slots(None, None)]);
            Well(limits, control, t, bytes, origins) && Advances(s, t)
    ensures (s.next + 1) !in s.instances
  {
    hide Recorded, Total, Sourced, Current, Numbered, Advances;
    var id: u64 := s.next + 1;
    var t := Snapshot(id, s.instances[id := Slots(None, None)]);
    NotYet(s, id);
    TotalUpdate(s.instances, id, Slots(None, None));
    OneMoreInstance(s.instances, id, Slots(None, None));
    RegisteredOffers(s, id, t);
    RegisteredLater(s, id, t);
  }

  lemma NotYet(s: Snapshot, id: u64)
    requires Numbered(s) && id > s.next
    ensures id !in s.instances
  {
  }

  lemma RegisteredLater(s: Snapshot, id: u64, t: Snapshot)
    requires Numbered(s) && id == s.next + 1 && t == Snapshot(id, s.instances[id := Slots(None, None)])
    requires forall i, sel, o :: Current(t, i, sel, o) ==> Current(s, i, sel, o)
    ensures Numbered(t) && Advances(s, t) && id !in s.instances
  {
    hide Current;
  }

  lemma OneMoreInstance(m: map<u64, Slots>, k: u64, v: Slots)
    requires k !in m
    ensures |m[k := v]| == |m| + 1
  {
    assert m[k := v].Keys == m.Keys + {k};
  }

  /** A new instance offers nothing. */
  lemma RegisteredOffers(s: Snapshot, id: u64, t: Snapshot)
    requires id !in s.instances && t.instances == s.instances[id := Slots(None, None)]
    ensures forall i, sel, o :: Current(t, i, sel, o) ==> Current(s, i, sel, o)
  {
  }

  lemma RemoveKeeps(limits: Limits, control: Control, s: Snapshot, bytes: nat, origins: map<u64, Origin>, id: u64)
    requires Well(limits, control, s, bytes, origins) && id in s.instances
    ensures s.instances[id].Size() <= bytes
    ensures var t := Snapshot(s.next, s.instances - {id});
            Well(limits, control, t, bytes - s.instances[id].Size(), origins) && Advances(s, t)
  {
    hide Recorded, Total;
    var t := Snapshot(s.next, s.instances - {id});
    TotalWithout(s.instances, id);
    assert t.instances.Keys == s.instances.Keys - {id};
    forall i, sel, o | Current(t, i, sel, o) ensures Current(s, i, sel, o) {
    }
  }

  // ---- Setting and clearing ----

  function Minus(a: nat, b: nat): nat {
    if a >= b then a - b else 0
  }

  function Placed(s: Snapshot, i: u64, sel: Selection, o: Option<Offer>): Snapshot
    requires i in s.instances
  {
    s.(instances := s.instances[i := s.instances[i].With(sel, o)])
  }

  /** What refuses a `set`, in the order it is looked for. */
  function Refusal(limits: Limits, control: Control, s: Snapshot, bytes: nat, i: u64, sel: Selection,
                   contents: seq<Payload>)
    : Option<Error>
  {
    if i !in s.instances then Some(UnknownInstance)
    else if |contents| == 0 || |contents| > MAX_TYPES then Some(InvalidTypes)
    else
      match Weighed(contents, |contents|, control)
      case Err(e) => Some(e)
      case Ok(size) =>
        var previous := SizeOf(s.instances[i].At(sel));
        if size > Minus(limits.perInstance, s.instances[i].Size() - previous)
           || size > Minus(limits.total, Minus(bytes, previous)) then Some(Limit)
        else if s.next + 1 >= TWO_64 then Some(Exhausted)
        else None
  }

  lemma Weights(limits: Limits, control: Control, s: Snapshot, bytes: nat, origins: map<u64, Origin>, i: u64,
                sel: Selection)
    requires Well(limits, control, s, bytes, origins) && i in s.instances
    ensures SizeOf(s.instances[i].At(sel)) <= s.instances[i].Size() <= bytes
    ensures s.instances[i].Size() <= limits.perInstance && bytes <= limits.total
  {
    hide Recorded;
    TotalWithout(s.instances, i);
  }

  lemma WeighedAll(contents: seq<Payload>, control: Control)
    requires Weighed(contents, |contents|, control).Ok? && 1 <= |contents| <= MAX_TYPES
    ensures Offerable(contents, control) && Weighed(contents, |contents|, control).value == Reserved(contents)
  {
    hide ValidMime;
    WeighedIs(contents, |contents|, control);
    assert contents[..|contents|] == contents;
  }

  lemma WrongInside(contents: seq<Payload>, control: Control)
    ensures forall k: nat :: WrongType(contents, k, control) ==> k < |contents|
  {
  }

  /** A `set` is accepted exactly when the instance is known, the contents may be offered,
      and the budgets of the instance and of all hold with them in the place of what is
      replaced; refused, the answer says of these what is wrong first. */
  lemma RefusalMeans(limits: Limits, control: Control, s: Snapshot, bytes: nat, origins: map<u64, Origin>,
                     i: u64, sel: Selection, contents: seq<Payload>)
    requires Well(limits, control, s, bytes, origins)
    ensures Refusal(limits, control, s, bytes, i, sel, contents) == None <==>
            && i in s.instances && Offerable(contents, control) && Reserved(contents) < USIZE
            && s.instances[i].Size() - SizeOf(s.instances[i].At(sel)) + Reserved(contents) <= limits.perInstance
            && bytes - SizeOf(s.instances[i].At(sel)) + Reserved(contents) <= limits.total
            && s.next + 1 < TWO_64
    ensures Refusal(limits, control, s, bytes, i, sel, contents) == Some(UnknownInstance) <==> i !in s.instances
    ensures Refusal(limits, control, s, bytes, i, sel, contents) == Some(InvalidTypes) <==>
            && i in s.instances
            && (!(1 <= |contents| <= MAX_TYPES) || exists k: nat :: WrongType(contents, k, control))
    ensures Refusal(limits, control, s, bytes, i, sel, contents) == Some(Exhausted) <==>
            && i in s.instances && Offerable(contents, control) && Reserved(contents) < USIZE
            && s.instances[i].Size() - SizeOf(s.instances[i].At(sel)) + Reserved(contents) <= limits.perInstance
            && bytes - SizeOf(s.instances[i].At(sel)) + Reserved(contents) <= limits.total
            && s.next + 1 >= TWO_64
  {
    hide Well, ValidMime, Weighed, Reserved, WrongType;
    if i in s.instances {
      Weights(limits, control, s, bytes, origins, i, sel);
      WeighedIs(contents, |contents|, control);
      WeighedFor(contents, |contents|, control);
      assert forall k: nat :: WrongType(contents, k, control) ==> k < |contents| by { WrongInside(contents, control); }
      assert contents[..|contents|] == contents;
    }
  }

  method Weigh(contents: seq<Payload>, control: Control) returns (r: Result<nat, Error>)
    ensures r == Weighed(contents, |contents|, control)
  {
    hide ValidMime;
    var seen: set<bytes> := {};
    var size: nat := 0;
    for i := 0 to |contents|
      invariant seen == set k | 0 <= k < i :: contents[k].mime
      invariant Weighed(contents, i, control) == Ok(size)
    {
      var c := contents[i];
      if !ValidMime(c.mime, control) || c.mime in seen {
        WeighedFails(contents, i + 1, control);
        return Err(InvalidTypes);
      }
      if size + c.Memory() >= USIZE {
        WeighedFails(contents, i + 1, control);
        return Err(Limit);
      }
      size := size + c.Memory();
      seen := seen + {c.mime};
    }
    r := Ok(size);
  }

  /** What is wrong first is what is answered. */
  lemma {:induction false} WeighedFails(contents: seq<Payload>, n: nat, control: Control)
    requires n <= |contents| && Weighed(contents, n, control).Err?
    ensures Weighed(contents, |contents|, control) == Weighed(contents, n, control)
    decreases |contents| - n
  {
    if n < |contents| { WeighedFails(contents, n + 1, control); }
  }

  lemma SetKeeps(limits: Limits, control: Control, s: Snapshot, bytes: nat, origins: map<u64, Origin>,
                 i: u64, sel: Selection, contents: seq<Payload>, from: Option<u64>)
    requires Well(limits, control, s, bytes, origins) && i in s.instances && s.next + 1 < TWO_64
    requires Offerable(contents, control)
    requires s.instances[i].Size() - SizeOf(s.instances[i].At(sel)) + Reserved(contents) <= limits.perInstance
    requires bytes - SizeOf(s.instances[i].At(sel)) + Reserved(contents) <= limits.total
    requires from.Some? ==> from.value in origins && SameData(contents, origins[from.value].contents)
    ensures SizeOf(s.instances[i].At(sel)) <= bytes
    ensures var r := s.next + 1;
            var t := Placed(s, i, sel, Some(Offer(r, contents, Reserved(contents)))).(next := r);
            && Well(limits, control, t, bytes - SizeOf(s.instances[i].At(sel)) + Reserved(contents),
                    origins[r := Origin(i, sel, contents, from)])
            && Advances(s, t) && r !in origins
  {
    hide Total, Offerable, Reserved, Current;
    var r: u64 := s.next + 1;
    var o := Offer(r, contents, Reserved(contents));
    var t := Placed(s, i, sel, Some(o)).(next := r);
    var origins' := origins[r := Origin(i, sel, contents, from)];
    TotalUpdate(s.instances, i, t.instances[i]);
    PlacedOffers(s, i, sel, Some(o), r);
    assert t.instances.Keys == s.instances.Keys;
    forall x, which, offer | Current(t, x, which, offer)
      ensures Recorded(control, origins', x, which, offer) && offer.revision <= r {
      assert Current(s, x, which, offer) || offer == o;
    }
    forall x | x in origins' ensures 1 <= x <= r && Sourced(origins', x) {
      if x != r { assert Sourced(origins, x); }
    }
  }

  /** Placing an offer touches no other selection of any instance. */
  lemma PlacedOffers(s: Snapshot, i: u64, sel: Selection, o: Option<Offer>, next: u64)
    requires i in s.instances
    ensures var t := Placed(s, i, sel, o).(next := next);
            forall x, which, offer :: Current(t, x, which, offer) <==>
              if x == i && which == sel then o == Some(offer) else Current(s, x, which, offer)
  {
  }

  lemma ClearKeeps(limits: Limits, control: Control, s: Snapshot, bytes: nat, origins: map<u64, Origin>, i: u64,
                   sel: Selection)
    requires Well(limits, control, s, bytes, origins) && i in s.instances
    ensures SizeOf(s.instances[i].At(sel)) <= bytes
    ensures var t := Placed(s, i, sel, None);
            Well(limits, control, t, bytes - SizeOf(s.instances[i].At(sel)), origins) && Advances(s, t)
  {
    hide Total, Recorded, Sourced;
    var t := Placed(s, i, sel, None);
    TotalUpdate(s.instances, i, t.instances[i]);
    PlacedOffers(s, i, sel, None, s.next);
    assert t.instances.Keys == s.instances.Keys;
  }

  // ---- Reading ----

  function TypesOf(contents: seq<Payload>): seq<bytes> {
    seq(|contents|, i requires 0 <= i < |contents| => contents[i].mime)
  }

  /** Just the types listed have contents. */
  lemma {:induction false} TypesAreRead(contents: seq<Payload>)
    ensures forall m :: m in TypesOf(contents) <==> DataOf(contents, m).Some?
  {
    if contents != [] {
      TypesAreRead(contents[1..]);
      assert TypesOf(contents) == [contents[0].mime] + TypesOf(contents[1..]);
    }
  }

  /** The first content of the type. */
  function DataOf(contents: seq<Payload>, mime: bytes): Option<bytes> {
    if contents == [] then None
    else if contents[0].mime == mime then Some(contents[0].data)
    else DataOf(contents[1..], mime)
  }

  function ReadOf(s: Snapshot, i: u64, sel: Selection, revision: u64, mime: bytes): Result<bytes, Error> {
    if i !in s.instances then Err(UnknownInstance)
    else match s.instances[i].At(sel)
      case None => Err(StaleOffer)
      case Some(o) =>
        if o.revision != revision then Err(StaleOffer)
        else match DataOf(o.contents, mime) case None => Err(InvalidTypes) case Some(d) => Ok(d)
  }

  ghost predicate Offers(s: Snapshot, i: u64, sel: Selection, revision: u64) {
    i in s.instances && s.instances[i].At(sel).Some? && s.instances[i].At(sel).value.revision == revision
  }

  /** Copies reserve what they hold. */
  function Cloned(contents: seq<Payload>): (r: seq<Payload>)
    ensures SameData(r, contents)
  {
    seq(|contents|, i requires 0 <= i < |contents| =>
      Payload(contents[i].mime, contents[i].data, 0))
  }

  /** Types are distinct, so each has one content, and that is what is read. */
  lemma {:induction false} DataOfIs(contents: seq<Payload>, k: nat)
    requires DistinctTypes(contents) && k < |contents|
    ensures DataOf(contents, contents[k].mime) == Some(contents[k].data)
  {
    if k > 0 {
      assert contents[0].mime != contents[k].mime;
      forall i, j | 0 <= i < j < |contents[1..]| ensures contents[1..][i].mime != contents[1..][j].mime {
        assert contents[i + 1].mime != contents[j + 1].mime;
      }
      DataOfIs(contents[1..], k - 1);
    }
  }
}
