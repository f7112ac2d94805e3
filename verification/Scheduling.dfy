/** The transport's turns over its peers (clip/src/broker_transport.rs, Transport): what
    the buffers of all and of each instance come to. */
module Scheduling {
  import opened Wrappers
  import opened Codec
  import opened Brokers
  import opened Wire
  import opened Transports
  import opened Peers

  // ---- Sums over peers ----

  ghost function SumAll(ps: seq<Peer>): nat
    reads ps
  {
    if ps == [] then 0 else ps[0].Buffered() + SumAll(ps[1..])
  }

  ghost function SumOf(ps: seq<Peer>, instance: u64): nat
    reads ps
  {
    if ps == [] then 0 else (if ps[0].instance == instance then ps[0].Buffered() else 0) + SumOf(ps[1..], instance)
  }

  lemma {:induction false} SumSplit(ps: seq<Peer>, k: nat)
    requires k < |ps|
    ensures SumAll(ps) == SumAll(ps[..k]) + ps[k].Buffered() + SumAll(ps[k + 1..])
  {
    if k > 0 {
      SumSplit(ps[1..], k - 1);
      assert ps[1..][..k - 1] == ps[..k][1..] && ps[1..][k..] == ps[k + 1..];
    }
  }

  lemma {:induction false} SumOfSplit(ps: seq<Peer>, k: nat, i: u64)
    requires k < |ps|
    ensures SumOf(ps, i) ==
            SumOf(ps[..k], i) + (if ps[k].instance == i then ps[k].Buffered() else 0) + SumOf(ps[k + 1..], i)
  {
    if k > 0 {
      SumOfSplit(ps[1..], k - 1, i);
      assert ps[1..][..k - 1] == ps[..k][1..] && ps[1..][k..] == ps[k + 1..];
    }
  }

  lemma {:induction false} SumJoin(a: seq<Peer>, b: seq<Peer>, i: u64)
    ensures SumAll(a + b) == SumAll(a) + SumAll(b) && SumOf(a + b, i) == SumOf(a, i) + SumOf(b, i)
  {
    if a == [] {
      assert a + b == b;
    } else {
      SumJoin(a[1..], b, i);
      assert (a + b)[1..] == a[1..] + b;
    }
  }

  /** One instance's buffers are among all. */
  lemma {:induction false} SumOfBound(ps: seq<Peer>, i: u64)
    ensures SumOf(ps, i) <= SumAll(ps)
  {
    if ps != [] { SumOfBound(ps[1..], i); }
  }

  ghost predicate Separate(ps: seq<Peer>) {
    forall i, j :: 0 <= i < j < |ps| ==> ps[i] != ps[j] && ps[i].stream != ps[j].stream
  }

  ghost function Streams(ps: seq<Peer>): set<Stream> {
    set p | p in ps :: p.stream
  }

  /** The peers their last turn did not end. */
  ghost function Staying(ps: seq<Peer>): seq<Peer>
    reads ps
  {
    if ps == [] then [] else Staying(ps[..|ps| - 1]) + if ps[|ps| - 1].out then [] else [ps[|ps| - 1]]
  }

  lemma NoneStaying()
    ensures Staying([]) == []
  {
  }

  lemma StayingMore(ps: seq<Peer>, j: nat)
    requires j < |ps|
    ensures Staying(ps[..j + 1]) == Staying(ps[..j]) + if ps[j].out then [] else [ps[j]]
  {
    assert ps[..j + 1][..j] == ps[..j];
  }

  lemma SameNext(a: seq<Peer>, k: nat, b: seq<Peer>, j: nat)
    requires k < |a| && j <= |b| && a[k..] == b[j..]
    ensures j < |b| && a[k] == b[j] && a[k + 1..] == b[j + 1..]
  {
    assert a[k] == a[k..][0] && |a[k..]| == |b[j..]|;
    assert a[k + 1..] == a[k..][1..] && b[j + 1..] == b[j..][1..];
  }

  /** A peer with so many turns and this time had one turn more. It is taken out if its time was
      up, and otherwise only because its stream is over or there was no room for its frame or for
      an answer; one that had nothing in hand only for these. One that stays has a stream that
      is not over, and its time goes on with what it has in hand. */
  ghost predicate Turned(p: Peer, turns: nat, was: Clock, now: int)
    reads p, p.stream
  {
    && p.turns == turns + 1 && p.taken <= MAX_IO && p.spare <= MAX_INSTANCE_IO
    && (was.deadline.Some? && now >= was.deadline.value ==> p.out)
    && (p.out ==> (was.deadline.Some? && now >= was.deadline.value) || p.Spent())
    && (p.out && was.idle ==> p.Spent())
    && (!p.out ==> !p.stream.last.Over? && Kept(was, now, p.Time()))
  }

  class Transport {
    const broker: Broker
    const chars: Chars
    const alloc: Alloc
    var peers: seq<Peer>
    var ioBytes: nat

    /** The buffers of all are counted and within their limit, and each instance's within
        its own. */
    ghost predicate Valid()
      reads this, broker, peers, Streams(peers)
    {
      && broker.Valid() && broker.control == chars.control && Reserves(alloc)
      && Separate(peers) && |peers| <= MAX_PEERS
      && (forall p :: p in peers ==> p.Valid() && p.chars == chars && p.alloc == alloc)
      && ioBytes == SumAll(peers) <= MAX_IO
      && forall i :: SumOf(peers, i) <= MAX_INSTANCE_IO
    }

    constructor (limits: Limits, chars: Chars, alloc: Alloc)
      requires Reserves(alloc)
      ensures Valid() && this.chars == chars && this.alloc == alloc && peers == [] && fresh(broker)
    {
      this.chars, this.alloc, peers, ioBytes := chars, alloc, [], 0;
      broker := new Broker(limits, chars.control);
    }

    /** All but the `k`-th peer, which may have failed, are as they should be. */
    ghost predicate ValidBut(k: nat)
      requires k < |peers|
      reads this, broker, peers, Streams(peers)
    {
      && broker.Valid() && broker.control == chars.control && Reserves(alloc)
      && Separate(peers) && |peers| <= MAX_PEERS
      && (forall j :: 0 <= j < |peers| && j != k ==> peers[j].Valid())
      && (forall p :: p in peers ==> p.chars == chars && p.alloc == alloc)
      && ioBytes == SumAll(peers) <= MAX_IO
      && forall i :: SumOf(peers, i) <= MAX_INSTANCE_IO
    }

    /** The turn itself: the buffers stay counted, whatever came of it. */
    method Advance(k: nat, used: nat, now: int) returns (alive: bool, used': nat)
      requires Valid() && k < |peers| && used == SumOf(peers, peers[k].instance)
      modifies this`ioBytes, broker, peers[k], peers[k].stream
      ensures ValidBut(k) && (alive ==> peers[k].Valid())
      ensures used' == SumOf(peers, peers[k].instance) && broker.Grown()
      ensures peers[k].taken == old(ioBytes) && peers[k].spare + used == MAX_INSTANCE_IO
      ensures peers[k].out == !alive && Turned(peers[k], old(peers[k].turns), old(peers[k].Time()), now)
      ensures forall i :: i != peers[k].instance ==> SumOf(peers, i) == old(SumOf(peers, i))
    {
      hide Peer.Valid, Broker.Valid, Peer.InOrder, Peer.Carried, Peer.InRoom, Peer.Moving, Peer.Spent, Kept,
        Broker.Grown, SumAll, SumOf;
      var p := peers[k];
      ghost var left, right := peers[..k], peers[k + 1..];
      Others(peers, k);
      AllSplit(peers, k);
      SumOfBound(peers, p.instance);
      var before := p.Buffered();
      var remaining := if used <= MAX_INSTANCE_IO then MAX_INSTANCE_IO - used else 0;
      ghost var limit;
      alive, ioBytes, limit := p.Step(broker, ioBytes, remaining, now);
      used' := used - before + p.Buffered();
      AllSplit(peers, k);
      assert SumAll(left) == old(SumAll(peers[..k])) && SumAll(right) == old(SumAll(peers[k + 1..]));
      assert forall i ::
             SumOf(left, i) == old(SumOf(peers[..k], i)) && SumOf(right, i) == old(SumOf(peers[k + 1..], i));
    }

    /** A peer taken out: its buffers are given back. */
    method TakeOut(k: nat)
      requires k < |peers| && ValidBut(k)
      modifies this`ioBytes, this`peers
      ensures Valid() && peers == old(peers[..k]) + old(peers[k + 1..])
      ensures SumOf(peers, old(peers[k]).instance) == old(SumOf(peers, peers[k].instance)) - old(peers[k].Buffered())
      ensures forall i :: i != old(peers[k]).instance ==> SumOf(peers, i) == old(SumOf(peers, i))
    {
      hide Peer.Valid, Broker.Valid, SumAll, SumOf;
      var left, right := peers[..k], peers[k + 1..];
      Others(peers, k);
      AllSplit(peers, k);
      AllJoin(left, right);
      ioBytes := ioBytes - peers[k].Buffered();
      peers := left + right;
    }

    method Close(k: nat, used: nat) returns (used': nat)
      requires k < |peers| && ValidBut(k) && used == SumOf(peers, peers[k].instance)
      modifies this`ioBytes, this`peers
      ensures Valid() && peers == old(peers[..k]) + old(peers[k + 1..])
      ensures used' == SumOf(peers, old(peers[k]).instance)
      ensures forall i :: i != old(peers[k]).instance ==> SumOf(peers, i) == old(SumOf(peers, i))
    {
      hide Peer.Valid, Broker.Valid, SumAll, SumOf;
      AllSplit(peers, k);
      used' := used - peers[k].Buffered();
      TakeOut(k);
    }

    /** One turn of the `k`-th peer, of whose instance `used` bytes are in buffers. */
    method StepPeer(k: nat, used: nat, now: int) returns (alive: bool, used': nat)
      requires Valid() && k < |peers| && used == SumOf(peers, peers[k].instance)
      modifies this`ioBytes, this`peers, broker, peers[k], peers[k].stream
      ensures Valid()
      ensures peers == if alive then old(peers) else old(peers[..k]) + old(peers[k + 1..])
      ensures old(peers[k]).taken == old(ioBytes) && old(peers[k]).spare + used == MAX_INSTANCE_IO
      ensures old(peers[k]).out == !alive && Turned(old(peers[k]), old(peers[k].turns), old(peers[k].Time()), now)
      ensures broker.Grown()
      ensures used' == SumOf(peers, old(peers[k]).instance)
      ensures forall i :: i != old(peers[k]).instance ==> SumOf(peers, i) == old(SumOf(peers, i))
    {
      hide Peer.Valid, Broker.Valid, SumAll, SumOf;
      alive, used' := Advance(k, used, now);
      if !alive { used' := Close(k, used'); }
    }

    /** What each instance's peers hold. */
    method Scoped() returns (scoped: map<u64, nat>)
      ensures Knows(scoped)
    {
      hide SumAll, SumOf;
      scoped := map[];
      NoSum();
      assert peers[..0] == [];
      for k := 0 to |peers|
        invariant forall p :: p in peers[..k] ==> p.instance in scoped
        invariant forall i :: (if i in scoped then scoped[i] else 0) == SumOf(peers[..k], i)
      {
        var p := peers[k];
        assert peers[..k + 1] == peers[..k] + [p];
        AllJoin(peers[..k], [p]);
        OnePeer(p);
        scoped := scoped[p.instance := (if p.instance in scoped then scoped[p.instance] else 0) + p.Buffered()];
      }
      assert peers[..|peers|] == peers;
    }

    /** What the map says of each instance it knows is what its peers hold; it knows all
        there are. */
    ghost predicate Knows(scoped: map<u64, nat>)
      reads this, peers
    {
      && (forall p :: p in peers ==> p.instance in scoped)
      && forall i :: i in scoped ==> scoped[i] == SumOf(peers, i)
    }

    method Turn(k: nat, scoped: map<u64, nat>, now: int) returns (k': nat, scoped': map<u64, nat>)
      requires Valid() && k < |peers| && Knows(scoped)
      modifies this`ioBytes, this`peers, broker, peers[k], peers[k].stream
      ensures Valid() && Knows(scoped') && k' <= |peers| && peers[k'..] == old(peers)[k + 1..]
      ensures broker.Grown() && Turned(old(peers)[k], old(peers[k].turns), old(peers[k].Time()), now)
      ensures k' == if old(peers)[k].out then k else k + 1
      ensures peers[..k'] == old(peers)[..k] + if old(peers)[k].out then [] else [old(peers)[k]]
    {
      hide Peer.Valid, Broker.Valid, SumAll, SumOf, Separate, Transport.Valid, Turned, Broker.Grown;
      var instance := peers[k].instance;
      ghost var was := peers;
      assert peers[k] in peers;
      assert (was[..k] + was[k + 1..])[k..] == was[k + 1..];
      var alive, used := StepPeer(k, scoped[instance], now);
      scoped' := scoped[instance := used];
      k' := if alive then k + 1 else k;
    }

    /** One fair turn: every peer once, in order, and those that end taken out, each for a
        reason; at every moment and at the end the buffers are counted and within both limits.
        The broker goes on from what it was. */
    method Tick(now: int)
      requires Valid()
      modifies this`ioBytes, this`peers, broker, peers, Streams(peers)
      ensures Valid() && peers == Staying(old(peers))
      ensures forall p :: p in old(peers) ==> Turned(p, old(p.turns), old(p.Time()), now)
      ensures broker.Grown()
    {
      hide Transport.Valid, Knows, Turned, Staying, Advances, Peer.Valid, Peer.Spent, Broker.Valid, Separate, SumAll,
        SumOf;
      Distinct();
      SameAdvances(broker.State());
      NoneStaying();
      var scoped := Scoped();
      var k: nat := 0;
      ghost var was, j := peers, 0;
      while k < |peers|
        invariant Valid() && Knows(scoped) && k <= |peers|
        invariant j <= |was| && peers[k..] == was[j..] && peers[..k] == Staying(was[..j])
        invariant forall i :: 0 <= i < j ==> Turned(was[i], old(was[i].turns), old(was[i].Time()), now)
        invariant forall i :: j <= i < |was| ==>
                  was[i].turns == old(was[i].turns) && was[i].Time() == old(was[i].Time())
        invariant broker.Grown()
        decreases |peers| - k
      {
        SameNext(peers, k, was, j);
        ghost var state := broker.State();
        k, scoped := Turn(k, scoped, now);
        AdvancesOn(old(broker.State()), state, broker.State());
        StayingMore(was, j);
        j := j + 1;
      }
      assert peers[k..] == [] && |was[j..]| == |was| - j && was[..|was|] == was && peers[..k] == peers;
    }

    /** No peer is there twice. */
    lemma Distinct()
      requires Valid()
      ensures forall i, j :: 0 <= i < j < |peers| ==> peers[i] != peers[j] && peers[i].stream != peers[j].stream
    {
    }

    /** A peer of a known instance. */
    method Attach(instance: u64, stream: Stream) returns (ok: bool)
      requires Valid() && stream !in Streams(peers) && stream.received == [] && stream.sent == []
      modifies this`peers
      ensures Valid()
      ensures ok <==> instance in broker.instances && |old(peers)| < MAX_PEERS
      ensures ok ==> |peers| == |old(peers)| + 1 && peers[..|old(peers)|] == old(peers)
                     && peers[|old(peers)|].instance == instance && peers[|old(peers)|].stream == stream
                     && fresh(peers[|old(peers)|]) && peers[|old(peers)|].Buffered() == 0
      ensures !ok ==> peers == old(peers)
    {
      hide Broker.Valid, SumAll, SumOf, Peer.Valid, Separate;
      var known := broker.Types(instance, Clipboard);
      if known.Err? || |peers| >= MAX_PEERS { return false; }
      var p := new Peer(stream, instance, chars, alloc);
      AllJoin(peers, [p]);
      OnePeer(p);
      SeparateMore(peers, p);
      peers := peers + [p];
      ok := true;
    }

    /** The `k`-th peer kept, or taken out as one of the instance. */
    method RetainOne(k: nat, instance: u64, ghost all: seq<Peer>) returns (k': nat)
      requires Valid() && k < |peers| && all == peers[..k] + Except(peers[k..], instance)
      modifies this`ioBytes, this`peers
      ensures Valid() && k' <= |peers| && |peers| - k' < old(|peers|) - k
      ensures all == peers[..k'] + Except(peers[k'..], instance)
    {
      hide Transport.Valid, Transport.ValidBut, SumAll, SumOf, Peer.Valid;
      assert peers[k..][1..] == peers[k + 1..];
      ghost var was := peers;
      k' := k;
      if peers[k].instance == instance {
        AllButOne(k);
        TakeOut(k);
        assert peers[..k] == was[..k] && peers[k..] == was[k + 1..];
      } else {
        assert peers[..k + 1] == peers[..k] + [peers[k]];
        k' := k + 1;
      }
    }

    /** The instance's peers go, with their buffers. */
    method Retain(instance: u64)
      requires Valid()
      modifies this`ioBytes, this`peers
      ensures Valid() && peers == Except(old(peers), instance)
    {
      hide Transport.Valid, Except;
      ghost var all := Except(peers, instance);
      var k: nat := 0;
      assert peers[0..] == peers && peers[..0] == [];
      while k < |peers|
        invariant Valid() && k <= |peers|
        invariant all == peers[..k] + Except(peers[k..], instance)
        decreases |peers| - k
      {
        k := RetainOne(k, instance, all);
      }
      assert peers[..|peers|] == peers && peers[|peers|..] == [];
      NoneExcept(instance);
    }

    /** The instance ended: its selections and its peers go. */
    method Remove(instance: u64) returns (r: Result<(), Error>)
      requires Valid()
      modifies this`ioBytes, this`peers, broker
      ensures Valid()
      ensures r.Err? <==> instance !in old(broker.instances)
      ensures r.Err? ==> r == Err(UnknownInstance) && peers == old(peers) && broker.State() == old(broker.State())
      ensures r.Ok? ==> peers == Except(old(peers), instance) && broker.instances == old(broker.instances) - {instance}
    {
      hide Peer.Valid, Broker.Valid, SumAll, SumOf, Separate, Broker.Grown;
      r := broker.Remove(instance);
      if r.Ok? { Retain(instance); }
    }

    lemma AllButOne(k: nat)
      requires Valid() && k < |peers|
      ensures ValidBut(k)
    {
      hide Peer.Valid, Broker.Valid, SumAll, SumOf, Separate;
    }
  }

  lemma NoneExcept(instance: u64)
    ensures Except([], instance) == []
  {
  }

  ghost function Except(ps: seq<Peer>, instance: u64): seq<Peer> {
    if ps == [] then [] else (if ps[0].instance == instance then [] else [ps[0]]) + Except(ps[1..], instance)
  }

  lemma SeparateMore(ps: seq<Peer>, p: Peer)
    requires Separate(ps) && p !in ps && p.stream !in Streams(ps)
    ensures Separate(ps + [p])
  {
    var all := ps + [p];
    forall i, j | 0 <= i < j < |all| ensures all[i] != all[j] && all[i].stream != all[j].stream {
      assert all[i] in ps && all[i].stream in Streams(ps);
    }
  }

  lemma NoSum()
    ensures SumAll([]) == 0 && forall i :: SumOf([], i) == 0
  {
  }

  lemma OnePeer(p: Peer)
    ensures SumAll([p]) == p.Buffered()
    ensures forall i :: SumOf([p], i) == if p.instance == i then p.Buffered() else 0
  {
    assert [p][1..] == [];
  }

  lemma AllSplit(ps: seq<Peer>, k: nat)
    requires k < |ps|
    ensures SumAll(ps) == SumAll(ps[..k]) + ps[k].Buffered() + SumAll(ps[k + 1..])
    ensures forall i :: SumOf(ps, i) ==
              SumOf(ps[..k], i) + (if ps[k].instance == i then ps[k].Buffered() else 0) + SumOf(ps[k + 1..], i)
  {
    hide SumAll, SumOf;
    SumSplit(ps, k);
    forall i { SumOfSplit(ps, k, i); }
  }

  lemma AllJoin(a: seq<Peer>, b: seq<Peer>)
    ensures SumAll(a + b) == SumAll(a) + SumAll(b)
    ensures forall i :: SumOf(a + b, i) == SumOf(a, i) + SumOf(b, i)
  {
    hide SumAll, SumOf;
    SumJoin(a, b, 0);
    forall i { SumJoin(a, b, i); }
  }

  /** The other peers share nothing with the `k`-th. */
  lemma Others(ps: seq<Peer>, k: nat)
    requires Separate(ps) && k < |ps|
    ensures forall q :: q in ps[..k] + ps[k + 1..] ==> q in ps && q != ps[k] && q.stream != ps[k].stream
    ensures ps[k] !in ps[..k] && ps[k] !in ps[k + 1..]
    ensures Separate(ps[..k] + ps[k + 1..])
  {
    var rest := ps[..k] + ps[k + 1..];
    forall q | q in rest ensures q in ps && q != ps[k] && q.stream != ps[k].stream {
      var i :| 0 <= i < |rest| && rest[i] == q;
      assert q == ps[if i < k then i else i + 1];
    }
    forall i, j | 0 <= i < j < |rest| ensures rest[i] != rest[j] && rest[i].stream != rest[j].stream {
      assert rest[i] == ps[if i < k then i else i + 1] && rest[j] == ps[if j < k then j else j + 1];
    }
    assert forall q :: q in ps[..k] ==> q in rest;
    assert forall q :: q in ps[k + 1..] ==> q in rest;
  }
}
