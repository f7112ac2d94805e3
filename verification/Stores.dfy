/** The history as its parts' facts: what the sealed segments and the log say, oldest first,
    the abstract history they make, and what every rewriting of parts keeps. */
module Stores {
  import opened Wrappers
  import opened Codec
  import opened Records
  import opened Disk
  import opened Entries

  /** What one part says: its entries' blobs, the events and the tombstones recorded in it. */
  datatype Facts = Facts(entries: map<u64, bytes>, events: seq<Event>, tombs: set<u64>)

  const NOTHING: Facts := Facts(map[], [], {})

  /** The parts oldest first, the log last, and the id the next new entry takes. */
  datatype Store = Store(parts: seq<Facts>, next: nat)

  // ---- The abstract history ----

  /** An entry as its reader sees it: what was sealed, every copy and every paste. */
  datatype Item = Item(record: Record, copies: multiset<i64>, pastes: multiset<i64>)

  /** What a history is: its live entries by id, and the next id. */
  datatype Abs = Abs(items: map<u64, Item>, next: nat)

  ghost function Blobs(parts: seq<Facts>): map<u64, bytes> {
    if parts == [] then map[] else parts[0].entries + Blobs(parts[1..])
  }

  ghost function Events(parts: seq<Facts>): seq<Event> {
    if parts == [] then [] else parts[0].events + Events(parts[1..])
  }

  ghost function Dead(parts: seq<Facts>): set<u64> {
    if parts == [] then {} else parts[0].tombs + Dead(parts[1..])
  }

  /** The times of entry `id`'s events of one kind. */
  ghost function Times(events: seq<Event>, id: u64, kind: byte): multiset<i64> {
    if events == [] then multiset{} else TimeOf(events[0], id, kind) + Times(events[1..], id, kind)
  }

  ghost function TimeOf(e: Event, id: u64, kind: byte): multiset<i64> {
    if e.id == id && e.kind == kind then multiset{e.at} else multiset{}
  }

  ghost function RecordAt(env: Env, blob: bytes): Record {
    match Opened(env.keys, blob)
    case Some(r) => r
    case None => Record(0, 0, 0, [], [])
  }

  ghost function Live(parts: seq<Facts>): set<u64> {
    Blobs(parts).Keys - Dead(parts)
  }

  ghost function ItemOf(env: Env, parts: seq<Facts>, id: u64): Item
    requires id in Blobs(parts)
  {
    Item(RecordAt(env, Blobs(parts)[id]), Times(Events(parts), id, COPIED), Times(Events(parts), id, PASTED))
  }

  ghost function AbsOf(env: Env, s: Store): Abs {
    Abs(map id | id in Live(s.parts) :: ItemOf(env, s.parts, id), s.next)
  }

  // ---- The invariant ----

  ghost predicate Below(a: Facts, b: Facts) {
    forall x, y :: x in a.entries && y in b.entries ==> x < y
  }

  ghost predicate GoodEntry(env: Env, f: Facts, id: u64)
    requires id in f.entries
  {
    && |f.entries[id]| <= Logs.MAX_FRAME
    && Opened(env.keys, f.entries[id]).Some?
    && var r := Opened(env.keys, f.entries[id]).value;
       && r.id == id
       && Encodable(r.contents)
       && r.dedup == env.keys.dedup(Canonical(r.contents))
       && Event(id, r.copiedAt, COPIED) in f.events
  }

  /** `id` has its entry in one of the first `n` parts. */
  ghost predicate EntryWithin(parts: seq<Facts>, n: nat, id: u64) {
    exists i :: 0 <= i < n && i < |parts| && id in parts[i].entries
  }

  ghost predicate Mentions(f: Facts, id: u64) {
    id in f.tombs || exists e :: e in f.events && e.id == id
  }

  ghost predicate Placed(parts: seq<Facts>, j: nat, id: u64)
    requires j < |parts|
  {
    Mentions(parts[j], id) ==> EntryWithin(parts, j + 1, id)
  }

  /** Ids ascend over the parts and are below the next; every entry opens, under its own id
      and hash, and has its first copy beside it; nothing is said of an id before its entry,
      nor of one that has none. */
  ghost predicate Inv(env: Env, s: Store) {
    && (forall i, j :: 0 <= i < j < |s.parts| ==> Below(s.parts[i], s.parts[j]))
    && (forall i, id :: 0 <= i < |s.parts| && id in s.parts[i].entries ==>
          id < s.next && GoodEntry(env, s.parts[i], id))
    && (forall j, id :: 0 <= j < |s.parts| ==> Placed(s.parts, j, id))
    && (forall j, e :: 0 <= j < |s.parts| && e in s.parts[j].events ==> e.kind == COPIED || e.kind == PASTED)
  }

  // ---- Sums over the parts ----

  lemma SumOfMaps<K, V>(a: map<K, V>, b: map<K, V>, c: map<K, V>)
    ensures a + b + c == a + (b + c)
  {
  }

  lemma SumOfSeqs<T>(a: seq<T>, b: seq<T>, c: seq<T>)
    ensures a + b + c == a + (b + c)
  {
  }

  lemma {:induction false} BlobsConcat(a: seq<Facts>, b: seq<Facts>)
    ensures Blobs(a + b) == Blobs(a) + Blobs(b)
  {
    if a == [] {
      assert a + b == b;
    } else {
      assert (a + b)[0] == a[0] && (a + b)[1..] == a[1..] + b;
      BlobsConcat(a[1..], b);
      SumOfMaps(a[0].entries, Blobs(a[1..]), Blobs(b));
    }
  }

  lemma {:induction false} EventsConcat(a: seq<Facts>, b: seq<Facts>)
    ensures Events(a + b) == Events(a) + Events(b)
  {
    if a == [] {
      assert a + b == b;
    } else {
      assert (a + b)[0] == a[0] && (a + b)[1..] == a[1..] + b;
      assert Events(a + b) == a[0].events + Events(a[1..] + b);
      assert Events(a) == a[0].events + Events(a[1..]);
      hide *;
      EventsConcat(a[1..], b);
      SumOfSeqs(a[0].events, Events(a[1..]), Events(b));
    }
  }

  lemma {:induction false} DeadConcat(a: seq<Facts>, b: seq<Facts>)
    ensures Dead(a + b) == Dead(a) + Dead(b)
  {
    if a == [] {
      assert a + b == b;
    } else {
      assert (a + b)[0] == a[0] && (a + b)[1..] == a[1..] + b;
      DeadConcat(a[1..], b);
    }
  }

  lemma SumsConcat(a: seq<Facts>, b: seq<Facts>)
    ensures Blobs(a + b) == Blobs(a) + Blobs(b)
    ensures Events(a + b) == Events(a) + Events(b)
    ensures Dead(a + b) == Dead(a) + Dead(b)
  {
    BlobsConcat(a, b);
    EventsConcat(a, b);
    DeadConcat(a, b);
  }

  lemma {:induction false} SumsMembers(parts: seq<Facts>)
    ensures forall id :: id in Blobs(parts) <==> EntryWithin(parts, |parts|, id)
    ensures forall id :: id in Dead(parts) <==> exists i :: 0 <= i < |parts| && id in parts[i].tombs
    ensures forall e :: e in Events(parts) <==> exists i :: 0 <= i < |parts| && e in parts[i].events
  {
    if parts != [] {
      SumsMembers(parts[1..]);
      forall id ensures id in Blobs(parts) <==> EntryWithin(parts, |parts|, id) {
        if id in Blobs(parts[1..]) {
          var i :| 0 <= i < |parts[1..]| && id in parts[1..][i].entries;
          assert id in parts[i + 1].entries;
        }
        if EntryWithin(parts, |parts|, id) {
          var i :| 0 <= i < |parts| && id in parts[i].entries;
          if i > 0 { assert id in parts[1..][i - 1].entries; }
        }
      }
      forall id ensures id in Dead(parts) <==> exists i :: 0 <= i < |parts| && id in parts[i].tombs {
        if id in Dead(parts[1..]) {
          var i :| 0 <= i < |parts[1..]| && id in parts[1..][i].tombs;
          assert id in parts[i + 1].tombs;
        }
        if i :| 0 <= i < |parts| && id in parts[i].tombs {
          if i > 0 { assert id in parts[1..][i - 1].tombs; }
        }
      }
      forall e ensures e in Events(parts) <==> exists i :: 0 <= i < |parts| && e in parts[i].events {
        if e in Events(parts[1..]) {
          var i :| 0 <= i < |parts[1..]| && e in parts[1..][i].events;
          assert e in parts[i + 1].events;
        }
        if i :| 0 <= i < |parts| && e in parts[i].events {
          if i > 0 { assert e in parts[1..][i - 1].events; }
        }
      }
    }
  }

  /** Which part an id's blob is read from does not matter: only one has it. */
  lemma {:induction false} BlobIn(parts: seq<Facts>, i: nat, id: u64)
    requires i < |parts| && id in parts[i].entries
    requires forall a, b :: 0 <= a < b < |parts| ==> Below(parts[a], parts[b])
    ensures id in Blobs(parts) && Blobs(parts)[id] == parts[i].entries[id]
  {
    if i == 0 {
      SumsMembers(parts[1..]);
      forall j | 0 <= j < |parts[1..]| ensures id !in parts[1..][j].entries {
        assert Below(parts[0], parts[j + 1]);
      }
    } else {
      forall a, b | 0 <= a < b < |parts[1..]| ensures Below(parts[1..][a], parts[1..][b]) {
        assert Below(parts[a + 1], parts[b + 1]);
      }
      BlobIn(parts[1..], i - 1, id);
    }
  }

  lemma {:induction false} TimesCount(events: seq<Event>, id: u64, kind: byte, at: i64)
    ensures Times(events, id, kind)[at] == multiset(events)[Event(id, at, kind)]
  {
    if events != [] {
      assert events == [events[0]] + events[1..];
      assert multiset(events) == multiset{events[0]} + multiset(events[1..]);
      assert Times(events, id, kind) == TimeOf(events[0], id, kind) + Times(events[1..], id, kind);
      hide Times;
      TimesCount(events[1..], id, kind, at);
    }
  }

  lemma TimesConcat(a: seq<Event>, b: seq<Event>, id: u64, kind: byte)
    ensures Times(a + b, id, kind) == Times(a, id, kind) + Times(b, id, kind)
  {
    forall at ensures Times(a + b, id, kind)[at] == (Times(a, id, kind) + Times(b, id, kind))[at] {
      TimesCount(a + b, id, kind, at);
      TimesCount(a, id, kind, at);
      TimesCount(b, id, kind, at);
    }
  }

  /** Two records of events agree on an id when they have the same events of it. */
  lemma TimesAgree(a: seq<Event>, b: seq<Event>, id: u64, kind: byte)
    requires forall at :: multiset(a)[Event(id, at, kind)] == multiset(b)[Event(id, at, kind)]
    ensures Times(a, id, kind) == Times(b, id, kind)
  {
    forall at ensures Times(a, id, kind)[at] == Times(b, id, kind)[at] {
      TimesCount(a, id, kind, at);
      TimesCount(b, id, kind, at);
    }
  }

  lemma {:induction false} NoTimes(events: seq<Event>, id: u64, kind: byte)
    requires forall e :: e in events ==> e.id != id
    ensures Times(events, id, kind) == multiset{}
  {
    if events != [] { NoTimes(events[1..], id, kind); }
  }

  // ---- What appending does ----

  ghost function WithEntry(s: Store, id: u64, blob: bytes, at: i64): Store
    requires s.parts != []
  {
    var k := |s.parts| - 1;
    var f := s.parts[k];
    Store(s.parts[k := Facts(f.entries[id := blob], f.events + [Event(id, at, COPIED)], f.tombs)], id + 1)
  }

  ghost function WithEvent(s: Store, e: Event): Store
    requires s.parts != []
  {
    var k := |s.parts| - 1;
    s.(parts := s.parts[k := s.parts[k].(events := s.parts[k].events + [e])])
  }

  ghost function WithTomb(s: Store, id: u64): Store
    requires s.parts != []
  {
    var k := |s.parts| - 1;
    s.(parts := s.parts[k := s.parts[k].(tombs := s.parts[k].tombs + {id})])
  }

  lemma LastPart(parts: seq<Facts>, f: Facts)
    requires parts != []
    ensures var init := parts[..|parts| - 1];
            && parts == init + [parts[|parts| - 1]]
            && parts[|parts| - 1 := f] == init + [f]
            && Blobs(parts) == Blobs(init) + parts[|parts| - 1].entries
            && Events(parts) == Events(init) + parts[|parts| - 1].events
            && Dead(parts) == Dead(init) + parts[|parts| - 1].tombs
            && Blobs(init + [f]) == Blobs(init) + f.entries
            && Events(init + [f]) == Events(init) + f.events
            && Dead(init + [f]) == Dead(init) + f.tombs
  {
    var init := parts[..|parts| - 1];
    assert parts == init + [parts[|parts| - 1]];
    SumsConcat(init, [parts[|parts| - 1]]);
    SumsConcat(init, [f]);
    One(parts[|parts| - 1]);
    One(f);
  }

  lemma One(f: Facts)
    ensures Blobs([f]) == f.entries && Events([f]) == f.events && Dead([f]) == f.tombs
  {
    assert [f][1..] == [];
  }

  lemma Unmentioned(env: Env, s: Store, id: u64)
    requires Inv(env, s) && id >= s.next
    ensures id !in Blobs(s.parts) && id !in Dead(s.parts)
    ensures forall e :: e in Events(s.parts) ==> e.id != id
  {
    SumsMembers(s.parts);
    forall j | 0 <= j < |s.parts| ensures !Mentions(s.parts[j], id) {
      assert Placed(s.parts, j, id);
    }
  }

  // ---- What each operation makes of the abstract history ----

  ghost function Added(a: Abs, r: Record): Abs
    requires r.id as nat >= a.next
  {
    Abs(a.items[r.id := Item(r, multiset{r.copiedAt}, multiset{})], r.id + 1)
  }

  ghost function Noted(a: Abs, e: Event): Abs
    requires e.id in a.items
  {
    var item := a.items[e.id];
    a.(items := a.items[e.id := if e.kind == COPIED then item.(copies := item.copies + multiset{e.at})
                                else item.(pastes := item.pastes + multiset{e.at})])
  }

  ghost function Dropped(a: Abs, id: u64): Abs {
    a.(items := a.items - {id})
  }

  /** What a history may become: the next id does not fall, and an id once taken that is
      not live now will not be. */
  ghost predicate Follows(a: Abs, b: Abs) {
    a.next <= b.next && forall id :: id in b.items && id < a.next ==> id in a.items
  }

  ghost predicate EntryFor(env: Env, blob: bytes, r: Record) {
    && |blob| <= Logs.MAX_FRAME
    && Opened(env.keys, blob) == Some(r)
    && Encodable(r.contents)
    && r.dedup == env.keys.dedup(Canonical(r.contents))
  }

  lemma SameItem(env: Env, parts: seq<Facts>, parts': seq<Facts>, id: u64)
    requires id in Blobs(parts) && id in Blobs(parts') && Blobs(parts)[id] == Blobs(parts')[id]
    requires forall at, kind :: (kind == COPIED || kind == PASTED) ==>
               multiset(Events(parts))[Event(id, at, kind)] == multiset(Events(parts'))[Event(id, at, kind)]
    ensures ItemOf(env, parts, id) == ItemOf(env, parts', id)
  {
    TimesAgree(Events(parts), Events(parts'), id, COPIED);
    TimesAgree(Events(parts), Events(parts'), id, PASTED);
  }

  /** A new entry: a new item with its first copy, and nothing else changed. */
  lemma EntryAppended(env: Env, s: Store, blob: bytes, r: Record)
    requires Inv(env, s) && s.parts != [] && r.id == s.next && EntryFor(env, blob, r)
    ensures Inv(env, WithEntry(s, r.id, blob, r.copiedAt))
    ensures AbsOf(env, WithEntry(s, r.id, blob, r.copiedAt)) == Added(AbsOf(env, s), r)
  {
    EntryKeepsInv(env, s, blob, r);
    EntryAdds(env, s, blob, r);
  }

  lemma EntryKeepsInv(env: Env, s: Store, blob: bytes, r: Record)
    requires Inv(env, s) && s.parts != [] && r.id == s.next && EntryFor(env, blob, r)
    ensures Inv(env, WithEntry(s, r.id, blob, r.copiedAt))
  {
    hide Opened, Canonical;
    var t := WithEntry(s, r.id, blob, r.copiedAt);
    var k := |s.parts| - 1;
    forall i, j | 0 <= i < j < |t.parts| ensures Below(t.parts[i], t.parts[j]) {
      assert Below(s.parts[i], s.parts[j]);
    }
    forall i, id | 0 <= i < |t.parts| && id in t.parts[i].entries
      ensures id < t.next && GoodEntry(env, t.parts[i], id) {
      if !(i == k && id == r.id) {
        assert id in s.parts[i].entries && GoodEntry(env, s.parts[i], id);
      } else {
        assert t.parts[k].events[|s.parts[k].events|] == Event(r.id, r.copiedAt, COPIED);
      }
    }
    forall j, id | 0 <= j < |t.parts| ensures Placed(t.parts, j, id) {
      assert Placed(s.parts, j, id);
      if Mentions(s.parts[j], id) {
        StillWithin(s.parts, t.parts, j + 1, id);
      }
      if j == k && id == r.id { assert id in t.parts[k].entries; }
    }
  }

  lemma StillWithin(parts: seq<Facts>, parts': seq<Facts>, n: nat, id: u64)
    requires EntryWithin(parts, n, id) && |parts| == |parts'|
    requires forall i :: 0 <= i < |parts| ==> parts[i].entries.Keys <= parts'[i].entries.Keys
    ensures EntryWithin(parts', n, id)
  {
    var i :| 0 <= i < n && i < |parts| && id in parts[i].entries;
    assert id in parts'[i].entries;
  }

  lemma AbsIs(env: Env, s: Store, items: map<u64, Item>)
    requires Live(s.parts) == items.Keys
    requires forall id :: id in items ==> id in Blobs(s.parts) && ItemOf(env, s.parts, id) == items[id]
    ensures AbsOf(env, s) == Abs(items, s.next)
  {
    hide Live, Blobs, ItemOf;
  }

  lemma EntryAdds(env: Env, s: Store, blob: bytes, r: Record)
    requires Inv(env, s) && s.parts != [] && r.id == s.next && EntryFor(env, blob, r)
    ensures AbsOf(env, WithEntry(s, r.id, blob, r.copiedAt)) == Added(AbsOf(env, s), r)
  {
    hide Opened, Canonical, Inv, Events, Blobs, Dead, Times;
    var t := WithEntry(s, r.id, blob, r.copiedAt);
    var e := Event(r.id, r.copiedAt, COPIED);
    Unmentioned(env, s, r.id);
    LastPart(s.parts, t.parts[|s.parts| - 1]);
    var init := s.parts[..|s.parts| - 1];
    assert Blobs(t.parts) == Blobs(s.parts)[r.id := blob];
    assert Events(t.parts) == Events(s.parts) + [e];
    assert Dead(t.parts) == Dead(s.parts);
    assert Live(t.parts) == Live(s.parts) + {r.id};
    EntryItems(env, s, t, blob, r, e);
    AbsIs(env, t, Added(AbsOf(env, s), r).items);
  }

  lemma EntryItems(env: Env, s: Store, t: Store, blob: bytes, r: Record, e: Event)
    requires Blobs(t.parts) == Blobs(s.parts)[r.id := blob] && Events(t.parts) == Events(s.parts) + [e]
    requires Live(t.parts) == Live(s.parts) + {r.id} && r.id !in Blobs(s.parts) && e == Event(r.id, r.copiedAt, COPIED)
    requires EntryFor(env, blob, r) && r.id == s.next && forall x :: x in Events(s.parts) ==> x.id != r.id
    ensures var items := Added(AbsOf(env, s), r).items;
            items.Keys == Live(t.parts) && forall id :: id in items ==> ItemOf(env, t.parts, id) == items[id]
  {
    hide Opened, Canonical, Events, Blobs, Dead, Times;
    var items := Added(AbsOf(env, s), r).items;
    forall id | id in items ensures ItemOf(env, t.parts, id) == items[id] {
      OneMoreEvent(Events(s.parts), e, id, COPIED);
      OneMoreEvent(Events(s.parts), e, id, PASTED);
      if id == r.id {
        NoTimes(Events(s.parts), id, COPIED);
        NoTimes(Events(s.parts), id, PASTED);
      }
    }
  }

  lemma OneMoreEvent(events: seq<Event>, e: Event, id: u64, kind: byte)
    ensures Times(events + [e], id, kind) == Times(events, id, kind) + TimeOf(e, id, kind)
  {
    TimesConcat(events, [e], id, kind);
    assert [e][1..] == [];
  }

  /** The same entries, and no more said than of entries that are there: the invariant. */
  lemma SaidOfEntries(env: Env, s: Store, t: Store)
    requires Inv(env, s) && |t.parts| == |s.parts| && t.next == s.next
    requires forall i :: 0 <= i < |s.parts| ==>
               t.parts[i].entries == s.parts[i].entries && forall e :: e in s.parts[i].events ==> e in t.parts[i].events
    requires forall i, e :: 0 <= i < |s.parts| && e in t.parts[i].events ==> e.kind == COPIED || e.kind == PASTED
    requires forall j, id :: 0 <= j < |s.parts| && Mentions(t.parts[j], id) ==>
               Mentions(s.parts[j], id) || EntryWithin(s.parts, j + 1, id)
    ensures Inv(env, t)
  {
    hide Opened, Canonical, Mentions;
    forall j, id | 0 <= j < |t.parts| ensures Placed(t.parts, j, id) {
      assert Placed(s.parts, j, id);
      if Mentions(t.parts[j], id) { StillWithin(s.parts, t.parts, j + 1, id); }
    }
    forall i, id | 0 <= i < |t.parts| && id in t.parts[i].entries
      ensures id < t.next && GoodEntry(env, t.parts[i], id) {
      assert GoodEntry(env, s.parts[i], id);
    }
    forall i, j | 0 <= i < j < |t.parts| ensures Below(t.parts[i], t.parts[j]) {
      assert Below(s.parts[i], s.parts[j]);
    }
  }

  /** An event of a live entry: one more copy or paste of it, and nothing else changed. */
  lemma EventAppended(env: Env, s: Store, e: Event)
    requires Inv(env, s) && s.parts != [] && e.id in Live(s.parts)
    requires e.kind == COPIED || e.kind == PASTED
    ensures Inv(env, WithEvent(s, e))
    ensures AbsOf(env, WithEvent(s, e)) == Noted(AbsOf(env, s), e)
  {
    EventKeepsInv(env, s, e);
    EventNotes(env, s, e);
  }

  lemma EventKeepsInv(env: Env, s: Store, e: Event)
    requires Inv(env, s) && s.parts != [] && e.id in Live(s.parts)
    requires e.kind == COPIED || e.kind == PASTED
    ensures Inv(env, WithEvent(s, e))
  {
    hide Opened, Canonical, GoodEntry, Blobs, Dead;
    SumsMembers(s.parts);
    SaidOfEntries(env, s, WithEvent(s, e));
  }

  lemma EventNotes(env: Env, s: Store, e: Event)
    requires s.parts != [] && e.id in Live(s.parts)
    requires e.kind == COPIED || e.kind == PASTED
    ensures AbsOf(env, WithEvent(s, e)) == Noted(AbsOf(env, s), e)
  {
    hide Opened, Canonical, Events, Blobs, Dead, Times;
    var t := WithEvent(s, e);
    LastPart(s.parts, t.parts[|s.parts| - 1]);
    assert Blobs(t.parts) == Blobs(s.parts) && Dead(t.parts) == Dead(s.parts);
    assert Events(t.parts) == Events(s.parts) + [e];
    var items := Noted(AbsOf(env, s), e).items;
    assert Live(t.parts) == items.Keys;
    forall id | id in items ensures ItemOf(env, t.parts, id) == items[id] {
      OneMoreEvent(Events(s.parts), e, id, COPIED);
      OneMoreEvent(Events(s.parts), e, id, PASTED);
    }
    AbsIs(env, t, items);
  }

  /** A tombstone of a live entry: the entry is gone, and nothing else changed. */
  lemma TombAppended(env: Env, s: Store, id: u64)
    requires Inv(env, s) && s.parts != [] && id in Live(s.parts)
    ensures Inv(env, WithTomb(s, id))
    ensures AbsOf(env, WithTomb(s, id)) == Dropped(AbsOf(env, s), id)
  {
    TombKeepsInv(env, s, id);
    TombDrops(env, s, id);
  }

  lemma TombKeepsInv(env: Env, s: Store, id: u64)
    requires Inv(env, s) && s.parts != [] && id in Live(s.parts)
    ensures Inv(env, WithTomb(s, id))
  {
    hide Opened, Canonical, GoodEntry, Blobs, Dead;
    SumsMembers(s.parts);
    SaidOfEntries(env, s, WithTomb(s, id));
  }

  lemma TombDrops(env: Env, s: Store, id: u64)
    requires s.parts != [] && id in Live(s.parts)
    ensures AbsOf(env, WithTomb(s, id)) == Dropped(AbsOf(env, s), id)
  {
    hide Opened, Canonical, Events, Blobs, Dead, Times;
    var t := WithTomb(s, id);
    LastPart(s.parts, t.parts[|s.parts| - 1]);
    assert Blobs(t.parts) == Blobs(s.parts) && Events(t.parts) == Events(s.parts);
    assert Dead(t.parts) == Dead(s.parts) + {id};
    assert Live(t.parts) == Live(s.parts) - {id};
    AbsIs(env, t, Dropped(AbsOf(env, s), id).items);
  }

  // ---- What sealing and merging keep ----

  /** `f` is the parts rewritten as one: what is dead is dropped with its events, and of
      the tombstones those kept whose entry is outside. */
  ghost predicate Rewrites(parts: seq<Facts>, f: Facts, dead: set<u64>, outside: set<u64>) {
    && f.entries == Blobs(parts) - dead
    && (forall e :: multiset(f.events)[e] == if e.id in dead then 0 else multiset(Events(parts))[e])
    && f.tombs == Dead(parts) * outside
  }

  ghost function Replaced(s: Store, lo: nat, hi: nat, f: Facts): Store
    requires lo <= hi <= |s.parts|
  {
    s.(parts := s.parts[..lo] + [f] + s.parts[hi..])
  }

  ghost predicate NothingAfter(s: Store, hi: nat) {
    forall j :: hi <= j < |s.parts| ==> s.parts[j] == NOTHING
  }

  /** Rewriting the newest parts leaves the abstract history as it was, and the invariant. */
  lemma RewriteKeeps(env: Env, s: Store, lo: nat, hi: nat, f: Facts)
    requires Inv(env, s) && lo < hi <= |s.parts| && NothingAfter(s, hi)
    requires Rewrites(s.parts[lo..hi], f, Dead(s.parts), Blobs(s.parts[..lo]).Keys)
    ensures Inv(env, Replaced(s, lo, hi, f))
    ensures AbsOf(env, Replaced(s, lo, hi, f)) == AbsOf(env, s)
  {
    RewriteKeepsInv(env, s, lo, hi, f);
    RewriteKeepsAbs(env, s, lo, hi, f);
  }

  lemma {:induction false} NothingSaid(parts: seq<Facts>)
    requires forall j :: 0 <= j < |parts| ==> parts[j] == NOTHING
    ensures Blobs(parts) == map[] && Events(parts) == [] && Dead(parts) == {}
  {
    if parts != [] { NothingSaid(parts[1..]); }
  }

  lemma ThreeRanges(s: Store, lo: nat, hi: nat, f: Facts)
    requires lo < hi <= |s.parts| && NothingAfter(s, hi)
    ensures var a, b, t := s.parts[..lo], s.parts[lo..hi], Replaced(s, lo, hi, f).parts;
            && Blobs(s.parts) == Blobs(a) + Blobs(b) && Blobs(t) == Blobs(a) + f.entries
            && Events(s.parts) == Events(a) + Events(b) && Events(t) == Events(a) + f.events
            && Dead(s.parts) == Dead(a) + Dead(b) && Dead(t) == Dead(a) + f.tombs
  {
    hide Blobs, Events, Dead;
    var a, b, c := s.parts[..lo], s.parts[lo..hi], s.parts[hi..];
    assert s.parts == a + b + c;
    NothingSaid(c);
    SumsConcat(a + b, c);
    SumsConcat(a, b);
    SumsConcat(a + [f], c);
    SumsConcat(a, [f]);
    One(f);
  }

  lemma Apart(env: Env, s: Store, lo: nat, hi: nat)
    requires Inv(env, s) && lo < hi <= |s.parts|
    ensures Blobs(s.parts[..lo]).Keys !! Blobs(s.parts[lo..hi]).Keys
  {
    hide GoodEntry, Placed, Blobs;
    var a, b := s.parts[..lo], s.parts[lo..hi];
    SumsMembers(a);
    SumsMembers(b);
    forall x, y | x in Blobs(a) && y in Blobs(b) ensures x < y {
      var i :| 0 <= i < |a| && x in a[i].entries;
      var j :| 0 <= j < |b| && y in b[j].entries;
      assert Below(s.parts[i], s.parts[lo + j]);
    }
  }

  lemma RewriteKeepsAbs(env: Env, s: Store, lo: nat, hi: nat, f: Facts)
    requires Inv(env, s) && lo < hi <= |s.parts| && NothingAfter(s, hi)
    requires Rewrites(s.parts[lo..hi], f, Dead(s.parts), Blobs(s.parts[..lo]).Keys)
    ensures AbsOf(env, Replaced(s, lo, hi, f)) == AbsOf(env, s)
  {
    hide Opened, Canonical, Inv, Events, Blobs, Dead, Times;
    var a, b, t := s.parts[..lo], s.parts[lo..hi], Replaced(s, lo, hi, f);
    ThreeRanges(s, lo, hi, f);
    Apart(env, s, lo, hi);
    assert Live(t.parts) == Live(s.parts);
    forall id | id in Live(s.parts) ensures ItemOf(env, t.parts, id) == ItemOf(env, s.parts, id) {
      forall at, kind
        ensures multiset(Events(s.parts))[Event(id, at, kind)] == multiset(Events(t.parts))[Event(id, at, kind)] {
        var e := Event(id, at, kind);
        assert multiset(Events(s.parts))[e] == multiset(Events(a))[e] + multiset(Events(b))[e];
        assert multiset(Events(t.parts))[e] == multiset(Events(a))[e] + multiset(f.events)[e];
      }
      SameItem(env, s.parts, t.parts, id);
    }
    AbsIs(env, t, AbsOf(env, s).items);
  }

  lemma RewriteKeepsInv(env: Env, s: Store, lo: nat, hi: nat, f: Facts)
    requires Inv(env, s) && lo < hi <= |s.parts| && NothingAfter(s, hi)
    requires Rewrites(s.parts[lo..hi], f, Dead(s.parts), Blobs(s.parts[..lo]).Keys)
    ensures Inv(env, Replaced(s, lo, hi, f))
  {
    hide *;
    var t := Replaced(s, lo, hi, f);
    RewrittenPart(env, s, lo, hi, f);
    ReplacedIs(s, lo, hi, f);
    assert Inv(env, t) by {
      InvOfReplaced(env, s, lo, hi, f);
    }
  }

  lemma ReplacedIs(s: Store, lo: nat, hi: nat, f: Facts)
    requires lo < hi <= |s.parts|
    ensures var t := Replaced(s, lo, hi, f).parts;
            && Replaced(s, lo, hi, f).next == s.next
            && |t| == |s.parts| - (hi - lo) + 1
            && (forall i :: 0 <= i < lo ==> t[i] == s.parts[i])
            && t[lo] == f
            && (forall i :: lo < i < |t| ==> t[i] == s.parts[i + hi - lo - 1])
  {
  }

  /** What the invariant asks of the rewritten part alone. */
  lemma RewrittenPart(env: Env, s: Store, lo: nat, hi: nat, f: Facts)
    requires Inv(env, s) && lo < hi <= |s.parts|
    requires Rewrites(s.parts[lo..hi], f, Dead(s.parts), Blobs(s.parts[..lo]).Keys)
    ensures forall i :: 0 <= i < lo ==> Below(s.parts[i], f)
    ensures forall id :: id in f.entries ==> id < s.next && GoodEntry(env, f, id)
    ensures forall id :: Mentions(f, id) ==> id in f.entries || EntryWithin(s.parts, lo, id)
    ensures forall e :: e in f.events ==> e.kind == COPIED || e.kind == PASTED
  {
    hide *;
    RewrittenEntries(env, s, lo, hi, f);
    RewrittenEvents(env, s, lo, hi, f);
    RewrittenTombs(s, lo, hi, f);
    forall id | Mentions(f, id) ensures id in f.entries || EntryWithin(s.parts, lo, id) {
      WhoMentions(f, id);
    }
  }

  lemma WhoMentions(f: Facts, id: u64)
    requires Mentions(f, id)
    ensures id in f.tombs || exists e :: e in f.events && e.id == id
  {
  }

  lemma RewrittenEntries(env: Env, s: Store, lo: nat, hi: nat, f: Facts)
    requires Inv(env, s) && lo < hi <= |s.parts|
    requires Rewrites(s.parts[lo..hi], f, Dead(s.parts), Blobs(s.parts[..lo]).Keys)
    ensures forall i :: 0 <= i < lo ==> Below(s.parts[i], f)
    ensures forall id :: id in f.entries ==> id < s.next && GoodEntry(env, f, id)
  {
    hide Blobs, Events, Dead, GoodEntry, Placed, Inv, Rewrites;
    forall id | id in f.entries
      ensures id < s.next && GoodEntry(env, f, id)
      ensures forall i, x :: 0 <= i < lo && x in s.parts[i].entries ==> x < id
    {
      RewrittenEntry(env, s, lo, hi, f, id);
    }
  }

  lemma RewrittenEntry(env: Env, s: Store, lo: nat, hi: nat, f: Facts, id: u64)
    requires Inv(env, s) && lo < hi <= |s.parts| && id in f.entries
    requires Rewrites(s.parts[lo..hi], f, Dead(s.parts), Blobs(s.parts[..lo]).Keys)
    ensures id < s.next && GoodEntry(env, f, id)
    ensures forall i, x :: 0 <= i < lo && x in s.parts[i].entries ==> x < id
  {
    hide Blobs, Events, Dead, GoodEntry, Placed;
    var b := s.parts[lo..hi];
    SumsMembers(b);
    var j :| 0 <= j < |b| && id in b[j].entries;
    assert b[j] == s.parts[lo + j];
    forall i, k | 0 <= i < k < |b| ensures Below(b[i], b[k]) {
      assert Below(s.parts[lo + i], s.parts[lo + k]);
    }
    BlobIn(b, j, id);
    forall e | e in b[j].events ensures e in multiset(Events(b)) {
      assert e in Events(b);
    }
    EntryMoves(env, b[j], f, id);
    forall i, x | 0 <= i < lo && x in s.parts[i].entries ensures x < id {
      assert Below(s.parts[i], s.parts[lo + j]);
    }
  }

  lemma EntryMoves(env: Env, g: Facts, f: Facts, id: u64)
    requires id in g.entries && id in f.entries && f.entries[id] == g.entries[id] && GoodEntry(env, g, id)
    requires forall e :: e in g.events && e.id == id ==> e in multiset(f.events)
    ensures GoodEntry(env, f, id)
  {
    hide Opened, Canonical, Encodable;
  }

  lemma RewrittenEvents(env: Env, s: Store, lo: nat, hi: nat, f: Facts)
    requires Inv(env, s) && lo < hi <= |s.parts|
    requires Rewrites(s.parts[lo..hi], f, Dead(s.parts), Blobs(s.parts[..lo]).Keys)
    ensures forall e :: e in f.events ==>
              && (e.kind == COPIED || e.kind == PASTED)
              && (e.id in f.entries || EntryWithin(s.parts, lo, e.id))
  {
    hide Opened, Canonical, Blobs, Events, Dead, GoodEntry;
    var b := s.parts[lo..hi];
    SumsMembers(b);
    forall e | e in f.events
      ensures e.kind == COPIED || e.kind == PASTED
      ensures e.id in f.entries || EntryWithin(s.parts, lo, e.id)
    {
      assert e in multiset(f.events) && e in multiset(Events(b)) && e in Events(b);
      var j :| 0 <= j < |b| && e in b[j].events;
      assert e in s.parts[lo + j].events && Placed(s.parts, lo + j, e.id);
      WithinSplits(s.parts, lo, hi, lo + j + 1, e.id);
    }
  }

  lemma RewrittenTombs(s: Store, lo: nat, hi: nat, f: Facts)
    requires lo < hi <= |s.parts|
    requires Rewrites(s.parts[lo..hi], f, Dead(s.parts), Blobs(s.parts[..lo]).Keys)
    ensures forall id :: id in f.tombs ==> EntryWithin(s.parts, lo, id)
  {
    hide Blobs, Events, Dead;
    var a := s.parts[..lo];
    SumsMembers(a);
    forall id | id in f.tombs ensures EntryWithin(s.parts, lo, id) {
      var i :| 0 <= i < lo && id in a[i].entries;
      assert id in s.parts[i].entries;
    }
  }

  lemma WithinSplits(parts: seq<Facts>, lo: nat, hi: nat, n: nat, id: u64)
    requires lo <= hi <= |parts| && n <= hi && EntryWithin(parts, n, id)
    ensures EntryWithin(parts, lo, id) || EntryWithin(parts[lo..hi], hi - lo, id)
  {
    var i :| 0 <= i < n && i < |parts| && id in parts[i].entries;
    if i >= lo { assert parts[lo..hi][i - lo] == parts[i]; }
  }

  lemma InvOfReplaced(env: Env, s: Store, lo: nat, hi: nat, f: Facts)
    requires Inv(env, s) && lo < hi <= |s.parts| && NothingAfter(s, hi)
    requires forall i :: 0 <= i < lo ==> Below(s.parts[i], f)
    requires forall id :: id in f.entries ==> id < s.next && GoodEntry(env, f, id)
    requires forall id :: Mentions(f, id) ==> id in f.entries || EntryWithin(s.parts, lo, id)
    requires forall e :: e in f.events ==> e.kind == COPIED || e.kind == PASTED
    ensures Inv(env, Replaced(s, lo, hi, f))
  {
    hide Opened, Canonical, GoodEntry, Replaced;
    var t := Replaced(s, lo, hi, f);
    ReplacedIs(s, lo, hi, f);
    forall k | lo < k < |t.parts| ensures t.parts[k] == NOTHING {
      assert t.parts[k] == s.parts[k + hi - lo - 1];
    }
    forall i, j | 0 <= i < j < |t.parts| ensures Below(t.parts[i], t.parts[j]) {
      if j < lo {
        assert Below(s.parts[i], s.parts[j]);
      } else if j > lo {
        assert t.parts[j] == NOTHING;
      } else {
        assert Below(s.parts[i], f) && t.parts[i] == s.parts[i] && t.parts[j] == f;
      }
    }
    forall i, id | 0 <= i < |t.parts| && id in t.parts[i].entries
      ensures id < t.next && GoodEntry(env, t.parts[i], id) {
      if i < lo { assert GoodEntry(env, s.parts[i], id); }
    }
    forall j, id | 0 <= j < |t.parts| ensures Placed(t.parts, j, id) {
      if j < lo {
        assert Placed(s.parts, j, id);
        if Mentions(s.parts[j], id) { SamePrefixWithin(s.parts, t.parts, lo, j + 1, id); }
      } else if j == lo && Mentions(f, id) {
        if id in f.entries {
          assert id in t.parts[lo].entries;
        } else {
          SamePrefixWithin(s.parts, t.parts, lo, lo, id);
          LaterWithin(t.parts, lo, lo + 1, id);
        }
      }
    }
  }

  lemma SamePrefixWithin(parts: seq<Facts>, parts': seq<Facts>, lo: nat, n: nat, id: u64)
    requires n <= lo <= |parts| && lo <= |parts'|
    requires forall i :: 0 <= i < lo ==> parts'[i] == parts[i]
    requires EntryWithin(parts, n, id)
    ensures EntryWithin(parts', n, id)
  {
    var i :| 0 <= i < n && i < |parts| && id in parts[i].entries;
    assert id in parts'[i].entries;
  }

  lemma LaterWithin(parts: seq<Facts>, n: nat, m: nat, id: u64)
    requires n <= m && EntryWithin(parts, n, id)
    ensures EntryWithin(parts, m, id)
  {
    var i :| 0 <= i < n && i < |parts| && id in parts[i].entries;
    assert 0 <= i < m && id in parts[i].entries;
  }

  /** A new empty log says nothing. */
  lemma EmptyLogKeeps(env: Env, s: Store)
    requires Inv(env, s)
    ensures Inv(env, s.(parts := s.parts + [NOTHING]))
    ensures AbsOf(env, s.(parts := s.parts + [NOTHING])) == AbsOf(env, s)
  {
    EmptyLogKeepsInv(env, s);
    hide Opened, Canonical, Inv, Events, Blobs, Dead, Times;
    var t := s.(parts := s.parts + [NOTHING]);
    SumsConcat(s.parts, [NOTHING]);
    One(NOTHING);
    assert Events(t.parts) == Events(s.parts);
    AbsIs(env, t, AbsOf(env, s).items);
  }

  lemma EmptyLogKeepsInv(env: Env, s: Store)
    requires Inv(env, s)
    ensures Inv(env, s.(parts := s.parts + [NOTHING]))
  {
    hide Opened, Canonical, GoodEntry;
    var t := s.(parts := s.parts + [NOTHING]);
    forall j, id | 0 <= j < |t.parts| ensures Placed(t.parts, j, id) {
      if j < |s.parts| {
        assert Placed(s.parts, j, id);
        if Mentions(s.parts[j], id) { SamePrefixWithin(s.parts, t.parts, |s.parts|, j + 1, id); }
      }
    }
    forall i, id | 0 <= i < |s.parts| && id in s.parts[i].entries ensures GoodEntry(env, t.parts[i], id) {
      assert GoodEntry(env, s.parts[i], id);
    }
  }

  // ---- Tombstones ----

  /** Neither an entry of the id nor any event of one. */
  ghost predicate NothingOf(parts: seq<Facts>, id: u64) {
    id !in Blobs(parts) && forall e :: e in Events(parts) ==> e.id != id
  }

  /** A tombstone that is gone in a later history had nothing left to hide: neither the entry
      nor any event of it is anywhere. */
  lemma TombstoneServed(env: Env, s: Store, t: Store, id: u64)
    requires Inv(env, s) && Inv(env, t) && Follows(AbsOf(env, s), AbsOf(env, t))
    requires id in Dead(s.parts) && id !in Dead(t.parts)
    ensures NothingOf(t.parts, id)
  {
    hide Blobs, Dead, Events, ItemOf, Below, GoodEntry, Mentions, EntryWithin;
    TombTaken(env, s, id);
    assert id !in AbsOf(env, s).items;
    assert id in AbsOf(env, t).items <==> id in Blobs(t.parts);
    forall e | e in Events(t.parts) ensures e.id in Blobs(t.parts) { EventHasEntry(env, t, e); }
  }

  /** Only of an id once taken is there a tombstone. */
  lemma TombTaken(env: Env, s: Store, id: u64)
    requires Inv(env, s) && id in Dead(s.parts)
    ensures id < s.next
  {
    hide Dead, Blobs, Events, Below, GoodEntry;
    SumsMembers(s.parts);
    var j :| 0 <= j < |s.parts| && id in s.parts[j].tombs;
    assert Placed(s.parts, j, id) && Mentions(s.parts[j], id);
    assert EntryWithin(s.parts, j + 1, id);
  }

  lemma EventHasEntry(env: Env, s: Store, e: Event)
    requires Inv(env, s) && e in Events(s.parts)
    ensures e.id in Blobs(s.parts)
  {
    hide Dead, Blobs, Events, Below, GoodEntry;
    SumsMembers(s.parts);
    var j :| 0 <= j < |s.parts| && e in s.parts[j].events;
    assert Placed(s.parts, j, e.id) && Mentions(s.parts[j], e.id);
    var i :| 0 <= i < j + 1 && i < |s.parts| && e.id in s.parts[i].entries;
    assert EntryWithin(s.parts, |s.parts|, e.id);
  }
}
