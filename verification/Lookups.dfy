/** Where a history's entries, events and tombstones are: what the lookups over its parts
    come to. */
module Lookups {
  import opened Wrappers
  import opened Codec
  import opened Order
  import opened PostingLists
  import opened Records
  import opened Disk
  import opened Logs
  import opened Entries
  import opened Stores
  import opened Rows
  import opened Segments
  import opened Recovery

  ghost function Parts(f: Found): (p: seq<Facts>)
    ensures |p| == |f.segments| + 1
    ensures forall i :: 0 <= i < |f.segments| ==> p[i] == SegFacts(f.segments[i])
    ensures p[|f.segments|] == LogFacts(f.mirror, f.log)
  {
    hide SegFacts, LogFacts;
    PartsOf(f.segments, f.mirror, f.log)
  }

  lemma Ordered(env: Env, f: Found)
    requires Sound(env, f)
    ensures forall i, j :: 0 <= i < j < |Parts(f)| ==> Below(Parts(f)[i], Parts(f)[j])
    ensures Inv(env, Store(Parts(f), NextOf(f)))
    ensures forall i :: 0 <= i < |f.segments| ==> LocsGood(f.segments[i])
    ensures Located(f.log, f.mirror)
  {
    hide GoodEntry, Placed, Below, NextOf, Mirrors, TermIndexed, HashesOf, StampsOf, WithTerm, WithHash, LocsGood,
      Located, SegFacts, LogFacts;
  }

  lemma InPart(env: Env, f: Found, i: nat, id: u64)
    requires Sound(env, f) && i < |Parts(f)| && id in Parts(f)[i].entries
    ensures id in Blobs(Parts(f)) && Blobs(Parts(f))[id] == Parts(f)[i].entries[id]
  {
    hide Sound, Below, Parts, Blobs;
    Ordered(env, f);
    Stores.BlobIn(Parts(f), i, id);
  }

  lemma Somewhere(f: Found, id: u64)
    requires id in Blobs(Parts(f))
    ensures exists i :: 0 <= i < |Parts(f)| && id in Parts(f)[i].entries
  {
    hide Parts, Blobs;
    SumsMembers(Parts(f));
    var i :| 0 <= i < |Parts(f)| && i < |Parts(f)| && id in Parts(f)[i].entries;
    assert id in Parts(f)[i].entries;
  }

  ghost predicate IsTombOf(s: Segment, id: u64) {
    id in SegFacts(s).tombs
  }

  lemma DeadWhere(f: Found, id: u64)
    ensures id in Dead(Parts(f)) <==>
            id in f.mirror.tombstones || exists i :: 0 <= i < |f.segments| && IsTombOf(f.segments[i], id)
  {
    hide Dead, MapOf;
    SumsMembers(Parts(f));
    var k := |f.segments|;
    if id in Dead(Parts(f)) {
      var i :| 0 <= i < |Parts(f)| && id in Parts(f)[i].tombs;
      if i < k { assert IsTombOf(f.segments[i], id); }
    }
    if id in f.mirror.tombstones { assert id in Parts(f)[k].tombs; }
    if i :| 0 <= i < k && IsTombOf(f.segments[i], id) { assert id in Parts(f)[i].tombs; }
  }

  predicate InRangeOf(s: Segment, id: u64) {
    s.entries > 0 && s.minId <= id <= s.maxId
  }

  lemma EntryInRange(s: Segment, id: u64)
    requires LocsGood(s) && id in SegFacts(s).entries
    ensures InRangeOf(s, id)
  {
    hide MapOf;
    SegRowsAscend(s);
    MapOfMembers(SegRows(s));
    var i :| 0 <= i < |SegRows(s)| && SegRows(s)[i].0 == id;
    assert s.locs[0].id <= s.locs[i].id <= s.locs[s.entries - 1].id;
  }

  lemma EndsAreEntries(s: Segment)
    requires LocsGood(s) && s.entries > 0
    ensures s.minId in SegFacts(s).entries && s.maxId in SegFacts(s).entries
  {
    hide MapOf;
    SegRowsAscend(s);
    MapOfMembers(SegRows(s));
    assert SegRows(s)[0].0 == s.minId && SegRows(s)[s.entries - 1].0 == s.maxId;
  }

  lemma LaterIsHigher(env: Env, f: Found, i: nat, j: nat, x: u64, y: u64)
    requires Sound(env, f) && i < j < |Parts(f)|
    requires x in Parts(f)[i].entries && y in Parts(f)[j].entries
    ensures x < y
  {
    hide Sound, Parts;
    Ordered(env, f);
    assert Below(Parts(f)[i], Parts(f)[j]);
  }

  lemma LocsOf(env: Env, f: Found, i: nat)
    requires Sound(env, f) && i < |f.segments|
    ensures LocsGood(f.segments[i])
  {
    hide Sound, LocsGood;
    Ordered(env, f);
  }

  /** Only one segment's range can hold an entry's id. */
  lemma OneRange(env: Env, f: Found, i: nat, j: nat, id: u64)
    requires Sound(env, f) && i < |f.segments| && j < |f.segments|
    requires id in SegFacts(f.segments[i]).entries && InRangeOf(f.segments[j], id)
    ensures i == j
  {
    hide Sound, LocsGood, SegFacts;
    LocsOf(env, f, j);
    EndsAreEntries(f.segments[j]);
    if i < j {
      LaterIsHigher(env, f, i, j, id, f.segments[j].minId);
    } else if j < i {
      LaterIsHigher(env, f, j, i, f.segments[j].maxId, id);
    }
  }

  lemma LogRowIs(m: Mirror, data: bytes, i: nat)
    requires Located(data, m) && i < |m.ids|
    ensures m.locs[i].0 + m.locs[i].1 <= |data|
    ensures LogRows(m, data)[i] == (m.ids[i], data[m.locs[i].0..m.locs[i].0 + m.locs[i].1])
  {
    hide Parsed;
    assert BlobAt(data, m.locs[i], m.ids[i]);
  }

  /** The log's blob of an id is its entry. */
  lemma LogBlobIs(m: Mirror, data: bytes, id: u64)
    requires Located(data, m)
    ensures LogBlob(m, data, id).Some? <==> id in LogFacts(m, data).entries
    ensures LogBlob(m, data, id).Some? ==> LogBlob(m, data, id).value == LogFacts(m, data).entries[id]
    ensures LogBlob(m, data, id).Some? <==> id in m.ids
  {
    hide MapOf, BlobAt;
    LogRowsAscend(data, m);
    LogEntryIn(m, data, id);
    if LogBlob(m, data, id).Some? {
      var i :| 0 <= i < |m.ids| && m.ids[i] == id && i < |m.locs| && m.locs[i].0 + m.locs[i].1 <= |data|
               && LogBlob(m, data, id) == Some(data[m.locs[i].0..m.locs[i].0 + m.locs[i].1]);
      LogRowIs(m, data, i);
      MapOfMembers(LogRows(m, data));
    }
    if id in m.ids {
      var i :| 0 <= i < |m.ids| && m.ids[i] == id;
      LogRowIs(m, data, i);
    }
  }

  lemma LogEntryIn(m: Mirror, data: bytes, id: u64)
    requires Located(data, m)
    ensures id in LogFacts(m, data).entries <==> id in m.ids
  {
    hide MapOf, BlobAt;
    LogRowsAscend(data, m);
    MapOfMembers(LogRows(m, data));
    assert forall i :: 0 <= i < |m.ids| ==> LogRows(m, data)[i].0 == m.ids[i];
  }

  /** An entry of a history opens, as itself. */
  lemma EntryOpens(env: Env, f: Found, id: u64)
    requires Sound(env, f) && id in Blobs(Parts(f))
    ensures id < NextOf(f)
    ensures var blob := Blobs(Parts(f))[id];
            && |blob| <= MAX_FRAME && Opened(env.keys, blob).Some?
            && var r := Opened(env.keys, blob).value;
               r.id == id && Encodable(r.contents) && r.dedup == env.keys.dedup(Canonical(r.contents))
    ensures id in MapOf(LogRows(f.mirror, f.log)) <==> id in LogFacts(f.mirror, f.log).entries
  {
    hide Sound, Opened, Canonical, Blobs, Placed, Below, MapOf, Encodable, NextOf;
    Ordered(env, f);
    Somewhere(f, id);
    var i :| 0 <= i < |Parts(f)| && id in Parts(f)[i].entries;
    InPart(env, f, i, id);
    assert GoodEntry(env, Parts(f)[i], id);
  }

  lemma SegEntries(s: Segment)
    ensures SegFacts(s).entries == MapOf(SegRows(s)) && SegFacts(s).tombs == Members(s.tombs)
  {
  }

  lemma TombsAscend(env: Env, f: Found, i: nat)
    requires Sound(env, f) && i < |f.segments|
    ensures Ascending(f.segments[i].tombs)
  {
    hide Inv, LogGood, LocsGood, TermIndexed, HashesOf, StampsOf, Mirrors;
    assert SegGood(env, f.segments[i]);
  }

  // ---- The lookups ----

  /** Whether a tombstone of `id` is anywhere. */
  method DeletedIn(env: Env, tombstones: set<u64>, segments: seq<Segment>, id: u64, ghost f: Found) returns (r: bool)
    requires Sound(env, f) && f.segments == segments && f.mirror.tombstones == tombstones
    ensures r <==> id in Dead(Parts(f))
  {
    hide Sound, Dead, Parts, SegFacts;
    DeadWhere(f, id);
    if id in tombstones { return true; }
    for i := 0 to |segments|
      invariant forall k :: 0 <= k < i ==> !IsTombOf(segments[k], id)
    {
      TombsAscend(env, f, i);
      var t := IsTomb(segments[i], id);
      if t { return true; }
    }
    r := false;
  }

  /** The newest segment whose range holds `id`, if the entry is in it. */
  method SegmentWith(env: Env, segments: seq<Segment>, id: u64, ghost f: Found) returns (r: Option<nat>)
    requires Sound(env, f) && f.segments == segments
    ensures r.Some? ==> r.value < |segments| && id in SegFacts(segments[r.value]).entries
    ensures r.None? ==> forall i :: 0 <= i < |segments| ==> id !in SegFacts(segments[i]).entries
  {
    hide Sound, SegFacts, LocsGood;
    for i := |segments| downto 0
      invariant forall k :: i <= k < |segments| ==> !InRangeOf(segments[k], id)
    {
      if InRangeOf(segments[i], id) {
        forall k | 0 <= k < |segments| && id in SegFacts(segments[k]).entries ensures k == i {
          OneRange(env, f, k, i, id);
        }
        LocsOf(env, f, i);
        var b := SegBlob(segments[i], id);
        SegEntries(segments[i]);
        return if b.Some? then Some(i) else None;
      }
    }
    forall k | 0 <= k < |segments| ensures id !in SegFacts(segments[k]).entries {
      LocsOf(env, f, k);
      if id in SegFacts(segments[k]).entries { EntryInRange(segments[k], id); }
    }
    r := None;
  }

  /** The blob of an id from the one part that can hold it. */
  method BlobIn(env: Env, active: Logs.Active, segments: seq<Segment>, id: u64, ghost f: Found)
    returns (r: Option<bytes>)
    requires active.Valid()
    requires Sound(env, f) && f.segments == segments && f.mirror == active.View() && f.log == active.Data()
    ensures r.Some? <==> id in Blobs(Parts(f))
    ensures r.Some? ==> r.value == Blobs(Parts(f))[id]
  {
    hide Sound, SegFacts, LogFacts, Blobs, LocsGood, Mirrors, LogBlob;
    Ordered(env, f);
    LogBlobIs(f.mirror, f.log, id);
    if active.Contains(id) {
      InPart(env, f, |segments|, id);
      r := active.BlobOf(id);
      return;
    }
    var i := SegmentWith(env, segments, id, f);
    if i.None? {
      if id in Blobs(Parts(f)) { Somewhere(f, id); }
      return None;
    }
    LocsOf(env, f, i.value);
    r := SegBlob(segments[i.value], id);
    SegEntries(segments[i.value]);
    InPart(env, f, i.value, id);
  }

  // ---- Events ----

  function PairLe(a: (i64, byte), b: (i64, byte)): bool {
    a.0 < b.0 || (a.0 == b.0 && a.1 <= b.1)
  }

  lemma PairLeTotal()
    ensures Total(PairLe)
  {
  }

  lemma EventsJoin(a: seq<(i64, byte)>, b: seq<(i64, byte)>, x: seq<Event>, y: seq<Event>, id: u64)
    requires AreEventsOf(a, x, id) && AreEventsOf(b, y, id)
    ensures AreEventsOf(a + b, x + y, id)
  {
  }

  method LogEventsOf(events: seq<Event>, id: u64) returns (out: seq<(i64, byte)>)
    ensures AreEventsOf(out, events, id)
  {
    out := [];
    for i := 0 to |events|
      invariant AreEventsOf(out, events[..i], id)
    {
      assert events[..i + 1] == events[..i] + [events[i]];
      if events[i].id == id {
        OneMore(out, events[..i], events[i], id);
        out := out + [(events[i].at, events[i].kind)];
      }
    }
    assert events[..|events|] == events;
  }

  /** The times of one kind among sorted events. */
  method Pick(ev: seq<(i64, byte)>, kind: byte) returns (out: seq<i64>)
    requires Sorted(ev, PairLe)
    ensures Sorted(out, TimeLe)
    ensures forall at :: multiset(out)[at] == multiset(ev)[(at, kind)]
  {
    hide Sorted, Picked;
    out := [];
    NonePicked(kind);
    for i := 0 to |ev|
      invariant Picked(out, ev[..i], kind)
    {
      PickMore(out, ev, i, kind);
      if ev[i].1 == kind { out := out + [ev[i].0]; }
    }
    assert ev[..|ev|] == ev;
    PickedSorted(out, ev, kind);
  }

  /** The times of one kind, as often as they are there, ascending, and none later than all. */
  ghost predicate Picked(out: seq<i64>, ev: seq<(i64, byte)>, kind: byte) {
    && Sorted(out, TimeLe)
    && (forall t :: t in out ==> exists k :: 0 <= k < |ev| && ev[k].0 == t)
    && forall at :: multiset(out)[at] == multiset(ev)[(at, kind)]
  }

  lemma NonePicked(kind: byte)
    ensures Picked([], [], kind)
  {
  }

  lemma PickedSorted(out: seq<i64>, ev: seq<(i64, byte)>, kind: byte)
    requires Picked(out, ev, kind)
    ensures Sorted(out, TimeLe) && forall at :: multiset(out)[at] == multiset(ev)[(at, kind)]
  {
  }

  lemma PickMore(out: seq<i64>, ev: seq<(i64, byte)>, i: nat, kind: byte)
    requires i < |ev| && Sorted(ev, PairLe) && Picked(out, ev[..i], kind)
    ensures Picked(if ev[i].1 == kind then out + [ev[i].0] else out, ev[..i + 1], kind)
  {
    var more := if ev[i].1 == kind then out + [ev[i].0] else out;
    var front, next := ev[..i], ev[..i + 1];
    assert next == front + [ev[i]];
    forall t | t in more ensures exists k :: 0 <= k < |next| && next[k].0 == t {
      if t in out {
        var k :| 0 <= k < |front| && front[k].0 == t;
        assert next[k].0 == t;
      } else {
        assert next[i].0 == t;
      }
    }
    forall j | 0 <= j < |out| ensures TimeLe(out[j], ev[i].0) {
      assert out[j] in out;
      var k :| 0 <= k < |front| && front[k].0 == out[j];
      assert PairLe(ev[k], ev[i]);
    }
  }

  lemma EventsSorted(env: Env, f: Found, i: nat)
    requires Sound(env, f) && i < |f.segments|
    ensures Sorted(f.segments[i].events, EventLe)
    ensures Parts(f)[i].events == f.segments[i].events
  {
    hide Inv, LogGood, LocsGood, TermIndexed, HashesOf, StampsOf, Mirrors, MapOf;
    assert SegGood(env, f.segments[i]);
  }

  lemma LogEventsAre(f: Found)
    ensures Parts(f)[|f.segments|].events == f.mirror.events
  {
  }

  /** When an entry was copied and when pasted, from the events of all parts. */
  method EventsIn(env: Env, segments: seq<Segment>, events: seq<Event>, id: u64, ghost f: Found)
    returns (copies: seq<i64>, pastes: seq<i64>)
    requires Sound(env, f) && f.segments == segments && f.mirror.events == events
    ensures Sorted(copies, TimeLe) && multiset(copies) == Times(Events(Parts(f)), id, COPIED)
    ensures Sorted(pastes, TimeLe) && multiset(pastes) == Times(Events(Parts(f)), id, PASTED)
  {
    hide Sound, Parts, Events, Times, Total, Sorted, Sort, AreEventsOf;
    var ev: seq<(i64, byte)> := [];
    NoEvents(Parts(f), id);
    for i := 0 to |segments|
      invariant AreEventsOf(ev, Events(Parts(f)[..i]), id)
    {
      EventsSorted(env, f, i);
      var more := SegEventsOf(segments[i], id);
      NextEvents(Parts(f), i);
      EventsJoin(ev, more, Events(Parts(f)[..i]), Parts(f)[i].events, id);
      ev := ev + more;
    }
    var more := LogEventsOf(events, id);
    LogEventsAre(f);
    NextEvents(Parts(f), |segments|);
    EventsJoin(ev, more, Events(Parts(f)[..|segments|]), Parts(f)[|segments|].events, id);
    ev := ev + more;
    assert Parts(f)[..|segments| + 1] == Parts(f);
    PairLeTotal();
    SortSorts(ev, PairLe);
    var sorted := Sort(ev, PairLe);
    copies := Pick(sorted, COPIED);
    pastes := Pick(sorted, PASTED);
    PickedAre(copies, ev, Events(Parts(f)), id, COPIED);
    PickedAre(pastes, ev, Events(Parts(f)), id, PASTED);
  }

  lemma NoEvents(parts: seq<Facts>, id: u64)
    ensures AreEventsOf([], Events(parts[..0]), id)
  {
    assert parts[..0] == [];
  }

  lemma NextEvents(parts: seq<Facts>, i: nat)
    requires i < |parts|
    ensures Events(parts[..i + 1]) == Events(parts[..i]) + parts[i].events
  {
    assert parts[..i + 1] == parts[..i] + [parts[i]];
    EventsConcat(parts[..i], [parts[i]]);
    Stores.One(parts[i]);
  }

  lemma PickedAre(out: seq<i64>, ev: seq<(i64, byte)>, events: seq<Event>, id: u64, kind: byte)
    requires AreEventsOf(ev, events, id)
    requires forall at :: multiset(out)[at] == multiset(ev)[(at, kind)]
    ensures multiset(out) == Times(events, id, kind)
  {
    hide Times;
    forall at ensures multiset(out)[at] == Times(events, id, kind)[at] {
      TimesCount(events, id, kind, at);
    }
  }

  // ---- Entries of one hash ----

  lemma HashedRows(env: Env, rows: seq<Row>, h: u64, id: u64)
    requires RowsAscend(rows)
    ensures id in WithHash(env, rows, h) <==> id in MapOf(rows) && RecordAt(env, MapOf(rows)[id]).dedup == h
  {
    hide RecordAt, MapOf, WithHash;
    WithHashMembers(env, rows, h);
    MapOfMembers(rows);
    if id in MapOf(rows) {
      var i :| 0 <= i < |rows| && rows[i].0 == id;
      assert MapOf(rows)[id] == rows[i].1;
    }
  }

  ghost predicate HasHash(env: Env, entries: map<u64, bytes>, h: u64, id: u64) {
    id in entries && RecordAt(env, entries[id]).dedup == h
  }

  lemma SegmentHashes(env: Env, f: Found, i: nat, h: u64)
    requires Sound(env, f) && i < |f.segments|
    ensures Sorted(f.segments[i].dedup, HashedLe)
    ensures forall id :: Hashed(h, id) in f.segments[i].dedup <==> HasHash(env, Parts(f)[i].entries, h, id)
  {
    hide Inv, LogGood, TermIndexed, StampsOf, Mirrors, MapOf, WithHash, RecordAt;
    assert SegGood(env, f.segments[i]);
    SegRowsAscend(f.segments[i]);
    SegEntries(f.segments[i]);
    forall id ensures Hashed(h, id) in f.segments[i].dedup <==> HasHash(env, Parts(f)[i].entries, h, id) {
      HashedRows(env, SegRows(f.segments[i]), h, id);
    }
  }

  lemma LogHashes(env: Env, f: Found, h: u64)
    requires Sound(env, f)
    ensures forall id :: id in Listed(f.mirror.dedup, h) <==> HasHash(env, Parts(f)[|f.segments|].entries, h, id)
  {
    hide Inv, SegGood, Mirrors, MapOf, WithHash, WithTerm, RecordAt;
    LogRowsAscend(f.log, f.mirror);
    forall id ensures id in Listed(f.mirror.dedup, h) <==> HasHash(env, Parts(f)[|f.segments|].entries, h, id) {
      HashedRows(env, LogRows(f.mirror, f.log), h, id);
    }
  }

  /** Every entry whose contents have the hash, wherever it is. */
  method SameHash(env: Env, segments: seq<Segment>, dedup: map<u64, seq<u64>>, h: u64, ghost f: Found)
    returns (same: seq<u64>)
    requires Sound(env, f) && f.segments == segments && f.mirror.dedup == dedup
    ensures forall id :: id in same <==> HasHash(env, Blobs(Parts(f)), h, id)
  {
    hide Sound, Parts, Blobs, HasHash, Sorted;
    same := if h in dedup then dedup[h] else [];
    LogHashes(env, f, h);
    for i := 0 to |segments|
      invariant forall id :: id in same <==>
                  HasHash(env, Parts(f)[|segments|].entries, h, id)
                  || exists k :: 0 <= k < i && HasHash(env, Parts(f)[k].entries, h, id)
    {
      SegmentHashes(env, f, i, h);
      var more := DedupIds(segments[i], h);
      same := same + more;
    }
    forall id ensures id in same <==> HasHash(env, Blobs(Parts(f)), h, id) {
      HashSomewhere(env, f, h, id);
    }
  }

  lemma HashSomewhere(env: Env, f: Found, h: u64, id: u64)
    requires Sound(env, f)
    ensures HasHash(env, Blobs(Parts(f)), h, id) <==>
            exists k :: 0 <= k < |Parts(f)| && HasHash(env, Parts(f)[k].entries, h, id)
  {
    hide Sound, Parts, Blobs, RecordAt;
    if id in Blobs(Parts(f)) {
      Somewhere(f, id);
      var k :| 0 <= k < |Parts(f)| && id in Parts(f)[k].entries;
      InPart(env, f, k, id);
      assert HasHash(env, Blobs(Parts(f)), h, id) <==> HasHash(env, Parts(f)[k].entries, h, id);
      forall j | 0 <= j < |Parts(f)| && HasHash(env, Parts(f)[j].entries, h, id)
        ensures HasHash(env, Blobs(Parts(f)), h, id) {
        InPart(env, f, j, id);
      }
    } else {
      forall j | 0 <= j < |Parts(f)| ensures !HasHash(env, Parts(f)[j].entries, h, id) {
        if id in Parts(f)[j].entries { InPart(env, f, j, id); }
      }
    }
  }

  // ---- Tombstones ----

  /** Every tombstone that is gone is of an entry nothing is left of. */
  ghost predicate TombsServed(f: Found, g: Found) {
    forall id :: id in Dead(Parts(f)) && id !in Dead(Parts(g)) ==> NothingOf(Parts(g), id)
  }

  lemma TombsAreServed(env: Env, f: Found, g: Found)
    requires Sound(env, f) && Sound(env, g) && Follows(AbsIn(env, f), AbsIn(env, g))
    ensures TombsServed(f, g)
  {
    hide Blobs, Dead, Events, ItemOf, Sound, NothingOf, Follows, Inv, NextOf;
    Ordered(env, f);
    Ordered(env, g);
    forall id | id in Dead(Parts(f)) && id !in Dead(Parts(g)) ensures NothingOf(Parts(g), id) {
      TombstoneServed(env, Store(Parts(f), NextOf(f)), Store(Parts(g), NextOf(g)), id);
    }
  }
}
