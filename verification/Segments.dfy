/** Sealed segments (clip/src/segment.rs): what a segment must be, its lookups, and the
    writing of one out of others and the log. */
module Segments {
  import opened Wrappers
  import opened Codec
  import opened Order
  import opened PostingLists
  import opened IdSets
  import opened Disk
  import opened Logs
  import opened Entries
  import opened Stores
  import opened Rows

  // ---- What a segment and a log say ----

  function SliceOf(b: bytes, off: nat, len: nat): bytes {
    if off + len <= |b| then b[off..off + len] else []
  }

  function SegRow(s: Segment, i: nat): Row
    requires i < |s.locs|
  {
    (s.locs[i].id, SliceOf(s.records, s.locs[i].off, s.locs[i].len))
  }

  function SegRows(s: Segment): seq<Row> {
    seq(|s.locs|, i requires 0 <= i < |s.locs| => SegRow(s, i))
  }

  ghost function SegFacts(s: Segment): Facts {
    Facts(MapOf(SegRows(s)), s.events, Members(s.tombs))
  }

  function LogRow(m: Mirror, data: bytes, i: nat): Row
    requires i < |m.ids|
  {
    (m.ids[i], if i < |m.locs| then SliceOf(data, m.locs[i].0, m.locs[i].1) else [])
  }

  function LogRows(m: Mirror, data: bytes): seq<Row> {
    seq(|m.ids|, i requires 0 <= i < |m.ids| => LogRow(m, data, i))
  }

  ghost function LogFacts(m: Mirror, data: bytes): Facts {
    Facts(MapOf(LogRows(m, data)), m.events, m.tombstones)
  }

  /** A time table has exactly the events of its kind. */
  ghost predicate StampsOf(stamps: seq<Stamp>, events: seq<Event>, kind: byte) {
    && Sorted(stamps, StampLe)
    && forall at, id :: multiset(stamps)[Stamp(at, id)] == multiset(events)[Event(id, at, kind)]
  }

  ghost predicate HashesOf(env: Env, table: seq<Hashed>, rows: seq<Row>) {
    && Sorted(table, HashedLe)
    && forall h, id :: Hashed(h, id) in table <==> id in WithHash(env, rows, h)
  }

  ghost predicate TermIndexed(env: Env, fst: map<u64, nat>, section: bytes, rows: seq<Row>, t: u64) {
    && (t in fst <==> WithTerm(env, rows, t) != [])
    && (t in fst ==> fst[t] <= |section| && EncodedAt(section, fst[t], WithTerm(env, rows, t)))
  }

  ghost predicate LocsGood(s: Segment) {
    && LocsAscend(s.locs)
    && s.entries == |s.locs|
    && (s.entries > 0 ==> s.minId == s.locs[0].id && s.maxId == s.locs[s.entries - 1].id)
    && forall i :: 0 <= i < |s.locs| ==> s.locs[i].off + s.locs[i].len <= |s.records|
  }

  /** The orders of the tables' rows: events by id, then time, then kind; times by time, then id;
      hashes by hash, then id. */
  lemma TablesOrdered(s: Segment, i: nat, j: nat)
    requires i < j
    ensures Sorted(s.events, EventLe) && j < |s.events| ==>
              var (a, b) := (s.events[i], s.events[j]);
              a.id < b.id || (a.id == b.id && (a.at < b.at || (a.at == b.at && a.kind <= b.kind)))
    ensures Sorted(s.copied, StampLe) && j < |s.copied| ==>
              var (a, b) := (s.copied[i], s.copied[j]); a.at < b.at || (a.at == b.at && a.id <= b.id)
    ensures Sorted(s.pasted, StampLe) && j < |s.pasted| ==>
              var (a, b) := (s.pasted[i], s.pasted[j]); a.at < b.at || (a.at == b.at && a.id <= b.id)
    ensures Sorted(s.dedup, HashedLe) && j < |s.dedup| ==>
              var (a, b) := (s.dedup[i], s.dedup[j]); a.hash < b.hash || (a.hash == b.hash && a.id <= b.id)
  {
  }

  /** The size is the file's: the header and the nine sections. */
  ghost predicate SizeRight(env: Env, s: Segment) {
    s.size == 180 + 24 * |s.locs| + |s.records| + |s.postings| + env.fstBytes(s.fst) + 16 * |s.copied| + 16 * |s.pasted|
              + 17 * |s.events| + 16 * |s.dedup| + 8 * |s.tombs|
  }

  /** A segment's tables are sorted by their keys and agree with its entries and events, and its
      size is right. */
  ghost predicate SegGood(env: Env, s: Segment) {
    && LocsGood(s)
    && Sorted(s.events, EventLe)
    && StampsOf(s.copied, s.events, COPIED)
    && StampsOf(s.pasted, s.events, PASTED)
    && HashesOf(env, s.dedup, SegRows(s))
    && Ascending(s.tombs) && SizeRight(env, s)
    && forall t :: TermIndexed(env, s.fst, s.postings, SegRows(s), t)
  }

  /** The same of the log's mirror. */
  ghost predicate LogGood(env: Env, m: Mirror, data: bytes) {
    && Located(data, m)
    && (forall t :: Listed(m.postings, t) == WithTerm(env, LogRows(m, data), t))
    && (forall t :: t in m.postings ==> m.postings[t] != [])
    && (forall h :: Listed(m.dedup, h) == WithHash(env, LogRows(m, data), h))
  }

  lemma SegRowsAscend(s: Segment)
    requires LocsGood(s)
    ensures RowsAscend(SegRows(s))
  {
  }

  lemma LogRowsAscend(data: bytes, m: Mirror)
    requires Located(data, m)
    ensures RowsAscend(LogRows(m, data))
  {
  }

  // ---- Lookups ----

  /** What the segment stores of an id. */
  method SegBlob(s: Segment, id: u64) returns (r: Option<bytes>)
    requires LocsGood(s)
    ensures r.Some? <==> id in MapOf(SegRows(s))
    ensures r.Some? ==> r.value == MapOf(SegRows(s))[id]
  {
    hide MapOf, SegRows;
    if s.entries == 0 || id < s.minId || id > s.maxId {
      NoLocNoRow(s, id);
      return None;
    }
    var i := PartitionPoint(s.locs, (l: Loc) => l.id < id);
    if i == |s.locs| || s.locs[i].id != id {
      NoLocNoRow(s, id);
      return None;
    }
    LocIsRow(s, i);
    r := Some(s.records[s.locs[i].off..s.locs[i].off + s.locs[i].len]);
  }

  lemma LocIsRow(s: Segment, i: nat)
    requires LocsGood(s) && i < |s.locs|
    ensures s.locs[i].id in MapOf(SegRows(s))
    ensures MapOf(SegRows(s))[s.locs[i].id] == s.records[s.locs[i].off..s.locs[i].off + s.locs[i].len]
  {
    hide MapOf;
    SegRowsAscend(s);
    MapOfMembers(SegRows(s));
    assert SegRows(s)[i] == SegRow(s, i);
  }

  lemma NoLocNoRow(s: Segment, id: u64)
    requires LocsGood(s) && forall i :: 0 <= i < |s.locs| ==> s.locs[i].id != id
    ensures id !in MapOf(SegRows(s))
  {
    hide MapOf;
    SegRowsAscend(s);
    MapOfMembers(SegRows(s));
    assert forall i :: 0 <= i < |s.locs| ==> SegRows(s)[i].0 == s.locs[i].id;
  }

  method IsTomb(s: Segment, id: u64) returns (r: bool)
    requires Ascending(s.tombs)
    ensures r <==> id in SegFacts(s).tombs
  {
    var i := PartitionPoint(s.tombs, (x: u64) => x < id);
    r := i < |s.tombs| && s.tombs[i] == id;
  }

  /** The times and kinds of entry `id`'s events among `events`. */
  ghost predicate AreEventsOf(out: seq<(i64, byte)>, events: seq<Event>, id: u64) {
    forall at, kind :: multiset(out)[(at, kind)] == multiset(events)[Event(id, at, kind)]
  }

  /** What the segment's table has of one id: when, and whether a copy or a paste. */
  method SegEventsOf(s: Segment, id: u64) returns (out: seq<(i64, byte)>)
    requires Sorted(s.events, EventLe)
    ensures AreEventsOf(out, s.events, id)
  {
    hide AreEventsOf;
    var start := PartitionPoint(s.events, (e: Event) => e.id < id);
    NoneOf(s.events[..start], id);
    out := [];
    var i := start;
    while i < |s.events| && s.events[i].id == id
      invariant start <= i <= |s.events|
      invariant AreEventsOf(out, s.events[..i], id)
    {
      assert s.events[..i + 1] == s.events[..i] + [s.events[i]];
      OneMore(out, s.events[..i], s.events[i], id);
      out := out + [(s.events[i].at, s.events[i].kind)];
      i := i + 1;
    }
    NoneLater(s.events, i, id);
    NoneAfter(out, s.events, i, id);
  }

  lemma NoneLater(events: seq<Event>, i: nat, id: u64)
    requires Sorted(events, EventLe) && i <= |events|
    requires i < |events| ==> events[i].id > id
    ensures forall k :: i <= k < |events| ==> events[k].id != id
  {
    forall k | i <= k < |events| ensures events[k].id != id {
      assert EventLe(events[i], events[k]) || i == k;
    }
  }

  lemma NoneOf(events: seq<Event>, id: u64)
    requires forall e :: e in events ==> e.id != id
    ensures AreEventsOf([], events, id)
  {
  }

  lemma OneMore(out: seq<(i64, byte)>, events: seq<Event>, e: Event, id: u64)
    requires AreEventsOf(out, events, id) && e.id == id
    ensures AreEventsOf(out + [(e.at, e.kind)], events + [e], id)
  {
  }

  lemma NoneAfter(out: seq<(i64, byte)>, events: seq<Event>, n: nat, id: u64)
    requires n <= |events| && AreEventsOf(out, events[..n], id)
    requires forall k :: n <= k < |events| ==> events[k].id != id
    ensures AreEventsOf(out, events, id)
  {
    assert events == events[..n] + events[n..];
    NoneOf(events[n..], id);
  }

  /** The ids under `hash`. */
  method DedupIds(s: Segment, hash: u64) returns (out: seq<u64>)
    requires Sorted(s.dedup, HashedLe)
    ensures forall id :: id in out <==> Hashed(hash, id) in s.dedup
  {
    var i := PartitionPoint(s.dedup, (r: Hashed) => r.hash < hash);
    out := [];
    while i < |s.dedup| && s.dedup[i].hash == hash
      invariant 0 <= i <= |s.dedup|
      invariant forall k :: 0 <= k < i ==> s.dedup[k].hash <= hash
      invariant forall id :: id in out <==> Hashed(hash, id) in s.dedup[..i]
    {
      assert s.dedup[i] == Hashed(hash, s.dedup[i].id);
      out := out + [s.dedup[i].id];
      i := i + 1;
    }
    forall k | i <= k < |s.dedup| ensures s.dedup[k].hash != hash {
      assert HashedLe(s.dedup[i], s.dedup[k]) || i == k;
    }
    assert s.dedup == s.dedup[..i] + s.dedup[i..];
  }

  ghost predicate InRange(table: seq<Stamp>, from: i64, upto: i64, id: u64) {
    exists k :: 0 <= k < |table| && table[k].id == id && from <= table[k].at < upto
  }

  /** The ids of a time table's rows in `[from, upto)`. */
  method TimeRange(table: seq<Stamp>, from: i64, upto: i64) returns (out: seq<u64>)
    requires Sorted(table, StampLe)
    ensures forall id :: id in out <==> InRange(table, from, upto, id)
  {
    var i := PartitionPoint(table, (r: Stamp) => r.at < from);
    out := [];
    ghost var start := i;
    while i < |table| && table[i].at < upto
      invariant start <= i <= |table|
      invariant forall k :: 0 <= k < i ==> (k < start <==> table[k].at < from)
      invariant forall id :: id in out <==> exists k :: start <= k < i && table[k].id == id
      invariant forall k :: start <= k < i ==> table[k].at < upto
    {
      ghost var was := out;
      out := out + [table[i].id];
      forall id ensures id in out <==> exists k :: start <= k < i + 1 && table[k].id == id {
        if id == table[i].id { assert out[|was|] == id; }
        if id in was { assert exists k :: start <= k < i && table[k].id == id; }
      }
      i := i + 1;
    }
    forall k | i <= k < |table| ensures upto <= table[k].at {
      assert StampLe(table[i], table[k]) || i == k;
    }
  }

  ghost function CountIn(table: seq<Stamp>, from: i64, upto: i64): nat {
    if table == [] then 0
    else CountIn(table[..|table| - 1], from, upto) + if from <= table[|table| - 1].at < upto then 1 else 0
  }

  lemma {:induction false} CountIsWidth(table: seq<Stamp>, from: i64, upto: i64, lo: nat, hi: nat)
    requires lo <= hi <= |table|
    requires forall k :: 0 <= k < |table| ==> (lo <= k < hi <==> from <= table[k].at < upto)
    ensures CountIn(table, from, upto) == hi - lo
    decreases |table|
  {
    if table != [] {
      var n := |table| - 1;
      CountIsWidth(table[..n], from, upto, if lo <= n then lo else n, if hi <= n then hi else n);
    }
  }

  /** How many of its rows are in `[from, upto)`. */
  method TimeCount(table: seq<Stamp>, from: i64, upto: i64) returns (n: nat)
    requires Sorted(table, StampLe)
    ensures n == CountIn(table, from, upto)
  {
    var lo := PartitionPoint(table, (r: Stamp) => r.at < from);
    var hi := PartitionPoint(table, (r: Stamp) => r.at < upto);
    n := if hi >= lo then hi - lo else 0;
    CountIsWidth(table, from, upto, lo, if hi >= lo then hi else lo);
  }

  /** The posting list of `term`. */
  method PostingsOf(env: Env, s: Segment, term: u64) returns (p: Postings?)
    requires SegGood(env, s)
    ensures p == null <==> WithTerm(env, SegRows(s), term) == []
    ensures p != null ==> fresh(p) && p.Valid() && p.ids == WithTerm(env, SegRows(s), term)
  {
    assert TermIndexed(env, s.fst, s.postings, SegRows(s), term);
    if term !in s.fst { return null; }
    p := PostingLists.Parse(s.postings, s.fst[term], WithTerm(env, SegRows(s), term));
  }
}
