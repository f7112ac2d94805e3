/** The writing of a segment (clip/src/segment.rs, write): parts, oldest first, streamed
    into one segment with what is dead left out. */
module SegmentWriter {
  import opened Wrappers
  import opened Codec
  import opened Order
  import opened PostingLists
  import opened IdSets
  import opened Disk
  import opened Logs
  import opened Entries
  import opened Stores
  import opened Rows
  import opened Segments

  /** An input of a rewriting. */
  datatype Part = Sealed(s: Segment) | Active(m: Mirror, data: bytes)

  ghost predicate PartGood(env: Env, p: Part) {
    match p
    case Sealed(s) => SegGood(env, s)
    case Active(m, data) => LogGood(env, m, data)
  }

  function PartRows(p: Part): seq<Row> {
    match p
    case Sealed(s) => SegRows(s)
    case Active(m, data) => LogRows(m, data)
  }

  ghost function PartFacts(p: Part): Facts {
    match p
    case Sealed(s) => SegFacts(s)
    case Active(m, data) => LogFacts(m, data)
  }

  ghost predicate PartsGood(env: Env, parts: seq<Part>) {
    && (forall i :: 0 <= i < |parts| ==> PartGood(env, parts[i]))
    && RowsAscend(AllRows(parts))
  }

  /** The entries of all the parts, in order. */
  ghost function AllRows(parts: seq<Part>): seq<Row> {
    if parts == [] then [] else AllRows(parts[..|parts| - 1]) + PartRows(parts[|parts| - 1])
  }

  ghost function AllFacts(parts: seq<Part>): seq<Facts> {
    seq(|parts|, i requires 0 <= i < |parts| => PartFacts(parts[i]))
  }

  // ---- Locations and blobs ----

  ghost function Joined(rows: seq<Row>): bytes {
    if rows == [] then [] else Joined(rows[..|rows| - 1]) + rows[|rows| - 1].1
  }

  ghost function Locations(rows: seq<Row>): seq<Loc> {
    if rows == [] then []
    else
      var init, r := rows[..|rows| - 1], rows[|rows| - 1];
      Locations(init) + [Loc(r.0, |Joined(init)|, |r.1|)]
  }

  lemma {:induction false} RecordsGrow(rows: seq<Row>, more: seq<Row>)
    ensures Joined(rows) <= Joined(rows + more)
    decreases |more|
  {
    if more == [] {
      assert rows + more == rows;
    } else {
      Snoc(rows, more);
      RecordsGrow(rows, more[..|more| - 1]);
    }
  }

  /** Rows laid out one after another are found where their locations say. */
  lemma {:induction false} LaidOut(rows: seq<Row>, i: nat)
    requires i < |rows|
    ensures |Locations(rows)| == |rows|
    ensures Locations(rows)[i].id == rows[i].0
    ensures var l := Locations(rows)[i];
            l.off + l.len <= |Joined(rows)| && Joined(rows)[l.off..l.off + l.len] == rows[i].1
    decreases |rows|
  {
    var init, r := rows[..|rows| - 1], rows[|rows| - 1];
    LocationsLength(rows);
    LocationsLength(init);
    if i < |init| {
      LaidOut(init, i);
      var l := Locations(init)[i];
      assert Joined(rows)[..|Joined(init)|] == Joined(init);
      assert Joined(rows)[l.off..l.off + l.len] == Joined(init)[l.off..l.off + l.len];
    }
  }

  lemma {:induction false} LocationsLength(rows: seq<Row>)
    ensures |Locations(rows)| == |rows|
    decreases |rows|
  {
    if rows != [] { LocationsLength(rows[..|rows| - 1]); }
  }

  /** One row more, as the passes see it. */
  lemma NextRow(before: seq<Row>, rows: seq<Row>, i: nat, dead: set<u64>)
    requires i < |rows|
    ensures var was, now := LiveRows(before + rows[..i], dead), LiveRows(before + rows[..i + 1], dead);
            if rows[i].0 in dead then now == was
            else
              && Joined(now) == Joined(was) + rows[i].1
              && Locations(now) == Locations(was) + [Loc(rows[i].0, |Joined(was)|, |rows[i].1|)]
  {
    var all := before + rows[..i + 1];
    assert all[..|all| - 1] == before + rows[..i] && all[|all| - 1] == rows[i];
    var was := LiveRows(before + rows[..i], dead);
    assert (was + [rows[i]])[..|was|] == was;
  }

  lemma NextPart(parts: seq<Part>, pi: nat)
    requires pi < |parts|
    ensures AllRows(parts[..pi + 1]) == AllRows(parts[..pi]) + PartRows(parts[pi])
  {
    assert parts[..pi + 1][..pi] == parts[..pi];
  }

  method AddLocations(rows: seq<Row>, live: u64 -> bool, ghost dead: set<u64>, ghost before: seq<Row>,
                      locs: seq<Loc>, rel: nat)
    returns (locs': seq<Loc>, rel': nat)
    requires forall id :: live(id) <==> id !in dead
    requires locs == Locations(LiveRows(before, dead)) && rel == |Joined(LiveRows(before, dead))|
    ensures locs' == Locations(LiveRows(before + rows, dead))
    ensures rel' == |Joined(LiveRows(before + rows, dead))|
  {
    hide LiveRows, Locations, Joined;
    locs', rel' := locs, rel;
    assert before + rows[..0] == before;
    for i := 0 to |rows|
      invariant locs' == Locations(LiveRows(before + rows[..i], dead))
      invariant rel' == |Joined(LiveRows(before + rows[..i], dead))|
    {
      NextRow(before, rows, i, dead);
      if live(rows[i].0) {
        locs' := locs' + [Loc(rows[i].0, rel', |rows[i].1|)];
        rel' := rel' + |rows[i].1|;
      }
    }
    assert rows[..|rows|] == rows;
  }

  method AddBlobs(rows: seq<Row>, live: u64 -> bool, ghost dead: set<u64>, ghost before: seq<Row>, records: bytes)
    returns (records': bytes)
    requires forall id :: live(id) <==> id !in dead
    requires records == Joined(LiveRows(before, dead))
    ensures records' == Joined(LiveRows(before + rows, dead))
  {
    hide LiveRows, Joined, Locations;
    records' := records;
    assert before + rows[..0] == before;
    for i := 0 to |rows|
      invariant records' == Joined(LiveRows(before + rows[..i], dead))
    {
      NextRow(before, rows, i, dead);
      if live(rows[i].0) { records' := records' + rows[i].1; }
    }
    assert rows[..|rows|] == rows;
  }

  /** Every live entry twice: for its location, and again for its blob. */
  method WriteEntries(parts: seq<Part>, live: u64 -> bool, ghost dead: set<u64>)
    returns (locs: seq<Loc>, records: bytes)
    requires forall id :: live(id) <==> id !in dead
    ensures locs == Locations(LiveRows(AllRows(parts), dead))
    ensures records == Joined(LiveRows(AllRows(parts), dead))
  {
    locs := [];
    var rel: nat := 0;
    for pi := 0 to |parts|
      invariant locs == Locations(LiveRows(AllRows(parts[..pi]), dead))
      invariant rel == |Joined(LiveRows(AllRows(parts[..pi]), dead))|
    {
      hide LiveRows, Joined, Locations, AllRows;
      NextPart(parts, pi);
      locs, rel := AddLocations(PartRows(parts[pi]), live, dead, AllRows(parts[..pi]), locs, rel);
    }
    records := [];
    for pi := 0 to |parts|
      invariant records == Joined(LiveRows(AllRows(parts[..pi]), dead))
    {
      hide LiveRows, Joined, Locations, AllRows;
      NextPart(parts, pi);
      records := AddBlobs(PartRows(parts[pi]), live, dead, AllRows(parts[..pi]), records);
    }
    assert parts[..|parts|] == parts;
  }

  // ---- Time tables, events, dedup, tombstones ----

  lemma StampLeTotal()
    ensures Total(StampLe)
  {
  }

  lemma EventLeTotal()
    ensures Total(EventLe)
  {
  }

  lemma HashedLeTotal()
    ensures Total(HashedLe)
  {
  }

  /** A part's times of one kind, sorted. */
  method PartTimes(env: Env, p: Part, kind: byte) returns (out: seq<Stamp>)
    requires PartGood(env, p) && (kind == COPIED || kind == PASTED)
    ensures StampsOf(out, PartFacts(p).events, kind)
  {
    match p
    case Sealed(s) => out := if kind == COPIED then s.copied else s.pasted;
    case Active(m, _) =>
      out := [];
      for i := 0 to |m.events|
        invariant forall at, id :: multiset(out)[Stamp(at, id)] == multiset(m.events[..i])[Event(id, at, kind)]
      {
        assert m.events[..i + 1] == m.events[..i] + [m.events[i]];
        if m.events[i].kind == kind { out := out + [Stamp(m.events[i].at, m.events[i].id)]; }
      }
      assert m.events[..|m.events|] == m.events;
      StampLeTotal();
      SortSorts(out, StampLe);
      out := Sort(out, StampLe);
  }

  method PartEvents(env: Env, p: Part) returns (out: seq<Event>)
    requires PartGood(env, p)
    ensures Sorted(out, EventLe) && multiset(out) == multiset(PartFacts(p).events)
  {
    match p
    case Sealed(s) => out := s.events;
    case Active(m, _) =>
      EventLeTotal();
      SortSorts(m.events, EventLe);
      out := Sort(m.events, EventLe);
  }

  /** A set's members in some order. */
  method Enumerate(s: set<u64>) returns (out: seq<u64>)
    ensures forall x :: x in out <==> x in s
    ensures forall i, j :: 0 <= i < j < |out| ==> out[i] != out[j]
  {
    out := [];
    var left := s;
    while left != {}
      invariant left <= s
      invariant forall x :: x in out <==> x in s && x !in left
      invariant forall i, j :: 0 <= i < j < |out| ==> out[i] != out[j]
      decreases |left|
    {
      var x :| x in left;
      left := left - {x};
      out := out + [x];
    }
  }

  method PartDedup(env: Env, p: Part) returns (out: seq<Hashed>)
    requires PartGood(env, p)
    ensures HashesOf(env, out, PartRows(p))
  {
    match p
    case Sealed(s) => out := s.dedup;
    case Active(m, data) =>
      var keys := Enumerate(m.dedup.Keys);
      out := [];
      for k := 0 to |keys|
        invariant forall h, id :: Hashed(h, id) in out <==> h in keys[..k] && id in Listed(m.dedup, h)
      {
        ghost var was := out;
        var ids := m.dedup[keys[k]];
        for i := 0 to |ids|
          invariant forall r :: r in out <==> r in was || (r.hash == keys[k] && r.id in ids[..i])
        {
          out := out + [Hashed(keys[k], ids[i])];
        }
        assert ids[..|ids|] == ids && Listed(m.dedup, keys[k]) == ids;
      }
      assert keys[..|keys|] == keys;
      HashedLeTotal();
      SortSorts(out, HashedLe);
      var sorted := Sort(out, HashedLe);
      forall h, id ensures Hashed(h, id) in sorted <==> id in WithHash(env, PartRows(p), h) {
        assert Hashed(h, id) in sorted <==> Hashed(h, id) in multiset(sorted);
        assert Hashed(h, id) in out <==> Hashed(h, id) in multiset(out);
        assert Listed(m.dedup, h) == WithHash(env, PartRows(p), h);
      }
      out := sorted;
  }

  method PartTombs(env: Env, p: Part) returns (out: seq<u64>)
    requires PartGood(env, p)
    ensures Sorted(out, IdLe) && Members(out) == PartFacts(p).tombs
  {
    match p
    case Sealed(s) => out := s.tombs;
    case Active(m, _) =>
      var ids := Enumerate(m.tombstones);
      IdLeTotal();
      SortSorts(ids, IdLe);
      out := Sort(ids, IdLe);
      forall x ensures x in out <==> x in m.tombstones {
        assert x in out <==> x in multiset(out);
        assert x in ids <==> x in multiset(ids);
      }
  }

  // ---- The parts' tables merged ----

  lemma {:induction false} SumStamps(its: seq<seq<Stamp>>, fs: seq<Facts>, kind: byte)
    requires |its| == |fs| && forall i :: 0 <= i < |its| ==> StampsOf(its[i], fs[i].events, kind)
    ensures forall at, id :: Sum(its)[Stamp(at, id)] == multiset(Events(fs))[Event(id, at, kind)]
  {
    if its != [] {
      SumStamps(its[1..], fs[1..], kind);
      forall at, id ensures Sum(its)[Stamp(at, id)] == multiset(Events(fs))[Event(id, at, kind)] {
        assert StampsOf(its[0], fs[0].events, kind);
      }
    }
  }

  lemma {:induction false} SumEvents(its: seq<seq<Event>>, fs: seq<Facts>)
    requires |its| == |fs| && forall i :: 0 <= i < |its| ==> multiset(its[i]) == multiset(fs[i].events)
    ensures Sum(its) == multiset(Events(fs))
  {
    if its != [] { SumEvents(its[1..], fs[1..]); }
  }

  method GatherTimes(env: Env, parts: seq<Part>, kind: byte) returns (its: seq<seq<Stamp>>)
    requires PartsGood(env, parts) && (kind == COPIED || kind == PASTED)
    ensures |its| == |parts| && forall k :: 0 <= k < |its| ==> Sorted(its[k], StampLe)
    ensures forall at, id :: Sum(its)[Stamp(at, id)] == multiset(Events(AllFacts(parts)))[Event(id, at, kind)]
  {
    hide PartGood, PartFacts, StampsOf, Sum, Events;
    its := [];
    for i := 0 to |parts|
      invariant |its| == i && forall k :: 0 <= k < i ==> StampsOf(its[k], PartFacts(parts[k]).events, kind)
    {
      var t := PartTimes(env, parts[i], kind);
      its := its + [t];
    }
    SumStamps(its, AllFacts(parts), kind);
    forall k | 0 <= k < |its| ensures Sorted(its[k], StampLe) {
      StampsSorted(its[k], PartFacts(parts[k]).events, kind);
    }
  }

  lemma StampsSorted(stamps: seq<Stamp>, events: seq<Event>, kind: byte)
    requires StampsOf(stamps, events, kind)
    ensures Sorted(stamps, StampLe)
  {
  }

  method MergeTimes(env: Env, parts: seq<Part>, kind: byte, live: u64 -> bool, ghost dead: set<u64>)
    returns (out: seq<Stamp>)
    requires PartsGood(env, parts) && (kind == COPIED || kind == PASTED)
    requires forall id :: live(id) <==> id !in dead
    ensures Sorted(out, StampLe)
    ensures forall at, id :: multiset(out)[Stamp(at, id)] ==
              if id in dead then 0 else multiset(Events(AllFacts(parts)))[Event(id, at, kind)]
  {
    hide PartsGood, Sorted, Sum, Events;
    var its := GatherTimes(env, parts, kind);
    StampLeTotal();
    var merged := KMerge(its, StampLe);
    out := Filter(merged, (s: Stamp) => live(s.id), StampLe);
  }

  method MergeEvents(env: Env, parts: seq<Part>, live: u64 -> bool, ghost dead: set<u64>)
    returns (out: seq<Event>)
    requires PartsGood(env, parts)
    requires forall id :: live(id) <==> id !in dead
    ensures Sorted(out, EventLe)
    ensures forall e :: multiset(out)[e] == if e.id in dead then 0 else multiset(Events(AllFacts(parts)))[e]
  {
    hide PartGood, PartFacts;
    var its: seq<seq<Event>> := [];
    for i := 0 to |parts|
      invariant |its| == i
      invariant forall k :: 0 <= k < i ==>
                Sorted(its[k], EventLe) && multiset(its[k]) == multiset(PartFacts(parts[k]).events)
    {
      var t := PartEvents(env, parts[i]);
      its := its + [t];
    }
    EventLeTotal();
    SumEvents(its, AllFacts(parts));
    var merged := KMerge(its, EventLe);
    out := Filter(merged, (e: Event) => live(e.id), EventLe);
  }

  /** Some part has the hash `h` for entry `id`. */
  ghost predicate HashedSomewhere(env: Env, parts: seq<Part>, h: u64, id: u64)
  {
    exists i :: 0 <= i < |parts| && id in WithHash(env, PartRows(parts[i]), h)
  }

  method MergeDedup(env: Env, parts: seq<Part>, live: u64 -> bool, ghost dead: set<u64>)
    returns (out: seq<Hashed>)
    requires PartsGood(env, parts)
    requires forall id :: live(id) <==> id !in dead
    ensures HashesOf(env, out, LiveRows(AllRows(parts), dead))
  {
    hide PartGood, WithHash, AllRows, LiveRows, PartRows;
    var its: seq<seq<Hashed>> := [];
    for i := 0 to |parts|
      invariant |its| == i && forall k :: 0 <= k < i ==> HashesOf(env, its[k], PartRows(parts[k]))
    {
      var t := PartDedup(env, parts[i]);
      its := its + [t];
    }
    HashedLeTotal();
    var merged := KMerge(its, HashedLe);
    out := Filter(merged, (r: Hashed) => live(r.id), HashedLe);
    forall h, id ensures Hashed(h, id) in out <==> id in WithHash(env, LiveRows(AllRows(parts), dead), h) {
      SumMember(its, Hashed(h, id));
      HashOfLive(env, parts, dead, h, id);
      assert Hashed(h, id) in out <==> Hashed(h, id) in multiset(out);
    }
  }

  lemma HashOfLive(env: Env, parts: seq<Part>, dead: set<u64>, h: u64, id: u64)
    requires PartsGood(env, parts)
    ensures id in WithHash(env, LiveRows(AllRows(parts), dead), h) <==>
            id !in dead && HashedSomewhere(env, parts, h, id)
  {
    hide PartGood, WithHash, AllRows, LiveRows, PartRows, RecordAt;
    var all := AllRows(parts);
    LiveRowsMembers(all, dead);
    var l := LiveRows(all, dead);
    WithHashMembers(env, l, h);
    if id in WithHash(env, l, h) {
      var k :| 0 <= k < |l| && l[k].0 == id && RecordAt(env, l[k].1).dedup == h;
      assert l[k] in all;
      var i := RowFrom(env, parts, l[k]);
      RowsOfPartAscend(env, parts[i]);
      WithHashMembers(env, PartRows(parts[i]), h);
    }
    if id !in dead && HashedSomewhere(env, parts, h, id) {
      var i :| 0 <= i < |parts| && id in WithHash(env, PartRows(parts[i]), h);
      RowsOfPartAscend(env, parts[i]);
      WithHashMembers(env, PartRows(parts[i]), h);
      var rows := PartRows(parts[i]);
      var k :| 0 <= k < |rows| && rows[k].0 == id && RecordAt(env, rows[k].1).dedup == h;
      RowInAll(env, parts, i, rows[k]);
      assert rows[k] in l;
    }
  }

  lemma RowsOfPartAscend(env: Env, p: Part)
    requires PartGood(env, p)
    ensures RowsAscend(PartRows(p))
  {
  }

  lemma {:induction false} RowFrom(env: Env, parts: seq<Part>, r: Row) returns (i: nat)
    requires (forall i :: 0 <= i < |parts| ==> PartGood(env, parts[i])) && r in AllRows(parts)
    ensures i < |parts| && r in PartRows(parts[i])
    decreases |parts|
  {
    hide PartGood;
    assert PartGood(env, parts[|parts| - 1]);
    if r in PartRows(parts[|parts| - 1]) {
      i := |parts| - 1;
    } else {
      i := RowFrom(env, parts[..|parts| - 1], r);
    }
  }

  lemma {:induction false} RowInAll(env: Env, parts: seq<Part>, i: nat, r: Row)
    requires (forall i :: 0 <= i < |parts| ==> PartGood(env, parts[i]))
    requires i < |parts| && r in PartRows(parts[i])
    ensures r in AllRows(parts)
    decreases |parts|
  {
    hide PartGood;
    assert PartGood(env, parts[|parts| - 1]);
    if i < |parts| - 1 { RowInAll(env, parts[..|parts| - 1], i, r); }
  }

  method MergeTombs(env: Env, parts: seq<Part>, keep: u64 -> bool, ghost outside: set<u64>) returns (out: seq<u64>)
    requires PartsGood(env, parts)
    requires forall id :: keep(id) <==> id in outside
    ensures Ascending(out)
    ensures Members(out) == Dead(AllFacts(parts)) * outside
  {
    hide PartGood, PartFacts;
    var its: seq<seq<u64>> := [];
    for i := 0 to |parts|
      invariant |its| == i
      invariant forall k :: 0 <= k < i ==> Sorted(its[k], IdLe) && Members(its[k]) == PartFacts(parts[k]).tombs
    {
      var t := PartTombs(env, parts[i]);
      its := its + [t];
    }
    IdLeTotal();
    var merged := KMerge(its, IdLe);
    out := KeptOnce(merged, keep);
    forall id ensures id in merged <==> id in Dead(AllFacts(parts)) { TombsMerged(parts, its, merged, id); }
  }

  lemma TombsMerged(parts: seq<Part>, its: seq<seq<u64>>, merged: seq<u64>, id: u64)
    requires |its| == |parts| && multiset(merged) == Sum(its)
    requires forall k :: 0 <= k < |parts| ==> Members(its[k]) == PartFacts(parts[k]).tombs
    ensures id in merged <==> id in Dead(AllFacts(parts))
  {
    hide PartFacts, Sum, Dead;
    SumsMembers(AllFacts(parts));
    SumMember(its, id);
    assert id in merged <==> id in multiset(merged);
    assert forall i :: 0 <= i < |its| ==> (id in its[i] <==> id in Members(its[i]));
    assert forall i :: 0 <= i < |parts| ==> AllFacts(parts)[i] == PartFacts(parts[i]);
  }

  lemma AllBelow(merged: seq<u64>, i: nat)
    requires Sorted(merged, IdLe) && i < |merged| && (i > 0 ==> merged[i - 1] != merged[i])
    ensures forall id :: id in merged[..i] ==> id < merged[i]
  {
    forall id | id in merged[..i]
      ensures id < merged[i]
    {
      var k :| 0 <= k < i && merged[k] == id;
      assert IdLe(merged[i - 1], merged[i]) && (k < i - 1 ==> IdLe(merged[k], merged[i - 1]));
    }
  }

  /** Each kept id once. */
  method KeptOnce(merged: seq<u64>, keep: u64 -> bool) returns (out: seq<u64>)
    requires Sorted(merged, IdLe)
    ensures Ascending(out)
    ensures forall id :: id in out <==> id in merged && keep(id)
  {
    out := [];
    var last: Option<u64> := None;
    for i := 0 to |merged|
      invariant last == if i == 0 then None else Some(merged[i - 1])
      invariant Ascending(out)
      invariant forall id :: id in out <==> id in merged[..i] && keep(id)
    {
      if last != Some(merged[i]) {
        AllBelow(merged, i);
        forall k | 0 <= k < |out|
          ensures out[k] < merged[i]
        {
          assert out[k] in out;
        }
        if keep(merged[i]) { out := out + [merged[i]]; }
      }
      last := Some(merged[i]);
    }
    assert merged[..|merged|] == merged;
  }

  // ---- Postings ----

  predicate HasList(p: Part, t: u64) {
    match p
    case Sealed(s) => t in s.fst
    case Active(m, _) => t in m.postings
  }

  lemma ListIs(env: Env, p: Part, t: u64)
    requires PartGood(env, p)
    ensures HasList(p, t) <==> WithTerm(env, PartRows(p), t) != []
    ensures p.Active? && HasList(p, t) ==> p.m.postings[t] == WithTerm(env, PartRows(p), t)
  {
    match p
    case Sealed(s) => assert TermIndexed(env, s.fst, s.postings, SegRows(s), t);
    case Active(m, data) =>
      assert Listed(m.postings, t) == WithTerm(env, LogRows(m, data), t);
  }

  method FilterIds(ids: seq<u64>, live: u64 -> bool, ghost dead: set<u64>) returns (out: seq<u64>)
    requires forall id :: live(id) <==> id !in dead
    ensures out == LiveIds(ids, dead)
  {
    out := [];
    for i := 0 to |ids|
      invariant out == LiveIds(ids[..i], dead)
    {
      assert ids[..i + 1][..i] == ids[..i];
      if live(ids[i]) { out := out + [ids[i]]; }
    }
    assert ids[..|ids|] == ids;
  }

  /** One term's ids across the parts, the dead left out. */
  method TermIds(env: Env, parts: seq<Part>, t: u64, live: u64 -> bool, ghost dead: set<u64>) returns (ids: seq<u64>)
    requires PartsGood(env, parts)
    requires forall id :: live(id) <==> id !in dead
    ensures ids == WithTerm(env, LiveRows(AllRows(parts), dead), t)
  {
    hide PartGood, AllRows, LiveIds, WithTerm, PartRows, HasTerm;
    ids := [];
    NoRows(env, t, dead);
    for pi := 0 to |parts|
      invariant ids == LiveIds(WithTerm(env, AllRows(parts[..pi]), t), dead)
    {
      assert PartGood(env, parts[pi]);
      NextPart(parts, pi);
      ListIs(env, parts[pi], t);
      ghost var before := WithTerm(env, AllRows(parts[..pi]), t);
      WithTermConcat(env, AllRows(parts[..pi]), PartRows(parts[pi]), t);
      LiveIdsConcat(before, WithTerm(env, PartRows(parts[pi]), t), dead);
      var list := PartList(env, parts[pi], t);
      var kept := FilterIds(list, live, dead);
      ids := ids + kept;
    }
    assert parts[..|parts|] == parts;
    LiveWithTerm(env, AllRows(parts), t, dead);
  }

  lemma NoRows(env: Env, t: u64, dead: set<u64>)
    ensures LiveIds(WithTerm(env, AllRows([]), t), dead) == []
    ensures forall parts: seq<Part> :: AllRows(parts[..0]) == []
  {
    forall parts: seq<Part> ensures AllRows(parts[..0]) == [] {
      assert parts[..0] == [];
    }
  }

  method PartList(env: Env, p: Part, t: u64) returns (list: seq<u64>)
    requires PartGood(env, p)
    ensures list == WithTerm(env, PartRows(p), t)
  {
    ListIs(env, p, t);
    if !HasList(p, t) { return []; }
    match p
    case Sealed(s) =>
      var l := PostingsOf(env, s, t);
      list := l.All();
    case Active(m, _) =>
      list := m.postings[t];
  }

  /** Every term of the parts, ascending. */
  method AllTerms(parts: seq<Part>) returns (terms: seq<u64>)
    ensures Ascending(terms)
    ensures forall t :: t in terms <==> exists i :: 0 <= i < |parts| && HasList(parts[i], t)
  {
    var all: seq<u64> := [];
    for pi := 0 to |parts|
      invariant forall t :: t in all <==> exists i :: 0 <= i < pi && HasList(parts[i], t)
    {
      var keys := Enumerate(match parts[pi] case Sealed(s) => s.fst.Keys case Active(m, _) => m.postings.Keys);
      assert forall t :: t in keys <==> HasList(parts[pi], t);
      all := all + keys;
    }
    SortedSetIs(all);
    terms := SortedSet(all);
    assert forall t :: t in terms <==> t in Members(terms);
    assert forall t :: t in all <==> t in Members(all);
  }

  lemma EncodedStays(section: bytes, more: bytes, off: nat, ids: seq<u64>)
    requires EncodedAt(section, off, ids)
    ensures EncodedAt(section + more, off, ids)
  {
    hide Encoded, Fits;
    var e := Encoded(ids);
    assert (section + more)[off..off + |e|] == section[off..off + |e|];
  }

  /** The terms' lists one after another, and where each begins. */
  method WritePostings(env: Env, parts: seq<Part>, live: u64 -> bool, ghost dead: set<u64>)
    returns (fst: map<u64, nat>, section: bytes)
    requires PartsGood(env, parts)
    requires forall id :: live(id) <==> id !in dead
    requires forall t :: Fits(WithTerm(env, LiveRows(AllRows(parts), dead), t))
    ensures forall t :: TermIndexed(env, fst, section, LiveRows(AllRows(parts), dead), t)
  {
    hide PartGood, AllRows, LiveRows, WithTerm, Encoded, Fits;
    ghost var rows := LiveRows(AllRows(parts), dead);
    var terms := AllTerms(parts);
    fst, section := map[], [];
    for k := 0 to |terms|
      invariant forall t :: t in fst ==> t in terms[..k]
      invariant forall t :: t in terms[..k] ==> TermIndexed(env, fst, section, rows, t)
    {
      hide EncodedAt;
      var t := terms[k];
      var ids := TermIds(env, parts, t, live, dead);
      assert t !in terms[..k];
      if ids != [] {
        var off := |section|;
        ghost var was, wasFst := section, fst;
        section := EncodePostings(ids, section);
        fst := fst[t := off];
        EncodedHere(was, ids);
        forall u | u in terms[..k] ensures TermIndexed(env, fst, section, rows, u) {
          assert TermIndexed(env, wasFst, was, rows, u);
          if u in wasFst { EncodedStays(was, Encoded(ids), wasFst[u], WithTerm(env, rows, u)); }
        }
      }
      assert terms[..k + 1] == terms[..k] + [t];
    }
    assert terms[..|terms|] == terms;
    forall t ensures TermIndexed(env, fst, section, rows, t) {
      if t !in terms { NoSuchTerm(env, parts, t, dead); }
    }
  }

  lemma EncodedHere(section: bytes, ids: seq<u64>)
    requires Fits(ids)
    ensures EncodedAt(section + Encoded(ids), |section|, ids)
  {
    hide Encoded, Fits;
  }

  lemma {:induction false} NoSuchTerm(env: Env, parts: seq<Part>, t: u64, dead: set<u64>)
    requires forall i :: 0 <= i < |parts| ==> PartGood(env, parts[i])
    requires forall i :: 0 <= i < |parts| ==> !HasList(parts[i], t)
    ensures WithTerm(env, LiveRows(AllRows(parts), dead), t) == []
    decreases |parts|
  {
    hide PartGood, HasTerm;
    if parts != [] {
      var k := |parts| - 1;
      assert PartGood(env, parts[k]);
      NoSuchTerm(env, parts[..k], t, dead);
      ListIs(env, parts[k], t);
      LiveRowsConcat(AllRows(parts[..k]), PartRows(parts[k]), dead);
      WithTermConcat(env, LiveRows(AllRows(parts[..k]), dead), LiveRows(PartRows(parts[k]), dead), t);
      LiveWithTerm(env, PartRows(parts[k]), t, dead);
    }
  }

  // ---- The segment ----

  const SEG_HEADER: nat := 180

  lemma {:induction false} BlobsOfParts(parts: seq<Part>)
    ensures Blobs(AllFacts(parts)) == MapOf(AllRows(parts))
    decreases |parts|
  {
    hide PartFacts, PartRows;
    if parts == [] {
    } else {
      var k := |parts| - 1;
      BlobsOfParts(parts[..k]);
      assert AllFacts(parts) == AllFacts(parts[..k]) + [PartFacts(parts[k])];
      BlobsConcat(AllFacts(parts[..k]), [PartFacts(parts[k])]);
      Stores.One(PartFacts(parts[k]));
      MapOfConcat(AllRows(parts[..k]), PartRows(parts[k]));
      EntriesOfPart(parts[k]);
    }
  }

  lemma EntriesOfPart(p: Part)
    ensures PartFacts(p).entries == MapOf(PartRows(p))
  {
  }

  lemma LocsOfRows(s: Segment, rows: seq<Row>)
    requires RowsAscend(rows) && s.locs == Locations(rows) && s.records == Joined(rows)
    requires s.entries == |s.locs|
    requires s.entries > 0 ==> s.minId == s.locs[0].id && s.maxId == s.locs[s.entries - 1].id
    ensures LocsGood(s) && SegRows(s) == rows
  {
    hide Locations, Joined;
    LocationsLength(rows);
    forall i | 0 <= i < |rows|
      ensures s.locs[i].id == rows[i].0 && s.locs[i].off + s.locs[i].len <= |s.records| && SegRow(s, i) == rows[i]
    {
      LaidOut(rows, i);
    }
  }

  /** The segment made of `parts`, oldest first: good, and the parts' facts with what is
      dead left out, its events and hashes with it, and the tombstones that still matter. */
  method Write(env: Env, number: nat, parts: seq<Part>, live: u64 -> bool, keep: u64 -> bool,
               ghost dead: set<u64>, ghost outside: set<u64>)
    returns (s: Segment)
    requires PartsGood(env, parts)
    requires forall id :: live(id) <==> id !in dead
    requires forall id :: keep(id) <==> id in outside
    requires forall t :: Fits(WithTerm(env, LiveRows(AllRows(parts), dead), t))
    ensures s.number == number && SegGood(env, s)
    ensures SegRows(s) == LiveRows(AllRows(parts), dead)
    ensures Rewrites(AllFacts(parts), SegFacts(s), dead, outside)
  {
    hide AllRows, LiveRows, WithTerm, TermIndexed, HashesOf, AllFacts, Fits, SegRows, Locations, Joined,
      PartGood, Events, Blobs, Dead;
    var locs, records := WriteEntries(parts, live, dead);
    var fst, postings := WritePostings(env, parts, live, dead);
    var copied := MergeTimes(env, parts, COPIED, live, dead);
    var pasted := MergeTimes(env, parts, PASTED, live, dead);
    var events := MergeEvents(env, parts, live, dead);
    var dedup := MergeDedup(env, parts, live, dead);
    var tombs := MergeTombs(env, parts, keep, outside);
    s := Segment(number, |locs|, if locs == [] then 0 else locs[0].id, if locs == [] then 0 else locs[|locs| - 1].id,
                 records, locs, postings, fst, copied, pasted, events, dedup, tombs,
                 SEG_HEADER + |records| + 24 * |locs| + |postings| + env.fstBytes(fst)
                 + 16 * (|copied| + |pasted| + |dedup|) + 17 * |events| + 8 * |tombs|);
    LiveRowsMembers(AllRows(parts), dead);
    LocsOfRows(s, LiveRows(AllRows(parts), dead));
    BlobsOfParts(parts);
    LiveRowsMap(AllRows(parts), dead);
  }
}
