/** What a record, a seal and a merge make of the history found in the directory. */
module Changes {
  import opened Wrappers
  import opened Codec
  import opened Order
  import opened PostingLists
  import opened Records
  import opened Disk
  import opened Logs
  import opened LogIndex
  import opened Entries
  import opened Stores
  import opened Rows
  import opened Segments
  import opened Recovery

  // ---- The next id ----

  lemma {:induction false} NextAfterBounds(next: nat, segments: seq<Segment>, n: nat)
    requires next <= n
    requires forall i :: 0 <= i < |segments| && segments[i].entries > 0 ==> segments[i].maxId < n
    ensures next <= NextAfter(next, segments) <= n
  {
    if segments != [] { NextAfterBounds(next, segments[..|segments| - 1], n); }
  }

  lemma {:induction false} NextAfterAbove(next: nat, segments: seq<Segment>)
    ensures next <= NextAfter(next, segments)
    ensures forall i :: 0 <= i < |segments| && segments[i].entries > 0 ==> segments[i].maxId < NextAfter(next, segments)
  {
    if segments != [] { NextAfterAbove(next, segments[..|segments| - 1]); }
  }

  lemma NextIs(f: Found, n: nat)
    requires NextOfLog(f.m.nextId, f.mirror.ids) == n
    requires forall i :: 0 <= i < |f.segments| && f.segments[i].entries > 0 ==> f.segments[i].maxId < n
    ensures NextOf(f) == n
  {
    NextAfterBounds(n, f.segments, n);
  }

  /** No segment's ids reach the next id, nor the log's. */
  lemma AllBelowNext(f: Found)
    ensures forall i :: 0 <= i < |f.segments| && f.segments[i].entries > 0 ==> f.segments[i].maxId < NextOf(f)
    ensures f.mirror.ids != [] ==> f.mirror.ids[|f.mirror.ids| - 1] < NextOf(f)
    ensures 1 <= NextOf(f) && f.m.nextId <= NextOf(f)
  {
    NextAfterAbove(NextOfLog(f.m.nextId, f.mirror.ids), f.segments);
  }

  // ---- Records ----

  lemma LongerLog(env: Env, f: Found, payload: bytes, m: Mirror)
    requires Sound(env, f) && 0 < |payload| <= MAX_FRAME
    requires Apply(f.mirror, payload, |f.log| + 8) == Some(m)
    ensures var g := Longer(f, payload, m, env.crc);
            && LogHeader() <= g.log && Mirrors(g.log, g.mirror, env.crc) && Numbered(g)
            && (forall i :: 0 <= i < |g.segments| ==> SegGood(env, g.segments[i]))
  {
    hide Apply, FrameOf, Mirrors, SegGood, LogGood, Inv;
    FrameAppended(f.log, f.mirror, payload, env.crc);
  }

  lemma LastOfParts(f: Found, g: Found)
    requires g.segments == f.segments
    ensures StoreOf(f).parts[|f.segments|] == LogFacts(f.mirror, f.log)
    ensures StoreOf(g).parts == StoreOf(f).parts[|f.segments| := LogFacts(g.mirror, g.log)]
    ensures |StoreOf(f).parts| == |f.segments| + 1
  {
    hide LogFacts, SegFacts, NextOf;
  }

  /** The mirror with an entry whose record is the log's next. */
  ghost function MirrorWith(f: Found, terms: seq<u64>, blob: bytes): Mirror
    requires Parsed(blob).Some?
  {
    EntryAdded(f.mirror, terms, Parsed(blob).value, |f.log| + 8 + |EntryPayload(terms, blob)| - |blob|, |blob|)
  }

  /** An entry's record makes exactly a new item of the next id. */
  lemma EntryWritten(env: Env, f: Found, terms: seq<u64>, blob: bytes, r: Record)
    requires Sound(env, f) && EntryFor(env, blob, r) && r.id == NextOf(f)
    requires Ascending(terms) && Members(terms) == IndexTerms(env, r.contents)
    requires |terms| < TWO_64 && |blob| + 8 * |terms| + 16 <= MAX_FRAME && Parsed(blob).Some?
    ensures var payload := EntryPayload(terms, blob);
            var m := MirrorWith(f, terms, blob);
            var g := Longer(f, payload, m, env.crc);
            && Apply(f.mirror, payload, |f.log| + 8) == Some(m) && 0 < |payload| <= MAX_FRAME
            && Sound(env, g) && NextOf(g) == r.id + 1
            && AbsIn(env, g) == Added(AbsIn(env, f), r)
  {
    hide Inv, SegGood, LogGood, LogFacts, Mirrors, Apply, Parsed, Opened, IndexTerms, EntryPayload, FrameOf, EntryAdded,
      Canonical, WithEntry, AbsOf, PartsOf;
    var payload := EntryPayload(terms, blob);
    EntrySize(terms, blob, env.crc);
    var m := MirrorWith(f, terms, blob);
    var g := Longer(f, payload, m, env.crc);
    EntryIsNext(env, f, terms, blob, r);
    ApplyEntry(f.mirror, terms, blob, |f.log| + 8);
    LongerLog(env, f, payload, m);
    EntryTail(f.log, FrameOf(payload, env.crc), blob);
    EntryKeeps(env, f.mirror, f.log, FrameOf(payload, env.crc), terms, blob);
    EntryNext(f, g, terms, Parsed(blob).value, |f.log| + 8 + |payload| - |blob|, |blob|);
    EntryStore(env, f, g, blob, r);
    EntryAppended(env, StoreOf(f), blob, r);
  }

  lemma EntryIsNext(env: Env, f: Found, terms: seq<u64>, blob: bytes, r: Record)
    requires EntryFor(env, blob, r) && r.id == NextOf(f) && Parsed(blob).Some?
    ensures RecordAt(env, blob) == r && Parsed(blob).value.id == r.id && Parsed(blob).value.copiedAt == r.copiedAt
    ensures f.mirror.ids != [] ==> f.mirror.ids[|f.mirror.ids| - 1] < Parsed(blob).value.id
  {
    hide Parsed, Opened, Canonical, NextOf;
    RecordsHash(env, blob);
    AllBelowNext(f);
  }

  lemma EntryTail(log: bytes, frame: bytes, blob: bytes)
    requires |blob| <= |frame| && frame[|frame| - |blob|..] == blob
    ensures (log + frame)[|log + frame| - |blob|..] == blob
  {
  }

  lemma EntryNext(f: Found, g: Found, terms: seq<u64>, b: Blob, at: nat, len: nat)
    requires b.id == NextOf(f) && g.segments == f.segments && g.m == f.m
    requires g.mirror == EntryAdded(f.mirror, terms, b, at, len)
    ensures NextOf(g) == b.id + 1
  {
    hide AddAll, NextOf;
    AllBelowNext(f);
    NextIs(g, b.id + 1);
  }

  lemma EntryStore(env: Env, f: Found, g: Found, blob: bytes, r: Record)
    requires g.segments == f.segments && NextOf(g) == r.id + 1
    requires var was := LogFacts(f.mirror, f.log);
             LogFacts(g.mirror, g.log) ==
             Facts(was.entries[r.id := blob], f.mirror.events + [Event(r.id, r.copiedAt, COPIED)], f.mirror.tombstones)
    ensures StoreOf(f).parts != []
    ensures StoreOf(g) == WithEntry(StoreOf(f), r.id, blob, r.copiedAt)
  {
    hide MapOf, NextOf, PartsOf;
    LastOfParts(f, g);
  }

  lemma SameNext(f: Found, g: Found)
    requires g.segments == f.segments && g.m == f.m && g.mirror.ids == f.mirror.ids
    ensures NextOf(g) == NextOf(f)
  {
  }

  /** An event's record adds exactly that copy or paste. */
  lemma EventWritten(env: Env, f: Found, e: Event)
    requires Sound(env, f) && e.id in Live(StoreOf(f).parts) && (e.kind == COPIED || e.kind == PASTED)
    ensures var m := f.mirror.(events := f.mirror.events + [e], records := f.mirror.records + 1);
            var g := Longer(f, EventPayload(e), m, env.crc);
            && Apply(f.mirror, EventPayload(e), |f.log| + 8) == Some(m) && 0 < |EventPayload(e)| <= MAX_FRAME
            && Sound(env, g) && NextOf(g) == NextOf(f)
            && e.id in AbsIn(env, f).items && AbsIn(env, g) == Noted(AbsIn(env, f), e)
  {
    hide Inv, SegGood, LogGood, LogFacts, Mirrors, Apply, EventPayload, FrameOf, WithEvent, PartsOf, Blobs, Dead,
      ItemOf, NextOf;
    var m := f.mirror.(events := f.mirror.events + [e], records := f.mirror.records + 1);
    var g := Longer(f, EventPayload(e), m, env.crc);
    ApplyEvent(f.mirror, e, |f.log| + 8);
    LongerLog(env, f, EventPayload(e), m);
    RecordKeeps(env, f.mirror, f.log, FrameOf(EventPayload(e), env.crc), m);
    SameNext(f, g);
    EventStore(f, g, e);
    EventAppended(env, StoreOf(f), e);
  }

  lemma EventStore(f: Found, g: Found, e: Event)
    requires g.segments == f.segments && NextOf(g) == NextOf(f)
    requires g.mirror.events == f.mirror.events + [e] && g.mirror.tombstones == f.mirror.tombstones
    requires LogFacts(g.mirror, g.log) == Facts(LogFacts(f.mirror, f.log).entries, g.mirror.events, g.mirror.tombstones)
    ensures StoreOf(f).parts != []
    ensures StoreOf(g) == WithEvent(StoreOf(f), e)
  {
    hide MapOf, NextOf, PartsOf;
    LastOfParts(f, g);
  }

  /** A tombstone's record takes exactly that entry away. */
  lemma TombWritten(env: Env, f: Found, id: u64)
    requires Sound(env, f) && id in Live(StoreOf(f).parts)
    ensures var m := f.mirror.(tombstones := f.mirror.tombstones + {id}, records := f.mirror.records + 1);
            var g := Longer(f, DeletePayload(id), m, env.crc);
            && Apply(f.mirror, DeletePayload(id), |f.log| + 8) == Some(m) && 0 < |DeletePayload(id)| <= MAX_FRAME
            && Sound(env, g) && NextOf(g) == NextOf(f)
            && AbsIn(env, g) == Dropped(AbsIn(env, f), id)
  {
    hide Inv, SegGood, LogGood, LogFacts, Mirrors, Apply, DeletePayload, FrameOf, WithTomb, PartsOf, Blobs, Dead, AbsOf,
      NextOf;
    var m := f.mirror.(tombstones := f.mirror.tombstones + {id}, records := f.mirror.records + 1);
    var g := Longer(f, DeletePayload(id), m, env.crc);
    ApplyDelete(f.mirror, id, |f.log| + 8);
    LongerLog(env, f, DeletePayload(id), m);
    RecordKeeps(env, f.mirror, f.log, FrameOf(DeletePayload(id), env.crc), m);
    SameNext(f, g);
    TombStore(f, g, id);
    TombAppended(env, StoreOf(f), id);
  }

  lemma TombStore(f: Found, g: Found, id: u64)
    requires g.segments == f.segments && NextOf(g) == NextOf(f)
    requires g.mirror.events == f.mirror.events && g.mirror.tombstones == f.mirror.tombstones + {id}
    requires LogFacts(g.mirror, g.log) == Facts(LogFacts(f.mirror, f.log).entries, g.mirror.events, g.mirror.tombstones)
    ensures StoreOf(f).parts != []
    ensures StoreOf(g) == WithTomb(StoreOf(f), id)
  {
    hide MapOf, NextOf, PartsOf;
    LastOfParts(f, g);
  }
}
