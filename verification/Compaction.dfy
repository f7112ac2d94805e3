/** The segments a seal and a merge write (clip/src/lib.rs, seal and merge). */
module Compaction {
  import opened Codec
  import opened PostingLists
  import opened Disk
  import opened Logs
  import opened Entries
  import opened Stores
  import opened Rows
  import opened Segments
  import opened SegmentWriter
  import opened Recovery
  import opened Rewriting
  import opened Lookups

  /** A segment has the entry. */
  predicate HasEntry(s: Segment, id: u64) {
    exists j :: 0 <= j < |s.locs| && s.locs[j].id == id
  }

  predicate StoredIn(segments: seq<Segment>, id: u64) {
    exists i :: 0 <= i < |segments| && HasEntry(segments[i], id)
  }

  predicate TombIn(segments: seq<Segment>, id: u64) {
    exists i :: 0 <= i < |segments| && id in segments[i].tombs
  }

  lemma HasEntryIs(s: Segment, id: u64)
    requires LocsGood(s)
    ensures HasEntry(s, id) <==> id in SegFacts(s).entries
  {
    hide MapOf;
    SegRowsAscend(s);
    MapOfMembers(SegRows(s));
    assert forall j :: 0 <= j < |s.locs| ==> SegRows(s)[j].0 == s.locs[j].id;
  }

  lemma StoredIs(env: Env, f: Found, lo: nat, id: u64)
    requires Sound(env, f) && lo <= |f.segments|
    ensures StoredIn(f.segments[..lo], id) <==> id in Blobs(Parts(f)[..lo])
  {
    hide Sound, Blobs, SegFacts, HasEntry;
    SumsMembers(Parts(f)[..lo]);
    forall i | 0 <= i < lo ensures HasEntry(f.segments[i], id) <==> id in Parts(f)[..lo][i].entries {
      LocsOf(env, f, i);
      HasEntryIs(f.segments[i], id);
    }
    if StoredIn(f.segments[..lo], id) {
      var i :| 0 <= i < lo && HasEntry(f.segments[..lo][i], id);
      assert id in Parts(f)[..lo][i].entries;
    }
    if id in Blobs(Parts(f)[..lo]) {
      var i :| 0 <= i < lo && i < |Parts(f)[..lo]| && id in Parts(f)[..lo][i].entries;
      assert HasEntry(f.segments[..lo][i], id);
    }
  }

  lemma TombsAre(f: Found, id: u64)
    ensures id in Dead(Parts(f)) <==> id in f.mirror.tombstones || TombIn(f.segments, id)
  {
    hide Dead, Parts, MapOf;
    DeadWhere(f, id);
    assert forall i :: 0 <= i < |f.segments| ==> (IsTombOf(f.segments[i], id) <==> id in f.segments[i].tombs);
  }

  lemma PartsAre(f: Found)
    ensures Parts(f) == PartsOf(f.segments, f.mirror, f.log)
  {
  }

  lemma SizeOfSegment(env: Env, s: Segment, rows: seq<Row>, dead: set<u64>)
    requires SegRows(s) == LiveRows(rows, dead)
    ensures |s.locs| <= |rows|
  {
    hide LiveRows;
    FewerRows(rows, dead);
    assert |SegRows(s)| == |s.locs|;
  }

  /** The log alone rewritten as a segment; of its tombstones are kept those whose entry is in
      an older segment. */
  method SealSegment(env: Env, number: nat, mirror: Mirror, log: bytes, segments: seq<Segment>, ghost f: Found)
    returns (s: Segment)
    requires Sound(env, f) && f.mirror == mirror && f.log == log && f.segments == segments
    requires 10 * |mirror.ids| < TWO_32
    ensures SegGood(env, s) && s.number == number && SealedAs(f, s) && |s.locs| <= |mirror.ids|
  {
    hide Sound, SegGood, Rewrites, Blobs, Dead, AllRows, LiveRows, WithTerm, Fits, Parts, StoredIn, TombIn, SegFacts,
      LogFacts, PartsGood, AllFacts, SegRows;
    var parts := [SegmentWriter.Active(mirror, log)];
    var tombs := mirror.tombstones;
    var live := (id: u64) => !(id in tombs || TombIn(segments, id));
    var keep := (id: u64) => StoredIn(segments, id);
    ghost var dead, outside := Dead(Parts(f)), Blobs(Parts(f)[..|segments|]).Keys;
    PartsAre(f);
    assert segments[..|segments|] == segments;
    forall id ensures live(id) <==> id !in dead ensures keep(id) <==> id in outside {
      TombsAre(f, id);
      StoredIs(env, f, |segments|, id);
    }
    SealParts(env, f);
    assert CountRows(parts) == |mirror.ids| by { assert parts[..0] == []; }
    OrderOf(env, parts);
    ListsFit(env, parts, dead);
    s := SegmentWriter.Write(env, number, parts, live, keep, dead, outside);
    RowsCounted(parts);
    SizeOfSegment(env, s, AllRows(parts), dead);
  }

  lemma OrderOf(env: Env, parts: seq<Part>)
    requires PartsGood(env, parts)
    ensures RowsAscend(AllRows(parts))
  {
    hide PartGood, AllRows;
  }

  /** The segments from `lo` on as one: their dead entries gone, and of their tombstones
      those kept whose entries are elsewhere. */
  method MergeSegments(env: Env, number: nat, mirror: Mirror, segments: seq<Segment>, lo: nat, ghost f: Found)
    returns (s: Segment)
    requires Sound(env, f) && f.mirror == mirror == EMPTY && f.segments == segments && lo <= |segments|
    requires 10 * CountRows(SealedParts(segments[lo..])) < TWO_32
    ensures SegGood(env, s) && s.number == number && MergedAs(f, s, lo)
    ensures |s.locs| <= CountRows(SealedParts(segments[lo..]))
  {
    hide Sound, SegGood, Rewrites, Blobs, Dead, AllRows, LiveRows, WithTerm, Fits, Parts, StoredIn, TombIn, SegFacts,
      LogFacts, PartsGood, AllFacts, SegRows, CountRows, SealedParts;
    var parts := SealedParts(segments[lo..]);
    var tombs, ids := mirror.tombstones, mirror.ids;
    var live := (id: u64) => !(id in tombs || TombIn(segments, id));
    var keep := (id: u64) => id in ids || StoredIn(segments[..lo], id);
    ghost var dead, outside := Dead(Parts(f)), Blobs(Parts(f)[..lo]).Keys;
    PartsAre(f);
    forall id ensures live(id) <==> id !in dead ensures keep(id) <==> id in outside {
      TombsAre(f, id);
      StoredIs(env, f, lo, id);
    }
    MergeParts(env, f, lo);
    OrderOf(env, parts);
    ListsFit(env, parts, dead);
    s := SegmentWriter.Write(env, number, parts, live, keep, dead, outside);
    RowsCounted(parts);
    SizeOfSegment(env, s, AllRows(parts), dead);
  }
}
