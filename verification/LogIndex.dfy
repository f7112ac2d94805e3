/** The log's index as it grows (clip/src/active.rs): a record appended leaves the mirror's
    postings and hashes in agreement with the entries the file then holds. */
module LogIndex {
  import opened Codec
  import opened Order
  import opened PostingLists
  import opened Records
  import opened Disk
  import opened Logs
  import opened Entries
  import opened Stores
  import opened Rows
  import opened Segments

  lemma {:induction false} AddAllLists(m: map<u64, seq<u64>>, keys: seq<u64>, id: u64, t: u64)
    requires Ascending(keys)
    ensures Listed(AddAll(m, keys, id), t) == Listed(m, t) + if t in keys then [id] else []
    ensures t in AddAll(m, keys, id) <==> t in m || t in keys
    decreases keys
  {
    if keys != [] {
      AddAllLists(AddUnder(m, keys[0], id), keys[1..], id, t);
      assert keys == [keys[0]] + keys[1..];
    }
  }

  /** More written after a log's entries moves none of them. */
  lemma RowsStay(data: bytes, more: bytes, m: Mirror)
    requires Located(data, m)
    ensures Located(data + more, m) && LogRows(m, data + more) == LogRows(m, data)
  {
    hide Parsed;
    forall i | 0 <= i < |m.ids|
      ensures BlobAt(data + more, m.locs[i], m.ids[i]) && LogRow(m, data + more, i) == LogRow(m, data, i) {
      assert BlobAt(data, m.locs[i], m.ids[i]);
      var (off, len) := m.locs[i];
      assert (data + more)[off..off + len] == data[off..off + len];
    }
  }

  /** An event or a tombstone appended touches no entry. */
  lemma RecordKeeps(env: Env, m: Mirror, data: bytes, more: bytes, m': Mirror)
    requires LogGood(env, m, data)
    requires m' == m.(events := m'.events, tombstones := m'.tombstones, records := m'.records)
    ensures LogGood(env, m', data + more)
    ensures LogRows(m', data + more) == LogRows(m, data)
    ensures LogFacts(m', data + more) == Facts(LogFacts(m, data).entries, m'.events, m'.tombstones)
  {
    hide WithTerm, WithHash, Parsed, MapOf;
    RowsStay(data, more, m);
    assert LogRows(m', data + more) == LogRows(m, data + more);
    assert Located(data + more, m');
  }

  /** What the store gives an entry's record: its blob at the end of the file, the terms of
      its contents in order. */
  ghost predicate Appends(env: Env, m: Mirror, terms: seq<u64>, blob: bytes, data': bytes) {
    && Opened(env.keys, blob).Some? && Parsed(blob).Some?
    && (m.ids != [] ==> m.ids[|m.ids| - 1] < Parsed(blob).value.id)
    && Ascending(terms) && Members(terms) == IndexTerms(env, RecordAt(env, blob).contents)
    && |blob| <= |data'| && data'[|data'| - |blob|..] == blob
  }

  lemma EntryRows(env: Env, m: Mirror, data: bytes, more: bytes, terms: seq<u64>, blob: bytes)
    requires Located(data, m) && Appends(env, m, terms, blob, data + more)
    ensures var b := Parsed(blob).value;
            var m' := EntryAdded(m, terms, b, |data + more| - |blob|, |blob|);
            && Located(data + more, m')
            && LogRows(m', data + more) == LogRows(m, data) + [(b.id, blob)]
  {
    hide AddAll, Parsed, Opened, IndexTerms;
    var b := Parsed(blob).value;
    var all := data + more;
    var m' := EntryAdded(m, terms, b, |all| - |blob|, |blob|);
    RowsStay(data, more, m);
    var k := |m.ids|;
    assert all[m'.locs[k].0..m'.locs[k].0 + m'.locs[k].1] == blob;
    forall i | 0 <= i < k ensures BlobAt(all, m'.locs[i], m'.ids[i]) && LogRow(m', all, i) == LogRows(m, data)[i] {
      assert BlobAt(all, m.locs[i], m.ids[i]);
      assert LogRows(m, all)[i] == LogRow(m, all, i);
    }
    assert BlobAt(all, m'.locs[k], m'.ids[k]);
    assert LogRow(m', all, k) == (b.id, blob);
  }

  /** An entry appended is indexed under exactly its terms and its hash. */
  lemma EntryKeeps(env: Env, m: Mirror, data: bytes, more: bytes, terms: seq<u64>, blob: bytes)
    requires LogGood(env, m, data) && Appends(env, m, terms, blob, data + more)
    ensures var b := Parsed(blob).value;
            var m' := EntryAdded(m, terms, b, |data + more| - |blob|, |blob|);
            && LogGood(env, m', data + more)
            && LogRows(m', data + more) == LogRows(m, data) + [(b.id, blob)]
            && LogFacts(m', data + more) ==
               Facts(LogFacts(m, data).entries[b.id := blob], m.events + [Event(b.id, b.copiedAt, COPIED)],
                     m.tombstones)
  {
    hide Parsed, Opened, IndexTerms, WithTerm, WithHash, MapOf, AddAll, Located, LogRows;
    var b := Parsed(blob).value;
    var m' := EntryAdded(m, terms, b, |data + more| - |blob|, |blob|);
    EntryRows(env, m, data, more, terms, blob);
    var rows := LogRows(m, data);
    RecordsHash(env, blob);
    forall t ensures Listed(m'.postings, t) == WithTerm(env, LogRows(m', data + more), t)
             ensures t in m'.postings ==> m'.postings[t] != [] {
      AddAllLists(m.postings, terms, b.id, t);
      OneMoreRow(env, rows, (b.id, blob), t);
      assert t in terms <==> t in Members(terms);
    }
    forall h ensures Listed(m'.dedup, h) == WithHash(env, LogRows(m', data + more), h) {
      OneMoreHash(env, rows, (b.id, blob), h);
    }
    OneMoreEntry(rows, (b.id, blob));
  }

  lemma RecordsHash(env: Env, blob: bytes)
    requires Opened(env.keys, blob).Some?
    ensures Parsed(blob).Some?
    ensures RecordAt(env, blob).id == Parsed(blob).value.id
    ensures RecordAt(env, blob).dedup == Parsed(blob).value.dedup
    ensures RecordAt(env, blob).copiedAt == Parsed(blob).value.copiedAt
  {
    hide Parsed, HeadOpened, ContentsOpened;
  }

  lemma OneMoreRow(env: Env, rows: seq<Row>, r: Row, t: u64)
    ensures WithTerm(env, rows + [r], t) ==
            WithTerm(env, rows, t) + if t in IndexTerms(env, RecordAt(env, r.1).contents) then [r.0] else []
  {
    hide IndexTerms, RecordAt;
    WithTermConcat(env, rows, [r], t);
    Rows.One(env, r, t);
  }

  lemma OneMoreHash(env: Env, rows: seq<Row>, r: Row, h: u64)
    ensures WithHash(env, rows + [r], h) ==
            WithHash(env, rows, h) + if RecordAt(env, r.1).dedup == h then [r.0] else []
  {
    hide RecordAt;
    assert (rows + [r])[..|rows|] == rows;
  }

  lemma OneMoreEntry(rows: seq<Row>, r: Row)
    ensures MapOf(rows + [r]) == MapOf(rows)[r.0 := r.1]
  {
    MapOfConcat(rows, [r]);
    assert [r][1..] == [];
  }
}
