/** A part's entries in order, and the index they determine: for each term the ids of the
    entries that have it, for each hash the ids of the entries that have that. */
module Rows {
  import opened Codec
  import opened Order
  import opened Entries
  import opened Stores

  /** An entry's id and its blob. */
  type Row = (u64, bytes)

  ghost predicate RowsAscend(rows: seq<Row>) {
    forall i, j :: 0 <= i < j < |rows| ==> rows[i].0 < rows[j].0
  }

  ghost function MapOf(rows: seq<Row>): map<u64, bytes> {
    if rows == [] then map[] else map[rows[0].0 := rows[0].1] + MapOf(rows[1..])
  }

  ghost predicate HasTerm(env: Env, blob: bytes, t: u64) {
    t in IndexTerms(env, RecordAt(env, blob).contents)
  }

  /** The ids of the entries indexed under `t`, ascending. */
  ghost function WithTerm(env: Env, rows: seq<Row>, t: u64): seq<u64> {
    if rows == [] then []
    else WithTerm(env, rows[..|rows| - 1], t)
         + if HasTerm(env, rows[|rows| - 1].1, t) then [rows[|rows| - 1].0] else []
  }

  /** The ids of the entries whose contents have the hash `h`, ascending. */
  ghost function WithHash(env: Env, rows: seq<Row>, h: u64): seq<u64> {
    if rows == [] then []
    else WithHash(env, rows[..|rows| - 1], h)
         + if RecordAt(env, rows[|rows| - 1].1).dedup == h then [rows[|rows| - 1].0] else []
  }

  /** Filters are over ids. */
  ghost function LiveRows(rows: seq<Row>, dead: set<u64>): seq<Row> {
    if rows == [] then []
    else LiveRows(rows[..|rows| - 1], dead)
         + if rows[|rows| - 1].0 in dead then [] else [rows[|rows| - 1]]
  }

  ghost function LiveIds(ids: seq<u64>, dead: set<u64>): seq<u64> {
    if ids == [] then []
    else LiveIds(ids[..|ids| - 1], dead)
         + if ids[|ids| - 1] in dead then [] else [ids[|ids| - 1]]
  }

  lemma Snoc<T>(a: seq<T>, b: seq<T>)
    requires b != []
    ensures (a + b)[|a + b| - 1] == b[|b| - 1]
    ensures (a + b)[..|a + b| - 1] == a + b[..|b| - 1]
  {
  }

  lemma {:induction false} WithTermConcat(env: Env, a: seq<Row>, b: seq<Row>, t: u64)
    ensures WithTerm(env, a + b, t) == WithTerm(env, a, t) + WithTerm(env, b, t)
    decreases |b|
  {
    hide HasTerm;
    if b == [] {
      assert a + b == a;
    } else {
      Snoc(a, b);
      WithTermConcat(env, a, b[..|b| - 1], t);
    }
  }

  lemma {:induction false} LiveIdsConcat(a: seq<u64>, b: seq<u64>, dead: set<u64>)
    ensures LiveIds(a + b, dead) == LiveIds(a, dead) + LiveIds(b, dead)
    decreases |b|
  {
    if b == [] {
      assert a + b == a;
    } else {
      Snoc(a, b);
      LiveIdsConcat(a, b[..|b| - 1], dead);
    }
  }

  lemma {:induction false} LiveRowsConcat(a: seq<Row>, b: seq<Row>, dead: set<u64>)
    ensures LiveRows(a + b, dead) == LiveRows(a, dead) + LiveRows(b, dead)
    decreases |b|
  {
    if b == [] {
      assert a + b == a;
    } else {
      Snoc(a, b);
      LiveRowsConcat(a, b[..|b| - 1], dead);
    }
  }

  /** Filtering a term's list is listing the filtered rows. */
  lemma {:induction false} LiveWithTerm(env: Env, rows: seq<Row>, t: u64, dead: set<u64>)
    ensures WithTerm(env, LiveRows(rows, dead), t) == LiveIds(WithTerm(env, rows, t), dead)
    decreases |rows|
  {
    hide HasTerm;
    if rows != [] {
      var init, r := rows[..|rows| - 1], rows[|rows| - 1];
      LiveWithTerm(env, init, t, dead);
      var tail := if r.0 in dead then [] else [r];
      WithTermConcat(env, LiveRows(init, dead), tail, t);
      One(env, r, t);
      LiveIdsConcat(WithTerm(env, init, t), if HasTerm(env, r.1, t) then [r.0] else [], dead);
      OneLive(r.0, dead);
    }
  }

  lemma One(env: Env, r: Row, t: u64)
    ensures WithTerm(env, [r], t) == if HasTerm(env, r.1, t) then [r.0] else []
    ensures WithTerm(env, [], t) == []
  {
    hide HasTerm;
    assert [r][..0] == [];
  }

  lemma OneLive(id: u64, dead: set<u64>)
    ensures LiveIds([id], dead) == if id in dead then [] else [id]
    ensures LiveIds([], dead) == []
  {
    assert [id][..0] == [];
  }

  lemma {:induction false} WithTermMembers(env: Env, rows: seq<Row>, t: u64)
    requires RowsAscend(rows)
    ensures Ascending(WithTerm(env, rows, t))
    ensures forall id :: id in WithTerm(env, rows, t) <==>
              exists i :: 0 <= i < |rows| && rows[i].0 == id && HasTerm(env, rows[i].1, t)
    ensures |WithTerm(env, rows, t)| <= |rows|
    decreases |rows|
  {
    hide HasTerm;
    if rows != [] {
      var init, r := rows[..|rows| - 1], rows[|rows| - 1];
      WithTermMembers(env, init, t);
      var ids := WithTerm(env, init, t);
      forall k | 0 <= k < |ids| ensures ids[k] < r.0 {
        assert ids[k] in ids;
        var i :| 0 <= i < |init| && init[i].0 == ids[k] && HasTerm(env, init[i].1, t);
      }
      forall id ensures id in WithTerm(env, rows, t) <==>
                exists i :: 0 <= i < |rows| && rows[i].0 == id && HasTerm(env, rows[i].1, t) {
        if id in ids {
          var i :| 0 <= i < |init| && init[i].0 == id && HasTerm(env, init[i].1, t);
          assert rows[i] == init[i];
        }
        if i :| 0 <= i < |rows| && rows[i].0 == id && HasTerm(env, rows[i].1, t) {
          if i < |init| { assert init[i] == rows[i]; }
        }
      }
    }
  }

  lemma {:induction false} WithHashMembers(env: Env, rows: seq<Row>, h: u64)
    requires RowsAscend(rows)
    ensures Ascending(WithHash(env, rows, h))
    ensures forall id :: id in WithHash(env, rows, h) <==>
              exists i :: 0 <= i < |rows| && rows[i].0 == id && RecordAt(env, rows[i].1).dedup == h
    decreases |rows|
  {
    hide RecordAt;
    if rows != [] {
      var init, r := rows[..|rows| - 1], rows[|rows| - 1];
      WithHashMembers(env, init, h);
      var ids := WithHash(env, init, h);
      forall k | 0 <= k < |ids| ensures ids[k] < r.0 {
        assert ids[k] in ids;
        var i :| 0 <= i < |init| && init[i].0 == ids[k] && RecordAt(env, init[i].1).dedup == h;
      }
      forall id ensures id in WithHash(env, rows, h) <==>
                exists i :: 0 <= i < |rows| && rows[i].0 == id && RecordAt(env, rows[i].1).dedup == h {
        if id in ids {
          var i :| 0 <= i < |init| && init[i].0 == id && RecordAt(env, init[i].1).dedup == h;
          assert rows[i] == init[i];
        }
        if i :| 0 <= i < |rows| && rows[i].0 == id && RecordAt(env, rows[i].1).dedup == h {
          if i < |init| { assert init[i] == rows[i]; }
        }
      }
    }
  }

  lemma {:induction false} MapOfMembers(rows: seq<Row>)
    requires RowsAscend(rows)
    ensures forall id :: id in MapOf(rows) <==> exists i :: 0 <= i < |rows| && rows[i].0 == id
    ensures forall i :: 0 <= i < |rows| ==> rows[i].0 in MapOf(rows) && MapOf(rows)[rows[i].0] == rows[i].1
  {
    if rows != [] {
      MapOfMembers(rows[1..]);
      assert forall k :: 0 <= k < |rows[1..]| ==> rows[1..][k] == rows[k + 1];
      assert rows[0].0 !in MapOf(rows[1..]);
      forall i | 0 <= i < |rows| ensures rows[i].0 in MapOf(rows) && MapOf(rows)[rows[i].0] == rows[i].1 {
        if i > 0 { assert rows[i] == rows[1..][i - 1]; }
      }
      forall id ensures id in MapOf(rows) <==> exists i :: 0 <= i < |rows| && rows[i].0 == id {
        if id in MapOf(rows[1..]) {
          var i :| 0 <= i < |rows[1..]| && rows[1..][i].0 == id;
          assert rows[i + 1].0 == id;
        }
      }
    }
  }

  lemma {:induction false} LiveRowsMembers(rows: seq<Row>, dead: set<u64>)
    requires RowsAscend(rows)
    ensures RowsAscend(LiveRows(rows, dead))
    ensures forall r :: r in LiveRows(rows, dead) <==> r in rows && r.0 !in dead
    decreases |rows|
  {
    if rows != [] {
      var init, r := rows[..|rows| - 1], rows[|rows| - 1];
      LiveRowsMembers(init, dead);
      assert rows == init + [r];
      var l := LiveRows(init, dead);
      forall k | 0 <= k < |l| ensures l[k].0 < r.0 {
        assert l[k] in l && l[k] in init;
      }
    }
  }

  /** The live rows are the entries less the dead. */
  lemma LiveRowsMap(rows: seq<Row>, dead: set<u64>)
    requires RowsAscend(rows)
    ensures MapOf(LiveRows(rows, dead)) == MapOf(rows) - dead
  {
    hide LiveRows, MapOf;
    LiveRowsMembers(rows, dead);
    var l := LiveRows(rows, dead);
    MapOfMembers(rows);
    MapOfMembers(l);
    forall id ensures id in MapOf(l) <==> id in MapOf(rows) && id !in dead {
      if id in MapOf(rows) && id !in dead {
        var i :| 0 <= i < |rows| && rows[i].0 == id;
        assert rows[i] in l;
      }
      if id in MapOf(l) {
        var i :| 0 <= i < |l| && l[i].0 == id;
        assert l[i] in rows;
      }
    }
    forall id | id in MapOf(l) ensures MapOf(l)[id] == MapOf(rows)[id] {
      var i :| 0 <= i < |l| && l[i].0 == id;
      RowMember(rows, l[i]);
    }
  }

  lemma RowMember(rows: seq<Row>, r: Row)
    requires RowsAscend(rows) && r in rows
    ensures r.0 in MapOf(rows) && MapOf(rows)[r.0] == r.1
  {
    MapOfMembers(rows);
  }

  lemma {:induction false} MapOfConcat(a: seq<Row>, b: seq<Row>)
    ensures MapOf(a + b) == MapOf(a) + MapOf(b)
  {
    if a == [] {
      assert a + b == b;
    } else {
      MapOfConcat(a[1..], b);
      assert (a + b)[0] == a[0] && (a + b)[1..] == a[1..] + b;
      SumOfMaps(map[a[0].0 := a[0].1], MapOf(a[1..]), MapOf(b));
    }
  }
}
