/** Posting lists (clip/src/segment.rs): a count, a table of blocks of BLOCK ids each, the
    blocks' first ids in the table and the rest as varint deltas. A reader keeps the ids
    of the block it was last in. */
module PostingLists {
  import opened Wrappers
  import opened Codec
  import opened Order

  const BLOCK: nat := 128

  // ---- The encoding ----

  function Blocks(n: nat): nat {
    (n + BLOCK - 1) / BLOCK
  }

  /** The deltas of `ids[from..upto]`: all but its first id. */
  function Deltas(ids: seq<u64>, from: nat, upto: nat): bytes
    requires upto <= |ids|
    decreases upto
  {
    if upto <= from + 1 then []
    else Deltas(ids, from, upto - 1) + Varint(Delta(ids[upto - 2], ids[upto - 1]))
  }

  function Delta(a: u64, b: u64): u64 {
    if a <= b then b - a else 0
  }

  function BlockEnd(ids: seq<u64>, i: nat): nat {
    if (i + 1) * BLOCK <= |ids| then (i + 1) * BLOCK else |ids|
  }

  /** The data of the first `i` blocks. */
  function Data(ids: seq<u64>, i: nat): bytes
  {
    if i == 0 then [] else Data(ids, i - 1) + Deltas(ids, (i - 1) * BLOCK, BlockEnd(ids, i - 1))
  }

  /** The table rows of the first `i` blocks: a u64 first id, a u32 offset into the data. */
  function Rows(ids: seq<u64>, i: nat): bytes
    requires i <= Blocks(|ids|)
  {
    if i == 0 then [] else
      Rows(ids, i - 1) + PutU64(ids[(i - 1) * BLOCK]) + PutU32(|Data(ids, i - 1)|)
  }

  function Encoded(ids: seq<u64>): bytes
  {
    var n := Blocks(|ids|);
    Varint(|ids|) + Varint(n) + Rows(ids, n) + Data(ids, n)
  }

  /** The source's block offsets are u32: what a list must fit in for its encoding to read
      back. */
  ghost predicate Fits(ids: seq<u64>)
  {
    Ascending(ids) && |Data(ids, Blocks(|ids|))| < TWO_32 && |ids| < TWO_64
  }

  lemma {:induction false} RowsLength(ids: seq<u64>, i: nat)
    requires i <= Blocks(|ids|)
    ensures |Rows(ids, i)| == 12 * i
  {
    if i > 0 { RowsLength(ids, i - 1); }
  }

  lemma {:induction false} RowAt(ids: seq<u64>, i: nat, n: nat)
    requires i < n <= Blocks(|ids|)
    ensures |Rows(ids, n)| == 12 * n
    ensures Rows(ids, n)[12 * i..12 * i + 8] == PutU64(ids[i * BLOCK])
    ensures Rows(ids, n)[12 * i + 8..12 * i + 12] == PutU32(|Data(ids, i)|)
    decreases n
  {
    hide Data, LE;
    var r := Rows(ids, n - 1);
    var first, off := PutU64(ids[(n - 1) * BLOCK]), PutU32(|Data(ids, n - 1)|);
    RowsLength(ids, n - 1);
    assert Rows(ids, n) == r + first + off;
    hide *;
    Middle(r, first, off);
    if i + 1 < n {
      RowAt(ids, i, n - 1);
      assert r + first + off == r + (first + off);
      PrefixSlice(r, first + off, 12 * i, 12 * i + 8);
      PrefixSlice(r, first + off, 12 * i + 8, 12 * i + 12);
    } else {
      assert 12 * i == |r|;
    }
  }

  lemma PrefixSlice(a: bytes, b: bytes, i: nat, j: nat)
    requires i <= j <= |a|
    ensures (a + b)[i..j] == a[i..j]
  {
  }

  lemma {:induction false} DataGrows(ids: seq<u64>, i: nat, n: nat)
    requires i <= n
    ensures |Data(ids, i)| <= |Data(ids, n)| && Data(ids, n)[..|Data(ids, i)|] == Data(ids, i)
    decreases n
  {
    if i < n {
      DataGrows(ids, i, n - 1);
      assert Data(ids, n)[..|Data(ids, n - 1)|] == Data(ids, n - 1);
    }
  }

  lemma DataStep(ids: seq<u64>, i: nat)
    ensures Data(ids, i + 1) == Data(ids, i) + Deltas(ids, i * BLOCK, BlockEnd(ids, i))
  {
  }

  lemma {:induction false} DeltasGrow(ids: seq<u64>, from: nat, k: nat, upto: nat)
    requires from <= k <= upto <= |ids|
    ensures |Deltas(ids, from, k)| <= |Deltas(ids, from, upto)|
    ensures Deltas(ids, from, upto)[..|Deltas(ids, from, k)|] == Deltas(ids, from, k)
    decreases upto
  {
    if k < upto {
      DeltasGrow(ids, from, k, upto - 1);
      assert Deltas(ids, from, upto)[..|Deltas(ids, from, upto - 1)|] == Deltas(ids, from, upto - 1);
    }
  }

  /** A list's data is at most ten bytes an id. */
  lemma {:induction false} DataLength(ids: seq<u64>, i: nat)
    ensures i * BLOCK <= |ids| ==> |Data(ids, i)| <= 10 * (i * BLOCK)
    ensures |Data(ids, i)| <= 10 * |ids|
  {
    if i > 0 {
      DataLength(ids, i - 1);
      if (i - 1) * BLOCK <= |ids| {
        DeltasLength(ids, (i - 1) * BLOCK, BlockEnd(ids, i - 1));
      }
    }
  }

  lemma {:induction false} DeltasLength(ids: seq<u64>, from: nat, upto: nat)
    requires from <= upto <= |ids|
    ensures |Deltas(ids, from, upto)| <= 10 * (upto - from)
    decreases upto
  {
    if upto > from + 1 {
      DeltasLength(ids, from, upto - 1);
      VarintLength(Delta(ids[upto - 2], ids[upto - 1]));
    }
  }

  lemma ShortListFits(ids: seq<u64>)
    requires Ascending(ids) && 10 * |ids| < TWO_32
    ensures Fits(ids)
  {
    DataLength(ids, Blocks(|ids|));
  }

  method EncodePostings(ids: seq<u64>, out: bytes) returns (r: bytes)
    requires Fits(ids)
    ensures r == out + Encoded(ids)
  {
    var nblocks := Blocks(|ids|);
    var data: bytes, table: bytes := [], [];
    for i := 0 to nblocks
      invariant data == Data(ids, i) && table == Rows(ids, i)
    {
      table := table + PutU64(ids[i * BLOCK]) + PutU32(|data|);
      var deltas := EncodeDeltas(ids, i * BLOCK, BlockEnd(ids, i));
      data := data + deltas;
    }
    r := AppendVarint(out, |ids|);
    r := AppendVarint(r, nblocks);
    r := r + table + data;
    Regroup(out, Varint(|ids|), Varint(nblocks), table, data);
  }

  lemma Regroup(out: bytes, a: bytes, b: bytes, c: bytes, d: bytes)
    ensures out + a + b + c + d == out + (a + b + c + d)
  {
  }

  /** The differences of neighbours (`windows(2)`). */
  method EncodeDeltas(ids: seq<u64>, from: nat, upto: nat) returns (data: bytes)
    requires from <= upto <= |ids| && Ascending(ids)
    ensures data == Deltas(ids, from, upto)
  {
    data := [];
    var j := from + 1;
    while j < upto
      invariant from + 1 <= j && (j <= upto || j == from + 1)
      invariant data == Deltas(ids, from, if j <= upto then j else upto)
    {
      assert ids[j - 1] < ids[j];
      data := AppendVarint(data, ids[j] - ids[j - 1]);
      j := j + 1;
    }
  }

  lemma SlicedFromPrefix(data: bytes, all: bytes, before: bytes, d: bytes)
    requires all <= data && |before + d| <= |all| && all[..|before + d|] == before + d
    ensures |before| + |d| <= |data| && data[|before|..|before| + |d|] == d
  {
    assert data[..|before + d|] == all[..|before + d|];
    assert data[|before|..|before| + |d|] == data[..|before + d|][|before|..];
  }

  // ---- What a walk down a set of ids is asked for ----

  ghost function Members(ids: seq<u64>): set<u64> {
    set x | x in ids
  }

  /** As many ids in the list as in the set. */
  lemma {:induction false} AscendingSize(s: seq<u64>)
    requires Ascending(s)
    ensures |Members(s)| == |s|
  {
    if s != [] {
      var k := |s| - 1;
      AscendingSize(s[..k]);
      assert s == s[..k] + [s[k]];
      assert s[k] !in s[..k];
      assert Members(s) == Members(s[..k]) + {s[k]};
    }
  }

  /** `r` is the predecessor of `below` among the ids. */
  ghost predicate IsPrev(ids: set<u64>, below: int, r: Option<u64>) {
    && (r.Some? ==> r.value in ids && r.value < below && forall x :: x in ids && x < below ==> x <= r.value)
    && (r.None? ==> forall x :: x in ids ==> below <= x)
  }

  // ---- Reading a list in place ----

  class Postings {
    const n: nat
    const nblocks: nat
    const table: bytes
    const data: bytes
    /** The list encoded here, for the contracts. */
    ghost const ids: seq<u64>
    var cached: Option<nat>
    var buf: seq<u64>

    constructor (n: nat, nblocks: nat, table: bytes, data: bytes, ghost ids: seq<u64>)
      ensures this.n == n && this.nblocks == nblocks && this.table == table && this.data == data
      ensures this.ids == ids && this.cached == None
    {
      this.n, this.nblocks, this.table, this.data, this.ids := n, nblocks, table, data, ids;
      cached, buf := None, [];
    }

    ghost predicate Holds() {
      && Fits(ids)
      && n == |ids| && nblocks == Blocks(n)
      && table == Rows(ids, nblocks)
      && Data(ids, nblocks) <= data
    }

    ghost predicate Valid()
      reads this
    {
      && Holds()
      && (cached.Some? ==>
            && cached.value < nblocks
            && cached.value * BLOCK <= BlockEnd(ids, cached.value) <= |ids|
            && buf == ids[cached.value * BLOCK..BlockEnd(ids, cached.value)])
    }

    function FirstOf(block: nat): u64 {
      match GetU64(table, block * 12)
      case Some((x, _)) => x
      case None => TWO_64 - 1
    }

    lemma FirstOfIs(block: nat)
      requires Holds() && block < nblocks
      ensures block * BLOCK < |ids| && FirstOf(block) == ids[block * BLOCK]
    {
      hide Rows, Data, LE, FromLE;
      RowAt(ids, block, nblocks);
      U64RoundTrip(ids[block * BLOCK]);
    }

    /** The ids of a block, read into the buffer. */
    method Load(i: nat)
      requires Valid() && i < nblocks
      modifies this
      ensures Valid() && cached == Some(i)
    {
      hide Rows, Data, Deltas, Digits, FromLE;
      if cached == Some(i) { return; }
      FirstOfIs(i);
      var count := if n - i * BLOCK < BLOCK then n - i * BLOCK else BLOCK;
      var id := FirstOf(i);
      BlockData(i);
      var off := GetU32(table, i * 12 + 8).value.0;
      ghost var from := i * BLOCK;
      var r := new Reader(data, off);
      NoDeltas(ids, from);
      buf := [id];
      var k := 1;
      while k < count
        invariant 1 <= k <= count
        invariant buf == ids[from..from + k] && id == ids[from + k - 1]
        invariant r.at == off + |Deltas(ids, from, from + k)|
        invariant cached == old(cached)
      {
        NextDelta(i, k, off);
        var d := r.Varint();
        if d.None? || d.value == 0 { assert false; break; }
        id := if id + d.value >= TWO_64 then TWO_64 - 1 else id + d.value;
        buf := buf + [id];
        k := k + 1;
      }
      cached := Some(i);
    }

    lemma NoDeltas(ids: seq<u64>, from: nat)
      requires from < |ids|
      ensures Deltas(ids, from, from + 1) == []
    {
    }

    /** Block `i`'s deltas begin where its row says. */
    lemma BlockData(i: nat)
      requires Holds() && i < nblocks
      ensures GetU32(table, i * 12 + 8) == Some((|Data(ids, i)|, i * 12 + 12))
      ensures var d := Deltas(ids, i * BLOCK, BlockEnd(ids, i));
              |Data(ids, i)| + |d| <= |data|
              && data[|Data(ids, i)|..|Data(ids, i)| + |d|] == d
    {
      hide Rows, Data, LE, FromLE, Deltas;
      RowAt(ids, i, nblocks);
      DataGrows(ids, i, nblocks);
      U32RoundTrip(|Data(ids, i)|);
      DataGrows(ids, i + 1, nblocks);
      DataStep(ids, i);
      SlicedFromPrefix(data, Data(ids, nblocks), Data(ids, i), Deltas(ids, i * BLOCK, BlockEnd(ids, i)));
    }

    /** After `k` ids of block `i` the next varint is the difference to the next id. */
    lemma NextDelta(i: nat, k: nat, off: nat)
      requires Holds() && i < nblocks && off == |Data(ids, i)|
      requires 1 <= k && i * BLOCK + k < BlockEnd(ids, i)
      ensures var from := i * BLOCK;
              var at := off + |Deltas(ids, from, from + k)|;
              var next := off + |Deltas(ids, from, from + k + 1)|;
              GetVarint(data, at) == Some((ids[from + k] - ids[from + k - 1], next))
    {
      hide Rows, Data, LE, FromLE, Varint, GetVarint;
      BlockData(i);
      var from, delta := i * BLOCK, ids[i * BLOCK + k] - ids[i * BLOCK + k - 1];
      var d := Deltas(ids, from, BlockEnd(ids, i));
      var a, b := Deltas(ids, from, from + k), Deltas(ids, from, from + k + 1);
      DeltasGrow(ids, from, from + k + 1, BlockEnd(ids, i));
      assert b == a + Codec.Varint(delta);
      hide Deltas;
      Nested(data, off, d, a, Codec.Varint(delta));
      VarintRoundTrip(data, off + |a|, delta);
    }

    /** The number of the block that holds `below`'s predecessor, whatever block the buffer
        holds. */
    method BlockBelow(below: u64) returns (b: Option<nat>)
      requires Valid()
      ensures b.None? ==> forall x :: x in ids ==> below <= x
      ensures b.Some? ==>
                && b.value < nblocks
                && ids[b.value * BLOCK] < below
                && (b.value + 1 < nblocks ==> below <= ids[(b.value + 1) * BLOCK])
    {
      hide Rows, Data, FromLE;
      if n == 0 { return None; }
      if cached.Some? && buf != [] && buf[0] < below {
        var c := cached.value;
        if c + 1 < nblocks { FirstOfIs(c + 1); }
        if c + 1 == nblocks || FirstOf(c + 1) >= below { return Some(c); }
      }
      var lo, hi := 0, nblocks;
      while lo < hi
        invariant 0 <= lo <= hi <= nblocks
        invariant lo > 0 ==> ids[(lo - 1) * BLOCK] < below
        invariant hi < nblocks ==> ids[hi * BLOCK] >= below
      {
        var mid := lo + (hi - lo) / 2;
        FirstOfIs(mid);
        if FirstOf(mid) < below {
          lo := mid + 1;
        } else {
          hi := mid;
        }
      }
      b := if lo == 0 then None else Some(lo - 1);
    }

    /** The predecessor of `below` in the list. */
    method Prev(below: u64) returns (r: Option<u64>)
      requires Valid()
      modifies this
      ensures Valid()
      ensures IsPrev(Members(ids), below, r)
    {
      hide Rows, Data;
      var b := BlockBelow(below);
      if b.None? { return None; }
      Load(b.value);
      var k := PartitionPoint(buf, (x: u64) => x < below);
      assert buf[0] == ids[b.value * BLOCK];
      if k == 0 { return None; }
      r := Some(buf[k - 1]);
      NoneBetween(b.value, k, below);
    }

    lemma NoneBetween(b: nat, k: nat, below: u64)
      requires Holds() && b < nblocks
      requires 1 <= k <= BlockEnd(ids, b) - b * BLOCK
      requires ids[b * BLOCK + k - 1] < below
      requires b + 1 < nblocks ==> below <= ids[(b + 1) * BLOCK]
      requires forall i :: b * BLOCK + k <= i < BlockEnd(ids, b) ==> below <= ids[i]
      ensures IsPrev(Members(ids), below, Some(ids[b * BLOCK + k - 1]))
    {
      hide Rows, Data;
      var at := b * BLOCK + k - 1;
      forall j | at < j < |ids| ensures below <= ids[j] {
        if j >= BlockEnd(ids, b) {
          assert b + 1 < nblocks;
          assert ids[(b + 1) * BLOCK] <= ids[j];
        }
      }
    }

    /** The whole list read. */
    method All() returns (out: seq<u64>)
      requires Valid()
      modifies this
      ensures Valid() && out == ids
    {
      hide Rows, Data;
      out := [];
      for i := 0 to nblocks
        invariant Valid()
        invariant i * BLOCK <= |ids| + BLOCK - 1
        invariant out == ids[..if i * BLOCK <= |ids| then i * BLOCK else |ids|]
      {
        Load(i);
        FirstOfIs(i);
        assert ids[..i * BLOCK] + ids[i * BLOCK..BlockEnd(ids, i)] == ids[..BlockEnd(ids, i)];
        out := out + buf;
      }
      assert out == ids;
    }
  }

  /** `section` has the encoding of `ids` at `off`. */
  ghost predicate EncodedAt(section: bytes, off: nat, ids: seq<u64>) {
    && Fits(ids)
    && off + |Encoded(ids)| <= |section|
    && section[off..off + |Encoded(ids)|] == Encoded(ids)
  }

  /** The list at `off`: for one that was encoded there, a reader of exactly its ids. */
  method Parse(section: bytes, off: nat, ghost ids: seq<u64>) returns (p: Postings?)
    requires off <= |section|
    ensures EncodedAt(section, off, ids) ==> p != null
    ensures p != null ==> fresh(p)
    ensures p != null && EncodedAt(section, off, ids) ==> p.ids == ids && p.Valid()
  {
    hide Rows, Data, Digits, Encoded;
    ghost var encoded := EncodedAt(section, off, ids);
    if encoded { PartsOfEncoding(section, off, ids); }
    var r := new Reader(section, off);
    var n := r.Varint();
    if n.None? { return null; }
    var nblocks := r.Varint();
    if nblocks.None? || nblocks.value != Blocks(n.value) { return null; }
    var table := r.Take(nblocks.value * 12);
    if table.None? { return null; }
    p := new Postings(n.value, nblocks.value, table.value, section[r.at..], ids);
  }

  lemma PartsOfEncoding(section: bytes, off: nat, ids: seq<u64>)
    requires EncodedAt(section, off, ids)
    ensures var n := Blocks(|ids|);
            var a := off + |Varint(|ids|)|;
            var b := a + |Varint(n)|;
            && GetVarint(section, off) == Some((|ids|, a))
            && GetVarint(section, a) == Some((n, b))
            && GetTake(section, b, n * 12) == Some((Rows(ids, n), b + n * 12))
            && Data(ids, n) <= section[b + n * 12..]
  {
    hide Rows, Data, Digits, Varint;
    var n := Blocks(|ids|);
    var v, w, t, d := Varint(|ids|), Varint(n), Rows(ids, n), Data(ids, n);
    var e := Encoded(ids);
    RowsLength(ids, n);
    FourParts(section, off, v, w, t, d);
    VarintRoundTrip(section, off, |ids|);
    VarintRoundTrip(section, off + |v|, n);
  }

  lemma FourParts(s: bytes, off: nat, v: bytes, w: bytes, t: bytes, d: bytes)
    requires off + |v + w + t + d| <= |s| && s[off..off + |v + w + t + d|] == v + w + t + d
    ensures s[off..off + |v|] == v
    ensures s[off + |v|..off + |v| + |w|] == w
    ensures s[off + |v| + |w|..off + |v| + |w| + |t|] == t
    ensures d <= s[off + |v| + |w| + |t|..]
  {
    var e := v + w + t + d;
    SubSlice(s, off, off + |e|, 0, |v|);
    SubSlice(s, off, off + |e|, |v|, |v| + |w|);
    SubSlice(s, off, off + |e|, |v| + |w|, |v| + |w| + |t|);
    SubSlice(s, off, off + |e|, |v| + |w| + |t|, |e|);
    assert e[..|v|] == v && e[|v|..|v| + |w|] == w;
    assert e[|v| + |w|..|v| + |w| + |t|] == t && e[|v| + |w| + |t|..] == d;
  }

  /** What is read at the encoding of a list is that list, whatever surrounds it. */
  method RoundTrip(section: bytes, at: nat, ghost ids: seq<u64>) returns (out: seq<u64>)
    requires EncodedAt(section, at, ids)
    ensures out == ids
  {
    hide Encoded;
    var p := Parse(section, at, ids);
    out := p.All();
  }
}
