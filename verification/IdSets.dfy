/** Sets of ids walked down and intersected by leapfrogging (clip/src/query.rs). */
module IdSets {
  import opened Wrappers
  import opened Codec
  import opened Order
  import opened PostingLists

  /** A row of a segment's locations: an entry's id, where its blob is, how long it is. */
  datatype Loc = Loc(id: u64, off: nat, len: nat)

  /** The four implementations of the source's trait. */
  datatype IdSet =
    | List(list: Postings)
    | Slice(ids: seq<u64>)
    | Locs(rows: seq<Loc>)
    | Union(sets: seq<IdSet>)

  ghost predicate LocsAscend(rows: seq<Loc>) {
    forall i, j :: 0 <= i < j < |rows| ==> rows[i].id < rows[j].id
  }

  ghost predicate WellFormed(s: IdSet) {
    match s
    case List(_) => true
    case Slice(ids) => Ascending(ids)
    case Locs(rows) => LocsAscend(rows)
    case Union(sets) => forall i :: 0 <= i < |sets| ==> WellFormed(sets[i])
  }

  ghost function Ids(s: IdSet): set<u64> {
    match s
    case List(list) => Members(list.ids)
    case Slice(ids) => Members(ids)
    case Locs(rows) => set i | 0 <= i < |rows| :: rows[i].id
    case Union(sets) => IdsOfAny(sets, |sets|)
  }

  ghost function IdsOfAny(sets: seq<IdSet>, n: nat): set<u64>
    requires n <= |sets|
    decreases sets, n
  {
    if n == 0 then {} else IdsOfAny(sets, n - 1) + Ids(sets[n - 1])
  }

  /** The lists read in place under a set: what a walk changes. */
  ghost function Lists(s: IdSet): set<Postings> {
    match s
    case List(list) => {list}
    case Slice(_) => {}
    case Locs(_) => {}
    case Union(sets) => set i, p | 0 <= i < |sets| && p in Lists(sets[i]) :: p
  }

  ghost predicate AllValid(lists: set<Postings>)
    reads lists
  {
    forall p :: p in lists ==> p.Valid()
  }

  /** An estimate: it only orders the leapfrog. */
  function Size(s: IdSet): nat {
    match s
    case List(list) => list.n
    case Slice(ids) => |ids|
    case Locs(rows) => |rows|
    case Union(sets) => SizeSum(sets)
  }

  function SizeSum(sets: seq<IdSet>): nat {
    if sets == [] then 0 else Size(sets[0]) + SizeSum(sets[1..])
  }

  /** Never less than there are, and for all but a union as many. */
  lemma {:induction false} SizeCounts(s: IdSet)
    requires WellFormed(s) && forall p :: p in Lists(s) ==> p.Holds()
    ensures |Ids(s)| <= Size(s) && (!s.Union? ==> |Ids(s)| == Size(s))
    decreases s
  {
    match s
    case List(list) =>
      assert list in Lists(s);
      AscendingSize(list.ids);
    case Slice(ids) => AscendingSize(ids);
    case Locs(rows) =>
      var ids := seq(|rows|, i requires 0 <= i < |rows| => rows[i].id);
      assert forall i :: 0 <= i < |rows| ==> ids[i] == rows[i].id && ids[i] in Members(ids);
      assert Ids(s) == Members(ids);
      AscendingSize(ids);
    case Union(sets) =>
      UnionCounts(sets, |sets|);
      assert sets[..|sets|] == sets;
  }

  lemma {:induction false} UnionCounts(sets: seq<IdSet>, n: nat)
    requires n <= |sets| && forall i :: 0 <= i < |sets| ==> WellFormed(sets[i])
    requires forall i, p :: 0 <= i < |sets| && p in Lists(sets[i]) ==> p.Holds()
    ensures |IdsOfAny(sets, n)| <= SizeSum(sets[..n])
    decreases sets, n
  {
    hide Size, Ids, Lists, WellFormed;
    if n > 0 {
      UnionCounts(sets, n - 1);
      SizeCounts(sets[n - 1]);
      SumEnds(sets[..n]);
      assert sets[..n][..n - 1] == sets[..n - 1];
      var a, b := IdsOfAny(sets, n - 1), Ids(sets[n - 1]);
      assert |a + b| <= |a| + |b|;
    }
  }

  lemma {:induction false} SumEnds(sets: seq<IdSet>)
    requires sets != []
    ensures SizeSum(sets) == SizeSum(sets[..|sets| - 1]) + Size(sets[|sets| - 1])
  {
    hide Size;
    var k := |sets| - 1;
    if k > 0 {
      SumEnds(sets[1..]);
      assert sets[1..][..k - 1] == sets[..k][1..];
    } else {
      assert sets[..0] == [] && sets[1..] == [];
    }
  }

  /** The predecessor of `below` in a set of any kind. */
  method Prev(s: IdSet, below: u64, ghost lists: set<Postings>) returns (r: Option<u64>)
    requires WellFormed(s) && Lists(s) <= lists && AllValid(lists)
    modifies lists
    ensures AllValid(lists)
    ensures IsPrev(Ids(s), below, r)
    decreases s
  {
    match s
    case List(list) =>
      r := list.Prev(below);
    case Slice(ids) =>
      var k := PartitionPoint(ids, (x: u64) => x < below);
      if k == 0 { return None; }
      assert ids[k - 1] in ids;
      r := Some(ids[k - 1]);
    case Locs(rows) =>
      var k := PartitionPoint(rows, (x: Loc) => x.id < below);
      if k == 0 { return None; }
      r := Some(rows[k - 1].id);
    case Union(sets) =>
      r := None;
      for i := 0 to |sets|
        invariant AllValid(lists)
        invariant IsPrev(IdsOfAny(sets, i), below, r)
      {
        assert Lists(sets[i]) <= Lists(s);
        var x := Prev(sets[i], below, lists);
        LargerPrev(IdsOfAny(sets, i), Ids(sets[i]), below, r, x);
        r := if r.None? || (x.Some? && x.value > r.value) then x else r;
      }
  }

  lemma LargerPrev(a: set<u64>, b: set<u64>, below: u64, r: Option<u64>, x: Option<u64>)
    requires IsPrev(a, below, r) && IsPrev(b, below, x)
    ensures IsPrev(a + b, below, if r.None? || (x.Some? && x.value > r.value) then x else r)
  {
  }

  ghost predicate InAll(sets: seq<IdSet>, x: int) {
    forall i :: 0 <= i < |sets| ==> x in Ids(sets[i])
  }

  ghost function AllLists(sets: seq<IdSet>): set<Postings> {
    set i, p | 0 <= i < |sets| && p in Lists(sets[i]) :: p
  }

  /** The set asked `j` sets before the one asked next. */
  function Back(i: nat, j: nat, k: nat): nat
    requires i < k && j < k
  {
    if i > j then i - 1 - j else i + k - 1 - j
  }

  /** The greatest id in every one of `sets`, below `below` and not below `floor`; None
      exactly when there is none. */
  method Leapfrog(sets: seq<IdSet>, below: u64, floor: u64, ghost lists: set<Postings>)
    returns (r: Option<u64>)
    requires forall i :: 0 <= i < |sets| ==> WellFormed(sets[i])
    requires AllLists(sets) <= lists && AllValid(lists)
    modifies lists
    ensures AllValid(lists)
    ensures sets == [] ==> r.None?
    ensures r.Some? ==> InAll(sets, r.value) && floor <= r.value < below
    ensures r.Some? ==> forall x :: InAll(sets, x) && x < below ==> x <= r.value
    ensures r.None? && sets != [] ==> forall x :: InAll(sets, x) && x < below ==> x < floor
  {
    hide Ids, Lists, WellFormed, AllLists, AllValid, Agreed, Bound, IsPrev;
    if sets == [] { return None; }
    var k := |sets|;
    SetLists(sets, 0);
    var first := Prev(sets[0], below, lists);
    Fall(sets, 0, below, below, first);
    if first.None? { return None; }
    var c: u64 := first.value;
    var agree: nat := 1;
    var i: nat := 1 % k;
    while agree < k
      invariant i < k && 1 <= agree <= k
      invariant c < below && Bound(sets, below, c)
      invariant Agreed(sets, c, i, agree)
      invariant AllValid(lists)
      decreases c, k - agree
    {
      if c < floor {
        NothingAbove(sets, below, c);
        return None;
      }
      SetLists(sets, i);
      var x := Prev(sets[i], if c + 1 < TWO_64 then c + 1 else c, lists);
      Fall(sets, i, below, c + 1, x);
      if x.None? { return None; }
      StillAgreed(sets, c, i, agree, x.value);
      if x.value == c {
        agree := agree + 1;
      } else {
        c := x.value;
        agree := 1;
      }
      i := (i + 1) % k;
    }
    AllAgreed(sets, c, i);
    NothingAbove(sets, below, c);
    r := if c >= floor then Some(c) else None;
  }

  /** The `agree` sets asked last have the candidate `c`. */
  ghost predicate Agreed(sets: seq<IdSet>, c: u64, i: nat, agree: nat) {
    i < |sets| && agree <= |sets| && forall j :: 0 <= j < agree ==> c in Ids(sets[Back(i, j, |sets|)])
  }

  ghost predicate Bound(sets: seq<IdSet>, below: int, c: int) {
    forall x :: InAll(sets, x) && x < below ==> x <= c
  }

  lemma NothingAbove(sets: seq<IdSet>, below: int, c: int)
    requires Bound(sets, below, c)
    ensures forall x :: InAll(sets, x) && x < below ==> x <= c
  {
  }

  /** The candidate falls to the next set's greatest id not above it. */
  lemma Fall(sets: seq<IdSet>, i: nat, below: int, above: int, x: Option<u64>)
    requires i < |sets| && IsPrev(Ids(sets[i]), above, x)
    requires above == below || Bound(sets, below, above - 1)
    ensures x.Some? ==> x.value in Ids(sets[i]) && x.value < above && Bound(sets, below, x.value)
    ensures x.Some? ==> Agreed(sets, x.value, if i + 1 == |sets| then 0 else i + 1, 1)
    ensures x.None? ==> forall y :: InAll(sets, y) ==> y >= below
  {
    hide Ids;
    assert forall y :: InAll(sets, y) ==> y in Ids(sets[i]);
  }

  lemma StillAgreed(sets: seq<IdSet>, c: u64, i: nat, agree: nat, x: u64)
    requires Agreed(sets, c, i, agree) && agree < |sets| && x in Ids(sets[i])
    ensures (i + 1) % |sets| == if i + 1 == |sets| then 0 else i + 1
    ensures x == c ==> Agreed(sets, c, (i + 1) % |sets|, agree + 1)
  {
    hide Ids;
    var k := |sets|;
    var next := if i + 1 == k then 0 else i + 1;
    assert Back(next, 0, k) == i;
    if x == c {
      forall j | 0 <= j < agree + 1 ensures c in Ids(sets[Back(next, j, k)]) {
        if j > 0 { assert Back(next, j, k) == Back(i, j - 1, k); }
      }
    }
  }

  lemma AllAgreed(sets: seq<IdSet>, c: u64, i: nat)
    requires Agreed(sets, c, i, |sets|)
    ensures InAll(sets, c)
  {
    hide Ids;
    forall t | 0 <= t < |sets| ensures c in Ids(sets[t]) {
      var j: nat := if t < i then i - 1 - t else i + |sets| - 1 - t;
      assert Back(i, j, |sets|) == t;
    }
  }

  lemma SetLists(sets: seq<IdSet>, i: nat)
    requires i < |sets|
    ensures Lists(sets[i]) <= AllLists(sets)
  {
  }

  /** `sort_by_key(len)`: the shorter sets are asked first. */
  method SortBySize(sets: seq<IdSet>) returns (r: seq<IdSet>)
    ensures multiset(r) == multiset(sets)
    ensures forall i, j :: 0 <= i < j < |r| ==> Size(r[i]) <= Size(r[j])
  {
    r := [];
    for i := 0 to |sets|
      invariant multiset(r) == multiset(sets[..i])
      invariant forall a, b :: 0 <= a < b < |r| ==> Size(r[a]) <= Size(r[b])
    {
      hide Size;
      assert sets[..i + 1] == sets[..i] + [sets[i]];
      r := InsertBySize(r, sets[i]);
    }
    assert sets[..|sets|] == sets;
  }

  method InsertBySize(s: seq<IdSet>, x: IdSet) returns (r: seq<IdSet>)
    requires forall i, j :: 0 <= i < j < |s| ==> Size(s[i]) <= Size(s[j])
    ensures multiset(r) == multiset(s) + multiset{x}
    ensures forall i, j :: 0 <= i < j < |r| ==> Size(r[i]) <= Size(r[j])
  {
    hide Size;
    var k := |s|;
    while k > 0 && Size(x) < Size(s[k - 1])
      invariant 0 <= k <= |s|
      invariant forall i :: k <= i < |s| ==> Size(x) < Size(s[i])
    {
      k := k - 1;
    }
    InsertAt(s, k, x);
    r := s[..k] + [x] + s[k..];
    assert k > 0 ==> Size(s[k - 1]) <= Size(x);
  }

  lemma InsertAt(s: seq<IdSet>, k: nat, x: IdSet)
    requires k <= |s|
    ensures multiset(s[..k] + [x] + s[k..]) == multiset(s) + multiset{x}
  {
    assert s == s[..k] + s[k..];
  }

  /** The order the sets are asked in changes nothing. */
  lemma SameSets(a: seq<IdSet>, b: seq<IdSet>)
    requires multiset(a) == multiset(b)
    ensures forall x :: InAll(a, x) <==> InAll(b, x)
    ensures AllLists(a) == AllLists(b)
    ensures |a| == |b|
    ensures (forall i :: 0 <= i < |a| ==> WellFormed(a[i])) ==> forall i :: 0 <= i < |b| ==> WellFormed(b[i])
  {
    SameSize(a, b);
    SameSetsOneWay(a, b);
    SameSetsOneWay(b, a);
  }

  lemma SameSetsOneWay(a: seq<IdSet>, b: seq<IdSet>)
    requires multiset(a) == multiset(b)
    ensures forall x :: InAll(a, x) ==> InAll(b, x)
    ensures AllLists(b) <= AllLists(a)
    ensures (forall i :: 0 <= i < |a| ==> WellFormed(a[i])) ==> forall i :: 0 <= i < |b| ==> WellFormed(b[i])
  {
    forall i | 0 <= i < |b| ensures exists j :: 0 <= j < |a| && a[j] == b[i] {
      assert b[i] in multiset(b);
      assert b[i] in a;
    }
  }
}
