/** Orders, sorting and the merge of sorted inputs (clip/src/segment.rs, kmerge). */
module Order {

  ghost predicate Total<T(!new)>(le: (T, T) -> bool) {
    && (forall x, y :: le(x, y) || le(y, x))
    && (forall x, y :: le(x, y) && le(y, x) ==> x == y)
    && (forall x, y, z :: le(x, y) && le(y, z) ==> le(x, z))
  }

  ghost predicate Sorted<T>(s: seq<T>, le: (T, T) -> bool) {
    forall i, j :: 0 <= i < j < |s| ==> le(s[i], s[j])
  }

  ghost predicate Ascending(s: seq<int>) {
    forall i, j :: 0 <= i < j < |s| ==> s[i] < s[j]
  }

  // ---- Sorting: what `sort_unstable` promises ----

  function Insert<T>(x: T, s: seq<T>, le: (T, T) -> bool): (r: seq<T>)
    ensures multiset(r) == multiset{x} + multiset(s)
  {
    if s == [] then [x]
    else if le(x, s[0]) then [x] + s
    else
      assert s == [s[0]] + s[1..];
      [s[0]] + Insert(x, s[1..], le)
  }

  function Sort<T>(s: seq<T>, le: (T, T) -> bool): (r: seq<T>)
    ensures multiset(r) == multiset(s)
    ensures |r| == |s|
  {
    if s == [] then [] else
      assert s == [s[0]] + s[1..];
      var r := Insert(s[0], Sort(s[1..], le), le);
      SameSize(r, s);
      r
  }

  lemma SameSize<T>(a: seq<T>, b: seq<T>)
    requires multiset(a) == multiset(b)
    ensures |a| == |b|
  {
    assert |multiset(a)| == |multiset(b)|;
  }

  lemma {:induction false} InsertSorted<T(!new)>(x: T, s: seq<T>, le: (T, T) -> bool)
    requires Total(le) && Sorted(s, le)
    ensures Sorted(Insert(x, s, le), le)
  {
    if s != [] && !le(x, s[0]) {
      InsertSorted(x, s[1..], le);
      var r := Insert(x, s[1..], le);
      forall y | y in r ensures le(s[0], y) {
        assert y in multiset(r);
        assert y == x || y in s[1..];
      }
    } else if s != [] {
      forall i | 0 <= i < |s| ensures le(x, s[i]) {
        assert le(s[0], s[i]);
      }
    }
  }

  lemma {:induction false} SortSorts<T(!new)>(s: seq<T>, le: (T, T) -> bool)
    requires Total(le)
    ensures Sorted(Sort(s, le), le)
  {
    if s != [] {
      SortSorts(s[1..], le);
      InsertSorted(s[0], Sort(s[1..], le), le);
    }
  }

  lemma FirstIsLeast<T(!new)>(s: seq<T>, x: T, le: (T, T) -> bool)
    requires Total(le) && Sorted(s, le) && x in multiset(s)
    ensures s != [] && le(s[0], x)
  {
    var k :| 0 <= k < |s| && s[k] == x;
  }

  /** A sorted arrangement is unique. */
  lemma {:induction false} SortedUnique<T(!new)>(a: seq<T>, b: seq<T>, le: (T, T) -> bool)
    requires Total(le) && Sorted(a, le) && Sorted(b, le)
    requires multiset(a) == multiset(b)
    ensures a == b
  {
    SameSize(a, b);
    if a != [] {
      FirstIsLeast(a, b[0], le);
      FirstIsLeast(b, a[0], le);
      assert a == [a[0]] + a[1..];
      assert b == [b[0]] + b[1..];
      assert multiset(a[1..]) == multiset(a) - multiset{a[0]};
      assert multiset(b[1..]) == multiset(b) - multiset{b[0]};
      SortedUnique(a[1..], b[1..], le);
    }
  }

  // ---- kmerge ----

  ghost function Sum<T>(its: seq<seq<T>>): multiset<T> {
    if its == [] then multiset{} else multiset(its[0]) + Sum(its[1..])
  }

  lemma {:induction false} SumWithoutHead<T>(its: seq<seq<T>>, i: nat)
    requires i < |its| && its[i] != []
    ensures Sum(its) == Sum(its[i := its[i][1..]]) + multiset{its[i][0]}
  {
    var less := its[i := its[i][1..]];
    assert its[i] == [its[i][0]] + its[i][1..];
    if i == 0 {
      assert less[1..] == its[1..];
    } else {
      SumWithoutHead(its[1..], i - 1);
      assert less[1..] == its[1..][i - 1 := its[i][1..]];
    }
  }

  lemma {:induction false} SumOfNothing<T>(its: seq<seq<T>>)
    requires forall i :: 0 <= i < |its| ==> its[i] == []
    ensures Sum(its) == multiset{}
  {
    if its != [] { SumOfNothing(its[1..]); }
  }

  lemma {:induction false} SumMember<T>(its: seq<seq<T>>, x: T)
    ensures x in Sum(its) <==> exists i :: 0 <= i < |its| && x in its[i]
  {
    if its != [] {
      SumMember(its[1..], x);
      if x in Sum(its[1..]) {
        var i :| 0 <= i < |its[1..]| && x in its[1..][i];
        assert x in its[i + 1];
      }
      if exists i :: 0 <= i < |its| && x in its[i] {
        var i :| 0 <= i < |its| && x in its[i];
        if i > 0 { assert x in its[1..][i - 1]; }
      }
    }
  }

  ghost function Heads<T>(heap: seq<(T, nat)>): multiset<T> {
    if heap == [] then multiset{} else multiset{heap[0].0} + Heads(heap[1..])
  }

  lemma {:induction false} HeadsPushed<T>(heap: seq<(T, nat)>, x: (T, nat))
    ensures Heads(heap + [x]) == Heads(heap) + multiset{x.0}
  {
    if heap == [] {
      assert heap + [x] == [x];
    } else {
      HeadsPushed(heap[1..], x);
      assert (heap + [x])[1..] == heap[1..] + [x];
    }
  }

  lemma {:induction false} HeadsPopped<T>(heap: seq<(T, nat)>, k: nat)
    requires k < |heap|
    ensures Heads(heap) == Heads(heap[..k] + heap[k + 1..]) + multiset{heap[k].0}
  {
    if k == 0 {
      assert heap[..k] + heap[k + 1..] == heap[1..];
    } else {
      var tail, popped := heap[1..], heap[..k] + heap[k + 1..];
      assert popped[0] == heap[0] && popped[1..] == tail[..k - 1] + tail[k..];
      assert Heads(popped) == multiset{heap[0].0} + Heads(tail[..k - 1] + tail[k..]);
      assert Heads(heap) == multiset{heap[0].0} + Heads(tail);
      hide *;
      HeadsPopped(tail, k - 1);
    }
  }

  /** The heap's pop: the least pair, the lower input first among equals. */
  method Least<T(==, !new)>(heap: seq<(T, nat)>, le: (T, T) -> bool) returns (k: nat)
    requires heap != [] && Total(le)
    ensures k < |heap| && forall j :: 0 <= j < |heap| ==> le(heap[k].0, heap[j].0)
  {
    k := 0;
    for j := 1 to |heap|
      invariant k < j
      invariant forall i :: 0 <= i < j ==> le(heap[k].0, heap[i].0)
    {
      if le(heap[j].0, heap[k].0) && (heap[j].0 != heap[k].0 || heap[j].1 < heap[k].1) {
        k := j;
      }
    }
  }

  /** What is still to come from input `i` is in `rest[i]`, sorted, and its next item in
      the heap unless it ran out. */
  ghost predicate HeapHolds<T>(heap: seq<(T, nat)>, rest: seq<seq<T>>, le: (T, T) -> bool) {
    && (forall i :: 0 <= i < |rest| ==> Sorted(rest[i], le))
    && (forall h :: h in heap ==> Bounds(h, rest, le))
    && (forall i :: 0 <= i < |rest| && rest[i] != [] ==> Waits(heap, i))
  }

  ghost predicate Bounds<T>(h: (T, nat), rest: seq<seq<T>>, le: (T, T) -> bool) {
    h.1 < |rest| && forall y :: y in rest[h.1] ==> le(h.0, y)
  }

  ghost predicate Waits<T>(heap: seq<(T, nat)>, i: nat) {
    exists j :: 0 <= j < |heap| && heap[j].1 == i
  }

  /** Input `i`'s next item, if there is one, put on the heap. */
  method Refill<T(==, !new)>(heap: seq<(T, nat)>, rest: seq<seq<T>>, i: nat, le: (T, T) -> bool)
    returns (heap': seq<(T, nat)>, rest': seq<seq<T>>)
    requires i < |rest| && Total(le)
    requires forall j :: 0 <= j < |rest| ==> Sorted(rest[j], le)
    requires forall h :: h in heap ==> Bounds(h, rest, le)
    ensures |rest'| == |rest| && forall j :: 0 <= j < |rest| && j != i ==> rest'[j] == rest[j]
    ensures forall j :: 0 <= j < |rest| ==> Sorted(rest'[j], le)
    ensures forall h :: h in heap' ==> Bounds(h, rest', le)
    ensures forall h :: h in heap' ==> h in heap || h.0 in rest[i]
    ensures rest'[i] != [] ==> Waits(heap', i)
    ensures forall j :: Waits(heap, j) ==> Waits(heap', j)
    ensures Heads(heap') + Sum(rest') == Heads(heap) + Sum(rest)
    ensures |Sum(rest')| <= |Sum(rest)|
    ensures |heap'| + |Sum(rest')| == |heap| + |Sum(rest)|
  {
    if rest[i] == [] {
      return heap, rest;
    }
    var x := rest[i][0];
    HeadsPushed(heap, (x, i));
    SumWithoutHead(rest, i);
    PushKeeps(heap, rest, i, le);
    hide *;
    rest' := rest[i := rest[i][1..]];
    heap' := heap + [(x, i)];
  }

  lemma PushKeeps<T(!new)>(heap: seq<(T, nat)>, rest: seq<seq<T>>, i: nat, le: (T, T) -> bool)
    requires i < |rest| && rest[i] != [] && Total(le)
    requires forall j :: 0 <= j < |rest| ==> Sorted(rest[j], le)
    requires forall h :: h in heap ==> Bounds(h, rest, le)
    ensures var heap', rest' := heap + [(rest[i][0], i)], rest[i := rest[i][1..]];
            && (forall j :: 0 <= j < |rest| ==> Sorted(rest'[j], le))
            && (forall h :: h in heap' ==> Bounds(h, rest', le))
            && (forall j :: j == i || Waits(heap, j) ==> Waits(heap', j))
  {
    var heap', rest' := heap + [(rest[i][0], i)], rest[i := rest[i][1..]];
    assert heap'[|heap|] == (rest[i][0], i);
    forall h | h in heap' ensures Bounds(h, rest', le) {
      if h in heap { assert Bounds(h, rest, le); }
    }
    forall j | Waits(heap, j) ensures Waits(heap', j) {
      var k :| 0 <= k < |heap| && heap[k].1 == j;
      assert heap'[k].1 == j;
    }
  }

  lemma SortedAppend<T(!new)>(s: seq<T>, x: T, le: (T, T) -> bool)
    requires Total(le) && Sorted(s, le)
    requires s != [] ==> le(s[|s| - 1], x)
    ensures Sorted(s + [x], le)
  {
  }

  /** Every input's first item on the heap. */
  method Fill<T(==, !new)>(its: seq<seq<T>>, le: (T, T) -> bool)
    returns (heap: seq<(T, nat)>, rest: seq<seq<T>>)
    requires Total(le)
    requires forall i :: 0 <= i < |its| ==> Sorted(its[i], le)
    ensures HeapHolds(heap, rest, le)
    ensures Heads(heap) + Sum(rest) == Sum(its)
  {
    heap, rest := [], its;
    for i := 0 to |its|
      invariant |rest| == |its|
      invariant forall j :: 0 <= j < |rest| ==> Sorted(rest[j], le)
      invariant forall h :: h in heap ==> Bounds(h, rest, le)
      invariant forall j :: 0 <= j < i && rest[j] != [] ==> Waits(heap, j)
      invariant Heads(heap) + Sum(rest) == Sum(its)
    {
      heap, rest := Refill(heap, rest, i, le);
    }
  }

  /** The least item taken, the input it came from asked for its next one. */
  method Pop<T(==, !new)>(heap: seq<(T, nat)>, rest: seq<seq<T>>, le: (T, T) -> bool)
    returns (x: T, heap': seq<(T, nat)>, rest': seq<seq<T>>)
    requires heap != [] && Total(le) && HeapHolds(heap, rest, le)
    ensures HeapHolds(heap', rest', le)
    ensures Heads(heap') + Sum(rest') + multiset{x} == Heads(heap) + Sum(rest)
    ensures |heap'| + |Sum(rest')| < |heap| + |Sum(rest)|
    ensures exists h :: h in heap && h.0 == x
    ensures forall h :: h in heap' ==> le(x, h.0)
  {
    var k := Least(heap, le);
    var i := heap[k].1;
    x := heap[k].0;
    HeadsPopped(heap, k);
    var popped := heap[..k] + heap[k + 1..];
    PopKeeps(heap, k, rest, le);
    assert heap[k] in heap && Bounds(heap[k], rest, le);
    heap', rest' := Refill(popped, rest, i, le);
    forall h | h in heap' ensures le(x, h.0) {
      assert h in popped || h.0 in rest[i];
    }
  }

  /** Sorted inputs merged into one sorted output with exactly their items. */
  method KMerge<T(==, !new)>(its: seq<seq<T>>, le: (T, T) -> bool) returns (out: seq<T>)
    requires Total(le)
    requires forall i :: 0 <= i < |its| ==> Sorted(its[i], le)
    ensures Sorted(out, le)
    ensures multiset(out) == Sum(its)
  {
    hide HeapHolds, Heads, Sum;
    var heap, rest := Fill(its, le);
    out := [];
    while heap != []
      invariant HeapHolds(heap, rest, le)
      invariant multiset(out) + (Heads(heap) + Sum(rest)) == Sum(its)
      invariant Sorted(out, le)
      invariant out != [] ==> forall h :: h in heap ==> le(out[|out| - 1], h.0)
      decreases |heap| + |Sum(rest)|
    {
      ghost var was := Heads(heap) + Sum(rest);
      var x, heap', rest' := Pop(heap, rest, le);
      SortedAppend(out, x, le);
      MovedOver(out, x, was, Heads(heap') + Sum(rest'));
      out, heap, rest := out + [x], heap', rest';
    }
    NothingLeft(rest, le);
  }

  lemma NothingLeft<T>(rest: seq<seq<T>>, le: (T, T) -> bool)
    requires HeapHolds([], rest, le)
    ensures Heads<T>([]) + Sum(rest) == multiset{}
  {
    forall i | 0 <= i < |rest| ensures rest[i] == [] {
      assert rest[i] != [] ==> Waits<T>([], i);
    }
    SumOfNothing(rest);
  }

  lemma MovedOver<T>(out: seq<T>, x: T, was: multiset<T>, left: multiset<T>)
    requires left + multiset{x} == was
    ensures multiset(out + [x]) + left == multiset(out) + was
  {
  }

  lemma PopKeeps<T(!new)>(heap: seq<(T, nat)>, k: nat, rest: seq<seq<T>>, le: (T, T) -> bool)
    requires k < |heap| && HeapHolds(heap, rest, le)
    requires forall j :: 0 <= j < |heap| ==> le(heap[k].0, heap[j].0)
    ensures var popped := heap[..k] + heap[k + 1..];
            && (forall h :: h in popped ==> h in heap && Bounds(h, rest, le) && le(heap[k].0, h.0))
            && (forall i :: 0 <= i < |rest| && rest[i] != [] && i != heap[k].1 ==> Waits(popped, i))
  {
    var popped := heap[..k] + heap[k + 1..];
    forall i | 0 <= i < |rest| && rest[i] != [] && i != heap[k].1 ensures Waits(popped, i) {
      assert Waits(heap, i);
      var j :| 0 <= j < |heap| && heap[j].1 == i;
      assert popped[if j < k then j else j - 1] == heap[j];
    }
  }

  lemma PickedSorted<T(!new)>(s: seq<T>, out: seq<T>, from: seq<nat>, le: (T, T) -> bool)
    requires Sorted(s, le) && |from| == |out|
    requires forall k :: 0 <= k < |from| ==> from[k] < |s| && out[k] == s[from[k]]
    requires forall k, l :: 0 <= k < l < |from| ==> from[k] < from[l]
    ensures Sorted(out, le)
  {
  }

  /** The items `keep` is true of, in their order. */
  method Filter<T(==, !new)>(s: seq<T>, keep: T -> bool, ghost le: (T, T) -> bool) returns (out: seq<T>)
    requires Sorted(s, le)
    ensures Sorted(out, le)
    ensures forall x :: multiset(out)[x] == if keep(x) then multiset(s)[x] else 0
  {
    hide Sorted;
    out := [];
    ghost var from: seq<nat> := [];
    for i := 0 to |s|
      invariant |from| == |out|
      invariant forall k :: 0 <= k < |from| ==> from[k] < i && out[k] == s[from[k]]
      invariant forall k, l :: 0 <= k < l < |from| ==> from[k] < from[l]
      invariant forall x :: multiset(out)[x] == if keep(x) then multiset(s[..i])[x] else 0
    {
      assert s[..i + 1] == s[..i] + [s[i]];
      if keep(s[i]) {
        out := out + [s[i]];
        from := from + [i];
      }
    }
    assert s[..|s|] == s;
    PickedSorted(s, out, from, le);
  }
}
