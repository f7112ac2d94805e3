/** The bytes under the store (clip/src/codec.rs): fixed-width integers, base-128 varints
    and a cursor that refuses to read past the end. Each encoder and each cursor
    step is proved against a function, and the functions against one another. */
module Codec {
  import opened Wrappers

  type byte = i: int | 0 <= i < 256
  type bytes = seq<byte>
  const TWO_32: int := 0x1_0000_0000
  const TWO_63: int := 0x8000_0000_0000_0000
  const TWO_64: int := 0x1_0000_0000_0000_0000

  type u32 = i: int | 0 <= i < TWO_32
  type u64 = i: int | 0 <= i < TWO_64
  type i64 = i: int | -TWO_63 <= i < TWO_63

  // ---- Slices of concatenations ----

  lemma Middle(a: bytes, b: bytes, c: bytes)
    ensures (a + b + c)[|a|..|a| + |b|] == b
    ensures (a + b + c)[|a| + |b|..] == c
    ensures |a + b + c| == |a| + |b| + |c|
  {
  }

  lemma SubSlice(s: bytes, from: nat, upto: nat, i: nat, j: nat)
    requires from <= upto <= |s| && i <= j <= upto - from
    ensures s[from..upto][i..j] == s[from + i..from + j]
  {
    hide LE;
    var t := s[from..upto];
    assert forall k :: i <= k < j ==> t[k] == s[from + k];
  }

  /** `x` is in the bytes at `at`. */
  ghost predicate IsAt(b: bytes, at: nat, x: bytes) {
    at + |x| <= |b| && b[at..at + |x|] == x
  }

  /** Parts written one after another, each where it should be. */
  lemma TwoParts(b: bytes, at: nat, x: bytes, y: bytes)
    requires at + |x + y| <= |b| && b[at..at + |x + y|] == x + y
    ensures b[at..at + |x|] == x
    ensures b[at + |x|..at + |x| + |y|] == y
  {
    var e := x + y;
    SubSlice(b, at, at + |e|, 0, |x|);
    SubSlice(b, at, at + |e|, |x|, |e|);
    assert e[..|x|] == x && e[|x|..] == y;
  }

  lemma Nested(b: bytes, at: nat, d: bytes, x: bytes, y: bytes)
    requires IsAt(b, at, d) && x + y <= d
    ensures IsAt(b, at + |x|, y)
  {
    SubSlice(b, at, at + |d|, |x|, |x + y|);
    assert d[..|x + y|] == x + y;
    assert d[|x|..|x + y|] == (x + y)[|x|..] == y;
  }

  lemma ThreeParts(b: bytes, at: nat, x: bytes, y: bytes, z: bytes)
    requires at + |x + y + z| <= |b| && b[at..at + |x + y + z|] == x + y + z
    ensures b[at..at + |x|] == x
    ensures b[at + |x|..at + |x| + |y|] == y
    ensures b[at + |x| + |y|..at + |x| + |y| + |z|] == z
  {
    TwoParts(b, at, x + y, z);
    TwoParts(b, at, x, y);
  }

  // ---- Little-endian integers ----

  function Pow256(n: nat): (r: nat)
    ensures r > 0
  {
    if n == 0 then 1 else 256 * Pow256(n - 1)
  }

  lemma Pow256Values()
    ensures Pow256(1) == 256 && Pow256(2) == 65536 && Pow256(4) == TWO_32 && Pow256(8) == TWO_64
  {
    assert Pow256(3) == 256 * Pow256(2);
    assert Pow256(5) == 256 * Pow256(4);
    assert Pow256(7) == 256 * Pow256(6);
  }

  /** The low `n` bytes of `x`, least first (`to_le_bytes` after an `as` cast). */
  function LE(x: nat, n: nat): (r: bytes)
    ensures |r| == n
  {
    if n == 0 then [] else [x % 256] + LE(x / 256, n - 1)
  }

  function FromLE(b: bytes): (r: nat)
    ensures r < Pow256(|b|)
  {
    if |b| == 0 then 0 else b[0] + 256 * FromLE(b[1..])
  }

  lemma {:induction false} LERoundTrip(x: nat, n: nat)
    requires x < Pow256(n)
    ensures FromLE(LE(x, n)) == x
  {
    if n > 0 {
      LERoundTrip(x / 256, n - 1);
      assert LE(x, n)[1..] == LE(x / 256, n - 1);
    }
  }

  const U32_BYTES: nat := 4
  const U64_BYTES: nat := 8

  function PutU32(x: nat): (r: bytes)
    ensures |r| == 4
  {
    LE(x, U32_BYTES)
  }

  function PutU64(x: nat): (r: bytes)
    ensures |r| == 8
  {
    LE(x, U64_BYTES)
  }

  lemma U32RoundTrip(x: u32)
    ensures FromLE(PutU32(x)) == x
  {
    Pow256Values();
    LERoundTrip(x, U32_BYTES);
  }

  /** Only the encoding of `x` reads as `x`. */
  lemma {:induction false} LEUnique(b: bytes, x: nat)
    requires FromLE(b) == x
    ensures b == LE(x, |b|)
  {
    if |b| > 0 {
      LEUnique(b[1..], FromLE(b[1..]));
      assert x % 256 == b[0] && x / 256 == FromLE(b[1..]);
    }
  }

  lemma U32Unique(b: bytes, x: u32)
    requires |b| == 4 && FromLE(b) == x
    ensures b == PutU32(x)
  {
    LEUnique(b, x);
  }

  lemma U64RoundTrip(x: u64)
    ensures FromLE(PutU64(x)) == x
  {
    Pow256Values();
    LERoundTrip(x, U64_BYTES);
  }

  /** `i64 as u64`: two's complement. */
  function Unsigned(t: i64): u64 {
    if t < 0 then t + TWO_64 else t
  }

  function Signed(x: u64): i64 {
    if x < TWO_63 then x else x - TWO_64
  }

  function PutI64(t: i64): (r: bytes)
    ensures |r| == 8
  {
    PutU64(Unsigned(t))
  }

  lemma I64RoundTrip(t: i64)
    ensures Signed(FromLE(PutI64(t))) == t
  {
    U64RoundTrip(Unsigned(t));
  }

  // ---- Reads as functions: the value and where the cursor is after it ----

  function GetU8(b: bytes, at: nat): Option<(byte, nat)> {
    if at < |b| then Some((b[at], at + 1)) else None
  }

  function GetU32(b: bytes, at: nat): Option<(u32, nat)> {
    if at + 4 <= |b| then (Pow256Values(); Some((FromLE(b[at..at + 4]), at + 4))) else None
  }

  function GetU64(b: bytes, at: nat): Option<(u64, nat)> {
    if at + 8 <= |b| then (Pow256Values(); Some((FromLE(b[at..at + 8]), at + 8))) else None
  }

  function GetI64(b: bytes, at: nat): Option<(i64, nat)> {
    var (x, next) :- GetU64(b, at);
    Some((Signed(x), next))
  }

  function GetTake(b: bytes, at: nat, n: nat): Option<(bytes, nat)> {
    if at + n <= |b| then Some((b[at..at + n], at + n)) else None
  }

  // ---- Varints ----

  function Varint(x: nat): (r: bytes)
    ensures 1 <= |r|
  {
    if x < 128 then [x] else [x % 128 + 128] + Varint(x / 128)
  }

  /** The base-128 number at `at`, of at most `left` digits, least first; a digit of 128
      or more says another follows. */
  function Digits(b: bytes, at: nat, left: nat): (r: Option<(nat, nat)>)
    ensures r.Some? ==> at < r.value.1 <= |b|
    decreases left
  {
    if left == 0 || at >= |b| then None
    else if b[at] < 128 then Some((b[at], at + 1))
    else
      var (rest, next) :- Digits(b, at + 1, left - 1);
      Some((b[at] - 128 + 128 * rest, next))
  }

  const VARINT_MAX: nat := 10

  /** What a tenth digit has past bit 63 is shifted out. */
  function GetVarint(b: bytes, at: nat): (r: Option<(u64, nat)>)
    ensures r.Some? ==> at < r.value.1 <= |b|
  {
    var (x, next) :- Digits(b, at, VARINT_MAX);
    Some((x % TWO_64, next))
  }

  lemma {:induction false} DigitsOf(b: bytes, at: nat, x: nat, left: nat)
    requires |Varint(x)| <= left
    requires at + |Varint(x)| <= |b| && b[at..at + |Varint(x)|] == Varint(x)
    ensures Digits(b, at, left) == Some((x, at + |Varint(x)|))
    decreases left
  {
    var v := Varint(x);
    assert b[at] == b[at..at + |v|][0] == v[0];
    if x >= 128 {
      assert v[1..] == Varint(x / 128);
      assert b[at + 1..at + |v|] == b[at..at + |v|][1..];
      DigitsOf(b, at + 1, x / 128, left - 1);
    }
  }

  /** Decoding undoes encoding for every u64 and reads exactly its bytes. */
  lemma VarintRoundTrip(b: bytes, at: nat, x: u64)
    requires at + |Varint(x)| <= |b| && b[at..at + |Varint(x)|] == Varint(x)
    ensures GetVarint(b, at) == Some((x, at + |Varint(x)|))
  {
    VarintLength(x);
    DigitsOf(b, at, x, VARINT_MAX);
  }

  /** No varint takes more than ten bytes. */
  lemma VarintLength(x: u64)
    ensures |Varint(x)| <= VARINT_MAX
  {
    var x3 := x / 128 / 128 / 128;
    var x6 := x3 / 128 / 128 / 128;
    var x9 := x6 / 128 / 128 / 128;
    assert x9 < 128 && |Varint(x9)| == 1;
    ThreeMore(x6);
    ThreeMore(x3);
    ThreeMore(x);
  }

  lemma ThreeMore(x: nat)
    ensures |Varint(x)| <= |Varint(x / 128 / 128 / 128)| + 3
  {
    assert |Varint(x / 128)| <= |Varint(x / 128 / 128)| + 1;
  }

  function PutBytes(b: bytes): bytes {
    Varint(|b|) + b
  }

  function GetBytes(b: bytes, at: nat): Option<(bytes, nat)> {
    var (n, next) :- GetVarint(b, at);
    GetTake(b, next, n)
  }

  lemma BytesRoundTrip(b: bytes, at: nat, x: bytes)
    requires |x| < TWO_64
    requires at + |PutBytes(x)| <= |b| && b[at..at + |PutBytes(x)|] == PutBytes(x)
    ensures GetBytes(b, at) == Some((x, at + |PutBytes(x)|))
  {
    hide Varint, GetVarint;
    TwoParts(b, at, Varint(|x|), x);
    VarintRoundTrip(b, at, |x|);
  }

  method AppendVarint(v: bytes, x: u64) returns (r: bytes)
    ensures r == v + Varint(x)
  {
    r := v;
    var y := x;
    while y >= 0x80
      invariant 0 <= y
      invariant r + Varint(y) == v + Varint(x)
    {
      r := r + [y % 128 + 128];
      y := y / 128;
    }
    r := r + [y];
  }

  // ---- The shifted form of the source's loop ----

  function Pow2(n: nat): (r: nat)
    ensures r > 0
  {
    if n == 0 then 1 else 2 * Pow2(n - 1)
  }

  lemma Pow2Add7(n: nat)
    ensures Pow2(n + 7) == 128 * Pow2(n)
  {
    assert Pow2(n + 3) == 2 * Pow2(n + 2) == 4 * Pow2(n + 1) == 8 * Pow2(n);
    assert Pow2(n + 7) == 2 * Pow2(n + 6) == 4 * Pow2(n + 5) == 8 * Pow2(n + 4) == 16 * Pow2(n + 3);
  }

  const TOP_SHIFT: nat := 63

  lemma Pow2OfTop()
    ensures Pow2(TOP_SHIFT) == TWO_63
  {
    var n: nat := 0;
    var p := 1;
    while n < TOP_SHIFT
      invariant n % 7 == 0 && n <= TOP_SHIFT
      invariant p == Pow2(n)
      invariant n == 0 ==> p == 1
      invariant n == 7 ==> p == 0x80
      invariant n == 14 ==> p == 0x4000
      invariant n == 21 ==> p == 0x20_0000
      invariant n == 28 ==> p == 0x1000_0000
      invariant n == 35 ==> p == 0x8_0000_0000
      invariant n == 42 ==> p == 0x400_0000_0000
      invariant n == 49 ==> p == 0x2_0000_0000_0000
      invariant n == 56 ==> p == 0x100_0000_0000_0000
      invariant n == 63 ==> p == TWO_63
    {
      Pow2Add7(n);
      n, p := n + 7, 128 * p;
    }
  }

  lemma {:induction false} Pow2Monotone(m: nat, n: nat)
    requires m <= n
    ensures Pow2(m) <= Pow2(n)
  {
    if m < n { Pow2Monotone(m, n - 1); }
  }

  ghost function AfterDigits(sum: nat, weight: nat, rest: Option<(nat, nat)>): Option<(nat, nat)> {
    match rest
    case None => None
    case Some((v, next)) => Some((sum + v * weight, next))
  }

  lemma MoreDigits(sum: nat, weight: nat, d: nat, rest: Option<(nat, nat)>)
    ensures rest.Some? ==>
              sum + (d + 128 * rest.value.0) * weight
              == sum + d * weight + rest.value.0 * (128 * weight)
    ensures d * weight >= 0
  {
    if rest.Some? {
      Distribute(d, 128 * rest.value.0, weight);
      Associate(rest.value.0, 128, weight);
    }
  }

  /** A digit's bits do not overlap those read before it, but for what is shifted out. */
  lemma ShiftedDigit(shift: nat, sum: nat, d: nat)
    requires shift % 7 == 0 && shift < 64 && sum < Pow2(shift) && d < 128
    ensures sum % TWO_64 + d * Pow2(shift) % TWO_64 == (sum + d * Pow2(shift)) % TWO_64
    ensures shift + 7 < 64 ==> sum + d * Pow2(shift) < Pow2(shift + 7)
    ensures Pow2(shift + 7) == 128 * Pow2(shift)
  {
    Pow2OfTop();
    Pow2Add7(shift);
    Pow2Monotone(shift, TOP_SHIFT);
    var low := d * Pow2(shift);
    Distribute(d, 127 - d, Pow2(shift));
    if shift == TOP_SHIFT {
      TopBit(d);
    } else {
      Pow2Monotone(shift + 7, TOP_SHIFT);
    }
    JoinMods(sum, low);
  }

  lemma TopBit(d: nat)
    ensures d * TWO_63 % TWO_64 <= TWO_63
  {
    assert d == 2 * (d / 2) + d % 2;
    assert d * TWO_63 == (d / 2) * TWO_64 + (d % 2) * TWO_63;
  }

  lemma JoinMods(a: nat, b: nat)
    requires a % TWO_64 + b % TWO_64 < TWO_64
    ensures a % TWO_64 + b % TWO_64 == (a + b) % TWO_64
  {
  }

  lemma Distribute(a: nat, b: nat, p: nat)
    ensures (a + b) * p == a * p + b * p
    ensures a * p >= 0 && b * p >= 0
  {
  }

  lemma Associate(a: nat, b: nat, p: nat)
    ensures (b * a) * p == a * (b * p)
    ensures a * (b * p) >= 0
  {
    assert b * p >= 0;
  }

  /** `shift` bits of the varint that begins at `start` are read: the digits before `at`
      add up to `sum`, `x` is what of it is not shifted out. */
  ghost predicate Reading(b: bytes, start: nat, at: nat, shift: nat, sum: nat, x: nat) {
    && shift % 7 == 0 && shift <= 70
    && (shift < 64 ==> sum < Pow2(shift))
    && x == sum % TWO_64
    && Digits(b, start, VARINT_MAX) == AfterDigits(sum, Pow2(shift), Digits(b, at, VARINT_MAX - shift / 7))
  }

  /** The byte at `at` adds `low`, what of it is not shifted out, and is the last or not. */
  lemma ReadingStep(b: bytes, start: nat, at: nat, shift: nat, sum: nat, x: nat, low: nat)
    requires Reading(b, start, at, shift, sum, x) && shift < 64 && at < |b|
    requires low == b[at] % 128 * Pow2(shift)
    ensures b[at] < 128 ==> GetVarint(b, start) == Some((x + low % TWO_64, at + 1))
    ensures b[at] >= 128 ==> Reading(b, start, at + 1, shift + 7, sum + low, x + low % TWO_64)
  {
    hide *;
    if b[at] < 128 {
      LastDigit(b, start, at, shift, sum, x, low);
    } else {
      OneDigit(b, start, at, shift, sum, x, low);
    }
  }

  lemma LastDigit(b: bytes, start: nat, at: nat, shift: nat, sum: nat, x: nat, low: nat)
    requires Reading(b, start, at, shift, sum, x) && shift < 64 && at < |b| && b[at] < 128
    requires low == b[at] % 128 * Pow2(shift)
    ensures GetVarint(b, start) == Some((x + low % TWO_64, at + 1))
  {
    hide *;
    var d: nat := b[at];
    ReadDigits(b, start, at, shift, sum, x);
    LastValue(sum, Pow2(shift), d, low, at + 1);
    LastSum(shift, sum, d, low);
    IsVarint(b, start, sum + low, at + 1);
  }

  lemma ReadDigits(b: bytes, start: nat, at: nat, shift: nat, sum: nat, x: nat)
    requires Reading(b, start, at, shift, sum, x) && shift < 64 && at < |b| && b[at] < 128
    ensures Digits(b, start, VARINT_MAX) == AfterDigits(sum, Pow2(shift), Some((b[at], at + 1)))
    ensures x == sum % TWO_64 && shift % 7 == 0 && sum < Pow2(shift)
  {
    hide AfterDigits, Pow2;
  }

  lemma LastValue(sum: nat, weight: nat, d: nat, low: nat, next: nat)
    requires low == d * weight
    ensures AfterDigits(sum, weight, Some((d, next))) == Some((sum + low, next))
  {
  }

  lemma LastSum(shift: nat, sum: nat, d: nat, low: nat)
    requires shift % 7 == 0 && shift < 64 && sum < Pow2(shift) && d < 128 && low == d * Pow2(shift)
    ensures (sum + low) % TWO_64 == sum % TWO_64 + low % TWO_64
  {
    hide Pow2;
    ShiftedDigit(shift, sum, d);
  }

  lemma IsVarint(b: bytes, at: nat, x: nat, next: nat)
    requires Digits(b, at, VARINT_MAX) == Some((x, next))
    ensures GetVarint(b, at) == Some((x % TWO_64, next))
  {
    hide Digits;
  }

  lemma OneDigit(b: bytes, start: nat, at: nat, shift: nat, sum: nat, x: nat, low: nat)
    requires Reading(b, start, at, shift, sum, x) && shift < 64 && at < |b| && b[at] >= 128
    requires low == b[at] % 128 * Pow2(shift)
    ensures Reading(b, start, at + 1, shift + 7, sum + low, x + low % TWO_64)
  {
    hide Pow2;
    var d := b[at] % 128;
    var left := VARINT_MAX - shift / 7;
    assert VARINT_MAX - (shift + 7) / 7 == left - 1;
    var rest := Digits(b, at + 1, left - 1);
    ShiftedDigit(shift, sum, d);
    MoreDigits(sum, Pow2(shift), d, rest);
    assert Digits(b, at, left) == AfterDigits(d, 128, rest);
  }

  // ---- The cursor ----

  class Reader {
    const b: bytes
    var at: nat

    constructor (b: bytes, at: nat)
      ensures this.b == b && this.at == at
    {
      this.b, this.at := b, at;
    }

    method U8() returns (r: Option<byte>)
      modifies this
      ensures r.None? <==> GetU8(b, old(at)).None?
      ensures r.Some? ==> GetU8(b, old(at)) == Some((r.value, at))
    {
      if at >= |b| { return None; }
      r := Some(b[at]);
      at := at + 1;
    }

    method U32() returns (r: Option<u32>)
      modifies this
      ensures r.None? <==> GetU32(b, old(at)).None?
      ensures r.Some? ==> GetU32(b, old(at)) == Some((r.value, at))
    {
      if at + 4 > |b| { return None; }
      Pow256Values();
      r := Some(FromLE(b[at..at + 4]));
      at := at + 4;
    }

    method U64() returns (r: Option<u64>)
      modifies this
      ensures r.None? <==> GetU64(b, old(at)).None?
      ensures r.Some? ==> GetU64(b, old(at)) == Some((r.value, at))
    {
      if at + 8 > |b| { return None; }
      Pow256Values();
      r := Some(FromLE(b[at..at + 8]));
      at := at + 8;
    }

    method Varint() returns (r: Option<u64>)
      modifies this
      ensures r.None? <==> GetVarint(b, old(at)).None?
      ensures r.Some? ==> GetVarint(b, old(at)) == Some((r.value, at))
    {
      var x: nat, shift: nat := 0, 0;
      ghost var sum: nat := 0;
      while shift < 64
        invariant Reading(b, old(at), at, shift, sum, x)
      {
        if at >= |b| { return None; }
        var c := b[at];
        Distribute(c % 128, 0, Pow2(shift));
        var low: nat := c % 128 * Pow2(shift);
        ReadingStep(b, old(at), at, shift, sum, x, low);
        at := at + 1;
        sum := sum + low;
        x := x + low % TWO_64;
        if c < 128 { return Some(x); }
        shift := shift + 7;
      }
      return None;
    }

    method Take(n: nat) returns (r: Option<bytes>)
      modifies this
      ensures r.None? <==> GetTake(b, old(at), n).None?
      ensures r.Some? ==> GetTake(b, old(at), n) == Some((r.value, at))
    {
      if at + n > |b| { return None; }
      r := Some(b[at..at + n]);
      at := at + n;
    }

    method Bytes() returns (r: Option<bytes>)
      modifies this
      ensures r.None? <==> GetBytes(b, old(at)).None?
      ensures r.Some? ==> GetBytes(b, old(at)) == Some((r.value, at))
    {
      var n := Varint();
      if n.None? { return None; }
      r := Take(n.value);
    }
  }

  // ---- Binary search ----

  /** Once `pred` fails it fails for good. */
  ghost predicate Partitioned<T>(s: seq<T>, pred: T -> bool) {
    forall i, j :: 0 <= i < j < |s| && pred(s[j]) ==> pred(s[i])
  }

  /** Where `pred` begins to fail, or the length. */
  method PartitionPoint<T>(s: seq<T>, pred: T -> bool) returns (k: nat)
    requires Partitioned(s, pred)
    ensures k <= |s|
    ensures forall i :: 0 <= i < k ==> pred(s[i])
    ensures forall i :: k <= i < |s| ==> !pred(s[i])
  {
    var lo, hi := 0, |s|;
    while lo < hi
      invariant 0 <= lo <= hi <= |s|
      invariant forall i :: 0 <= i < lo ==> pred(s[i])
      invariant forall i :: hi <= i < |s| ==> !pred(s[i])
    {
      var mid := lo + (hi - lo) / 2;
      if pred(s[mid]) {
        lo := mid + 1;
      } else {
        hi := mid;
      }
    }
    k := lo;
  }
}
