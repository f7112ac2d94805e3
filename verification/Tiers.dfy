/** A segment's tier (clip/src/lib.rs, tier): how many times the fanout goes into its size. */
module Tiers {

  function Max(a: nat, b: nat): nat {
    if a >= b then a else b
  }

  function Power(f: nat, t: nat): nat {
    if t == 0 then 1 else f * Power(f, t - 1)
  }

  lemma Quotient(s: nat, f: nat)
    requires f >= 2 && s >= f
    ensures 1 <= s / f < s
    ensures s / f * f <= s < (s / f + 1) * f
  {
  }

  function Levels(s: nat, f: nat): nat
    requires f >= 2
  {
    if s < f then 0 else (Quotient(s, f); 1 + Levels(s / f, f))
  }

  lemma Scale(a: nat, b: nat, f: nat)
    requires a <= b
    ensures a * f <= b * f
  {
  }

  /** A size of tier `t` is between the `t`-th power of the fanout and the next. */
  lemma {:induction false} LevelsBracket(s: nat, f: nat)
    requires f >= 2
    ensures s < Power(f, Levels(s, f) + 1)
    ensures s >= f ==> Power(f, Levels(s, f)) <= s
    ensures s < f ==> Levels(s, f) == 0
    decreases s
  {
    if s >= f {
      Quotient(s, f);
      var q := s / f;
      LevelsBracket(q, f);
      var t := Levels(q, f);
      Scale(q + 1, Power(f, t + 1), f);
      if q >= f { Scale(Power(f, t), q, f); }
    }
  }

  function TierOf(size: nat, sealBytes: nat, fanout: nat): nat {
    Levels(size / Max(sealBytes / 2, 1), Max(fanout, 2))
  }

  method Tier(size: nat, sealBytes: nat, fanout: nat) returns (t: nat)
    ensures t == TierOf(size, sealBytes, fanout)
  {
    var unit := Max(sealBytes / 2, 1);
    var f := Max(fanout, 2);
    var s: nat := size / unit;
    t := 0;
    while s >= f
      invariant t + Levels(s, f) == TierOf(size, sealBytes, fanout)
      decreases s
    {
      Quotient(s, f);
      s := s / f;
      t := t + 1;
    }
  }

  function TierAt(sizes: seq<nat>, i: nat, sealBytes: nat, fanout: nat): nat
    requires i < |sizes|
  {
    TierOf(sizes[i], sealBytes, fanout)
  }

  /** The newest segments, `fanout` of them or more, are all of one tier. */
  ghost predicate Piled(sizes: seq<nat>, sealBytes: nat, fanout: nat) {
    var f := Max(fanout, 2);
    && |sizes| >= f
    && forall k :: |sizes| - f <= k < |sizes| ==>
         TierAt(sizes, k, sealBytes, fanout) == TierAt(sizes, |sizes| - 1, sealBytes, fanout)
  }

  /** Where the newest run of one tier begins, if it is long enough to merge. */
  method NewestRun(sizes: seq<nat>, sealBytes: nat, fanout: nat) returns (lo: nat, long: bool)
    ensures long <==> Piled(sizes, sealBytes, fanout)
    ensures long ==> lo + Max(fanout, 2) <= |sizes|
    ensures long ==> forall k :: lo <= k < |sizes| ==>
              TierAt(sizes, k, sealBytes, fanout) == TierAt(sizes, |sizes| - 1, sealBytes, fanout)
    ensures long && lo > 0 ==>
              TierAt(sizes, lo - 1, sealBytes, fanout) != TierAt(sizes, |sizes| - 1, sealBytes, fanout)
  {
    var n, f := |sizes|, Max(fanout, 2);
    if n < f { return 0, false; }
    hide TierOf;
    var t := Tier(sizes[n - 1], sealBytes, fanout);
    lo := n - 1;
    while lo > 0
      invariant 0 <= lo < n
      invariant forall k :: lo <= k < n ==> TierAt(sizes, k, sealBytes, fanout) == t
    {
      var older := Tier(sizes[lo - 1], sealBytes, fanout);
      if older != t { break; }
      lo := lo - 1;
    }
    long := n - lo >= f;
    if !long { assert TierAt(sizes, lo - 1, sealBytes, fanout) != t; }
  }
}
