/** What a program says before its messages (rust/src/bus_filter.rs, Auth): lines, as the
    proxy behind reads them, up to the one after which messages follow. */
module Authentication {
  import opened Wrappers
  import opened Codec

  const MAX_AUTH_BYTES: nat := 0x4000
  const CR: byte := 13
  const LF: byte := 10
  const BEGIN: bytes := [66, 69, 71, 73, 78]
  const BEGIN_LINE: bytes := [66, 69, 71, 73, 78, 13, 10]

  /** Its first byte is one of A to Z, and every byte is printable. */
  predicate LineIsValid(line: bytes) {
    |line| > 0 && 65 <= line[0] <= 90 && forall k :: 0 <= k < |line| ==> 32 <= line[k] < 128
  }

  /** The command BEGIN: the word itself, and a space or a tab before whatever follows it. */
  predicate LineIsBegin(line: bytes) {
    BEGIN <= line && (|line| == 5 || line[5] == 32 || line[5] == 9)
  }

  /** A line is taken just if it begins with a capital and has no control character, nor anything
      beyond ASCII; and it is the last just if it is BEGIN, alone or before a blank. */
  lemma LineMeans(line: bytes)
    ensures LineIsValid(line) <==>
            && line != [] && 'A' as int <= line[0] <= 'Z' as int
            && forall k :: 0 <= k < |line| ==> ' ' as int <= line[k] <= 127
    ensures LineIsBegin(line) <==>
            && |line| >= 5 && (forall k :: 0 <= k < 5 ==> line[k] == "BEGIN"[k] as int)
            && (|line| > 5 ==> line[5] == ' ' as int || line[5] == '\t' as int)
  {
    assert forall k :: 0 <= k < 5 ==> BEGIN[k] == "BEGIN"[k] as int;
    if LineIsBegin(line) {
      assert line[..5] == BEGIN;
      assert forall k :: 0 <= k < 5 ==> line[k] == line[..5][k];
    }
    if |line| >= 5 && forall k :: 0 <= k < 5 ==> line[k] == "BEGIN"[k] as int { assert line[..5] == BEGIN; }
  }

  /** What the bytes of a client come to: refused; so much passed on and a line begun at
      `start`; or so much passed on and the messages from `at` on. */
  datatype Verdict = Refused | More(out: bytes, start: nat) | Began(out: bytes, at: nat)

  predicate EndAt(b: bytes, k: nat) {
    k + 2 <= |b| && b[k] == CR && b[k + 1] == LF
  }

  /** Where the first line from `from` on ends. */
  function LineEnd(b: bytes, from: nat): (r: Option<nat>)
    ensures r.Some? ==> from <= r.value && EndAt(b, r.value)
    ensures r.Some? ==> forall k :: from <= k < r.value ==> !EndAt(b, k)
    ensures r.None? ==> forall k :: from <= k ==> !EndAt(b, k)
    decreases |b| - from
  {
    if from + 2 > |b| then None
    else if EndAt(b, from) then Some(from)
    else LineEnd(b, from + 1)
  }

  /** The lines from `at` on, one by one. */
  function Lines(b: bytes, at: nat): Verdict
    requires at <= |b|
    decreases |b| - at
  {
    match LineEnd(b, at)
    case None => if |b| > MAX_AUTH_BYTES then Refused else More([], at)
    case Some(e) => AfterLine(b[at..e], b[at..e + 2], e + 2, Lines(b, e + 2))
  }

  /** The line `text`, ending before byte `n`, and what follows it. */
  function AfterLine(text: bytes, line: bytes, n: nat, rest: Verdict): Verdict {
    if n > MAX_AUTH_BYTES || !LineIsValid(text) then Refused
    else if LineIsBegin(text) then Began(BEGIN_LINE, n)
    else Passed(line, rest)
  }

  function Passed(line: bytes, v: Verdict): Verdict {
    match v
    case Refused => Refused
    case More(out, start) => More(line + out, start)
    case Began(out, at) => Began(line + out, at)
  }

  /** The credentials byte, then lines. */
  function WholeReading(b: bytes): Verdict {
    if b == [] then More([], 0) else Passed([b[0]], Lines(b, 1))
  }

  /** The lines of `b` from `at` on, if the first is `line`. */
  lemma FirstLine(b: bytes, at: nat, line: bytes)
    requires at + |line| <= |b| && |line| >= 2 && b[at..at + |line|] == line
    requires LineEnd(b, at) == Some(at + |line| - 2)
    ensures Lines(b, at) == AfterLine(line[..|line| - 2], line, at + |line|, Lines(b, at + |line|))
  {
    hide LineEnd, AfterLine;
    assert b[at..at + |line| - 2] == line[..|line| - 2];
  }

  /** Bytes after a line's end do not move it. */
  lemma EndStays(b: bytes, more: bytes, at: nat)
    requires at <= |b| && LineEnd(b, at).Some?
    ensures LineEnd(b + more, at) == LineEnd(b, at)
  {
    hide LineEnd;
    var all, e := b + more, LineEnd(b, at).value;
    assert forall k :: 0 <= k < |b| ==> all[k] == b[k];
    assert EndAt(all, e);
    assert forall k :: at <= k < e ==> EndAt(all, k) == EndAt(b, k);
  }

  /** What is refused or begun is so whatever follows. */
  lemma {:induction false} Stays(b: bytes, more: bytes, at: nat)
    requires at <= |b| && !Lines(b, at).More?
    ensures Lines(b + more, at) == Lines(b, at)
    decreases |b| - at
  {
    hide LineEnd, LineIsValid, LineIsBegin;
    var all := b + more;
    if LineEnd(b, at).Some? {
      var e := LineEnd(b, at).value;
      EndStays(b, more, at);
      assert all[at..e] == b[at..e] && all[at..e + 2] == b[at..e + 2];
      if e + 2 <= MAX_AUTH_BYTES && LineIsValid(b[at..e]) && !LineIsBegin(b[at..e]) { Stays(b, more, e + 2); }
    } else {
      var f := LineEnd(all, at);
      if f.Some? { NoEarlierEnd(b, more, at, f.value); }
    }
  }

  lemma NoEarlierEnd(b: bytes, more: bytes, at: nat, e: nat)
    requires at <= |b| && LineEnd(b, at).None? && LineEnd(b + more, at) == Some(e)
    ensures e + 2 > |b|
  {
    hide LineEnd;
    var all := b + more;
    assert forall k :: 0 <= k < |b| ==> all[k] == b[k];
    assert EndAt(b, e) == (e + 2 <= |b|);
  }

  /** One byte more in the middle of a line. */
  lemma {:induction false} OneByte(b: bytes, x: byte, at: nat)
    requires at <= |b| && Lines(b, at).More?
    ensures var v := Lines(b, at);
            && at <= v.start <= |b|
            && Lines(b + [x], at) == AfterByte(v.out, b[v.start..] + [x], |b| + 1, v.start)
    decreases |b| - at
  {
    hide LineEnd, LineIsValid, LineIsBegin;
    var all := b + [x];
    if LineEnd(b, at).Some? {
      var e := LineEnd(b, at).value;
      EndStays(b, [x], at);
      assert all[at..e] == b[at..e] && all[at..e + 2] == b[at..e + 2];
      OneByte(b, x, e + 2);
      var v := Lines(b, e + 2);
      PassedAfter(b[at..e + 2], v.out, b[v.start..] + [x], |b| + 1, v.start);
    } else {
      LastByte(b, x, at);
    }
  }

  /** What the byte that made the line `line` makes of the reading: `n` bytes are read. */
  function AfterByte(out: bytes, line: bytes, n: nat, start: nat): Verdict {
    if n > MAX_AUTH_BYTES then Refused
    else if !EndsLine(line) then More(out, start)
    else
      var text := line[..|line| - 2];
      if !LineIsValid(text) then Refused
      else if LineIsBegin(text) then Began(out + BEGIN_LINE, n)
      else More(out + line, n)
  }

  predicate EndsLine(line: bytes) {
    |line| >= 2 && line[|line| - 2] == CR && line[|line| - 1] == LF
  }

  lemma PassedAfter(first: bytes, out: bytes, line: bytes, n: nat, start: nat)
    ensures Passed(first, AfterByte(out, line, n, start)) == AfterByte(first + out, line, n, start)
  {
    hide LineEnd, LineIsValid, LineIsBegin;
    assert first + (out + BEGIN_LINE) == first + out + BEGIN_LINE;
    assert first + (out + line) == first + out + line;
  }

  lemma EndOfLast(b: bytes, x: byte, at: nat)
    requires at <= |b| && LineEnd(b, at).None?
    ensures LineEnd(b + [x], at) == if EndsLine(b[at..] + [x]) then Some(|b| - 1) else None
  {
    hide LineEnd;
    var all := b + [x];
    assert b[at..] + [x] == all[at..];
    var f := LineEnd(all, at);
    assert EndsLine(all[at..]) == (|b| > at && EndAt(all, |b| - 1));
    if f.Some? { NoEarlierEnd(b, [x], at, f.value); }
  }

  lemma LastByte(b: bytes, x: byte, at: nat)
    requires at <= |b| && LineEnd(b, at).None? && |b| <= MAX_AUTH_BYTES
    ensures Lines(b + [x], at) == AfterByte([], b[at..] + [x], |b| + 1, at)
  {
    hide LineEnd, LineIsValid, LineIsBegin;
    var all, line := b + [x], b[at..] + [x];
    EndOfLast(b, x, at);
    if EndsLine(line) {
      assert all[at..] == line;
      FirstLine(all, at, line);
      if |all| <= MAX_AUTH_BYTES { NothingAfter(all); }
      hide *;
      OneLine(line, |all|, at, Lines(all, |all|));
    }
  }

  /** A line of its own. */
  lemma OneLine(line: bytes, n: nat, start: nat, rest: Verdict)
    requires EndsLine(line) && (n <= MAX_AUTH_BYTES ==> rest == More([], n))
    ensures AfterByte([], line, n, start) == AfterLine(line[..|line| - 2], line, n, rest)
  {
    hide LineIsValid, LineIsBegin;
    assert [] + BEGIN_LINE == BEGIN_LINE && [] + line == line && line + [] == line;
  }

  lemma NothingAfter(all: bytes)
    ensures |all| <= MAX_AUTH_BYTES ==> Lines(all, |all|) == More([], |all|)
  {
  }

  /** Where a line copied to `q` ends. */
  lemma CopiedEnd(all: bytes, q: nat, b: bytes, at: nat, line: bytes)
    requires at <= |b| && LineEnd(b, at).Some? && line == b[at..LineEnd(b, at).value + 2]
    requires q + |line| <= |all| && all[q..q + |line|] == line
    ensures LineEnd(all, q) == Some(q + |line| - 2)
  {
    hide LineEnd;
    var e := LineEnd(b, at).value;
    assert forall k :: 0 <= k < |line| ==> all[q + k] == line[k] == b[at + k];
    assert EndAt(all, q + (e - at));
    forall k | q <= k < q + (e - at)
      ensures !EndAt(all, k)
    {
      assert !EndAt(b, at + (k - q));
      assert all[q + (k - q)] == b[at + (k - q)] && all[q + (k - q + 1)] == b[at + (k - q + 1)];
    }
  }

  /** The lines passed on, read again where they stand, are the same lines. */
  lemma {:induction false} CopiedLines(all: bytes, q: nat, b: bytes, at: nat)
    requires at <= |b| && Lines(b, at).Began? && q <= at && q <= |all| && all[q..] == Lines(b, at).out
    ensures Lines(all, q) == Began(all[q..], |all|)
    decreases |b| - at
  {
    hide *;
    FirstBegan(b, at);
    var line := b[at..LineEnd(b, at).value + 2];
    if LineIsBegin(line[..|line| - 2]) {
      BeginEnds(all, q);
    } else {
      Split(all, q, line, Lines(b, at + |line|).out);
      CopiedLines(all, q + |line|, b, at + |line|);
      CopiedEnd(all, q, b, at, line);
      LineOn(all, q, line);
    }
  }

  lemma Split(all: bytes, q: nat, line: bytes, rest: bytes)
    requires q <= |all| && all[q..] == line + rest
    ensures q + |line| <= |all| && all[q..q + |line|] == line && all[q + |line|..] == rest
  {
    assert |all| - q == |line| + |rest|;
    assert all[q..q + |line|] == all[q..][..|line|] && all[q + |line|..] == all[q..][|line|..];
  }

  /** The first line of an authentication that ends. */
  lemma FirstBegan(b: bytes, at: nat)
    requires at <= |b| && Lines(b, at).Began?
    ensures LineEnd(b, at).Some? && LineEnd(b, at).value + 2 <= |b|
    ensures var line := b[at..LineEnd(b, at).value + 2];
            var v, rest := Lines(b, at), Lines(b, at + |line|);
            && LineIsValid(line[..|line| - 2]) && at + |line| <= MAX_AUTH_BYTES
            && if LineIsBegin(line[..|line| - 2]) then v.out == BEGIN_LINE && at + 7 <= MAX_AUTH_BYTES
               else rest.Began? && v.out == line + rest.out
  {
    hide LineEnd, LineIsValid, LineIsBegin;
    var line := b[at..LineEnd(b, at).value + 2];
    FirstLine(b, at, line);
    BeginLine(line[..|line| - 2]);
    hide Lines;
  }

  /** A line before what has been read. */
  lemma LineOn(all: bytes, q: nat, line: bytes)
    requires |line| >= 2 && q + |line| <= |all| && all[q..q + |line|] == line && q + |line| <= MAX_AUTH_BYTES
    requires LineEnd(all, q) == Some(q + |line| - 2)
    requires LineIsValid(line[..|line| - 2]) && !LineIsBegin(line[..|line| - 2])
    requires Lines(all, q + |line|) == Began(all[q + |line|..], |all|)
    ensures Lines(all, q) == Began(all[q..], |all|)
  {
    hide LineEnd, LineIsValid, LineIsBegin, Lines;
    FirstLine(all, q, line);
    assert line + all[q + |line|..] == all[q..];
  }

  lemma BeginLine(text: bytes)
    ensures LineIsValid(BEGIN) && LineIsBegin(BEGIN)
    ensures LineIsBegin(text) ==> |text| >= 5
  {
  }

  lemma BeginEnds(all: bytes, q: nat)
    requires q + 7 <= MAX_AUTH_BYTES && q <= |all| && all[q..] == BEGIN_LINE
    ensures Lines(all, q) == Began(BEGIN_LINE, |all|)
  {
    BeginLine([]);
    EndThere(all, q);
    hide LineEnd, LineIsValid, LineIsBegin, Lines;
    FirstLine(all, q, BEGIN_LINE);
    assert BEGIN_LINE[..5] == BEGIN;
  }

  lemma EndThere(all: bytes, q: nat)
    requires q <= |all| && all[q..] == BEGIN_LINE
    ensures LineEnd(all, q) == Some(q + 5)
  {
    hide LineEnd;
    assert forall k :: 0 <= k < 7 ==> all[q + k] == BEGIN_LINE[k];
    assert EndAt(all, q + 5);
    forall k | q <= k < q + 5
      ensures !EndAt(all, k)
    {
      assert all[k] == BEGIN_LINE[k - q];
    }
  }

  /** A program that got through is read by whatever is behind exactly as it was read here:
      what was passed on followed by its messages begins them at the same byte. */
  lemma ReadTheSameBehind(b: bytes, messages: bytes)
    requires WholeReading(b).Began?
    ensures var out := WholeReading(b).out; WholeReading(out + messages) == Began(out, |out|)
  {
    var v, lines := WholeReading(b), Lines(b, 1);
    assert v.out[0] == b[0] && v.out[1..] == lines.out;
    CopiedLines(v.out, 1, b, 1);
    Stays(v.out, messages, 1);
    assert (v.out + messages)[0] == b[0];
  }

  class Auth {
    var first: bool
    var line: bytes
    var count: nat
    /** All that was fed, and all that was passed on. */
    ghost var fed: bytes
    ghost var passed: bytes

    ghost predicate Valid()
      reads this
    {
      && first == (fed != []) && count == |fed|
      && WholeReading(fed).More? && WholeReading(fed).out == passed
      && WholeReading(fed).start <= |fed| && line == fed[WholeReading(fed).start..]
    }

    constructor ()
      ensures Valid() && fed == [] && passed == []
    {
      first, line, count, fed, passed := false, [], 0, [], [];
    }

    /** One byte: what is to be passed on for it, and whether it ended the authentication. */
    method FeedByte(b: byte) returns (r: Option<(bytes, bool)>)
      requires Valid()
      modifies this
      ensures fed == old(fed) + [b]
      ensures r.None? ==> WholeReading(fed) == Refused
      ensures r.Some? && !r.value.1 ==> Valid() && passed == old(passed) + r.value.0
      ensures r.Some? && r.value.1 ==> WholeReading(fed) == Began(old(passed) + r.value.0, |fed|)
    {
      assert fed == [] ==> WholeReading(fed) == More([], 0);
      hide Lines, WholeReading, LineIsValid, LineIsBegin;
      Next(fed, b);
      fed := fed + [b];
      count := count + 1;
      if count > MAX_AUTH_BYTES { return None; }
      if !first {
        first := true;
        passed := passed + [b];
        return Some(([b], false));
      }
      line := line + [b];
      if !EndsLine(line) {
        assert passed + [] == passed;
        return Some(([], false));
      }
      var text := line[..|line| - 2];
      if !LineIsValid(text) { return None; }
      if LineIsBegin(text) {
        line := [];
        return Some((BEGIN_LINE, true));
      }
      r := Some((line, false));
      passed := passed + line;
      line := [];
    }

    /** A chunk read: the verdict is that of all the bytes so far taken line by line, wherever
        the chunks were cut. */
    method Feed(data: bytes) returns (r: Option<(bytes, Option<nat>)>)
      requires Valid()
      modifies this
      ensures r.None? ==> WholeReading(old(fed) + data) == Refused
      ensures r.Some? && r.value.1.None? ==> Valid() && fed == old(fed) + data && passed == old(passed) + r.value.0
      ensures r.Some? && r.value.1.Some? ==> r.value.1.value <= |data|
      ensures r.Some? && r.value.1.Some? ==>
                WholeReading(old(fed) + data) == Began(old(passed) + r.value.0, |old(fed)| + r.value.1.value)
    {
      hide Lines, WholeReading;
      var out: bytes := [];
      assert fed + data[..0] == fed && passed + out == passed;
      for i := 0 to |data|
        invariant Valid() && fed == old(fed) + data[..i] && passed == old(passed) + out
      {
        var one := FeedByte(data[i]);
        assert old(fed) + data[..i + 1] == old(fed) + data[..i] + [data[i]];
        Rest(old(fed), data, i);
        if one.None? { return None; }
        var (sent, begun) := one.value;
        assert old(passed) + (out + sent) == old(passed) + out + sent;
        out := out + sent;
        if begun { return Some((out, Some(i + 1))); }
      }
      assert data[..|data|] == data;
      r := Some((out, None));
    }
  }

  /** One byte more of everything read. */
  lemma Next(b: bytes, x: byte)
    requires WholeReading(b).More?
    ensures b == [] ==> WholeReading(b + [x]) == More([x], 1)
    ensures b != [] ==>
              var v := WholeReading(b);
              1 <= v.start <= |b| && WholeReading(b + [x]) == AfterByte(v.out, b[v.start..] + [x], |b| + 1, v.start)
  {
    hide LineEnd, LineIsValid, LineIsBegin;
    if b == [] {
      assert [] + [x] == [x];
      NothingAfter([x]);
      assert [x] + [] == [x];
    } else {
      OneByte(b, x, 1);
      var v := Lines(b, 1);
      PassedAfter([b[0]], v.out, b[v.start..] + [x], |b| + 1, v.start);
    }
  }

  /** A verdict reached is that of everything. */
  lemma Rest(was: bytes, data: bytes, i: nat)
    requires i < |data|
    ensures var sofar := was + data[..i] + [data[i]];
            !WholeReading(sofar).More? ==> WholeReading(was + data) == WholeReading(sofar)
  {
    hide LineEnd, LineIsValid, LineIsBegin;
    var sofar := was + data[..i] + [data[i]];
    assert was + data == sofar + data[i + 1..];
    if !WholeReading(sofar).More? { Stays(sofar, data[i + 1..], 1); }
  }
}
