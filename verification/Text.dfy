/** Texts as the index sees them (clip/src/query.rs): lowercased a character at a time and
    cut in trigrams; and what of a pattern must be in every text it matches. */
module Text {
  import opened Wrappers

  // ---- Lowercase and trigrams ----

  /** `char::to_lowercase`: one character's lowercase, of one or more characters. */
  type LowerChar = char -> string

  function Lower(s: string, lc: LowerChar): string {
    if s == "" then "" else lc(s[0]) + Lower(s[1..], lc)
  }

  /** Lowercasing goes character by character, so it goes through concatenation. */
  lemma {:induction false} LowerConcat(a: string, b: string, lc: LowerChar)
    ensures Lower(a + b, lc) == Lower(a, lc) + Lower(b, lc)
  {
    hide Lower;
    if a == "" {
      assert a + b == b;
      LowerNothing(lc);
    } else {
      var c, rest := a[0], a[1..];
      LowerConcat(rest, b, lc);
      LowerFirst(c, rest, lc);
      LowerFirst(c, rest + b, lc);
      assert a == [c] + rest && a + b == [c] + (rest + b);
      assert lc(c) + Lower(rest, lc) + Lower(b, lc) == lc(c) + (Lower(rest, lc) + Lower(b, lc));
    }
  }

  lemma LowerNothing(lc: LowerChar)
    ensures Lower("", lc) == ""
  {
  }

  lemma LowerFirst(c: char, rest: string, lc: LowerChar)
    ensures Lower([c] + rest, lc) == lc(c) + Lower(rest, lc)
  {
    assert ([c] + rest)[1..] == rest;
  }

  lemma LowerSplit(s: string, i: nat, j: nat, k: nat, lc: LowerChar)
    requires i <= j <= k <= |s|
    ensures Lower(s[i..k], lc) == Lower(s[i..j], lc) + Lower(s[j..k], lc)
  {
    LowerConcat(s[i..j], s[j..k], lc);
    assert s[i..k] == s[i..j] + s[j..k];
  }

  ghost predicate Contains(s: string, w: string) {
    exists k: nat :: ContainsAt(s, w, k)
  }

  ghost predicate ContainsAt(s: string, w: string, k: nat) {
    k + |w| <= |s| && s[k..k + |w|] == w
  }

  /** `str::contains`. */
  method Find(s: string, w: string) returns (r: bool)
    ensures r <==> Contains(s, w)
  {
    var k: nat := 0;
    while k + |w| <= |s|
      invariant forall i: nat :: i < k ==> !ContainsAt(s, w, i)
    {
      if s[k..k + |w|] == w {
        assert ContainsAt(s, w, k);
        return true;
      }
      k := k + 1;
    }
    r := false;
  }

  lemma ContainsIn(a: string, b: string, c: string, w: string)
    requires Contains(b, w)
    ensures Contains(a + b + c, w)
  {
    var k: nat :| ContainsAt(b, w, k);
    var s := a + b + c;
    assert s[|a| + k..|a| + k + |w|] == b[k..k + |w|];
    assert ContainsAt(s, w, |a| + k);
  }

  function Window(s: string, k: nat): string
    requires k + 3 <= |s|
  {
    s[k..k + 3]
  }

  /** The windows of three characters. */
  ghost function Trigrams(s: string): set<string> {
    set k: nat | k + 3 <= |s| :: Window(s, k)
  }

  method CutTrigrams(s: string) returns (out: seq<string>)
    ensures forall g :: g in out <==> g in Trigrams(s)
  {
    out := [];
    if |s| < 3 { return; }
    for k := 0 to |s| - 2
      invariant forall g :: g in out <==> exists i: nat :: i < k && g == Window(s, i)
    {
      out := out + [Window(s, k)];
    }
  }

  /** What a text contains is in its index. */
  lemma TrigramsOfPart(s: string, w: string)
    requires Contains(s, w)
    ensures Trigrams(w) <= Trigrams(s)
  {
    var k: nat :| ContainsAt(s, w, k);
    forall g | g in Trigrams(w) ensures g in Trigrams(s) {
      var i: nat :| i + 3 <= |w| && g == Window(w, i);
      assert forall y :: 0 <= y < |w| ==> w[y] == s[k..k + |w|][y] == s[k + y];
      assert Window(s, k + i) == g;
    }
  }

  // ---- Patterns ----

  /** A pattern's tree, as `regex_syntax` gives it for text. */
  datatype Hir =
    | Empty
    | Literal(text: string)
    | UnicodeClass(ranges: seq<(char, char)>)
    | ByteClass(bytes: seq<(nat, nat)>)
    | Look(kind: nat)
    | Repetition(min: nat, max: Option<nat>, sub: Hir)
    | Capture(group: Hir)
    | Concat(parts: seq<Hir>)
    | Alternation(choices: seq<Hir>)

  /** Whether the anchor or word boundary `kind` holds at a position of a text. */
  type Looks = (nat, string, nat) -> bool

  /** `h` matches `s[i..j]`. */
  ghost predicate Matches(h: Hir, s: string, i: nat, j: nat, look: Looks)
    requires i <= j <= |s|
    decreases h, 0
  {
    match h
    case Empty => i == j
    case Literal(text) => s[i..j] == text
    case UnicodeClass(ranges) =>
      j == i + 1 && exists k :: 0 <= k < |ranges| && ranges[k].0 <= s[i] <= ranges[k].1
    case ByteClass(bytes) =>
      j == i + 1 && exists k :: 0 <= k < |bytes| && bytes[k].0 <= s[i] as int <= bytes[k].1
    case Look(kind) => i == j && look(kind, s, i)
    case Repetition(min, max, sub) =>
      exists n: nat :: min <= n && (max.Some? ==> n <= max.value) && MatchesTimes(sub, n, s, i, j, look)
    case Capture(group) => Matches(group, s, i, j, look)
    case Concat(parts) => MatchesAll(parts, s, i, j, look)
    case Alternation(choices) => exists k :: 0 <= k < |choices| && Matches(choices[k], s, i, j, look)
  }

  ghost predicate MatchesTimes(h: Hir, n: nat, s: string, i: nat, j: nat, look: Looks)
    requires i <= j <= |s|
    decreases h, n + 1
  {
    if n == 0 then i == j
    else exists m :: i <= m <= j && Matches(h, s, i, m, look) && MatchesTimes(h, n - 1, s, m, j, look)
  }

  ghost predicate MatchesAll(parts: seq<Hir>, s: string, i: nat, j: nat, look: Looks)
    requires i <= j <= |s|
    decreases parts, 0
  {
    if parts == [] then i == j
    else exists m :: i <= m <= j && Matches(parts[0], s, i, m, look) && MatchesAll(parts[1..], s, m, j, look)
  }

  ghost predicate IsMatch(h: Hir, s: string, look: Looks) {
    exists i, j :: 0 <= i <= j <= |s| && Matches(h, s, i, j, look)
  }

  // ---- The literal runs ----

  const CLASS_MAX: nat := 4

  function NextChar(c: char): char {
    if c as int == 0xD7FF then 0xE000 as char
    else if c as int >= 0x10FFFF then c
    else (c as int + 1) as char
  }

  /** The characters of a class, None past CLASS_MAX of them. */
  function ClassChars(ranges: seq<(char, char)>, acc: string): Option<string> {
    if ranges == [] then Some(acc)
    else
      var more :- RangeChars(ranges[0].0, ranges[0].1, acc);
      ClassChars(ranges[1..], more)
  }

  function RangeChars(from: char, last: char, acc: string): Option<string>
    decreases if from <= last then last as int - from as int + 1 else 0
  {
    if from > last then Some(acc)
    else
      var more := acc + [from];
      if |more| > CLASS_MAX then None
      else if from == last then Some(more)
      else RangeChars(NextChar(from), last, more)
  }

  /** The same for a class of bytes, None as well if one is not ASCII. */
  function ByteChars(ranges: seq<(nat, nat)>, acc: string): Option<string> {
    if ranges == [] then Some(acc)
    else
      var more :- ByteRangeChars(ranges[0].0, ranges[0].1, acc);
      ByteChars(ranges[1..], more)
  }

  function ByteRangeChars(from: nat, last: nat, acc: string): Option<string>
    decreases if from <= last then last - from + 1 else 0
  {
    if from > last then Some(acc)
    else if from >= 128 then None
    else
      var more := acc + [from as char];
      if |more| > CLASS_MAX then None else ByteRangeChars(from + 1, last, more)
  }

  /** A class whose characters are all one letter, upper or lower. */
  function OneLetter(chars: string, lc: LowerChar): Option<string> {
    if chars == "" then None
    else
      var first := lc(chars[0]);
      if forall k :: 0 <= k < |chars| ==> lc(chars[k]) == first then Some(first) else None
  }

  /** For a pattern of fixed letters only, those letters in lower case. */
  function LiteralOf(h: Hir, lc: LowerChar): Option<string> {
    match h
    case Literal(text) => Some(Lower(text, lc))
    case Capture(group) => LiteralOf(group, lc)
    case UnicodeClass(ranges) =>
      var chars :- ClassChars(ranges, "");
      OneLetter(chars, lc)
    case ByteClass(bytes) =>
      var chars :- ByteChars(bytes, "");
      OneLetter(chars, lc)
    case Concat(parts) => LiteralOfAll(parts, lc)
    case _ => None
  }

  function LiteralOfAll(parts: seq<Hir>, lc: LowerChar): Option<string> {
    if parts == [] then Some("")
    else
      var first :- LiteralOf(parts[0], lc);
      var rest :- LiteralOfAll(parts[1..], lc);
      Some(first + rest)
  }

  /** What `collect` pushes for `h`. */
  function Collected(h: Hir, lc: LowerChar): seq<string> {
    match LiteralOf(h, lc)
    case Some(s) => [s]
    case None =>
      match h
      case Capture(group) => Collected(group, lc)
      case Repetition(min, max, sub) => if min >= 1 then Collected(sub, lc) else []
      case Concat(parts) => CollectedAll(parts, "", lc)
      case _ => []
  }

  /** What it pushes for the rest of a concatenation, `run` being the literal run so far. */
  function CollectedAll(parts: seq<Hir>, run: string, lc: LowerChar): seq<string> {
    if parts == [] then [run]
    else match LiteralOf(parts[0], lc)
      case Some(s) => CollectedAll(parts[1..], run + s, lc)
      case None => [run] + Collected(parts[0], lc) + CollectedAll(parts[1..], "", lc)
  }

  method Collect(h: Hir, out: seq<string>, lc: LowerChar) returns (r: seq<string>)
    ensures r == out + Collected(h, lc)
    decreases h
  {
    r := out;
    var l := LiteralOf(h, lc);
    if l.Some? {
      return r + [l.value];
    }
    match h
    case Capture(group) => r := Collect(group, r, lc);
    case Repetition(min, max, sub) =>
      if min >= 1 { r := Collect(sub, r, lc); }
    case Concat(parts) =>
      var run := "";
      for k := 0 to |parts|
        invariant r + CollectedAll(parts[k..], run, lc) == out + CollectedAll(parts, "", lc)
      {
        match LiteralOf(parts[k], lc)
        case Some(s) =>
          run := run + s;
        case None =>
          r := r + [run];
          run := "";
          r := Collect(parts[k], r, lc);
        assert parts[k..][1..] == parts[k + 1..];
      }
      r := r + [run];
    case _ =>
  }

  /** What must be in the lowercase of any text the pattern matches. */
  method RequiredLiterals(h: Hir, lc: LowerChar) returns (r: seq<string>)
    ensures forall w :: w in r <==> w in Collected(h, lc) && w != ""
  {
    var all := Collect(h, [], lc);
    r := [];
    for k := 0 to |all|
      invariant forall w :: w in r <==> w in all[..k] && w != ""
    {
      if all[k] != "" { r := r + [all[k]]; }
    }
    assert all[..|all|] == all;
  }

  // ---- No match is lost ----

  lemma {:induction false} ClassIsListed(ranges: seq<(char, char)>, acc: string, c: char)
    requires ClassChars(ranges, acc).Some?
    ensures c in acc ==> c in ClassChars(ranges, acc).value
    ensures (exists k :: 0 <= k < |ranges| && ranges[k].0 <= c <= ranges[k].1) ==>
              c in ClassChars(ranges, acc).value
  {
    if ranges != [] {
      RangeIsListed(ranges[0].0, ranges[0].1, acc, c);
      ClassIsListed(ranges[1..], RangeChars(ranges[0].0, ranges[0].1, acc).value, c);
      if k :| 0 <= k < |ranges| && ranges[k].0 <= c <= ranges[k].1 {
        if k > 0 { assert ranges[1..][k - 1] == ranges[k]; }
      }
    }
  }

  lemma {:induction false} RangeIsListed(from: char, last: char, acc: string, c: char)
    requires RangeChars(from, last, acc).Some?
    ensures c in acc || from <= c <= last ==> c in RangeChars(from, last, acc).value
    decreases if from <= last then last as int - from as int + 1 else 0
  {
    if from < last {
      RangeIsListed(NextChar(from), last, acc + [from], c);
    }
  }

  lemma {:induction false} BytesAreListed(ranges: seq<(nat, nat)>, acc: string, c: char)
    requires ByteChars(ranges, acc).Some?
    ensures c in acc ==> c in ByteChars(ranges, acc).value
    ensures (exists k :: 0 <= k < |ranges| && ranges[k].0 <= c as int <= ranges[k].1) ==>
              c in ByteChars(ranges, acc).value
  {
    if ranges != [] {
      ByteRangeIsListed(ranges[0].0, ranges[0].1, acc, c);
      BytesAreListed(ranges[1..], ByteRangeChars(ranges[0].0, ranges[0].1, acc).value, c);
      if k :| 0 <= k < |ranges| && ranges[k].0 <= c as int <= ranges[k].1 {
        if k > 0 { assert ranges[1..][k - 1] == ranges[k]; }
      }
    }
  }

  lemma {:induction false} ByteRangeIsListed(from: nat, last: nat, acc: string, c: char)
    requires ByteRangeChars(from, last, acc).Some?
    ensures c in acc || from <= c as int <= last ==> c in ByteRangeChars(from, last, acc).value
    decreases if from <= last then last - from + 1 else 0
  {
    if from <= last {
      ByteRangeIsListed(from + 1, last, acc + [from as char], c);
    }
  }

  // ---- What is a literal ----

  /** How many characters a range has; those from D800 to DFFF are none. */
  function Span(from: char, last: char): nat {
    if from > last then 0
    else last as int - from as int + 1 - if from as int < 0xD800 && last as int >= 0xE000 then 0x800 else 0
  }

  function Letters(ranges: seq<(char, char)>): nat {
    if ranges == [] then 0 else Span(ranges[0].0, ranges[0].1) + Letters(ranges[1..])
  }

  function BytesIn(ranges: seq<(nat, nat)>): nat {
    if ranges == [] then 0
    else (if ranges[0].0 > ranges[0].1 then 0 else ranges[0].1 - ranges[0].0 + 1) + BytesIn(ranges[1..])
  }

  ghost predicate InClass(ranges: seq<(char, char)>, c: char) {
    exists k :: 0 <= k < |ranges| && ranges[k].0 <= c <= ranges[k].1
  }

  ghost predicate InBytes(ranges: seq<(nat, nat)>, c: nat) {
    exists k :: 0 <= k < |ranges| && ranges[k].0 <= c <= ranges[k].1
  }

  /** Fixed letters only: texts, classes of up to four characters that are one in lower case, and
      what is put together of these. */
  ghost predicate Fixed(h: Hir, lc: LowerChar) {
    match h
    case Literal(_) => true
    case Capture(group) => Fixed(group, lc)
    case UnicodeClass(ranges) =>
      1 <= Letters(ranges) <= 4 && forall c, d :: InClass(ranges, c) && InClass(ranges, d) ==> lc(c) == lc(d)
    case ByteClass(bytes) =>
      && 1 <= BytesIn(bytes) <= 4 && (forall k :: InBytes(bytes, k) ==> k < 128)
      && forall c: nat, d: nat :: InBytes(bytes, c) && InBytes(bytes, d) ==> lc(c as char) == lc(d as char)
    case Concat(parts) => forall k :: 0 <= k < |parts| ==> Fixed(parts[k], lc)
    case _ => false
  }

  lemma {:induction false} RangeIs(from: char, last: char, acc: string)
    requires |acc| <= CLASS_MAX
    ensures RangeChars(from, last, acc).Some? <==> |acc| + Span(from, last) <= CLASS_MAX
    ensures RangeChars(from, last, acc).Some? ==>
              && |RangeChars(from, last, acc).value| == |acc| + Span(from, last)
              && forall c :: c in RangeChars(from, last, acc).value ==> c in acc || from <= c <= last
    decreases if from <= last then last as int - from as int + 1 else 0
  {
    if from < last && |acc| < CLASS_MAX { RangeIs(NextChar(from), last, acc + [from]); }
  }

  lemma {:induction false} ClassIs(ranges: seq<(char, char)>, acc: string)
    requires |acc| <= CLASS_MAX
    ensures ClassChars(ranges, acc).Some? <==> |acc| + Letters(ranges) <= CLASS_MAX
    ensures ClassChars(ranges, acc).Some? ==>
              && |ClassChars(ranges, acc).value| == |acc| + Letters(ranges)
              && forall c :: c in ClassChars(ranges, acc).value ==> c in acc || InClass(ranges, c)
  {
    hide RangeChars, Span;
    if ranges != [] {
      var (from, last) := ranges[0];
      RangeIs(from, last, acc);
      var more := RangeChars(from, last, acc);
      if more.Some? {
        ClassIs(ranges[1..], more.value);
        forall c | InClass(ranges[1..], c) || from <= c <= last ensures InClass(ranges, c) {
          if InClass(ranges[1..], c) {
            var k :| 0 <= k < |ranges[1..]| && ranges[1..][k].0 <= c <= ranges[1..][k].1;
            assert ranges[k + 1] == ranges[1..][k];
          } else {
            assert ranges[0].0 <= c <= ranges[0].1;
          }
        }
      }
    }
  }

  lemma {:induction false} ByteRangeIs(from: nat, last: nat, acc: string)
    requires |acc| <= CLASS_MAX
    ensures var n := if from > last then 0 else last - from + 1;
            && (ByteRangeChars(from, last, acc).Some? <==> |acc| + n <= CLASS_MAX && (from <= last ==> last < 128))
            && (ByteRangeChars(from, last, acc).Some? ==>
                  && |ByteRangeChars(from, last, acc).value| == |acc| + n
                  && forall c :: c in ByteRangeChars(from, last, acc).value ==> c in acc || from <= c as int <= last)
    decreases if from <= last then last - from + 1 else 0
  {
    if from <= last && from < 128 && |acc| < CLASS_MAX { ByteRangeIs(from + 1, last, acc + [from as char]); }
  }

  lemma {:induction false} BytesAre(ranges: seq<(nat, nat)>, acc: string)
    requires |acc| <= CLASS_MAX
    ensures ByteChars(ranges, acc).Some? <==>
              |acc| + BytesIn(ranges) <= CLASS_MAX && forall k :: InBytes(ranges, k) ==> k < 128
    ensures ByteChars(ranges, acc).Some? ==>
              && |ByteChars(ranges, acc).value| == |acc| + BytesIn(ranges)
              && forall c :: c in ByteChars(ranges, acc).value ==> c in acc || InBytes(ranges, c as int)
  {
    hide ByteRangeChars;
    if ranges != [] {
      var (from, last) := ranges[0];
      ByteRangeIs(from, last, acc);
      FirstBytes(ranges);
      var more := ByteRangeChars(from, last, acc);
      if from <= last { assert InBytes(ranges, last); }
      if more.Some? { BytesAre(ranges[1..], more.value); }
    }
  }

  lemma FirstBytes(ranges: seq<(nat, nat)>)
    requires ranges != []
    ensures forall c :: InBytes(ranges, c) <==> ranges[0].0 <= c <= ranges[0].1 || InBytes(ranges[1..], c)
  {
    forall c ensures InBytes(ranges, c) <==> ranges[0].0 <= c <= ranges[0].1 || InBytes(ranges[1..], c) {
      if InBytes(ranges, c) {
        var k :| 0 <= k < |ranges| && ranges[k].0 <= c <= ranges[k].1;
        if k > 0 { assert ranges[1..][k - 1] == ranges[k]; }
      }
      if InBytes(ranges[1..], c) {
        var k :| 0 <= k < |ranges[1..]| && ranges[1..][k].0 <= c <= ranges[1..][k].1;
        assert ranges[k + 1] == ranges[1..][k];
      }
    }
  }

  /** Every pattern of fixed letters is taken as a literal, and no other. */
  lemma {:induction false} LiteralIs(h: Hir, lc: LowerChar)
    ensures LiteralOf(h, lc).Some? <==> Fixed(h, lc)
    decreases h, 0
  {
    hide ClassChars, ByteChars;
    match h
    case Capture(group) => LiteralIs(group, lc);
    case UnicodeClass(ranges) =>
      ClassIs(ranges, "");
      var chars := ClassChars(ranges, "");
      if chars.Some? {
        forall c ensures InClass(ranges, c) <==> c in chars.value { ClassIsListed(ranges, "", c); }
        OneLetterIs(chars.value, lc);
      }
    case ByteClass(bytes) =>
      BytesAre(bytes, "");
      var chars := ByteChars(bytes, "");
      if chars.Some? {
        forall c: char ensures InBytes(bytes, c as int) <==> c in chars.value { BytesAreListed(bytes, "", c); }
        OneLetterIs(chars.value, lc);
      }
    case Concat(parts) => LiteralsAre(parts, lc);
    case _ =>
  }

  lemma OneLetterIs(chars: string, lc: LowerChar)
    ensures OneLetter(chars, lc).Some? <==> chars != "" && forall c, d :: c in chars && d in chars ==> lc(c) == lc(d)
  {
    if chars != "" { assert chars[0] in chars && forall k :: 0 <= k < |chars| ==> chars[k] in chars; }
  }

  lemma {:induction false} LiteralsAre(parts: seq<Hir>, lc: LowerChar)
    ensures LiteralOfAll(parts, lc).Some? <==> forall k :: 0 <= k < |parts| ==> Fixed(parts[k], lc)
    decreases parts, 0
  {
    if parts != [] {
      LiteralIs(parts[0], lc);
      LiteralsAre(parts[1..], lc);
      assert forall k :: 0 < k < |parts| ==> parts[k] == parts[1..][k - 1];
    }
  }

  lemma LowerOne(c: char, lc: LowerChar)
    ensures Lower([c], lc) == lc(c)
  {
    assert [c][1..] == "";
  }

  /** A literal's every match is that text up to case. */
  lemma {:induction false} LiteralIsExact(h: Hir, s: string, i: nat, j: nat, look: Looks, lc: LowerChar)
    requires i <= j <= |s| && Matches(h, s, i, j, look)
    requires LiteralOf(h, lc).Some?
    ensures Lower(s[i..j], lc) == LiteralOf(h, lc).value
    decreases h, 0
  {
    match h
    case Literal(text) =>
    case Capture(group) => LiteralIsExact(group, s, i, j, look, lc);
    case UnicodeClass(ranges) =>
      ClassIsListed(ranges, "", s[i]);
      assert s[i..j] == [s[i]];
      LowerOne(s[i], lc);
    case ByteClass(bytes) =>
      BytesAreListed(bytes, "", s[i]);
      assert s[i..j] == [s[i]];
      LowerOne(s[i], lc);
    case Concat(parts) => LiteralsAreExact(parts, s, i, j, look, lc);
  }

  lemma {:induction false} LiteralsAreExact(parts: seq<Hir>, s: string, i: nat, j: nat, look: Looks, lc: LowerChar)
    requires i <= j <= |s| && MatchesAll(parts, s, i, j, look)
    requires LiteralOfAll(parts, lc).Some?
    ensures Lower(s[i..j], lc) == LiteralOfAll(parts, lc).value
    decreases parts, 0
  {
    if parts != [] {
      var m :| i <= m <= j && Matches(parts[0], s, i, m, look) && MatchesAll(parts[1..], s, m, j, look);
      LiteralIsExact(parts[0], s, i, m, look, lc);
      LiteralsAreExact(parts[1..], s, m, j, look, lc);
      LowerSplit(s, i, m, j, lc);
    }
  }

  lemma FirstTime(h: Hir, n: nat, s: string, i: nat, j: nat, look: Looks) returns (m: nat)
    requires i <= j <= |s| && n >= 1 && MatchesTimes(h, n, s, i, j, look)
    ensures i <= m <= j && Matches(h, s, i, m, look)
  {
    m :| i <= m <= j && Matches(h, s, i, m, look) && MatchesTimes(h, n - 1, s, m, j, look);
  }

  /** Every match contains every run collected. */
  lemma {:induction false} MatchHasRuns(h: Hir, s: string, i: nat, j: nat, look: Looks, lc: LowerChar, w: string)
    requires i <= j <= |s| && Matches(h, s, i, j, look)
    requires w in Collected(h, lc)
    ensures Contains(Lower(s[i..j], lc), w)
    decreases h, 0
  {
    if LiteralOf(h, lc).Some? {
      LiteralIsExact(h, s, i, j, look, lc);
      assert ContainsAt(w, w, 0);
    } else {
      match h
      case Capture(group) => MatchHasRuns(group, s, i, j, look, lc, w);
      case Repetition(min, max, sub) =>
        assert min >= 1;
        var n: nat :| min <= n && (max.Some? ==> n <= max.value) && MatchesTimes(sub, n, s, i, j, look);
        var m := FirstTime(sub, n, s, i, j, look);
        MatchHasRuns(sub, s, i, m, look, lc, w);
        LowerSplit(s, i, m, j, lc);
        ContainsIn("", Lower(s[i..m], lc), Lower(s[m..j], lc), w);
        assert "" + Lower(s[i..m], lc) == Lower(s[i..m], lc);
      case Concat(parts) => PartsHaveRuns(parts, "", s, i, i, j, look, lc, w);
    }
  }

  /** The same for the rest of a concatenation, the run so far being `s[from..i]`. */
  lemma {:induction false} PartsHaveRuns(parts: seq<Hir>, run: string, s: string, from: nat, i: nat, j: nat,
                                         look: Looks, lc: LowerChar, w: string)
    requires from <= i <= j <= |s| && MatchesAll(parts, s, i, j, look)
    requires Lower(s[from..i], lc) == run
    requires w in CollectedAll(parts, run, lc)
    ensures Contains(Lower(s[from..j], lc), w)
    decreases parts, 0
  {
    hide Lower, LiteralOf, Matches, Collected;
    if parts == [] {
      assert ContainsAt(w, w, 0);
    } else {
      var m :| i <= m <= j && Matches(parts[0], s, i, m, look) && MatchesAll(parts[1..], s, m, j, look);
      match LiteralOf(parts[0], lc)
      case Some(t) =>
        LiteralIsExact(parts[0], s, i, m, look, lc);
        LowerSplit(s, from, i, m, lc);
        PartsHaveRuns(parts[1..], run + t, s, from, m, j, look, lc, w);
      case None =>
        var a, b, c := Lower(s[from..i], lc), Lower(s[i..m], lc), Lower(s[m..j], lc);
        LowerSplit(s, from, i, m, lc);
        LowerSplit(s, from, m, j, lc);
        if w == run {
          assert ContainsAt(w, w, 0);
          ContainsIn("", a, b + c, w);
          assert "" + a + (b + c) == a + b + c;
        } else if w in Collected(parts[0], lc) {
          MatchHasRuns(parts[0], s, i, m, look, lc, w);
          ContainsIn(a, b, c, w);
        } else {
          assert s[m..m] == "";
          LowerNothing(lc);
          PartsHaveRuns(parts[1..], "", s, m, m, j, look, lc, w);
          ContainsIn(a + b, c, "", w);
          assert a + b + c + "" == a + b + c;
        }
    }
  }

  /** The index never loses a match: where a pattern matches, every run it requires is in
      the text's lowercase, and every trigram of the run among the text's. */
  lemma RequiredLiteralsAreFound(h: Hir, s: string, look: Looks, lc: LowerChar, w: string)
    requires IsMatch(h, s, look) && w in Collected(h, lc)
    ensures Contains(Lower(s, lc), w)
    ensures Trigrams(w) <= Trigrams(Lower(s, lc))
  {
    var i, j :| 0 <= i <= j <= |s| && Matches(h, s, i, j, look);
    MatchHasRuns(h, s, i, j, look, lc, w);
    LowerSplit(s, 0, i, j, lc);
    LowerSplit(s, 0, j, |s|, lc);
    assert s[0..|s|] == s;
    ContainsIn(Lower(s[0..i], lc), Lower(s[i..j], lc), Lower(s[j..|s|], lc), w);
    TrigramsOfPart(Lower(s, lc), w);
  }
}
