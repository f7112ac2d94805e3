/** What the store makes of an entry's contents (clip/src/lib.rs): the text it is searched
    by, its index terms, and the canonical form that tells a copy again. */
module Entries {
  import opened Wrappers
  import opened Codec
  import opened Order
  import opened Text
  import opened Records
  import opened Disk
  import opened Logs
  import opened PostingLists

  /** The functions outside the store: keyed hashes and AEAD, CRC, characters and their
      lowercase, the regex parser and the regex matcher, the FST's size. */
  datatype Env = Env(
    keys: Keys,
    crc: Crc,
    lower: LowerChar,
    utf8: bytes -> Option<string>,
    preview: string -> bytes,
    compile: bytes -> Option<Hir>,
    look: Looks,
    isMatch: (Hir, string) -> bool,
    fstBytes: map<u64, nat> -> nat)

  const MAX_ENTRY: nat := 0x400_0000

  function Ascii(s: string): bytes {
    seq(|s|, i requires 0 <= i < |s| => s[i] as int % 256)
  }

  function TextTypes(): seq<bytes> {
    [Ascii("text/plain;charset=utf-8"), Ascii("utf8_string"), Ascii("text/plain"), Ascii("string"), Ascii("text")]
  }

  const SLASH: byte := 47
  const SPACE: byte := 32
  const STAR: byte := 42

  function AsciiLower(b: bytes): bytes {
    seq(|b|, i requires 0 <= i < |b| => if 65 <= b[i] <= 90 then b[i] + 32 else b[i])
  }

  function WithoutSpaces(b: bytes): bytes {
    if b == [] then [] else (if b[0] == SPACE then [] else [b[0]]) + WithoutSpaces(b[1..])
  }

  // ---- The searched text ----

  /** The first content of type `t`. */
  function FindType(contents: seq<Content>, t: bytes): Option<Content> {
    if contents == [] then None
    else if AsciiLower(WithoutSpaces(contents[0].mime)) == t then Some(contents[0])
    else FindType(contents[1..], t)
  }

  function FirstOfTypes(env: Env, contents: seq<Content>, types: seq<bytes>): Option<string> {
    if types == [] then None
    else
      match FindType(contents, types[0])
      case Some(c) =>
        (match env.utf8(c.data)
         case Some(s) => Some(s)
         case None => FirstOfTypes(env, contents, types[1..]))
      case None => FirstOfTypes(env, contents, types[1..])
  }

  function FirstText(env: Env, contents: seq<Content>): Option<string> {
    if contents == [] then None
    else if Ascii("text/") <= AsciiLower(contents[0].mime) && env.utf8(contents[0].data).Some? then
      env.utf8(contents[0].data)
    else FirstText(env, contents[1..])
  }

  /** What words and patterns are matched against. */
  function PrimaryText(env: Env, contents: seq<Content>): Option<string> {
    match FirstOfTypes(env, contents, TextTypes())
    case Some(s) => Some(s)
    case None => FirstText(env, contents)
  }

  // ---- Index terms ----

  function Major(m: bytes): Option<bytes> {
    if m == [] then None
    else if m[0] == SLASH then Some([])
    else
      var rest :- Major(m[1..]);
      Some([m[0]] + rest)
  }

  /** The terms of one type: text/plain has text/plain and the wildcard of all text. */
  function TypeTerms(mime: bytes): seq<bytes> {
    var m := AsciiLower(mime);
    match Major(m)
    case Some(major) => [major + [SLASH, STAR], m]
    case None => [m]
  }

  ghost function TrigramTerms(env: Env, text: string): set<u64> {
    set g | g in Trigrams(Lower(text, env.lower)) :: env.keys.trigram(g)
  }

  ghost function TypeTermsOf(env: Env, contents: seq<Content>): set<u64> {
    set i, t | 0 <= i < |contents| && t in TypeTerms(contents[i].mime) :: env.keys.typeTerm(t)
  }

  /** Every term an entry of these contents is indexed under. */
  ghost function IndexTerms(env: Env, contents: seq<Content>): set<u64> {
    TypeTermsOf(env, contents)
    + match PrimaryText(env, contents)
      case Some(text) => TrigramTerms(env, text)
      case None => {}
  }

  // ---- sort and dedup ----

  lemma IdLeTotal()
    ensures Total(IdLe)
  {
  }

  function Dedup(s: seq<u64>): seq<u64> {
    if |s| < 2 then s
    else if s[0] == s[1] then Dedup(s[1..])
    else [s[0]] + Dedup(s[1..])
  }

  lemma {:induction false} DedupAscends(s: seq<u64>)
    requires Sorted(s, IdLe)
    ensures Ascending(Dedup(s))
    ensures Members(Dedup(s)) == Members(s)
    ensures s != [] ==> Dedup(s) != [] && Dedup(s)[0] == s[0]
  {
    if |s| >= 2 {
      DedupAscends(s[1..]);
      assert s == [s[0]] + s[1..];
      var d := Dedup(s[1..]);
      assert forall x :: x in d <==> x in Members(d);
      assert forall x :: x in s[1..] <==> x in Members(s[1..]);
      assert IdLe(s[0], s[1]);
    }
  }

  /** `sort_unstable` then `dedup`: the set, ascending. */
  function SortedSet(s: seq<u64>): seq<u64> {
    Dedup(Sort(s, IdLe))
  }

  lemma SortedSetIs(s: seq<u64>)
    ensures Ascending(SortedSet(s)) && Members(SortedSet(s)) == Members(s)
  {
    IdLeTotal();
    SortSorts(s, IdLe);
    DedupAscends(Sort(s, IdLe));
    assert forall x :: x in Sort(s, IdLe) <==> x in multiset(Sort(s, IdLe));
    assert forall x :: x in s <==> x in multiset(s);
  }

  // ---- The canonical form ----

  /** The order of `Vec<u8>`: lexicographic. */
  function BytesLe(a: bytes, b: bytes): bool {
    if a == [] then true
    else if b == [] then false
    else a[0] < b[0] || (a[0] == b[0] && BytesLe(a[1..], b[1..]))
  }

  function ContentLe(a: Content, b: Content): bool {
    if a.mime == b.mime then BytesLe(a.data, b.data) else BytesLe(a.mime, b.mime)
  }

  lemma {:induction false} BytesLeTotal(a: bytes, b: bytes)
    ensures BytesLe(a, b) || BytesLe(b, a)
    ensures BytesLe(a, b) && BytesLe(b, a) ==> a == b
  {
    if a != [] && b != [] {
      BytesLeTotal(a[1..], b[1..]);
      assert a == [a[0]] + a[1..] && b == [b[0]] + b[1..];
    }
  }

  lemma {:induction false} BytesLeTransitive(a: bytes, b: bytes, c: bytes)
    requires BytesLe(a, b) && BytesLe(b, c)
    ensures BytesLe(a, c)
  {
    if a != [] && b != [] && c != [] && a[0] == b[0] == c[0] {
      BytesLeTransitive(a[1..], b[1..], c[1..]);
    }
  }

  lemma {:induction false} BytesLeReflexive(a: bytes)
    ensures BytesLe(a, a)
  {
    if a != [] { BytesLeReflexive(a[1..]); }
  }

  lemma ContentLeTotal()
    ensures Total(ContentLe)
  {
    forall x, y ensures ContentLe(x, y) || ContentLe(y, x)
                ensures ContentLe(x, y) && ContentLe(y, x) ==> x == y {
      BytesLeTotal(x.mime, y.mime);
      BytesLeTotal(x.data, y.data);
    }
    forall x, y, z | ContentLe(x, y) && ContentLe(y, z) ensures ContentLe(x, z) {
      if x.mime == y.mime && y.mime == z.mime {
        BytesLeTransitive(x.data, y.data, z.data);
      } else if x.mime != y.mime && y.mime != z.mime {
        BytesLeTransitive(x.mime, y.mime, z.mime);
        BytesLeTotal(x.mime, y.mime);
      }
    }
  }

  function PutContents(s: seq<Content>): bytes {
    if s == [] then [] else PutBytes(s[0].mime) + PutBytes(s[0].data) + PutContents(s[1..])
  }

  /** One form for every order of the same contents. */
  function Canonical(contents: seq<Content>): bytes {
    PutContents(Sort(contents, ContentLe))
  }

  ghost predicate Encodable(contents: seq<Content>) {
    forall c :: c in contents ==> |c.mime| < TWO_64 && |c.data| < TWO_64
  }

  lemma {:induction false} PutContentsInjective(a: seq<Content>, b: seq<Content>)
    requires Encodable(a) && Encodable(b) && PutContents(a) == PutContents(b)
    ensures a == b
  {
    hide PutBytes, GetBytes;
    if a != [] { NotEmpty(a); }
    if b != [] { NotEmpty(b); }
    if a != [] {
      assert a[0] in a && b[0] in b;
      FirstContent(a[0].mime, a[0].data, PutContents(a[1..]));
      FirstContent(b[0].mime, b[0].data, PutContents(b[1..]));
      PutContentsInjective(a[1..], b[1..]);
      assert a == [a[0]] + a[1..] && b == [b[0]] + b[1..];
    }
  }

  lemma NotEmpty(a: seq<Content>)
    requires a != []
    ensures |PutContents(a)| > 0
  {
  }

  lemma FirstContent(m: bytes, d: bytes, rest: bytes)
    requires |m| < TWO_64 && |d| < TWO_64
    ensures var b := PutBytes(m) + PutBytes(d) + rest;
            && GetBytes(b, 0) == Some((m, |PutBytes(m)|))
            && GetBytes(b, |PutBytes(m)|) == Some((d, |PutBytes(m)| + |PutBytes(d)|))
            && b[|PutBytes(m)| + |PutBytes(d)|..] == rest
  {
    hide *;
    var x, y := PutBytes(m), PutBytes(d);
    var b := x + y + rest;
    ThreeParts(b, 0, x, y, rest);
    BytesRoundTrip(b, 0, m);
    BytesRoundTrip(b, |x|, d);
  }

  /** Two canonical forms are equal exactly when the contents are the same, in any order. */
  lemma CanonicalIsExact(a: seq<Content>, b: seq<Content>)
    requires Encodable(a) && Encodable(b)
    ensures Canonical(a) == Canonical(b) <==> multiset(a) == multiset(b)
  {
    hide *;
    if multiset(a) == multiset(b) { SameContentsSameForm(a, b); }
    if Canonical(a) == Canonical(b) { SameFormSameContents(a, b); }
  }

  lemma SameContentsSameForm(a: seq<Content>, b: seq<Content>)
    requires multiset(a) == multiset(b)
    ensures Canonical(a) == Canonical(b)
  {
    hide ContentLe, Sort, PutContents, Total, Sorted;
    ContentLeTotal();
    SortSorts(a, ContentLe);
    SortSorts(b, ContentLe);
    SortedUnique(Sort(a, ContentLe), Sort(b, ContentLe), ContentLe);
  }

  lemma SameFormSameContents(a: seq<Content>, b: seq<Content>)
    requires Encodable(a) && Encodable(b) && Canonical(a) == Canonical(b)
    ensures multiset(a) == multiset(b)
  {
    hide ContentLe, Sort, PutContents;
    var x, y := Sort(a, ContentLe), Sort(b, ContentLe);
    SameItems(x, a);
    SameItems(y, b);
    PutContentsInjective(x, y);
  }

  lemma SameItems(x: seq<Content>, a: seq<Content>)
    requires multiset(x) == multiset(a)
    ensures forall c :: c in x ==> c in a
  {
    forall c | c in x
      ensures c in a
    {
      assert c in multiset(x) && c in multiset(a);
    }
  }

  // ---- Sizes ----

  /** The types' names and the contents together. */
  function SizeOf(contents: seq<Content>): nat {
    if contents == [] then 0 else |contents[0].mime| + |contents[0].data| + SizeOf(contents[1..])
  }

  /** Every content counts once, with its type's name and its data. */
  lemma {:induction false} SizeAdds(contents: seq<Content>, mime: bytes, data: bytes)
    ensures SizeOf([]) == 0
    ensures SizeOf(contents + [Content(mime, data)]) == SizeOf(contents) + |mime| + |data|
  {
    var more := contents + [Content(mime, data)];
    if contents == [] {
      assert more[1..] == [];
    } else {
      SizeAdds(contents[1..], mime, data);
      assert more[1..] == contents[1..] + [Content(mime, data)];
    }
  }

  lemma {:induction false} SizeBounds(contents: seq<Content>)
    ensures forall c :: c in contents ==> |c.mime| <= SizeOf(contents) && |c.data| <= SizeOf(contents)
  {
    if contents != [] {
      SizeBounds(contents[1..]);
      assert contents == [contents[0]] + contents[1..];
    }
  }
}
