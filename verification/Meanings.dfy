/** What a search is to find, said of an entry itself: which events it has, what its text is
    and says, which types it offers. The search's own conditions, words and terms are proved to
    come to this. */
module Meanings {
  import opened Wrappers
  import opened Codec
  import opened Text
  import opened Records
  import opened Entries
  import opened Stores
  import opened Searching

  // ---- The searched text ----

  /** The byte is the character, in either case; `c` is not an upper-case letter. */
  predicate Letter(b: byte, c: char) {
    b == c as int || ('A' as int <= b <= 'Z' as int && b - 'A' as int == c as int - 'a' as int)
  }

  /** The type is this name, whatever its case and with spaces anywhere. */
  predicate Spelled(mime: bytes, name: string) {
    if mime == [] then name == ""
    else if mime[0] == ' ' as int then Spelled(mime[1..], name)
    else name != "" && Letter(mime[0], name[0]) && Spelled(mime[1..], name[1..])
  }

  /** The names of text, the best first. */
  const NAMES: seq<string> := ["text/plain;charset=utf-8", "utf8_string", "text/plain", "string", "text"]

  predicate FirstCalled(contents: seq<Content>, name: string, i: nat) {
    && i < |contents| && Spelled(contents[i].mime, name)
    && forall j :: 0 <= j < i ==> !Spelled(contents[j].mime, name)
  }

  /** The first content of the `n`-th name is this text. */
  ghost predicate Gives(env: Env, contents: seq<Content>, n: nat, text: string)
    requires n < |NAMES|
  {
    exists i: nat :: FirstCalled(contents, NAMES[n], i) && env.utf8(contents[i].data) == Some(text)
  }

  predicate BeginsAsText(mime: bytes) {
    |mime| >= 5 && forall k :: 0 <= k < 5 ==> Letter(mime[k], "text/"[k])
  }

  predicate ReadableText(env: Env, c: Content) {
    BeginsAsText(c.mime) && env.utf8(c.data).Some?
  }

  /** The first content of any type of text that can be read. */
  ghost predicate FirstReadable(env: Env, contents: seq<Content>, i: nat) {
    && i < |contents| && ReadableText(env, contents[i])
    && forall j :: 0 <= j < i ==> !ReadableText(env, contents[j])
  }

  /** This is the text searched: that of the best name that gives one, or else the first of any
      other type of text. */
  ghost predicate IsText(env: Env, contents: seq<Content>, text: string) {
    || (exists n: nat :: n < |NAMES| && Gives(env, contents, n, text)
                         && forall m: nat, x :: m < n ==> !Gives(env, contents, m, x))
    || ((forall m: nat, x :: m < |NAMES| ==> !Gives(env, contents, m, x))
        && exists i: nat :: FirstReadable(env, contents, i) && env.utf8(contents[i].data) == Some(text))
  }

  predicate Plain(name: string) {
    forall k :: 0 <= k < |name| ==> name[k] as int < 256 && name[k] != ' ' && !('A' <= name[k] <= 'Z')
  }

  lemma LowerCut(b: bytes)
    requires b != []
    ensures AsciiLower(b) == AsciiLower([b[0]]) + AsciiLower(b[1..])
  {
  }

  lemma {:induction false} SpelledIs(mime: bytes, name: string)
    requires Plain(name)
    ensures Spelled(mime, name) <==> AsciiLower(WithoutSpaces(mime)) == Ascii(name)
  {
    if mime != [] {
      if mime[0] == ' ' as int {
        SpelledIs(mime[1..], name);
      } else {
        var rest := WithoutSpaces(mime[1..]);
        LowerCut([mime[0]] + rest);
        assert ([mime[0]] + rest)[1..] == rest && WithoutSpaces(mime) == [mime[0]] + rest;
        if name == "" {
          assert |AsciiLower(WithoutSpaces(mime))| > 0;
        } else {
          SpelledIs(mime[1..], name[1..]);
          LetterIs(mime[0], name[0]);
          assert Ascii(name) == [name[0] as int] + Ascii(name[1..]);
          SameCons(AsciiLower([mime[0]])[0], AsciiLower(rest), name[0] as int, Ascii(name[1..]));
          assert AsciiLower([mime[0]]) == [AsciiLower([mime[0]])[0]];
        }
      }
    }
  }

  lemma LetterIs(b: byte, c: char)
    requires c as int < 256 && !('A' <= c <= 'Z')
    ensures AsciiLower([b])[0] == c as int <==> Letter(b, c)
  {
  }

  lemma SameCons(a: byte, x: bytes, b: byte, y: bytes)
    ensures [a] + x == [b] + y <==> a == b && x == y
  {
    if [a] + x == [b] + y {
      assert ([a] + x)[0] == a && ([b] + y)[0] == b && ([a] + x)[1..] == x && ([b] + y)[1..] == y;
    }
  }

  lemma NamesPlain(n: nat)
    requires n < |NAMES|
    ensures Plain(NAMES[n]) && TextTypes()[n] == Ascii(NAMES[n]) && |TextTypes()| == |NAMES| == 5
  {
  }

  lemma {:induction false} FindTypeIs(contents: seq<Content>, name: string) returns (i: nat)
    requires Plain(name)
    ensures FindType(contents, Ascii(name)).Some? ==>
              FirstCalled(contents, name, i) && FindType(contents, Ascii(name)) == Some(contents[i])
    ensures FindType(contents, Ascii(name)).None? ==> forall j :: 0 <= j < |contents| ==>
            !Spelled(contents[j].mime, name)
  {
    hide AsciiLower, WithoutSpaces, Spelled, Ascii;
    i := 0;
    if contents != [] {
      SpelledIs(contents[0].mime, name);
      if !Spelled(contents[0].mime, name) {
        i := FindTypeIs(contents[1..], name);
        i := i + 1;
        assert forall j :: 0 < j < |contents| ==> contents[j] == contents[1..][j - 1];
      }
    }
  }

  /** A name gives the text of the content found for it, if that can be read. */
  lemma GivesIs(env: Env, contents: seq<Content>, n: nat)
    requires n < |NAMES|
    ensures var found := FindType(contents, TextTypes()[n]);
            forall x :: Gives(env, contents, n, x) <==> found.Some? && env.utf8(found.value.data) == Some(x)
  {
    hide FindType, Spelled, TextTypes, Ascii, Plain;
    NamesPlain(n);
    var i := FindTypeIs(contents, NAMES[n]);
    forall j: nat | FirstCalled(contents, NAMES[n], j) && FirstCalled(contents, NAMES[n], i) ensures j == i {
    }
  }

  lemma {:induction false} NamedIs(env: Env, contents: seq<Content>, n: nat)
    requires n <= |NAMES| == |TextTypes()|
    ensures var r := FirstOfTypes(env, contents, TextTypes()[n..]);
            && (r.Some? ==> exists m: nat :: n <= m < |NAMES| && Gives(env, contents, m, r.value)
                              && forall k: nat, x :: n <= k < m ==> !Gives(env, contents, k, x))
            && (r.None? ==> forall k: nat, x :: n <= k < |NAMES| ==> !Gives(env, contents, k, x))
    decreases |NAMES| - n
  {
    hide FindType, TextTypes, Gives;
    if n < |NAMES| {
      var ts := TextTypes()[n..];
      assert ts[0] == TextTypes()[n] && ts[1..] == TextTypes()[n + 1..];
      GivesIs(env, contents, n);
      NamedIs(env, contents, n + 1);
    }
  }

  lemma {:induction false} FirstTextIs(env: Env, contents: seq<Content>) returns (i: nat)
    ensures FirstText(env, contents).Some? ==>
              FirstReadable(env, contents, i) && env.utf8(contents[i].data) == FirstText(env, contents)
    ensures FirstText(env, contents).None? ==> forall j :: 0 <= j < |contents| ==> !ReadableText(env, contents[j])
  {
    hide AsciiLower, Ascii, BeginsAsText;
    i := 0;
    if contents != [] {
      BeginsIs(contents[0].mime);
      if !ReadableText(env, contents[0]) {
        i := FirstTextIs(env, contents[1..]);
        i := i + 1;
        assert forall j :: 0 < j < |contents| ==> contents[j] == contents[1..][j - 1];
      }
    }
  }

  lemma BeginsIs(mime: bytes)
    ensures Ascii("text/") <= AsciiLower(mime) <==> BeginsAsText(mime)
  {
    var name, low := Ascii("text/"), AsciiLower(mime);
    if |mime| >= 5 {
      assert name <= low <==> forall k :: 0 <= k < 5 ==> name[k] == low[k];
      forall k | 0 <= k < 5 ensures name[k] == low[k] <==> Letter(mime[k], "text/"[k]) {
      }
    }
  }

  /** The text searched is the one said. */
  lemma TextIs(env: Env, contents: seq<Content>, text: string)
    ensures PrimaryText(env, contents) == Some(text) <==> IsText(env, contents, text)
  {
    hide FirstOfTypes, FirstText, Gives, FirstReadable, ReadableText, TextTypes;
    var r := FirstOfTypes(env, contents, TextTypes());
    NamesPlain(0);
    assert TextTypes()[0..] == TextTypes();
    NamedIs(env, contents, 0);
    if r.None? {
      var i := FirstTextIs(env, contents);
      OneReadable(env, contents, i);
    } else {
      OneGiven(env, contents);
    }
  }

  lemma OneReadable(env: Env, contents: seq<Content>, i: nat)
    ensures forall j: nat :: FirstReadable(env, contents, i) && FirstReadable(env, contents, j) ==> i == j
    ensures forall j: nat :: FirstReadable(env, contents, j) ==> j < |contents| && ReadableText(env, contents[j])
  {
    hide ReadableText;
  }

  lemma OneGiven(env: Env, contents: seq<Content>)
    ensures forall n: nat, x, y :: n < |NAMES| && Gives(env, contents, n, x) && Gives(env, contents, n, y) ==> x == y
  {
    hide FindType, TextTypes, Gives;
    forall n: nat, x, y | n < |NAMES| && Gives(env, contents, n, x) && Gives(env, contents, n, y) ensures x == y {
      GivesIs(env, contents, n);
    }
  }

  // ---- Lowercase ----

  /** A text in lower case: that of each of its characters, one after another. */
  function Fold(text: string, lc: LowerChar): string {
    if text == "" then "" else Fold(text[..|text| - 1], lc) + lc(text[|text| - 1])
  }

  lemma {:induction false} FoldIs(text: string, lc: LowerChar)
    ensures Fold(text, lc) == Lower(text, lc)
  {
    if text != "" {
      var most, last := text[..|text| - 1], text[|text| - 1..];
      FoldIs(most, lc);
      LowerConcat(most, last, lc);
      LowerOfOne(last, lc);
      assert most + last == text;
    }
  }

  lemma LowerOfOne(s: string, lc: LowerChar)
    requires |s| == 1
    ensures Lower(s, lc) == lc(s[0])
  {
    assert s[1..] == "" && lc(s[0]) + "" == lc(s[0]);
  }

  // ---- Words and pattern ----

  ghost predicate Has(text: string, word: string) {
    exists k: nat :: SitsAt(text, word, k)
  }

  predicate SitsAt(text: string, word: string, k: nat) {
    k + |word| <= |text| && text[k..k + |word|] == word
  }

  /** Nothing is asked of the text, or there is one, every word is in it whatever the case, and
      the pattern matches in it. */
  ghost predicate Worded(env: Env, q: Query, contents: seq<Content>) {
    || (q.pattern.None? && forall w :: w in q.textTerms ==> Fold(w, env.lower) == "")
    || exists text :: IsText(env, contents, text) && Says(env, q, text)
  }

  ghost predicate Says(env: Env, q: Query, text: string) {
    && (forall w :: w in q.textTerms ==> Has(Fold(text, env.lower), Fold(w, env.lower)))
    && (q.pattern.Some? ==>
          env.compile(q.pattern.value).Some? && IsMatch(env.compile(q.pattern.value).value, text, env.look))
  }

  lemma {:induction false} WordsAre(env: Env, terms: seq<string>)
    ensures forall w :: w in WordsOf(env, terms) <==> w != "" && exists t :: t in terms && w == Lower(t, env.lower)
  {
    hide Lower;
    if terms != [] {
      var rest, head := terms[1..], Lower(terms[0], env.lower);
      WordsAre(env, rest);
      assert terms[0] in terms && forall t :: t in rest ==> t in terms;
      assert forall w :: w in WordsOf(env, terms) <==> (w != "" && w == head) || w in WordsOf(env, rest);
      hide WordsOf;
      forall w | w != "" && exists t :: t in terms && w == Lower(t, env.lower) ensures w in WordsOf(env, terms) {
        var t :| t in terms && w == Lower(t, env.lower);
        assert t == terms[0] || t in rest;
      }
    }
  }

  lemma HasIs(text: string, w: string)
    ensures Has(text, w) <==> Contains(text, w)
    ensures Has(text, "")
  {
    if Has(text, w) {
      var k: nat :| SitsAt(text, w, k);
      assert ContainsAt(text, w, k);
    }
    if Contains(text, w) {
      var k: nat :| ContainsAt(text, w, k);
      assert SitsAt(text, w, k);
    }
    assert SitsAt(text, "", 0);
  }

  /** The words in the text are the terms in it. */
  lemma AllHad(env: Env, terms: seq<string>, text: string)
    ensures (forall w :: w in WordsOf(env, terms) ==> Contains(Lower(text, env.lower), w)) <==>
            forall t :: t in terms ==> Has(Fold(text, env.lower), Fold(t, env.lower))
  {
    hide Lower, Fold, WordsOf, Contains, Has;
    WordsAre(env, terms);
    FoldIs(text, env.lower);
    var low := Lower(text, env.lower);
    forall w { HasIs(low, w); }
    forall t ensures Fold(t, env.lower) == Lower(t, env.lower) { FoldIs(t, env.lower); }
    if forall w :: w in WordsOf(env, terms) ==> Contains(low, w) {
      forall t | t in terms ensures Has(Fold(text, env.lower), Fold(t, env.lower)) {
        var w := Lower(t, env.lower);
        assert w == "" || w in WordsOf(env, terms);
        assert Has(low, w);
      }
    }
    if forall t :: t in terms ==> Has(Fold(text, env.lower), Fold(t, env.lower)) {
      forall w | w in WordsOf(env, terms) ensures Contains(low, w) {
        var t :| t in terms && w == Lower(t, env.lower);
        assert Has(Fold(text, env.lower), Fold(t, env.lower));
      }
    }
  }

  lemma NoWords(env: Env, terms: seq<string>)
    ensures WordsOf(env, terms) == [] <==> forall t :: t in terms ==> Fold(t, env.lower) == ""
  {
    hide Lower, Fold, WordsOf;
    WordsAre(env, terms);
    forall t | t in terms ensures Fold(t, env.lower) == Lower(t, env.lower) { FoldIs(t, env.lower); }
    assert forall t :: t in terms ==> Lower(t, env.lower) == "" || Lower(t, env.lower) in WordsOf(env, terms);
    if WordsOf(env, terms) != [] {
      var w := WordsOf(env, terms)[0];
      assert w in WordsOf(env, terms);
    }
  }

  lemma WordedIs(env: Env, q: Query, contents: seq<Content>)
    requires q.pattern.Some? ==> env.compile(q.pattern.value).Some?
    ensures TextFits(env, WordsOf(env, q.textTerms), PatternAsked(env, q), contents) <==> Worded(env, q, contents)
  {
    hide Lower, Fold, WordsOf, Contains, Has, IsMatch, PrimaryText, IsText;
    NoWords(env, q.textTerms);
    var p := PrimaryText(env, contents);
    forall text ensures IsText(env, contents, text) <==> p == Some(text) {
      TextIs(env, contents, text);
    }
    if PrimaryText(env, contents).Some? {
      var text := PrimaryText(env, contents).value;
      AllHad(env, q.textTerms, text);
      assert IsText(env, contents, text);
      assert Worded(env, q, contents) <==> (q.pattern.None? && WordsOf(env, q.textTerms) == []) || Says(env, q, text);
      assert PatternAsked(env, q).None? <==> q.pattern.None?;
    }
  }

  // ---- Types ----

  predicate InLower(b: bytes, low: bytes) {
    && |low| == |b|
    && forall i :: 0 <= i < |b| ==>
                     low[i] == if 'A' as int <= b[i] <= 'Z' as int then b[i] - 'A' as int + 'a' as int else b[i]
  }

  /** The type itself, or every type of what comes before its first slash. */
  ghost predicate IsTermOf(mime: bytes, x: bytes) {
    exists low ::
      && InLower(mime, low)
      && (x == low
          || exists k: nat :: FirstSlash(low, k) && x == low[..k] + ['/' as int, '*' as int])
  }

  predicate FirstSlash(b: bytes, k: nat) {
    k < |b| && b[k] == '/' as int && forall j :: 0 <= j < k ==> b[j] != '/' as int
  }

  /** One of the types asked for is, but for collisions of the hashes, a type of the contents,
      all types of the sort of one, or three characters in a row of the searched text. */
  ghost predicate Typed(env: Env, asked: seq<bytes>, contents: seq<Content>) {
    exists i, low :: 0 <= i < |asked| && InLower(asked[i], low) && Indexed(env, contents, env.keys.typeTerm(low))
  }

  ghost predicate Indexed(env: Env, contents: seq<Content>, h: u64) {
    || (exists k, x :: 0 <= k < |contents| && IsTermOf(contents[k].mime, x) && env.keys.typeTerm(x) == h)
    || exists text :: IsText(env, contents, text) && HasThree(env, text, h)
  }

  ghost predicate HasThree(env: Env, text: string, h: u64) {
    exists g, j: nat :: |g| == 3 && SitsAt(Fold(text, env.lower), g, j) && env.keys.trigram(g) == h
  }

  lemma InLowerIs(b: bytes, low: bytes)
    ensures InLower(b, low) <==> low == AsciiLower(b)
  {
  }

  lemma {:induction false} MajorIs(m: bytes)
    ensures Major(m).None? ==> forall k: nat :: !FirstSlash(m, k)
    ensures Major(m).Some? ==> FirstSlash(m, |Major(m).value|) && Major(m).value == m[..|Major(m).value|]
  {
    if m != [] && m[0] != SLASH {
      MajorIs(m[1..]);
      SlashLater(m);
      if Major(m).Some? {
        var r := Major(m[1..]).value;
        assert m[..|r| + 1] == [m[0]] + m[1..][..|r|];
        assert forall j :: 0 < j < |m| ==> m[j] == m[1..][j - 1];
      }
    }
  }

  lemma SlashLater(m: bytes)
    requires m != [] && m[0] != '/' as int
    ensures forall k: nat :: FirstSlash(m, k) ==> k > 0 && FirstSlash(m[1..], k - 1)
  {
  }

  lemma OneSlash(m: bytes, j: nat, k: nat)
    requires FirstSlash(m, j) && FirstSlash(m, k)
    ensures j == k
  {
  }

  lemma TermsAre(mime: bytes, x: bytes)
    ensures x in TypeTerms(mime) <==> IsTermOf(mime, x)
  {
    hide AsciiLower, Major, InLower, FirstSlash;
    var m := AsciiLower(mime);
    forall low ensures InLower(mime, low) <==> low == m { InLowerIs(mime, low); }
    assert InLower(mime, m);
    MajorIs(m);
    if Major(m).Some? {
      var k := |Major(m).value|;
      forall j: nat | FirstSlash(m, j) ensures j == k { OneSlash(m, j, k); }
      assert FirstSlash(m, k);
    }
  }

  lemma IndexedIs(env: Env, contents: seq<Content>, h: u64)
    ensures h in IndexTerms(env, contents) <==> Indexed(env, contents, h)
  {
    hide TypeTerms, IsTermOf, PrimaryText, IsText, HasThree, TrigramTerms;
    forall k, x | 0 <= k < |contents| ensures x in TypeTerms(contents[k].mime) <==> IsTermOf(contents[k].mime, x) {
      TermsAre(contents[k].mime, x);
    }
    forall text ensures PrimaryText(env, contents) == Some(text) <==> IsText(env, contents, text) {
      TextIs(env, contents, text);
    }
    assert h in TypeTermsOf(env, contents) <==>
           exists k, x :: 0 <= k < |contents| && IsTermOf(contents[k].mime, x) && env.keys.typeTerm(x) == h;
    if PrimaryText(env, contents).Some? {
      var text := PrimaryText(env, contents).value;
      assert IsText(env, contents, text);
      TrigramIs(env, text, h);
    }
  }

  lemma TrigramIs(env: Env, text: string, h: u64)
    ensures h in TrigramTerms(env, text) <==> HasThree(env, text, h)
  {
    hide Lower, Fold;
    FoldIs(text, env.lower);
    var low := Lower(text, env.lower);
    if h in TrigramTerms(env, text) {
      var g :| g in Trigrams(low) && env.keys.trigram(g) == h;
      var j: nat :| j + 3 <= |low| && Window(low, j) == g;
      assert SitsAt(low, g, j);
    }
    if g, j: nat :| |g| == 3 && SitsAt(low, g, j) && env.keys.trigram(g) == h {
      assert Window(low, j) == g;
      assert g in Trigrams(low);
    }
  }

  lemma TypedIs(env: Env, q: Query, contents: seq<Content>)
    requires q.types.Some?
    ensures TypesFit(env, TypesAsked(env, q).value, contents) <==> Typed(env, q.types.value, contents)
  {
    hide IndexTerms, Indexed, AsciiLower, InLower;
    var asked, hashes := q.types.value, TypesAsked(env, q).value;
    forall h ensures h in IndexTerms(env, contents) <==> Indexed(env, contents, h) { IndexedIs(env, contents, h); }
    forall i, low | 0 <= i < |asked| ensures InLower(asked[i], low) <==> low == AsciiLower(asked[i]) {
      InLowerIs(asked[i], low);
    }
    if TypesFit(env, hashes, contents) {
      var h :| h in hashes && h in IndexTerms(env, contents);
      var i :| 0 <= i < |hashes| && hashes[i] == h;
      assert InLower(asked[i], AsciiLower(asked[i]));
    }
    if Typed(env, asked, contents) {
      var i, low :| 0 <= i < |asked| && InLower(asked[i], low) && Indexed(env, contents, env.keys.typeTerm(low));
      assert hashes[i] in hashes;
    }
  }

  // ---- Times ----

  const LAST_MOMENT: i64 := 0x7fff_ffff_ffff_ffff

  /** No further from `t` than `w` either way; the very last moment is never within. */
  predicate Within(at: int, t: int, w: int) {
    (if at >= t then at - t else t - at) <= (if w >= 0 then w else -w) && at != LAST_MOMENT
  }

  /** Each range given has its event: a copy in one, a paste in the other, either around. */
  ghost predicate OnTime(q: Query, item: Item) {
    && (q.copied.Some? ==> exists at: i64 :: at in item.copies && q.copied.value.0 <= at < q.copied.value.1)
    && (q.pasted.Some? ==> exists at: i64 :: at in item.pastes && q.pasted.value.0 <= at < q.pasted.value.1)
    && (q.around.Some? ==>
          exists at: i64 ::
            (at in item.copies || at in item.pastes) && Within(at, q.around.value.0, q.around.value.1))
  }

  /** An event at the very last moment there is is around no time, not even its own. */
  lemma LastMomentMissed(env: Env, q: Query, a: Abs, id: int, w: i64)
    requires q.around == Some((LAST_MOMENT, w)) && w != I64_MIN && id in a.items
    requires forall at: i64 :: at in a.items[id].copies || at in a.items[id].pastes ==> at == LAST_MOMENT
    ensures !Hit(env, q, a, id)
  {
    OnTimeIs(q, a.items[id]);
  }

  lemma WithinIs(at: i64, t: i64, w: i64)
    requires w != I64_MIN
    ensures Around(t, w).from <= at < Around(t, w).upto <==> Within(at, t, w)
  {
  }

  lemma AroundIs(t: i64, w: i64, item: Item)
    requires w != I64_MIN
    ensures CondFits(Around(t, w), item) <==>
            exists at: i64 :: (at in item.copies || at in item.pastes) && Within(at, t, w)
  {
    hide Within;
    var c: Cond := Around(t, w);
    assert c.copies && c.pastes;
    forall at: i64 ensures c.from <= at < c.upto <==> Within(at, t, w) { WithinIs(at, t, w); }
    hide Around;
  }

  lemma OnTimeIs(q: Query, item: Item)
    requires q.around.Some? ==> q.around.value.1 != I64_MIN
    ensures (forall c :: c in CondsOf(q) ==> CondFits(c, item)) <==> OnTime(q, item)
  {
    hide Around, Within;
    if q.around.Some? { AroundIs(q.around.value.0, q.around.value.1, item); }
    RangeIs(q, item);
    hide CondFits;
    var cs := CondsOf(q);
    assert q.copied.Some? ==> Cond(true, false, q.copied.value.0, q.copied.value.1) in cs;
    assert q.pasted.Some? ==> Cond(false, true, q.pasted.value.0, q.pasted.value.1) in cs;
    assert q.around.Some? ==> Around(q.around.value.0, q.around.value.1) in cs;
  }

  lemma RangeIs(q: Query, item: Item)
    ensures q.copied.Some? ==>
              (CondFits(Cond(true, false, q.copied.value.0, q.copied.value.1), item) <==>
               exists at: i64 :: at in item.copies && q.copied.value.0 <= at < q.copied.value.1)
    ensures q.pasted.Some? ==>
              (CondFits(Cond(false, true, q.pasted.value.0, q.pasted.value.1), item) <==>
               exists at: i64 :: at in item.pastes && q.pasted.value.0 <= at < q.pasted.value.1)
  {
  }

  // ---- The whole ----

  /** What the query asks, of an entry itself. */
  ghost predicate Means(env: Env, q: Query, item: Item) {
    && Worded(env, q, item.record.contents)
    && (q.types.Some? ==> Typed(env, q.types.value, item.record.contents))
    && OnTime(q, item)
  }

  /** A hit of the scan is a live entry that is what the query asks. */
  lemma HitMeans(env: Env, q: Query, a: Abs, id: int)
    requires q.around.Some? ==> q.around.value.1 != I64_MIN
    requires q.pattern.Some? ==> env.compile(q.pattern.value).Some?
    ensures Hit(env, q, a, id) <==> id in a.items && Means(env, q, a.items[id])
  {
    hide TextFits, Worded, TypesFit, Typed, CondsOf, OnTime, CondFits, WordsOf, PatternAsked;
    if id in a.items {
      WordedIs(env, q, a.items[id].record.contents);
      if q.types.Some? { TypedIs(env, q, a.items[id].record.contents); }
      OnTimeIs(q, a.items[id]);
    }
  }

  /** The answer to a query: entries that are what it asks, the newest first; and if any such
      below the bound is left out, there are as many as were asked for and it is older. */
  ghost predicate IsAnswer(env: Env, q: Query, a: Abs, below: nat, limit: nat, ids: seq<int>) {
    && |ids| <= limit
    && (forall i, j :: 0 <= i < j < |ids| ==> ids[i] > ids[j])
    && (forall x :: x in ids ==> x < below && x in a.items && Means(env, q, a.items[x]))
    && forall x :: x in a.items && x < below && Means(env, q, a.items[x]) && x !in ids ==>
                     |ids| == limit && forall y :: y in ids ==> x < y
  }

  lemma ScanAnswers(env: Env, q: Query, a: Abs, below: nat, limit: nat)
    requires q.around.Some? ==> q.around.value.1 != I64_MIN
    requires q.pattern.Some? ==> env.compile(q.pattern.value).Some?
    ensures IsAnswer(env, q, a, below, limit, Scan(env, q, a, below, limit))
  {
    hide Hit, Means, Scan;
    ScanIs(env, q, a, below, limit);
    forall x: int ensures Hit(env, q, a, x) <==> x in a.items && Means(env, q, a.items[x]) {
      HitMeans(env, q, a, x);
    }
  }
}
