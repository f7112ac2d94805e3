/** What a query asks, and the scan it must come to (clip/src/lib.rs, query). */
module Searching {
  import opened Wrappers
  import opened Codec
  import opened Text
  import opened Records
  import opened Disk
  import opened Entries
  import opened Stores

  /** All of the conditions are to hold together; a time range is without its end. */
  datatype Query = Query(
    textTerms: seq<string>,
    pattern: Option<bytes>,
    types: Option<seq<bytes>>,
    copied: Option<(i64, i64)>,
    pasted: Option<(i64, i64)>,
    around: Option<(i64, i64)>)

  /** Some event of these kinds falls in the range. */
  datatype Cond = Cond(copies: bool, pastes: bool, from: i64, upto: i64)

  const I64_MAX: i64 := 0x7fff_ffff_ffff_ffff
  const I64_MIN: i64 := -0x8000_0000_0000_0000

  function Saturated(x: int): i64 {
    if x > I64_MAX then I64_MAX else if x < I64_MIN then I64_MIN else x
  }

  function Around(t: i64, w: i64): Cond {
    var x: int := w;
    var window := if x < 0 then -x else x;
    Cond(true, true, Saturated(t - window), Saturated(Saturated(t + window) + 1))
  }

  function CondsOf(q: Query): seq<Cond> {
    (match q.copied case Some((a, b)) => [Cond(true, false, a, b)] case None => [])
    + (match q.pasted case Some((a, b)) => [Cond(false, true, a, b)] case None => [])
    + (match q.around case Some((t, w)) => [Around(t, w)] case None => [])
  }

  function WordsOf(env: Env, terms: seq<string>): seq<string> {
    if terms == [] then []
    else (if Lower(terms[0], env.lower) == "" then [] else [Lower(terms[0], env.lower)]) + WordsOf(env, terms[1..])
  }

  function TypeTerm(env: Env, t: bytes): u64 {
    env.keys.typeTerm(AsciiLower(t))
  }

  // ---- What an entry must be ----

  /** Its text has every word, and the pattern matches it. */
  ghost predicate TextFits(env: Env, words: seq<string>, re: Option<Hir>, contents: seq<Content>) {
    (words == [] && re == None)
    || match PrimaryText(env, contents)
       case None => false
       case Some(text) =>
         && (forall w :: w in words ==> Contains(Lower(text, env.lower), w))
         && (re.Some? ==> IsMatch(re.value, text, env.look))
  }

  /** It was offered in a type of one of these terms. */
  ghost predicate TypesFit(env: Env, types: seq<u64>, contents: seq<Content>) {
    exists h :: h in types && h in IndexTerms(env, contents)
  }

  ghost predicate InTimes(times: multiset<i64>, from: i64, upto: i64) {
    exists at: i64 :: at in times && from <= at < upto
  }

  ghost predicate CondFits(c: Cond, item: Item) {
    (c.copies && InTimes(item.copies, c.from, c.upto)) || (c.pastes && InTimes(item.pastes, c.from, c.upto))
  }

  function TypesAsked(env: Env, q: Query): Option<seq<u64>> {
    match q.types
    case None => None
    case Some(ts) => Some(seq(|ts|, i requires 0 <= i < |ts| => TypeTerm(env, ts[i])))
  }

  function PatternAsked(env: Env, q: Query): Option<Hir> {
    match q.pattern case None => None case Some(p) => env.compile(p)
  }

  ghost predicate Satisfies(env: Env, q: Query, item: Item) {
    && TextFits(env, WordsOf(env, q.textTerms), PatternAsked(env, q), item.record.contents)
    && (TypesAsked(env, q).Some? ==> TypesFit(env, TypesAsked(env, q).value, item.record.contents))
    && forall c :: c in CondsOf(q) ==> CondFits(c, item)
  }

  ghost predicate Hit(env: Env, q: Query, a: Abs, id: int) {
    id in a.items && Satisfies(env, q, a.items[id])
  }

  // ---- The naive scan ----

  /** Every id from `below` down, tried one by one, until `limit` are found. */
  ghost function Scan(env: Env, q: Query, a: Abs, below: nat, limit: nat): seq<int>
    decreases below
  {
    if below == 0 || limit == 0 then []
    else if Hit(env, q, a, below - 1) then [below - 1] + Scan(env, q, a, below - 1, limit - 1)
    else Scan(env, q, a, below - 1, limit)
  }

  lemma {:induction false} ScanSkips(env: Env, q: Query, a: Abs, lo: nat, hi: nat, limit: nat)
    requires lo <= hi && forall id :: lo <= id < hi ==> !Hit(env, q, a, id)
    ensures Scan(env, q, a, hi, limit) == Scan(env, q, a, lo, limit)
    decreases hi
  {
    hide Hit;
    if lo < hi && limit > 0 { ScanSkips(env, q, a, lo, hi - 1, limit); }
    if limit == 0 { NoScan(env, q, a, lo); }
  }

  lemma NoScan(env: Env, q: Query, a: Abs, below: nat)
    ensures Scan(env, q, a, below, 0) == []
  {
  }

  lemma ScanTakes(env: Env, q: Query, a: Abs, id: nat, hi: nat, limit: nat)
    requires id < hi && limit > 0 && Hit(env, q, a, id)
    requires forall x :: id < x < hi ==> !Hit(env, q, a, x)
    ensures Scan(env, q, a, hi, limit) == [id] + Scan(env, q, a, id, limit - 1)
  {
    hide Hit;
    ScanSkips(env, q, a, id + 1, hi, limit);
  }

  /** The scan finds matches only, newest first; it stops short of none unless it has as
      many as were asked for, and then all it left are older. */
  lemma {:induction false} ScanIs(env: Env, q: Query, a: Abs, below: nat, limit: nat)
    ensures var s := Scan(env, q, a, below, limit);
            && |s| <= limit
            && (forall i, j :: 0 <= i < j < |s| ==> s[i] > s[j])
            && (forall x :: x in s ==> 0 <= x < below && Hit(env, q, a, x))
            && (forall x :: 0 <= x < below && Hit(env, q, a, x) && x !in s ==>
                              |s| == limit && forall y :: y in s ==> x < y)
    decreases below
  {
    hide Hit;
    if below > 0 && limit > 0 {
      var k := if Hit(env, q, a, below - 1) then limit - 1 else limit;
      ScanIs(env, q, a, below - 1, k);
      var rest := Scan(env, q, a, below - 1, k);
      forall i | 0 <= i < |rest| ensures rest[i] < below - 1 { assert rest[i] in rest; }
    }
  }

  /** One page after another, each asked for below the last id of the one before: the
      whole answer. */
  lemma {:induction false} PagesConcatenate(env: Env, q: Query, a: Abs, below: nat, m: nat, n: nat)
    ensures var page := Scan(env, q, a, below, m);
            && (forall k :: 0 <= k < |page| ==> page[k] >= 0)
            && Scan(env, q, a, below, m + n) ==
               if |page| < m then page else page + Scan(env, q, a, if m == 0 then below else page[m - 1], n)
    decreases below
  {
    hide Hit;
    ScanIs(env, q, a, below, m);
    NoScan(env, q, a, below);
    if below > 0 && m > 0 {
      hide Scan;
      var k := if Hit(env, q, a, below - 1) then m - 1 else m;
      PagesConcatenate(env, q, a, below - 1, k, n);
      ScanStep(env, q, a, below, m);
      ScanStep(env, q, a, below, m + n);
      NoScan(env, q, a, below - 1);
    }
  }

  lemma ScanStep(env: Env, q: Query, a: Abs, below: nat, limit: nat)
    requires below > 0 && limit > 0
    ensures Scan(env, q, a, below, limit) ==
            if Hit(env, q, a, below - 1) then [below - 1] + Scan(env, q, a, below - 1, limit - 1)
            else Scan(env, q, a, below - 1, limit)
  {
    hide Hit;
  }

  // ---- The index never loses a match ----

  /** The terms a text with these words that this pattern matches must have. */
  ghost function RunTerms(env: Env, words: seq<string>, re: Option<Hir>): set<u64> {
    set r, g | r in Runs(env, words, re) && g in Trigrams(r) :: env.keys.trigram(g)
  }

  ghost function Runs(env: Env, words: seq<string>, re: Option<Hir>): set<string> {
    (set w | w in words) + match re case None => {} case Some(h) => set w | w in Collected(h, env.lower) && w != ""
  }

  lemma TextIsIndexed(env: Env, words: seq<string>, re: Option<Hir>, contents: seq<Content>)
    requires TextFits(env, words, re, contents)
    ensures RunTerms(env, words, re) <= IndexTerms(env, contents)
  {
    hide Collected, IsMatch, TypeTermsOf, PrimaryText, Contains, Trigrams, Lower;
    forall t | t in RunTerms(env, words, re) ensures t in IndexTerms(env, contents) {
      var r, g :| r in Runs(env, words, re) && g in Trigrams(r) && t == env.keys.trigram(g);
      var text := PrimaryText(env, contents).value;
      if r in words {
        TrigramsOfPart(Lower(text, env.lower), r);
      } else {
        RequiredLiteralsAreFound(re.value, text, env.look, env.lower, r);
      }
      assert t in TrigramTerms(env, text);
    }
  }

  // ---- Times ----

  ghost predicate IsOf(c: Cond, kind: byte) {
    (c.copies && kind == COPIED) || (c.pastes && kind == PASTED)
  }

  /** Entry `id` has an event that meets the condition. */
  ghost predicate EventFits(c: Cond, events: seq<Event>, id: u64) {
    exists e :: e in events && e.id == id && IsOf(c, e.kind) && c.from <= e.at < c.upto
  }

  lemma TimesFit(c: Cond, events: seq<Event>, id: u64, kind: byte)
    ensures InTimes(Times(events, id, kind), c.from, c.upto) <==>
            exists e :: e in events && e.id == id && e.kind == kind && c.from <= e.at < c.upto
  {
    hide Times;
    var times := Times(events, id, kind);
    if InTimes(times, c.from, c.upto) {
      var at: i64 :| at in times && c.from <= at < c.upto;
      TimesCount(events, id, kind, at);
      assert Event(id, at, kind) in multiset(events);
      assert Event(id, at, kind) in events;
    }
    if e :| e in events && e.id == id && e.kind == kind && c.from <= e.at < c.upto {
      TimesCount(events, id, kind, e.at);
      assert e == Event(id, e.at, kind) && e in multiset(events);
    }
  }

  lemma CondIsOfEvents(env: Env, c: Cond, parts: seq<Facts>, id: u64)
    requires id in Blobs(parts)
    ensures CondFits(c, ItemOf(env, parts, id)) <==> EventFits(c, Events(parts), id)
  {
    hide Times, Events, Blobs, InTimes;
    TimesFit(c, Events(parts), id, COPIED);
    TimesFit(c, Events(parts), id, PASTED);
  }

  // ---- Types ----

  /** One of the types asked for is among the contents' types or their major types. */
  ghost predicate Offered(asked: seq<bytes>, contents: seq<Content>) {
    exists i, k :: 0 <= i < |asked| && 0 <= k < |contents| && AsciiLower(asked[i]) in TypeTerms(contents[k].mime)
  }

  /** No term of the contents is by collision that of a type asked for. */
  ghost predicate NoCollision(env: Env, asked: seq<bytes>, contents: seq<Content>) {
    forall i :: 0 <= i < |asked| ==> TypeApart(env, asked[i], contents)
  }

  ghost predicate TypeApart(env: Env, asked: bytes, contents: seq<Content>) {
    && (forall k, t | 0 <= k < |contents| && t in TypeTerms(contents[k].mime) ::
          TypeTerm(env, asked) == env.keys.typeTerm(t) ==> t == AsciiLower(asked))
    && (PrimaryText(env, contents).Some? ==>
        TypeTerm(env, asked) !in TrigramTerms(env, PrimaryText(env, contents).value))
  }

  /** Types are matched by their hashes alone: what fits offers one of the types asked for, or
      a type of a major type asked for, or has a term that collides with one asked for; and
      fitting is offering exactly if one is offered or none collides. */
  lemma TypesAreExact(env: Env, q: Query, contents: seq<Content>)
    requires q.types.Some?
    ensures var fits := TypesFit(env, TypesAsked(env, q).value, contents);
            var offered, apart := Offered(q.types.value, contents), NoCollision(env, q.types.value, contents);
            && (fits <==> offered || !apart)
            && ((fits <==> offered) <==> offered || apart)
  {
    hide PrimaryText, TypeTerms, Trigrams, Lower, AsciiLower, TrigramTerms;
    var asked, types := q.types.value, TypesAsked(env, q).value;
    if TypesFit(env, types, contents) && NoCollision(env, asked, contents) {
      var h :| h in types && h in IndexTerms(env, contents);
      var i :| 0 <= i < |types| && types[i] == h;
      assert TypeApart(env, asked[i], contents);
      assert h in TypeTermsOf(env, contents);
      var k, t :| 0 <= k < |contents| && t in TypeTerms(contents[k].mime) && h == env.keys.typeTerm(t);
      assert AsciiLower(asked[i]) in TypeTerms(contents[k].mime);
    }
    if Offered(asked, contents) {
      var i, k :| 0 <= i < |asked| && 0 <= k < |contents| && AsciiLower(asked[i]) in TypeTerms(contents[k].mime);
      assert types[i] == TypeTerm(env, asked[i]) && types[i] in types;
      assert types[i] in TypeTermsOf(env, contents);
    }
    if !NoCollision(env, asked, contents) {
      var i :| 0 <= i < |asked| && !TypeApart(env, asked[i], contents);
      assert types[i] == TypeTerm(env, asked[i]) && types[i] in types;
      assert types[i] in IndexTerms(env, contents);
    }
  }
}
