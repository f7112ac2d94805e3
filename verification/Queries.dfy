/** Queries over the parts of a history (clip/src/lib.rs, query): what a search is prepared
    as, and the walk of one part. */
module Queries {
  import opened Wrappers
  import opened Codec
  import opened Order
  import opened PostingLists
  import opened IdSets
  import opened Text
  import opened Records
  import opened Disk
  import opened Logs
  import opened Entries
  import opened Stores
  import opened Rows
  import opened Segments
  import opened Recovery
  import opened Lookups
  import opened Compaction
  import opened Searching

  /** The regex engine matches what the pattern means. */
  ghost predicate EngineRight(env: Env) {
    forall h, s :: env.isMatch(h, s) <==> IsMatch(h, s, env.look)
  }

  /** A query made ready: its words lowercased, its terms, and of its time conditions those
      gathered as sets of ids and those left to be checked on each candidate. */
  datatype Plan = Plan(words: seq<string>, re: Option<Hir>, hashes: seq<u64>, types: Option<seq<u64>>,
                       times: seq<seq<u64>>, deferred: seq<Cond>)

  // ---- Words and terms ----

  lemma WordsMore(env: Env, words: seq<string>, terms: seq<string>, i: nat)
    requires i < |terms|
    ensures var w := Lower(terms[i], env.lower);
            words + WordsOf(env, terms[i..]) == (if w == "" then words else words + [w]) + WordsOf(env, terms[i + 1..])
  {
    hide Lower;
    var rest := terms[i..];
    assert rest[0] == terms[i] && rest[1..] == terms[i + 1..];
  }

  method LowerWords(env: Env, terms: seq<string>) returns (words: seq<string>)
    ensures words == WordsOf(env, terms)
  {
    words := [];
    for i := 0 to |terms|
      invariant words + WordsOf(env, terms[i..]) == WordsOf(env, terms)
    {
      hide Lower, WordsOf;
      WordsMore(env, words, terms, i);
      var w := Lower(terms[i], env.lower);
      if w != "" { words := words + [w]; }
    }
    assert WordsOf(env, terms[|terms|..]) == [];
  }

  method RunHashes(env: Env, words: seq<string>, re: Option<Hir>) returns (hashes: seq<u64>)
    ensures Members(hashes) == RunTerms(env, words, re)
  {
    var runs := words;
    if re.Some? {
      var more := RequiredLiterals(re.value, env.lower);
      runs := runs + more;
    }
    assert forall r :: r in runs <==> r in Runs(env, words, re);
    var all: seq<u64> := [];
    for i := 0 to |runs|
      invariant forall t :: t in all <==> exists k, g ::
                0 <= k < i && g in Trigrams(runs[k]) && t == env.keys.trigram(g)
    {
      hide Trigrams;
      var more := TrigramHashes(env, runs[i]);
      all := all + more;
    }
    hashes := SortedSet(all);
    SortedSetIs(all);
    forall t ensures t in Members(all) <==> t in RunTerms(env, words, re) {
      assert t in Members(all) <==> t in all;
      if t in RunTerms(env, words, re) {
        var r, g :| r in Runs(env, words, re) && g in Trigrams(r) && t == env.keys.trigram(g);
        var k :| 0 <= k < |runs| && runs[k] == r;
        assert g in Trigrams(runs[k]);
      }
    }
  }

  method TrigramHashes(env: Env, run: string) returns (hashes: seq<u64>)
    ensures forall t :: t in hashes <==> exists g :: g in Trigrams(run) && t == env.keys.trigram(g)
  {
    var gs := CutTrigrams(run);
    hashes := [];
    for i := 0 to |gs|
      invariant forall t :: t in hashes <==> exists k :: 0 <= k < i && t == env.keys.trigram(gs[k])
    {
      ghost var was := hashes;
      hashes := hashes + [env.keys.trigram(gs[i])];
      forall t ensures t in hashes <==> exists k :: 0 <= k < i + 1 && t == env.keys.trigram(gs[k]) {
        if t == env.keys.trigram(gs[i]) { assert hashes[|was|] == t; }
      }
    }
    forall t ensures t in hashes <==> exists g :: g in Trigrams(run) && t == env.keys.trigram(g) {
      if g :| g in Trigrams(run) && t == env.keys.trigram(g) { assert g in gs; }
      if t in hashes {
        var k :| 0 <= k < |gs| && t == env.keys.trigram(gs[k]);
        assert gs[k] in gs;
      }
    }
  }

  // ---- Time conditions ----

  lemma TableIs(env: Env, f: Found, i: nat, c: Cond)
    requires Sound(env, f) && i < |f.segments|
    ensures Sorted(f.segments[i].copied, StampLe) && Sorted(f.segments[i].pasted, StampLe)
    ensures forall id :: EventFits(c, Parts(f)[i].events, id) <==>
              (c.copies && InRange(f.segments[i].copied, c.from, c.upto, id))
              || (c.pastes && InRange(f.segments[i].pasted, c.from, c.upto, id))
  {
    hide Inv, LogGood, LocsGood, TermIndexed, HashesOf, Mirrors, MapOf, InRange, EventFits;
    assert SegGood(env, f.segments[i]);
    forall id ensures EventFits(c, Parts(f)[i].events, id) <==>
              (c.copies && InRange(f.segments[i].copied, c.from, c.upto, id))
              || (c.pastes && InRange(f.segments[i].pasted, c.from, c.upto, id)) {
      StampIs(f.segments[i].copied, f.segments[i].events, COPIED, c, id);
      StampIs(f.segments[i].pasted, f.segments[i].events, PASTED, c, id);
      KindFits(c, f.segments[i].events, id);
    }
  }

  ghost predicate KindIn(c: Cond, events: seq<Event>, kind: byte, id: u64) {
    exists e :: e in events && e.id == id && e.kind == kind && c.from <= e.at < c.upto
  }

  lemma KindFits(c: Cond, events: seq<Event>, id: u64)
    ensures EventFits(c, events, id) <==>
            (c.copies && KindIn(c, events, COPIED, id)) || (c.pastes && KindIn(c, events, PASTED, id))
  {
  }

  lemma StampIs(table: seq<Stamp>, events: seq<Event>, kind: byte, c: Cond, id: u64)
    requires StampsOf(table, events, kind)
    ensures InRange(table, c.from, c.upto, id) <==> KindIn(c, events, kind, id)
  {
    if InRange(table, c.from, c.upto, id) {
      var k :| 0 <= k < |table| && table[k].id == id && c.from <= table[k].at < c.upto;
      assert Stamp(table[k].at, id) in multiset(table);
      assert Event(id, table[k].at, kind) in multiset(events);
      assert Event(id, table[k].at, kind) in events;
    }
    if KindIn(c, events, kind, id) {
      var e :| e in events && e.id == id && e.kind == kind && c.from <= e.at < c.upto;
      assert e == Event(id, e.at, kind) && e in multiset(events);
      assert Stamp(e.at, id) in multiset(table);
      assert Stamp(e.at, id) in table;
    }
  }

  method LogTimeIds(events: seq<Event>, kind: byte, from: i64, upto: i64) returns (out: seq<u64>)
    ensures forall id :: id in out <==> exists e :: e in events && e.id == id && e.kind == kind && from <= e.at < upto
  {
    out := [];
    for i := 0 to |events|
      invariant forall id :: id in out <==>
                  exists e :: e in events[..i] && e.id == id && e.kind == kind && from <= e.at < upto
    {
      assert events[..i + 1] == events[..i] + [events[i]];
      if events[i].kind == kind && from <= events[i].at < upto { out := out + [events[i].id]; }
    }
    assert events[..|events|] == events;
  }

  /** The ids of the events of one kind in `[from, upto)`, over every part. */
  method TimeIds(env: Env, segments: seq<Segment>, events: seq<Event>, kind: byte, from: i64, upto: i64, ghost f: Found)
    returns (out: seq<u64>)
    requires Sound(env, f) && f.segments == segments && f.mirror.events == events && (kind == COPIED || kind == PASTED)
    ensures forall id :: id in out <==>
            EventFits(Cond(kind == COPIED, kind == PASTED, from, upto), Events(Parts(f)), id)
  {
    hide Sound, Parts, Events, EventFits, Sorted, InRange;
    ghost var c := Cond(kind == COPIED, kind == PASTED, from, upto);
    out := [];
    NoEventFits(c);
    assert Parts(f)[..0] == [];
    for i := 0 to |segments|
      invariant forall id :: id in out <==> EventFits(c, Events(Parts(f)[..i]), id)
    {
      TableIs(env, f, i, c);
      var more := TimeRange(if kind == COPIED then segments[i].copied else segments[i].pasted, from, upto);
      NextEvents(Parts(f), i);
      EventsFitEither(c, Events(Parts(f)[..i]), Parts(f)[i].events);
      out := out + more;
    }
    var more := LogTimeIds(events, kind, from, upto);
    LogEventsAre(f);
    NextEvents(Parts(f), |segments|);
    EventsFitEither(c, Events(Parts(f)[..|segments|]), Parts(f)[|segments|].events);
    forall id ensures id in more <==> EventFits(c, events, id) { KindFits(c, events, id); }
    out := out + more;
    assert Parts(f)[..|segments| + 1] == Parts(f);
  }

  lemma NoEventFits(c: Cond)
    ensures forall id :: !EventFits(c, Events([]), id)
  {
  }

  lemma EventsFitEither(c: Cond, a: seq<Event>, b: seq<Event>)
    ensures forall id :: EventFits(c, a + b, id) <==> EventFits(c, a, id) || EventFits(c, b, id)
  {
    forall id ensures EventFits(c, a + b, id) <==> EventFits(c, a, id) || EventFits(c, b, id) {
      if EventFits(c, a, id) || EventFits(c, b, id) {
        var e :| (e in a || e in b) && e.id == id && IsOf(c, e.kind) && c.from <= e.at < c.upto;
        assert e in a + b;
      }
    }
  }

  /** How many events of the kind are in the range. */
  ghost function Number(events: seq<Event>, kind: byte, from: i64, upto: i64): nat {
    if events == [] then 0
    else
      var k := |events| - 1;
      Number(events[..k], kind, from, upto)
      + if events[k].kind == kind && from <= events[k].at < upto then 1 else 0
  }

  lemma {:induction false} NumberOfBoth(a: seq<Event>, b: seq<Event>, kind: byte, from: i64, upto: i64)
    ensures Number(a + b, kind, from, upto) == Number(a, kind, from, upto) + Number(b, kind, from, upto)
  {
    if b == [] {
      assert a + b == a;
    } else {
      var k := |b| - 1;
      NumberOfBoth(a, b[..k], kind, from, upto);
      assert (a + b)[..|a + b| - 1] == a + b[..k];
    }
  }

  lemma {:induction false} CountOfBoth(a: seq<Stamp>, b: seq<Stamp>, from: i64, upto: i64)
    ensures CountIn(a + b, from, upto) == CountIn(a, from, upto) + CountIn(b, from, upto)
  {
    if b == [] {
      assert a + b == a;
    } else {
      var k := |b| - 1;
      CountOfBoth(a, b[..k], from, upto);
      assert (a + b)[..|a + b| - 1] == a + b[..k];
    }
  }

  lemma OneStamp(x: Stamp, from: i64, upto: i64)
    ensures CountIn([x], from, upto) == if from <= x.at < upto then 1 else 0
  {
    assert [x][..0] == [];
  }

  /** The table has each event of the kind as often. */
  ghost predicate Tabled(stamps: seq<Stamp>, events: seq<Event>, kind: byte) {
    forall at, id :: multiset(stamps)[Stamp(at, id)] == multiset(events)[Event(id, at, kind)]
  }

  lemma NoStamps(stamps: seq<Stamp>, kind: byte)
    requires Tabled(stamps, [], kind)
    ensures stamps == []
  {
    forall x: Stamp ensures multiset(stamps)[x] == 0 {
      assert x == Stamp(x.at, x.id);
    }
    assert multiset(stamps) == multiset{} && |multiset(stamps)| == |stamps|;
  }

  /** Without an event of another kind the table is right still. */
  lemma TabledOther(stamps: seq<Stamp>, events: seq<Event>, e: Event, kind: byte)
    requires Tabled(stamps, events + [e], kind) && e.kind != kind
    ensures Tabled(stamps, events, kind)
  {
    forall at, id ensures multiset(stamps)[Stamp(at, id)] == multiset(events)[Event(id, at, kind)] {
      assert multiset(stamps)[Stamp(at, id)] == multiset(events + [e])[Event(id, at, kind)];
    }
  }

  /** An event of the kind has a row, and without both the table is right still. */
  lemma TabledWithout(stamps: seq<Stamp>, events: seq<Event>, e: Event, kind: byte) returns (i: nat)
    requires Tabled(stamps, events + [e], kind) && e.kind == kind
    ensures i < |stamps| && stamps[i] == Stamp(e.at, e.id) && Tabled(stamps[..i] + stamps[i + 1..], events, kind)
  {
    var x := Stamp(e.at, e.id);
    assert e == Event(e.id, e.at, kind) && e in events + [e] && e in multiset(events + [e]);
    assert x in multiset(stamps) && x in stamps;
    i :| i < |stamps| && stamps[i] == x;
    var rest := stamps[..i] + stamps[i + 1..];
    assert stamps == stamps[..i] + [x] + stamps[i + 1..];
    assert multiset(stamps) == multiset(rest) + multiset{x};
    forall at, id ensures multiset(rest)[Stamp(at, id)] == multiset(events)[Event(id, at, kind)] {
      assert multiset(stamps)[Stamp(at, id)] == multiset(events + [e])[Event(id, at, kind)];
      assert Stamp(at, id) == x <==> Event(id, at, kind) == e;
    }
  }

  /** And so as many of them in any range. */
  lemma {:induction false} TableNumber(stamps: seq<Stamp>, events: seq<Event>, kind: byte, from: i64, upto: i64)
    requires Tabled(stamps, events, kind)
    ensures CountIn(stamps, from, upto) == Number(events, kind, from, upto)
    decreases |events|
  {
    if events == [] {
      NoStamps(stamps, kind);
    } else {
      hide Tabled, CountIn;
      var most, e := events[..|events| - 1], events[|events| - 1];
      assert events == most + [e];
      if e.kind == kind {
        var i := TabledWithout(stamps, most, e, kind);
        var a, b := stamps[..i], stamps[i + 1..];
        assert stamps == a + [stamps[i]] + b;
        TableNumber(a + b, most, kind, from, upto);
        CountOfBoth(a + [stamps[i]], b, from, upto);
        CountOfBoth(a, [stamps[i]], from, upto);
        CountOfBoth(a, b, from, upto);
        OneStamp(stamps[i], from, upto);
      } else {
        TabledOther(stamps, most, e, kind);
        TableNumber(stamps, most, kind, from, upto);
      }
    }
  }

  lemma TablesCount(env: Env, f: Found, i: nat, kind: byte, from: i64, upto: i64)
    requires Sound(env, f) && i < |f.segments| && (kind == COPIED || kind == PASTED)
    ensures var table := if kind == COPIED then f.segments[i].copied else f.segments[i].pasted;
            Sorted(table, StampLe) && CountIn(table, from, upto) == Number(Parts(f)[i].events, kind, from, upto)
  {
    hide Inv, LogGood, LocsGood, TermIndexed, HashesOf, Mirrors, MapOf, CountIn, Number;
    assert SegGood(env, f.segments[i]);
    TableNumber(if kind == COPIED then f.segments[i].copied else f.segments[i].pasted, f.segments[i].events, kind, from,
                upto);
  }

  method CountLogTimes(events: seq<Event>, kind: byte, from: i64, upto: i64) returns (n: nat)
    ensures n == Number(events, kind, from, upto)
  {
    n := 0;
    for i := 0 to |events|
      invariant n == Number(events[..i], kind, from, upto)
    {
      assert events[..i + 1][..i] == events[..i];
      if events[i].kind == kind && from <= events[i].at < upto { n := n + 1; }
    }
    assert events[..|events|] == events;
  }

  /** How many events of the kind are in the range: what decides, of a condition, whether
      it is gathered or checked. */
  method CountTimes(env: Env, segments: seq<Segment>, events: seq<Event>, kind: byte, from: i64, upto: i64,
                    ghost f: Found)
    returns (n: nat)
    requires Sound(env, f) && f.segments == segments && f.mirror.events == events && (kind == COPIED || kind == PASTED)
    ensures n == Number(Events(Parts(f)), kind, from, upto)
  {
    hide Sound, Sorted, Parts, Events, Number, CountIn;
    n := 0;
    assert Parts(f)[..0] == [];
    NothingCounted(kind, from, upto);
    for i := 0 to |segments|
      invariant n == Number(Events(Parts(f)[..i]), kind, from, upto)
    {
      TablesCount(env, f, i, kind, from, upto);
      var k := TimeCount(if kind == COPIED then segments[i].copied else segments[i].pasted, from, upto);
      NextEvents(Parts(f), i);
      NumberOfBoth(Events(Parts(f)[..i]), Parts(f)[i].events, kind, from, upto);
      n := n + k;
    }
    var k := CountLogTimes(events, kind, from, upto);
    LogEventsAre(f);
    NextEvents(Parts(f), |segments|);
    NumberOfBoth(Events(Parts(f)[..|segments|]), Parts(f)[|segments|].events, kind, from, upto);
    n := n + k;
    assert Parts(f)[..|segments| + 1] == Parts(f);
  }

  lemma NothingCounted(kind: byte, from: i64, upto: i64)
    ensures Number(Events([]), kind, from, upto) == 0
  {
  }

  /** How many events a condition is about. */
  ghost function NumberFor(f: Found, c: Cond): nat {
    (if c.copies then Number(Events(Parts(f)), COPIED, c.from, c.upto) else 0)
    + if c.pastes then Number(Events(Parts(f)), PASTED, c.from, c.upto) else 0
  }

  /** The ids a condition admits, in order. */
  method CondIds(env: Env, segments: seq<Segment>, events: seq<Event>, c: Cond, ghost f: Found) returns (ids: seq<u64>)
    requires Sound(env, f) && f.segments == segments && f.mirror.events == events
    ensures Ascending(ids) && forall id :: id in ids <==> EventFits(c, Events(Parts(f)), id)
  {
    hide Sound, Parts, Events, EventFits;
    var all: seq<u64> := [];
    if c.copies {
      var more := TimeIds(env, segments, events, COPIED, c.from, c.upto, f);
      all := all + more;
    }
    if c.pastes {
      var more := TimeIds(env, segments, events, PASTED, c.from, c.upto, f);
      all := all + more;
    }
    SortedSetIs(all);
    ids := SortedSet(all);
    forall id ensures id in ids <==> EventFits(c, Events(Parts(f)), id) {
      assert id in ids <==> id in Members(ids);
      assert id in all <==> id in Members(all);
      EitherKind(c, Events(Parts(f)), id);
    }
  }

  lemma EitherKind(c: Cond, events: seq<Event>, id: u64)
    ensures EventFits(c, events, id) <==>
            (c.copies && EventFits(Cond(true, false, c.from, c.upto), events, id))
            || (c.pastes && EventFits(Cond(false, true, c.from, c.upto), events, id))
  {
    KindFits(c, events, id);
    KindFits(Cond(true, false, c.from, c.upto), events, id);
    KindFits(Cond(false, true, c.from, c.upto), events, id);
  }

  /** `times[k]` is the ids `sure[k]` admits. */
  ghost predicate Gathered(f: Found, times: seq<seq<u64>>, sure: seq<Cond>) {
    |times| == |sure| && forall k :: 0 <= k < |times| ==> IdsFit(f, times[k], sure[k])
  }

  ghost predicate IdsFit(f: Found, ids: seq<u64>, c: Cond) {
    Ascending(ids) && forall id :: id in ids <==> EventFits(c, Events(Parts(f)), id)
  }

  /** Each condition is gathered, or left to be checked exactly when its events are more than that
      and something else narrows the search. */
  method SplitConds(env: Env, segments: seq<Segment>, events: seq<Event>, conds: seq<Cond>, narrowed: bool, most: nat,
                    ghost f: Found)
    returns (times: seq<seq<u64>>, deferred: seq<Cond>, ghost sure: seq<Cond>)
    requires Sound(env, f) && f.segments == segments && f.mirror.events == events
    ensures Gathered(f, times, sure) && forall c :: c in conds <==> c in sure || c in deferred
    ensures forall c :: c in deferred ==> narrowed && NumberFor(f, c) > most
    ensures forall c :: c in sure ==> !(narrowed && NumberFor(f, c) > most)
  {
    hide Sound, Parts, Events, EventFits, Number;
    times, deferred, sure := [], [], [];
    for i := 0 to |conds|
      invariant Gathered(f, times, sure) && forall c :: c in conds[..i] <==> c in sure || c in deferred
      invariant forall c :: c in deferred ==> narrowed && NumberFor(f, c) > most
      invariant forall c :: c in sure ==> !(narrowed && NumberFor(f, c) > most)
    {
      var c := conds[i];
      assert conds[..i + 1] == conds[..i] + [c];
      var count: nat := 0;
      if c.copies {
        var n := CountTimes(env, segments, events, COPIED, c.from, c.upto, f);
        count := count + n;
      }
      if c.pastes {
        var n := CountTimes(env, segments, events, PASTED, c.from, c.upto, f);
        count := count + n;
      }
      if narrowed && count > most {
        deferred := deferred + [c];
      } else {
        var ids := CondIds(env, segments, events, c, f);
        times, sure := times + [ids], sure + [c];
      }
    }
    assert conds[..|conds|] == conds;
  }

  // ---- The sets of one part ----

  ghost function RowsAt(f: Found, j: nat): seq<Row>
    requires j <= |f.segments|
  {
    if j < |f.segments| then SegRows(f.segments[j]) else LogRows(f.mirror, f.log)
  }

  lemma RowsAtIs(env: Env, f: Found, j: nat)
    requires Sound(env, f) && j <= |f.segments|
    ensures RowsAscend(RowsAt(f, j)) && Parts(f)[j].entries == MapOf(RowsAt(f, j))
  {
    hide Sound, LocsGood, Located, MapOf, RowsAscend, SegRows, LogRows;
    Ordered(env, f);
    if j < |f.segments| {
      SegRowsAscend(f.segments[j]);
    } else {
      LogRowsAscend(f.log, f.mirror);
    }
  }

  /** The entry is in the part, under the term. */
  ghost predicate Indexed(env: Env, entries: map<u64, bytes>, id: int, t: u64) {
    id in entries && t in IndexTerms(env, RecordAt(env, entries[id]).contents)
  }

  lemma TermRows(env: Env, rows: seq<Row>, t: u64)
    requires RowsAscend(rows)
    ensures forall id :: id in Members(WithTerm(env, rows, t)) <==> Indexed(env, MapOf(rows), id, t)
    ensures Ascending(WithTerm(env, rows, t))
    ensures WithTerm(env, rows, t) == [] <==> forall id :: !Indexed(env, MapOf(rows), id, t)
  {
    hide RecordAt, MapOf, WithTerm, IndexTerms;
    WithTermMembers(env, rows, t);
    MapOfMembers(rows);
    var ids := WithTerm(env, rows, t);
    forall id ensures id in Members(ids) <==> Indexed(env, MapOf(rows), id, t) {
      if Indexed(env, MapOf(rows), id, t) {
        var i :| 0 <= i < |rows| && rows[i].0 == id;
        assert HasTerm(env, rows[i].1, t);
      }
      if id in ids {
        var i :| 0 <= i < |rows| && rows[i].0 == id && HasTerm(env, rows[i].1, t);
        assert MapOf(rows)[id] == rows[i].1;
      }
    }
    if ids != [] { assert ids[0] in Members(ids); }
  }

  lemma SegmentOfSound(env: Env, f: Found, j: nat)
    requires Sound(env, f) && j < |f.segments|
    ensures SegGood(env, f.segments[j])
  {
    hide Inv, LogGood, SegGood, Mirrors;
  }

  lemma LogLists(env: Env, f: Found, t: u64)
    requires Sound(env, f)
    ensures Listed(f.mirror.postings, t) == WithTerm(env, LogRows(f.mirror, f.log), t)
    ensures t in f.mirror.postings ==> f.mirror.postings[t] != []
  {
    hide Inv, SegGood, Mirrors, WithTerm, WithHash;
  }

  /** A set that is exactly these ids. */
  ghost predicate IsSet(s: IdSet, ids: iset<int>)
  {
    WellFormed(s) && forall x :: x in Ids(s) <==> x in ids
  }

  ghost function TermIds(env: Env, entries: map<u64, bytes>, t: u64): iset<int> {
    iset id | Indexed(env, entries, id, t)
  }

  lemma NoTermIds(env: Env, entries: map<u64, bytes>, t: u64)
    ensures TermIds(env, entries, t) == iset{} <==> forall id :: !Indexed(env, entries, id, t)
  {
    hide Indexed;
    assert forall id :: id in TermIds(env, entries, t) <==> Indexed(env, entries, id, t);
  }

  /** The part's list of a term. */
  method ListAt(env: Env, segments: seq<Segment>, postings: map<u64, seq<u64>>, j: nat, t: u64, ghost f: Found)
    returns (s: Option<IdSet>)
    requires Sound(env, f) && f.segments == segments && f.mirror.postings == postings && j <= |segments|
    ensures s.None? <==> TermIds(env, Parts(f)[j].entries, t) == iset{}
    ensures s.Some? ==> IsSet(s.value, TermIds(env, Parts(f)[j].entries, t))
    ensures s.Some? ==> fresh(Lists(s.value)) && AllValid(Lists(s.value))
  {
    hide Sound, WithTerm, MapOf, Indexed, SegGood, Parts;
    RowsAtIs(env, f, j);
    TermRows(env, RowsAt(f, j), t);
    NoTermIds(env, Parts(f)[j].entries, t);
    if j < |segments| {
      SegmentOfSound(env, f, j);
      var p := PostingsOf(env, segments[j], t);
      s := if p == null then None else Some(List(p));
    } else {
      LogLists(env, f, t);
      s := if t in postings then Some(Slice(postings[t])) else None;
    }
  }

  lemma OneSetMore(sets: seq<IdSet>, s: IdSet)
    ensures forall x :: InAll(sets + [s], x) <==> InAll(sets, x) && x in Ids(s)
    ensures AllLists(sets + [s]) == AllLists(sets) + Lists(s)
  {
    hide Ids, Lists;
    var all := sets + [s];
    forall x ensures InAll(all, x) <==> InAll(sets, x) && x in Ids(s) {
      if InAll(all, x) {
        forall i | 0 <= i < |sets| ensures x in Ids(sets[i]) { assert all[i] == sets[i]; }
        assert all[|sets|] == s;
      }
    }
    assert forall i :: 0 <= i < |sets| ==> all[i] == sets[i];
    assert all[|sets|] == s;
  }

  lemma NoSets()
    ensures AllLists([]) == {} && AllValid({}) && forall x :: InAll([], x)
  {
  }

  ghost predicate AllFormed(sets: seq<IdSet>) {
    forall i :: 0 <= i < |sets| ==> WellFormed(sets[i])
  }

  ghost predicate HasAll(env: Env, entries: map<u64, bytes>, hashes: seq<u64>, id: int) {
    forall h :: h in hashes ==> Indexed(env, entries, id, h)
  }

  /** A set for each hash; None if the part has no list of one of them. */
  method HashSets(env: Env, segments: seq<Segment>, postings: map<u64, seq<u64>>, j: nat, hashes: seq<u64>,
                  ghost f: Found)
    returns (sets: Option<seq<IdSet>>, ghost lists: set<Postings>)
    requires Sound(env, f) && f.segments == segments && f.mirror.postings == postings && j <= |segments|
    ensures sets.None? ==> forall id :: !HasAll(env, Parts(f)[j].entries, hashes, id)
    ensures fresh(lists) && AllValid(lists)
    ensures sets.Some? ==> AllFormed(sets.value) && AllLists(sets.value) == lists && |sets.value| == |hashes|
    ensures sets.Some? ==> forall id :: InAll(sets.value, id) <==> HasAll(env, Parts(f)[j].entries, hashes, id)
  {
    hide Sound, Parts, Ids, Lists, WellFormed, Indexed, AllLists, InAll;
    var out: seq<IdSet> := [];
    lists := {};
    NoSets();
    ghost var entries := Parts(f)[j].entries;
    for i := 0 to |hashes|
      invariant |out| == i && AllFormed(out) && AllLists(out) == lists && fresh(lists) && AllValid(lists)
      invariant forall id :: InAll(out, id) <==> HasAll(env, entries, hashes[..i], id)
    {
      assert hashes[..i + 1] == hashes[..i] + [hashes[i]];
      var s := ListAt(env, segments, postings, j, hashes[i], f);
      if s.None? {
        NoTermIds(env, entries, hashes[i]);
        forall id ensures !HasAll(env, entries, hashes, id) {
          assert hashes[i] in hashes && !Indexed(env, entries, id, hashes[i]);
        }
        return None, {};
      }
      OneSetMore(out, s.value);
      ghost var was := out;
      out := out + [s.value];
      lists := lists + Lists(s.value);
      forall id ensures InAll(out, id) <==> HasAll(env, entries, hashes[..i + 1], id) {
        assert InAll(out, id) <==> InAll(was, id) && id in Ids(s.value);
        assert id in Ids(s.value) <==> Indexed(env, entries, id, hashes[i]);
      }
    }
    assert hashes[..|hashes|] == hashes;
    sets := Some(out);
  }

  ghost predicate HasAny(env: Env, entries: map<u64, bytes>, types: seq<u64>, id: int) {
    exists h :: h in types && Indexed(env, entries, id, h)
  }

  lemma {:induction false} AnyOf(sets: seq<IdSet>, n: nat, x: int)
    requires n <= |sets|
    ensures x in IdsOfAny(sets, n) <==> exists i :: 0 <= i < n && x in Ids(sets[i])
    decreases n
  {
    hide Ids;
    if n > 0 { AnyOf(sets, n - 1, x); }
  }

  ghost predicate InAny(sets: seq<IdSet>, x: int) {
    exists i :: 0 <= i < |sets| && x in Ids(sets[i])
  }

  lemma UnionIs(sets: seq<IdSet>)
    requires AllFormed(sets)
    ensures WellFormed(Union(sets)) && Lists(Union(sets)) == AllLists(sets)
    ensures forall x :: x in Ids(Union(sets)) <==> InAny(sets, x)
  {
    forall x ensures x in Ids(Union(sets)) <==> InAny(sets, x) {
      AnyOf(sets, |sets|, x);
    }
  }

  /** The ids of any of the types; None if the part has none. */
  method TypeSet(env: Env, segments: seq<Segment>, postings: map<u64, seq<u64>>, j: nat, types: seq<u64>,
                 ghost f: Found)
    returns (s: Option<IdSet>)
    requires Sound(env, f) && f.segments == segments && f.mirror.postings == postings && j <= |segments|
    ensures s.None? ==> forall id :: !HasAny(env, Parts(f)[j].entries, types, id)
    ensures s.Some? ==> fresh(Lists(s.value)) && AllValid(Lists(s.value)) && WellFormed(s.value)
    ensures s.Some? ==> forall id :: id in Ids(s.value) <==> HasAny(env, Parts(f)[j].entries, types, id)
  {
    hide Sound, Parts, Ids, Lists, WellFormed, Indexed, AllLists, InAll, InAny, HasAny;
    NoneInAny();
    NoTypes(env, Parts(f)[j].entries, types);
    var any: seq<IdSet> := [];
    ghost var lists: set<Postings> := {};
    NoSets();
    ghost var entries := Parts(f)[j].entries;
    for i := 0 to |types|
      invariant AllFormed(any) && AllLists(any) == lists && fresh(lists) && AllValid(lists)
      invariant forall id :: InAny(any, id) <==> HasAny(env, entries, types[..i], id)
    {
      ghost var was := any;
      OneTypeMore(env, entries, types, i);
      var l := ListAt(env, segments, postings, j, types[i], f);
      NoTermIds(env, entries, types[i]);
      if l.Some? {
        OneSetMore(any, l.value);
        OneListMore(any, l.value);
        lists := lists + Lists(l.value);
        any := any + [l.value];
      }
      forall id ensures InAny(any, id) <==> HasAny(env, entries, types[..i + 1], id) {
        assert InAny(any, id) <==> InAny(was, id) || Indexed(env, entries, id, types[i]);
      }
    }
    assert types[..|types|] == types;
    if any == [] { return None; }
    UnionIs(any);
    s := Some(Union(any));
  }

  lemma NoneInAny()
    ensures forall id :: !InAny([], id)
  {
  }

  lemma NoTypes(env: Env, entries: map<u64, bytes>, types: seq<u64>)
    ensures forall id :: !HasAny(env, entries, types[..0], id)
  {
  }

  lemma OneListMore(any: seq<IdSet>, s: IdSet)
    ensures forall id :: InAny(any + [s], id) <==> InAny(any, id) || id in Ids(s)
  {
    hide Ids;
    var all := any + [s];
    forall id ensures InAny(all, id) <==> InAny(any, id) || id in Ids(s) {
      if k :| 0 <= k < |any| && id in Ids(any[k]) { assert all[k] == any[k]; }
      if id in Ids(s) { assert all[|any|] == s; }
    }
  }

  lemma OneTypeMore(env: Env, entries: map<u64, bytes>, types: seq<u64>, i: nat)
    requires i < |types|
    ensures forall id :: HasAny(env, entries, types[..i + 1], id) <==>
              HasAny(env, entries, types[..i], id) || Indexed(env, entries, id, types[i])
  {
    hide Indexed;
    assert types[..i + 1] == types[..i] + [types[i]];
  }

  // ---- A plan ----

  /** The plan is the query's. */
  ghost predicate PlanFor(env: Env, f: Found, q: Query, plan: Plan, sure: seq<Cond>) {
    && plan.words == WordsOf(env, q.textTerms) && plan.re == PatternAsked(env, q)
    && Members(plan.hashes) == RunTerms(env, plan.words, plan.re)
    && plan.types == TypesAsked(env, q)
    && Gathered(f, plan.times, sure)
    && forall c :: c in CondsOf(q) <==> c in sure || c in plan.deferred
  }

  /** The id is in every set the plan makes of part `j`. */
  ghost predicate Fitting(env: Env, f: Found, plan: Plan, sure: seq<Cond>, j: nat, id: int)
    requires j <= |f.segments|
  {
    && HasTerms(env, Parts(f)[j].entries, plan, id)
    && (forall k :: 0 <= k < |plan.times| ==> id in Members(plan.times[k]))
    && (plan.hashes == [] && plan.types.None? && plan.times == [] ==> id in Parts(f)[j].entries)
  }

  ghost predicate HasTerms(env: Env, entries: map<u64, bytes>, plan: Plan, id: int) {
    HasAll(env, entries, plan.hashes, id) && (plan.types.Some? ==> HasAny(env, entries, plan.types.value, id))
  }

  lemma EntryOf(env: Env, f: Found, j: nat, id: u64)
    requires Sound(env, f) && j <= |f.segments| && id in Parts(f)[j].entries
    ensures id in Blobs(Parts(f)) && Blobs(Parts(f))[id] == Parts(f)[j].entries[id]
    ensures ItemOf(env, Parts(f), id).record == RecordAt(env, Parts(f)[j].entries[id])
    ensures id in AbsIn(env, f).items <==> id !in Dead(Parts(f))
    ensures id in AbsIn(env, f).items ==> AbsIn(env, f).items[id] == ItemOf(env, Parts(f), id)
  {
    hide Sound, Blobs, Dead, Opened, Times, Events, NextOf, RecordAt;
    InPart(env, f, j, id);
  }

  /** The index never loses a match: an entry that satisfies the query is in every set its
      part gives. */
  lemma HitFits(env: Env, f: Found, q: Query, plan: Plan, sure: seq<Cond>, j: nat, id: u64)
    requires Sound(env, f) && PlanFor(env, f, q, plan, sure) && j <= |f.segments|
    requires id in Parts(f)[j].entries && Hit(env, q, AbsIn(env, f), id)
    ensures Fitting(env, f, plan, sure, j, id)
  {
    hide Sound, Blobs, Dead, Opened, Times, Events, NextOf, RecordAt, Parts, TextFits, IndexTerms, RunTerms, CondFits,
      EventFits, CondsOf, WordsOf, PatternAsked, TypesAsked, ItemOf;
    EntryOf(env, f, j, id);
    var entries := Parts(f)[j].entries;
    var contents := RecordAt(env, entries[id]).contents;
    TextIsIndexed(env, plan.words, plan.re, contents);
    forall h | h in plan.hashes ensures Indexed(env, entries, id, h) {
      assert h in Members(plan.hashes);
    }
    if plan.types.Some? {
      var h :| h in plan.types.value && h in IndexTerms(env, contents);
      assert Indexed(env, entries, id, h);
    }
    forall k | 0 <= k < |plan.times| ensures id in Members(plan.times[k]) {
      assert IdsFit(f, plan.times[k], sure[k]) && sure[k] in CondsOf(q);
      CondIsOfEvents(env, sure[k], Parts(f), id);
    }
  }

  /** An entry in every set, live, whose text and other times fit too, satisfies it. */
  lemma FitHits(env: Env, f: Found, q: Query, plan: Plan, sure: seq<Cond>, j: nat, id: u64)
    requires Sound(env, f) && PlanFor(env, f, q, plan, sure) && j <= |f.segments|
    requires id in Parts(f)[j].entries && Fitting(env, f, plan, sure, j, id) && id !in Dead(Parts(f))
    ensures Hit(env, q, AbsIn(env, f), id) <==>
            && TextFits(env, plan.words, plan.re, RecordAt(env, Parts(f)[j].entries[id]).contents)
            && forall c :: c in plan.deferred ==> EventFits(c, Events(Parts(f)), id)
  {
    hide Sound, Blobs, Dead, Opened, Times, Events, NextOf, RecordAt, Parts, TextFits, IndexTerms, RunTerms, CondFits,
      EventFits, CondsOf, WordsOf, PatternAsked, TypesAsked, ItemOf, HasAll;
    EntryOf(env, f, j, id);
    var entries := Parts(f)[j].entries;
    var contents := RecordAt(env, entries[id]).contents;
    if plan.types.Some? {
      var h :| h in plan.types.value && Indexed(env, entries, id, h);
      assert TypesFit(env, plan.types.value, contents);
    }
    forall c | c in sure ensures EventFits(c, Events(Parts(f)), id) {
      var k :| 0 <= k < |sure| && sure[k] == c;
      assert IdsFit(f, plan.times[k], sure[k]) && id in Members(plan.times[k]);
    }
    forall c ensures CondFits(c, ItemOf(env, Parts(f), id)) <==> EventFits(c, Events(Parts(f)), id) {
      CondIsOfEvents(env, c, Parts(f), id);
    }
  }

  // ---- The sets ----

  lemma AllOfSegment(s: Segment)
    requires LocsGood(s)
    ensures WellFormed(Locs(s.locs)) && forall id :: id in Ids(Locs(s.locs)) <==> id in SegFacts(s).entries
  {
    hide SegFacts;
    forall id ensures id in Ids(Locs(s.locs)) <==> id in SegFacts(s).entries {
      HasEntryIs(s, id);
    }
  }

  /** Every entry of the part. */
  method WholePart(env: Env, segments: seq<Segment>, ids: seq<u64>, j: nat, ghost f: Found) returns (s: IdSet)
    requires Sound(env, f) && f.segments == segments && f.mirror.ids == ids && j <= |segments|
    ensures WellFormed(s) && Lists(s) == {} && forall id :: id in Ids(s) <==> id in Parts(f)[j].entries
  {
    hide Sound, Located, LocsGood, SegFacts, LogFacts;
    Ordered(env, f);
    if j == |segments| {
      LogEntries(f.mirror, f.log);
      s := Slice(ids);
    } else {
      AllOfSegment(segments[j]);
      s := Locs(segments[j].locs);
    }
  }

  lemma LogEntries(m: Mirror, data: bytes)
    requires Located(data, m)
    ensures Ascending(m.ids) && forall id :: id in m.ids <==> id in LogFacts(m, data).entries
  {
    hide LogFacts;
    forall id ensures id in m.ids <==> id in LogFacts(m, data).entries { LogEntryIn(m, data, id); }
  }

  method AddTimes(sets: seq<IdSet>, times: seq<seq<u64>>, ghost lists: set<Postings>) returns (r: seq<IdSet>)
    requires AllFormed(sets) && AllLists(sets) == lists
    requires forall k :: 0 <= k < |times| ==> Ascending(times[k])
    ensures AllFormed(r) && AllLists(r) == lists && |r| == |sets| + |times|
    ensures forall id :: InAll(r, id) <==> InAll(sets, id) && forall k :: 0 <= k < |times| ==> id in Members(times[k])
  {
    hide AllLists, InAll;
    r := sets;
    for i := 0 to |times|
      invariant AllFormed(r) && AllLists(r) == lists && |r| == |sets| + i
      invariant forall id :: InAll(r, id) <==> InAll(sets, id) && forall k :: 0 <= k < i ==> id in Members(times[k])
    {
      OneSetMore(r, Slice(times[i]));
      r := r + [Slice(times[i])];
    }
  }

  /** The hashes' sets and the types'. */
  method TermSets(env: Env, segments: seq<Segment>, postings: map<u64, seq<u64>>, j: nat, plan: Plan, ghost f: Found)
    returns (sets: Option<seq<IdSet>>, ghost lists: set<Postings>)
    requires Sound(env, f) && f.segments == segments && f.mirror.postings == postings && j <= |segments|
    ensures sets.None? ==> forall id :: !HasTerms(env, Parts(f)[j].entries, plan, id)
    ensures fresh(lists) && AllValid(lists)
    ensures sets.Some? ==> AllFormed(sets.value) && AllLists(sets.value) == lists
    ensures sets.Some? ==> (sets.value == [] <==> plan.hashes == [] && plan.types.None?)
    ensures sets.Some? ==> forall id :: InAll(sets.value, id) <==> HasTerms(env, Parts(f)[j].entries, plan, id)
  {
    hide Sound, Parts, Ids, Lists, WellFormed, AllLists, InAll, HasAny, HasAll;
    sets, lists := HashSets(env, segments, postings, j, plan.hashes, f);
    if sets.None? { return; }
    if plan.types.Some? {
      var t := TypeSet(env, segments, postings, j, plan.types.value, f);
      if t.None? { return None, lists; }
      OneSetMore(sets.value, t.value);
      sets := Some(sets.value + [t.value]);
      lists := lists + Lists(t.value);
    }
  }

  /** The sets whose common ids are the part's candidates, the shortest first; None if the
      part can have none. */
  method SetsOf(env: Env, segments: seq<Segment>, ids: seq<u64>, postings: map<u64, seq<u64>>, j: nat, plan: Plan,
                ghost f: Found, ghost sure: seq<Cond>)
    returns (sets: Option<seq<IdSet>>, ghost lists: set<Postings>)
    requires Sound(env, f) && f.segments == segments && f.mirror.postings == postings && f.mirror.ids == ids
             && j <= |segments|
    requires Gathered(f, plan.times, sure)
    ensures sets.None? ==> forall id :: !Fitting(env, f, plan, sure, j, id)
    ensures fresh(lists) && AllValid(lists)
    ensures sets.Some? ==> sets.value != [] && AllFormed(sets.value) && AllLists(sets.value) <= lists
    ensures sets.Some? ==> forall id :: InAll(sets.value, id) <==> Fitting(env, f, plan, sure, j, id)
  {
    hide Sound, Parts, Ids, Lists, WellFormed, AllLists, InAll, HasTerms, IdsFit;
    sets, lists := TermSets(env, segments, postings, j, plan, f);
    if sets.None? { return; }
    TimesAscend(f, plan.times, sure);
    var all := AddTimes(sets.value, plan.times, lists);
    if all == [] {
      var whole := WholePart(env, segments, ids, j, f);
      OneSetMore(all, whole);
      all := all + [whole];
    }
    var sorted := SortBySize(all);
    SameSets(all, sorted);
    sets := Some(sorted);
  }

  lemma TimesAscend(f: Found, times: seq<seq<u64>>, sure: seq<Cond>)
    requires Gathered(f, times, sure)
    ensures forall k :: 0 <= k < |times| ==> Ascending(times[k])
  {
    hide EventFits;
    assert forall k :: 0 <= k < |times| ==> IdsFit(f, times[k], sure[k]);
  }

  // ---- Candidates ----

  /** The text of a blob checked against words and pattern; a blob that cannot be opened has
      none. */
  method Matches(env: Env, blob: bytes, words: seq<string>, re: Option<Hir>) returns (r: bool)
    requires EngineRight(env) && (words != [] || re.Some?)
    ensures r <==> Opened(env.keys, blob).Some? && TextFits(env, words, re, Opened(env.keys, blob).value.contents)
  {
    hide Opened, PrimaryText, IsMatch, Contains, Lower;
    var record := OpenRecord(env.keys, blob);
    if record.Err? { return false; }
    var text := PrimaryText(env, record.value.contents);
    if text.None? { return false; }
    var lc := Lower(text.value, env.lower);
    for i := 0 to |words|
      invariant forall k :: 0 <= k < i ==> Contains(lc, words[k])
    {
      var found := Find(lc, words[i]);
      if !found { return false; }
    }
    r := re.None? || env.isMatch(re.value, text.value);
  }

  /** The candidate's own events meet every condition left to be checked. */
  method TimesHold(env: Env, segments: seq<Segment>, events: seq<Event>, deferred: seq<Cond>, id: u64, ghost f: Found)
    returns (r: bool)
    requires Sound(env, f) && f.segments == segments && f.mirror.events == events
    ensures r <==> forall c :: c in deferred ==> EventFits(c, Events(Parts(f)), id)
  {
    hide Sound, Parts, Events, EventFits, Times;
    if deferred == [] { return true; }
    var copies, pastes := EventsIn(env, segments, events, id, f);
    for i := 0 to |deferred|
      invariant forall k :: 0 <= k < i ==> EventFits(deferred[k], Events(Parts(f)), id)
    {
      var c := deferred[i];
      var a := AnyWithin(copies, c.from, c.upto);
      var b := AnyWithin(pastes, c.from, c.upto);
      CondOfTimes(c, Events(Parts(f)), id, copies, pastes);
      if !((c.copies && a) || (c.pastes && b)) {
        assert c in deferred;
        return false;
      }
    }
    r := true;
  }

  method AnyWithin(times: seq<i64>, from: i64, upto: i64) returns (r: bool)
    ensures r <==> InTimes(multiset(times), from, upto)
  {
    for i := 0 to |times|
      invariant forall k :: 0 <= k < i ==> !(from <= times[k] < upto)
    {
      if from <= times[i] < upto {
        assert times[i] in multiset(times);
        return true;
      }
    }
    forall at: i64 | at in multiset(times) ensures !(from <= at < upto) {
      assert at in times;
    }
    r := false;
  }

  lemma CondOfTimes(c: Cond, events: seq<Event>, id: u64, copies: seq<i64>, pastes: seq<i64>)
    requires multiset(copies) == Times(events, id, COPIED) && multiset(pastes) == Times(events, id, PASTED)
    ensures EventFits(c, events, id) <==>
            (c.copies && InTimes(multiset(copies), c.from, c.upto))
              || (c.pastes && InTimes(multiset(pastes), c.from, c.upto))
  {
    hide Times, InTimes;
    TimesFit(c, events, id, COPIED);
    TimesFit(c, events, id, PASTED);
    KindFits(c, events, id);
  }

  /** The blob of an id known to be of the part. */
  method PartBlob(env: Env, active: Logs.Active, segments: seq<Segment>, j: nat, id: u64, ghost f: Found)
    returns (r: Option<bytes>)
    requires active.Valid()
    requires Sound(env, f) && f.segments == segments && f.mirror == active.View() && f.log == active.Data()
             && j <= |segments|
    ensures r.Some? <==> id in Parts(f)[j].entries
    ensures r.Some? ==> r.value == Parts(f)[j].entries[id]
  {
    hide Sound, SegFacts, LogFacts, LocsGood, Mirrors, LogBlob, Located;
    Ordered(env, f);
    if j == |segments| {
      LogBlobIs(f.mirror, f.log, id);
      r := active.BlobOf(id);
    } else {
      r := SegBlob(segments[j], id);
      SegEntries(segments[j]);
    }
  }

  /** Whether a candidate is an answer. */
  method Accept(env: Env, active: Logs.Active, segments: seq<Segment>, j: nat, plan: Plan, id: u64,
                ghost f: Found, ghost q: Query, ghost sure: seq<Cond>)
    returns (r: bool)
    requires active.Valid() && EngineRight(env)
    requires Sound(env, f) && f.segments == segments && f.mirror == active.View() && f.log == active.Data()
             && j <= |segments|
    requires PlanFor(env, f, q, plan, sure) && Fitting(env, f, plan, sure, j, id)
    ensures r <==> id in Parts(f)[j].entries && Hit(env, q, AbsIn(env, f), id)
  {
    hide Sound, Parts, Dead, Events, EventFits, TextFits, Opened, PlanFor, Fitting, Hit, AbsIn, Logs.Active.Valid,
      EngineRight;
    if id in Parts(f)[j].entries {
      EntryOf(env, f, j, id);
      DeadIsNoHit(env, f, q, id);
      OpenedHere(env, f, j, id);
    }
    var dead := DeletedIn(env, active.tombstones, segments, id, f);
    if dead { return false; }
    if id in Parts(f)[j].entries { FitHits(env, f, q, plan, sure, j, id); }
    var times := TimesHold(env, segments, active.events, plan.deferred, id, f);
    if !times { return false; }
    var blob := PartBlob(env, active, segments, j, id, f);
    if plan.words != [] || plan.re.Some? {
      if blob.None? { return false; }
      r := Matches(env, blob.value, plan.words, plan.re);
    } else {
      r := blob.Some?;
      if r { NoText(env, RecordAt(env, blob.value).contents); }
    }
  }

  lemma NoText(env: Env, contents: seq<Content>)
    ensures TextFits(env, [], None, contents)
  {
  }

  lemma DeadIsNoHit(env: Env, f: Found, q: Query, id: u64)
    requires id in AbsIn(env, f).items <==> id !in Dead(Parts(f))
    ensures id in Dead(Parts(f)) ==> !Hit(env, q, AbsIn(env, f), id)
  {
    hide Satisfies, AbsIn, Dead, Parts;
  }

  lemma OpenedHere(env: Env, f: Found, j: nat, id: u64)
    requires Sound(env, f) && j <= |f.segments| && id in Parts(f)[j].entries
    ensures Opened(env.keys, Parts(f)[j].entries[id]).Some?
    ensures Opened(env.keys, Parts(f)[j].entries[id]).value == RecordAt(env, Parts(f)[j].entries[id])
  {
    hide Sound, Parts, Opened, Canonical, Encodable, Blobs;
    InPart(env, f, j, id);
    EntryOpens(env, f, id);
  }

  // ---- The walk ----

  /** The part's ids run from the first to the second; None if it has none. */
  method PartRange(env: Env, segments: seq<Segment>, ids: seq<u64>, j: nat, ghost f: Found)
    returns (r: Option<(u64, u64)>)
    requires Sound(env, f) && f.segments == segments && f.mirror.ids == ids && j <= |segments|
    ensures IsRange(r, Parts(f)[j])
  {
    hide Sound, SegFacts, LogFacts, Located, LocsGood, IsRange;
    Ordered(env, f);
    if j == |segments| {
      LogRange(f.mirror, f.log);
      r := if ids == [] then None else Some((ids[0], ids[|ids| - 1]));
    } else {
      SegmentRange(segments[j]);
      r := if segments[j].entries > 0 then Some((segments[j].minId, segments[j].maxId)) else None;
    }
  }

  ghost predicate IsRange(r: Option<(u64, u64)>, part: Facts) {
    match r
    case None => forall x :: x !in part.entries
    case Some((min, max)) =>
      min in part.entries && max in part.entries && forall x :: x in part.entries ==> min <= x <= max
  }

  lemma LogRange(m: Mirror, data: bytes)
    requires Located(data, m)
    ensures IsRange(if m.ids == [] then None else Some((m.ids[0], m.ids[|m.ids| - 1])), LogFacts(m, data))
  {
    hide LogFacts, Located;
    LogEntries(m, data);
    forall x | x in LogFacts(m, data).entries ensures m.ids != [] && m.ids[0] <= x <= m.ids[|m.ids| - 1] {
      assert x in m.ids;
    }
  }

  lemma SegmentRange(s: Segment)
    requires LocsGood(s)
    ensures IsRange(if s.entries > 0 then Some((s.minId, s.maxId)) else None, SegFacts(s))
  {
    hide SegFacts, LocsGood;
    if s.entries > 0 { EndsAreEntries(s); }
    forall x | x in SegFacts(s).entries ensures s.entries > 0 && s.minId <= x <= s.maxId {
      EntryInRange(s, x);
    }
  }

  /** What is found so far and what a scan from `at` on would find are the whole answer. */
  ghost predicate Scanned(env: Env, q: Query, a: Abs, out: seq<u64>, at: nat, limit: nat, goal: seq<int>) {
    |out| <= limit && out + Scan(env, q, a, at, limit - |out|) == goal
  }

  lemma ScannedDown(env: Env, q: Query, a: Abs, out: seq<u64>, hi: nat, lo: nat, limit: nat, goal: seq<int>)
    requires Scanned(env, q, a, out, hi, limit, goal) && lo <= hi
    requires forall x :: lo <= x < hi ==> !Hit(env, q, a, x)
    ensures Scanned(env, q, a, out, lo, limit, goal)
  {
    hide Hit, Scan;
    ScanSkips(env, q, a, lo, hi, limit - |out|);
  }

  lemma ScannedOne(env: Env, q: Query, a: Abs, out: seq<u64>, hi: nat, id: u64, limit: nat, goal: seq<int>)
    requires Scanned(env, q, a, out, hi, limit, goal) && id < hi && |out| < limit && Hit(env, q, a, id)
    requires forall x :: id < x < hi ==> !Hit(env, q, a, x)
    ensures Scanned(env, q, a, out + [id], id, limit, goal)
  {
    hide Hit, Scan;
    ScanTakes(env, q, a, id, hi, limit - |out|);
    assert out + ([id] + Scan(env, q, a, id, limit - |out| - 1)) == out + [id] + Scan(env, q, a, id, limit - |out| - 1);
  }

  lemma ScannedAll(env: Env, q: Query, a: Abs, out: seq<u64>, at: nat, limit: nat, goal: seq<int>)
    requires Scanned(env, q, a, out, at, limit, goal)
    requires |out| == limit || forall x :: 0 <= x < at ==> !Hit(env, q, a, x)
    ensures out == goal
  {
    hide Hit, Scan;
    if |out| < limit { ScanSkips(env, q, a, 0, at, limit - |out|); }
    NoScan(env, q, a, at);
    assert Scan(env, q, a, 0, limit - |out|) == [] by { NothingBelow(env, q, a, limit - |out|); }
    assert out + [] == out;
  }

  lemma NothingBelow(env: Env, q: Query, a: Abs, limit: nat)
    ensures Scan(env, q, a, 0, limit) == []
  {
  }

  /** In this range only part `j` has live entries. */
  ghost predicate OnlyIn(f: Found, a: Abs, j: nat, lo: nat, hi: nat)
    requires j < |Parts(f)|
  {
    forall id :: id in a.items && lo <= id < hi ==> id in Parts(f)[j].entries
  }

  /** A hit in the range is a candidate. */
  lemma HitsFit(env: Env, f: Found, q: Query, plan: Plan, sure: seq<Cond>, j: nat, lo: nat, hi: nat)
    requires Sound(env, f) && PlanFor(env, f, q, plan, sure) && j <= |f.segments|
    requires OnlyIn(f, AbsIn(env, f), j, lo, hi)
    ensures forall x :: lo <= x < hi && Hit(env, q, AbsIn(env, f), x) ==> Fitting(env, f, plan, sure, j, x)
  {
    hide Sound, Parts, PlanFor, Fitting, Satisfies, AbsIn;
    forall x | lo <= x < hi && Hit(env, q, AbsIn(env, f), x) ensures Fitting(env, f, plan, sure, j, x) {
      HitFits(env, f, q, plan, sure, j, x);
    }
  }

  /** The part's candidates walked newest first, each checked. */
  method WalkPart(env: Env, active: Logs.Active, segments: seq<Segment>, j: nat, plan: Plan, sets: seq<IdSet>,
                  upper: u64, min: u64, limit: nat, found: seq<u64>,
                  ghost lists: set<Postings>, ghost f: Found, ghost q: Query, ghost sure: seq<Cond>,
                  ghost goal: seq<int>)
    returns (out: seq<u64>)
    requires active.Valid() && EngineRight(env)
    requires Sound(env, f) && f.segments == segments && f.mirror == active.View() && f.log == active.Data()
             && j <= |segments|
    requires PlanFor(env, f, q, plan, sure)
    requires sets != [] && AllFormed(sets) && AllLists(sets) <= lists && AllValid(lists)
    requires forall id :: InAll(sets, id) <==> Fitting(env, f, plan, sure, j, id)
    requires |found| < limit && min <= upper && Scanned(env, q, AbsIn(env, f), found, upper, limit, goal)
    requires OnlyIn(f, AbsIn(env, f), j, min, upper)
    modifies lists
    ensures active.Valid() && active.View() == f.mirror && active.Data() == f.log
    ensures |out| == limit ==> out == goal
    ensures |out| < limit ==> Scanned(env, q, AbsIn(env, f), out, min, limit, goal)
    ensures |out| <= limit
  {
    hide Sound, Parts, PlanFor, Fitting, Hit, AbsIn, InAll, AllLists, WellFormed, AllValid, Scanned, OnlyIn,
      Logs.Active.Valid, EngineRight, Scan;
    ghost var a := AbsIn(env, f);
    HitsFit(env, f, q, plan, sure, j, min, upper);
    out := found;
    var at := upper;
    while true
      invariant active.Valid() && active.View() == f.mirror && active.Data() == f.log && AllValid(lists)
      invariant min <= at <= upper && |out| < limit && Scanned(env, q, a, out, at, limit, goal)
      decreases at
    {
      var r := Leapfrog(sets, at, min, lists);
      if r.None? {
        ScannedDown(env, q, a, out, at, min, limit, goal);
        break;
      }
      var id := r.value;
      var answer := Accept(env, active, segments, j, plan, id, f, q, sure);
      if answer {
        ScannedOne(env, q, a, out, at, id, limit, goal);
        out := out + [id];
        if |out| >= limit {
          ScannedAll(env, q, a, out, id, limit, goal);
          return;
        }
      } else {
        NoHitElsewhere(env, f, q, a, j, min, upper, id);
        ScannedDown(env, q, a, out, at, id, limit, goal);
      }
      at := id;
    }
  }

  lemma NoHitElsewhere(env: Env, f: Found, q: Query, a: Abs, j: nat, lo: nat, hi: nat, id: u64)
    requires j < |Parts(f)| && OnlyIn(f, a, j, lo, hi) && lo <= id < hi
    ensures Hit(env, q, a, id) ==> id in Parts(f)[j].entries
  {
    hide Parts, Satisfies;
  }

  /** Live entries below `at` are in the first `k` parts only. */
  ghost predicate Left(f: Found, a: Abs, k: nat, at: nat) {
    forall id :: id in a.items && id < at ==> EntryWithin(Parts(f), k, id)
  }

  /** The first `k` parts' entries are below `at`. */
  ghost predicate Under(f: Found, k: nat, at: nat) {
    forall i, x :: 0 <= i < k && i < |Parts(f)| && x in Parts(f)[i].entries ==> x < at
  }

  lemma AllLeft(env: Env, f: Found, at: nat)
    ensures Left(f, AbsIn(env, f), |Parts(f)|, at)
  {
    hide ItemOf, NextOf, Dead, Blobs, SegFacts, LogFacts;
    SumsMembers(Parts(f));
  }

  /** The part has nothing: the ones before it are left. */
  lemma EmptyPart(f: Found, a: Abs, j: nat, at: nat)
    requires j < |Parts(f)| && Left(f, a, j + 1, at) && forall x :: x !in Parts(f)[j].entries
    ensures Left(f, a, j, at)
    ensures Under(f, j + 1, at) ==> Under(f, j, at)
  {
    hide Parts;
    forall id | id in a.items && id < at ensures EntryWithin(Parts(f), j, id) {
      var i :| 0 <= i < j + 1 && i < |Parts(f)| && id in Parts(f)[i].entries;
    }
  }

  lemma PartUnder(env: Env, f: Found, j: nat, min: u64)
    requires Sound(env, f) && j < |Parts(f)| && min in Parts(f)[j].entries
    ensures Under(f, j, min)
  {
    hide Sound, Parts;
    forall i, x | 0 <= i < j && x in Parts(f)[i].entries ensures x < min {
      LaterIsHigher(env, f, i, j, x, min);
    }
  }

  lemma HereOrBefore(f: Found, a: Abs, j: nat, at: nat, min: u64, id: u64)
    requires j < |Parts(f)| && Left(f, a, j + 1, at) && Under(f, j, min) && id in a.items && id < at
    ensures id in Parts(f)[j].entries || (id < min && EntryWithin(Parts(f), j, id))
  {
    hide Parts;
    assert EntryWithin(Parts(f), j + 1, id);
    var i :| 0 <= i < j + 1 && i < |Parts(f)| && id in Parts(f)[i].entries;
    if i < j { assert EntryWithin(Parts(f), j, id); }
  }

  /** Below the part's first id only older parts are left; from it up to one above its last,
      only the part itself; above that, nothing. */
  lemma PartLeft(env: Env, f: Found, a: Abs, j: nat, at: nat, min: u64, max: u64)
    requires Sound(env, f) && j < |Parts(f)| && Left(f, a, j + 1, at)
    requires min in Parts(f)[j].entries && max in Parts(f)[j].entries
    requires forall x :: x in Parts(f)[j].entries ==> min <= x <= max
    ensures UpTo(a, at, max) && OnlyIn(f, a, j, min, at)
    ensures min <= at ==> Left(f, a, j, min)
    ensures at <= min ==> Left(f, a, j, at)
    ensures Under(f, j, min)
  {
    hide Sound, Parts, Under, EntryWithin;
    PartUnder(env, f, j, min);
    forall id | id in a.items && id < at
      ensures id in Parts(f)[j].entries || (id < min && EntryWithin(Parts(f), j, id)) {
      HereOrBefore(f, a, j, at, min, id);
    }
  }

  /** Live entries below `at` are up to `max`. */
  ghost predicate UpTo(a: Abs, at: nat, max: nat) {
    forall id :: id in a.items && id < at ==> id <= max
  }

  lemma OnlyInLess(f: Found, a: Abs, j: nat, lo: nat, hi: nat, less: nat)
    requires j < |Parts(f)| && OnlyIn(f, a, j, lo, hi) && less <= hi
    ensures OnlyIn(f, a, j, lo, less)
  {
    hide Parts;
  }

  lemma NoFitNoHit(env: Env, f: Found, q: Query, plan: Plan, sure: seq<Cond>, j: nat, lo: nat, hi: nat)
    requires Sound(env, f) && PlanFor(env, f, q, plan, sure) && j <= |f.segments|
    requires OnlyIn(f, AbsIn(env, f), j, lo, hi) && forall id :: !Fitting(env, f, plan, sure, j, id)
    ensures forall x :: lo <= x < hi ==> !Hit(env, q, AbsIn(env, f), x)
  {
    hide Sound, Parts, PlanFor, Fitting, Hit, AbsIn, OnlyIn;
    HitsFit(env, f, q, plan, sure, j, lo, hi);
  }

  lemma NothingAboveLast(env: Env, q: Query, a: Abs, max: nat, lo: nat, hi: nat)
    requires UpTo(a, hi, max) && (max < lo || hi <= lo)
    ensures forall x :: lo <= x < hi ==> !Hit(env, q, a, x)
  {
    hide Satisfies;
  }

  lemma NothingLeft(env: Env, f: Found, q: Query, a: Abs, at: nat)
    requires Left(f, a, 0, at)
    ensures forall x :: 0 <= x < at ==> !Hit(env, q, a, x)
  {
    hide Satisfies, Parts;
  }

  /** One part of the search: what of it is below `at` is found. */
  method SearchPart(env: Env, active: Logs.Active, segments: seq<Segment>, j: nat, plan: Plan, below: u64, limit: nat,
                    found: seq<u64>, ghost at: nat, ghost f: Found, ghost q: Query, ghost sure: seq<Cond>,
                    ghost goal: seq<int>)
    returns (out: seq<u64>, ghost next: nat)
    requires active.Valid() && EngineRight(env) && NextOf(f) < TWO_64
    requires Sound(env, f) && f.segments == segments && f.mirror == active.View() && f.log == active.Data()
             && j <= |segments|
    requires PlanFor(env, f, q, plan, sure)
    requires |found| < limit && Scanned(env, q, AbsIn(env, f), found, at, limit, goal)
    requires at <= below && Left(f, AbsIn(env, f), j + 1, at) && (at == below || Under(f, j + 1, at))
    ensures active.Valid() && active.View() == f.mirror && active.Data() == f.log
    ensures |out| <= limit && (|out| == limit ==> out == goal)
    ensures |out| < limit ==> Scanned(env, q, AbsIn(env, f), out, next, limit, goal)
    ensures |out| < limit ==> next <= below && Left(f, AbsIn(env, f), j, next) && (next == below || Under(f, j, next))
  {
    hide Sound, Parts, PlanFor, Fitting, Hit, AbsIn, InAll, AllLists, WellFormed, AllValid, Scanned, OnlyIn,
      Logs.Active.Valid, EngineRight, Scan, Left, NextOf;
    ghost var a := AbsIn(env, f);
    var range := PartRange(env, segments, active.ids, j, f);
    if range.None? {
      EmptyPart(f, a, j, at);
      return found, at;
    }
    var (min, max) := range.value;
    MaxBelowNext(env, f, j, max);
    PartLeft(env, f, a, j, at, min, max);
    var upper := if below <= max + 1 then below else max + 1;
    NothingAboveLast(env, q, a, max, upper, at);
    ScannedDown(env, q, a, found, at, upper, limit, goal);
    if upper <= min { return found, upper; }
    OnlyInLess(f, a, j, min, at, upper);
    PlanGathered(env, f, q, plan, sure);
    var sets, lists := SetsOf(env, segments, active.ids, active.postings, j, plan, f, sure);
    if sets.None? {
      NoFitNoHit(env, f, q, plan, sure, j, min, upper);
      ScannedDown(env, q, a, found, upper, min, limit, goal);
      return found, min;
    }
    out := WalkPart(env, active, segments, j, plan, sets.value, upper, min, limit, found, lists, f, q, sure, goal);
    next := min;
  }

  lemma MaxBelowNext(env: Env, f: Found, j: nat, max: u64)
    requires Sound(env, f) && j < |Parts(f)| && max in Parts(f)[j].entries
    ensures max < NextOf(f)
  {
    hide Sound, Parts, Opened, Canonical, Encodable, Blobs, NextOf;
    InPart(env, f, j, max);
    EntryOpens(env, f, max);
  }

  lemma PlanGathered(env: Env, f: Found, q: Query, plan: Plan, sure: seq<Cond>)
    requires PlanFor(env, f, q, plan, sure)
    ensures Gathered(f, plan.times, sure)
  {
    hide Gathered;
  }

  /** Every part walked, the log before the segments and later segments before earlier: the
      answer is what the naive scan finds. */
  method SearchParts(env: Env, active: Logs.Active, segments: seq<Segment>, plan: Plan, below: u64, limit: nat,
                     ghost f: Found, ghost q: Query, ghost sure: seq<Cond>)
    returns (out: seq<u64>)
    requires active.Valid() && EngineRight(env) && NextOf(f) < TWO_64 && limit > 0
    requires Sound(env, f) && f.segments == segments && f.mirror == active.View() && f.log == active.Data()
    requires PlanFor(env, f, q, plan, sure)
    ensures out == Scan(env, q, AbsIn(env, f), below, limit)
  {
    hide Sound, Parts, PlanFor, Hit, AbsIn, Scanned, Logs.Active.Valid, EngineRight, Scan, Left, Under, NextOf;
    ghost var a := AbsIn(env, f);
    ghost var goal := Scan(env, q, a, below, limit);
    ghost var at: nat := below;
    out := [];
    Start(env, q, a, below, limit);
    AllLeft(env, f, below);
    for k := |segments| + 1 downto 0
      invariant active.Valid() && active.View() == f.mirror && active.Data() == f.log
      invariant |out| < limit && Scanned(env, q, a, out, at, limit, goal)
      invariant at <= below && Left(f, a, k, at) && (at == below || Under(f, k, at))
    {
      out, at := SearchPart(env, active, segments, k, plan, below, limit, out, at, f, q, sure, goal);
      if |out| >= limit { return; }
    }
    NothingLeft(env, f, q, a, at);
    ScannedAll(env, q, a, out, at, limit, goal);
  }

  lemma Start(env: Env, q: Query, a: Abs, below: nat, limit: nat)
    ensures Scanned(env, q, a, [], below, limit, Scan(env, q, a, below, limit))
  {
    hide Scan;
    assert [] + Scan(env, q, a, below, limit) == Scan(env, q, a, below, limit);
  }
}
