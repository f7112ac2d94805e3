/** Calls after which a history has other copies than its caller would think. */
module Shortfalls {
  import opened Wrappers
  import opened Codec
  import opened Records
  import opened Text
  import opened Logs
  import opened Entries
  import opened Stores
  import opened Rewriting
  import opened Recovery
  import opened Histories

  const NOTHING_MUCH: seq<Content> := [Content([], [])]

  function Small(at: i64): NewEntry {
    NewEntry(at, NOTHING_MUCH, Some([]))
  }

  /** An entry copied once, at 5, is taken out of an empty history and imported into it: it
      has three copies at 5 then, the one it had, the one imported, and that one again. */
  method CopiedOnceTooOften(h: History, nonces: Nonces)
    returns (made: Result<Appended, Error>, again: Result<Appended, Error>)
    requires h.Valid() && h.Room(5) && h.Abs().items == map[]
    modifies h, h.dir, h.active
    ensures h.Valid()
    ensures made.Ok? && again == Ok(Again(made.value.id)) && made.value.id in h.Abs().items
    ensures h.Abs().items[made.value.id].copies == multiset{5, 5, 5}
  {
    hide History.Valid, AbsIn, CountRows, AppendsTo, ImportsTo, IsItem;
    SmallFits();
    h.LawfulKeys();
    ghost var a, next := h.Abs(), h.nextId;
    made := h.Append(Small(5), nonces);
    AlwaysMade(h.env, a, next, made, nonces, h.Abs());
    var id := made.value.id;
    ghost var b := h.Abs();
    OnlyOne(h.env, a, next, made, nonces, b);
    var got := h.Get(id);
    var e := got.value.value;
    OneCopy(e, b.items[id]);
    ghost var next' := h.nextId;
    again := h.Import(e, nonces);
    Twice(h.env, b, next', id, e, nonces, again, h.Abs());
  }

  /** So little needs no more than a frame holds. */
  lemma SmallFrame(env: Env, r: Record, nonces: Nonces)
    requires Lawful(env.keys) && r.contents == NOTHING_MUCH && r.preview == []
    ensures FrameSize(env, r, nonces) <= MAX_FRAME
  {
    hide Lawful, AsciiLower, WithoutSpaces, LE;
    SmallTerms(env);
    SmallSeal(env, r, nonces);
  }

  lemma SmallSeal(env: Env, r: Record, nonces: Nonces)
    requires Lawful(env.keys) && r.contents == NOTHING_MUCH && r.preview == []
    ensures |Records.Sealed(env.keys, r, nonces)| <= 200
  {
    hide LE;
    VarintLength(0);
    VarintLength(1);
    assert TypesOf(NOTHING_MUCH) == [([], 0)] && AllData(NOTHING_MUCH) == [];
    assert |HeadPlain(r.contents, r.preview)| <= 100;
  }

  /** The empty type is its only term. */
  lemma SmallTerms(env: Env)
    ensures |IndexTerms(env, NOTHING_MUCH)| <= 1
  {
    hide Trigrams, PrimaryText;
    NoText(env);
    assert AsciiLower([]) == [] && TypeTerms([]) == [[]];
    var it := IndexTerms(env, NOTHING_MUCH);
    forall t | t in it ensures t in {env.keys.typeTerm([])} {
      var i, m :| 0 <= i < |NOTHING_MUCH| && m in TypeTerms(NOTHING_MUCH[i].mime) && env.keys.typeTerm(m) == t;
      assert m == [];
    }
    OneAtMost(it, env.keys.typeTerm([]));
  }

  lemma OneAtMost(s: set<u64>, x: u64)
    requires s <= {x}
    ensures |s| <= 1
  {
    if s != {} {
      assert x in s;
      assert s == {x};
    }
  }

  lemma NoText(env: Env)
    ensures PrimaryText(env, NOTHING_MUCH) == None
  {
    hide AsciiLower, FirstOfTypes, TextTypes;
    assert AsciiLower([]) == [] by { EmptyLower(); }
    TextTypesNamed();
    NoSuchType(env, TextTypes());
    NoSlash(env);
  }

  lemma NoSlash(env: Env)
    ensures FirstText(env, NOTHING_MUCH) == None
  {
    assert |Ascii("text/")| == 5 && |AsciiLower([])| == 0;
    assert NOTHING_MUCH[1..] == [];
    assert FirstText(env, []) == None;
    assert !(Ascii("text/") <= AsciiLower(NOTHING_MUCH[0].mime));
  }

  lemma EmptyLower()
    ensures AsciiLower([]) == []
  {
  }

  lemma TextTypesNamed()
    ensures forall t :: t in TextTypes() ==> t != []
  {
    assert |TextTypes()| == 5;
    forall t | t in TextTypes() ensures t != [] {
      assert |t| > 0;
    }
  }

  lemma {:induction false} NoSuchType(env: Env, types: seq<bytes>)
    requires forall t :: t in types ==> t != []
    ensures FirstOfTypes(env, NOTHING_MUCH, types) == None
  {
    if types != [] {
      assert types[0] in types;
      assert WithoutSpaces([]) == [] && AsciiLower([]) == [];
      assert FindType(NOTHING_MUCH, types[0]) == None by { assert NOTHING_MUCH[1..] == []; }
      assert forall t :: t in types[1..] ==> t in types;
      NoSuchType(env, types[1..]);
    }
  }

  /** So little is never refused. */
  lemma AlwaysMade(env: Env, a: Abs, next: u64, made: Result<Appended, Error>, nonces: Nonces, b: Abs)
    requires a.next <= next && a.items == map[] && AppendsTo(env, a, next, Small(5), nonces, made, b)
    requires Lawful(env.keys)
    ensures made.Ok?
  {
    SmallFits();
    SmallFrame(env, RecordFor(env, next, Small(5)), nonces);
    hide SizeOf, FrameSize, Canonical;
  }

  lemma SmallFits()
    ensures |NOTHING_MUCH| < TWO_64 && SizeOf(NOTHING_MUCH) <= MAX_ENTRY
  {
  }

  lemma OnlyOne(env: Env, a: Abs, next: u64, made: Result<Appended, Error>, nonces: Nonces, b: Abs)
    requires a.next <= next && a.items == map[] && AppendsTo(env, a, next, Small(5), nonces, made, b) && made.Ok?
    ensures made == Ok(New(next)) && b.items.Keys == {next} && b.items[next].record.contents == NOTHING_MUCH
    ensures b.items[next].copies == multiset{5} && b.items[next].pastes == multiset{}
    ensures b.items[next].record.copiedAt == 5 && b.items[next].record.preview == []
  {
    SmallFits();
    hide SizeOf, FrameSize, Canonical;
  }

  lemma OneCopy(e: Entry, item: Item)
    requires IsItem(e, item) && item.copies == multiset{5} && item.pastes == multiset{}
    ensures e.copies == [5] && e.pastes == [] && e.contents == item.record.contents
    ensures e.copiedAt == item.record.copiedAt && e.preview == item.record.preview
  {
    SmallList(e.copies);
    assert |multiset(e.pastes)| == 0;
  }

  lemma SmallList(s: seq<i64>)
    requires multiset(s) == multiset{5}
    ensures s == [5]
  {
    assert |multiset(s)| == 1;
    assert s[0] in multiset(s);
  }

  lemma Twice(env: Env, b: Abs, next: u64, id: u64, e: Entry, nonces: Nonces, again: Result<Appended, Error>, c: Abs)
    requires b.next <= next && b.items.Keys == {id} && b.items[id].record.contents == NOTHING_MUCH
    requires b.items[id].copies == multiset{5} && e.contents == NOTHING_MUCH && e.copies == [5] && e.pastes == []
    requires ImportsTo(env, b, next, e, nonces, again, c)
    ensures again == Ok(Again(id)) && id in c.items && c.items[id].copies == multiset{5, 5, 5}
  {
    SmallFits();
    hide SizeOf, FrameSize, RecordFor;
    assert HasContents(b, id, e.contents);
  }

  /** An entry made at 5, copied once more at 1 and then edited: both copies are at 5 then. */
  method EarlierCopyLost(h: History, nonces: Nonces)
    returns (made: Result<Appended, Error>, edited: Result<Option<u64>, Error>)
    requires h.Valid() && h.Room(7) && h.Abs().items == map[]
    modifies h, h.dir, h.active
    ensures h.Valid()
    ensures made.Ok? && edited.Ok? && edited.value.Some? && edited.value.value in h.Abs().items
    ensures h.Abs().items[edited.value.value].copies == multiset{5, 5}
  {
    hide History.Valid, AbsIn, CountRows, AppendsTo, ReplacesTo;
    SmallFits();
    h.LawfulKeys();
    ghost var a, next := h.Abs(), h.nextId;
    made := h.Append(Small(5), nonces);
    AlwaysMade(h.env, a, next, made, nonces, h.Abs());
    var id := made.value.id;
    OnlyOne(h.env, a, next, made, nonces, h.Abs());
    var _ := h.RecordCopy(id, 1);
    ghost var b, next' := h.Abs(), h.nextId;
    assert b.items[id].copies == multiset{5, 1};
    edited := h.Replace(id, NOTHING_MUCH, [], nonces);
    AlwaysEdited(h.env, b, next', id, nonces, edited, h.Abs());
    BothAtFive(h.env, b, next', id, nonces, edited, h.Abs());
  }

  lemma AlwaysEdited(env: Env, b: Abs, next: u64, id: u64, nonces: Nonces, edited: Result<Option<u64>, Error>, c: Abs)
    requires Lawful(env.keys) && b.next <= next && id in b.items
    requires ReplacesTo(env, b, next, id, NOTHING_MUCH, [], nonces, edited, c)
    ensures edited.Ok?
  {
    SmallFits();
    SmallFrame(env, RecordFor(env, next, Edited(b.items[id].record.copiedAt, NOTHING_MUCH, [])), nonces);
    hide EditedItem, SizeOf, FrameSize, Canonical;
  }

  lemma BothAtFive(env: Env, b: Abs, next: u64, id: u64, nonces: Nonces, edited: Result<Option<u64>, Error>, c: Abs)
    requires b.next <= next && id in b.items && b.items[id].copies == multiset{5, 1} && b.items[id].record.copiedAt == 5
    requires ReplacesTo(env, b, next, id, NOTHING_MUCH, [], nonces, edited, c) && edited.Ok?
    ensures edited == Ok(Some(next)) && next in c.items && c.items[next].copies == multiset{5, 5}
  {
    hide RecordFor, NewTo;
    var now := c.items[next];
    var first: i64 :| IsLeast(first, b.items[id].copies)
                      && now.copies == b.items[id].copies - multiset{first} + multiset{b.items[id].record.copiedAt};
    assert 1 in b.items[id].copies && first <= 1;
    assert first == 1;
  }
}
