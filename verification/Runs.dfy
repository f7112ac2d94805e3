/** Runs of a history: any sequence of calls, crashes and reopenings. */
module Runs {
  import opened Wrappers
  import opened Codec
  import opened Records
  import opened Disk
  import opened Entries
  import opened Stores
  import opened Recovery
  import opened Lookups
  import opened Histories
  import opened Steps
  import opened Opening

  /** A call with its answer. Stopped is a crash within one, which nobody was answered, and
      what opening the directory then finds. */
  datatype Act =
    | Append(e: NewEntry, nonces: Nonces, appended: Result<Appended, Error>)
    | Import(entry: Entry, nonces: Nonces, appended: Result<Appended, Error>)
    | Replace(id: u64, contents: seq<Content>, preview: bytes, nonces: Nonces, replaced: Result<Option<u64>, Error>)
    | Event(event: Event, done: bool)
    | Delete(id: u64, done: bool)
    | Seal
    | Compact
    | Reopen
    | Stopped(whole: Act)

  /** The same call, whatever it answers. */
  ghost predicate SameCall(x: Act, y: Act) {
    match x
    case Append(e, nonces, _) => y.Append? && y.e == e && y.nonces == nonces
    case Import(e, nonces, _) => y.Import? && y.entry == e && y.nonces == nonces
    case Replace(id, contents, preview, nonces, _) =>
      y.Replace? && y.id == id && y.contents == contents && y.preview == preview && y.nonces == nonces
    case Event(e, _) => y.Event? && y.event == e
    case Delete(id, _) => y.Delete? && y.id == id
    case _ => y == x
  }

  /** Every entry is under its own id, below the next. */
  ghost predicate Well(a: Abs) {
    forall id :: id in a.items ==> id < a.next && a.items[id].record.id == id
  }

  /** From `a` the whole act, so answered, leaves `b`. */
  ghost predicate Ends(env: Env, a: Abs, act: Act, b: Abs) {
    match act
    case Append(e, nonces, r) => a.next < TWO_64 && AppendsTo(env, a, a.next, e, nonces, r, b)
    case Import(e, nonces, r) => a.next < TWO_64 && ImportsTo(env, a, a.next, e, nonces, r, b)
    case Replace(id, contents, preview, nonces, r) =>
      a.next < TWO_64 && ReplacesTo(env, a, a.next, id, contents, preview, nonces, r, b)
    case Event(e, done) => (done <==> e.id in a.items) && b == if e.id in a.items then Noted(a, e) else a
    case Delete(id, done) => (done <==> id in a.items) && b == if done then Dropped(a, id) else a
    case Stopped(_) => false
    case _ => b == a
  }

  /** The new entry of an edit before its events. */
  ghost function EditBegun(env: Env, a: Abs, id: u64, newId: u64, contents: seq<Content>, preview: bytes): Abs
    requires id in a.items
  {
    AppendedTo(env, a, Edited(a.items[id].record.copiedAt, contents, preview), New(newId))
  }

  /** An act of several records stopped between its first and its last. */
  ghost predicate Partly(env: Env, a: Abs, act: Act, x: Abs) {
    match act
    case Import(e, _, Ok(r)) =>
      && (if r.New? then a.next == r.id as nat else r.id in a.items)
      && SomeEvents(AppendedTo(env, a, NewOf(e), r), r.id, Others(e, r), e.pastes, x)
    case Replace(id, contents, preview, _, Ok(Some(newId))) =>
      && id in a.items && a.next == newId as nat
      && OnlyEventsOf(EditBegun(env, a, id, newId, contents, preview), newId, x)
    case _ => false
  }

  /** From `a`, the act may leave `b`. */
  ghost predicate Takes(env: Env, a: Abs, act: Act, b: Abs) {
    match act
    case Stopped(whole) => b == a || Ends(env, a, whole, b) || Partly(env, a, whole, b)
    case _ => Ends(env, a, act, b)
  }

  ghost predicate IsRun(env: Env, states: seq<Abs>, acts: seq<Act>) {
    && |states| == |acts| + 1 && Well(states[0])
    && forall i :: 0 <= i < |acts| ==> Takes(env, states[i], acts[i], states[i + 1])
  }

  /** A history that a directory holds is well. */
  lemma SoundIsWell(env: Env, f: Found)
    requires Sound(env, f)
    ensures Well(AbsIn(env, f))
  {
    hide Sound, Opened, Canonical, Blobs, Dead, Events, Times, NextOf, Encodable;
    forall id | id in AbsIn(env, f).items
      ensures id < NextOf(f) && AbsIn(env, f).items[id].record.id == id {
      EntryOpens(env, f, id);
    }
  }

  lemma AppendFollows(env: Env, a: Abs, next: u64, e: NewEntry, nonces: Nonces, r: Result<Appended, Error>, b: Abs)
    requires Well(a) && a.next == next && AppendsTo(env, a, next, e, nonces, r, b)
    ensures Follows(a, b) && Well(b)
  {
    hide SizeOf, FrameSize, Canonical, PreviewOf, Present;
  }

  lemma ImportFollows(env: Env, a: Abs, next: u64, e: Entry, nonces: Nonces, r: Result<Appended, Error>, b: Abs)
    requires Well(a) && a.next == next && ImportsTo(env, a, next, e, nonces, r, b)
    ensures Follows(a, b) && Well(b)
  {
    hide SizeOf, FrameSize, Canonical, PreviewOf, Present, AppendsTo, IsNewest;
  }

  lemma ReplaceFollows(env: Env, a: Abs, next: u64, id: u64, contents: seq<Content>, preview: bytes, nonces: Nonces,
                       r: Result<Option<u64>, Error>, b: Abs)
    requires Well(a) && a.next == next && ReplacesTo(env, a, next, id, contents, preview, nonces, r, b)
    ensures Follows(a, b) && Well(b)
  {
    hide SizeOf, FrameSize, Canonical, PreviewOf, IsLeast;
    if id in a.items && r.Ok? && r.value.Some? {
      forall k | k in b.items ensures k < b.next && b.items[k].record.id == k && (k < a.next ==> k in a.items) {
        if k != next { assert k in b.items - {next}; }
      }
    }
  }

  lemma EndFollows(env: Env, a: Abs, act: Act, b: Abs)
    requires Well(a) && Ends(env, a, act, b)
    ensures Follows(a, b) && Well(b)
  {
    hide AppendsTo, ImportsTo, ReplacesTo;
    match act
    case Append(e, nonces, r) => AppendFollows(env, a, a.next, e, nonces, r, b);
    case Import(e, nonces, r) => ImportFollows(env, a, a.next, e, nonces, r, b);
    case Replace(id, contents, preview, nonces, r) =>
      ReplaceFollows(env, a, a.next, id, contents, preview, nonces, r, b);
    case _ =>
  }

  /** More events of an entry make no id new. */
  lemma EventsFollow(a: Abs, m: Abs, id: u64, x: Abs)
    requires Follows(a, m) && Well(m) && OnlyEventsOf(m, id, x)
    ensures Follows(a, x) && Well(x)
  {
    OnlyEventsFollow(a, m, id, x);
    forall k | k in x.items ensures k < x.next && x.items[k].record.id == k {
      if k != id { assert k in x.items - {id}; }
    }
  }

  lemma PartFollows(env: Env, a: Abs, act: Act, x: Abs)
    requires Well(a) && Partly(env, a, act, x)
    ensures Follows(a, x) && Well(x)
  {
    hide SomeEvents, OnlyEventsOf, Canonical, PreviewOf;
    match act {
      case Import(e, _, Ok(r)) =>
        SomeAreOnly(AppendedTo(env, a, NewOf(e), r), r.id, Others(e, r), e.pastes, x);
        EventsFollow(a, AppendedTo(env, a, NewOf(e), r), r.id, x);
      case Replace(id, contents, preview, _, Ok(Some(newId))) =>
        EventsFollow(a, EditBegun(env, a, id, newId, contents, preview), newId, x);
      case _ =>
    }
  }

  /** Whatever is done, or stopped half-way, no id that was taken comes back. */
  lemma StepFollows(env: Env, a: Abs, act: Act, b: Abs)
    requires Well(a) && Takes(env, a, act, b)
    ensures Follows(a, b) && Well(b)
  {
    hide Ends, Partly;
    if act.Stopped? {
      if Ends(env, a, act.whole, b) { EndFollows(env, a, act.whole, b); }
      if Partly(env, a, act.whole, b) { PartFollows(env, a, act.whole, b); }
    } else {
      EndFollows(env, a, act, b);
    }
  }

  lemma {:induction false} RunFollows(env: Env, states: seq<Abs>, acts: seq<Act>, i: nat, j: nat)
    requires IsRun(env, states, acts) && i <= j < |states|
    ensures Follows(states[i], states[j]) && Well(states[j])
    decreases j
  {
    hide Takes;
    if j > 0 {
      RunFollows(env, states, acts, if i < j then i else j - 1, j - 1);
      assert Takes(env, states[j - 1], acts[j - 1], states[j]);
      StepFollows(env, states[j - 1], acts[j - 1], states[j]);
    }
  }

  /** An entry deleted is deleted for good: in no later state, whatever calls, crashes and
      reopenings lie between, is there an entry of its id. */
  lemma DeletedForGood(env: Env, states: seq<Abs>, acts: seq<Act>, k: nat, j: nat)
    requires IsRun(env, states, acts) && k < j < |states|
    requires acts[k].Delete? && acts[k].done
    ensures acts[k].id in states[k].items && acts[k].id !in states[j].items
  {
    hide AppendsTo, ImportsTo, ReplacesTo;
    RunFollows(env, states, acts, 0, k);
    assert Takes(env, states[k], acts[k], states[k + 1]);
    RunFollows(env, states, acts, k + 1, j);
  }

  /** The id an act was given for a new entry. */
  ghost function NewId(act: Act): Option<u64> {
    match act
    case Append(_, _, Ok(New(id))) => Some(id)
    case Import(_, _, Ok(New(id))) => Some(id)
    case Replace(_, _, _, _, Ok(newId)) => newId
    case _ => None
  }

  lemma NewIdIsNext(env: Env, a: Abs, act: Act, b: Abs)
    requires Takes(env, a, act, b) && NewId(act).Some?
    ensures NewId(act).value == a.next && a.next < b.next
  {
    hide SizeOf, FrameSize, Canonical, PreviewOf, Present, IsNewest, IsLeast, EditedItem;
  }

  /** Acknowledged new ids strictly increase over the whole run, and none was an entry's
      before. */
  lemma NewIdsIncrease(env: Env, states: seq<Abs>, acts: seq<Act>, i: nat, j: nat)
    requires IsRun(env, states, acts) && i < j < |acts|
    requires NewId(acts[i]).Some? && NewId(acts[j]).Some?
    ensures NewId(acts[i]).value < NewId(acts[j]).value
    ensures NewId(acts[j]).value !in states[i].items && NewId(acts[j]).value !in states[j].items
  {
    hide Takes, NewId;
    assert Takes(env, states[i], acts[i], states[i + 1]) && Takes(env, states[j], acts[j], states[j + 1]);
    NewIdIsNext(env, states[i], acts[i], states[i + 1]);
    NewIdIsNext(env, states[j], acts[j], states[j + 1]);
    RunFollows(env, states, acts, i + 1, j);
    RunFollows(env, states, acts, 0, i);
    RunFollows(env, states, acts, 0, j);
  }

  // ---- Crashes ----

  /** Every state of the directory since is one that stopping within the act may leave. */
  ghost predicate CutSafe(env: Env, trace: seq<Files>, from: nat, a: Abs, act: Act) {
    During(env, trace, from, x => Takes(env, a, Stopped(act), x))
  }

  lemma SafeIsCut(env: Env, trace: seq<Files>, from: nat, a: Abs, b: Abs, act: Act)
    requires Safe(env, trace, from, a, b) && Ends(env, a, act, b)
    ensures CutSafe(env, trace, from, a, act)
  {
    hide Safe, During, Ends, Partly;
    SafeDuring(env, trace, from, a, b, x => Takes(env, a, Stopped(act), x));
  }

  lemma ImportIsCut(env: Env, trace: seq<Files>, from: nat, a: Abs, e: Entry, nonces: Nonces, r: Appended, b: Abs)
    requires DuringImport(env, trace, from, a, e, r) && a.next < TWO_64
             && ImportsTo(env, a, a.next, e, nonces, Ok(r), b)
    ensures CutSafe(env, trace, from, a, Act.Import(e, nonces, Ok(r)))
  {
    ImportAnswers(env, a, a.next, e, nonces, r, b);
    hide During, Ends, SomeEvents, ImportsTo;
    DuringKinds(env, trace, from, x => ImportCut(env, a, e, r, x),
                x => Takes(env, a, Stopped(Act.Import(e, nonces, Ok(r))), x));
  }

  lemma ImportAnswers(env: Env, a: Abs, next: u64, e: Entry, nonces: Nonces, r: Appended, b: Abs)
    requires a.next <= next && ImportsTo(env, a, next, e, nonces, Ok(r), b)
    ensures if r.New? then r.id == next else r.id in a.items
  {
    hide RecordFor, Present, IsNewest;
  }

  lemma EditIsCut(env: Env, trace: seq<Files>, from: nat, a: Abs, id: u64, contents: seq<Content>, preview: bytes,
                  nonces: Nonces, newId: u64, b: Abs)
    requires ReplaceSafe(env, trace, from, a, id, contents, preview, Ok(Some(newId)), b) && a.next < TWO_64
    requires ReplacesTo(env, a, a.next, id, contents, preview, nonces, Ok(Some(newId)), b)
    ensures CutSafe(env, trace, from, a, Act.Replace(id, contents, preview, nonces, Ok(Some(newId))))
  {
    assert newId == a.next && id in a.items by { hide EditedItem; }
    hide During, OnlyEventsOf, ReplacesTo;
    DuringKinds(env, trace, from, x => EditCut(env, a, id, newId, contents, preview, b, x),
                x => Takes(env, a, Stopped(Act.Replace(id, contents, preview, nonces, Ok(Some(newId)))), x));
  }

  /** A crash after any file step of an act: the directory opens again, and that is a step of
      the run. */
  lemma CrashReopens(env: Env, trace: seq<Files>, from: nat, a: Abs, act: Act, i: nat)
    requires CutSafe(env, trace, from, a, act) && from <= i < |trace|
    ensures Openable(env, trace[i]) && FoundIn(env, trace[i]).Ok?
    ensures Takes(env, a, Stopped(act), HistoryIn(env, trace[i]))
  {
    hide FoundIn, Sound, AbsIn, Takes;
    assert RecoversTo(env, trace[i], x => Takes(env, a, Stopped(act), x));
  }

  /** Stopped within an import: every other entry is as it was, and the entry itself, if it
      was there, has lost nothing. */
  lemma ImportCrashReopens(env: Env, a: Abs, e: Entry, nonces: Nonces, r: Appended, x: Abs)
    requires Well(a) && Takes(env, a, Stopped(Act.Import(e, nonces, Ok(r))), x)
    ensures x == a || ImportPart(a, r.id, x)
  {
    hide SomeEvents, ImportPart, RecordFor;
    var act := Act.Import(e, nonces, Ok(r));
    if Partly(env, a, act, x) {
      ImportOn(env, a, e, r, x);
      ImportCutKeeps(env, a, e, r, x);
    } else if x != a {
      ImportEnds(env, a, a.next, e, nonces, r, x);
    }
  }

  lemma ImportEnds(env: Env, a: Abs, next: u64, e: Entry, nonces: Nonces, r: Appended, x: Abs)
    requires Well(a) && a.next == next && ImportsTo(env, a, next, e, nonces, Ok(r), x)
    ensures ImportPart(a, r.id, x)
  {
    hide RecordFor, Present, IsNewest;
  }

  /** Stopped within an edit: every other entry is as it was, and the old one is there whole
      or the new one is. */
  lemma EditCrashReopens(env: Env, a: Abs, id: u64, contents: seq<Content>, preview: bytes, nonces: Nonces, newId: u64,
                         x: Abs)
    requires Well(a) && Takes(env, a, Stopped(Act.Replace(id, contents, preview, nonces, Ok(Some(newId)))), x)
    ensures x.items - {id, newId} == a.items - {id, newId}
    ensures x == a || id in a.items
    ensures id in a.items ==>
              || (id in x.items && x.items[id] == a.items[id])
              || (id !in x.items && newId in x.items
                  && EditedItem(env, a.items[id], newId, contents, preview, x.items[newId]))
  {
    hide EditedItem, RecordFor;
    var act := Act.Replace(id, contents, preview, nonces, Ok(Some(newId)));
    if Partly(env, a, act, x) {
      var m := EditBegun(env, a, id, newId, contents, preview);
      assert x.items - {newId} == m.items - {newId} == a.items - {newId};
      assert id in a.items - {newId};
      assert x.items - {id, newId} == x.items - {newId} - {id} && a.items - {id, newId} == a.items - {newId} - {id};
    } else if x != a {
      assert x.items - {id, newId} == x.items - {newId} - {id} == a.items - {id, newId};
      assert id !in x.items - {newId};
    }
  }

  // ---- The class takes these acts ----

  ghost predicate Ready(h: History, act: Act)
    reads h, h.active, h.dir, h.active.dir
    requires h.Valid()
  {
    match act
    case Append(e, _, _) => h.Room(1) && |e.contents| < TWO_64 && |PreviewOf(h.env, e)| < TWO_64
    case Import(e, _, _) => h.Room(1 + |e.copies| + |e.pastes|) && |e.contents| < TWO_64 && |e.preview| < TWO_64
    case Replace(id, contents, preview, _, _) =>
      h.Room(EditSize(h.Abs(), id)) && |contents| < TWO_64 && |preview| < TWO_64
    case Event(e, _) => h.Room(0) && (e.kind == COPIED || e.kind == PASTED)
    case Delete(_, _) => h.Room(0)
    case Seal => h.Room(0)
    case Compact => h.Room(0)
    case _ => false
  }

  method PerformImport(h: History, e: Entry, nonces: Nonces) returns (done: Act)
    requires h.Valid() && h.Room(1 + |e.copies| + |e.pastes|) && |e.contents| < TWO_64 && |e.preview| < TWO_64
    modifies h, h.dir, h.active
    ensures h.Valid() && (h.active == old(h.active) || fresh(h.active))
    ensures Takes(h.env, old(h.Abs()), done, h.Abs())
    ensures old(h.dir.trace) <= h.dir.trace && CutSafe(h.env, h.dir.trace, |old(h.dir.trace)|, old(h.Abs()), done)
    ensures done.Import? && done.entry == e && done.nonces == nonces
  {
    hide ImportsTo, History.Valid, CutSafe, Safe, DuringImport;
    h.LiveItems();
    ghost var a, from := h.Abs(), |h.dir.trace|;
    var r := h.Import(e, nonces);
    done := Act.Import(e, nonces, r);
    Imported(h.env, h.dir.trace, from, a, e, nonces, r, h.Abs());
  }

  method PerformReplace(h: History, id: u64, contents: seq<Content>, preview: bytes, nonces: Nonces) returns (done: Act)
    requires h.Valid() && h.Room(EditSize(h.Abs(), id)) && |contents| < TWO_64 && |preview| < TWO_64
    modifies h, h.dir, h.active
    ensures h.Valid() && (h.active == old(h.active) || fresh(h.active))
    ensures Takes(h.env, old(h.Abs()), done, h.Abs())
    ensures old(h.dir.trace) <= h.dir.trace && CutSafe(h.env, h.dir.trace, |old(h.dir.trace)|, old(h.Abs()), done)
    ensures SameCall(Act.Replace(id, contents, preview, nonces, Ok(None)), done)
  {
    hide ReplacesTo, History.Valid, CutSafe, Safe, ReplaceSafe;
    h.LiveItems();
    ghost var a, from := h.Abs(), |h.dir.trace|;
    var r := h.Replace(id, contents, preview, nonces);
    done := Act.Replace(id, contents, preview, nonces, r);
    Replaced(h.env, h.dir.trace, from, a, id, contents, preview, nonces, r, h.Abs());
  }

  /** Every call of the class is the act asked for, answered, and every crash within it is
      that act stopped. */
  method Perform(h: History, act: Act) returns (done: Act)
    requires h.Valid() && Ready(h, act)
    modifies h, h.dir, h.active
    ensures h.Valid() && (h.active == old(h.active) || fresh(h.active))
    ensures SameCall(act, done) && Takes(h.env, old(h.Abs()), done, h.Abs())
    ensures TombsServed(old(h.Here()), h.Here())
    ensures old(h.dir.trace) <= h.dir.trace && CutSafe(h.env, h.dir.trace, |old(h.dir.trace)|, old(h.Abs()), done)
  {
    hide History.Valid, History.Here, AbsIn, Sound, Takes, CutSafe, TombsServed, SameCall, Ready;
    h.SoundHere();
    done := Answer(h, act);
    h.SoundHere();
    Served(h.env, old(h.Here()), done, h.Here());
  }

  method Answer(h: History, act: Act) returns (done: Act)
    requires h.Valid() && Ready(h, act)
    modifies h, h.dir, h.active
    ensures h.Valid() && (h.active == old(h.active) || fresh(h.active))
    ensures SameCall(act, done) && Takes(h.env, old(h.Abs()), done, h.Abs())
    ensures old(h.dir.trace) <= h.dir.trace && CutSafe(h.env, h.dir.trace, |old(h.dir.trace)|, old(h.Abs()), done)
  {
    hide AppendsTo, ImportsTo, ReplacesTo, History.Valid, Noted, Dropped, CutSafe, Safe, ReplaceSafe, DuringImport,
      Partly;
    h.LiveItems();
    ghost var a, from := h.Abs(), |h.dir.trace|;
    match act {
      case Append(e, nonces, _) =>
        var r := h.Append(e, nonces);
        done := Act.Append(e, nonces, r);
        SafeIsCut(h.env, h.dir.trace, from, a, h.Abs(), done);
      case Import(e, nonces, _) =>
        done := PerformImport(h, e, nonces);
      case Replace(id, contents, preview, nonces, _) =>
        done := PerformReplace(h, id, contents, preview, nonces);
      case Event(e, _) =>
        var r: bool;
        if e.kind == COPIED { r := h.RecordCopy(e.id, e.at); } else { r := h.RecordPaste(e.id, e.at); }
        done := Act.Event(e, r);
        SafeIsCut(h.env, h.dir.trace, from, a, h.Abs(), done);
      case Delete(id, _) =>
        var r := h.Delete(id);
        done := Act.Delete(id, r);
        SafeIsCut(h.env, h.dir.trace, from, a, h.Abs(), done);
      case Seal =>
        h.Seal();
        done := act;
        SafeIsCut(h.env, h.dir.trace, from, a, h.Abs(), done);
      case Compact =>
        h.Compact();
        done := act;
        SafeIsCut(h.env, h.dir.trace, from, a, h.Abs(), done);
    }
  }

  /** No act drops a tombstone that still hides something. */
  lemma Served(env: Env, f: Found, act: Act, g: Found)
    requires Sound(env, f) && Sound(env, g) && Takes(env, AbsIn(env, f), act, AbsIn(env, g))
    ensures TombsServed(f, g)
  {
    hide Sound, AbsIn, Takes, Well, Follows, TombsServed;
    SoundIsWell(env, f);
    StepFollows(env, AbsIn(env, f), act, AbsIn(env, g));
    TombsAreServed(env, f, g);
  }

  lemma Imported(env: Env, trace: seq<Files>, from: nat, a: Abs, e: Entry, nonces: Nonces, r: Result<Appended, Error>,
                 b: Abs)
    requires a.next < TWO_64 && ImportsTo(env, a, a.next, e, nonces, r, b)
    requires r.Ok? ==> DuringImport(env, trace, from, a, e, r.value)
    requires r.Err? ==> Safe(env, trace, from, b, b)
    ensures CutSafe(env, trace, from, a, Act.Import(e, nonces, r))
  {
    hide Safe, DuringImport, CutSafe, AppendsTo;
    match r {
      case Ok(x) => ImportIsCut(env, trace, from, a, e, nonces, x, b);
      case Err(_) => SafeIsCut(env, trace, from, a, b, Act.Import(e, nonces, r));
    }
  }

  lemma Replaced(env: Env, trace: seq<Files>, from: nat, a: Abs, id: u64, contents: seq<Content>, preview: bytes,
                 nonces: Nonces, r: Result<Option<u64>, Error>, b: Abs)
    requires a.next < TWO_64 && ReplacesTo(env, a, a.next, id, contents, preview, nonces, r, b)
    requires ReplaceSafe(env, trace, from, a, id, contents, preview, r, b)
    ensures CutSafe(env, trace, from, a, Act.Replace(id, contents, preview, nonces, r))
  {
    hide Safe, During, CutSafe, EditedItem;
    match r {
      case Ok(Some(newId)) => EditIsCut(env, trace, from, a, id, contents, preview, nonces, newId, b);
      case Ok(None) => SafeIsCut(env, trace, from, a, a, Act.Replace(id, contents, preview, nonces, r));
      case Err(x) =>
        if id in a.items {
          NewRefused(env, a, a.next, Edited(a.items[id].record.copiedAt, contents, preview), nonces, Err(x), b);
        }
        SafeIsCut(env, trace, from, a, a, Act.Replace(id, contents, preview, nonces, r));
    }
  }
}
