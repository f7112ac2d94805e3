/** A history driven by a script of calls, crashes within calls, and reopenings. */
module Scripts {
  import opened Wrappers
  import opened Codec
  import opened Records
  import opened Disk
  import opened Entries
  import opened Stores
  import opened Recovery
  import opened Histories
  import opened Steps
  import opened Opening
  import opened Runs

  /** A call, or a call stopped after so many of its file steps; the history is then opened
      again from what was on the disk. */
  datatype Deed = Do(act: Act) | Cut(act: Act, at: nat)

  /** What of a run answers a deed. */
  ghost predicate Answers(deed: Deed, done: Act) {
    match deed
    case Do(act) => SameCall(act, done)
    case Cut(act, _) => done.Stopped? && SameCall(act, done.whole)
  }

  // ---- What a run tells its caller ----

  /** The answer says that entry `id` is there, or was until now. */
  predicate Tells(act: Act, id: u64) {
    match act
    case Append(_, _, Ok(x)) => x.id == id
    case Import(_, _, Ok(x)) => x.id == id
    case Replace(was, _, _, _, Ok(Some(x))) => was == id || x == id
    case Event(e, done) => done && e.id == id
    case Delete(was, done) => done && was == id
    case _ => false
  }

  /** Whatever is told of is there, or new. */
  lemma TellsOfLive(env: Env, a: Abs, act: Act, b: Abs, id: u64)
    requires Takes(env, a, act, b) && Tells(act, id)
    ensures id in a.items || id >= a.next
  {
    hide SizeOf, FrameSize, RecordFor, Present, EditedItem;
  }

  /** After a deletion was acknowledged no answer tells of that entry. */
  lemma NeverToldAgain(env: Env, states: seq<Abs>, acts: seq<Act>, i: nat, j: nat)
    requires IsRun(env, states, acts) && i < j < |acts|
    requires acts[i].Delete? && acts[i].done
    ensures !Tells(acts[j], acts[i].id)
  {
    hide Takes, Tells;
    var id := acts[i].id;
    DeletedForGood(env, states, acts, i, j);
    RunFollows(env, states, acts, i, j);
    RunFollows(env, states, acts, 0, i);
    assert Takes(env, states[j], acts[j], states[j + 1]);
    if Tells(acts[j], id) { TellsOfLive(env, states[j], acts[j], states[j + 1], id); }
  }

  lemma RunOn(env: Env, states: seq<Abs>, acts: seq<Act>, act: Act, b: Abs)
    requires IsRun(env, states, acts) && Takes(env, states[|acts|], act, b)
    ensures IsRun(env, states + [b], acts + [act])
  {
    hide Takes, Well;
    var s, t := states + [b], acts + [act];
    forall i | 0 <= i < |t| ensures Takes(env, s[i], t[i], s[i + 1]) {
      if i < |acts| { assert Takes(env, states[i], acts[i], states[i + 1]); }
    }
  }

  // ---- One deed ----

  /** Whether the call may be made now: its arguments and the numbers left are in range. */
  method MayDo(h: History, act: Act) returns (ok: bool)
    requires h.Valid()
    ensures (ok <==> Ready(h, act)) && (ok ==> !act.Stopped?)
  {
    hide History.Valid;
    match act {
      case Append(e, _, _) => ok := h.Room(1) && |e.contents| < TWO_64 && |PreviewOf(h.env, e)| < TWO_64;
      case Import(e, _, _) =>
        ok := h.Room(1 + |e.copies| + |e.pastes|) && |e.contents| < TWO_64 && |e.preview| < TWO_64;
      case Replace(id, contents, preview, _, _) =>
        var n := RecordsOf(h, id);
        ok := h.Room(n) && |contents| < TWO_64 && |preview| < TWO_64;
      case Event(e, _) => ok := h.Room(0) && (e.kind == COPIED || e.kind == PASTED);
      case Delete(_, _) => ok := h.Room(0);
      case Seal => ok := h.Room(0);
      case Compact => ok := h.Room(0);
      case _ => ok := false;
    }
  }

  /** The records an edit of the entry takes. */
  method RecordsOf(h: History, id: u64) returns (n: nat)
    requires h.Valid()
    ensures n == EditSize(h.Abs(), id)
  {
    hide History.Valid, IsItem;
    var got := h.Get(id);
    if got.value.None? { return 1; }
    var e := got.value.value;
    h.CopiesThere(id);
    ItemTimes(e, h.Abs().items[id]);
    n := 1 + |e.copies| + |e.pastes|;
  }

  /** What is on the disk, opened anew. */
  method OpenAgain(files: Files, env: Env, opts: Options, nonce: bytes) returns (h: History)
    requires Lawful(env.keys) && Openable(env, files) && FoundIn(env, files).Ok?
    ensures fresh(h) && fresh(h.dir) && fresh(h.active) && h.env == env && h.opts == opts && h.Valid()
    ensures h.Abs() == HistoryIn(env, files)
  {
    hide FoundIn, Sound, AbsIn, Safe, History.Valid;
    var dir := new Dir(files);
    var found, _ := Open(dir, env, opts, nonce);
    h := found;
  }

  /** A history in memory is the one its directory holds. */
  lemma DiskHolds(h: History)
    requires h.Valid()
    ensures Lawful(h.env.keys) && Openable(h.env, h.dir.files)
    ensures FoundIn(h.env, h.dir.files).Ok? && HistoryIn(h.env, h.dir.files) == h.Abs()
  {
    hide Sound, Holds, NextOf, FoundIn;
    HoldsRecovers(h.env, h.dir.files, h.Here());
  }

  /** The machine stopped `at` file steps into what was done since `from`, or after the last
      and before anybody was answered; and the history opened again. */
  method StopAndOpen(h: History, act: Act, from: nat, at: nat, nonce: bytes, ghost a: Abs) returns (h': History)
    requires h.Valid() && CutSafe(h.env, h.dir.trace, from, a, act) && Takes(h.env, a, act, h.Abs()) && !act.Stopped?
    ensures fresh(h') && fresh(h'.dir) && fresh(h'.active) && h'.env == h.env && h'.opts == h.opts && h'.Valid()
    ensures Takes(h.env, a, Stopped(act), h'.Abs())
  {
    hide Ends, Partly, CutSafe, History.Valid, FoundIn, Sound, AbsIn;
    DiskHolds(h);
    var files := h.dir.files;
    if from + at < |h.dir.trace| {
      CrashReopens(h.env, h.dir.trace, from, a, act, from + at);
      files := h.dir.trace[from + at];
    }
    h' := OpenAgain(files, h.env, h.opts, nonce);
  }

  /** The history closed and opened again. */
  method Again(h: History, nonce: bytes) returns (h': History)
    requires h.Valid()
    modifies h.dir
    ensures fresh(h') && fresh(h'.active) && h'.dir == h.dir && h'.env == h.env && h'.opts == h.opts && h'.Valid()
    ensures h'.Abs() == old(h.Abs())
    ensures old(h.dir.trace) <= h.dir.trace && CutSafe(h.env, h.dir.trace, |old(h.dir.trace)|, old(h.Abs()), Reopen)
  {
    hide History.Valid, CutSafe, Safe, FoundIn, Sound, AbsIn, Openable, HistoryIn;
    DiskHolds(h);
    ghost var a, from := h.Abs(), |h.dir.trace|;
    var found, _ := Open(h.dir, h.env, h.opts, nonce);
    h' := found;
    SafeIsCut(h.env, h.dir.trace, from, a, a, Reopen);
  }

  /** One deed, if it may be done: its answer, and the history it leaves. */
  method Perform(h: History, deed: Deed, nonce: bytes) returns (h': History, done: Option<Act>)
    requires h.Valid()
    modifies h, h.dir, h.active
    ensures h'.Valid() && h'.env == h.env && h'.opts == h.opts
    ensures (h' == h || fresh(h')) && (h'.dir == h.dir || fresh(h'.dir))
            && (h'.active == old(h.active) || fresh(h'.active))
    ensures done.Some? <==> deed.act.Reopen? || old(Ready(h, deed.act))
    ensures done.None? ==> h' == h && h'.Abs() == old(h.Abs()) && !Ready(h', deed.act)
    ensures done.Some? ==> Answers(deed, done.value) && Takes(h.env, old(h.Abs()), done.value, h'.Abs())
  {
    hide History.Valid, Ends, Partly, CutSafe, Ready;
    ghost var a := h.Abs();
    var from, act := |h.dir.trace|, deed.act;
    h' := h;
    var whole := act;
    if act.Reopen? {
      h' := Again(h, nonce);
      SameHistory(h.env, a);
    } else {
      var may := MayDo(h, act);
      if !may { return h, None; }
      whole := Runs.Perform(h, act);
    }
    done := Some(whole);
    if deed.Cut? {
      NotStopped(act, whole);
      h' := StopAndOpen(h', whole, from, deed.at, nonce, a);
      done := Some(Stopped(whole));
    }
  }

  lemma SameHistory(env: Env, a: Abs)
    ensures Takes(env, a, Reopen, a) && SameCall(Reopen, Reopen)
  {
  }

  lemma NotStopped(act: Act, whole: Act)
    requires SameCall(act, whole) && !act.Stopped?
    ensures !whole.Stopped?
  {
  }

  // ---- A script ----

  /** The deeds one after another, from whatever the disk holds, up to the first that the
      numbers left do not allow. What was answered is a run, and the history is where it ends;
      an entry whose deletion was acknowledged is never told of again, and new ids are told in
      strictly ascending order, whatever crashes and reopenings lie between. */
  method Play(files: Files, env: Env, opts: Options, nonce: bytes, script: seq<Deed>)
    returns (h: History, acts: seq<Act>, ghost states: seq<Abs>)
    requires Lawful(env.keys) && Openable(env, files) && FoundIn(env, files).Ok?
    ensures IsRun(env, states, acts) && states[0] == HistoryIn(env, files)
    ensures h.Valid() && h.env == env && h.Abs() == states[|acts|]
    ensures |acts| < |script| ==> !script[|acts|].act.Reopen? && !Ready(h, script[|acts|].act)
    ensures |acts| <= |script| && forall i :: 0 <= i < |acts| ==> Answers(script[i], acts[i])
    ensures forall i, j :: 0 <= i < j < |acts| && acts[i].Delete? && acts[i].done ==> !Tells(acts[j], acts[i].id)
    ensures forall i, j :: 0 <= i < j < |acts| && NewId(acts[i]).Some? && NewId(acts[j]).Some? ==>
                             NewId(acts[i]).value < NewId(acts[j]).value
  {
    hide History.Valid, FoundIn, Sound, AbsIn, Takes, Answers, Tells, NewId, Well, Ready;
    h := OpenAgain(files, env, opts, nonce);
    acts, states := [], [h.Abs()];
    WellFound(env, files);
    for k := 0 to |script|
      invariant h.Valid() && h.env == env && fresh(h) && fresh(h.dir) && fresh(h.active)
      invariant |acts| == k && IsRun(env, states, acts) && states[0] == HistoryIn(env, files) && states[k] == h.Abs()
      invariant forall i :: 0 <= i < k ==> Answers(script[i], acts[i])
      invariant |acts| <= |script|
    {
      var h', done := Perform(h, script[k], nonce);
      if done.None? { break; }
      RunOn(env, states, acts, done.value, h'.Abs());
      h, acts, states := h', acts + [done.value], states + [h'.Abs()];
    }
    forall i, j | 0 <= i < j < |acts| && acts[i].Delete? && acts[i].done
      ensures !Tells(acts[j], acts[i].id)
    {
      NeverToldAgain(env, states, acts, i, j);
    }
    forall i, j | 0 <= i < j < |acts| && NewId(acts[i]).Some? && NewId(acts[j]).Some?
      ensures NewId(acts[i]).value < NewId(acts[j]).value
    {
      NewIdsIncrease(env, states, acts, i, j);
    }
  }

  lemma WellFound(env: Env, files: Files)
    requires Openable(env, files) && FoundIn(env, files).Ok?
    ensures Well(HistoryIn(env, files))
  {
    hide FoundIn, Sound, AbsIn, Well;
    SoundIsWell(env, FoundIn(env, files).value);
  }
}
