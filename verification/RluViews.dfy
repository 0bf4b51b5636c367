/** What RLU promises: every section has one stable view of all objects, its copies
    stay in place while it runs, and sections that skip the lock checks lose nothing. */
module RluViews {
  import opened Options
  import opened Rlu
  import opened RluInvariant
  import opened RluSteps

  // ---------------------------------------------------------------- runs

  predicate StepAt(ss: seq<State>, acts: seq<Action>, i: nat) {
    i < |acts| && i + 1 < |ss| && Next(ss[i], acts[i], ss[i + 1])
  }

  predicate Run(ss: seq<State>, acts: seq<Action>) {
    |ss| == |acts| + 1 && Init(ss[0]) && forall i :: 0 <= i < |acts| ==> StepAt(ss, acts, i)
  }

  lemma InitInv(s: State)
    requires Init(s)
    ensures Inv(s)
  {
    forall t | 0 <= t < |s.th| ensures ThreadOk(s.th[t], |s.th|, s.max, s.g) {
    }
  }

  lemma SectionInv(s: State, a: Action, z: State)
    requires Inv(s) && SectionNext(s, a, z)
    ensures Inv(z)
  {
    hide Inv, CanEnter, CanVersion, CanBegin, CanDeref, CanResolve, CanLock, CanWrite, CanLeave, CanAbort, CanUnlock;
    hide CanAborted, DoEnter, DoVersion, DoBegin, DoDeref, DoResolve, DoLock, DoWrite, DoLeave, DoAbort, DoUnlock;
    match a {
      case Enter(t) => EnterInv(s, t);
      case Version(t) => VersionInv(s, t);
      case Begin(t) => BeginInv(s, t);
      case Deref(t, o) => DerefInv(s, t, o);
      case Resolve(t) => ResolveInv(s, t);
      case Lock(t, o) => LockInv(s, t, o);
      case Write(t, k, val) => WriteInv(s, t, k, val);
      case Leave(t) => LeaveInv(s, t);
      case Abort(t) => AbortInv(s, t);
      case Unlock(t) => UnlockInv(s, t);
      case Aborted(t) => AbortedInv(s, t);
    }
  }

  lemma LeaveInv(s: State, t: nat)
    requires Inv(s) && CanLeave(s, t)
    ensures Inv(DoLeave(s, t))
  {
    hide Inv, DoLeave;
    if s.th[t].wrote { LeaveWrittenInv(s, t); } else { LeaveReadOnlyInv(s, t); }
  }

  lemma AbortInv(s: State, t: nat)
    requires Inv(s) && CanAbort(s, t)
    ensures Inv(DoAbort(s, t))
  {
    hide Inv, DoAbort;
    if s.th[t].wrote { AbortWrittenInv(s, t); } else { AbortReadOnlyInv(s, t); }
  }

  lemma SyncStepInv(s: State, a: Action, z: State)
    requires Inv(s) && SyncNext(s, a, z)
    ensures Inv(z)
  {
    hide Inv, CanSync, CanCapture, CanPass, CanReset, CanCopyBack, CanRelease, CanNextSet, CanWritten, CanFinish;
    hide CanCount, DoSync, DoCapture, DoPass, DoReset, DoCopyBack, DoRelease, DoNextSet, DoWritten, DoFinish, DoCount;
    match a {
      case Sync(t) => SyncInv(s, t);
      case CaptureRun(t) => CaptureInv(s, t);
      case Pass(t, n) => PassInv(s, t, n);
      case Reset(t) => ResetInv(s, t);
      case CopyBack(t) => CopyBackInv(s, t);
      case Release(t) => ReleaseInv(s, t);
      case NextSet(t) => NextSetInv(s, t);
      case Written(t) => WrittenInv(s, t);
      case FinishSync(t) => FinishInv(s, t);
      case CountSync(t) => CountInv(s, t);
    }
  }

  lemma {:induction false} RunInv(ss: seq<State>, acts: seq<Action>, n: nat)
    requires Run(ss, acts) && n < |ss|
    ensures Inv(ss[n])
  {
    hide Inv, SectionNext, SyncNext;
    if n == 0 {
      InitInv(ss[0]);
    } else {
      RunInv(ss, acts, n - 1);
      assert StepAt(ss, acts, n - 1);
      if SectionNext(ss[n - 1], acts[n - 1], ss[n]) {
        SectionInv(ss[n - 1], acts[n - 1], ss[n]);
      } else {
        SyncStepInv(ss[n - 1], acts[n - 1], ss[n]);
      }
    }
  }

  // ---------------------------------------------------------------- one view per section

  /** What a reference leads to now. */
  function Contents(s: State, r: Ref): int {
    match r.loc
    case Org => if r.o < |s.obj| then s.obj[r.o].val else 0
    case At(c) => CopyVal(s.th, c)
  }

  /** A section never finds two values for an object, whichever copies and originals
      it has been sent to, and what it was sent to still holds that value. */
  lemma StableReferences(ss: seq<State>, acts: seq<Action>, n: nat, t: nat, r: Ref, q: Ref)
    requires Run(ss, acts) && n < |ss| && t < |ss[n].th|
    requires r in ss[n].th[t].refs && q in ss[n].th[t].refs && r.o == q.o
    ensures r.val == q.val && Contents(ss[n], r) == r.val && Contents(ss[n], q) == q.val
  {
    RunInv(ss, acts, n);
    var s := ss[n];
    assert ThreadOk(s.th[t], |s.th|, s.max, s.g) && ReaderOk(s, t) && RefOk(s, t, r) && RefOk(s, t, q);
  }

  /** The buffer a section's copy lies in is kept while the section runs: it is not
      reset, and no section of its owner writes into the same place of the ring. */
  lemma CopiesStayInPlace(ss: seq<State>, acts: seq<Action>, n: nat, t: nat, r: Ref)
    requires Run(ss, acts) && n < |ss| && t < |ss[n].th| && r in ss[n].th[t].refs && r.loc.At?
    ensures var c := r.loc.c;
            && c.t < |ss[n].th|
            && var x := ss[n].th[c.t];
               && x.head <= c.p < x.tail
               && (x.ph == In ==> c.p % MAX_WRITE_SETS != x.tail % MAX_WRITE_SETS)
  {
    RunInv(ss, acts, n);
    var s := ss[n];
    assert ThreadOk(s.th[t], |s.th|, s.max, s.g) && ReaderOk(s, t) && RefOk(s, t, r);
    var x := s.th[r.loc.c.t];
    assert ThreadOk(x, |s.th|, s.max, s.g);
    if x.ph == In { ModApart(r.loc.c.p, x.tail); }
  }

  lemma ModApart(p: nat, q: nat)
    requires p < q < p + MAX_WRITE_SETS
    ensures p % MAX_WRITE_SETS != q % MAX_WRITE_SETS
  {
  }

  // ---------------------------------------------------------------- stable views

  /** While a writer writes back, every other section began late enough to use the
      writer's copies. */
  lemma WritebackWaited(ss: seq<State>, acts: seq<Action>, n: nat, t: nat, u: nat)
    requires Run(ss, acts) && n < |ss| && t < |ss[n].th| && u < |ss[n].th|
    requires ss[n].th[t].ph.Writeback? && Running(ss[n].th[u].ph)
    ensures Reached(ss[n].th, t, ss[n].th[u].lv)
  {
    RunInv(ss, acts, n);
    var s := ss[n];
    assert ThreadOk(s.th[t], |s.th|, s.max, s.g) && WriterQuiet(s.th, t) && QuietOk(s.th, t, u);
  }

  /** What a section has dereferenced is its view of the object, unless it has locked
      the object itself in the meantime. */
  lemma DerefIsView(ss: seq<State>, acts: seq<Action>, n: nat, t: nat, r: Ref)
    requires Run(ss, acts) && n < |ss| && t < |ss[n].th| && r in ss[n].th[t].refs
    ensures r.o < |ss[n].obj|
    ensures !OwnCurrent(ss[n].th, ss[n].obj[r.o], t) ==> r.val == View(ss[n].th, ss[n].obj[r.o], t, ss[n].th[t].lv)
  {
    RunInv(ss, acts, n);
    var s := ss[n];
    assert ThreadOk(s.th[t], |s.th|, s.max, s.g) && ReaderOk(s, t) && RefOk(s, t, r);
  }

  /** A section that does not check locks loses nothing: its view of every object is
      the original. */
  lemma SkippingChecksIsSound(ss: seq<State>, acts: seq<Action>, n: nat, t: nat, o: nat)
    requires Run(ss, acts) && n < |ss| && t < |ss[n].th| && o < |ss[n].obj|
    requires ss[n].th[t].ph == In && !ss[n].th[t].check
    ensures View(ss[n].th, ss[n].obj[o], t, ss[n].th[t].lv) == ss[n].obj[o].val
  {
    RunInv(ss, acts, n);
    NothingToSteal(ss[n], t, o);
    NothingOwned(ss[n], t, o);
  }

  /** No step of another thread changes a section's view of any object. */
  lemma ViewStable(s: State, a: Action, z: State, t: nat, o: nat)
    requires Inv(s) && Next(s, a, z) && a.t != t && t < |s.th| && o < |s.obj| && Running(s.th[t].ph)
    ensures t < |z.th| && o < |z.obj| && z.th[t] == s.th[t]
    ensures View(z.th, z.obj[o], t, z.th[t].lv) == View(s.th, s.obj[o], t, s.th[t].lv)
  {
    hide SectionNext, SyncNext, View, Inv;
    if SectionNext(s, a, z) {
      SectionKeepsView(s, a, z, t, o);
    } else if a.CopyBack? || a.Release? {
      ItemKeepsView(s, a, z, t, o);
    } else {
      SyncKeepsView(s, a, z, t, o);
    }
  }

  /** A view depends on the lock, the copy it leads to and its owner's version. */
  lemma ViewFrame(s: State, z: State, t: nat, o: nat)
    requires t < |s.th| == |z.th| && o < |s.obj| == |z.obj| && z.obj[o] == s.obj[o]
    requires s.obj[o].lock.Some? ==>
      var c := s.obj[o].lock.value;
      && (Reached(z.th, c.t, s.th[t].lv) <==> Reached(s.th, c.t, s.th[t].lv))
      && (c.t == t || Reached(s.th, c.t, s.th[t].lv) ==> CopyVal(z.th, c) == CopyVal(s.th, c))
    ensures View(z.th, z.obj[o], t, s.th[t].lv) == View(s.th, s.obj[o], t, s.th[t].lv)
  {
  }

  lemma SectionEffect(s: State, a: Action, z: State)
    requires SectionNext(s, a, z)
    ensures a.t < |s.th| == |z.th| && |z.obj| == |s.obj| && z.th == s.th[a.t := z.th[a.t]] && z.th[a.t].wv == s.th[a.t].wv
    ensures !Syncing(s.th[a.t].ph)
    ensures !a.Lock? && !a.Unlock? ==> z.obj == s.obj
  {
  }

  lemma LockEffect(s: State, a: Action, z: State, o: nat)
    requires SectionNext(s, a, z) && Threads(s) && Locks(s.th, s.obj) && (a.Lock? || a.Unlock?) && o < |s.obj|
    ensures o < |z.obj| && z.obj[o].val == s.obj[o].val
    ensures s.obj[o].lock == z.obj[o].lock
            || (s.obj[o].lock.None? && z.obj[o].lock.Some? && z.obj[o].lock.value.t == a.t)
            || (s.obj[o].lock.Some? && s.obj[o].lock.value.t == a.t && z.obj[o].lock.None?)
  {
    if a.Unlock? {
      assert ThreadOk(s.th[a.t], |s.th|, s.max, s.g);
      assert Held(s.obj, s.th[a.t], a.t, s.th[a.t].tail, s.th[a.t].ph.k);
    }
  }

  lemma SectionKeepsView(s: State, a: Action, z: State, t: nat, o: nat)
    requires Inv(s) && SectionNext(s, a, z) && a.t != t && t < |s.th| && o < |s.obj| && Running(s.th[t].ph)
    ensures t < |z.th| && o < |z.obj| && z.th[t] == s.th[t]
    ensures View(z.th, z.obj[o], t, z.th[t].lv) == View(s.th, s.obj[o], t, s.th[t].lv)
  {
    hide SectionNext, Versions, Quiet, Readers, Copied, Locks;
    SectionEffect(s, a, z);
    assert ThreadOk(s.th[a.t], |s.th|, s.max, s.g);
    if a.Lock? || a.Unlock? { LockEffect(s, a, z, o); }
    assert !Reached(s.th, a.t, s.th[t].lv) && !Reached(z.th, a.t, s.th[t].lv);
    if z.obj[o] == s.obj[o] { ViewFrame(s, z, t, o); }
  }

  /** Copying an item back and releasing it: the section uses the copy before, and the
      original, with the same value, after. */
  lemma ItemKeepsView(s: State, a: Action, z: State, t: nat, o: nat)
    requires Inv(s) && SyncNext(s, a, z) && (a.CopyBack? || a.Release?)
    requires a.t != t && t < |s.th| && o < |s.obj| && Running(s.th[t].ph)
    ensures t < |z.th| && o < |z.obj| && z.th[t] == s.th[t]
    ensures View(z.th, z.obj[o], t, z.th[t].lv) == View(s.th, s.obj[o], t, s.th[t].lv)
  {
    hide Versions, Readers;
    assert ThreadOk(s.th[a.t], |s.th|, s.max, s.g) && WriterQuiet(s.th, a.t) && QuietOk(s.th, a.t, t);
    assert CopiedOk(s.obj, s.th[a.t]);
    ItemHeld(s, a.t);
    var it := ItemAt(s, a.t);
    assert z.th == s.th[a.t := z.th[a.t]] && z.th[a.t].wv == s.th[a.t].wv && z.th[a.t].sets == s.th[a.t].sets;
    if o != it.o { ViewFrame(s, z, t, o); }
  }

  lemma SyncEffect(s: State, a: Action, z: State)
    requires SyncNext(s, a, z) && !a.CopyBack? && !a.Release?
    ensures a.t < |s.th| == |z.th| && z.obj == s.obj && z.th == s.th[a.t := z.th[a.t]]
    ensures z.th[a.t].sets == s.th[a.t].sets
    ensures a.Sync? ==> z.th[a.t].wv == Some(s.g + 1) && !Syncing(s.th[a.t].ph)
    ensures a.FinishSync? ==> s.th[a.t].ph == Finish
    ensures !a.Sync? && !a.FinishSync? ==> z.th[a.t].wv == s.th[a.t].wv
  {
  }

  lemma SyncKeepsView(s: State, a: Action, z: State, t: nat, o: nat)
    requires Inv(s) && SyncNext(s, a, z) && !a.CopyBack? && !a.Release?
    requires a.t != t && t < |s.th| && o < |s.obj| && Running(s.th[t].ph)
    ensures t < |z.th| && o < |z.obj| && z.th[t] == s.th[t]
    ensures View(z.th, z.obj[o], t, z.th[t].lv) == View(s.th, s.obj[o], t, s.th[t].lv)
  {
    hide SyncNext, Versions, Readers, Quiet, Copied;
    SyncEffect(s, a, z);
    assert ThreadOk(s.th[a.t], |s.th|, s.max, s.g) && ThreadOk(s.th[t], |s.th|, s.max, s.g);
    assert LockOk(s.th, s.obj[o], o);
    ViewFrame(s, z, t, o);
  }

  // ---------------------------------------------------------------- every commit is counted

  /** A version given out has been counted, or its writer is still under way. */
  predicate Accounted(th: seq<Thread>, done: set<nat>, v: nat) {
    v in done || exists t :: 0 <= t < |th| && Pending(th[t].ph) && th[t].ver == v
  }

  predicate Counted(s: State) {
    forall v :: 1 <= v <= s.g ==> Accounted(s.th, s.done, v)
  }

  /** Only the last step of a synchronization ends it, and only the first raises g. */
  lemma WriterEffect(s: State, a: Action, z: State)
    requires Next(s, a, z)
    ensures a.t < |s.th| == |z.th| && forall u :: 0 <= u < |s.th| && u != a.t ==> z.th[u] == s.th[u]
    ensures Pending(s.th[a.t].ph) && !a.CountSync? ==> Pending(z.th[a.t].ph) && z.th[a.t].ver == s.th[a.t].ver
    ensures z.g == s.g + (if a.Sync? then 1 else 0) && (a.Sync? ==> z.th[a.t].ver == z.g && Pending(z.th[a.t].ph))
    ensures z.done == s.done + (if a.CountSync? then {s.th[a.t].ver} else {})
  {
    hide SectionNext, SyncNext;
    if SectionNext(s, a, z) { SectionWriter(s, a, z); } else { SyncWriter(s, a, z); }
  }

  lemma SectionWriter(s: State, a: Action, z: State)
    requires SectionNext(s, a, z)
    ensures a.t < |s.th| == |z.th| && z.th == s.th[a.t := z.th[a.t]] && !Pending(s.th[a.t].ph)
    ensures z.g == s.g && z.done == s.done && !a.Sync? && !a.CountSync?
  {
  }

  lemma SyncWriter(s: State, a: Action, z: State)
    requires SyncNext(s, a, z)
    ensures a.t < |s.th| == |z.th| && z.th == s.th[a.t := z.th[a.t]]
    ensures Pending(s.th[a.t].ph) && !a.CountSync? ==> Pending(z.th[a.t].ph) && z.th[a.t].ver == s.th[a.t].ver
    ensures z.g == s.g + (if a.Sync? then 1 else 0) && (a.Sync? ==> z.th[a.t].ver == z.g && Pending(z.th[a.t].ph))
    ensures z.done == s.done + (if a.CountSync? then {s.th[a.t].ver} else {})
  {
  }

  lemma StepCounted(s: State, a: Action, z: State)
    requires Counted(s) && Next(s, a, z)
    ensures Counted(z)
  {
    WriterEffect(s, a, z);
    hide Next;
    forall v | 1 <= v <= z.g ensures Accounted(z.th, z.done, v) {
      if v <= s.g {
        assert Accounted(s.th, s.done, v);
        if v !in s.done {
          var t :| 0 <= t < |s.th| && Pending(s.th[t].ph) && s.th[t].ver == v;
          assert t != a.t ==> z.th[t] == s.th[t];
        }
      }
    }
  }

  /** Along every run the commit counter lags behind the versions given out by the number
      of writers under way: when there is none, the two counters are equal. */
  lemma {:induction false} RunCounted(ss: seq<State>, acts: seq<Action>, n: nat)
    requires Run(ss, acts) && n < |ss|
    ensures Counted(ss[n])
    ensures (forall t :: 0 <= t < |ss[n].th| ==> !Pending(ss[n].th[t].ph)) ==> ss[n].commit == ss[n].g
  {
    hide Next;
    if n > 0 {
      RunCounted(ss, acts, n - 1);
      assert StepAt(ss, acts, n - 1);
      StepCounted(ss[n - 1], acts[n - 1], ss[n]);
    }
    if forall t :: 0 <= t < |ss[n].th| ==> !Pending(ss[n].th[t].ph) {
      RunInv(ss, acts, n);
      AllCounted(ss[n]);
    }
  }

  lemma AllCounted(s: State)
    requires Versions(s) && Counted(s) && forall t :: 0 <= t < |s.th| ==> !Pending(s.th[t].ph)
    ensures s.commit == s.g
  {
    forall v | 1 <= v <= s.g ensures v in s.done { assert Accounted(s.th, s.done, v); }
    RangeExact(s.done, s.g);
  }

  lemma {:induction false} RangeExact(d: set<nat>, l: nat)
    requires forall v :: v in d <==> 1 <= v <= l
    ensures |d| == l
  {
    if l > 0 {
      RangeExact(d - {l}, l - 1);
    } else {
      assert d == {};
    }
  }

  /** A section that begins when no writer is under way, and nobody has synchronized since
      it read its version, skips the lock checks unless it has copies of its own. */
  lemma BeginSkips(ss: seq<State>, acts: seq<Action>, n: nat, t: nat)
    requires Run(ss, acts) && n < |ss| && CanBegin(ss[n], t) && ss[n].th[t].lv == ss[n].g
    requires forall u :: 0 <= u < |ss[n].th| ==> !Pending(ss[n].th[u].ph)
    ensures var x := DoBegin(ss[n], t).th[t]; x.ph == In && !x.steal && (x.check <==> x.tail != x.wb)
  {
    RunCounted(ss, acts, n);
  }

  // ---------------------------------------------------------------- what a section gets

  predicate Answer(z: State, t: nat, o: nat, r: Ref) {
    t < |z.th| && o < |z.obj| && r.o == o && Contents(z, r) == r.val == View(z.th, z.obj[o], t, z.th[t].lv)
  }

  /** RLU_DEREF answers with the section's view of the object: a pointer to it, or, if the
      section has locked the object in its current write set, its own copy, which is its
      view then. */
  lemma DerefAnswers(s: State, a: Action, z: State, t: nat, o: nat) returns (r: Ref)
    requires Inv(s) && Next(s, a, z) && t < |s.th| && t < |z.th| && z.th[t].look == NoLook
    requires a == Deref(t, o) || (a == Resolve(t) && s.th[t].look.LookAt? && s.th[t].look.o == o)
    ensures o < |z.obj| && z == s.(th := s.th[t := s.th[t].(look := NoLook, refs := z.th[t].refs)])
    ensures if OwnCurrent(z.th, z.obj[o], t)
            then z.th[t].refs == s.th[t].refs && View(z.th, z.obj[o], t, z.th[t].lv) == CopyVal(z.th, z.obj[o].lock.value)
            else z.th[t].refs == s.th[t].refs + {r} && Answer(z, t, o, r)
  {
    hide Inv;
    if a == Deref(t, o) {
      r := DerefGets(s, t, o);
    } else {
      r := ResolveGets(s, t);
    }
  }

  lemma DerefGets(s: State, t: nat, o: nat) returns (r: Ref)
    requires Inv(s) && CanDeref(s, t, o) && DoDeref(s, t, o).th[t].look == NoLook
    ensures var z := DoDeref(s, t, o);
            !OwnCurrent(z.th, z.obj[o], t) && z.th[t].refs == s.th[t].refs + {r} && Answer(z, t, o, r)
  {
    hide Versions, Quiet, Copied, Readers, Locks;
    r := Ref(o, Org, s.obj[o].val);
    if !s.th[t].check {
      NothingToSteal(s, t, o);
      NothingOwned(s, t, o);
    }
    var z := DoDeref(s, t, o);
    assert z.obj == s.obj && forall u :: 0 <= u < |s.th| ==> z.th[u].wv == s.th[u].wv;
  }

  lemma ResolveGets(s: State, t: nat) returns (r: Ref)
    requires Inv(s) && CanResolve(s, t)
    ensures var z, o := DoResolve(s, t), s.th[t].look.o;
            if OwnCurrent(z.th, z.obj[o], t)
            then z.th[t].refs == s.th[t].refs
            else z.th[t].refs == s.th[t].refs + {r} && Answer(z, t, o, r)
  {
    var x, o, c, z := s.th[t], s.th[t].look.o, s.th[t].look.c, DoResolve(s, t);
    r := if c.t == t || (x.steal && Reached(s.th, c.t, x.lv)) then Ref(o, At(c), CopyVal(s.th, c)) else Ref(o, Org, s.obj[o].val);
    assert ThreadOk(x, |s.th|, s.max, s.g) && ReaderOk(s, t) && LookOk(s, t);
    if !(c.t == t && c.p == x.tail) {
      assert Inv(z) by { ResolveInv(s, t); }
      assert r in z.th[t].refs && ReaderOk(z, t) && RefOk(z, t, r);
      hide Inv;
    }
  }

  /** Locking an object gives the section a copy with the value it saw before, and changes
      nobody's view of anything. */
  lemma LockKeepsViews(s: State, t: nat, o: nat, u: nat, p: nat)
    requires Inv(s) && CanLock(s, t, o) && u < |s.th| && p < |s.obj|
    requires u == t || Running(s.th[u].ph)
    ensures var z := DoLock(s, t, o);
            && OwnCurrent(z.th, z.obj[o], t) && CopyVal(z.th, z.obj[o].lock.value) == s.obj[o].val
            && View(z.th, z.obj[p], u, z.th[u].lv) == View(s.th, s.obj[p], u, s.th[u].lv)
  {
    var z := DoLock(s, t, o);
    assert SectionNext(s, Lock(t, o), z);
    if u != t {
      ViewStable(s, Lock(t, o), z, u, p);
    } else {
      hide Versions, Quiet, Readers, Copied;
      assert ThreadOk(s.th[t], |s.th|, s.max, s.g) && LockOk(s.th, s.obj[p], p);
    }
  }

  /** What a section writes to its copy is what it sees of the object from then on, and
      its view of every other object stays. */
  lemma WriteIsSeen(s: State, t: nat, k: nat, val: int, p: nat)
    requires Inv(s) && CanWrite(s, t, k) && p < |s.obj|
    ensures var z, o := DoWrite(s, t, k, val), s.th[t].sets[s.th[t].tail][k].o;
            && o < |z.obj| && OwnCurrent(z.th, z.obj[o], t)
            && View(z.th, z.obj[o], t, z.th[t].lv) == val
            && (p != o ==> View(z.th, z.obj[p], t, z.th[t].lv) == View(s.th, s.obj[p], t, s.th[t].lv))
  {
    hide Versions, Quiet, Readers, Copied;
    var x := s.th[t];
    assert ThreadOk(x, |s.th|, s.max, s.g) && Held(s.obj, x, t, x.tail, k) && LockOk(s.th, s.obj[p], p);
  }

  /** A section that has written leaves its write set behind for later sections: nothing in
      it changes, its locks stay, and it has to be written back at once exactly when max
      write sets wait. */
  lemma LeaveKeepsSet(s: State, t: nat, k: nat)
    requires Inv(s) && CanLeave(s, t) && s.th[t].wrote && k < |s.th[t].sets[s.th[t].tail]|
    ensures var z, p := DoLeave(s, t), s.th[t].tail; var x := z.th[t];
            && x.tail == p + 1 && x.refs == {} && x.sets[..p + 1] == s.th[t].sets && x.sets[x.tail] == []
            && x.sets[p][k].o < |z.obj| && z.obj[x.sets[p][k].o].lock == Some(CopyPtr(t, p, k))
            && (x.ph == Full <==> x.tail - x.wb == s.max) && (x.ph == Full || x.ph == Out)
  {
    hide Versions, Quiet, Readers, Copied;
    var x := s.th[t];
    assert ThreadOk(x, |s.th|, s.max, s.g) && Held(s.obj, x, t, x.tail, k);
    LeaveFull(x, s.max);
  }

  lemma LeaveFull(x: Thread, max: nat)
    requires x.head <= x.wb <= x.tail && x.wb - x.head <= max && x.tail - x.wb < max && 2 * max <= MAX_WRITE_SETS
    ensures (x.tail + 1) % MAX_WRITE_SETS == x.head % MAX_WRITE_SETS ==> x.tail + 1 - x.wb == max
  {
    if x.tail + 1 < x.head + MAX_WRITE_SETS { ModApart(x.head, x.tail + 1); }
  }

  /** Written back and released: the object holds what the section wrote, and is free. */
  lemma ReleaseAnswers(s: State, t: nat)
    requires Inv(s) && CanRelease(s, t)
    ensures var z, it := DoRelease(s, t), ItemAt(s, t); z.obj[it.o] == Obj(it.val, None)
  {
    assert CopiedOk(s.obj, s.th[t]);
  }

  /** A section that has aborted or left holds no copy of its current write set, and an
      abort leaves every object's value and every finished write set alone. */
  lemma AbortedAnswers(s: State, t: nat)
    requires Inv(s) && CanAborted(s, t)
    ensures var z := DoAborted(s, t);
            && z.th[t].ph == Out && z.obj == s.obj && z.th[t].tail == s.th[t].tail
            && z.th[t].sets[..z.th[t].tail] == s.th[t].sets[..s.th[t].tail]
            && forall o :: 0 <= o < |z.obj| ==> !OwnCurrent(z.th, z.obj[o], t)
  {
    hide Versions, Quiet, Readers, Copied;
    assert ThreadOk(s.th[t], |s.th|, s.max, s.g);
    forall o | 0 <= o < |s.obj| ensures !OwnCurrent(DoAborted(s, t).th, s.obj[o], t) { assert LockOk(s.th, s.obj[o], o); }
  }

  // ---------------------------------------------------------------- nobody gets stuck

  /** The thread has a next step, whatever phase it is in. */
  predicate CanStep(s: State, t: nat)
    requires t < |s.th|
  {
    match s.th[t].ph
    case Out => CanEnter(s, t) && (s.th[t].tail != s.th[t].head ==> CanSync(s, t))
    case Registered => CanVersion(s, t)
    case Versioned => CanBegin(s, t)
    case In => if s.th[t].look.LookAt? then CanResolve(s, t)
               else CanLeave(s, t) && CanAbort(s, t)
                    && (forall o :: 0 <= o < |s.obj| ==> CanDeref(s, t, o) && (s.obj[o].lock.None? ==> CanLock(s, t, o)))
                    && s.th[t].tail < |s.th[t].sets| && forall k :: 0 <= k < |s.th[t].sets[s.th[t].tail]| ==> CanWrite(s, t, k)
    case Aborting(_) => CanUnlock(s, t) || CanAborted(s, t)
    case Full => CanSync(s, t)
    case Capture(_) => CanCapture(s, t)
    case Wait => CanReset(s, t) || exists n: nat :: n < |s.th| && CanPass(s, t, n)
    case Writeback(_, _, _) => CanCopyBack(s, t) || CanRelease(s, t) || CanNextSet(s, t) || CanWritten(s, t)
    case Finish => CanFinish(s, t)
    case Count => CanCount(s, t)
  }

  /** A section that was running when the writer began to wait, and began before it. */
  predicate HeldUpBy(s: State, t: nat, n: nat) {
    && t < |s.th| && n < |s.th| && n < |s.th[t].need| && n < |s.th[t].cap|
    && s.th[t].need[n] && s.th[n].run == s.th[t].cap[n] && s.th[n].run % 2 == 1 && s.th[n].lv < s.th[t].ver
  }

  /** A thread is waited for only if it was in a section when its counter was recorded. */
  predicate AskedOk(x: Thread, n: nat) {
    n < |x.need| && n < |x.cap| && x.need[n] && (x.ph == Wait || (x.ph.Capture? && n < x.ph.n)) ==> x.cap[n] % 2 == 1
  }

  predicate Asked(s: State) {
    forall t, n :: 0 <= t < |s.th| && 0 <= n < |s.th| ==> AskedOk(s.th[t], n)
  }

  /** What may change while a thread waits, and which steps let it begin to. */
  predicate WaitsOn(s: State, a: Action, z: State)
    requires a.t < |s.th| == |z.th|
  {
    && (z.th[a.t].ph == Wait || z.th[a.t].ph.Capture? ==> a.Sync? || a.CaptureRun? || a.Pass?)
    && (a.Sync? ==> z.th[a.t].ph == Capture(0))
    && (a.CaptureRun? ==> CanCapture(s, a.t) && z == DoCapture(s, a.t))
    && (a.Pass? ==> CanPass(s, a.t, a.n) && z == DoPass(s, a.t, a.n))
  }

  lemma WaitEffect(s: State, a: Action, z: State)
    requires Next(s, a, z) && a.t < |s.th|
    ensures z.th == s.th[a.t := z.th[a.t]] && WaitsOn(s, a, z)
  {
    hide SectionNext, SyncNext;
    if SectionNext(s, a, z) {
      SectionWriter(s, a, z);
      SectionNoWait(s, a, z);
    } else {
      SyncWriter(s, a, z);
      SyncWaits(s, a, z);
    }
  }

  lemma SectionNoWait(s: State, a: Action, z: State)
    requires SectionNext(s, a, z) && a.t < |s.th| == |z.th|
    ensures !Pending(z.th[a.t].ph) && !a.Sync? && !a.CaptureRun? && !a.Pass?
  {
  }

  lemma SyncWaits(s: State, a: Action, z: State)
    requires SyncNext(s, a, z) && a.t < |s.th| == |z.th|
    ensures WaitsOn(s, a, z)
  {
  }

  lemma StepAsked(s: State, a: Action, z: State)
    requires Asked(s) && Next(s, a, z) && a.t < |s.th|
    ensures Asked(z)
  {
    WaitEffect(s, a, z);
    hide Next;
    forall t, n | 0 <= t < |z.th| && 0 <= n < |z.th| ensures AskedOk(z.th[t], n) {
      assert AskedOk(s.th[t], n);
    }
  }

  /** Along every run each thread can go on, or waits at the end of a section of its own
      for sections of others that began before its commit. */
  lemma {:induction false} NobodyStuck(ss: seq<State>, acts: seq<Action>, n: nat, t: nat)
    requires Run(ss, acts) && n < |ss| && t < |ss[n].th|
    ensures CanStep(ss[n], t) || (ss[n].th[t].ph == Wait && exists u :: 0 <= u < |ss[n].th| && HeldUpBy(ss[n], t, u))
  {
    RunInv(ss, acts, n);
    RunAsked(ss, acts, n);
    var s := ss[n];
    hide Run;
    StepsOn(s, t);
  }

  lemma {:induction false} RunAsked(ss: seq<State>, acts: seq<Action>, n: nat)
    requires Run(ss, acts) && n < |ss|
    ensures Asked(ss[n])
  {
    hide Next;
    if n > 0 {
      RunAsked(ss, acts, n - 1);
      assert StepAt(ss, acts, n - 1);
      WriterEffect(ss[n - 1], acts[n - 1], ss[n]);
      StepAsked(ss[n - 1], acts[n - 1], ss[n]);
    }
  }

  lemma StepsOn(s: State, t: nat)
    requires Inv(s) && Asked(s) && t < |s.th|
    ensures CanStep(s, t) || (s.th[t].ph == Wait && exists u :: 0 <= u < |s.th| && HeldUpBy(s, t, u))
  {
    hide Versions, Copied, Quiet;
    var x := s.th[t];
    assert ThreadOk(x, |s.th|, s.max, s.g) && ReaderOk(s, t);
    match x.ph {
      case Aborting(k) => assert Held(s.obj, x, t, x.tail, k);
      case Writeback(p, k, copied) => assert Held(s.obj, x, t, p, k);
      case Wait =>
        if !CanReset(s, t) {
          var n: nat :| n < |x.need| && x.need[n];
          assert AskedOk(x, n);
          if !CanPass(s, t, n) { assert HeldUpBy(s, t, n); }
        }
      case _ =>
    }
  }
}
