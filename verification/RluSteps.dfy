/** Every action of RLU keeps its invariant. */
module RluSteps {
  import opened Options
  import opened Rlu
  import opened RluInvariant

  // ---------------------------------------------------------------- steps that keep every log

  /** Thread t's write sets and its version are the same for everybody else. */
  predicate SameLog(x: Thread, y: Thread) {
    && y.sets == x.sets && y.head == x.head && y.wb == x.wb && y.tail == x.tail
    && y.wv == x.wv && y.ver == x.ver
    && (y.ph.Capture? || y.ph == Wait ==> x.ph.Capture? || x.ph == Wait)
    && (Syncing(y.ph) ==> Syncing(x.ph)) && (Pending(y.ph) ==> Pending(x.ph))
  }

  /** No item of the thread is released by the step. */
  predicate SameLocks(x: Thread, y: Thread) {
    SameLog(x, y) && !x.ph.Writeback? && !x.ph.Aborting? && !y.ph.Writeback? && !y.ph.Aborting?
  }

  lemma RefFrame(s: State, z: State, u: nat, r: Ref)
    requires u < |s.th| && RefOk(s, u, r) && z.obj == s.obj && |z.th| == |s.th|
    requires z.th[u].lv == s.th[u].lv && z.th[u].tail == s.th[u].tail
    requires forall v :: 0 <= v < |s.th| ==> z.th[v] == s.th[v] || SameLog(s.th[v], z.th[v])
    ensures RefOk(z, u, r)
  {
    if r.loc.At? {
      var c := r.loc.c;
      assert z.th[c.t] == s.th[c.t] || SameLog(s.th[c.t], z.th[c.t]);
    }
    if s.obj[r.o].lock.Some? && s.obj[r.o].lock.value.t < |s.th| {
      var w := s.obj[r.o].lock.value.t;
      assert z.th[w] == s.th[w] || SameLog(s.th[w], z.th[w]);
    }
  }

  lemma ReaderFrame(s: State, z: State, u: nat)
    requires u < |s.th| && ReaderOk(s, u) && z.obj == s.obj && |z.th| == |s.th| && z.th[u] == s.th[u]
    requires forall v :: 0 <= v < |s.th| ==> z.th[v] == s.th[v] || SameLog(s.th[v], z.th[v])
    ensures ReaderOk(z, u)
  {
    var x := s.th[u];
    if x.ph == In {
      forall r | r in x.refs ensures RefOk(z, u, r) {
        RefFrame(s, z, u, r);
      }
      if x.look.LookAt? {
        LookFrame(s, z, u);
      }
    }
  }

  lemma LookFrame(s: State, z: State, u: nat)
    requires u < |s.th| && LookOk(s, u) && z.obj == s.obj && |z.th| == |s.th|
    requires z.th[u].lv == s.th[u].lv && z.th[u].look == s.th[u].look && z.th[u].tail == s.th[u].tail
    requires forall v :: 0 <= v < |s.th| ==> z.th[v] == s.th[v] || SameLog(s.th[v], z.th[v])
    ensures LookOk(z, u)
  {
    var x := s.th[u];
    if x.look.LookAt? {
      var o, c := x.look.o, x.look.c;
      if c.t < |s.th| { assert z.th[c.t] == s.th[c.t] || SameLog(s.th[c.t], z.th[c.t]); }
      if s.obj[o].lock.Some? && s.obj[o].lock.value.t < |s.th| {
        var w := s.obj[o].lock.value.t;
        assert z.th[w] == s.th[w] || SameLog(s.th[w], z.th[w]);
      }
      if c.t != u && Reached(s.th, c.t, x.lv) {
        RefFrame(s, z, u, Ref(o, At(c), CopyVal(s.th, c)));
      }
    }
  }

  lemma LocksFrame(th: seq<Thread>, obj: seq<Obj>, t: nat, y: Thread)
    requires Locks(th, obj) && t < |th| && SameLocks(th[t], y)
    ensures Locks(th[t := y], obj)
  {
    var zt := th[t := y];
    forall o | 0 <= o < |obj| ensures LockOk(zt, obj[o], o) {
      assert LockOk(th, obj[o], o);
    }
    forall u: nat, p: nat, k: nat | u < |zt| ensures Held(obj, zt[u], u, p, k) {
      assert Held(obj, th[u], u, p, k);
    }
  }

  /** Other writers keep waiting for the right sections. */
  lemma QuietStep(s: State, t: nat, y: Thread)
    requires Threads(s) && Quiet(s.th) && t < |s.th|
    requires Running(y.ph) ==> (Running(s.th[t].ph) && y.lv == s.th[t].lv && y.run == s.th[t].run) || y.lv == s.g
    requires WriterQuiet(s.th[t := y], t)
    ensures Quiet(s.th[t := y])
  {
    var zt := s.th[t := y];
    forall u | 0 <= u < |zt| && u != t ensures WriterQuiet(zt, u) {
      assert WriterQuiet(s.th, u) && ThreadOk(s.th[u], |s.th|, s.max, s.g);
      forall n | 0 <= n < |zt| ensures QuietOk(zt, u, n) {
        assert QuietOk(s.th, u, n);
      }
    }
  }

  /** A step that changes only thread t, and nothing others see of its log. */
  lemma LogStep(s: State, t: nat, y: Thread)
    requires Inv(s) && t < |s.th| && SameLog(s.th[t], y) && ThreadOk(y, |s.th|, s.max, s.g)
    requires Running(y.ph) ==> (Running(s.th[t].ph) && y.lv == s.th[t].lv && y.run == s.th[t].run) || y.lv == s.g
    requires WriterQuiet(s.th[t := y], t) && Locks(s.th[t := y], s.obj) && CopiedOk(s.obj, y)
    requires ReaderOk(s.(th := s.th[t := y]), t)
    ensures Inv(s.(th := s.th[t := y]))
  {
    var z := s.(th := s.th[t := y]);
    forall u | 0 <= u < |z.th| ensures CopiedOk(z.obj, z.th[u]) && ReaderOk(z, u) {
      assert CopiedOk(s.obj, s.th[u]) && ReaderOk(s, u);
      if u != t { ReaderFrame(s, z, u); }
    }
    QuietStep(s, t, y);
  }

  lemma LocalStep(s: State, t: nat, y: Thread)
    requires Inv(s) && t < |s.th| && SameLocks(s.th[t], y) && ThreadOk(y, |s.th|, s.max, s.g)
    requires Running(y.ph) ==> (Running(s.th[t].ph) && y.lv == s.th[t].lv && y.run == s.th[t].run) || y.lv == s.g
    requires WriterQuiet(s.th[t := y], t)
    requires ReaderOk(s.(th := s.th[t := y]), t)
    ensures Inv(s.(th := s.th[t := y]))
  {
    LocksFrame(s.th, s.obj, t, y);
    LogStep(s, t, y);
  }

  lemma EnterInv(s: State, t: nat)
    requires Inv(s) && CanEnter(s, t)
    ensures Inv(DoEnter(s, t))
  {
    assert ThreadOk(s.th[t], |s.th|, s.max, s.g);
    LocalStep(s, t, DoEnter(s, t).th[t]);
  }

  lemma VersionInv(s: State, t: nat)
    requires Inv(s) && CanVersion(s, t)
    ensures Inv(DoVersion(s, t))
  {
    assert ThreadOk(s.th[t], |s.th|, s.max, s.g);
    LocalStep(s, t, DoVersion(s, t).th[t]);
  }

  /** A set of numbers from 1 to l with l elements contains all of them. */
  lemma {:induction false} FullRange(d: set<nat>, l: nat, v: nat)
    requires (forall w :: w in d ==> 1 <= w <= l) && |d| == l && 1 <= v <= l
    ensures v in d
  {
    if l in d {
      if v < l { FullRange(d - {l}, l - 1, v); }
    } else {
      RangeSize(d, l - 1);
    }
  }

  lemma {:induction false} RangeSize(d: set<nat>, l: nat)
    requires forall w :: w in d ==> 1 <= w <= l
    ensures |d| <= l
  {
    if l == 0 {
      assert d == {};
    } else {
      RangeSize(d - {l}, l - 1);
    }
  }

  /** Equal counters mean that everything begun before the section is finished. */
  lemma EqualIsClean(s: State, t: nat)
    requires Inv(s) && t < |s.th| && s.th[t].ph == Versioned && s.th[t].lv == s.commit
    ensures Clean(s.th, s.th[t].lv)
  {
    forall u | 0 <= u < |s.th| && Syncing(s.th[u].ph) ensures s.th[u].ver > s.th[t].lv {
      assert ThreadOk(s.th[u], |s.th|, s.max, s.g);
      if s.th[u].ver <= s.th[t].lv {
        FullRange(s.done, s.th[t].lv, s.th[u].ver);
      }
    }
  }

  lemma BeginInv(s: State, t: nat)
    requires Inv(s) && CanBegin(s, t)
    ensures Inv(DoBegin(s, t))
  {
    assert ThreadOk(s.th[t], |s.th|, s.max, s.g);
    if s.th[t].lv == s.commit { EqualIsClean(s, t); }
    LocalStep(s, t, DoBegin(s, t).th[t]);
  }

  // ---------------------------------------------------------------- dereferencing

  /** A section that does not check locks, or does not steal, has nothing to steal. */
  lemma NothingToSteal(s: State, t: nat, o: nat)
    requires Inv(s) && t < |s.th| && o < |s.obj| && s.th[t].ph == In && (!s.th[t].steal || !s.th[t].check)
    ensures !Stolen(s.th, s.obj[o], t, s.th[t].lv)
  {
    assert ReaderOk(s, t);
    if s.obj[o].lock.Some? && s.obj[o].lock.value.t < |s.th| {
      assert ThreadOk(s.th[s.obj[o].lock.value.t], |s.th|, s.max, s.g);
    }
  }

  /** A section that does not check locks holds none. */
  lemma NothingOwned(s: State, t: nat, o: nat)
    requires Inv(s) && t < |s.th| && o < |s.obj| && s.th[t].ph == In && !s.th[t].check
    ensures s.obj[o].lock.Some? ==> s.obj[o].lock.value.t != t
  {
    assert ThreadOk(s.th[t], |s.th|, s.max, s.g) && LockOk(s.th, s.obj[o], o);
  }

  /** A section takes a look, or one more pointer. */
  lemma ReadStep(s: State, t: nat, look: Look, refs: set<Ref>)
    requires Inv(s) && t < |s.th| && s.th[t].ph == In
    requires forall r :: r in refs ==> RefOk(s, t, r)
    requires LookOk(s.(th := s.th[t := s.th[t].(look := look, refs := refs)]), t)
    ensures Inv(s.(th := s.th[t := s.th[t].(look := look, refs := refs)]))
  {
    hide Locks, Copied, Versions;
    var y := s.th[t].(look := look, refs := refs);
    var z := s.(th := s.th[t := y]);
    assert ThreadOk(s.th[t], |s.th|, s.max, s.g) && ReaderOk(s, t);
    assert WriterQuiet(z.th, t);
    forall r | r in refs ensures RefOk(z, t, r) {
      RefFrame(s, z, t, r);
    }
    LocalStep(s, t, y);
  }

  lemma DerefInv(s: State, t: nat, o: nat)
    requires Inv(s) && CanDeref(s, t, o)
    ensures Inv(DoDeref(s, t, o))
  {
    hide Versions, Quiet, Copied;
    var x := s.th[t];
    assert ReaderOk(s, t) && LockOk(s.th, s.obj[o], o);
    if !x.check || s.obj[o].lock.None? {
      if !x.check { NothingToSteal(s, t, o); NothingOwned(s, t, o); }
      assert RefOk(s, t, Ref(o, Org, s.obj[o].val));
      ReadStep(s, t, x.look, x.refs + {Ref(o, Org, s.obj[o].val)});
    } else {
      LookedAt(s, t, o);
      ReadStep(s, t, LookAt(o, s.obj[o].lock.value), x.refs);
    }
  }

  /** The copy a lock names when the slow path reads it. */
  lemma LookedAt(s: State, t: nat, o: nat)
    requires Inv(s) && CanDeref(s, t, o) && s.th[t].check && s.obj[o].lock.Some?
    ensures LookOk(DoDeref(s, t, o), t)
  {
    var c := s.obj[o].lock.value;
    assert LockOk(s.th, s.obj[o], o) && ThreadOk(s.th[c.t], |s.th|, s.max, s.g);
  }

  lemma ResolveInv(s: State, t: nat)
    requires Inv(s) && CanResolve(s, t)
    ensures Inv(DoResolve(s, t))
  {
    hide Threads, Locks, Versions, Quiet, Copied;
    var z := DoResolve(s, t);
    assert ReaderOk(s, t);
    forall r | r in z.th[t].refs ensures RefOk(s, t, r) {
      if r !in s.th[t].refs { Resolved(s, t, r); }
    }
    ReadStep(s, t, NoLook, z.th[t].refs);
  }

  lemma Resolved(s: State, t: nat, r: Ref)
    requires Inv(s) && CanResolve(s, t) && r in DoResolve(s, t).th[t].refs && r !in s.th[t].refs
    ensures RefOk(s, t, r)
  {
    var x, o, c := s.th[t], s.th[t].look.o, s.th[t].look.c;
    assert ThreadOk(x, |s.th|, s.max, s.g) && ReaderOk(s, t) && LockOk(s.th, s.obj[o], o);
    if c.t != t && !x.steal { NothingToSteal(s, t, o); }
  }

  // ---------------------------------------------------------------- leaving a section

  lemma LeaveReadOnlyInv(s: State, t: nat)
    requires Inv(s) && CanLeave(s, t) && !s.th[t].wrote
    ensures Inv(DoLeave(s, t))
  {
    assert ThreadOk(s.th[t], |s.th|, s.max, s.g);
    LocalStep(s, t, DoLeave(s, t).th[t]);
  }

  lemma AbortReadOnlyInv(s: State, t: nat)
    requires Inv(s) && CanAbort(s, t) && !s.th[t].wrote
    ensures Inv(DoAbort(s, t))
  {
    assert ThreadOk(s.th[t], |s.th|, s.max, s.g);
    LocalStep(s, t, DoAbort(s, t).th[t]);
  }

  lemma AbortWrittenInv(s: State, t: nat)
    requires Inv(s) && CanAbort(s, t) && s.th[t].wrote
    ensures Inv(DoAbort(s, t))
  {
    var z := DoAbort(s, t);
    assert ThreadOk(s.th[t], |s.th|, s.max, s.g);
    forall o | 0 <= o < |s.obj| ensures LockOk(z.th, s.obj[o], o) {
      assert LockOk(s.th, s.obj[o], o);
    }
    forall u: nat, p: nat, k: nat | u < |z.th| ensures Held(s.obj, z.th[u], u, p, k) {
      assert Held(s.obj, s.th[u], u, p, k);
    }
    LogStep(s, t, z.th[t]);
  }

  // ---------------------------------------------------------------- waiting

  lemma CaptureInv(s: State, t: nat)
    requires Inv(s) && CanCapture(s, t)
    ensures Inv(DoCapture(s, t))
  {
    var z := DoCapture(s, t);
    var n0 := s.th[t].ph.n;
    assert ThreadOk(s.th[t], |s.th|, s.max, s.g) && ThreadOk(s.th[n0], |s.th|, s.max, s.g) && WriterQuiet(s.th, t);
    forall n | 0 <= n < |z.th| ensures QuietOk(z.th, t, n) {
      assert QuietOk(s.th, t, n);
    }
    LocalStep(s, t, z.th[t]);
  }

  lemma PassInv(s: State, t: nat, n: nat)
    requires Inv(s) && CanPass(s, t, n)
    ensures Inv(DoPass(s, t, n))
  {
    var z := DoPass(s, t, n);
    assert ThreadOk(s.th[t], |s.th|, s.max, s.g) && WriterQuiet(s.th, t);
    forall m | 0 <= m < |z.th| ensures QuietOk(z.th, t, m) {
      assert QuietOk(s.th, t, m);
    }
    LocalStep(s, t, z.th[t]);
  }

  lemma NextSetInv(s: State, t: nat)
    requires Inv(s) && CanNextSet(s, t)
    ensures Inv(DoNextSet(s, t))
  {
    var z := DoNextSet(s, t);
    assert ThreadOk(s.th[t], |s.th|, s.max, s.g) && WriterQuiet(s.th, t);
    forall n | 0 <= n < |z.th| ensures QuietOk(z.th, t, n) {
      assert QuietOk(s.th, t, n);
    }
    forall o | 0 <= o < |s.obj| ensures LockOk(z.th, s.obj[o], o) {
      assert LockOk(s.th, s.obj[o], o);
    }
    forall u: nat, p: nat, k: nat | u < |z.th| ensures Held(s.obj, z.th[u], u, p, k) {
      assert Held(s.obj, s.th[u], u, p, k);
    }
    LogStep(s, t, z.th[t]);
  }

  // ---------------------------------------------------------------- locking and writing

  /** The object is unchanged, or free before and locked by write set p of thread t. */
  predicate FreshLock(ob: Obj, zb: Obj, t: nat, p: nat) {
    zb == ob || (ob.lock.None? && zb.lock.Some? && zb == ob.(lock := zb.lock) && zb.lock.value.t == t && zb.lock.value.p == p)
  }

  /** A section changes its own current write set, or locks free objects with it. */
  predicate OwnSet(s: State, z: State, t: nat) {
    && t < |s.th| == |z.th| && |z.obj| == |s.obj| && z == s.(th := z.th, obj := z.obj)
    && z.th == s.th[t := z.th[t]] && s.th[t].ph == In && s.th[t].wv.None?
    && z.th[t] == s.th[t].(wrote := z.th[t].wrote, check := z.th[t].check, sets := z.th[t].sets)
    && (s.th[t].check ==> z.th[t].check) && (z.obj == s.obj || s.th[t].look == NoLook)
    && s.th[t].tail < |s.th[t].sets| == |z.th[t].sets|
    && (forall p :: 0 <= p < |s.th[t].sets| && p != s.th[t].tail ==> z.th[t].sets[p] == s.th[t].sets[p])
    && (forall o :: 0 <= o < |s.obj| ==> FreshLock(s.obj[o], z.obj[o], t, s.th[t].tail))
  }

  /** A step of a section on its own current write set: nobody else can see it. */
  lemma OwnSetStep(s: State, z: State, t: nat)
    requires Inv(s) && OwnSet(s, z, t)
    requires ThreadOk(z.th[t], |s.th|, s.max, s.g) && Locks(z.th, z.obj)
    requires forall u :: 0 <= u < |z.th| ==> ReaderOk(z, u)
    ensures Inv(z)
  {
    forall u | 0 <= u < |z.th| ensures CopiedOk(z.obj, z.th[u]) {
      assert CopiedOk(s.obj, s.th[u]);
    }
    assert WriterQuiet(z.th, t);
    QuietStep(s, t, z.th[t]);
  }

  lemma LockLocks(s: State, t: nat, o: nat)
    requires Threads(s) && Locks(s.th, s.obj) && CanLock(s, t, o)
    ensures Locks(DoLock(s, t, o).th, DoLock(s, t, o).obj)
  {
    var z := DoLock(s, t, o);
    assert ThreadOk(s.th[t], |s.th|, s.max, s.g);
    forall p | 0 <= p < |s.obj| ensures LockOk(z.th, z.obj[p], p) {
      assert LockOk(s.th, s.obj[p], p);
    }
    forall u: nat, p: nat, k: nat | u < |z.th| ensures Held(z.obj, z.th[u], u, p, k) {
      assert Held(s.obj, s.th[u], u, p, k);
    }
  }

  /** A reference keeps its meaning when thread t's current write set grows or
      changes, and when t locks a free object. */
  lemma RefOwnSet(s: State, z: State, t: nat, u: nat, r: Ref)
    requires OwnSet(s, z, t) && u < |s.th| && RefOk(s, u, r)
    ensures RefOk(z, u, r)
  {
    assert FreshLock(s.obj[r.o], z.obj[r.o], t, s.th[t].tail);
  }

  lemma LockInv(s: State, t: nat, o: nat)
    requires Inv(s) && CanLock(s, t, o)
    ensures Inv(DoLock(s, t, o))
  {
    var z := DoLock(s, t, o);
    assert ThreadOk(s.th[t], |s.th|, s.max, s.g);
    LockLocks(s, t, o);
    forall u | 0 <= u < |z.th| ensures ReaderOk(z, u) {
      OwnSetReader(s, z, t, u);
    }
    OwnSetStep(s, z, t);
  }

  lemma OwnSetLook(s: State, z: State, t: nat, u: nat)
    requires OwnSet(s, z, t) && u < |s.th| && LookOk(s, u)
    ensures LookOk(z, u)
  {
    var x := s.th[u];
    if x.look.LookAt? {
      var o, c := x.look.o, x.look.c;
      assert FreshLock(s.obj[o], z.obj[o], t, s.th[t].tail);
      if c.t != u && Reached(s.th, c.t, x.lv) {
        RefOwnSet(s, z, t, u, Ref(o, At(c), CopyVal(s.th, c)));
      }
    }
  }

  lemma OwnSetReader(s: State, z: State, t: nat, u: nat)
    requires Inv(s) && OwnSet(s, z, t) && u < |s.th|
    ensures ReaderOk(z, u)
  {
    hide RefOk, LookOk, Locks, Copied, Versions, Quiet, Threads;
    assert ReaderOk(s, u);
    var x := s.th[u];
    if x.ph == In {
      forall r | r in x.refs ensures RefOk(z, u, r) {
        RefOwnSet(s, z, t, u, r);
      }
      OwnSetLook(s, z, t, u);
    }
  }

  lemma WriteInv(s: State, t: nat, k: nat, val: int)
    requires Inv(s) && CanWrite(s, t, k)
    ensures Inv(DoWrite(s, t, k, val))
  {
    var z := DoWrite(s, t, k, val);
    assert ThreadOk(s.th[t], |s.th|, s.max, s.g);
    forall p | 0 <= p < |s.obj| ensures LockOk(z.th, z.obj[p], p) {
      assert LockOk(s.th, s.obj[p], p);
    }
    forall u: nat, p: nat, j: nat | u < |z.th| ensures Held(z.obj, z.th[u], u, p, j) {
      assert Held(s.obj, s.th[u], u, p, j);
    }
    forall u | 0 <= u < |z.th| ensures ReaderOk(z, u) {
      OwnSetReader(s, z, t, u);
    }
    OwnSetStep(s, z, t);
  }

  // ---------------------------------------------------------------- the end of a section that wrote

  /** A lock is left alone, or thread t gives up one of its own. */
  predicate LockStep(ob: Obj, zb: Obj, t: nat) {
    zb.lock == ob.lock || (zb.lock.None? && ob.lock.Some? && ob.lock.value.t == t)
  }

  /** A step of thread t that keeps its finished write sets, and reaches nobody new. */
  predicate Steady(s: State, z: State, t: nat) {
    && t < |s.th| == |z.th| && z.th == s.th[t := z.th[t]] && |z.obj| == |s.obj|
    && (forall o :: 0 <= o < |s.obj| ==> LockStep(s.obj[o], z.obj[o], t))
    && s.th[t].tail <= z.th[t].tail && s.th[t].tail <= |s.th[t].sets| && s.th[t].tail <= |z.th[t].sets|
    && (forall p :: 0 <= p < s.th[t].tail ==> z.th[t].sets[p] == s.th[t].sets[p])
    && (forall u :: 0 <= u < |s.th| && s.th[u].ph == In && Reached(z.th, t, s.th[u].lv) ==> Reached(s.th, t, s.th[u].lv))
    && (Syncing(z.th[t].ph) ==> forall u :: 0 <= u < |s.th| && s.th[u].ph == In ==>
          (Syncing(s.th[t].ph) && z.th[t].ver == s.th[t].ver) || z.th[t].ver > s.th[u].lv)
  }

  predicate RefsKept(s: State, z: State, t: nat, u: nat)
    requires |z.th| == |s.th| && u < |s.th|
  {
    forall r :: r in s.th[u].refs && RefOk(s, u, r) ==> RefOk(z, u, r)
  }

  predicate LookKept(s: State, z: State, u: nat)
    requires |z.th| == |s.th| && u < |s.th|
  {
    s.th[u].look.LookAt? ==>
      var r := Ref(s.th[u].look.o, At(s.th[u].look.c), CopyVal(s.th, s.th[u].look.c));
      RefOk(s, u, r) ==> RefOk(z, u, r)
  }

  lemma LookSteady(s: State, z: State, t: nat, u: nat)
    requires Steady(s, z, t) && u < |s.th| && u != t && s.th[u].ph == In && LookOk(s, u) && LookKept(s, z, u)
    ensures LookOk(z, u)
  {
    var x := s.th[u];
    if x.look.LookAt? {
      var o, c := x.look.o, x.look.c;
      assert LockStep(s.obj[o], z.obj[o], t);
    }
  }

  lemma ReaderSteady(s: State, z: State, t: nat, u: nat)
    requires Steady(s, z, t) && u < |s.th| && u != t && ReaderOk(s, u)
    requires s.th[u].ph == In ==> RefsKept(s, z, t, u) && LookKept(s, z, u)
    ensures ReaderOk(z, u)
  {
    hide RefOk, LookOk, LookKept;
    if s.th[u].ph == In {
      LookSteady(s, z, t, u);
    }
  }

  /** The frame of every step of a thread outside its sections. */
  lemma OutsideStep(s: State, z: State, t: nat)
    requires Inv(s) && t < |s.th| && |z.th| == |s.th| && z.th == s.th[t := z.th[t]] && z.g >= s.g && z.max == s.max
    requires z.th[t].ph != In && z.th[t].ph != Versioned
    requires ThreadOk(z.th[t], |s.th|, s.max, z.g) && Locks(z.th, z.obj) && Copied(z.th, z.obj) && Versions(z)
    requires WriterQuiet(z.th, t) && Steady(s, z, t)
    requires forall u :: 0 <= u < |s.th| && u != t && s.th[u].ph == In ==> RefsKept(s, z, t, u) && LookKept(s, z, u)
    ensures Inv(z)
  {
    hide Locks, Copied, Versions;
    QuietStep(s, t, z.th[t]);
    forall u | 0 <= u < |z.th| ensures ReaderOk(z, u) && ThreadOk(z.th[u], |z.th|, z.max, z.g) {
      assert ReaderOk(s, u) && ThreadOk(s.th[u], |s.th|, s.max, s.g);
      if u != t { ReaderSteady(s, z, t, u); }
    }
  }

  lemma LeaveWrittenInv(s: State, t: nat)
    requires Inv(s) && CanLeave(s, t) && s.th[t].wrote
    ensures Inv(DoLeave(s, t))
  {
    var z := DoLeave(s, t);
    assert ThreadOk(s.th[t], |s.th|, s.max, s.g);
    assert ThreadOk(z.th[t], |s.th|, s.max, s.g) by { FullMeansFull(s.th[t], s.max); }
    LeaveLocks(s, t);
    forall u | 0 <= u < |z.th| ensures CopiedOk(z.obj, z.th[u]) {
      assert CopiedOk(s.obj, s.th[u]);
    }
    LeaveReaders(s, t);
    OutsideStep(s, z, t);
  }

  /** The ring of write sets is full only when it is time to write back anyway. */
  lemma FullMeansFull(x: Thread, max: nat)
    requires 1 <= max && 2 * max <= MAX_WRITE_SETS
    requires x.head <= x.wb <= x.tail && x.wb - x.head <= max && x.tail - x.wb < max
    ensures (x.tail + 1) % MAX_WRITE_SETS == x.head % MAX_WRITE_SETS ==> x.tail + 1 - x.wb >= max
    ensures x.tail - x.head < MAX_WRITE_SETS
  {
  }

  lemma LeaveLocks(s: State, t: nat)
    requires Threads(s) && Locks(s.th, s.obj) && CanLeave(s, t) && s.th[t].wrote
    ensures Locks(DoLeave(s, t).th, s.obj)
  {
    var z := DoLeave(s, t);
    assert ThreadOk(s.th[t], |s.th|, s.max, s.g);
    forall o | 0 <= o < |s.obj| ensures LockOk(z.th, s.obj[o], o) {
      assert LockOk(s.th, s.obj[o], o);
    }
    forall u: nat, p: nat, k: nat | u < |z.th| ensures Held(s.obj, z.th[u], u, p, k) {
      assert Held(s.obj, s.th[u], u, p, k);
    }
  }

  lemma LeaveRef(s: State, t: nat, u: nat, r: Ref)
    requires Threads(s) && CanLeave(s, t) && s.th[t].wrote && u < |s.th| && u != t && s.th[u].ph == In && RefOk(s, u, r)
    ensures RefOk(DoLeave(s, t), u, r)
  {
    assert ThreadOk(s.th[t], |s.th|, s.max, s.g);
  }

  lemma LeaveReaders(s: State, t: nat)
    requires Threads(s) && CanLeave(s, t) && s.th[t].wrote
    ensures Steady(s, DoLeave(s, t), t)
    ensures forall u :: 0 <= u < |s.th| && u != t && s.th[u].ph == In ==>
      RefsKept(s, DoLeave(s, t), t, u) && LookKept(s, DoLeave(s, t), u)
  {
    var z := DoLeave(s, t);
    assert forall u :: 0 <= u < |s.th| ==> ThreadOk(s.th[u], |s.th|, s.max, s.g);
    assert Steady(s, z, t);
    hide Steady;
    forall u | 0 <= u < |s.th| && u != t && s.th[u].ph == In ensures RefsKept(s, z, t, u) && LookKept(s, z, u) {
      hide RefOk;
      forall r: Ref | RefOk(s, u, r) ensures RefOk(z, u, r) {
        LeaveRef(s, t, u, r);
      }
    }
  }

  // ---------------------------------------------------------------- aborting

  lemma UnlockLocks(s: State, t: nat)
    requires Threads(s) && Locks(s.th, s.obj) && CanUnlock(s, t)
    ensures Locks(DoUnlock(s, t).th, DoUnlock(s, t).obj)
  {
    var z := DoUnlock(s, t);
    assert ThreadOk(s.th[t], |s.th|, s.max, s.g) && Held(s.obj, s.th[t], t, s.th[t].tail, s.th[t].ph.k);
    forall o | 0 <= o < |s.obj| ensures LockOk(z.th, z.obj[o], o) {
      assert LockOk(s.th, s.obj[o], o);
    }
    forall u: nat, p: nat, k: nat | u < |z.th| ensures Held(z.obj, z.th[u], u, p, k) {
      assert Held(s.obj, s.th[u], u, p, k);
    }
  }

  lemma UnlockRef(s: State, t: nat, u: nat, r: Ref)
    requires Threads(s) && Locks(s.th, s.obj) && CanUnlock(s, t) && u < |s.th| && u != t && s.th[u].ph == In && RefOk(s, u, r)
    ensures RefOk(DoUnlock(s, t), u, r)
  {
    assert ThreadOk(s.th[t], |s.th|, s.max, s.g);
    assert Held(s.obj, s.th[t], t, s.th[t].tail, s.th[t].ph.k);
  }

  lemma UnlockReaders(s: State, t: nat)
    requires Threads(s) && Locks(s.th, s.obj) && CanUnlock(s, t)
    ensures Steady(s, DoUnlock(s, t), t)
    ensures forall u :: 0 <= u < |s.th| && u != t && s.th[u].ph == In ==>
      RefsKept(s, DoUnlock(s, t), t, u) && LookKept(s, DoUnlock(s, t), u)
  {
    var z := DoUnlock(s, t);
    assert forall u :: 0 <= u < |s.th| ==> ThreadOk(s.th[u], |s.th|, s.max, s.g);
    assert Held(s.obj, s.th[t], t, s.th[t].tail, s.th[t].ph.k);
    assert Steady(s, z, t);
    hide Steady;
    forall u | 0 <= u < |s.th| && u != t && s.th[u].ph == In ensures RefsKept(s, z, t, u) && LookKept(s, z, u) {
      hide RefOk;
      forall r: Ref | RefOk(s, u, r) ensures RefOk(z, u, r) {
        UnlockRef(s, t, u, r);
      }
    }
  }

  lemma UnlockInv(s: State, t: nat)
    requires Inv(s) && CanUnlock(s, t)
    ensures Inv(DoUnlock(s, t))
  {
    var z := DoUnlock(s, t);
    assert ThreadOk(s.th[t], |s.th|, s.max, s.g) && WriterQuiet(s.th, t);
    UnlockLocks(s, t);
    UnlockReaders(s, t);
    forall u | 0 <= u < |z.th| ensures CopiedOk(z.obj, z.th[u]) {
      assert CopiedOk(s.obj, s.th[u]);
    }
    OutsideStep(s, z, t);
  }

  lemma AbortedInv(s: State, t: nat)
    requires Inv(s) && CanAborted(s, t)
    ensures Inv(DoAborted(s, t))
  {
    var z := DoAborted(s, t);
    assert ThreadOk(s.th[t], |s.th|, s.max, s.g);
    forall o | 0 <= o < |s.obj| ensures LockOk(z.th, s.obj[o], o) {
      assert LockOk(s.th, s.obj[o], o);
    }
    forall u: nat, p: nat, k: nat | u < |z.th| ensures Held(s.obj, z.th[u], u, p, k) {
      assert Held(s.obj, s.th[u], u, p, k);
    }
    forall u | 0 <= u < |z.th| ensures CopiedOk(z.obj, z.th[u]) {
      assert CopiedOk(s.obj, s.th[u]);
    }
    AbortedReaders(s, t);
    OutsideStep(s, z, t);
  }

  lemma AbortedRef(s: State, t: nat, u: nat, r: Ref)
    requires Threads(s) && CanAborted(s, t) && u < |s.th| && u != t && s.th[u].ph == In && RefOk(s, u, r)
    ensures RefOk(DoAborted(s, t), u, r)
  {
    assert ThreadOk(s.th[t], |s.th|, s.max, s.g);
  }

  lemma AbortedReaders(s: State, t: nat)
    requires Threads(s) && CanAborted(s, t)
    ensures Steady(s, DoAborted(s, t), t)
    ensures forall u :: 0 <= u < |s.th| && u != t && s.th[u].ph == In ==>
      RefsKept(s, DoAborted(s, t), t, u) && LookKept(s, DoAborted(s, t), u)
  {
    var z := DoAborted(s, t);
    assert forall u :: 0 <= u < |s.th| ==> ThreadOk(s.th[u], |s.th|, s.max, s.g);
    assert Steady(s, z, t);
    hide Steady;
    forall u | 0 <= u < |s.th| && u != t && s.th[u].ph == In ensures RefsKept(s, z, t, u) && LookKept(s, z, u) {
      hide RefOk;
      forall r: Ref | RefOk(s, u, r) ensures RefOk(z, u, r) {
        AbortedRef(s, t, u, r);
      }
    }
  }

  // ---------------------------------------------------------------- writing back

  lemma SyncRef(s: State, t: nat, u: nat, r: Ref)
    requires Threads(s) && CanSync(s, t) && u < |s.th| && u != t && s.th[u].ph == In && RefOk(s, u, r)
    ensures RefOk(DoSync(s, t), u, r)
  {
    assert ThreadOk(s.th[t], |s.th|, s.max, s.g);
    assert ThreadOk(s.th[u], |s.th|, s.max, s.g);
  }

  lemma SyncReaders(s: State, t: nat)
    requires Threads(s) && CanSync(s, t)
    ensures Steady(s, DoSync(s, t), t)
    ensures forall u :: 0 <= u < |s.th| && u != t && s.th[u].ph == In ==>
      RefsKept(s, DoSync(s, t), t, u) && LookKept(s, DoSync(s, t), u)
  {
    var z := DoSync(s, t);
    assert forall u :: 0 <= u < |s.th| ==> ThreadOk(s.th[u], |s.th|, s.max, s.g);
    assert Steady(s, z, t);
    hide Steady;
    forall u | 0 <= u < |s.th| && u != t && s.th[u].ph == In ensures RefsKept(s, z, t, u) && LookKept(s, z, u) {
      hide RefOk;
      forall r: Ref | RefOk(s, u, r) ensures RefOk(z, u, r) {
        SyncRef(s, t, u, r);
      }
    }
  }

  lemma SyncInv(s: State, t: nat)
    requires Inv(s) && CanSync(s, t)
    ensures Inv(DoSync(s, t))
  {
    var z := DoSync(s, t);
    assert ThreadOk(s.th[t], |s.th|, s.max, s.g);
    forall u | 0 <= u < |s.th| ensures ThreadOk(s.th[u], |s.th|, s.max, s.g) && CopiedOk(z.obj, z.th[u]) {
      assert CopiedOk(s.obj, s.th[u]);
    }
    SyncReaders(s, t);
    forall o | 0 <= o < |s.obj| ensures LockOk(z.th, s.obj[o], o) {
      assert LockOk(s.th, s.obj[o], o);
    }
    forall u: nat, p: nat, k: nat | u < |z.th| ensures Held(s.obj, z.th[u], u, p, k) {
      assert Held(s.obj, s.th[u], u, p, k);
    }
    OutsideStep(s, z, t);
  }

  // ---- resetting old write sets

  lemma ResetRef(s: State, t: nat, u: nat, r: Ref)
    requires Threads(s) && Locks(s.th, s.obj) && Copied(s.th, s.obj) && Quiet(s.th) && CanReset(s, t) && u < |s.th| && u != t && s.th[u].ph == In && RefOk(s, u, r)
    ensures RefOk(DoReset(s, t), u, r)
  {
    assert ThreadOk(s.th[t], |s.th|, s.max, s.g) && WriterQuiet(s.th, t) && QuietOk(s.th, t, u);
  }

  lemma ResetReaders(s: State, t: nat)
    requires Threads(s) && Locks(s.th, s.obj) && Copied(s.th, s.obj) && Quiet(s.th) && CanReset(s, t)
    ensures Steady(s, DoReset(s, t), t)
    ensures forall u :: 0 <= u < |s.th| && u != t && s.th[u].ph == In ==>
      RefsKept(s, DoReset(s, t), t, u) && LookKept(s, DoReset(s, t), u)
  {
    var z := DoReset(s, t);
    assert ThreadOk(s.th[t], |s.th|, s.max, s.g);
    assert Steady(s, z, t);
    hide Steady;
    forall u | 0 <= u < |s.th| && u != t && s.th[u].ph == In ensures RefsKept(s, z, t, u) && LookKept(s, z, u) {
      hide RefOk;
      forall r: Ref | RefOk(s, u, r) ensures RefOk(z, u, r) {
        ResetRef(s, t, u, r);
      }
    }
  }

  lemma ResetInv(s: State, t: nat)
    requires Inv(s) && CanReset(s, t)
    ensures Inv(DoReset(s, t))
  {
    var z := DoReset(s, t);
    assert ThreadOk(s.th[t], |s.th|, s.max, s.g) && WriterQuiet(s.th, t);
    forall n | 0 <= n < |z.th| ensures QuietOk(z.th, t, n) {
      assert QuietOk(s.th, t, n);
    }
    SameItems(s, z, t);
    ResetReaders(s, t);
    OutsideStep(s, z, t);
  }

  /** The same items of thread t are locked before and after. */
  lemma SameItems(s: State, z: State, t: nat)
    requires Locks(s.th, s.obj) && Copied(s.th, s.obj) && t < |s.th| && z.obj == s.obj && |z.th| == |s.th|
    requires z.th == s.th[t := z.th[t]] && z.th[t].sets == s.th[t].sets
    requires forall p: nat, k: nat :: Live(z.th[t], p, k) <==> Live(s.th[t], p, k)
    requires !(z.th[t].ph.Writeback? && z.th[t].ph.copied)
    ensures Locks(z.th, z.obj) && Copied(z.th, z.obj)
  {
    forall o | 0 <= o < |s.obj| ensures LockOk(z.th, s.obj[o], o) {
      assert LockOk(s.th, s.obj[o], o);
    }
    forall u: nat, p: nat, k: nat | u < |z.th| ensures Held(s.obj, z.th[u], u, p, k) {
      assert Held(s.obj, s.th[u], u, p, k);
    }
    forall u | 0 <= u < |z.th| ensures CopiedOk(z.obj, z.th[u]) {
      assert CopiedOk(s.obj, s.th[u]);
    }
  }

  // ---- one item

  /** A writeback's object is locked by it, so nobody else writes it back. */
  lemma ItemHeld(s: State, t: nat)
    requires Threads(s) && Locks(s.th, s.obj) && AtItem(s, t)
    ensures var it := ItemAt(s, t); s.obj[it.o].lock == Some(CopyPtr(t, s.th[t].ph.p, s.th[t].ph.k))
  {
    assert ThreadOk(s.th[t], |s.th|, s.max, s.g) && Held(s.obj, s.th[t], t, s.th[t].ph.p, s.th[t].ph.k);
  }

  lemma CopyBackRef(s: State, t: nat, u: nat, r: Ref)
    requires Threads(s) && Locks(s.th, s.obj) && Copied(s.th, s.obj) && Quiet(s.th) && CanCopyBack(s, t) && u < |s.th| && u != t && s.th[u].ph == In && RefOk(s, u, r)
    ensures RefOk(DoCopyBack(s, t), u, r)
  {
    assert ThreadOk(s.th[t], |s.th|, s.max, s.g) && WriterQuiet(s.th, t) && QuietOk(s.th, t, u);
    ItemHeld(s, t);
  }

  lemma CopyBackReaders(s: State, t: nat)
    requires Threads(s) && Locks(s.th, s.obj) && Copied(s.th, s.obj) && Quiet(s.th) && CanCopyBack(s, t)
    ensures Steady(s, DoCopyBack(s, t), t)
    ensures forall u :: 0 <= u < |s.th| && u != t && s.th[u].ph == In ==>
      RefsKept(s, DoCopyBack(s, t), t, u) && LookKept(s, DoCopyBack(s, t), u)
  {
    var z := DoCopyBack(s, t);
    assert ThreadOk(s.th[t], |s.th|, s.max, s.g);
    ItemHeld(s, t);
    assert Steady(s, z, t);
    hide Steady;
    forall u | 0 <= u < |s.th| && u != t && s.th[u].ph == In ensures RefsKept(s, z, t, u) && LookKept(s, z, u) {
      hide RefOk;
      forall r: Ref | RefOk(s, u, r) ensures RefOk(z, u, r) {
        CopyBackRef(s, t, u, r);
      }
    }
  }

  lemma CopyBackInv(s: State, t: nat)
    requires Inv(s) && CanCopyBack(s, t)
    ensures Inv(DoCopyBack(s, t))
  {
    var z := DoCopyBack(s, t);
    assert ThreadOk(s.th[t], |s.th|, s.max, s.g) && WriterQuiet(s.th, t);
    ItemHeld(s, t);
    forall n | 0 <= n < |z.th| ensures QuietOk(z.th, t, n) {
      assert QuietOk(s.th, t, n);
    }
    CopyBackLocks(s, t);
    CopyBackReaders(s, t);
    OutsideStep(s, z, t);
  }

  lemma CopyBackLocks(s: State, t: nat)
    requires Threads(s) && Locks(s.th, s.obj) && Copied(s.th, s.obj) && CanCopyBack(s, t)
    ensures Locks(DoCopyBack(s, t).th, DoCopyBack(s, t).obj) && Copied(DoCopyBack(s, t).th, DoCopyBack(s, t).obj)
  {
    var z := DoCopyBack(s, t);
    ItemHeld(s, t);
    forall o | 0 <= o < |s.obj| ensures LockOk(z.th, z.obj[o], o) {
      assert LockOk(s.th, s.obj[o], o);
    }
    forall u: nat, p: nat, k: nat | u < |z.th| ensures Held(z.obj, z.th[u], u, p, k) {
      assert Held(s.obj, s.th[u], u, p, k);
    }
    forall u | 0 <= u < |z.th| ensures CopiedOk(z.obj, z.th[u]) {
      assert CopiedOk(s.obj, s.th[u]);
      if s.th[u].ph.Writeback? && s.th[u].ph.copied {
        assert ThreadOk(s.th[u], |s.th|, s.max, s.g);
        assert Held(s.obj, s.th[u], u, s.th[u].ph.p, s.th[u].ph.k);
      }
    }
  }

  lemma ReleaseRef(s: State, t: nat, u: nat, r: Ref)
    requires Threads(s) && Locks(s.th, s.obj) && Copied(s.th, s.obj) && Quiet(s.th) && CanRelease(s, t) && u < |s.th| && u != t && s.th[u].ph == In && RefOk(s, u, r)
    ensures RefOk(DoRelease(s, t), u, r)
  {
    assert ThreadOk(s.th[t], |s.th|, s.max, s.g) && WriterQuiet(s.th, t) && QuietOk(s.th, t, u);
    ItemHeld(s, t);
    assert CopiedOk(s.obj, s.th[t]);
  }

  lemma ReleaseReaders(s: State, t: nat)
    requires Threads(s) && Locks(s.th, s.obj) && Copied(s.th, s.obj) && Quiet(s.th) && CanRelease(s, t)
    ensures Steady(s, DoRelease(s, t), t)
    ensures forall u :: 0 <= u < |s.th| && u != t && s.th[u].ph == In ==>
      RefsKept(s, DoRelease(s, t), t, u) && LookKept(s, DoRelease(s, t), u)
  {
    var z := DoRelease(s, t);
    assert ThreadOk(s.th[t], |s.th|, s.max, s.g);
    ItemHeld(s, t);
    assert CopiedOk(s.obj, s.th[t]);
    assert Steady(s, z, t);
    hide Steady;
    forall u | 0 <= u < |s.th| && u != t && s.th[u].ph == In ensures RefsKept(s, z, t, u) && LookKept(s, z, u) {
      hide RefOk;
      forall r: Ref | RefOk(s, u, r) ensures RefOk(z, u, r) {
        ReleaseRef(s, t, u, r);
      }
    }
  }

  lemma ReleaseLocks(s: State, t: nat)
    requires Threads(s) && Locks(s.th, s.obj) && Copied(s.th, s.obj) && CanRelease(s, t)
    ensures Locks(DoRelease(s, t).th, DoRelease(s, t).obj) && Copied(DoRelease(s, t).th, DoRelease(s, t).obj)
  {
    var z := DoRelease(s, t);
    ItemHeld(s, t);
    forall o | 0 <= o < |s.obj| ensures LockOk(z.th, z.obj[o], o) {
      assert LockOk(s.th, s.obj[o], o);
    }
    forall u: nat, p: nat, k: nat | u < |z.th| ensures Held(z.obj, z.th[u], u, p, k) {
      assert Held(s.obj, s.th[u], u, p, k);
    }
    forall u | 0 <= u < |z.th| ensures CopiedOk(z.obj, z.th[u]) {
      assert CopiedOk(s.obj, s.th[u]);
    }
  }

  lemma ReleaseInv(s: State, t: nat)
    requires Inv(s) && CanRelease(s, t)
    ensures Inv(DoRelease(s, t))
  {
    var z := DoRelease(s, t);
    assert ThreadOk(s.th[t], |s.th|, s.max, s.g) && WriterQuiet(s.th, t);
    ItemHeld(s, t);
    forall n | 0 <= n < |z.th| ensures QuietOk(z.th, t, n) {
      assert QuietOk(s.th, t, n);
    }
    ReleaseLocks(s, t);
    ReleaseReaders(s, t);
    OutsideStep(s, z, t);
  }

  // ---- the end of a writeback

  lemma WrittenRef(s: State, t: nat, u: nat, r: Ref)
    requires Threads(s) && Locks(s.th, s.obj) && Copied(s.th, s.obj) && Quiet(s.th) && CanWritten(s, t) && u < |s.th| && u != t && s.th[u].ph == In && RefOk(s, u, r)
    ensures RefOk(DoWritten(s, t), u, r)
  {
    assert ThreadOk(s.th[t], |s.th|, s.max, s.g) && WriterQuiet(s.th, t) && QuietOk(s.th, t, u);
    if r.loc.At? && r.loc.c.t == t { assert LockOk(s.th, s.obj[r.o], r.o); }
  }

  lemma WrittenReaders(s: State, t: nat)
    requires Threads(s) && Locks(s.th, s.obj) && Copied(s.th, s.obj) && Quiet(s.th) && CanWritten(s, t)
    ensures Steady(s, DoWritten(s, t), t)
    ensures forall u :: 0 <= u < |s.th| && u != t && s.th[u].ph == In ==>
      RefsKept(s, DoWritten(s, t), t, u) && LookKept(s, DoWritten(s, t), u)
  {
    var z := DoWritten(s, t);
    assert ThreadOk(s.th[t], |s.th|, s.max, s.g);
    assert Steady(s, z, t);
    hide Steady;
    forall u | 0 <= u < |s.th| && u != t && s.th[u].ph == In ensures RefsKept(s, z, t, u) && LookKept(s, z, u) {
      hide RefOk;
      forall r: Ref | RefOk(s, u, r) ensures RefOk(z, u, r) {
        WrittenRef(s, t, u, r);
      }
    }
  }

  lemma WrittenInv(s: State, t: nat)
    requires Inv(s) && CanWritten(s, t)
    ensures Inv(DoWritten(s, t))
  {
    var z := DoWritten(s, t);
    assert ThreadOk(s.th[t], |s.th|, s.max, s.g) && WriterQuiet(s.th, t);
    forall n | 0 <= n < |z.th| ensures QuietOk(z.th, t, n) {
      assert QuietOk(s.th, t, n);
    }
    SameItems(s, z, t);
    WrittenReaders(s, t);
    OutsideStep(s, z, t);
  }

  lemma FinishRef(s: State, t: nat, u: nat, r: Ref)
    requires Threads(s) && Locks(s.th, s.obj) && Copied(s.th, s.obj) && Quiet(s.th) && CanFinish(s, t) && u < |s.th| && u != t && s.th[u].ph == In && RefOk(s, u, r)
    ensures RefOk(DoFinish(s, t), u, r)
  {
    assert ThreadOk(s.th[t], |s.th|, s.max, s.g) && WriterQuiet(s.th, t) && QuietOk(s.th, t, u);
    if s.obj[r.o].lock.Some? { assert LockOk(s.th, s.obj[r.o], r.o); }
  }

  lemma FinishReaders(s: State, t: nat)
    requires Threads(s) && Locks(s.th, s.obj) && Copied(s.th, s.obj) && Quiet(s.th) && CanFinish(s, t)
    ensures Steady(s, DoFinish(s, t), t)
    ensures forall u :: 0 <= u < |s.th| && u != t && s.th[u].ph == In ==>
      RefsKept(s, DoFinish(s, t), t, u) && LookKept(s, DoFinish(s, t), u)
  {
    var z := DoFinish(s, t);
    assert ThreadOk(s.th[t], |s.th|, s.max, s.g);
    assert Steady(s, z, t);
    hide Steady;
    forall u | 0 <= u < |s.th| && u != t && s.th[u].ph == In ensures RefsKept(s, z, t, u) && LookKept(s, z, u) {
      hide RefOk;
      forall r: Ref | RefOk(s, u, r) ensures RefOk(z, u, r) {
        FinishRef(s, t, u, r);
      }
    }
  }

  lemma FinishInv(s: State, t: nat)
    requires Inv(s) && CanFinish(s, t)
    ensures Inv(DoFinish(s, t))
  {
    var z := DoFinish(s, t);
    assert ThreadOk(s.th[t], |s.th|, s.max, s.g) && WriterQuiet(s.th, t);
    forall n | 0 <= n < |z.th| ensures QuietOk(z.th, t, n) {
      assert QuietOk(s.th, t, n);
    }
    SameItems(s, z, t);
    FinishReaders(s, t);
    OutsideStep(s, z, t);
  }

  /** The commit is counted: every section running now began after it. */
  lemma CountVersions(s: State, t: nat)
    requires Threads(s) && Versions(s) && Quiet(s.th) && CanCount(s, t)
    ensures Versions(DoCount(s, t))
  {
    var z := DoCount(s, t);
    assert ThreadOk(s.th[t], |s.th|, s.max, s.g) && WriterQuiet(s.th, t);
    forall u, v | 0 <= u < |z.th| && Running(z.th[u].ph) && v in z.done ensures v <= z.th[u].lv {
      assert QuietOk(s.th, t, u);
    }
  }

  lemma CountRef(s: State, t: nat, u: nat, r: Ref)
    requires Threads(s) && Locks(s.th, s.obj) && Copied(s.th, s.obj) && Quiet(s.th) && CanCount(s, t) && u < |s.th| && u != t && s.th[u].ph == In && RefOk(s, u, r)
    ensures RefOk(DoCount(s, t), u, r)
  {
    assert ThreadOk(s.th[t], |s.th|, s.max, s.g) && WriterQuiet(s.th, t) && QuietOk(s.th, t, u);
  }

  lemma CountReaders(s: State, t: nat)
    requires Threads(s) && Locks(s.th, s.obj) && Copied(s.th, s.obj) && Quiet(s.th) && CanCount(s, t)
    ensures Steady(s, DoCount(s, t), t)
    ensures forall u :: 0 <= u < |s.th| && u != t && s.th[u].ph == In ==>
      RefsKept(s, DoCount(s, t), t, u) && LookKept(s, DoCount(s, t), u)
  {
    var z := DoCount(s, t);
    assert ThreadOk(s.th[t], |s.th|, s.max, s.g);
    assert Steady(s, z, t);
    hide Steady;
    forall u | 0 <= u < |s.th| && u != t && s.th[u].ph == In ensures RefsKept(s, z, t, u) && LookKept(s, z, u) {
      hide RefOk;
      forall r: Ref | RefOk(s, u, r) ensures RefOk(z, u, r) {
        CountRef(s, t, u, r);
      }
    }
  }

  lemma CountInv(s: State, t: nat)
    requires Inv(s) && CanCount(s, t)
    ensures Inv(DoCount(s, t))
  {
    var z := DoCount(s, t);
    assert ThreadOk(s.th[t], |s.th|, s.max, s.g) && WriterQuiet(s.th, t);
    CountVersions(s, t);
    SameItems(s, z, t);
    CountReaders(s, t);
    OutsideStep(s, z, t);
  }
}
