/** What every step of RLU keeps. */
module RluInvariant {
  import opened Options
  import opened Rlu

  // ---------------------------------------------------------------- threads

  /** One thread's write sets and phase. */
  predicate ThreadOk(x: Thread, n: nat, max: nat, g: nat) {
    && |x.sets| == x.tail + 1 && x.head <= x.wb <= x.tail && |x.need| == |x.cap| == n
    && x.wb - x.head <= max && x.tail - x.wb <= max
    && (x.ph in {Out, Registered, Versioned, In, Count} || x.ph.Aborting? ==> x.tail - x.wb < max)
    && (x.ph == Full ==> x.tail > x.wb)
    && (x.wv.Some? <==> Syncing(x.ph)) && (x.wv.Some? ==> x.wv.value == x.ver)
    && (Syncing(x.ph) || x.ph == Count ==> 1 <= x.ver <= g)
    && x.lv <= g && x.ver <= g
    && (x.run % 2 == 1 <==> Running(x.ph) || x.ph == Registered)
    && (x.ph != In ==> x.look == NoLook && x.refs == {} && !x.wrote)
    && (!x.wrote && !x.ph.Aborting? ==> x.sets[x.tail] == [])
    && (x.ph == In && !x.check ==> !x.wrote && x.tail == x.wb)
    && (x.ph.Capture? ==> x.ph.n < n)
    && (x.ph.Aborting? ==> x.ph.k <= |x.sets[x.tail]|)
    && (x.ph.Writeback? ==>
          && x.head == x.wb && x.wb <= x.ph.p <= x.tail && x.ph.k <= |x.sets[x.ph.p]|
          && (x.ph.copied ==> x.ph.p < x.tail && x.ph.k < |x.sets[x.ph.p]|))
    && (x.ph == Finish || x.ph == Count ==> x.wb == x.tail)
  }

  predicate Threads(s: State) {
    && 1 <= s.max && 2 * s.max <= MAX_WRITE_SETS
    && forall t :: 0 <= t < |s.th| ==> ThreadOk(s.th[t], |s.th|, s.max, s.g)
  }

  // ---------------------------------------------------------------- locks

  /** Item k of write set p is locked: not yet released by a writeback or an abort. */
  predicate Live(x: Thread, p: nat, k: nat) {
    && x.wb <= p <= x.tail < |x.sets| && k < |x.sets[p]|
    && (x.ph.Writeback? ==> p > x.ph.p || (p == x.ph.p && k >= x.ph.k))
    && (x.ph.Aborting? ==> p < x.tail || k >= x.ph.k)
  }

  predicate LockOk(th: seq<Thread>, ob: Obj, o: nat) {
    ob.lock.Some? ==>
      var c := ob.lock.value;
      c.t < |th| && Live(th[c.t], c.p, c.k) && th[c.t].sets[c.p][c.k].o == o
  }

  predicate Held(obj: seq<Obj>, x: Thread, t: nat, p: nat, k: nat) {
    Live(x, p, k) ==> x.sets[p][k].o < |obj| && obj[x.sets[p][k].o].lock == Some(CopyPtr(t, p, k))
  }

  ghost predicate Locks(th: seq<Thread>, obj: seq<Obj>) {
    && (forall o :: 0 <= o < |obj| ==> LockOk(th, obj[o], o))
    && (forall t, p, k :: 0 <= t < |th| && 0 <= p && 0 <= k ==> Held(obj, th[t], t, p, k))
  }

  /** An item just copied back, but not released, is in its object. */
  predicate CopiedOk(obj: seq<Obj>, x: Thread) {
    x.ph.Writeback? && x.ph.copied && x.ph.p < |x.sets| && x.ph.k < |x.sets[x.ph.p]| ==>
      var it := x.sets[x.ph.p][x.ph.k]; it.o < |obj| && obj[it.o].val == it.val
  }

  predicate Copied(th: seq<Thread>, obj: seq<Obj>) {
    forall t :: 0 <= t < |th| ==> CopiedOk(obj, th[t])
  }

  // ---------------------------------------------------------------- versions

  predicate Pending(ph: Phase) {
    Syncing(ph) || ph == Count
  }

  predicate Versions(s: State) {
    && |s.done| == s.commit
    && (forall v :: v in s.done ==> 1 <= v <= s.g)
    && (forall t :: 0 <= t < |s.th| && Pending(s.th[t].ph) ==> s.th[t].ver !in s.done)
    && (forall t, u :: 0 <= t < u < |s.th| && Pending(s.th[t].ph) && Pending(s.th[u].ph) ==> s.th[t].ver != s.th[u].ver)
    && (forall t, v :: 0 <= t < |s.th| && Running(s.th[t].ph) && v in s.done ==> v <= s.th[t].lv)
  }

  // ---------------------------------------------------------------- quiescence

  predicate Late(r: Thread, w: nat) {
    Running(r.ph) ==> r.lv >= w
  }

  predicate Waited(x: Thread, r: Thread, n: nat) {
    Late(r, x.ver) || (n < |x.need| == |x.cap| && x.need[n] && r.run == x.cap[n])
  }

  /** What writer t knows of the other threads' sections. */
  predicate QuietOk(th: seq<Thread>, t: nat, n: nat)
    requires t < |th| && n < |th|
  {
    var x := th[t];
    && (x.ph.Capture? && n < x.ph.n ==> Waited(x, th[n], n))
    && (x.ph == Wait ==> Waited(x, th[n], n))
    && (x.ph.Writeback? || x.ph == Finish || x.ph == Count ==> Late(th[n], x.ver))
  }

  predicate WriterQuiet(th: seq<Thread>, t: nat)
    requires t < |th|
  {
    forall n :: 0 <= n < |th| ==> QuietOk(th, t, n)
  }

  predicate Quiet(th: seq<Thread>) {
    forall t :: 0 <= t < |th| ==> WriterQuiet(th, t)
  }

  // ---------------------------------------------------------------- readers

  /** No writer that a section of version l might have to look at is under way. */
  predicate Clean(th: seq<Thread>, l: nat) {
    forall u :: 0 <= u < |th| && Syncing(th[u].ph) ==> th[u].ver > l
  }

  /** The object is locked by the section's own, current write set. */
  predicate OwnCurrent(th: seq<Thread>, ob: Obj, t: nat) {
    t < |th| && ob.lock.Some? && ob.lock.value.t == t && ob.lock.value.p == th[t].tail
  }

  /** The section has to use the original, and it holds val. */
  predicate ReadsOrg(th: seq<Thread>, ob: Obj, t: nat, val: int)
    requires t < |th|
  {
    ob.val == val && !Stolen(th, ob, t, th[t].lv) && (ob.lock.Some? && ob.lock.value.t == t ==> OwnCurrent(th, ob, t))
  }

  /** The copy at c belongs to a finished write set and is not going to be reused
      while thread t's section runs. */
  predicate CopyKept(th: seq<Thread>, c: CopyPtr, t: nat, it: Item)
    requires t < |th|
  {
    && c.t < |th|
    && var x := th[c.t];
       && x.head <= c.p < x.tail < |x.sets| && c.k < |x.sets[c.p]| && x.sets[c.p][c.k] == it
       && (x.ph.Capture? || x.ph == Wait ==> c.p >= x.wb || th[t].lv < x.ver)
       && (c.p >= x.wb ==> c.t == t || Reached(th, c.t, th[t].lv))
  }

  predicate RefOk(s: State, t: nat, r: Ref)
    requires t < |s.th|
  {
    && r.o < |s.obj|
    && match r.loc
       case Org => ReadsOrg(s.th, s.obj[r.o], t, r.val)
       case At(c) =>
         && CopyKept(s.th, c, t, Item(r.o, r.val))
         && ((s.obj[r.o].lock == Some(c) && c.p >= s.th[c.t].wb) || (c.t != t && ReadsOrg(s.th, s.obj[r.o], t, r.val)))
  }

  predicate LookOk(s: State, t: nat)
    requires t < |s.th|
  {
    var x := s.th[t];
    x.look.LookAt? ==>
      && x.look.o < |s.obj|
      && var o, c := x.look.o, x.look.c;
         && (c.t == t ==> s.obj[o].lock == Some(c))
         && (Stolen(s.th, s.obj[o], t, x.lv) ==> s.obj[o].lock == Some(c))
         && (c.t != t && s.obj[o].lock.Some? && s.obj[o].lock.value.t == t ==> false)
         && (c.t != t && Reached(s.th, c.t, x.lv) ==> RefOk(s, t, Ref(o, At(c), CopyVal(s.th, c))))
  }

  predicate ReaderOk(s: State, t: nat)
    requires t < |s.th|
  {
    var x := s.th[t];
    x.ph == In ==>
      && (!x.steal || !x.check ==> Clean(s.th, x.lv))
      && (forall r :: r in x.refs ==> RefOk(s, t, r))
      && LookOk(s, t)
  }

  predicate Readers(s: State) {
    forall t :: 0 <= t < |s.th| ==> ReaderOk(s, t)
  }

  ghost predicate Inv(s: State) {
    Threads(s) && Locks(s.th, s.obj) && Copied(s.th, s.obj) && Versions(s) && Quiet(s.th) && Readers(s)
  }
}
