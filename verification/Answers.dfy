/** What the calls of the interface leave their caller with: the pointer ts_deref hands
    out, the copy ts_try_lock makes, and the locks an abort gives back. */
module Answers {
  import opened Options
  import opened Ordo
  import opened Protocol
  import opened History
  import opened Invariant
  import opened Basics
  import opened BasicSteps
  import opened TxSteps
  import opened MemorySteps
  import opened GracePeriods
  import opened Runs
  import opened Snapshots

  // ---------------------------------------------------------------- ts_deref

  /** The object a ts_deref under way is for. */
  function Sought(rd: Read): nat {
    match rd
    case NoRead => 0
    case AtCopy(o, _, _) => o
    case AtMaster(o) => o
  }

  /** Steps of a transaction on its own state change nobody's view. */
  lemma DerefView(s: State, a: Action, z: State, t: nat)
    requires Next(s, a, z) && (a == DerefCopy(t) || a == DerefMaster(t))
    ensures t < |s.tx| == |z.tx| && z == s.(tx := z.tx) && View(z) == View(s)
    ensures z.tx[t].lclk == s.tx[t].lclk && forall u :: 0 <= u < |s.tx| && u != t ==> z.tx[u] == s.tx[u]
  {
    assert z == s.(tx := z.tx);
  }

  /** The one pointer a step has added for object o. */
  predicate HandsOut(s: State, z: State, t: nat, r: Ref)
    requires t < |s.tx| == |z.tx|
  {
    z.tx[t].refs == s.tx[t].refs + {r} && r.o == Sought(s.tx[t].rd) < |s.obj| == |View(z)| && |View(z)[r.o]| >= 1
  }

  /** A ts_deref that is over has handed out one pointer, and what it points to is still
      there. A copy it points to is the newest version of the transaction's snapshot. */
  lemma DerefAnswers(s: State, a: Action, z: State, t: nat) returns (r: Ref)
    requires Basic(s) && Next(s, a, z) && (a == DerefCopy(t) || a == DerefMaster(t))
    requires t < |z.tx| && z.tx[t].rd == NoRead
    ensures t < |s.tx| == |z.tx| && HandsOut(s, z, t, r)
    ensures r.loc.Copy? ==> r.v == Newest(View(z)[r.o], z.tx[t].lclk)
    ensures Safe(s) ==> HoldsVersion(z, r)
  {
    hide Basic, Safe;
    DerefView(s, a, z, t);
    if a == DerefCopy(t) {
      r := CopyAnswers(s, t);
    } else {
      r := MasterAnswers(s, t);
    }
    hide Next, View;
  }

  /** The pointer handed out is to the version the snapshot has of the object, which is
      where the walk of the specification ends, begun with checkpoint clock k. */
  predicate IsSnapshot(s: State, z: State, t: nat, r: Ref, k: nat) {
    && t < |s.tx| == |z.tx| && HandsOut(s, z, t, r)
    && r.v == Newest(View(z)[r.o], z.tx[t].lclk) == DerefVer(s, r.o, z.tx[t].lclk, k)
  }

  /** In guarded runs that is so for masters too, whatever checkpoint clock the walk of
      the specification is begun with. */
  lemma DerefFindsSnapshot(s: State, a: Action, z: State, t: nat, k: nat) returns (r: Ref)
    requires Inv(s) && Next(s, a, z) && (a == DerefCopy(t) || a == DerefMaster(t))
    requires t < |z.tx| && z.tx[t].rd == NoRead && k <= s.qp.last
    ensures IsSnapshot(s, z, t, r, k)
  {
    hide Basic, Inv;
    InvBasic(s);
    DerefView(s, a, z, t);
    if a == DerefCopy(t) {
      r := CopyAnswers(s, t);
    } else {
      r := MasterAnswers(s, t);
      MasterIsSnapshot(s, t);
    }
    hide Next, View, DerefVer, Newest;
    BeganLate(s, t);
    DerefRefinesSnapshot(s, r.o, s.tx[t].lclk, k);
  }

  lemma BeganLate(s: State, t: nat)
    requires Basic(s) && t < |s.tx| && InTx(s.tx[t].ph)
    ensures s.tx[t].lclk >= s.qp.qp0
  {
    LocalBasic(s, t);
  }

  lemma CopyAnswers(s: State, t: nat) returns (r: Ref)
    requires Basic(s) && CanDerefCopy(s, t) && DoDerefCopy(s, t).tx[t].rd == NoRead
    ensures HandsOut(s, DoDerefCopy(s, t), t, r) && View(DoDerefCopy(s, t)) == View(s) && r.loc.Copy?
    ensures r.v == Newest(View(s)[r.o], s.tx[t].lclk) && InTx(s.tx[t].ph)
    ensures Safe(s) ==> HoldsVersion(DoDerefCopy(s, t), r)
  {
    var rd, l := s.tx[t].rd, s.tx[t].lclk;
    r := Ref(rd.o, Copy(rd.i), rd.i);
    DerefHere(s, t);
    WrtClkDecides(s, rd.o, rd.i, l);
    LinkAt(s, rd.o, rd.i);
    DerefMove(s, t);
    assert View(DoDerefCopy(s, t)) == View(s);
    assert MemOf(s, s.tx[t]) || !Safe(s);
    hide Basic, Safe;
    assert LtClk(View(s)[rd.o][rd.i], l);
    NewestUnique(View(s)[rd.o], rd.i, Newest(View(s)[rd.o], l), l);
  }

  lemma MasterAnswers(s: State, t: nat) returns (r: Ref)
    requires Basic(s) && CanDerefMaster(s, t)
    ensures HandsOut(s, DoDerefMaster(s, t), t, r) && View(DoDerefMaster(s, t)) == View(s)
    ensures r == Ref(s.tx[t].rd.o, s.obj[s.tx[t].rd.o].cur, CurVer(s.ck, s.obj[s.tx[t].rd.o])) && !r.loc.Copy?
    ensures HoldsVersion(DoDerefMaster(s, t), r) && InTx(s.tx[t].ph)
  {
    var o, l := s.tx[t].rd.o, s.tx[t].lclk;
    r := Ref(o, s.obj[o].cur, CurVer(s.ck, s.obj[o]));
    LocalBasic(s, t);
    MasterIsLive(s, o, l);
    assert LinkOk(s.obj[o], View(s)[o]) && MasterShape(s, o);
    hide Basic;
    assert View(DoDerefMaster(s, t)) == View(s);
  }

  /** A walk that has fallen back to the master finds the snapshot's version there. */
  lemma MasterIsSnapshot(s: State, t: nat)
    requires Inv(s) && CanDerefMaster(s, t)
    ensures var o := s.tx[t].rd.o;
            o < |View(s)| && |View(s)[o]| >= 1 && CurVer(s.ck, s.obj[o]) == Newest(View(s)[o], s.tx[t].lclk)
  {
    hide Covers, Scans, Crash, Ops, Entries;
    var o, l := s.tx[t].rd.o, s.tx[t].lclk;
    Local(s, t);
    MasterSeen(s, o);
    assert ChainOk(s.obj[o], View(s)[o], Curs(s)[o]);
    NewestUnique(View(s)[o], Curs(s)[o], Newest(View(s)[o], l), l);
  }

  // ---------------------------------------------------------------- ts_try_lock

  /** The first test of ts_try_lock succeeds exactly for objects that nobody has locked
      and whose newest version the transaction sees. */
  lemma TryLockExact(s: State, t: nat, o: nat)
    requires Basic(s) && t < |s.tx| && s.tx[t].ph == Running && o < |s.obj|
    ensures o < |View(s)| && |View(s)[o]| >= 1
    ensures CanLockLook(s, t, o) <==> s.obj[o].lock.None? && Seen(View(s)[o], |View(s)[o]| - 1, s.tx[t].lclk)
  {
    hide Shapes, Entries, Walks, Gaps, BelowSeen, JobShapes, Detect, Ops;
    LocalBasic(s, t);
    var ob, c := s.obj[o], View(s)[o];
    assert LinkOk(ob, c) && MarksOld(ob, c, s.qp.qp0) && ObjOk(ob, o, s.ws);
    if ob.pcopy.Some? {
      var i := ob.pcopy.value;
      assert VerOk(ob, o, s.ws, i) && WsOk(s.obj, s.ws, ob.vers[i].w);
      assert c[i] == s.ws[ob.vers[i].w].pending;
    }
  }

  /** If nobody locks or changes the object in between, the attempt then succeeds. */
  lemma LookThenTake(s: State, t: nat, o: nat)
    requires Basic(s) && CanLockLook(s, t, o)
    ensures CanLockTake(DoLockLook(s, t, o), t) && DoLockLook(s, t, o).tx[t].look.o == o
  {
    hide Shapes, Entries, Walks, Gaps, BelowSeen, Detect, Ops, Links;
    LocalBasic(s, t);
  }

  /** A lock attempt that succeeds: the transaction holds the lock on a new copy of what it
      sees of the object, which is the newest version, and it holds the source of that copy
      until it ends. */
  lemma LockAnswers(s: State, t: nat)
    requires Basic(s) && CanLockTake(s, t)
    ensures var z, o := DoLockTake(s, t), s.tx[t].look.o;
            && HasWs(z, t) && |CurWs(z, t).items| > 0 && CurWs(z, t).t == t && o < |z.obj|
            && (s.tx[t].ws.Some? ==> z.tx[t].ws == s.tx[t].ws)
            && var items := CurWs(z, t).items; var it := items[|items| - 1];
               && it == Item(o, TopOf(s, o), 0) && z.obj[o].lock == Some(LockId(z.tx[t].ws.value, |items| - 1))
               && items == (if s.tx[t].ws.Some? then CurWs(s, t).items else []) + [it]
               && z.tx[t].refs == s.tx[t].refs + {LockSource(s, o, it.base)}
  {
    LockFresh(s, t);
    assert LogOk(t, s.tx[t], s.ws, s.log[t]) && TxOk(t, s.tx[t], s.ws, s.log[t]) by { LocalBasic(s, t); }
    hide Basic;
  }

  /** The version a lock attempt duplicates. */
  function TopOf(s: State, o: nat): nat
    requires o < |s.obj|
  {
    if s.obj[o].pcopy.Some? then s.obj[o].pcopy.value else CurVer(s.ck, s.obj[o])
  }

  /** That version is what the transaction sees of the object, and the newest there is. */
  lemma LockIsSnapshot(s: State, t: nat)
    requires Basic(s) && CanLockTake(s, t)
    ensures var z, o := DoLockTake(s, t), s.tx[t].look.o;
            && o < |View(z)| && |View(z)[o]| >= 1
            && Newest(View(z)[o], s.tx[t].lclk) == |View(z)[o]| - 1
            && (s.obj[o].pcopy.Some? || Inv(s) ==> TopOf(s, o) == |View(z)[o]| - 1)
  {
    hide Basic, Inv, Newest;
    var o := s.tx[t].look.o;
    LockFresh(s, t);
    LockTop(s, t);
    assert View(DoLockTake(s, t)) == View(s) by { LockTakeSide(s, t); }
    LockNewest(View(s)[o], s.tx[t].lclk);
    if Inv(s) { LockBase(s, t); }
    hide DoLockTake, CanLockTake, View;
  }

  lemma LockNewest(c: seq<Clk>, l: nat)
    requires |c| >= 1 && Seen(c, |c| - 1, l)
    ensures Newest(c, l) == |c| - 1
  {
  }

  /** The source of the duplication is still there. */
  lemma LockHolds(s: State, t: nat)
    requires Basic(s) && Safe(s) && CanLockTake(s, t)
    ensures HoldsVersion(DoLockTake(s, t), LockSource(s, s.tx[t].look.o, TopOf(s, s.tx[t].look.o)))
  {
    SourceSafe(s, t);
    LockTop(s, t);
    var z, o := DoLockTake(s, t), s.tx[t].look.o;
    assert MasterShape(s, o);
    hide Basic, Safe;
    assert z.obj[o] == s.obj[o].(lock := z.obj[o].lock) && z.ck == s.ck && |z.log| == |s.log|;
    assert forall u :: 0 <= u < |s.log| ==> z.log[u].head == s.log[u].head;
    assert forall w :: 0 <= w < |s.ws| ==> z.ws[w].t == s.ws[w].t && z.ws[w].pos == s.ws[w].pos;
  }

  // ---------------------------------------------------------------- who holds locks

  /** Every lock belongs to a copy in the current write set of some thread. */
  lemma LockOwner(s: State, o: nat)
    requires Basic(s) && o < |s.obj| && s.obj[o].lock.Some?
    ensures var l := s.obj[o].lock.value;
            && l.w < |s.ws| && s.ws[l.w].unl <= l.k < |s.ws[l.w].items| && s.ws[l.w].items[l.k].o == o
            && s.ws[l.w].t < |s.tx| && s.tx[s.ws[l.w].t].ws == Some(l.w)
            && s.tx[s.ws[l.w].t].ph in {Running, Installing, Stamped, Unlocking, Aborting}
  {
    hide Links, Shapes, Entries, Walks, Gaps, BelowSeen, Timing, Ops;
    var l := s.obj[o].lock.value;
    assert ObjOk(s.obj[o], o, s.ws) && Placed(s.tx, s.log, s.ws[l.w], l.w);
    assert TxOk(s.ws[l.w].t, s.tx[s.ws[l.w].t], s.ws, s.log[s.ws[l.w].t]);
  }

  /** Along every run: a thread that has committed, aborted or not begun holds no lock. */
  lemma IdleHoldsNothing(ss: seq<State>, acts: seq<Action>, n: nat, t: nat, o: nat)
    requires Run(ss, acts) && n < |ss| && t < |ss[n].tx| && o < |ss[n].obj|
    requires ss[n].tx[t].ph == Idle || ss[n].tx[t].ph == Begun
    ensures ss[n].obj[o].lock.Some? ==>
      ss[n].obj[o].lock.value.w < |ss[n].ws| && ss[n].ws[ss[n].obj[o].lock.value.w].t != t
  {
    hide Basic;
    RunBasic(ss, acts, n);
    if ss[n].obj[o].lock.Some? { LockOwner(ss[n], o); }
  }

  /** An abort that is over has given every lock of its write set back, and no version of
      the write set has been linked. */
  lemma AbortAnswers(s: State, t: nat)
    requires Basic(s) && CanAbortDone(s, t)
    ensures var z, w := DoAbortDone(s, t), s.tx[t].ws.value;
            && z.tx[t].ph == Idle && z.tx[t].ws.None? && z.tx[t].refs == {}
            && (forall o :: 0 <= o < |z.obj| && z.obj[o].lock.Some? ==> z.obj[o].lock.value.w != w)
            && (forall o, i :: 0 <= o < |z.obj| && 1 <= i < |z.obj[o].vers| ==> z.obj[o].vers[i].w != w)
  {
    hide Links, Shapes, Entries, Walks, Gaps, BelowSeen, Timing, Ops;
    var z, w := DoAbortDone(s, t), s.tx[t].ws.value;
    LocalBasic(s, t);
    AbortDoneLinear(s, t);
    forall o | 0 <= o < |z.obj| && z.obj[o].lock.Some? ensures z.obj[o].lock.value.w != w {
      assert ObjOk(s.obj[o], o, s.ws);
    }
    forall o, i | 0 <= o < |z.obj| && 1 <= i < |z.obj[o].vers| ensures z.obj[o].vers[i].w != w {
      assert ObjOk(s.obj[o], o, s.ws) && VerOk(s.obj[o], o, s.ws, i);
    }
  }

  /** A commit that is over has published its write set and logged its operation; every
      copy is a version with the write set's one clock, and no lock is left. */
  lemma CommitAnswers(s: State, t: nat)
    requires Basic(s) && CanTxEnd(s, t) && s.tx[t].ph == Unlocking
    ensures var z, w := DoTxEnd(s, t), s.tx[t].ws.value;
            && z.tx[t].ph == Idle && z.tx[t].ws.None? && z.tx[t].refs == {} && w < |z.ws|
            && z.ws[w].wrt.At? && z.ws[w].wrt == z.ws[w].pending && z.ws[w].wrt.c > z.tx[t].lclk
            && z.ws[w].op == Durable
            && (forall o :: 0 <= o < |z.obj| && z.obj[o].lock.Some? ==> z.obj[o].lock.value.w != w)
            && forall k :: 0 <= k < |z.ws[w].items| ==>
                 var it := z.ws[w].items[k];
                 && it.o < |z.obj| && 1 <= it.v < |z.obj[it.o].vers|
                 && z.obj[it.o].vers[it.v].w == w && z.obj[it.o].vers[it.v].raw == z.ws[w].wrt
  {
    hide Links, Shapes, Entries, Walks, Gaps, BelowSeen, Timing;
    var z, w := DoTxEnd(s, t), s.tx[t].ws.value;
    LocalBasic(s, t);
    assert WsOk(s.obj, s.ws, w) && OpOk(s.ws[w], s.qp.dlast);
    forall o | 0 <= o < |z.obj| && z.obj[o].lock.Some? ensures z.obj[o].lock.value.w != w {
      assert ObjOk(s.obj[o], o, s.ws);
    }
    forall k | 0 <= k < |s.ws[w].items|
      ensures var it := s.ws[w].items[k];
              it.o < |s.obj| && 1 <= it.v < |s.obj[it.o].vers|
              && s.obj[it.o].vers[it.v].w == w && s.obj[it.o].vers[it.v].raw == s.ws[w].wrt
    {
      var it := s.ws[w].items[k];
      assert ItemOk(s.obj, s.ws, w, k) && ObjOk(s.obj[it.o], it.o, s.ws) && VerOk(s.obj[it.o], it.o, s.ws, it.v);
    }
  }
}
