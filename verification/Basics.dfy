/** What holds along every run, whether or not writebacks throw masters away and copies
    are dropped too early: linear histories, chains, logs, grace periods and walks. This
    module proves it for the actions of application threads. */
module Basics {
  import opened Options
  import opened Ordo
  import opened Protocol
  import opened History
  import opened HistorySteps
  import opened Invariant
  import opened Growth

  predicate Linear(s: State) {
    && Hist(s.obj, s.ws) && Txs(s.tx, s.ws, s.log)
    && Clocks(s.hi, s.tx, s.ws, s.qp)
    && Gaps(View(s)) && BelowSeen(s.tx, View(s), s.ws)
  }

  predicate Timing(s: State) {
    Floor(s.tx, s.qp.qp0) && Detect(s.tx, s.qp) && Rounds(s.qp) && JobShapes(s)
  }

  predicate Basic(s: State) {
    && Linear(s) && Links(s.obj, View(s), s.qp.qp0)
    && Shapes(s) && Entries(View(s), s.ck, s.qp.qp0) && Ops(s.ws, s.qp.dlast)
    && Timing(s) && Walks(s.tx, View(s), s.qp.last)
  }

  // ---------------------------------------------------------------- views

  lemma ViewSame(s: State, z: State)
    requires Hist(s.obj, s.ws) && |z.obj| == |s.obj| && |z.ws| >= |s.ws|
    requires forall o :: 0 <= o < |s.obj| ==> |z.obj[o].vers| == |s.obj[o].vers|
    requires forall o, i :: 0 <= o < |s.obj| && 0 <= i < |s.obj[o].vers| ==>
      z.obj[o].vers[i].w == s.obj[o].vers[i].w
    requires forall w :: 0 <= w < |s.ws| ==> z.ws[w].pending == s.ws[w].pending
    ensures View(z) == View(s)
  {
    forall o | 0 <= o < |s.obj| ensures Stamps(z.ws, z.obj[o]) == Stamps(s.ws, s.obj[o]) {
      assert ObjOk(s.obj[o], o, s.ws);
      forall i | 0 <= i < |s.obj[o].vers|
        ensures CommitClk(z.ws, z.obj[o], i) == CommitClk(s.ws, s.obj[o], i)
      {
        assert i >= 1 ==> VerOk(s.obj[o], o, s.ws, i);
      }
    }
  }

  lemma GrowsSame(v: seq<seq<Clk>>, hi: nat)
    ensures Grows(v, v, hi)
  {
  }

  /** What every transaction-side step inherits. */
  lemma SideBasic(s: State, z: State)
    requires Basic(s) && TxSide(s, z) && Grows(View(s), View(z), s.hi)
    ensures Rounds(z.qp) && JobShapes(z) && Shapes(z) && Entries(View(z), z.ck, z.qp.qp0)
    ensures Marks(s) ==> Marks(z)
  {
    forall t | 0 <= t < |s.log| ensures s.log[t].prev <= |s.log[t].ids| {
      assert LogOk(t, s.tx[t], s.ws, s.log[t]);
    }
    ShapesGrow(s, z);
    EntriesGrow(View(s), View(z), s.hi, s.ck, s.qp.qp0);
    if Marks(s) { MarksGrow(s, z); }
    JobShapesGrow(s, z);
  }

  /** What holds of a thread. */
  lemma LocalBasic(s: State, t: nat)
    requires Basic(s) && t < |s.tx|
    ensures TxOk(t, s.tx[t], s.ws, s.log[t]) && LogOk(t, s.tx[t], s.ws, s.log[t])
    ensures BelowSeenBy(s.tx[t], View(s), s.ws) && WalkOk(s.tx[t], View(s), s.qp.last)
    ensures s.tx[t].lclk <= s.tx[t].last <= s.hi
    ensures InTx(s.tx[t].ph) ==> s.tx[t].lclk >= s.qp.qp0
    ensures s.tx[t].ws.Some? ==> s.tx[t].ws.value < |s.ws| && WsOk(s.obj, s.ws, s.tx[t].ws.value)
  {
  }

  /** What holds of a chain. */
  lemma LinkAt(s: State, o: nat, i: nat)
    requires Basic(s) && o < |s.obj| && 1 <= i < |s.obj[o].vers|
    ensures o < |View(s)| && |View(s)[o]| == |s.obj[o].vers| && GapsOf(View(s)[o])
    ensures HeadOk(s.obj[o], View(s)[o]) && LinkVer(s.obj[o], View(s)[o], i)
    ensures s.obj[o].vers[i].detached ==> LtClk(View(s)[o][i], s.qp.qp0)
  {
    assert LinkOk(s.obj[o], View(s)[o]) && MarksOld(s.obj[o], View(s)[o], s.qp.qp0);
  }

  /** Whatever was committed before the grace-period clock is published and
      completely unlocked. */
  lemma Settled(s: State, o: nat, i: nat)
    requires Linear(s) && Floor(s.tx, s.qp.qp0)
    requires o < |s.obj| && 1 <= i < |View(s)[o]| && LtClk(View(s)[o][i], s.qp.qp0)
    ensures s.obj[o].vers[i].raw == View(s)[o][i] && Published(s, o, i)
    ensures s.obj[o].vers[i].w < |s.ws| && s.ws[s.obj[o].vers[i].w].wrt == View(s)[o][i]
  {
    assert ObjOk(s.obj[o], o, s.ws) && VerOk(s.obj[o], o, s.ws, i);
    var w := s.obj[o].vers[i].w;
    assert WsOk(s.obj, s.ws, w) && Placed(s.tx, s.log, s.ws[w], w);
    var t := s.ws[w].t;
    assert TxOk(t, s.tx[t], s.ws, s.log[t]);
    assert LogOk(t, s.tx[t], s.ws, s.log[t]) && LogEntryOk(t, s.tx[t], s.ws, s.log[t], s.ws[w].pos);
  }

  lemma EntryKnown(s: State, k: nat, e: nat)
    requires Basic(s) && k < |s.ck| && e < |s.ck[k].ents|
    ensures EntryOk(View(s), s.ck[k].ents[e], s.qp.qp0) && EntryShape(s, s.ck[k].ents[e])
  {
  }

  // ---------------------------------------------------------------- steps inside one thread

  /** A step that changes nothing but thread t's own transaction state. */
  lemma OwnBasic(s: State, t: nat, x: Tx, hi: nat)
    requires Basic(s) && t < |s.tx| && hi >= s.hi && x.last <= hi
    requires Txs(s.tx[t := x], s.ws, s.log) && BelowSeenBy(x, View(s), s.ws)
    requires InTx(x.ph) ==> x.lclk >= s.qp.qp0
    requires Late(x, s.qp.clk) || (x.run == s.tx[t].run && x.lclk == s.tx[t].lclk && InTx(s.tx[t].ph))
    requires WalkOk(x, View(s), s.qp.last)
    ensures Basic(s.(hi := hi, tx := s.tx[t := x]))
    ensures Marks(s) ==> Marks(s.(hi := hi, tx := s.tx[t := x]))
  {
    hide Marks, Entries, Shapes, JobShapes;
    var z := s.(hi := hi, tx := s.tx[t := x]);
    assert forall o, i :: 0 <= o < |s.obj| && 1 <= i < |s.obj[o].vers| ==>
      (Linked(s.obj[o], i) <==> Linked(s.obj[o], i));
    ViewSame(s, z);
    GrowsSame(View(s), s.hi);
    SideBasic(s, z);
    forall u | 0 <= u < |z.tx| ensures BelowSeenBy(z.tx[u], View(z), z.ws) && WalkOk(z.tx[u], View(z), z.qp.last) {
      assert BelowSeenBy(s.tx[u], View(s), s.ws) && WalkOk(s.tx[u], View(s), s.qp.last);
    }
    DetectStep(s.tx, s.qp, t, x);
  }

  lemma DetectStep(tx: seq<Tx>, qp: Qp, t: nat, x: Tx)
    requires Detect(tx, qp) && t < |tx|
    requires Late(x, qp.clk) || (x.run == tx[t].run && x.lclk == tx[t].lclk && InTx(tx[t].ph))
    ensures Detect(tx[t := x], qp)
  {
  }

  lemma BeginCountBasic(s: State, t: nat)
    requires Basic(s) && CanBeginCount(s, t)
    ensures Basic(DoBeginCount(s, t))
    ensures Marks(s) ==> Marks(DoBeginCount(s, t))
  {
    LocalBasic(s, t);
    var x := DoBeginCount(s, t).tx[t];
    TxStep(s.tx, s.ws, s.log, t, x);
    OwnBasic(s, t, x, s.hi);
  }

  lemma BeginClockBasic(s: State, t: nat, c: nat)
    requires Basic(s) && CanBeginClock(s, t, c)
    ensures Basic(DoBeginClock(s, t, c))
    ensures Marks(s) ==> Marks(DoBeginClock(s, t, c))
  {
    LocalBasic(s, t);
    var x := DoBeginClock(s, t, c).tx[t];
    TxStep(s.tx, s.ws, s.log, t, x);
    OwnBasic(s, t, x, Newer(s.hi, c));
  }

  lemma DerefBeginBasic(s: State, t: nat, o: nat)
    requires Basic(s) && CanDerefBegin(s, t, o)
    ensures Basic(DoDerefBegin(s, t, o))
    ensures Marks(s) ==> Marks(DoDerefBegin(s, t, o))
  {
    LocalBasic(s, t);
    assert LinkOk(s.obj[o], View(s)[o]);
    var x := DoDerefBegin(s, t, o).tx[t];
    TxStep(s.tx, s.ws, s.log, t, x);
    OwnBasic(s, t, x, s.hi);
  }

  /** get_wrt_clk, once it returns, tells whether a version is in the snapshot. */
  lemma WrtClkDecides(s: State, o: nat, i: nat, l: nat)
    requires Hist(s.obj, s.ws) && o < |s.obj| && 1 <= i < |s.obj[o].vers|
    requires var v := s.obj[o].vers[i]; v.w < |s.ws| && WrtReady(v, s.ws[v.w], l)
    ensures var v := s.obj[o].vers[i];
            LtClk(GetWrtClk(v, s.ws[v.w], l), l) <==> LtClk(View(s)[o][i], l)
  {
    assert ObjOk(s.obj[o], o, s.ws) && VerOk(s.obj[o], o, s.ws, i);
    var w := s.obj[o].vers[i].w;
    assert WsOk(s.obj, s.ws, w);
    assert View(s)[o][i] == s.ws[w].pending;
  }

  lemma DerefCopyWalk(s: State, t: nat)
    requires Basic(s) && CanDerefCopy(s, t)
    ensures s.tx[t].ph == Running && 1 <= s.tx[t].rd.i && s.tx[t].rd.o < |View(s)|
    ensures WalkOk(DoDerefCopy(s, t).tx[t], View(s), s.qp.last)
  {
    var rd, l, x := s.tx[t].rd, s.tx[t].lclk, DoDerefCopy(s, t).tx[t];
    DerefHere(s, t);
    WrtClkDecides(s, rd.o, rd.i, l);
    NextBelow(s, rd.o, rd.i);
    DerefMove(s, t);
    hide *;
    WalkMoves(s.tx[t], x.rd, x.refs, View(s), s.qp.last);
  }

  lemma NextBelow(s: State, o: nat, i: nat)
    requires Basic(s) && o < |s.obj| && 1 <= i < |s.obj[o].vers|
    ensures s.obj[o].vers[i].next.Some? ==> s.obj[o].vers[i].next.value == i - 1 >= 1
  {
    LinkAt(s, o, i);
  }

  lemma DerefMove(s: State, t: nat)
    requires CanDerefCopy(s, t)
    ensures var rd, x := s.tx[t].rd, DoDerefCopy(s, t).tx[t];
            var v := s.obj[rd.o].vers[rd.i];
            var seen := LtClk(GetWrtClk(v, s.ws[v.w], x.lclk), x.lclk);
            && x == s.tx[t].(rd := x.rd, refs := x.refs)
            && x.refs == (if seen then s.tx[t].refs + {Ref(rd.o, Copy(rd.i), rd.i)} else s.tx[t].refs)
            && (x.rd == NoRead || (!seen && x.rd == AtMaster(rd.o))
                || (!seen && v.next.Some? && x.rd == AtCopy(rd.o, v.next.value, rd.ckpt)))
  {
  }

  predicate WalkAt(rd: Read, view: seq<seq<Clk>>, l: nat, last: nat) {
    && (rd.AtMaster? ==> rd.o < |view|)
    && (rd.AtCopy? ==> rd.o < |view| && 1 <= rd.i < |view[rd.o]| && NoneAfter(view[rd.o], rd.i, l) && rd.ckpt <= last)
  }

  /** A walk either stops at the version it has shown to be in the snapshot, or goes on
      below one that is not, or turns to the master. */
  lemma WalkMoves(x: Tx, rd: Read, refs: set<Ref>, view: seq<seq<Clk>>, last: nat)
    requires x.ph == Running && x.rd.AtCopy? && WalkOk(x, view, last) && WalkAt(x.rd, view, x.lclk, last)
    requires var seen := LtClk(view[x.rd.o][x.rd.i], x.lclk);
             && refs == (if seen then x.refs + {Ref(x.rd.o, Copy(x.rd.i), x.rd.i)} else x.refs)
             && (rd == NoRead || rd == AtMaster(x.rd.o)
                 || (!seen && x.rd.i >= 2 && rd == AtCopy(x.rd.o, x.rd.i - 1, x.rd.ckpt)))
    ensures WalkOk(x.(rd := rd, refs := refs), view, last)
  {
  }

  lemma DerefHere(s: State, t: nat)
    requires Basic(s) && CanDerefCopy(s, t)
    ensures s.tx[t].ph == Running && Hist(s.obj, s.ws) && WalkOk(s.tx[t], View(s), s.qp.last)
    ensures WalkAt(s.tx[t].rd, View(s), s.tx[t].lclk, s.qp.last)
  {
    LocalBasic(s, t);
  }

  lemma DerefCopyBasic(s: State, t: nat)
    requires Basic(s) && CanDerefCopy(s, t)
    ensures Basic(DoDerefCopy(s, t))
    ensures Marks(s) ==> Marks(DoDerefCopy(s, t))
  {
    hide Links, Shapes, Entries, Gaps, JobShapes, Detect, Marks, Walks, WalkOk, Hist;
    LocalBasic(s, t);
    DerefCopyWalk(s, t);
    var x := DoDerefCopy(s, t).tx[t];
    TxStep(s.tx, s.ws, s.log, t, x);
    OwnBasic(s, t, x, s.hi);
  }

  lemma DerefMasterBasic(s: State, t: nat)
    requires Basic(s) && CanDerefMaster(s, t)
    ensures Basic(DoDerefMaster(s, t))
    ensures Marks(s) ==> Marks(DoDerefMaster(s, t))
  {
    LocalBasic(s, t);
    assert MasterShape(s, s.tx[t].rd.o);
    var x := DoDerefMaster(s, t).tx[t];
    TxStep(s.tx, s.ws, s.log, t, x);
    OwnBasic(s, t, x, s.hi);
  }

  lemma LockLookBasic(s: State, t: nat, o: nat)
    requires Basic(s) && CanLockLook(s, t, o)
    ensures Basic(DoLockLook(s, t, o))
    ensures Marks(s) ==> Marks(DoLockLook(s, t, o))
  {
    LocalBasic(s, t);
    assert LinkOk(s.obj[o], View(s)[o]);
    if s.obj[o].pcopy.Some? {
      WrtClkDecides(s, o, s.obj[o].pcopy.value, s.tx[t].lclk);
    }
    var x := DoLockLook(s, t, o).tx[t];
    TxStep(s.tx, s.ws, s.log, t, x);
    OwnBasic(s, t, x, s.hi);
  }

  lemma CommitBeginBasic(s: State, t: nat)
    requires Basic(s) && CanCommitBegin(s, t)
    ensures Basic(DoCommitBegin(s, t))
    ensures Marks(s) ==> Marks(DoCommitBegin(s, t))
  {
    LocalBasic(s, t);
    var x := DoCommitBegin(s, t).tx[t];
    TxStep(s.tx, s.ws, s.log, t, x);
    OwnBasic(s, t, x, s.hi);
  }

  lemma TxEndBasic(s: State, t: nat)
    requires Basic(s) && CanTxEnd(s, t)
    ensures Basic(DoTxEnd(s, t))
    ensures Marks(s) ==> Marks(DoTxEnd(s, t))
  {
    LocalBasic(s, t);
    var x := DoTxEnd(s, t).tx[t];
    EndStep(s.tx, s.ws, s.log, t, x);
    OwnBasic(s, t, x, s.hi);
  }

  lemma AbortBasic(s: State, t: nat)
    requires Basic(s) && CanAbort(s, t)
    ensures Basic(DoAbort(s, t))
    ensures Marks(s) ==> Marks(DoAbort(s, t))
  {
    LocalBasic(s, t);
    var x := DoAbort(s, t).tx[t];
    TxStep(s.tx, s.ws, s.log, t, x);
    OwnBasic(s, t, x, s.hi);
  }

  // ---------------------------------------------------------------- locking and committing

  /** A step on thread t's write set, inside its transaction. */
  lemma SideStepBasic(s: State, z: State, t: nat)
    requires Basic(s) && TxSide(s, z) && Grows(View(s), View(z), s.hi) && t < |s.tx|
    requires z.tx == s.tx[t := z.tx[t]]
    requires Linear(z) && Links(z.obj, View(z), z.qp.qp0) && Ops(z.ws, z.qp.dlast)
    requires z.tx[t].run == s.tx[t].run && z.tx[t].lclk == s.tx[t].lclk
    requires z.tx[t].rd == s.tx[t].rd
    requires forall r :: r in z.tx[t].refs ==>
      r in s.tx[t].refs || (r.o < |View(z)| && (r.loc.Copy? ==> RefOk(r, View(z), z.tx[t].lclk)))
    requires InTx(z.tx[t].ph) ==> InTx(s.tx[t].ph)
    requires z.tx[t].ph == Running ==> s.tx[t].ph == Running && z.tx[t].look == NoLook
    ensures Basic(z)
    ensures Marks(s) ==> Marks(z)
  {
    hide Marks, Entries, Shapes, JobShapes, Links, Ops, BelowSeen, Hist, Gaps;
    SideBasic(s, z);
    hide TxSide;
    forall u | 0 <= u < |z.tx| ensures WalkOk(z.tx[u], View(z), z.qp.last) {
      LocalBasic(s, u);
      WalkGrow(s.tx[u], View(s), View(z), s.hi, s.qp.last);
    }
    LocalBasic(s, t);
    SideDetect(s.tx, s.qp, t, z.tx[t]);
  }

  lemma SideDetect(tx: seq<Tx>, qp: Qp, t: nat, x: Tx)
    requires Detect(tx, qp) && t < |tx| && x.run == tx[t].run && x.lclk == tx[t].lclk
    requires InTx(x.ph) ==> InTx(tx[t].ph)
    ensures Detect(tx[t := x], qp)
  {
  }

  /** Only thread t's own write set can be the current one of thread t. */
  lemma OtherWs(s: State, t: nat, u: nat)
    requires Txs(s.tx, s.ws, s.log) && t < |s.tx| && u < |s.tx| && t != u && s.tx[t].ws.Some?
    ensures s.tx[t].ws.value < |s.ws| && s.tx[u].ws != s.tx[t].ws
    ensures s.tx[u].ws.Some? ==> s.tx[u].ws.value < |s.ws|
  {
    assert TxOk(t, s.tx[t], s.ws, s.log[t]) && TxOk(u, s.tx[u], s.ws, s.log[u]);
  }

  /** The version a new lock is on: nobody is committing the object, and the newest
      version is in the transaction's snapshot. */
  lemma LockTop(s: State, t: nat)
    requires Basic(s) && CanLockTake(s, t)
    ensures var o := s.tx[t].look.o;
            && o < |View(s)| && |View(s)[o]| == |s.obj[o].vers| >= 1
            && Seen(View(s)[o], |s.obj[o].vers| - 1, s.tx[t].lclk)
            && (s.obj[o].pcopy.Some? ==> s.obj[o].pcopy.value == |s.obj[o].vers| - 1 >= 1)
  {
    LocalBasic(s, t);
    var o := s.tx[t].look.o;
    assert LinkOk(s.obj[o], View(s)[o]) && MarksOld(s.obj[o], View(s)[o], s.qp.qp0);
  }

  lemma LockTakeTxs(s: State, t: nat)
    requires Basic(s) && CanLockTake(s, t)
    ensures var z := DoLockTake(s, t); Txs(z.tx, z.ws, z.log)
  {
    LocalBasic(s, t);
    var z := DoLockTake(s, t);
    match s.tx[t].ws
    case Some(w) => WsStep(s.tx, s.ws, s.log, t, z.tx[t], w, z.ws[w]);
    case None => NewWsStep(s.tx, s.ws, s.log, t, z.tx[t], z.ws[|s.ws|]);
  }

  lemma LockTakeSide(s: State, t: nat)
    requires Hist(s.obj, s.ws) && CanLockTake(s, t)
    requires s.tx[t].ws.Some? ==> s.ws[s.tx[t].ws.value].wrt.Max?
    ensures TxSide(s, DoLockTake(s, t)) && View(DoLockTake(s, t)) == View(s)
  {
    ViewSame(s, DoLockTake(s, t));
  }

  lemma LockTakeSeen(s: State, t: nat)
    requires Txs(s.tx, s.ws, s.log) && BelowSeen(s.tx, View(s), s.ws) && CanLockTake(s, t)
    requires s.tx[t].ws.Some? ==> s.ws[s.tx[t].ws.value].inst == 0
    requires var o := s.tx[t].look.o; |View(s)[o]| >= 1 && Seen(View(s)[o], |View(s)[o]| - 1, s.tx[t].lclk)
    ensures BelowSeen(DoLockTake(s, t).tx, View(s), DoLockTake(s, t).ws)
  {
    var z := DoLockTake(s, t);
    forall u | 0 <= u < |z.tx| ensures BelowSeenBy(z.tx[u], View(s), z.ws) {
      assert BelowSeenBy(s.tx[u], View(s), s.ws) && TxOk(u, s.tx[u], s.ws, s.log[u]);
      if u != t && s.tx[t].ws.Some? { OtherWs(s, t, u); }
      if z.tx[u].ph in {Running, Installing} && z.tx[u].ws.Some? {
        var w := z.tx[u].ws.value;
        forall k | 0 <= k < |z.ws[w].items| ensures UnderSeen(View(s), z.ws[w], k, z.tx[u].lclk) {
          assert w < |s.ws| && k < |s.ws[w].items| ==> UnderSeen(View(s), s.ws[w], k, s.tx[u].lclk);
        }
      }
    }
  }

  /** A chain does not depend on who holds the object's lock. */
  lemma LinksLock(obj: seq<Obj>, view: seq<seq<Clk>>, qp0: nat, o: nat, l: Option<LockId>)
    requires Links(obj, view, qp0) && o < |obj|
    ensures Links(obj[o := obj[o].(lock := l)], view, qp0)
  {
    var zo := obj[o := obj[o].(lock := l)];
    forall p | 0 <= p < |zo| ensures LinkOk(zo[p], view[p]) && MarksOld(zo[p], view[p], qp0) {
      assert LinkOk(obj[p], view[p]) && MarksOld(obj[p], view[p], qp0);
      forall i | 1 <= i < |view[p]| ensures LinkVer(zo[p], view[p], i) {
        assert LinkVer(obj[p], view[p], i);
      }
    }
  }

  /** What is duplicated is the newest version, or lies in the master. */
  lemma SourceWalk(s: State, t: nat, base: nat)
    requires Basic(s) && CanLockTake(s, t)
    requires s.obj[s.tx[t].look.o].pcopy.Some? ==> base == s.obj[s.tx[t].look.o].pcopy.value
    ensures var r := LockSource(s, s.tx[t].look.o, base);
            r.o < |View(s)| && (r.loc.Copy? ==> RefOk(r, View(s), s.tx[t].lclk))
  {
    LockTop(s, t);
    assert MasterShape(s, s.tx[t].look.o);
  }

  lemma LockTakeLinear(s: State, t: nat)
    requires Basic(s) && CanLockTake(s, t)
    ensures Linear(DoLockTake(s, t)) && View(DoLockTake(s, t)) == View(s)
  {
    hide Shapes, Entries, Marks, Timing, Gaps, Links, Walks, Ops;
    var z := DoLockTake(s, t);
    LockFresh(s, t);
    assert Hist(z.obj, z.ws) by {
      LockTakeObjs(s, t);
      LockTakeItems(s, t);
    }
    assert Txs(z.tx, z.ws, z.log) by { LockTakeTxs(s, t); }
    assert View(z) == View(s) by { LockTakeSide(s, t); }
    assert BelowSeen(z.tx, View(s), z.ws) by {
      LockTop(s, t);
      LockTakeSeen(s, t);
    }
    hide Hist, Txs, BelowSeen;
  }

  lemma LockTakeBasic(s: State, t: nat)
    requires Basic(s) && CanLockTake(s, t)
    ensures Basic(DoLockTake(s, t))
    ensures Marks(s) ==> Marks(DoLockTake(s, t))
  {
    hide Shapes, Entries, Marks, Timing, Linear, Links, Walks;
    var z, o := DoLockTake(s, t), s.tx[t].look.o;
    assert Hist(s.obj, s.ws) && (s.tx[t].ws.Some? ==> s.ws[s.tx[t].ws.value].wrt.Max?) by { LockFresh(s, t); }
    LockTakeLinear(s, t);
    LockTakeSide(s, t);
    GrowsSame(View(s), s.hi);
    LinksLock(s.obj, View(s), s.qp.qp0, o, z.obj[o].lock);
    SourceWalk(s, t, if s.obj[o].pcopy.Some? then s.obj[o].pcopy.value else CurVer(s.ck, s.obj[o]));
    SideStepBasic(s, z, t);
  }

  lemma LockFresh(s: State, t: nat)
    requires Basic(s) && CanLockTake(s, t)
    ensures Hist(s.obj, s.ws) && (s.tx[t].ws.Some? ==> Fresh(s.ws[s.tx[t].ws.value]))
  {
    LocalBasic(s, t);
  }

  // ---- linking a copy into its chain

  /** The object being linked: its newest version is unlocked and stamped. */
  lemma InstallReady(s: State, t: nat)
    requires Basic(s) && CanCommitInstall(s, t)
    ensures CurWs(s, t).unl == 0 && CurWs(s, t).pending.Max? && CurWs(s, t).wrt.Max?
    ensures var o := CurWs(s, t).items[CurWs(s, t).inst].o;
            && o < |View(s)| && |View(s)[o]| == |s.obj[o].vers| >= 1
            && (|s.obj[o].vers| >= 2 ==> s.obj[o].vers[|s.obj[o].vers| - 1].raw.At?)
            && LinkOk(s.obj[o], View(s)[o])
  {
    LocalBasic(s, t);
    var w := s.tx[t].ws.value;
    var k := s.ws[w].inst;
    var o := s.ws[w].items[k].o;
    assert ItemOk(s.obj, s.ws, w, k) && ObjOk(s.obj[o], o, s.ws);
    var n := |s.obj[o].vers|;
    if n >= 2 {
      assert VerOk(s.obj[o], o, s.ws, n - 1);
      assert WsOk(s.obj, s.ws, s.obj[o].vers[n - 1].w);
    }
  }

  lemma InstallView(s: State, t: nat)
    requires Hist(s.obj, s.ws) && CanCommitInstall(s, t) && CurWs(s, t).pending.Max?
    ensures var o := CurWs(s, t).items[CurWs(s, t).inst].o;
            View(DoCommitInstall(s, t)) == View(s)[o := View(s)[o] + [Max]]
  {
    var z := DoCommitInstall(s, t);
    var o := CurWs(s, t).items[CurWs(s, t).inst].o;
    forall p | 0 <= p < |s.obj|
      ensures Stamps(z.ws, z.obj[p]) == if p == o then Stamps(s.ws, s.obj[p]) + [Max] else Stamps(s.ws, s.obj[p])
    {
      assert ObjOk(s.obj[p], p, s.ws);
      forall i | 0 <= i < |s.obj[p].vers|
        ensures CommitClk(z.ws, z.obj[p], i) == CommitClk(s.ws, s.obj[p], i)
      {
        assert i >= 1 ==> VerOk(s.obj[p], p, s.ws, i);
      }
    }
  }

  function Installed(ob: Obj, w: nat, k: nat): Obj
    requires ob.pcopy.Some? ==> ob.pcopy.value < |ob.vers|
  {
    ob.(vers := ob.vers + [NewVer(ob, w, k)], pcopy := Some(|ob.vers|))
  }

  lemma InstallLink(ob: Obj, c: seq<Clk>, w: nat, k: nat)
    requires LinkOk(ob, c) && (|c| >= 2 ==> ob.vers[|c| - 1].raw.At?)
    ensures LinkOk(Installed(ob, w, k), c + [Max])
  {
    var x, d := Installed(ob, w, k), c + [Max];
    forall i | 1 <= i < |d| ensures LinkVer(x, d, i) {
      assert i < |c| ==> LinkVer(ob, c, i);
      assert i == |c| && |c| >= 2 ==> LinkVer(ob, c, i - 1);
    }
  }

  lemma InstallLinks(s: State, t: nat)
    requires Basic(s) && CanCommitInstall(s, t)
    ensures var z := DoCommitInstall(s, t); Links(z.obj, View(z), z.qp.qp0) && Grows(View(s), View(z), s.hi)
  {
    hide Shapes, Entries, Marks, Timing, Walks, BelowSeen, Gaps, Txs, LinkVer;
    var z := DoCommitInstall(s, t);
    InstallReady(s, t);
    InstallView(s, t);
    var o := CurWs(s, t).items[CurWs(s, t).inst].o;
    InstallLink(s.obj[o], View(s)[o], s.tx[t].ws.value, CurWs(s, t).inst);
    forall p | 0 <= p < |z.obj| ensures LinkOk(z.obj[p], View(z)[p]) && MarksOld(z.obj[p], View(z)[p], z.qp.qp0) {
      assert LinkOk(s.obj[p], View(s)[p]) && MarksOld(s.obj[p], View(s)[p], s.qp.qp0);
    }
  }

  lemma InstallSide(s: State, t: nat)
    requires CanCommitInstall(s, t) && CurWs(s, t).wrt.Max?
    requires var ob := s.obj[CurWs(s, t).items[CurWs(s, t).inst].o];
             (ob.pcopy.Some? ==> ob.pcopy.value == |ob.vers| - 1) && |ob.vers| >= 1
    ensures TxSide(s, DoCommitInstall(s, t))
  {
  }

  /** A copy waiting to be linked is the only one of its object. */
  lemma InstallSeen(s: State, t: nat)
    requires Basic(s) && CanCommitInstall(s, t)
    requires View(DoCommitInstall(s, t))
             == var o := CurWs(s, t).items[CurWs(s, t).inst].o; View(s)[o := View(s)[o] + [Max]]
    ensures var z := DoCommitInstall(s, t); BelowSeen(z.tx, View(z), z.ws)
  {
    hide Shapes, Entries, Marks, Timing, Walks, Gaps, Links, Clocks;
    var z := DoCommitInstall(s, t);
    forall u | 0 <= u < |z.tx| && z.tx[u].ph in {Running, Installing} && z.tx[u].ws.Some? && z.tx[u].ws.value < |z.ws|
      ensures BelowSeenBy(z.tx[u], View(z), z.ws)
    {
      var w := z.tx[u].ws.value;
      forall k | 0 <= k < |z.ws[w].items| ensures UnderSeen(View(z), z.ws[w], k, z.tx[u].lclk) {
        InstallUnder(s, t, u, k);
      }
    }
  }

  lemma InstallUnder(s: State, t: nat, u: nat, k: nat)
    requires Basic(s) && CanCommitInstall(s, t) && u < |s.tx| && s.tx[u].ph in {Running, Installing}
    requires s.tx[u].ws.Some? && s.tx[u].ws.value < |s.ws| && k < |s.ws[s.tx[u].ws.value].items|
    requires View(DoCommitInstall(s, t))
             == var o := CurWs(s, t).items[CurWs(s, t).inst].o; View(s)[o := View(s)[o] + [Max]]
    ensures var z := DoCommitInstall(s, t);
            UnderSeen(View(z), z.ws[s.tx[u].ws.value], k, s.tx[u].lclk)
  {
    hide Shapes, Entries, Marks, Timing, Walks, Gaps, Links, Clocks;
    var w := s.tx[u].ws.value;
    LocalBasic(s, u);
    LocalBasic(s, t);
    if u != t { OtherWs(s, t, u); }
    assert ItemOk(s.obj, s.ws, w, k) && ItemOk(s.obj, s.ws, s.tx[t].ws.value, CurWs(s, t).inst);
    assert UnderSeen(View(s), s.ws[w], k, s.tx[u].lclk);
    assert ObjOk(s.obj[s.ws[w].items[k].o], s.ws[w].items[k].o, s.ws);
  }

  lemma InstallLinear(s: State, t: nat)
    requires Basic(s) && CanCommitInstall(s, t)
    ensures Linear(DoCommitInstall(s, t))
  {
    hide Shapes, Entries, Marks, Timing, Walks, Links;
    var z := DoCommitInstall(s, t);
    var w := s.tx[t].ws.value;
    LocalBasic(s, t);
    InstallReady(s, t);
    InstallView(s, t);
    assert Hist(z.obj, z.ws) by {
      InstallObjs(s, t);
      InstallItems(s, t);
    }
    WsStep(s.tx, s.ws, s.log, t, s.tx[t], w, z.ws[w]);
    assert z.tx == s.tx[t := s.tx[t]];
    InstallSeen(s, t);
  }

  lemma CommitInstallBasic(s: State, t: nat)
    requires Basic(s) && CanCommitInstall(s, t)
    ensures Basic(DoCommitInstall(s, t))
    ensures Marks(s) ==> Marks(DoCommitInstall(s, t))
  {
    hide Shapes, Entries, Marks, Timing, Walks, Links, Linear;
    var z := DoCommitInstall(s, t);
    InstallReady(s, t);
    InstallLinks(s, t);
    InstallLinear(s, t);
    InstallSide(s, t);
    assert z.tx == s.tx[t := s.tx[t]];
    SideStepBasic(s, z, t);
  }

  // ---- stamping a write set

  /** Object o's newest version is a copy of the write set being stamped. */
  predicate StampedNow(ob: Obj, o: nat, w: Ws, c: seq<Clk>, d: seq<Clk>, clk: nat) {
    && |c| == |ob.vers| >= 2 && ob.vers[|c| - 1].raw.Max? && c[|c| - 1].Max?
    && d == c[|c| - 1 := At(clk)]
    && exists k :: 0 <= k < |w.items| && w.items[k].o == o && w.items[k].v == |c| - 1
  }

  /** The stamp reaches exactly the versions of the write set, each the newest. */
  lemma StampView(s: State, t: nat, c: nat)
    requires Hist(s.obj, s.ws) && CanCommitStamp(s, t, c) && CurWs(s, t).pending.Max? && CurWs(s, t).unl == 0
    ensures var z := DoCommitStamp(s, t, c);
            |View(z)| == |View(s)| && forall o :: 0 <= o < |s.obj| ==>
              View(z)[o] == View(s)[o] || StampedNow(s.obj[o], o, CurWs(s, t), View(s)[o], View(z)[o], c)
  {
    var z := DoCommitStamp(s, t, c);
    var w := s.tx[t].ws.value;
    forall o | 0 <= o < |s.obj|
      ensures View(z)[o] == View(s)[o] || StampedNow(s.obj[o], o, s.ws[w], View(s)[o], View(z)[o], c)
    {
      assert ObjOk(s.obj[o], o, s.ws);
      var n := |s.obj[o].vers|;
      forall i | 0 <= i < n
        ensures View(z)[o][i] == View(s)[o][i]
                || (i == n - 1 >= 1 && s.obj[o].vers[i].w == w && View(s)[o][i].Max? && View(z)[o][i] == At(c))
      {
        assert i >= 1 ==> VerOk(s.obj[o], o, s.ws, i);
      }
      if n >= 2 && s.obj[o].vers[n - 1].w == w {
        assert VerOk(s.obj[o], o, s.ws, n - 1);
        assert s.ws[w].items[s.obj[o].vers[n - 1].k].v == n - 1;
        assert View(z)[o] == View(s)[o][n - 1 := At(c)];
      } else {
        assert View(z)[o] == View(s)[o];
      }
    }
  }

  lemma StampGrows(s: State, t: nat, c: nat)
    requires Hist(s.obj, s.ws) && CanCommitStamp(s, t, c) && CurWs(s, t).pending.Max? && CurWs(s, t).unl == 0
    ensures Grows(View(s), View(DoCommitStamp(s, t, c)), s.hi)
  {
    StampView(s, t, c);
    var v, z := View(s), View(DoCommitStamp(s, t, c));
    forall o | 0 <= o < |v| ensures GrowsOf(v[o], z[o], s.hi) {
      assert v[o] == z[o] || StampedNow(s.obj[o], o, CurWs(s, t), v[o], z[o], c);
    }
  }

  /** The new commit clock keeps its distance from the version below. */
  lemma StampGap(c: seq<Clk>, clk: nat, l: nat)
    requires GapsOf(c) && |c| >= 2 && Seen(c, |c| - 2, l) && Gt(clk, l + ORDO_BOUNDARY)
    requires forall i :: 1 <= i < |c| - 1 ==> c[i].At?
    ensures GapsOf(c[|c| - 1 := At(clk)])
  {
    var n := |c|;
    var d := c[n - 1 := At(clk)];
    forall i, j | 1 <= i < j < n && d[j].At?
      ensures d[i].At? && d[i].c + 3 * ORDO_BOUNDARY < d[j].c
    {
      assert i < n - 2 ==> c[n - 2].At? && c[i].c + 3 * ORDO_BOUNDARY < c[n - 2].c;
    }
  }

  /** Below a version still being committed everything is stamped, and the
      transaction has seen it. */
  lemma StampBelow(s: State, t: nat, o: nat, k: nat)
    requires Basic(s) && HasWs(s, t) && s.tx[t].ph == Installing && o < |s.obj| && k < CurWs(s, t).inst <= |CurWs(s, t).items|
    requires |View(s)[o]| >= 2 && CurWs(s, t).items[k].o == o && CurWs(s, t).items[k].v == |View(s)[o]| - 1
    ensures Seen(View(s)[o], |View(s)[o]| - 2, s.tx[t].lclk) && GapsOf(View(s)[o])
    ensures forall i :: 1 <= i < |View(s)[o]| - 1 ==> View(s)[o][i].At?
  {
    hide Hist, Txs, Shapes, Entries, Marks, Timing, Walks;
    var c := View(s)[o];
    assert BelowSeenBy(s.tx[t], View(s), s.ws) && UnderSeen(View(s), CurWs(s, t), k, s.tx[t].lclk);
    assert LinkOk(s.obj[o], c);
    forall i | 1 <= i < |c| - 1 ensures c[i].At? {
      assert LinkVer(s.obj[o], c, i);
    }
  }

  lemma StampGaps(s: State, t: nat, c: nat)
    requires Basic(s) && CanCommitStamp(s, t, c)
    ensures Gaps(View(DoCommitStamp(s, t, c)))
  {
    hide Links, Shapes, Entries, Marks, Timing, Walks, Hist, BelowSeen, GapsOf, Txs, Clocks;
    LocalBasic(s, t);
    StampView(s, t, c);
    var v, z, x := View(s), View(DoCommitStamp(s, t, c)), CurWs(s, t);
    forall o | 0 <= o < |z| ensures GapsOf(z[o]) {
      assert GapsOf(v[o]);
      if z[o] != v[o] {
        var k :| 0 <= k < |x.items| && x.items[k].o == o && x.items[k].v == |v[o]| - 1;
        StampBelow(s, t, o, k);
        StampGap(v[o], c, s.tx[t].lclk);
      }
    }
  }

  lemma StampLinks(obj: seq<Obj>, v: seq<seq<Clk>>, z: seq<seq<Clk>>, qp0: nat, hi: nat)
    requires Links(obj, v, qp0) && Grows(v, z, hi)
    requires forall o :: 0 <= o < |v| ==> |z[o]| == |v[o]|
    ensures Links(obj, z, qp0)
  {
    forall o | 0 <= o < |obj| ensures LinkOk(obj[o], z[o]) && MarksOld(obj[o], z[o], qp0) {
      assert LinkOk(obj[o], v[o]) && MarksOld(obj[o], v[o], qp0) && GrowsOf(v[o], z[o], hi);
      forall i | 1 <= i < |z[o]| ensures LinkVer(obj[o], z[o], i) {
        assert LinkVer(obj[o], v[o], i);
        assert i >= 2 ==> LinkVer(obj[o], v[o], i - 1);
        assert i + 1 < |v[o]| ==> LinkVer(obj[o], v[o], i + 1);
      }
    }
  }

  lemma SeenGrows(v: seq<seq<Clk>>, z: seq<seq<Clk>>, hi: nat, w: Ws, l: nat)
    requires Grows(v, z, hi) && forall o :: 0 <= o < |v| ==> |z[o]| == |v[o]|
    requires forall k :: 0 <= k < |w.items| ==> UnderSeen(v, w, k, l)
    ensures forall k :: 0 <= k < |w.items| ==> UnderSeen(z, w, k, l)
  {
    forall k | 0 <= k < |w.items| ensures UnderSeen(z, w, k, l) {
      assert UnderSeen(v, w, k, l) && GrowsOf(v[w.items[k].o], z[w.items[k].o], hi);
    }
  }

  lemma StampSeen(s: State, t: nat, c: nat)
    requires Basic(s) && CanCommitStamp(s, t, c) && Grows(View(s), View(DoCommitStamp(s, t, c)), s.hi)
    requires forall o :: 0 <= o < |View(s)| ==> |View(DoCommitStamp(s, t, c))[o]| == |View(s)[o]|
    ensures BelowSeen(DoCommitStamp(s, t, c).tx, View(DoCommitStamp(s, t, c)), DoCommitStamp(s, t, c).ws)
  {
    hide Links, Shapes, Entries, Marks, Timing, Walks, Hist, Gaps, Clocks;
    var z := DoCommitStamp(s, t, c);
    forall u | 0 <= u < |z.tx| ensures BelowSeenBy(z.tx[u], View(z), z.ws) {
      LocalBasic(s, u);
      if u != t { OtherWs(s, t, u); }
      if z.tx[u].ph in {Running, Installing} && z.tx[u].ws.Some? {
        SeenGrows(View(s), View(z), s.hi, s.ws[s.tx[u].ws.value], s.tx[u].lclk);
      }
    }
  }

  lemma StampLinear(s: State, t: nat, c: nat)
    requires Basic(s) && CanCommitStamp(s, t, c)
    ensures Linear(DoCommitStamp(s, t, c)) && Grows(View(s), View(DoCommitStamp(s, t, c)), s.hi)
    ensures forall o :: 0 <= o < |View(s)| ==> |View(DoCommitStamp(s, t, c))[o]| == |View(s)[o]|
  {
    hide Shapes, Entries, Marks, Timing, Walks, Links, BelowSeen;
    var z := DoCommitStamp(s, t, c);
    var w := s.tx[t].ws.value;
    LocalBasic(s, t);
    StampGrows(s, t, c);
    MarkHist(s.obj, s.ws, w, z.ws[w]);
    WsStep(s.tx, s.ws, s.log, t, z.tx[t], w, z.ws[w]);
    StampGaps(s, t, c);
    StampSeen(s, t, c);
  }

  lemma CommitStampBasic(s: State, t: nat, c: nat)
    requires Basic(s) && CanCommitStamp(s, t, c)
    ensures Basic(DoCommitStamp(s, t, c))
    ensures Marks(s) ==> Marks(DoCommitStamp(s, t, c))
  {
    hide Shapes, Entries, Marks, Walks, Links, Linear;
    LocalBasic(s, t);
    var z := DoCommitStamp(s, t, c);
    StampLinear(s, t, c);
    StampLinks(s.obj, View(s), View(z), s.qp.qp0, s.hi);
    hide Timing;
    SideStepBasic(s, z, t);
  }

  // ---- logging, publishing and unlocking

  /** A step that marks the current write set and leaves every chain alone. */
  lemma MarkBasic(s: State, t: nat, x: Tx, w: nat, y: Ws, q: seq<OpLog>)
    requires Basic(s) && t < |s.tx| && s.tx[t].ws == x.ws == Some(w) && w < |s.ws|
    requires s.tx[t].ph == Stamped && x == s.tx[t].(ph := x.ph) && x.ph in {Stamped, Unlocking}
    requires y == s.ws[w].(wrt := y.wrt, op := y.op) && OpOk(y, s.qp.dlast)
    requires TxOk(t, x, s.ws[w := y], s.log[t]) && WsShape(y)
    ensures Basic(s.(tx := s.tx[t := x], ws := s.ws[w := y], oplog := q))
    ensures Marks(s) ==> Marks(s.(tx := s.tx[t := x], ws := s.ws[w := y], oplog := q))
  {
    hide Shapes, Entries, Marks, Timing, Walks, Links, Gaps;
    var z := s.(tx := s.tx[t := x], ws := s.ws[w := y], oplog := q);
    LocalBasic(s, t);
    MarkHist(s.obj, s.ws, w, y);
    WsStep(s.tx, s.ws, s.log, t, x, w, y);
    ViewSame(s, z);
    GrowsSame(View(s), s.hi);
    forall u | 0 <= u < |z.tx| ensures BelowSeenBy(z.tx[u], View(z), z.ws) {
      LocalBasic(s, u);
      if u != t { OtherWs(s, t, u); }
    }
    SideStepBasic(s, z, t);
  }

  lemma CommitLogBasic(s: State, t: nat)
    requires Basic(s) && CanCommitLog(s, t)
    ensures Basic(DoCommitLog(s, t))
    ensures Marks(s) ==> Marks(DoCommitLog(s, t))
  {
    LocalBasic(s, t);
    var z := DoCommitLog(s, t);
    var w := s.tx[t].ws.value;
    MarkBasic(s, t, s.tx[t], w, z.ws[w], z.oplog);
    assert z.tx == s.tx[t := s.tx[t]];
  }

  lemma CommitPersistBasic(s: State, t: nat)
    requires Basic(s) && CanCommitPersist(s, t)
    ensures Basic(DoCommitPersist(s, t))
    ensures Marks(s) ==> Marks(DoCommitPersist(s, t))
  {
    LocalBasic(s, t);
    var z := DoCommitPersist(s, t);
    var w := s.tx[t].ws.value;
    MarkBasic(s, t, s.tx[t], w, z.ws[w], z.oplog);
    assert z.tx == s.tx[t := s.tx[t]];
  }

  lemma CommitPublishBasic(s: State, t: nat)
    requires Basic(s) && CanCommitPublish(s, t)
    ensures Basic(DoCommitPublish(s, t))
    ensures Marks(s) ==> Marks(DoCommitPublish(s, t))
  {
    LocalBasic(s, t);
    var z := DoCommitPublish(s, t);
    var w := s.tx[t].ws.value;
    MarkBasic(s, t, z.tx[t], w, z.ws[w], z.oplog);
  }

  lemma UnlockLink(ob: Obj, c: seq<Clk>, i: nat)
    requires LinkOk(ob, c) && i == |c| - 1 >= 1 && c[i].At? && ob.vers[i].raw.Max?
    ensures (ob.vers[i].next.Some? ==> ob.vers[i].next.value < |ob.vers|)
            && LinkOk(UnlockObj(ob, i, c[i]), c)
  {
    assert LinkVer(ob, c, i);
    var x := UnlockObj(ob, i, c[i]);
    forall j | 1 <= j < |c| ensures LinkVer(x, c, j) {
      assert LinkVer(ob, c, j);
      assert j + 1 < |c| ==> LinkVer(ob, c, j + 1);
    }
  }

  /** The copy being unlocked is its object's newest version, and still unmarked. */
  lemma UnlockReady(s: State, t: nat)
    requires Basic(s) && CanCommitUnlock(s, t)
    ensures CurWs(s, t).wrt.At? && CurWs(s, t).wrt == CurWs(s, t).pending
    ensures CurWs(s, t).inst == |CurWs(s, t).items|
    ensures var it := CurWs(s, t).items[CurWs(s, t).unl];
            && 1 <= it.v == |s.obj[it.o].vers| - 1 && s.obj[it.o].vers[it.v].raw.Max?
            && View(s)[it.o][it.v] == CurWs(s, t).wrt && LinkOk(s.obj[it.o], View(s)[it.o])
  {
    LocalBasic(s, t);
    var w := s.tx[t].ws.value;
    var k := s.ws[w].unl;
    var it := s.ws[w].items[k];
    assert ItemOk(s.obj, s.ws, w, k) && ObjOk(s.obj[it.o], it.o, s.ws);
    assert VerOk(s.obj[it.o], it.o, s.ws, it.v);
  }

  lemma UnlockSide(s: State, t: nat)
    requires CanCommitUnlock(s, t)
    ensures TxSide(s, DoCommitUnlock(s, t))
  {
    var z := DoCommitUnlock(s, t);
    assert forall o :: 0 <= o < |s.obj| ==> ObjKept(s.obj[o], z.obj[o]);
    hide ObjKept;
  }

  lemma UnlockLinks(s: State, t: nat)
    requires Basic(s) && CanCommitUnlock(s, t) && View(DoCommitUnlock(s, t)) == View(s)
    ensures Links(DoCommitUnlock(s, t).obj, View(s), s.qp.qp0)
  {
    hide Shapes, Entries, Marks, Timing, Walks, Linear, LinkVer;
    var z := DoCommitUnlock(s, t);
    var it := CurWs(s, t).items[CurWs(s, t).unl];
    UnlockReady(s, t);
    UnlockLink(s.obj[it.o], View(s)[it.o], it.v);
    forall o | 0 <= o < |z.obj| ensures LinkOk(z.obj[o], View(s)[o]) && MarksOld(z.obj[o], View(s)[o], s.qp.qp0) {
      assert LinkOk(s.obj[o], View(s)[o]) && MarksOld(s.obj[o], View(s)[o], s.qp.qp0);
    }
  }

  lemma UnlockSeen(s: State, t: nat)
    requires Basic(s) && CanCommitUnlock(s, t) && View(DoCommitUnlock(s, t)) == View(s)
    ensures BelowSeen(DoCommitUnlock(s, t).tx, View(s), DoCommitUnlock(s, t).ws)
  {
    hide Shapes, Entries, Timing, Walks, Links, Gaps, Hist;
    var z := DoCommitUnlock(s, t);
    forall u | 0 <= u < |z.tx| ensures BelowSeenBy(z.tx[u], View(s), z.ws) {
      LocalBasic(s, u);
      if u != t { OtherWs(s, t, u); }
    }
  }

  lemma UnlockLinear(s: State, t: nat)
    requires Basic(s) && CanCommitUnlock(s, t)
    ensures Linear(DoCommitUnlock(s, t)) && View(DoCommitUnlock(s, t)) == View(s)
  {
    hide Shapes, Entries, Marks, Timing, Walks, Links, Gaps, BelowSeen;
    var z := DoCommitUnlock(s, t);
    var w := s.tx[t].ws.value;
    LocalBasic(s, t);
    UnlockReady(s, t);
    UnlockSide(s, t);
    ViewSame(s, z);
    assert Hist(z.obj, z.ws) by {
      UnlockObjs(s, t);
      UnlockItems(s, t);
    }
    WsStep(s.tx, s.ws, s.log, t, s.tx[t], w, z.ws[w]);
    assert z.tx == s.tx[t := s.tx[t]];
    UnlockSeen(s, t);
  }

  lemma CommitUnlockBasic(s: State, t: nat)
    requires Basic(s) && CanCommitUnlock(s, t)
    ensures Basic(DoCommitUnlock(s, t))
    ensures Marks(s) ==> Marks(DoCommitUnlock(s, t))
  {
    hide Shapes, Entries, Marks, Timing, Walks, Linear, Links;
    var z := DoCommitUnlock(s, t);
    UnlockSide(s, t);
    UnlockLinear(s, t);
    UnlockLinks(s, t);
    GrowsSame(View(s), s.hi);
    assert z.tx == s.tx[t := s.tx[t]];
    SideStepBasic(s, z, t);
  }

  // ---- aborting

  lemma AbortUnlockLinear(s: State, t: nat)
    requires Basic(s) && CanAbortUnlock(s, t)
    ensures Linear(DoAbortUnlock(s, t)) && View(DoAbortUnlock(s, t)) == View(s)
  {
    hide Shapes, Entries, Marks, Timing, Walks, Links;
    var z := DoAbortUnlock(s, t);
    var w := s.tx[t].ws.value;
    LocalBasic(s, t);
    ViewSame(s, z);
    AbortUnlockHist(s, t);
    WsStep(s.tx, s.ws, s.log, t, s.tx[t], w, z.ws[w]);
    assert z.tx == s.tx[t := s.tx[t]];
    forall u | 0 <= u < |z.tx| ensures BelowSeenBy(z.tx[u], View(z), z.ws) {
      LocalBasic(s, u);
      if u != t { OtherWs(s, t, u); }
    }
  }

  lemma AbortUnlockSide(s: State, t: nat)
    requires CanAbortUnlock(s, t) && CurWs(s, t).pending.Max?
    ensures TxSide(s, DoAbortUnlock(s, t))
  {
  }

  lemma AbortUnlockBasic(s: State, t: nat)
    requires Basic(s) && CanAbortUnlock(s, t)
    ensures Basic(DoAbortUnlock(s, t))
    ensures Marks(s) ==> Marks(DoAbortUnlock(s, t))
  {
    hide Shapes, Entries, Marks, Timing, Walks, Linear, Links;
    var z := DoAbortUnlock(s, t);
    LocalBasic(s, t);
    AbortUnlockSide(s, t);
    GrowsSame(View(s), s.hi);
    AbortUnlockLinear(s, t);
    LinksLock(s.obj, View(s), s.qp.qp0, CurWs(s, t).items[CurWs(s, t).unl].o, None);
    assert z.tx == s.tx[t := s.tx[t]];
    SideStepBasic(s, z, t);
  }

  lemma AbortDoneSide(s: State, t: nat)
    requires CanAbortDone(s, t) && Txs(s.tx, s.ws, s.log)
    ensures TxSide(s, DoAbortDone(s, t))
  {
    assert TxOk(t, s.tx[t], s.ws, s.log[t]);
  }

  lemma AbortDoneLinear(s: State, t: nat)
    requires Basic(s) && CanAbortDone(s, t)
    ensures Linear(DoAbortDone(s, t)) && View(DoAbortDone(s, t)) == View(s)
  {
    hide Shapes, Entries, Marks, Timing, Walks, Links;
    var z := DoAbortDone(s, t);
    LocalBasic(s, t);
    ViewSame(s, z);
    AbortStep(s.tx, s.ws, s.log, t, z.tx[t]);
    forall u | 0 <= u < |z.tx| ensures BelowSeenBy(z.tx[u], View(s), s.ws) {
      LocalBasic(s, u);
    }
  }

  lemma AbortDoneBasic(s: State, t: nat)
    requires Basic(s) && CanAbortDone(s, t)
    ensures Basic(DoAbortDone(s, t))
    ensures Marks(s) ==> Marks(DoAbortDone(s, t))
  {
    hide Shapes, Entries, Marks, Timing, Walks, Links;
    var z := DoAbortDone(s, t);
    GrowsSame(View(s), s.hi);
    AbortDoneLinear(s, t);
    AbortDoneSide(s, t);
    LocalBasic(s, t);
    SideStepBasic(s, z, t);
  }

  lemma OpReclaimBasic(s: State, t: nat)
    requires Basic(s) && CanOpReclaim(s, t)
    ensures Basic(DoOpReclaim(s, t)) && View(DoOpReclaim(s, t)) == View(s)
    ensures Marks(s) ==> Marks(DoOpReclaim(s, t))
  {
    hide Links, Marks, Entries, Shapes, JobShapes, Gaps;
    var z, w := DoOpReclaim(s, t), s.oplog[t].ids[s.oplog[t].head];
    assert WsOk(s.obj, s.ws, w) && Placed(s.tx, s.log, s.ws[w], w);
    MarkHist(s.obj, s.ws, w, z.ws[w]);
    OpStep(s.tx, s.ws, s.log, w, Reclaimed);
    ViewSame(s, z);
    GrowsSame(View(s), s.hi);
    forall u | 0 <= u < |z.tx| ensures BelowSeenBy(z.tx[u], View(z), z.ws) {
      LocalBasic(s, u);
    }
    assert z.tx == s.tx[t := s.tx[t]];
    SideBasic(s, z);
  }

  lemma OpDeqPersistBasic(s: State, t: nat)
    requires Basic(s) && CanOpDeqPersist(s, t)
    ensures Basic(DoOpDeqPersist(s, t)) && View(DoOpDeqPersist(s, t)) == View(s)
    ensures Marks(s) ==> Marks(DoOpDeqPersist(s, t))
  {
    hide Links, Marks, Entries, Shapes, JobShapes;
    var z := DoOpDeqPersist(s, t);
    ViewSame(s, z);
    GrowsSame(View(s), s.hi);
    SideBasic(s, z);
  }
}
