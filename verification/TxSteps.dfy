/** The invariant of runs in which no writeback throws a newer master away, and that every
    action of an application thread keeps it. */
module TxSteps {
  import opened Options
  import opened Ordo
  import opened Protocol
  import opened History
  import opened HistorySteps
  import opened Invariant
  import opened Growth
  import opened Basics
  import opened BasicSteps

  predicate Checkpoints(s: State) {
    && Chains(s.obj, View(s), Curs(s)) && Entries(View(s), s.ck, s.qp.qp0)
    && Masters(s, View(s)) && Covers(View(s), Curs(s), s.qp.dlast)
    && Scans(s, View(s)) && Ops(s.ws, s.qp.dlast) && Crash(s, View(s))
  }

  predicate Rounding(s: State) {
    && Floor(s.tx, s.qp.qp0) && Detect(s.tx, s.qp) && Rounds(s.qp) && Jobs(s)
  }

  predicate Inv(s: State) {
    && Linear(s) && Bases(s.obj, s.ws) && Checkpoints(s) && Rounding(s)
    && Readers(s.tx, View(s), Curs(s), s.qp.last)
  }

  /** The invariant contains all that holds along every run. */
  lemma InvBasic(s: State)
    requires Inv(s)
    ensures Basic(s)
  {
    hide Covers, Scans, Crash, Ops;
    ShapesHold(s);
    LinksHold(s);
    TimingHolds(s);
    forall t | 0 <= t < |s.tx| ensures WalkOk(s.tx[t], View(s), s.qp.last) {
      assert ReaderOk(s.tx[t], View(s), Curs(s), s.qp.last);
    }
  }

  lemma TimingHolds(s: State)
    requires Rounding(s)
    ensures Timing(s)
  {
    forall t | 0 <= t < |s.tj| ensures TJobShape(s, t) && CJobShape(s, t) {
      assert TJobOk(s, t) && CJobOk(s, t);
    }
  }

  lemma LinksHold(s: State)
    requires Inv(s)
    ensures Links(s.obj, View(s), s.qp.qp0)
  {
    hide Hist, Txs, Entries, Masters, Covers, Scans, Crash, Ops, Readers, Jobs, Detect;
    forall o | 0 <= o < |s.obj| ensures LinkOk(s.obj[o], View(s)[o]) && MarksOld(s.obj[o], View(s)[o], s.qp.qp0) {
      var ob, c := s.obj[o], View(s)[o];
      assert ChainOk(ob, c, Curs(s)[o]) && GapsOf(c);
      MasterSeen(s, o);
      forall i | 1 <= i < |c| ensures LinkVer(ob, c, i) && (ob.vers[i].detached ==> LtClk(c[i], s.qp.qp0)) {
        assert ChainVer(ob, c, Curs(s)[o], i);
      }
    }
  }

  lemma ShapesHold(s: State)
    requires Inv(s)
    ensures Shapes(s)
  {
    hide Hist, Txs, Chains, Covers, Scans, Crash, Ops, Readers, Jobs, Detect;
    forall k, e | 0 <= k < |s.ck| && 0 <= e < |s.ck[k].ents| ensures EntryShape(s, s.ck[k].ents[e]) {
      assert EntryOk(View(s), s.ck[k].ents[e], s.qp.qp0);
      Settled(s, s.ck[k].ents[e].o, s.ck[k].ents[e].v);
    }
    forall o | 0 <= o < |s.obj| ensures MasterShape(s, o) {
      assert MasterOk(s, View(s), o);
      if s.obj[o].org >= 1 { Settled(s, o, s.obj[o].org); }
    }
  }

  // ---------------------------------------------------------------- views

  lemma CursSame(s: State, z: State)
    requires |z.obj| == |s.obj| && z.ck == s.ck
    requires forall o :: 0 <= o < |s.obj| ==> z.obj[o].cur == s.obj[o].cur && z.obj[o].org == s.obj[o].org
    ensures Curs(z) == Curs(s)
  {
  }

  /** What every transaction-side step inherits. */
  lemma SideInv(s: State, z: State)
    requires Inv(s) && TxSide(s, z) && Grows(View(s), View(z), s.hi)
    ensures Curs(z) == Curs(s)
    ensures Entries(View(z), z.ck, z.qp.qp0) && Masters(z, View(z)) && Scans(z, View(z))
    ensures Covers(View(z), Curs(z), z.qp.dlast) && Crash(z, View(z))
    ensures Rounds(z.qp) && Jobs(z)
  {
    forall o | 0 <= o < |s.obj| ensures z.obj[o].cur == s.obj[o].cur && z.obj[o].org == s.obj[o].org {
      assert ObjKept(s.obj[o], z.obj[o]);
    }
    CursSame(s, z);
    forall t | 0 <= t < |s.log|
      ensures s.log[t].prev <= |s.log[t].ids|
      ensures CommittedTo(s.ws, s.log[t], s.log[t].prev)
    {
      assert LogOk(t, s.tx[t], s.ws, s.log[t]);
    }
    EntriesGrow(View(s), View(z), s.hi, s.ck, s.qp.qp0);
    MastersGrow(s, z, View(s), View(z));
    ScansGrow(s, z, View(s), View(z));
    CoversGrow(View(s), View(z), s.hi, Curs(s), s.qp.dlast);
    CrashGrow(s, z, View(s), View(z));
    JobsGrow(s, z);
  }

  // ---------------------------------------------------------------- steps inside one thread

  /** A step that changes nothing but thread t's own transaction state. */
  lemma OwnStep(s: State, t: nat, x: Tx, hi: nat)
    requires Inv(s) && t < |s.tx| && hi >= s.hi && x.last <= hi
    requires Txs(s.tx[t := x], s.ws, s.log) && BelowSeenBy(x, View(s), s.ws)
    requires InTx(x.ph) ==> x.lclk >= s.qp.qp0
    requires Late(x, s.qp.clk) || (x.run == s.tx[t].run && x.lclk == s.tx[t].lclk && InTx(s.tx[t].ph))
    requires ReaderOk(x, View(s), Curs(s), s.qp.last)
    ensures Inv(s.(hi := hi, tx := s.tx[t := x]))
  {
    var z := s.(hi := hi, tx := s.tx[t := x]);
    assert forall o, i :: 0 <= o < |s.obj| && 1 <= i < |s.obj[o].vers| ==>
      (Linked(s.obj[o], i) <==> Linked(s.obj[o], i));
    ViewSame(s, z);
    GrowsSame(View(s), s.hi);
    SideInv(s, z);
    forall u | 0 <= u < |z.tx|
      ensures BelowSeenBy(z.tx[u], View(z), z.ws) && ReaderOk(z.tx[u], View(z), Curs(z), z.qp.last)
    {
      assert BelowSeenBy(s.tx[u], View(s), s.ws) && ReaderOk(s.tx[u], View(s), Curs(s), s.qp.last);
    }
    DetectStep(s.tx, s.qp, t, x);
  }

  /** What holds of a running transaction. */
  lemma Local(s: State, t: nat)
    requires Inv(s) && t < |s.tx|
    ensures TxOk(t, s.tx[t], s.ws, s.log[t]) && LogOk(t, s.tx[t], s.ws, s.log[t])
    ensures BelowSeenBy(s.tx[t], View(s), s.ws)
    ensures ReaderOk(s.tx[t], View(s), Curs(s), s.qp.last)
    ensures s.tx[t].last <= s.hi
    ensures InTx(s.tx[t].ph) ==> s.tx[t].lclk >= s.qp.qp0
    ensures s.tx[t].ws.Some? ==> s.tx[t].ws.value < |s.ws| && WsOk(s.obj, s.ws, s.tx[t].ws.value)
  {
  }

  lemma BeginCountInv(s: State, t: nat)
    requires Inv(s) && CanBeginCount(s, t)
    ensures Inv(DoBeginCount(s, t))
  {
    Local(s, t);
    var x := DoBeginCount(s, t).tx[t];
    TxStep(s.tx, s.ws, s.log, t, x);
    OwnStep(s, t, x, s.hi);
  }

  lemma BeginClockInv(s: State, t: nat, c: nat)
    requires Inv(s) && CanBeginClock(s, t, c)
    ensures Inv(DoBeginClock(s, t, c))
  {
    Local(s, t);
    var x := DoBeginClock(s, t, c).tx[t];
    TxStep(s.tx, s.ws, s.log, t, x);
    OwnStep(s, t, x, Newer(s.hi, c));
  }

  lemma DerefBeginInv(s: State, t: nat, o: nat)
    requires Inv(s) && CanDerefBegin(s, t, o)
    ensures Inv(DoDerefBegin(s, t, o))
  {
    Local(s, t);
    assert ChainOk(s.obj[o], View(s)[o], Curs(s)[o]);
    var x := DoDerefBegin(s, t, o).tx[t];
    TxStep(s.tx, s.ws, s.log, t, x);
    OwnStep(s, t, x, s.hi);
  }

  // ---------------------------------------------------------------- ts_deref

  /** The current master is in the snapshot of every running transaction. */
  lemma MasterSeen(s: State, o: nat)
    requires Inv(s) && o < |s.obj|
    ensures Seen(View(s)[o], Curs(s)[o], s.qp.qp0)
  {
    assert MasterOk(s, View(s), o) && ChainOk(s.obj[o], View(s)[o], Curs(s)[o]);
    var cur := s.obj[o].cur;
    if cur.Entry? {
      assert EntryOk(View(s), s.ck[cur.k].ents[cur.e], s.qp.qp0);
    }
  }

  /** Leaving the chain at version i lands on the version below it. */
  lemma FallBack(ob: Obj, c: seq<Clk>, cv: nat, i: nat, l: nat, ckpt: nat, last: nat)
    requires ChainOk(ob, c, cv) && 1 <= i < |c| && NoneAfter(c, i, l) && !LtClk(c[i], l) && ckpt <= last
    requires forall j :: 1 <= j < |c| && LtClk(c[j], last) ==> cv >= j
    requires LtClk(ob.vers[i].nextClk, ckpt) || ob.vers[i].next.None?
    ensures NoneAfter(c, cv, l)
  {
    assert ChainVer(ob, c, cv, i);
    assert cv >= i - 1;
  }

  lemma DerefCopyRead(s: State, t: nat)
    requires Inv(s) && CanDerefCopy(s, t)
    ensures ReaderOk(DoDerefCopy(s, t).tx[t], View(s), Curs(s), s.qp.last)
  {
    hide Hist, Txs, Entries, Masters, Scans, Crash, Detect, Jobs, Ops;
    Local(s, t);
    var rd, l := s.tx[t].rd, s.tx[t].lclk;
    var ob, c, cv := s.obj[rd.o], View(s)[rd.o], Curs(s)[rd.o];
    assert ChainOk(ob, c, cv) && ChainVer(ob, c, cv, rd.i);
    WrtClkDecides(s, rd.o, rd.i, l);
    if LtClk(c[rd.i], l) {
      assert RefOk(Ref(rd.o, Copy(rd.i), rd.i), View(s), l);
    } else if LtClk(ob.vers[rd.i].nextClk, rd.ckpt) || ob.vers[rd.i].next.None? {
      FallBack(ob, c, cv, rd.i, l, rd.ckpt, s.qp.dlast);
    }
  }

  lemma DerefCopyInv(s: State, t: nat)
    requires Inv(s) && CanDerefCopy(s, t)
    ensures Inv(DoDerefCopy(s, t))
  {
    Local(s, t);
    DerefCopyRead(s, t);
    var x := DoDerefCopy(s, t).tx[t];
    TxStep(s.tx, s.ws, s.log, t, x);
    OwnStep(s, t, x, s.hi);
  }

  lemma DerefMasterInv(s: State, t: nat)
    requires Inv(s) && CanDerefMaster(s, t)
    ensures Inv(DoDerefMaster(s, t))
  {
    hide Covers, Scans, Crash, Ops, Entries, Jobs, Detect, Gaps, BelowSeen;
    Local(s, t);
    var o := s.tx[t].rd.o;
    MasterSeen(s, o);
    assert ChainOk(s.obj[o], View(s)[o], Curs(s)[o]) && MasterOk(s, View(s), o);
    assert RefOk(Ref(o, s.obj[o].cur, Curs(s)[o]), View(s), s.tx[t].lclk);
    var x := DoDerefMaster(s, t).tx[t];
    TxStep(s.tx, s.ws, s.log, t, x);
    OwnStep(s, t, x, s.hi);
  }

  lemma LockLookInv(s: State, t: nat, o: nat)
    requires Inv(s) && CanLockLook(s, t, o)
    ensures Inv(DoLockLook(s, t, o))
  {
    Local(s, t);
    assert ChainOk(s.obj[o], View(s)[o], Curs(s)[o]);
    if s.obj[o].pcopy.Some? {
      WrtClkDecides(s, o, s.obj[o].pcopy.value, s.tx[t].lclk);
    }
    var x := DoLockLook(s, t, o).tx[t];
    TxStep(s.tx, s.ws, s.log, t, x);
    OwnStep(s, t, x, s.hi);
  }

  lemma CommitBeginInv(s: State, t: nat)
    requires Inv(s) && CanCommitBegin(s, t)
    ensures Inv(DoCommitBegin(s, t))
  {
    Local(s, t);
    var x := DoCommitBegin(s, t).tx[t];
    TxStep(s.tx, s.ws, s.log, t, x);
    OwnStep(s, t, x, s.hi);
  }

  lemma TxEndInv(s: State, t: nat)
    requires Inv(s) && CanTxEnd(s, t)
    ensures Inv(DoTxEnd(s, t))
  {
    Local(s, t);
    var x := DoTxEnd(s, t).tx[t];
    EndStep(s.tx, s.ws, s.log, t, x);
    OwnStep(s, t, x, s.hi);
  }

  lemma AbortInv(s: State, t: nat)
    requires Inv(s) && CanAbort(s, t)
    ensures Inv(DoAbort(s, t))
  {
    Local(s, t);
    var x := DoAbort(s, t).tx[t];
    TxStep(s.tx, s.ws, s.log, t, x);
    OwnStep(s, t, x, s.hi);
  }

  // ---------------------------------------------------------------- locking and committing

  /** A step on thread t's write set, inside its transaction. */
  lemma SideStep(s: State, z: State, t: nat)
    requires Inv(s) && TxSide(s, z) && Grows(View(s), View(z), s.hi) && t < |s.tx|
    requires z.tx == s.tx[t := z.tx[t]]
    requires Linear(z) && Bases(z.obj, z.ws) && Chains(z.obj, View(z), Curs(s)) && Ops(z.ws, z.qp.dlast)
    requires z.tx[t].run == s.tx[t].run && z.tx[t].lclk == s.tx[t].lclk
    requires z.tx[t].rd == s.tx[t].rd
    requires forall r :: r in z.tx[t].refs ==> r in s.tx[t].refs || RefOk(r, View(z), z.tx[t].lclk)
    requires InTx(z.tx[t].ph) ==> InTx(s.tx[t].ph)
    requires z.tx[t].ph == Running ==> s.tx[t].ph == Running && z.tx[t].look == NoLook
    ensures Inv(z)
  {
    SideInv(s, z);
    forall u | 0 <= u < |z.tx| ensures ReaderOk(z.tx[u], View(z), Curs(z), z.qp.last) {
      Local(s, u);
      ReaderGrow(s.tx[u], View(s), View(z), s.hi, Curs(s), s.qp.last);
    }
    Local(s, t);
    SideDetect(s.tx, s.qp, t, z.tx[t]);
  }

  /** The version LockTake duplicates is the newest one, and visible. */
  lemma LockBase(s: State, t: nat)
    requires Inv(s) && CanLockTake(s, t)
    ensures var o := s.tx[t].look.o;
            var base := if s.obj[o].pcopy.Some? then s.obj[o].pcopy.value else CurVer(s.ck, s.obj[o]);
            base == |s.obj[o].vers| - 1 && Seen(View(s)[o], base, s.tx[t].lclk)
  {
    Local(s, t);
    var o := s.tx[t].look.o;
    assert ChainOk(s.obj[o], View(s)[o], Curs(s)[o]);
    MasterSeen(s, o);
  }

  /** What is duplicated is the transaction's snapshot of the object. */
  lemma SourceOk(s: State, t: nat)
    requires Inv(s) && CanLockTake(s, t)
    ensures var o := s.tx[t].look.o;
            var base := if s.obj[o].pcopy.Some? then s.obj[o].pcopy.value else CurVer(s.ck, s.obj[o]);
            RefOk(LockSource(s, o, base), View(s), s.tx[t].lclk)
  {
    LockBase(s, t);
    var o := s.tx[t].look.o;
    assert ChainOk(s.obj[o], View(s)[o], Curs(s)[o]) && MasterOk(s, View(s), o);
  }

  /** A chain does not depend on who holds the object's lock. */
  lemma ChainsLock(obj: seq<Obj>, view: seq<seq<Clk>>, cv: seq<nat>, o: nat, l: Option<LockId>)
    requires Chains(obj, view, cv) && o < |obj|
    ensures Chains(obj[o := obj[o].(lock := l)], view, cv)
  {
    var zo := obj[o := obj[o].(lock := l)];
    forall p | 0 <= p < |zo| ensures ChainOk(zo[p], view[p], cv[p]) {
      assert ChainOk(obj[p], view[p], cv[p]);
      forall i | 1 <= i < |view[p]| ensures ChainVer(zo[p], view[p], cv[p], i) {
        assert ChainVer(obj[p], view[p], cv[p], i);
      }
    }
  }

  lemma LockTakeInv(s: State, t: nat)
    requires Inv(s) && CanLockTake(s, t)
    ensures Inv(DoLockTake(s, t))
  {
    hide Entries, Masters, Covers, Scans, Crash, Jobs, Linear;
    var z := DoLockTake(s, t);
    InvBasic(s);
    LockBase(s, t);
    LockFresh(s, t);
    LockTakeLinear(s, t);
    LockTakeBases(s, t);
    LockTakeSide(s, t);
    SourceOk(s, t);
    GrowsSame(View(s), s.hi);
    ChainsLock(s.obj, View(s), Curs(s), s.tx[t].look.o, z.obj[s.tx[t].look.o].lock);
    hide Basic, Rounding, Readers, Chains;
    SideStep(s, z, t);
  }

  // ---- linking a copy into its chain

  lemma InstallChain(ob: Obj, c: seq<Clk>, cv: nat, w: nat, k: nat)
    requires ChainOk(ob, c, cv) && (|c| >= 2 ==> ob.vers[|c| - 1].raw.At?)
    ensures ChainOk(Installed(ob, w, k), c + [Max], cv)
  {
    var x, d := Installed(ob, w, k), c + [Max];
    ChainLinks(ob, c, cv);
    InstallLink(ob, c, w, k);
    forall i | 1 <= i < |d| ensures ChainVer(x, d, cv, i) {
      assert LinkVer(x, d, i);
      assert i < |c| ==> ChainVer(ob, c, cv, i);
    }
  }

  lemma ChainLinks(ob: Obj, c: seq<Clk>, cv: nat)
    requires ChainOk(ob, c, cv)
    ensures LinkOk(ob, c)
  {
    forall i | 1 <= i < |c| ensures LinkVer(ob, c, i) {
      assert ChainVer(ob, c, cv, i);
    }
  }

  lemma CommitInstallInv(s: State, t: nat)
    requires Inv(s) && CanCommitInstall(s, t)
    ensures Inv(DoCommitInstall(s, t))
  {
    hide Txs, Entries, Masters, Covers, Scans, Crash, Jobs, BelowSeen, ChainVer, LinkVer;
    var z := DoCommitInstall(s, t);
    var o := CurWs(s, t).items[CurWs(s, t).inst].o;
    InvBasic(s);
    InstallReady(s, t);
    InstallView(s, t);
    InstallLinear(s, t);
    InstallBases(s, t);
    InstallLinks(s, t);
    assert ChainOk(s.obj[o], View(s)[o], Curs(s)[o]);
    InstallChain(s.obj[o], View(s)[o], Curs(s)[o], s.tx[t].ws.value, CurWs(s, t).inst);
    InstallSide(s, t);
    assert z.tx == s.tx[t := s.tx[t]];
    hide Basic, Linear, Rounding, Readers, HeadOk;
    SideStep(s, z, t);
  }

  // ---- stamping a write set

  lemma StampChains(obj: seq<Obj>, v: seq<seq<Clk>>, z: seq<seq<Clk>>, cv: seq<nat>, hi: nat)
    requires Chains(obj, v, cv) && Grows(v, z, hi)
    requires forall o :: 0 <= o < |v| ==> |z[o]| == |v[o]|
    ensures Chains(obj, z, cv)
  {
    forall o | 0 <= o < |obj| ensures ChainOk(obj[o], z[o], cv[o]) {
      assert ChainOk(obj[o], v[o], cv[o]) && GrowsOf(v[o], z[o], hi);
      forall i | 1 <= i < |z[o]| ensures ChainVer(obj[o], z[o], cv[o], i) {
        assert ChainVer(obj[o], v[o], cv[o], i);
        assert i >= 2 ==> ChainVer(obj[o], v[o], cv[o], i - 1);
        assert i + 1 < |v[o]| ==> ChainVer(obj[o], v[o], cv[o], i + 1);
      }
    }
  }

  lemma CommitStampInv(s: State, t: nat, c: nat)
    requires Inv(s) && CanCommitStamp(s, t, c)
    ensures Inv(DoCommitStamp(s, t, c))
  {
    var z := DoCommitStamp(s, t, c);
    InvBasic(s);
    StampLinear(s, t, c);
    StampChains(s.obj, View(s), View(z), Curs(s), s.hi);
    BasesStay(s.obj, s.ws, z.obj, z.ws);
    Local(s, t);
    hide Basic, Linear, Rounding, Chains, Entries, Masters, Covers, Scans, Crash;
    SideStep(s, z, t);
  }

  // ---- logging, publishing and unlocking

  /** A step that marks the current write set and leaves every chain alone. */
  lemma MarkInv(s: State, t: nat, x: Tx, w: nat, y: Ws, q: seq<OpLog>)
    requires Inv(s) && t < |s.tx| && s.tx[t].ws == x.ws == Some(w) && w < |s.ws|
    requires s.tx[t].ph == Stamped && x == s.tx[t].(ph := x.ph) && x.ph in {Stamped, Unlocking}
    requires y == s.ws[w].(wrt := y.wrt, op := y.op) && OpOk(y, s.qp.dlast)
    requires TxOk(t, x, s.ws[w := y], s.log[t]) && WsShape(y)
    ensures Inv(s.(tx := s.tx[t := x], ws := s.ws[w := y], oplog := q))
  {
    hide Entries, Masters, Covers, Scans, Crash, Detect, Jobs, Readers;
    var z := s.(tx := s.tx[t := x], ws := s.ws[w := y], oplog := q);
    Local(s, t);
    MarkHist(s.obj, s.ws, w, y);
    InvBasic(s);
    assert Linear(z) by { MarkBasic(s, t, x, w, y, q); }
    BasesStay(s.obj, s.ws, z.obj, z.ws);
    ViewSame(s, z);
    GrowsSame(View(s), s.hi);
    SideStep(s, z, t);
  }

  lemma CommitLogInv(s: State, t: nat)
    requires Inv(s) && CanCommitLog(s, t)
    ensures Inv(DoCommitLog(s, t))
  {
    Local(s, t);
    var z := DoCommitLog(s, t);
    var w := s.tx[t].ws.value;
    MarkInv(s, t, s.tx[t], w, z.ws[w], z.oplog);
    assert z.tx == s.tx[t := s.tx[t]];
  }

  lemma CommitPersistInv(s: State, t: nat)
    requires Inv(s) && CanCommitPersist(s, t)
    ensures Inv(DoCommitPersist(s, t))
  {
    Local(s, t);
    var z := DoCommitPersist(s, t);
    var w := s.tx[t].ws.value;
    MarkInv(s, t, s.tx[t], w, z.ws[w], z.oplog);
    assert z.tx == s.tx[t := s.tx[t]];
  }

  lemma CommitPublishInv(s: State, t: nat)
    requires Inv(s) && CanCommitPublish(s, t)
    ensures Inv(DoCommitPublish(s, t))
  {
    Local(s, t);
    var z := DoCommitPublish(s, t);
    var w := s.tx[t].ws.value;
    MarkInv(s, t, z.tx[t], w, z.ws[w], z.oplog);
  }

  lemma UnlockChain(ob: Obj, c: seq<Clk>, cv: nat, i: nat)
    requires ChainOk(ob, c, cv) && i == |c| - 1 >= 1 && c[i].At? && ob.vers[i].raw.Max?
    ensures (ob.vers[i].next.Some? ==> ob.vers[i].next.value < |ob.vers|)
            && ChainOk(UnlockObj(ob, i, c[i]), c, cv)
  {
    ChainLinks(ob, c, cv);
    UnlockLink(ob, c, i);
    var x := UnlockObj(ob, i, c[i]);
    forall j | 1 <= j < |c| ensures ChainVer(x, c, cv, j) {
      assert LinkVer(x, c, j) && ChainVer(ob, c, cv, j);
    }
  }

  lemma CommitUnlockInv(s: State, t: nat)
    requires Inv(s) && CanCommitUnlock(s, t)
    ensures Inv(DoCommitUnlock(s, t))
  {
    hide Entries, Masters, Covers, Scans, Crash, Jobs, ChainVer, LinkVer;
    var z := DoCommitUnlock(s, t);
    var it := CurWs(s, t).items[CurWs(s, t).unl];
    InvBasic(s);
    UnlockReady(s, t);
    UnlockSide(s, t);
    UnlockLinear(s, t);
    BasesStay(s.obj, s.ws, z.obj, z.ws);
    GrowsSame(View(s), s.hi);
    assert ChainOk(s.obj[it.o], View(s)[it.o], Curs(s)[it.o]);
    UnlockChain(s.obj[it.o], View(s)[it.o], Curs(s)[it.o], it.v);
    assert z.tx == s.tx[t := s.tx[t]];
    hide Basic, Linear, Rounding, Readers;
    SideStep(s, z, t);
  }

  // ---- aborting

  lemma AbortUnlockInv(s: State, t: nat)
    requires Inv(s) && CanAbortUnlock(s, t)
    ensures Inv(DoAbortUnlock(s, t))
  {
    var z := DoAbortUnlock(s, t);
    Local(s, t);
    InvBasic(s);
    AbortUnlockSide(s, t);
    GrowsSame(View(s), s.hi);
    AbortUnlockLinear(s, t);
    BasesStay(s.obj, s.ws, z.obj, z.ws);
    ChainsLock(s.obj, View(s), Curs(s), CurWs(s, t).items[CurWs(s, t).unl].o, None);
    assert z.tx == s.tx[t := s.tx[t]];
    hide Basic, Linear, Rounding, Readers, Chains, Entries, Masters, Covers, Scans, Crash;
    SideStep(s, z, t);
  }

  lemma AbortDoneInv(s: State, t: nat)
    requires Inv(s) && CanAbortDone(s, t)
    ensures Inv(DoAbortDone(s, t))
  {
    var z := DoAbortDone(s, t);
    InvBasic(s);
    GrowsSame(View(s), s.hi);
    AbortDoneLinear(s, t);
    AbortDoneSide(s, t);
    Local(s, t);
    hide Basic, Rounding, Readers, Entries, Masters, Covers, Scans, Crash;
    SideStep(s, z, t);
  }

  lemma OpReclaimInv(s: State, t: nat)
    requires Inv(s) && CanOpReclaim(s, t)
    ensures Inv(DoOpReclaim(s, t))
  {
    hide Chains, Entries, Masters, Covers, Scans, Crash, Readers;
    var z, w := DoOpReclaim(s, t), s.oplog[t].ids[s.oplog[t].head];
    assert WsOk(s.obj, s.ws, w);
    InvBasic(s);
    assert Basic(z) && View(z) == View(s) by { OpReclaimBasic(s, t); }
    BasesStay(s.obj, s.ws, z.obj, z.ws);
    GrowsSame(View(s), s.hi);
    assert z.tx == s.tx[t := s.tx[t]];
    SideInv(s, z);
  }

  lemma OpDeqPersistInv(s: State, t: nat)
    requires Inv(s) && CanOpDeqPersist(s, t)
    ensures Inv(DoOpDeqPersist(s, t))
  {
    hide Chains, Entries, Masters, Covers, Scans, Crash, Readers, Jobs;
    var z := DoOpDeqPersist(s, t);
    ViewSame(s, z);
    GrowsSame(View(s), s.hi);
    SideInv(s, z);
  }
}
