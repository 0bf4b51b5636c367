/** Memory safety: no transaction holds, or walks into, a log record that has been
    dropped or an original object that is being overwritten. It needs nothing but what
    holds along every run, and that copies still in use are not dropped. */
module MemorySteps {
  import opened Options
  import opened Ordo
  import opened Protocol
  import opened History
  import opened Invariant
  import opened Growth
  import opened Basics
  import opened BasicSteps

  predicate Safe(s: State) {
    Memory(s, View(s))
  }

  /** Only running transactions hold anything. */
  lemma Holders(s: State, t: nat)
    requires Basic(s) && t < |s.tx|
    ensures s.tx[t].refs != {} || s.tx[t].rd != NoRead ==>
      InTx(s.tx[t].ph) && s.tx[t].lclk >= s.qp.qp0
    ensures s.tx[t].rd != NoRead ==> s.tx[t].ph == Running
    ensures s.tx[t].lclk <= s.hi && t < |s.log| && TxOk(t, s.tx[t], s.ws, s.log[t])
    ensures WalkOk(s.tx[t], View(s), s.qp.last)
  {
    LocalBasic(s, t);
  }

  /** Every version's write set is in the table. */
  lemma VersionWs(s: State, o: nat, i: nat)
    requires Basic(s) && o < |s.obj| && 1 <= i < |s.obj[o].vers|
    ensures s.obj[o].vers[i].w < |s.ws| && s.ws[s.obj[o].vers[i].w].t < |s.log|
    ensures |View(s)[o]| == |s.obj[o].vers|
  {
    assert ObjOk(s.obj[o], o, s.ws) && VerOk(s.obj[o], o, s.ws, i);
    assert Placed(s.tx, s.log, s.ws[s.obj[o].vers[i].w], s.obj[o].vers[i].w);
  }

  // ---------------------------------------------------------------- transactions

  /** A step of thread t's transaction that keeps what it holds, or part of it. */
  lemma SafeSide(s: State, z: State, t: nat)
    requires Basic(s) && Safe(s) && TxSide(s, z) && Grows(View(s), View(z), s.hi) && t < |s.tx|
    requires z.tx == s.tx[t := z.tx[t]]
    requires MemOf(s, z.tx[t])
    requires forall o, i :: 0 <= o < |s.obj| && |s.obj[o].vers| <= i < |z.obj[o].vers| && i >= 1 ==>
      DroppedOk(z, View(z), o, i)
    ensures Safe(z)
  {
    hide Basic;
    assert forall o, i :: 0 <= o < |s.obj| && 1 <= i < |s.obj[o].vers| ==> s.obj[o].vers[i].w < |s.ws| by {
      forall o, i | 0 <= o < |s.obj| && 1 <= i < |s.obj[o].vers| ensures s.obj[o].vers[i].w < |s.ws| {
        VersionWs(s, o, i);
      }
    }
    DroppedGrow(s, z, View(s), View(z));
    forall u | 0 <= u < |z.tx| ensures MemOf(z, z.tx[u]) {
      var x := z.tx[u];
      assert MemOf(s, x);
      forall r | r in x.refs ensures RefSafe(z, x.lclk, r) {
        RefGrow(s, z, x.lclk, r);
      }
      if x.rd.AtCopy? { CopyGrow(s, z, x.lclk, x.rd.o, x.rd.i); }
    }
  }

  /** A step that only changes thread t's transaction state. */
  lemma SafeOwn(s: State, t: nat, x: Tx, hi: nat)
    requires Basic(s) && Safe(s) && t < |s.tx| && MemOf(s, x)
    ensures Safe(s.(hi := hi, tx := s.tx[t := x]))
  {
    hide Basic;
    var z := s.(hi := hi, tx := s.tx[t := x]);
    assert View(z) == View(s);
    forall o, i | 0 <= o < |z.obj| && 1 <= i < |z.obj[o].vers| ensures DroppedOk(z, View(z), o, i) {
      assert DroppedOk(s, View(s), o, i);
    }
    forall u | 0 <= u < |z.tx| ensures MemOf(z, z.tx[u]) {
      assert MemOf(s, z.tx[u]);
      forall r | r in z.tx[u].refs ensures RefSafe(z, z.tx[u].lclk, r) {
        assert RefSafe(s, z.tx[u].lclk, r);
      }
    }
  }

  /** The version a chain walk steps onto has not been dropped. */
  lemma LinkedIsLive(s: State, o: nat, i: nat, l: nat)
    requires Basic(s) && Safe(s) && o < |s.obj| && 1 <= i < |s.obj[o].vers| && Linked(s.obj[o], i)
    requires l >= s.qp.qp0 && (i + 1 < |s.obj[o].vers| ==> !LtClk(View(s)[o][i + 1], l))
    ensures CopySafe(s, l, o, i)
  {
    VersionWs(s, o, i);
    assert DroppedOk(s, View(s), o, i);
  }

  lemma DerefBeginSafe(s: State, t: nat, o: nat)
    requires Basic(s) && Safe(s) && CanDerefBegin(s, t, o)
    ensures Safe(DoDerefBegin(s, t, o))
  {
    Holders(s, t);
    var x := DoDerefBegin(s, t, o).tx[t];
    assert MemOf(s, s.tx[t]);
    if s.obj[o].pcopy.Some? {
      assert LinkOk(s.obj[o], View(s)[o]);
      LinkedIsLive(s, o, s.obj[o].pcopy.value, x.lclk);
    }
    SafeOwn(s, t, x, s.hi);
  }

  lemma DerefCopySafe(s: State, t: nat)
    requires Basic(s) && Safe(s) && CanDerefCopy(s, t)
    ensures Safe(DoDerefCopy(s, t))
  {
    hide Shapes, Entries, Ops, Gaps, BelowSeen, Timing, Clocks;
    Holders(s, t);
    var rd := s.tx[t].rd;
    var x := DoDerefCopy(s, t).tx[t];
    assert MemOf(s, s.tx[t]);
    WrtClkDecides(s, rd.o, rd.i, x.lclk);
    if x.rd.AtCopy? {
      assert LinkOk(s.obj[rd.o], View(s)[rd.o]);
      assert LinkVer(s.obj[rd.o], View(s)[rd.o], rd.i);
      LinkedIsLive(s, rd.o, x.rd.i, x.lclk);
    }
    SafeOwn(s, t, x, s.hi);
  }

  /** A current master is neither dropped nor about to be. */
  lemma MasterIsLive(s: State, o: nat, l: nat)
    requires Basic(s) && o < |s.obj|
    ensures RefSafe(s, l, Ref(o, s.obj[o].cur, CurVer(s.ck, s.obj[o])))
  {
    assert MasterShape(s, o);
    var cur := s.obj[o].cur;
    if cur.Entry? {
      assert CJobShape(s, cur.k);
    }
  }

  lemma DerefMasterSafe(s: State, t: nat)
    requires Basic(s) && Safe(s) && CanDerefMaster(s, t)
    ensures Safe(DoDerefMaster(s, t))
  {
    var x := DoDerefMaster(s, t).tx[t];
    MasterIsLive(s, s.tx[t].rd.o, x.lclk);
    assert MemOf(s, s.tx[t]);
    SafeOwn(s, t, x, s.hi);
  }

  /** Beginning, looking, ending and aborting. */
  lemma OwnSafe(s: State, t: nat, x: Tx, hi: nat)
    requires Basic(s) && Safe(s) && t < |s.tx|
    requires (x.refs == {} && x.rd == NoRead) || (x.refs == s.tx[t].refs && x.rd == s.tx[t].rd && x.lclk == s.tx[t].lclk)
    ensures Safe(s.(hi := hi, tx := s.tx[t := x]))
  {
    hide Basic;
    assert MemOf(s, s.tx[t]);
    SafeOwn(s, t, x, hi);
  }

  lemma BeginCountSafe(s: State, t: nat)
    requires Basic(s) && Safe(s) && CanBeginCount(s, t)
    ensures Safe(DoBeginCount(s, t))
  {
    Holders(s, t);
    OwnSafe(s, t, DoBeginCount(s, t).tx[t], s.hi);
  }

  lemma BeginClockSafe(s: State, t: nat, c: nat)
    requires Basic(s) && Safe(s) && CanBeginClock(s, t, c)
    ensures Safe(DoBeginClock(s, t, c))
  {
    Holders(s, t);
    OwnSafe(s, t, DoBeginClock(s, t, c).tx[t], Newer(s.hi, c));
  }

  /** What is duplicated under the lock has not been dropped. */
  lemma SourceSafe(s: State, t: nat)
    requires Basic(s) && Safe(s) && CanLockTake(s, t)
    ensures var o := s.tx[t].look.o;
            var base := if s.obj[o].pcopy.Some? then s.obj[o].pcopy.value else CurVer(s.ck, s.obj[o]);
            RefSafe(s, s.tx[t].lclk, LockSource(s, o, base))
  {
    LocalBasic(s, t);
    var o := s.tx[t].look.o;
    assert LinkOk(s.obj[o], View(s)[o]);
    if s.obj[o].pcopy.Some? {
      LinkedIsLive(s, o, s.obj[o].pcopy.value, s.tx[t].lclk);
    } else {
      MasterIsLive(s, o, s.tx[t].lclk);
    }
  }

  lemma LockTakeSafe(s: State, t: nat)
    requires Basic(s) && Safe(s) && CanLockTake(s, t)
    ensures Safe(DoLockTake(s, t))
  {
    LocalBasic(s, t);
    LockTakeSide(s, t);
    GrowsSame(View(s), s.hi);
    assert MemOf(s, s.tx[t]);
    SourceSafe(s, t);
    SafeSide(s, DoLockTake(s, t), t);
  }

  /** A write set being committed lies in front of everything reclaimed. */
  lemma CommittingNotDropped(s: State, t: nat)
    requires Basic(s) && HasWs(s, t) && CurWs(s, t).wrt.Max?
    ensures CurWs(s, t).t == t && t < |s.log| && s.log[t].head <= CurWs(s, t).pos
  {
    LocalBasic(s, t);
    var n := |s.log[t].ids|;
    assert LogEntryOk(t, s.tx[t], s.ws, s.log[t], n - 1);
    assert WrtAt(s.ws, s.log[t], n - 1).Max?;
  }

  lemma CommitInstallSafe(s: State, t: nat)
    requires Basic(s) && Safe(s) && CanCommitInstall(s, t)
    ensures Safe(DoCommitInstall(s, t))
  {
    hide Linear, Timing, Walks;
    var z := DoCommitInstall(s, t);
    var o := CurWs(s, t).items[CurWs(s, t).inst].o;
    InstallReady(s, t);
    CommittingNotDropped(s, t);
    assert LinkOk(s.obj[o], View(s)[o]);
    InstallLinks(s, t);
    InstallSide(s, t);
    assert z.tx == s.tx[t := s.tx[t]] && MemOf(s, s.tx[t]);
    SafeSide(s, z, t);
  }

  lemma CommitStampSafe(s: State, t: nat, c: nat)
    requires Basic(s) && Safe(s) && CanCommitStamp(s, t, c)
    ensures Safe(DoCommitStamp(s, t, c))
  {
    LocalBasic(s, t);
    StampGrows(s, t, c);
    assert MemOf(s, s.tx[t]);
    SafeSide(s, DoCommitStamp(s, t, c), t);
  }

  /** Logging, publishing and op reclamation touch only a write set's marks. */
  lemma MarkSafe(s: State, z: State, t: nat)
    requires Basic(s) && Safe(s) && t < |s.tx| && TxSide(s, z) && View(z) == View(s)
    requires z.tx == s.tx[t := z.tx[t]]
    requires (z.tx[t].refs == {} && z.tx[t].rd == NoRead)
             || (z.tx[t].refs == s.tx[t].refs && z.tx[t].rd == s.tx[t].rd && z.tx[t].lclk == s.tx[t].lclk)
    requires forall o :: 0 <= o < |s.obj| ==> |z.obj[o].vers| == |s.obj[o].vers|
    ensures Safe(z)
  {
    hide Basic;
    GrowsSame(View(s), s.hi);
    assert MemOf(s, s.tx[t]);
    SafeSide(s, z, t);
  }

  lemma CommitLogSafe(s: State, t: nat)
    requires Basic(s) && Safe(s) && CanCommitLog(s, t)
    ensures Safe(DoCommitLog(s, t))
  {
    LocalBasic(s, t);
    var z := DoCommitLog(s, t);
    ViewSame(s, z);
    assert z.tx == s.tx[t := s.tx[t]];
    MarkSafe(s, z, t);
  }

  lemma CommitPersistSafe(s: State, t: nat)
    requires Basic(s) && Safe(s) && CanCommitPersist(s, t)
    ensures Safe(DoCommitPersist(s, t))
  {
    LocalBasic(s, t);
    var z := DoCommitPersist(s, t);
    ViewSame(s, z);
    assert z.tx == s.tx[t := s.tx[t]];
    MarkSafe(s, z, t);
  }

  lemma CommitPublishSafe(s: State, t: nat)
    requires Basic(s) && Safe(s) && CanCommitPublish(s, t)
    ensures Safe(DoCommitPublish(s, t))
  {
    LocalBasic(s, t);
    var z := DoCommitPublish(s, t);
    ViewSame(s, z);
    MarkSafe(s, z, t);
  }

  lemma CommitUnlockSafe(s: State, t: nat)
    requires Basic(s) && Safe(s) && CanCommitUnlock(s, t)
    ensures Safe(DoCommitUnlock(s, t))
  {
    var z := DoCommitUnlock(s, t);
    LocalBasic(s, t);
    UnlockSide(s, t);
    ViewSame(s, z);
    assert z.tx == s.tx[t := s.tx[t]];
    MarkSafe(s, z, t);
  }

  lemma AbortUnlockSafe(s: State, t: nat)
    requires Basic(s) && Safe(s) && CanAbortUnlock(s, t)
    ensures Safe(DoAbortUnlock(s, t))
  {
    var z := DoAbortUnlock(s, t);
    LocalBasic(s, t);
    AbortUnlockSide(s, t);
    ViewSame(s, z);
    assert z.tx == s.tx[t := s.tx[t]];
    MarkSafe(s, z, t);
  }

  lemma AbortDoneSafe(s: State, t: nat)
    requires Basic(s) && Safe(s) && CanAbortDone(s, t)
    ensures Safe(DoAbortDone(s, t))
  {
    var z := DoAbortDone(s, t);
    AbortDoneSide(s, t);
    ViewSame(s, z);
    MarkSafe(s, z, t);
  }

  lemma OpReclaimSafe(s: State, t: nat)
    requires Basic(s) && Safe(s) && CanOpReclaim(s, t)
    ensures Safe(DoOpReclaim(s, t))
  {
    var z := DoOpReclaim(s, t);
    ViewSame(s, z);
    assert z.tx == s.tx[t := s.tx[t]];
    MarkSafe(s, z, t);
  }

  lemma OpDeqPersistSafe(s: State, t: nat)
    requires Basic(s) && Safe(s) && CanOpDeqPersist(s, t)
    ensures Safe(DoOpDeqPersist(s, t))
  {
    hide Hist, BelowSeen, Txs, Links, Walks, Gaps, Detect;
    var z := DoOpDeqPersist(s, t);
    assert View(z) == View(s);
    SafeFrame(s, z);
  }

  // ---------------------------------------------------------------- the qp thread

  /** The limits below which this round may drop do not grow, or everything held
      was read before the fence; masters taken before the round stay put. */
  lemma SafeQp(s: State, z: State)
    requires Basic(s) && Safe(s) && QpSide(s, z)
    requires forall t :: 0 <= t < |s.tx| ==> s.tx[t].lclk <= z.qp.fence || SameRound(s, z)
    ensures Safe(z)
  {
    hide Basic;
    assert View(z) == View(s);
    forall o, i | 0 <= o < |z.obj| && 1 <= i < |z.obj[o].vers| ensures DroppedOk(z, View(z), o, i) {
      assert DroppedOk(s, View(s), o, i);
    }
    forall u | 0 <= u < |z.tx| ensures MemOf(z, z.tx[u]) {
      assert MemOf(s, s.tx[u]);
      forall r | r in z.tx[u].refs ensures RefSafe(z, z.tx[u].lclk, r) {
        assert RefSafe(s, z.tx[u].lclk, r);
      }
    }
  }

  /** No thread may drop more than before. */
  predicate DropOrder(s: State, z: State)
    requires |s.tj| == |s.log| == |z.tj| == |z.log| && |s.cj| == |s.ck| == |z.cj| == |z.ck|
  {
    && (forall t :: 0 <= t < |s.tj| ==> DropLimit(z, t) <= DropLimit(s, t))
    && (forall t :: 0 <= t < |s.cj| ==> CkDropLimit(z, t) <= CkDropLimit(s, t))
  }

  /** The round goes on: nothing more may be dropped than before. */
  predicate SameRound(s: State, z: State)
    requires |s.tj| == |s.log| == |z.tj| == |z.log| && |s.cj| == |s.ck| == |z.cj| == |z.ck|
  {
    && DropOrder(s, z) && z.qp.fence == s.qp.fence
    && (InRound(s.qp) ==> InRound(z.qp) && z.qp.qp0 == s.qp.qp0)
  }

  /** A grace period may begin a window behind transactions that run already: what
      they hold is out of reach of the round, which drops what was left before them. */
  lemma QpClockSafe(s: State, c: nat)
    requires Basic(s) && Safe(s) && CanQpClock(s, c)
    ensures Safe(DoQpClock(s, c))
  {
    hide Hist, BelowSeen, Txs, Links, Walks, Gaps, Safe;
    SafeQp(s, DoQpClock(s, c));
  }

  /** When the qp thread comes to rest, everything held was read before the fence. */
  lemma RestSafe(s: State, z: State)
    requires Basic(s) && Safe(s) && QpSide(s, z) && z.qp.fence == s.hi
    ensures Safe(z)
  {
    forall t | 0 <= t < |s.tx| ensures s.tx[t].lclk <= s.hi {
      Holders(s, t);
    }
    hide Hist, BelowSeen, Txs, Links, Walks, Gaps, Safe;
    SafeQp(s, z);
  }

  lemma QpPropagateSafe(s: State)
    requires Basic(s) && Safe(s) && CanQpPropagate(s)
    ensures Safe(DoQpPropagate(s))
  {
    PropagateShapes(s);
    assert TJobShape(s, s.qp.ph.n) && CJobShape(s, s.qp.ph.n);
    SafeQp(s, DoQpPropagate(s));
  }

  /** A step of the qp thread outside the jobs: no limit grows. */
  lemma QpIdleSafe(s: State, z: State)
    requires Basic(s) && Safe(s) && z == s.(qp := z.qp) && z.qp.fence == s.qp.fence && z.qp.qp0 >= s.qp.qp0
    requires InRound(s.qp) ==> InRound(z.qp) && z.qp.qp0 == s.qp.qp0
    requires forall t :: Pending(z.qp, t) ==> Pending(s.qp, t)
    ensures Safe(z)
  {
    hide Hist, BelowSeen, Txs, Links, Walks, Gaps, Safe;
    SafeQp(s, z);
  }

  lemma QpAdvanceSafe(s: State)
    requires Basic(s) && Safe(s) && CanQpAdvance(s)
    ensures Safe(DoQpAdvance(s))
  {
    QpIdleSafe(s, DoQpAdvance(s));
  }

  // ---------------------------------------------------------------- reclamation

  /** What best-effort reclamation checks of a whole write set, needed here only of
      copies still linked: the successor is older than the grace-period clock. */
  predicate DropSafe(s: State, t: nat)
    requires CanTvDrop(s, t)
  {
    var w := WsAt(s, t, s.log[t].head);
    forall k :: 0 <= k < |w.items| && ItemInChain(s, w.items[k]) && Linked(s.obj[w.items[k].o], w.items[k].v) ==>
      LtClk(VerOf(s, w.items[k].o, w.items[k].v).prev, s.clk[t].qp0)
  }

  lemma BestEffortIsSafe(s: State, t: nat)
    requires CanTvDrop(s, t) && s.tj[t].m == BestEffort
    ensures DropSafe(s, t)
  {
  }

  /** A version whose write set is being dropped. */
  lemma DroppedVersion(s: State, t: nat, o: nat, i: nat)
    requires Basic(s) && CanTvDrop(s, t) && DropSafe(s, t)
    requires o < |s.obj| && 1 <= i < |s.obj[o].vers| && Linked(s.obj[o], i)
    requires s.obj[o].vers[i].w < |s.ws| && s.ws[s.obj[o].vers[i].w].t == t
    requires s.ws[s.obj[o].vers[i].w].pos == s.log[t].head
    ensures i + 1 < |View(s)[o]| && LtClk(View(s)[o][i + 1], s.qp.qp0)
  {
    hide Shapes, Entries, Walks, Gaps, BelowSeen, Clocks, Detect, CJobShape;
    var w := s.obj[o].vers[i].w;
    assert TJobShape(s, t) && ObjOk(s.obj[o], o, s.ws) && VerOk(s.obj[o], o, s.ws, i);
    assert Placed(s.tx, s.log, s.ws[w], w);
    assert s.ws[w].items[s.obj[o].vers[i].k].o == o && s.ws[w].items[s.obj[o].vers[i].k].v == i;
    assert LinkOk(s.obj[o], View(s)[o]) && LinkVer(s.obj[o], View(s)[o], i);
  }

  /** A copy a running transaction holds is not in the write set being dropped. */
  lemma HeldNotDropped(s: State, t: nat, l: nat, o: nat, i: nat)
    requires Basic(s) && CanTvDrop(s, t) && DropSafe(s, t) && CopySafe(s, l, o, i)
    requires l >= s.qp.qp0 && o < |View(s)| && NoneAfter(View(s)[o], i, l)
    ensures CopySafe(DoTvDrop(s, t), l, o, i)
  {
    assert TJobShape(s, t);
    var w := s.obj[o].vers[i].w;
    if s.ws[w].t == t && s.ws[w].pos == s.log[t].head && Linked(s.obj[o], i) {
      DroppedVersion(s, t, o, i);
    }
  }

  lemma TvDropSafe(s: State, t: nat)
    requires Basic(s) && Safe(s) && CanTvDrop(s, t) && DropSafe(s, t)
    ensures Safe(DoTvDrop(s, t))
  {
    hide Linear, Links, Shapes, Timing, Walks;
    var z := DoTvDrop(s, t);
    assert View(z) == View(s);
    forall o, i | 0 <= o < |z.obj| && 1 <= i < |z.obj[o].vers| ensures DroppedOk(z, View(z), o, i) {
      assert DroppedOk(s, View(s), o, i);
      VersionWs(s, o, i);
      var w := s.ws[s.obj[o].vers[i].w];
      if w.t == t && w.pos == s.log[t].head && Linked(s.obj[o], i) {
        DroppedVersion(s, t, o, i);
      }
    }
    forall u | 0 <= u < |z.tx| ensures MemOf(z, z.tx[u]) {
      var x := s.tx[u];
      Holders(s, u);
      assert MemOf(s, x);
      forall r | r in x.refs ensures RefSafe(z, x.lclk, r) {
        assert RefSafe(s, x.lclk, r) && (r.loc.Copy? ==> RefOk(r, View(s), x.lclk));
        if r.loc.Copy? { HeldNotDropped(s, t, x.lclk, r.o, r.loc.i); }
      }
      if x.rd.AtCopy? { HeldNotDropped(s, t, x.lclk, x.rd.o, x.rd.i); }
    }
  }

  /** Job steps that leave logs, entries and masters alone. */
  lemma TvJobSafe(s: State, t: nat, j: TJob)
    requires Basic(s) && Safe(s) && t < |s.tj| && !s.tj[t].TNone?
    requires (j.TDrop? && j.lim == s.log[t].prev && s.tj[t].TReq?) || j.TScan?
    ensures Safe(s.(tj := s.tj[t := j]))
  {
    hide Hist, BelowSeen, Txs, Links, Walks, Gaps, Detect, Safe;
    assert TJobShape(s, t);
    SafeFrame(s, s.(tj := s.tj[t := j]));
  }

  lemma CkJobSafe(s: State, t: nat, j: CJob)
    requires Basic(s) && Safe(s) && t < |s.cj| && !s.cj[t].CNone?
    requires (j == CDrop(s.ck[t].prev) && s.cj[t].CReq?) || j.CWb?
    ensures Safe(s.(cj := s.cj[t := j]))
  {
    hide Hist, BelowSeen, Txs, Links, Walks, Gaps, Detect, Safe;
    assert CJobShape(s, t);
    SafeFrame(s, s.(cj := s.cj[t := j]));
  }

  /** The part of the state memory safety looks at. */
  lemma SafeFrame(s: State, z: State)
    requires Safe(s) && z.tx == s.tx && z.ws == s.ws && z.qp == s.qp && View(z) == View(s)
    requires |z.tj| == |s.tj| && |z.cj| == |s.cj| && |z.log| == |s.log| && |z.ck| == |s.ck| && |z.obj| == |s.obj|
    requires forall t :: 0 <= t < |s.log| ==> z.log[t].head == s.log[t].head
    requires forall t :: 0 <= t < |s.ck| ==> z.ck[t].head == s.ck[t].head && s.ck[t].ents <= z.ck[t].ents
    requires forall o :: 0 <= o < |s.obj| ==>
      && |z.obj[o].vers| == |s.obj[o].vers| && z.obj[o].org == s.obj[o].org
      && (z.obj[o].cur == s.obj[o].cur || z.obj[o].cur == Org
          || (InRound(s.qp) && MasterSince(z, z.obj[o], s.qp.qp0)))
      && (forall i :: 1 <= i < |s.obj[o].vers| ==> z.obj[o].vers[i].w == s.obj[o].vers[i].w)
      && (forall i :: 1 <= i < |s.obj[o].vers| ==> (Linked(z.obj[o], i) <==> Linked(s.obj[o], i)))
    requires DropOrder(s, z)
    ensures Safe(z)
  {
    forall o, i | 0 <= o < |z.obj| && 1 <= i < |z.obj[o].vers| ensures DroppedOk(z, View(z), o, i) {
      assert DroppedOk(s, View(s), o, i);
    }
    forall u | 0 <= u < |z.tx| ensures MemOf(z, z.tx[u]) {
      assert MemOf(s, s.tx[u]);
      forall r | r in z.tx[u].refs ensures RefSafe(z, z.tx[u].lclk, r) {
        assert RefSafe(s, z.tx[u].lclk, r);
      }
    }
  }

  lemma TvCkptSafe(s: State, t: nat)
    requires Basic(s) && Safe(s) && CanTvCkpt(s, t)
    ensures Safe(DoTvCkpt(s, t))
  {
    hide Hist, BelowSeen, Txs, Links, Walks, Gaps, Detect;
    var z := DoTvCkpt(s, t);
    assert TJobShape(s, t);
    ViewSame(s, z);
    SafeFrame(s, z);
  }

  lemma TvDetachSafe(s: State, t: nat)
    requires Basic(s) && Safe(s) && CanTvDetach(s, t)
    ensures Safe(DoTvDetach(s, t))
  {
    hide Txs, Links, Walks, Gaps, Detect;
    var z := DoTvDetach(s, t);
    assert TJobShape(s, t);
    DetachedAt(s, t);
    var it := WsAt(s, t, s.tj[t].p).items[s.tj[t].k];
    ViewSame(s, z);
    forall o, i | 0 <= o < |z.obj| && 1 <= i < |z.obj[o].vers| ensures DroppedOk(z, View(z), o, i) {
      assert DroppedOk(s, View(s), o, i);
    }
    forall u | 0 <= u < |z.tx| ensures MemOf(z, z.tx[u]) {
      assert MemOf(s, s.tx[u]);
      forall r | r in z.tx[u].refs ensures RefSafe(z, z.tx[u].lclk, r) {
        assert RefSafe(s, z.tx[u].lclk, r);
        DetachRef(s, t, z.tx[u].lclk, r);
      }
    }
    hide DoTvDetach;
  }

  lemma DetachRef(s: State, t: nat, l: nat, r: Ref)
    requires |s.tj| == |s.log| && |s.cj| == |s.ck| && CanTvDetach(s, t) && RefSafe(s, l, r)
    requires s.tj[t].TDetach? && WsAt(s, t, s.tj[t].p).t == t
    requires var it := WsAt(s, t, s.tj[t].p).items[s.tj[t].k]; s.obj[it.o].vers[it.v].w == s.log[t].ids[s.tj[t].p]
    ensures RefSafe(DoTvDetach(s, t), l, r)
  {
  }

  lemma TvFinishSafe(s: State, t: nat)
    requires Basic(s) && Safe(s) && CanTvFinish(s, t)
    ensures Safe(DoTvFinish(s, t))
  {
    hide Hist, BelowSeen, Txs, Links, Walks, Gaps, Detect;
    var z := DoTvFinish(s, t);
    assert TJobShape(s, t);
    assert View(z) == View(s);
    SafeFrame(s, z);
  }

  lemma CkFinishSafe(s: State, t: nat)
    requires Basic(s) && Safe(s) && CanCkFinish(s, t)
    ensures Safe(DoCkFinish(s, t))
  {
    hide Hist, BelowSeen, Txs, Links, Walks, Gaps, Detect;
    var z := DoCkFinish(s, t);
    assert CJobShape(s, t);
    assert View(z) == View(s);
    SafeFrame(s, z);
  }

  lemma CkDropSafe(s: State, t: nat)
    requires Basic(s) && Safe(s) && CanCkDrop(s, t)
    ensures Safe(DoCkDrop(s, t))
  {
    hide Hist, BelowSeen, Txs, Links, Gaps, Detect;
    var z := DoCkDrop(s, t);
    assert CJobShape(s, t);
    assert View(z) == View(s);
    forall o, i | 0 <= o < |z.obj| && 1 <= i < |z.obj[o].vers| ensures DroppedOk(z, View(z), o, i) {
      assert DroppedOk(s, View(s), o, i);
    }
    forall u | 0 <= u < |z.tx| ensures MemOf(z, z.tx[u]) {
      Holders(s, u);
      assert MemOf(s, s.tx[u]);
      forall r | r in z.tx[u].refs ensures RefSafe(z, z.tx[u].lclk, r) {
        assert RefSafe(s, z.tx[u].lclk, r);
      }
    }
  }

  /** Nobody holds the original object a writeback overwrites. */
  lemma CkCopySafe(s: State, t: nat)
    requires Basic(s) && Safe(s) && CanCkCopy(s, t)
    ensures Safe(DoCkCopy(s, t))
  {
    hide Hist, BelowSeen, Txs, Links, Gaps, Detect;
    var z := DoCkCopy(s, t);
    assert CJobShape(s, t);
    WbEarlier(s, t);
    ViewSame(s, z);
    forall o, i | 0 <= o < |z.obj| && 1 <= i < |z.obj[o].vers| ensures DroppedOk(z, View(z), o, i) {
      assert DroppedOk(s, View(s), o, i);
    }
    forall u | 0 <= u < |z.tx| ensures MemOf(z, z.tx[u]) {
      Holders(s, u);
      assert MemOf(s, s.tx[u]);
      forall r | r in z.tx[u].refs ensures RefSafe(z, z.tx[u].lclk, r) {
        assert RefSafe(s, z.tx[u].lclk, r);
      }
    }
  }

  lemma CkStoreSafe(s: State, t: nat)
    requires Basic(s) && Safe(s) && CanCkStore(s, t)
    ensures Safe(DoCkStore(s, t))
  {
    hide Hist, BelowSeen, Txs, Links, Walks, Gaps, Detect;
    var z := DoCkStore(s, t);
    ViewSame(s, z);
    SafeFrame(s, z);
  }
}
