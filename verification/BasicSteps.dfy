/** The actions of the qp thread and of reclamation keep what holds along every run. No
    step here asks whether a writeback has been overtaken. */
module BasicSteps {
  import opened Options
  import opened Ordo
  import opened Protocol
  import opened History
  import opened HistorySteps
  import opened Invariant
  import opened Growth
  import opened Basics

  // ---------------------------------------------------------------- the qp thread

  predicate TAsked(j: TJob, k: TJob) {
    k == j || (j == TNone && k.TReq?)
  }

  predicate CAsked(j: CJob, k: CJob) {
    k == j || (j == CNone && k == CReq)
  }

  /** A step of the qp thread: clocks move forward, requests appear. */
  predicate QpSide(s: State, z: State) {
    && z.tx == s.tx && z.obj == s.obj && z.ws == s.ws && z.log == s.log && z.ck == s.ck
    && |z.clk| == |s.clk| && |z.tj| == |s.tj| && |z.cj| == |s.cj|
    && (forall t :: 0 <= t < |s.tj| ==> TAsked(s.tj[t], z.tj[t]))
    && (forall t :: 0 <= t < |s.cj| ==> CAsked(s.cj[t], z.cj[t]))
    && s.qp.qp0 <= z.qp.qp0
  }

  lemma QpBasic(s: State, z: State)
    requires Basic(s) && QpSide(s, z) && Clocks(z.hi, z.tx, z.ws, z.qp) && Timing(z) && z.qp.last >= s.qp.last
    requires z.qp.dlast >= s.qp.dlast
    ensures Basic(z)
    ensures Marks(s) ==> Marks(z)
  {
    assert View(z) == View(s);
    forall t | 0 <= t < |z.tx| ensures WalkOk(z.tx[t], View(z), z.qp.last) {
      assert WalkOk(s.tx[t], View(s), s.qp.last);
    }
    forall o | 0 <= o < |z.obj| ensures MarksOld(z.obj[o], View(z)[o], z.qp.qp0) && MasterShape(z, o) {
      assert LinkOk(s.obj[o], View(s)[o]) && MarksOld(s.obj[o], View(s)[o], s.qp.qp0) && MasterShape(s, o);
      if s.obj[o].cur.Entry? { assert CAsked(s.cj[s.obj[o].cur.k], z.cj[s.obj[o].cur.k]); }
    }
    forall k, e | 0 <= k < |z.ck| && 0 <= e < |z.ck[k].ents|
      ensures EntryShape(z, z.ck[k].ents[e]) && EntryOk(View(z), z.ck[k].ents[e], z.qp.qp0)
    {
      EntryKnown(s, k, e);
    }
    forall w | 0 <= w < |z.ws| ensures OpOk(z.ws[w], z.qp.dlast) { assert OpOk(s.ws[w], s.qp.dlast); }
    if Marks(s) { QpMarks(s, z); }
  }

  lemma QpMarks(s: State, z: State)
    requires Marks(s) && QpSide(s, z)
    ensures Marks(z)
  {
    forall k, e | 0 <= k < |z.ck| && 0 <= e < |z.ck[k].ents| ensures EntryMark(z, k, e) {
      assert EntryMark(s, k, e) && TAsked(s.tj[k], z.tj[k]);
    }
  }

  /** Outside a reclamation round no job is running. */
  lemma NoJobs(s: State)
    requires JobShapes(s) && !s.qp.ph.QTrig?
    ensures forall t :: 0 <= t < |s.tj| ==> s.tj[t] == TNone
    ensures forall t :: 0 <= t < |s.cj| ==> s.cj[t] == CNone
  {
    forall t | 0 <= t < |s.tj| ensures s.tj[t] == TNone { assert TJobShape(s, t); }
    forall t | 0 <= t < |s.cj| ensures s.cj[t] == CNone { assert CJobShape(s, t); }
  }

  lemma ShapesIdle(s: State, z: State)
    requires JobShapes(s) && z.tj == s.tj && z.cj == s.cj && z.clk == s.clk && z.log == s.log && z.ck == s.ck
    requires |z.tx| == |s.tx| && z.qp.last >= s.qp.last && (z.qp.ph.QTrig? ==> z.qp.ph.n == 0)
    requires forall t :: 0 <= t < |s.tj| ==> s.tj[t] == TNone
    requires forall t :: 0 <= t < |s.cj| ==> s.cj[t] == CNone
    ensures JobShapes(z)
  {
    forall t | 0 <= t < |z.cj| ensures CJobShape(z, t) { assert CJobShape(s, t); }
  }

  lemma QpClockBasic(s: State, c: nat)
    requires Basic(s) && CanQpClock(s, c)
    ensures Basic(DoQpClock(s, c))
    ensures Marks(s) ==> Marks(DoQpClock(s, c))
  {
    var z := DoQpClock(s, c);
    NoJobs(s);
    ShapesIdle(s, z);
    QpBasic(s, z);
  }

  lemma QpCaptureBasic(s: State)
    requires Basic(s) && CanQpCapture(s)
    ensures Basic(DoQpCapture(s))
    ensures Marks(s) ==> Marks(DoQpCapture(s))
  {
    var z := DoQpCapture(s);
    NoJobs(s);
    ShapesIdle(s, z);
    assert TxOk(s.qp.ph.n, s.tx[s.qp.ph.n], s.ws, s.log[s.qp.ph.n]);
    assert Detect(z.tx, z.qp);
    QpBasic(s, z);
  }

  lemma QpCheckBasic(s: State, t: nat)
    requires Basic(s) && CanQpCheck(s, t)
    ensures Basic(DoQpCheck(s, t))
    ensures Marks(s) ==> Marks(DoQpCheck(s, t))
  {
    var z := DoQpCheck(s, t);
    NoJobs(s);
    ShapesIdle(s, z);
    assert Waited(s.tx[t], s.qp.need[t], s.qp.cap[t], s.qp.clk);
    assert Detect(z.tx, z.qp);
    QpBasic(s, z);
  }

  lemma QpAdvanceBasic(s: State)
    requires Basic(s) && CanQpAdvance(s)
    ensures Basic(DoQpAdvance(s))
    ensures Marks(s) ==> Marks(DoQpAdvance(s))
  {
    var z := DoQpAdvance(s);
    NoJobs(s);
    ShapesIdle(s, z);
    forall t | 0 <= t < |s.tx| && InTx(s.tx[t].ph) ensures s.tx[t].lclk >= z.qp.qp0 {
      assert Waited(s.tx[t], s.qp.need[t], s.qp.cap[t], s.qp.clk);
    }
    QpBasic(s, z);
  }

  /** Coming to rest, asking for a round and publishing a checkpoint. */
  lemma QpIdleBasic(s: State, a: Action, z: State)
    requires Basic(s) && QpNext(s, a, z) && (a.QpSkip? || a.QpTrigger? || a.QpPublish?)
    ensures Basic(z)
    ensures Marks(s) ==> Marks(z)
  {
    NoJobs(s);
    ShapesIdle(s, z);
    QpBasic(s, z);
  }

  lemma QpBarrierBasic(s: State)
    requires Basic(s) && CanQpBarrier(s)
    ensures Basic(DoQpBarrier(s))
    ensures Marks(s) ==> Marks(DoQpBarrier(s))
  {
    var z := DoQpBarrier(s);
    ShapesIdle(s, z);
    QpBasic(s, z);
  }

  lemma PropagateShapes(s: State)
    requires JobShapes(s) && CanQpPropagate(s)
    ensures JobShapes(DoQpPropagate(s)) && QpSide(s, DoQpPropagate(s))
  {
    var z := DoQpPropagate(s);
    assert TJobShape(s, s.qp.ph.n) && CJobShape(s, s.qp.ph.n);
    forall t | 0 <= t < |z.tj| ensures TJobShape(z, t) && CJobShape(z, t) {
      assert TJobShape(s, t) && CJobShape(s, t);
    }
  }

  lemma QpPropagateBasic(s: State)
    requires Basic(s) && CanQpPropagate(s)
    ensures Basic(DoQpPropagate(s))
    ensures Marks(s) ==> Marks(DoQpPropagate(s))
  {
    var z := DoQpPropagate(s);
    PropagateShapes(s);
    assert Detect(z.tx, z.qp) && Rounds(z.qp);
    QpBasic(s, z);
  }

  // ---------------------------------------------------------------- reclamation

  /** What every reclamation step inherits. */
  lemma ReclaimBasic(s: State, z: State)
    requires Basic(s) && z.hi == s.hi && z.tx == s.tx && z.ws == s.ws && z.qp == s.qp && z.clk == s.clk
    requires View(z) == View(s) && Hist(z.obj, z.ws) && Txs(z.tx, z.ws, z.log)
    requires Links(z.obj, View(s), s.qp.qp0) && Shapes(z) && JobShapes(z)
    requires Entries(View(s), z.ck, s.qp.qp0)
    ensures Basic(z)
  {
  }

  /** A step that touches no log and no object. */
  lemma JobBasic(s: State, z: State)
    requires Basic(s) && z == s.(tj := z.tj, cj := z.cj)
    requires JobShapes(z) && Shapes(z) && (Marks(s) ==> Marks(z))
    ensures Basic(z)
    ensures Marks(s) ==> Marks(z)
  {
    assert View(z) == View(s);
    ReclaimBasic(s, z);
  }

  lemma TJobBasic(s: State, t: nat, j: TJob)
    requires Basic(s) && t < |s.tj| && !s.tj[t].TDetach? && TJobShape(s.(tj := s.tj[t := j]), t)
    ensures Basic(s.(tj := s.tj[t := j]))
    ensures Marks(s) ==> Marks(s.(tj := s.tj[t := j]))
  {
    var z := s.(tj := s.tj[t := j]);
    forall u | 0 <= u < |z.tj| ensures TJobShape(z, u) && CJobShape(z, u) {
      assert TJobShape(s, u) && CJobShape(s, u);
    }
    SameShapes(s, z);
    if Marks(s) { SameMarks(s, z); }
    JobBasic(s, z);
  }

  lemma SameShapes(s: State, z: State)
    requires Shapes(s) && z.cj == s.cj && z.ck == s.ck && z.ws == s.ws && z.obj == s.obj
    ensures Shapes(z)
  {
    forall o | 0 <= o < |z.obj| ensures MasterShape(z, o) { assert MasterShape(s, o); }
    forall k, e | 0 <= k < |z.ck| && 0 <= e < |z.ck[k].ents| ensures EntryShape(z, z.ck[k].ents[e]) {
      assert EntryShape(s, s.ck[k].ents[e]);
    }
  }

  /** Detach marks only appear, and no job that is about to set one is lost. */
  lemma SameMarks(s: State, z: State)
    requires Marks(s) && |z.tj| == |s.tj| && |z.log| == |s.log| && |z.ck| == |s.ck| && |z.obj| == |s.obj| && z.ws == s.ws
    requires forall k :: 0 <= k < |s.ck| ==> z.ck[k].ents == s.ck[k].ents && z.log[k].ids == s.log[k].ids
    requires forall k :: 0 <= k < |s.tj| && s.tj[k].TDetach? ==> z.tj[k] == s.tj[k]
    requires forall o :: 0 <= o < |s.obj| ==> z.obj[o].vers == s.obj[o].vers
    ensures Marks(z)
  {
    forall k, e | 0 <= k < |z.ck| && 0 <= e < |z.ck[k].ents| ensures EntryMark(z, k, e) {
      assert EntryMark(s, k, e);
    }
  }

  lemma CJobBasic(s: State, t: nat, j: CJob)
    requires Basic(s) && t < |s.cj| && CJobShape(s.(cj := s.cj[t := j]), t)
    requires forall o :: 0 <= o < |s.obj| && s.obj[o].cur.Entry? && s.obj[o].cur.k == t ==>
      WbPos(s.ck[t], j) <= s.obj[o].cur.e
    ensures Basic(s.(cj := s.cj[t := j]))
    ensures Marks(s) ==> Marks(s.(cj := s.cj[t := j]))
  {
    var z := s.(cj := s.cj[t := j]);
    forall u | 0 <= u < |z.tj| ensures TJobShape(z, u) && CJobShape(z, u) {
      assert TJobShape(s, u) && CJobShape(s, u);
    }
    forall o | 0 <= o < |z.obj| ensures MasterShape(z, o) { assert MasterShape(s, o); }
    forall k, e | 0 <= k < |z.ck| && 0 <= e < |z.ck[k].ents| ensures EntryShape(z, z.ck[k].ents[e]) {
      assert EntryShape(s, s.ck[k].ents[e]);
    }
    if Marks(s) { SameMarks(s, z); }
    JobBasic(s, z);
  }

  lemma TvJobBasic(s: State, a: Action, z: State)
    requires Basic(s) && TvNextStep(s, a, z) && (a.TvStart? || a.TvScanBegin? || a.TvSkip? || a.TvNext?)
    ensures Basic(z)
    ensures Marks(s) ==> Marks(z)
  {
    assert TJobShape(s, a.t) && LogOk(a.t, s.tx[a.t], s.ws, s.log[a.t]);
    TJobBasic(s, a.t, z.tj[a.t]);
  }

  lemma CkJobBasic(s: State, a: Action, z: State)
    requires Basic(s) && CkNextStep(s, a, z) && (a.CkStart? || a.CkWbBegin? || a.CkSkip?)
    ensures Basic(z)
    ensures Marks(s) ==> Marks(z)
  {
    hide Linear, Links, Walks;
    var t := a.t;
    assert CJobShape(s, t);
    forall o | 0 <= o < |s.obj| && s.obj[o].cur.Entry? && s.obj[o].cur.k == t
      ensures WbPos(s.ck[t], z.cj[t]) <= s.obj[o].cur.e
    {
      assert MasterShape(s, o);
    }
    CJobBasic(s, t, z.cj[t]);
  }

  lemma TvDropBasic(s: State, t: nat)
    requires Basic(s) && CanTvDrop(s, t)
    ensures Basic(DoTvDrop(s, t))
    ensures Marks(s) ==> Marks(DoTvDrop(s, t))
  {
    hide Hist, Links, Walks, Gaps, BelowSeen, Clocks;
    var z, lg := DoTvDrop(s, t), s.log[t];
    assert TJobShape(s, t) && LogOk(t, s.tx[t], s.ws, lg);
    LogStep(s.tx, s.ws, s.log, t, lg.head + 1, lg.prev);
    assert z.log == s.log[t := lg.(head := lg.head + 1, prev := lg.prev)];
    forall u | 0 <= u < |z.tj| ensures TJobShape(z, u) && CJobShape(z, u) {
      assert TJobShape(s, u) && CJobShape(s, u);
    }
    SameShapes(s, z);
    if Marks(s) { SameMarks(s, z); }
    assert View(z) == View(s);
    ReclaimBasic(s, z);
  }

  lemma TvFinishBasic(s: State, t: nat)
    requires Basic(s) && CanTvFinish(s, t)
    ensures Basic(DoTvFinish(s, t))
    ensures Marks(s) ==> Marks(DoTvFinish(s, t))
  {
    hide Hist, Links, Walks, Gaps, BelowSeen, Clocks;
    var z := DoTvFinish(s, t);
    assert TJobShape(s, t) && LogOk(t, s.tx[t], s.ws, s.log[t]);
    LogStep(s.tx, s.ws, s.log, t, s.log[t].head, s.tj[t].p);
    assert z.log == s.log[t := s.log[t].(head := s.log[t].head, prev := s.tj[t].p)];
    FinishShapes(s, t);
    if Marks(s) { SameMarks(s, z); }
    SameEntries(View(s), s.ck, z.ck, s.qp.qp0);
    assert View(z) == View(s);
    ReclaimBasic(s, z);
  }

  lemma SameEntries(v: seq<seq<Clk>>, ck: seq<CkLog>, zk: seq<CkLog>, qp0: nat)
    requires Entries(v, ck, qp0) && |zk| == |ck| && forall k :: 0 <= k < |ck| ==> zk[k].ents == ck[k].ents && CkShape(zk[k])
    ensures Entries(v, zk, qp0)
  {
    forall k, e | 0 <= k < |zk| && 0 <= e < |zk[k].ents| ensures EntryOk(v, zk[k].ents[e], qp0) {
      assert EntryOk(v, ck[k].ents[e], qp0);
    }
  }

  lemma FinishShapes(s: State, t: nat)
    requires Shapes(s) && JobShapes(s) && CanTvFinish(s, t)
    ensures Shapes(DoTvFinish(s, t)) && JobShapes(DoTvFinish(s, t))
  {
    var z := DoTvFinish(s, t);
    forall u | 0 <= u < |z.tj| ensures TJobShape(z, u) && CJobShape(z, u) {
      assert TJobShape(s, u) && CJobShape(s, u);
    }
    forall o | 0 <= o < |z.obj| ensures MasterShape(z, o) { assert MasterShape(s, o); }
    forall k, e | 0 <= k < |z.ck| && 0 <= e < |z.ck[k].ents| ensures EntryShape(z, z.ck[k].ents[e]) {
      assert EntryShape(s, s.ck[k].ents[e]);
    }
  }

  lemma SameCkShapes(s: State, z: State, t: nat)
    requires Entries(View(s), s.ck, s.qp.qp0) && t < |s.ck| == |z.ck|
    requires z.ck == s.ck[t := z.ck[t]] && CkShape(z.ck[t])
    ensures forall k :: 0 <= k < |s.ck| ==> CkShape(z.ck[k])
  {
  }

  /** Moving a ckptlog's head, and at the end of a call prev and the durable head. */
  lemma CkLogBasic(s: State, z: State, t: nat, j: CJob)
    requires Basic(s) && t < |s.ck| == |s.cj| == |z.ck| && z == s.(ck := s.ck[t := z.ck[t]], cj := s.cj[t := j])
    requires z.ck[t].ents == s.ck[t].ents && CkShape(z.ck[t]) && CJobShape(z, t)
    requires forall o :: 0 <= o < |s.obj| && s.obj[o].cur.Entry? && s.obj[o].cur.k == t ==>
      WbPos(z.ck[t], j) <= s.obj[o].cur.e
    ensures Basic(z)
    ensures Marks(s) ==> Marks(z)
  {
    hide Links, Walks, Ops, Detect, Gaps, BelowSeen, Txs, Hist, Marks, Entries;
    forall u | 0 <= u < |z.tj| ensures TJobShape(z, u) && CJobShape(z, u) {
      assert TJobShape(s, u) && CJobShape(s, u);
    }
    forall o | 0 <= o < |z.obj| ensures MasterShape(z, o) { assert MasterShape(s, o); }
    forall k, e | 0 <= k < |z.ck| && 0 <= e < |z.ck[k].ents| ensures EntryShape(z, z.ck[k].ents[e]) {
      assert EntryShape(s, s.ck[k].ents[e]);
    }
    if Marks(s) { SameMarks(s, z); }
    assert forall k :: 0 <= k < |s.ck| ==> CkShape(z.ck[k]) by { SameCkShapes(s, z, t); }
    SameEntries(View(s), s.ck, z.ck, s.qp.qp0);
    assert View(z) == View(s);
    ReclaimBasic(s, z);
  }

  lemma CkDropBasic(s: State, t: nat)
    requires Basic(s) && CanCkDrop(s, t)
    ensures Basic(DoCkDrop(s, t))
    ensures Marks(s) ==> Marks(DoCkDrop(s, t))
  {
    hide Linear, Links, Walks;
    var z := DoCkDrop(s, t);
    assert CJobShape(s, t) && CkShape(s.ck[t]);
    forall o | 0 <= o < |s.obj| && s.obj[o].cur.Entry? && s.obj[o].cur.k == t
      ensures WbPos(z.ck[t], z.cj[t]) <= s.obj[o].cur.e
    {
      assert MasterShape(s, o);
    }
    assert z.cj == s.cj[t := s.cj[t]];
    CkLogBasic(s, z, t, s.cj[t]);
  }

  lemma CkFinishBasic(s: State, t: nat)
    requires Basic(s) && CanCkFinish(s, t)
    ensures Basic(DoCkFinish(s, t))
    ensures Marks(s) ==> Marks(DoCkFinish(s, t))
  {
    hide Linear, Links, Walks;
    var z := DoCkFinish(s, t);
    assert CJobShape(s, t) && CkShape(s.ck[t]);
    forall o | 0 <= o < |s.obj| && s.obj[o].cur.Entry? && s.obj[o].cur.k == t
      ensures WbPos(z.ck[t], z.cj[t]) <= s.obj[o].cur.e
    {
      assert MasterShape(s, o);
    }
    CkLogBasic(s, z, t, CNone);
  }

  // ---- steps on one object

  /** A chain does not depend on where the master is. */
  lemma LinksMaster(obj: seq<Obj>, view: seq<seq<Clk>>, qp0: nat, o: nat, cur: Loc, org: nat)
    requires Links(obj, view, qp0) && o < |obj|
    ensures Links(obj[o := obj[o].(cur := cur, org := org)], view, qp0)
  {
    var zo := obj[o := obj[o].(cur := cur, org := org)];
    forall p | 0 <= p < |zo| ensures LinkOk(zo[p], view[p]) && MarksOld(zo[p], view[p], qp0) {
      assert LinkOk(obj[p], view[p]) && MarksOld(obj[p], view[p], qp0);
      forall i | 1 <= i < |view[p]| ensures LinkVer(zo[p], view[p], i) {
        assert LinkVer(obj[p], view[p], i);
      }
    }
  }

  /** A step that moves one object's master. */
  lemma MasterStep(s: State, z: State, o: nat)
    requires Basic(s) && o < |s.obj| == |z.obj| && Shapes(z) && JobShapes(z) && Entries(View(s), z.ck, s.qp.qp0) && (Marks(s) ==> Marks(z))
    requires z == s.(obj := s.obj[o := s.obj[o].(cur := z.obj[o].cur, org := z.obj[o].org)],
                     ck := z.ck, tj := z.tj, cj := z.cj)
    ensures Basic(z)
    ensures Marks(s) ==> Marks(z)
  {
    hide Shapes, Entries, Marks, Timing, Walks;
    LinksMaster(s.obj, View(s), s.qp.qp0, o, z.obj[o].cur, z.obj[o].org);
    MasterHist(s.obj, s.ws, o, z.obj[o]);
    ViewSame(s, z);
    ReclaimBasic(s, z);
  }

  /** The copy a scan looks at is published, and was stamped before qp0. */
  lemma ScannedAt(s: State, t: nat)
    requires Basic(s) && ScanningItem(s, t)
    ensures s.clk[t] == Clks(s.qp.qp0, s.qp.qp2, s.qp.last)
    ensures var it := ScanItem(s, t);
            1 <= it.v && Published(s, it.o, it.v) && LtClk(View(s)[it.o][it.v], s.qp.qp0) && s.obj[it.o].vers[it.v].raw.At?
    ensures WsAt(s, t, s.tj[t].p).t == t && s.tj[t].p < |s.log[t].ids|
    ensures s.obj[ScanItem(s, t).o].vers[ScanItem(s, t).v].w == s.log[t].ids[s.tj[t].p]
  {
    hide Links, Walks, Shapes, Entries, Marks, Gaps, BelowSeen;
    assert TJobShape(s, t) && LogOk(t, s.tx[t], s.ws, s.log[t]);
    assert LogEntryOk(t, s.tx[t], s.ws, s.log[t], s.tj[t].p);
    var w := s.log[t].ids[s.tj[t].p];
    assert WsOk(s.obj, s.ws, w) && ItemOk(s.obj, s.ws, w, s.tj[t].k);
    assert View(s)[ScanItem(s, t).o][ScanItem(s, t).v] == s.ws[w].pending;
    Settled(s, ScanItem(s, t).o, ScanItem(s, t).v);
  }

  lemma CkptShapes(s: State, t: nat)
    requires Basic(s) && CanTvCkpt(s, t)
    ensures Shapes(DoTvCkpt(s, t)) && JobShapes(DoTvCkpt(s, t))
  {
    hide Linear, Links, Walks;
    var z := DoTvCkpt(s, t);
    ScannedAt(s, t);
    assert CJobShape(s, t) && CkShape(s.ck[t]);
    forall o | 0 <= o < |z.obj| ensures MasterShape(z, o) { assert MasterShape(s, o); }
    forall k, e | 0 <= k < |z.ck| && 0 <= e < |z.ck[k].ents| ensures EntryShape(z, z.ck[k].ents[e]) {
      assert e < |s.ck[k].ents| ==> EntryShape(s, s.ck[k].ents[e]);
    }
    forall u | 0 <= u < |z.tj| ensures TJobShape(z, u) && CJobShape(z, u) {
      assert TJobShape(s, u) && CJobShape(s, u);
    }
  }

  /** A live copy at the borderline is the newest version before the checkpoint clock. */
  lemma BorderlineBefore(s: State, o: nat, i: nat, last: nat)
    requires Basic(s) && o < |s.obj| && 1 <= i < |s.obj[o].vers| && s.obj[o].vers[i].raw.At?
    requires !s.obj[o].vers[i].detached && Borderline(s.obj[o].vers[i], s.qp.qp0, last)
    ensures o < |View(s)| && NewestBefore(View(s)[o], i, s.qp.qp0)
  {
    hide Txs, Clocks, BelowSeen, Shapes, Entries, Marks, Walks, JobShapes, Detect;
    var ob, c := s.obj[o], View(s)[o];
    LinkAt(s, o, i);
    if i + 1 < |c| {
      LinkAt(s, o, i + 1);
      if LtClk(c[i + 1], s.qp.qp0) { Settled(s, o, i + 1); }
    }
  }

  lemma CkptEntries(s: State, t: nat)
    requires Basic(s) && CanTvCkpt(s, t)
    ensures Entries(View(s), DoTvCkpt(s, t).ck, s.qp.qp0)
    ensures Marks(s) ==> Marks(DoTvCkpt(s, t))
  {
    hide Linear, Links, Walks, Shapes;
    var z, it := DoTvCkpt(s, t), ScanItem(s, t);
    ScannedAt(s, t);
    BorderlineBefore(s, it.o, it.v, s.clk[t].last);
    forall k, e | 0 <= k < |z.ck| && 0 <= e < |z.ck[k].ents| ensures EntryOk(View(s), z.ck[k].ents[e], s.qp.qp0) {
      if e < |s.ck[k].ents| { EntryKnown(s, k, e); }
    }
    if Marks(s) {
      forall k, e | 0 <= k < |z.ck| && 0 <= e < |z.ck[k].ents| ensures EntryMark(z, k, e) {
        assert e < |s.ck[k].ents| ==> EntryMark(s, k, e);
      }
    }
  }

  lemma TvCkptBasic(s: State, t: nat)
    requires Basic(s) && CanTvCkpt(s, t)
    ensures Basic(DoTvCkpt(s, t))
    ensures Marks(s) ==> Marks(DoTvCkpt(s, t))
  {
    CkptShapes(s, t);
    CkptEntries(s, t);
    hide Basic, Shapes, Entries, Marks, JobShapes, Entries, Marks;
    MasterStep(s, DoTvCkpt(s, t), ScanItem(s, t).o);
  }

  /** The copy being detached was published before the grace-period clock. */
  lemma DetachedAt(s: State, t: nat)
    requires Basic(s) && CanTvDetach(s, t)
    ensures var it := WsAt(s, t, s.tj[t].p).items[s.tj[t].k];
            && 1 <= it.v < |s.obj[it.o].vers| && LtClk(View(s)[it.o][it.v], s.qp.qp0)
            && s.obj[it.o].vers[it.v].w == s.log[t].ids[s.tj[t].p] && s.obj[it.o].vers[it.v].raw.At?
    ensures WsAt(s, t, s.tj[t].p).t == t
  {
    hide Links, Walks, Shapes, Entries, Marks, Gaps, BelowSeen;
    assert TJobShape(s, t) && LogOk(t, s.tx[t], s.ws, s.log[t]) && TxOk(t, s.tx[t], s.ws, s.log[t]);
    assert LogEntryOk(t, s.tx[t], s.ws, s.log[t], s.tj[t].p);
    var w := s.log[t].ids[s.tj[t].p];
    assert WsOk(s.obj, s.ws, w) && ItemOk(s.obj, s.ws, w, s.tj[t].k);
    var it := s.ws[w].items[s.tj[t].k];
    assert View(s)[it.o][it.v] == s.ws[w].pending;
    Settled(s, it.o, it.v);
  }

  /** Only the thread that wrote a version detaches it. */
  lemma DetachIsOwn(s: State, k: nat, o: nat, v: nat)
    requires Linear(s) && JobShapes(s) && k < |s.tj| && MidDetach(s.tj[k], s.log[k], s.ws, o, v)
    ensures o < |s.obj| && v < |s.obj[o].vers| && s.obj[o].vers[v].w < |s.ws|
    ensures s.ws[s.obj[o].vers[v].w].t == k
  {
    assert TJobShape(s, k) && LogOk(k, s.tx[k], s.ws, s.log[k]);
    assert LogEntryOk(k, s.tx[k], s.ws, s.log[k], s.tj[k].p);
    var w := s.log[k].ids[s.tj[k].p];
    assert WsOk(s.obj, s.ws, w) && ItemOk(s.obj, s.ws, w, s.tj[k].k);
  }

  lemma DetachLink(ob: Obj, c: seq<Clk>, i: nat)
    requires LinkOk(ob, c) && 1 <= i < |c| && ob.vers[i].raw.At?
    ensures LinkOk(DetachObj(ob, i), c)
  {
    var x := DetachObj(ob, i);
    forall j | 1 <= j < |c| ensures LinkVer(x, c, j) {
      assert LinkVer(ob, c, j);
      assert j + 1 < |c| ==> LinkVer(ob, c, j + 1);
    }
  }

  lemma DetachLinks(s: State, t: nat)
    requires Basic(s) && CanTvDetach(s, t)
    ensures Links(DoTvDetach(s, t).obj, View(s), s.qp.qp0)
  {
    hide Linear, Walks, Shapes, Entries, Marks, Timing, LinkVer;
    var z := DoTvDetach(s, t);
    var it := WsAt(s, t, s.tj[t].p).items[s.tj[t].k];
    DetachedAt(s, t);
    assert LinkOk(s.obj[it.o], View(s)[it.o]);
    DetachLink(s.obj[it.o], View(s)[it.o], it.v);
    forall o | 0 <= o < |z.obj| ensures LinkOk(z.obj[o], View(s)[o]) && MarksOld(z.obj[o], View(s)[o], s.qp.qp0) {
      assert LinkOk(s.obj[o], View(s)[o]) && MarksOld(s.obj[o], View(s)[o], s.qp.qp0);
    }
  }

  lemma DetachShapes(s: State, t: nat)
    requires Shapes(s) && JobShapes(s) && CanTvDetach(s, t)
    ensures Shapes(DoTvDetach(s, t)) && JobShapes(DoTvDetach(s, t))
  {
    var z := DoTvDetach(s, t);
    forall o | 0 <= o < |z.obj| ensures MasterShape(z, o) { assert MasterShape(s, o); }
    forall k, e | 0 <= k < |z.ck| && 0 <= e < |z.ck[k].ents| ensures EntryShape(z, z.ck[k].ents[e]) {
      assert EntryShape(s, s.ck[k].ents[e]);
    }
    forall u | 0 <= u < |z.tj| ensures TJobShape(z, u) && CJobShape(z, u) {
      assert TJobShape(s, u) && CJobShape(s, u);
    }
  }

  lemma DetachMarks(s: State, t: nat)
    requires Marks(s) && CanTvDetach(s, t)
    ensures Marks(DoTvDetach(s, t))
  {
    var z := DoTvDetach(s, t);
    forall k, e | 0 <= k < |z.ck| && 0 <= e < |z.ck[k].ents| ensures EntryMark(z, k, e) {
      assert EntryMark(s, k, e);
    }
  }

  lemma TvDetachBasic(s: State, t: nat)
    requires Basic(s) && CanTvDetach(s, t)
    ensures Basic(DoTvDetach(s, t)) && View(DoTvDetach(s, t)) == View(s)
    ensures Marks(s) ==> Marks(DoTvDetach(s, t))
  {
    hide Links, Walks, Shapes, Entries, Marks;
    var z := DoTvDetach(s, t);
    var it := WsAt(s, t, s.tj[t].p).items[s.tj[t].k];
    DetachLinks(s, t);
    DetachShapes(s, t);
    if Marks(s) { DetachMarks(s, t); }
    MasterHist(s.obj, s.ws, it.o, z.obj[it.o]);
    ViewSame(s, z);
    ReclaimBasic(s, z);
  }

  /** An entry that may be written back is from an earlier round. */
  lemma WbEarlier(s: State, t: nat)
    requires Basic(s) && WbEntry(s, t)
    ensures s.ck[t].ents[s.cj[t].p].s < s.qp.qp0
  {
    assert CJobShape(s, t);
  }

  /** Copying the entry over the original, and storing the original as the master. */
  lemma CkObjShapes(s: State, a: Action, z: State)
    requires Shapes(s) && JobShapes(s) && CkNextStep(s, a, z) && (a.CkCopy? || a.CkStore?)
    ensures Shapes(z) && JobShapes(z)
  {
    CkObjChange(s, a, z);
    hide CkNextStep;
    var t := a.t;
    var en := s.ck[t].ents[s.cj[t].p];
    assert EntryShape(s, en);
    forall o | 0 <= o < |z.obj| ensures MasterShape(z, o) { assert MasterShape(s, o); }
    forall k, e | 0 <= k < |z.ck| && 0 <= e < |z.ck[k].ents| ensures EntryShape(z, z.ck[k].ents[e]) {
      assert EntryShape(s, s.ck[k].ents[e]);
    }
    forall u | 0 <= u < |z.tj| ensures TJobShape(z, u) && CJobShape(z, u) {
      assert TJobShape(s, u) && CJobShape(s, u);
    }
  }

  lemma CkObjChange(s: State, a: Action, z: State)
    requires Shapes(s) && JobShapes(s) && CkNextStep(s, a, z) && (a.CkCopy? || a.CkStore?)
    ensures a.t < |s.cj| && (s.cj[a.t].CWb? || s.cj[a.t].CStore?) && s.cj[a.t].p < |s.ck[a.t].ents|
    ensures var o := s.ck[a.t].ents[s.cj[a.t].p].o;
            && o < |s.obj| && |z.obj| == |s.obj|
            && z == s.(obj := s.obj[o := s.obj[o].(cur := z.obj[o].cur, org := z.obj[o].org)],
                       cj := s.cj[a.t := if a.CkCopy? then CStore(s.cj[a.t].p) else CWb(s.cj[a.t].p + 1)])
            && (a.CkCopy? ==> z.obj[o].cur == s.obj[o].cur && z.obj[o].org == s.ck[a.t].ents[s.cj[a.t].p].v)
            && (a.CkStore? ==> z.obj[o].cur == Org && z.obj[o].org == s.obj[o].org)
    ensures CJobShape(z, a.t)
  {
    assert CJobShape(s, a.t);
  }

  lemma CkObjBasic(s: State, a: Action, z: State)
    requires Basic(s) && CkNextStep(s, a, z) && (a.CkCopy? || a.CkStore?)
    ensures Basic(z)
    ensures Marks(s) ==> Marks(z)
  {
    CkObjShapes(s, a, z);
    CkObjChange(s, a, z);
    hide CkNextStep;
    if Marks(s) { SameMarks(s, z); }
    hide Basic, Shapes, Entries, Marks, JobShapes, Entries, Marks;
    MasterStep(s, z, s.ck[a.t].ents[s.cj[a.t].p].o);
  }
}
