/** Nobody gets stuck: along every run, whatever a thread, the qp thread or a reclamation
    call has begun can go on, or waits for something named here that can. */
module Progress {
  import opened Options
  import opened Ordo
  import opened Protocol
  import opened History
  import opened Invariant
  import opened Basics
  import opened BasicSteps
  import opened Runs
  import opened OpQueues

  // ---------------------------------------------------------------- transactions

  /** Thread t's transaction has a next step. */
  ghost predicate TxCanStep(s: State, t: nat)
    requires t < |s.tx|
  {
    match s.tx[t].ph
    case Idle => CanBeginCount(s, t)
    case Begun => forall c :: Readable(s, t, c) ==> CanBeginClock(s, t, c)
    case Running =>
      (match s.tx[t].rd
       case NoRead =>
         && CanAbort(s, t) && (CanCommitBegin(s, t) || CanTxEnd(s, t))
         && (forall o :: 0 <= o < |s.obj| ==> CanDerefBegin(s, t, o))
       case AtCopy(_, _, _) => CanDerefCopy(s, t)
       case AtMaster(_) => CanDerefMaster(s, t))
    case Installing =>
      CanCommitInstall(s, t) || forall c :: Readable(s, t, c) && Gt(c, s.tx[t].lclk + ORDO_BOUNDARY) ==> CanCommitStamp(s, t, c)
    case Stamped => CanCommitLog(s, t) || CanCommitPersist(s, t) || CanCommitPublish(s, t)
    case Unlocking => CanCommitUnlock(s, t) || CanTxEnd(s, t)
    case Aborting => CanAbortUnlock(s, t) || CanAbortDone(s, t)
  }

  /** Any clock not more than a window behind anybody's, and not behind the thread's own, may
      be what it reads. */
  predicate Readable(s: State, t: nat, c: nat)
    requires t < |s.tx|
  {
    c + ORDO_BOUNDARY >= s.hi && c >= s.tx[t].last
  }

  /** A reader waits for a commit whose clock is not after its own and which has not been
      published yet: get_wrt_clk spins on wrt_clk. */
  predicate WaitsFor(s: State, t: nat, u: nat)
    requires t < |s.tx|
  {
    var rd := s.tx[t].rd;
    && s.tx[t].ph == Running && rd.AtCopy? && rd.o < |s.obj| && rd.i < |s.obj[rd.o].vers|
    && var w := s.obj[rd.o].vers[rd.i].w;
       && w < |s.ws| && u == s.ws[w].t < |s.tx| && s.tx[u].ph == Stamped && s.tx[u].ws == Some(w)
       && s.ws[w].pending.At? && s.ws[w].pending.c <= s.tx[t].lclk
  }

  /** Every transaction can go on, or waits for a commit that can. */
  lemma TxProgress(s: State, t: nat)
    requires Basic(s) && Queues(s) && t < |s.tx|
    ensures TxCanStep(s, t) || exists u: nat :: u < |s.tx| && u != t && WaitsFor(s, t, u) && TxCanStep(s, u)
  {
    assert |s.clk| == |s.tx| == |s.log| == |s.oplog|;
    hide Queues;
    if s.tx[t].ph == Running {
      RunningSteps(s, t);
    } else {
      PhaseSteps(s, t);
    }
  }

  lemma RunningSteps(s: State, t: nat)
    requires Basic(s) && Queues(s) && t < |s.tx| && s.tx[t].ph == Running
    requires |s.clk| == |s.tx| == |s.log| == |s.oplog|
    ensures TxCanStep(s, t) || exists u: nat :: u < |s.tx| && u != t && WaitsFor(s, t, u) && TxCanStep(s, u)
  {
    hide Queues;
    LocalBasic(s, t);
    if s.tx[t].rd.AtCopy? {
      var rd := s.tx[t].rd;
      LinkAt2(s, rd.o);
      if !CanDerefCopy(s, t) {
        var u := Awaited(s, t);
        PhaseSteps(s, u);
      }
    }
    hide Basic;
  }

  lemma LinkAt2(s: State, o: nat)
    requires Basic(s) && o < |View(s)|
    ensures o < |s.obj| && |View(s)[o]| == |s.obj[o].vers|
  {
  }

  /** The commit a reader has to wait for. */
  lemma Awaited(s: State, t: nat) returns (u: nat)
    requires Basic(s) && t < |s.tx| && s.tx[t].ph == Running && s.tx[t].rd.AtCopy? && !CanDerefCopy(s, t)
    ensures u < |s.tx| && u != t && WaitsFor(s, t, u) && s.tx[u].ph != Running
  {
    hide Shapes, Entries, Links, Gaps, BelowSeen, Timing, Ops, Clocks;
    var rd := s.tx[t].rd;
    assert WalkOk(s.tx[t], View(s), s.qp.last) && rd.i < |View(s)[rd.o]| == |s.obj[rd.o].vers|;
    assert ObjOk(s.obj[rd.o], rd.o, s.ws) && VerOk(s.obj[rd.o], rd.o, s.ws, rd.i);
    var w := s.obj[rd.o].vers[rd.i].w;
    u := s.ws[w].t;
    assert WsOk(s.obj, s.ws, w) && Placed(s.tx, s.log, s.ws[w], w);
    assert TxOk(u, s.tx[u], s.ws, s.log[u]);
  }

  lemma PhaseSteps(s: State, t: nat)
    requires Basic(s) && Queues(s) && t < |s.tx| && s.tx[t].ph != Running
    requires |s.clk| == |s.tx| == |s.log| == |s.oplog|
    ensures TxCanStep(s, t)
  {
    hide Shapes, Entries, Walks, Gaps, BelowSeen, Detect, JobShapes, Queues;
    LocalBasic(s, t);
    if s.tx[t].ws.Some? {
      var w := s.tx[t].ws.value;
      assert WsOk(s.obj, s.ws, w) && OpOk(s.ws[w], s.qp.dlast);
      if s.ws[w].inst < |s.ws[w].items| { assert ItemOk(s.obj, s.ws, w, s.ws[w].inst); }
      if s.ws[w].unl < |s.ws[w].items| { assert ItemOk(s.obj, s.ws, w, s.ws[w].unl); }
      ItemLinks(s, t);
      if s.tx[t].ph == Stamped { NotReclaimed(s, t); }
    }
    hide Basic, Links, Hist;
  }

  /** The chains of the objects of a write set are as its owner expects them. */
  lemma ItemLinks(s: State, t: nat)
    requires Basic(s) && HasWs(s, t)
    ensures forall o :: 0 <= o < |s.obj| && s.obj[o].pcopy.Some? ==> s.obj[o].pcopy.value < |s.obj[o].vers|
    ensures forall o, i :: 0 <= o < |s.obj| && 1 <= i < |s.obj[o].vers| && s.obj[o].vers[i].next.Some? ==>
      s.obj[o].vers[i].next.value < |s.obj[o].vers|
  {
    forall o, i | 0 <= o < |s.obj| && 1 <= i < |s.obj[o].vers| && s.obj[o].vers[i].next.Some?
      ensures s.obj[o].vers[i].next.value < |s.obj[o].vers|
    {
      LinkAt(s, o, i);
    }
    forall o | 0 <= o < |s.obj| && s.obj[o].pcopy.Some? ensures s.obj[o].pcopy.value < |s.obj[o].vers| {
      assert LinkOk(s.obj[o], View(s)[o]);
    }
  }

  /** The operation of a commit under way has not been reclaimed. */
  lemma NotReclaimed(s: State, t: nat)
    requires Basic(s) && HasWs(s, t) && s.tx[t].ph == Stamped
    ensures CurWs(s, t).op != Reclaimed
  {
    LocalBasic(s, t);
    assert OpOk(CurWs(s, t), s.qp.dlast);
  }

  // ---------------------------------------------------------------- the qp thread

  predicate SomeJob(s: State) {
    exists t :: 0 <= t < |s.tj| == |s.cj| && (s.tj[t] != TNone || s.cj[t] != CNone)
  }

  /** The thread is still in the transaction it was in when the grace period began, and
      that one began before it. */
  predicate HeldUpBy(s: State, t: nat) {
    && t < |s.tx| == |s.qp.need| == |s.qp.cap|
    && s.qp.need[t] && s.tx[t].run == s.qp.cap[t] && s.tx[t].run % 2 == 1 && Lt(s.tx[t].lclk, s.qp.clk)
  }

  ghost predicate QpCanStep(s: State) {
    match s.qp.ph
    case QRest => forall c :: c > s.hi + ORDO_BOUNDARY ==> CanQpClock(s, c)
    case QInit(_) => CanQpCapture(s)
    case QWait => CanQpAdvance(s) || exists t: nat :: t < |s.tx| && CanQpCheck(s, t)
    case QReady => CanQpSkip(s) && forall m, cq :: CanQpTrigger(s, m, cq)
    case QTrig(n) => CanQpPropagate(s) || CanQpBarrier(s)
    case QPub => CanQpPublish(s)
  }

  /** The qp thread can go on, or waits for transactions that began before its grace
      period, or for reclamation calls that are under way. */
  lemma QpProgress(s: State)
    requires Basic(s)
    ensures QpCanStep(s) || (s.qp.ph == QWait && exists t :: HeldUpBy(s, t)) || (s.qp.ph.QTrig? && SomeJob(s))
  {
    hide Linear, Links, Shapes, Entries, Walks, Ops, TJobShape, CJobShape;
    assert s.qp.fence <= s.hi by { FenceLow(s); }
    if s.qp.ph == QWait && !CanQpAdvance(s) {
      var t: nat :| t < |s.qp.need| && s.qp.need[t];
      assert Waited(s.tx[t], s.qp.need[t], s.qp.cap[t], s.qp.clk);
      if !CanQpCheck(s, t) { assert HeldUpBy(s, t); }
    }
  }

  lemma FenceLow(s: State)
    requires Basic(s)
    ensures s.qp.fence <= s.hi
  {
  }

  // ---------------------------------------------------------------- reclamation

  predicate TvCanStep(s: State, t: nat)
    requires t < |s.tj|
  {
    match s.tj[t]
    case TNone => true
    case TReq(_) => CanTvStart(s, t)
    case TDrop(_, _) => CanTvDrop(s, t) || CanTvScanBegin(s, t)
    case TScan(_, _, _) => CanTvSkip(s, t) || CanTvCkpt(s, t) || CanTvNext(s, t) || CanTvFinish(s, t)
    case TDetach(_, _) => CanTvDetach(s, t)
  }

  /** Reclamation of a tvlog never waits. */
  lemma TvProgress(s: State, t: nat)
    requires Basic(s) && t < |s.tj|
    ensures TvCanStep(s, t)
  {
    hide Links, Shapes, Entries, Walks, Ops, Gaps, BelowSeen, CJobShape, Detect;
    assert TJobShape(s, t) && LogOk(t, s.tx[t], s.ws, s.log[t]);
    match s.tj[t] {
      case TDrop(m, lim) =>
        if s.log[t].head < lim {
          assert WrtAt(s.ws, s.log[t], s.log[t].head).At?;
        }
      case TScan(m, p, k) =>
        if p < |s.log[t].ids| {
          assert LogEntryOk(t, s.tx[t], s.ws, s.log[t], p);
          var w := s.log[t].ids[p];
          assert WsOk(s.obj, s.ws, w);
          if k < |s.ws[w].items| { assert ItemOk(s.obj, s.ws, w, k); }
          ScanLength(s, t);
        } else {
          ScanLength(s, t);
        }
      case TDetach(p, k) =>
        assert LogEntryOk(t, s.tx[t], s.ws, s.log[t], p);
        var w := s.log[t].ids[p];
        assert WsOk(s.obj, s.ws, w) && ItemOk(s.obj, s.ws, w, k);
      case _ =>
    }
  }

  lemma ScanLength(s: State, t: nat)
    requires Basic(s) && t < |s.tj| && s.tj[t].TScan?
    ensures s.tj[t].k > 0 ==> s.tj[t].p < |s.log[t].ids|
  {
    assert TJobShape(s, t);
  }

  predicate CkCanStep(s: State, t: nat)
    requires t < |s.cj|
  {
    match s.cj[t]
    case CNone => true
    case CReq => CanCkStart(s, t)
    case CDrop(_) => CanCkDrop(s, t) || CanCkWbBegin(s, t)
    case CWb(_) => CanCkCopy(s, t) || CanCkSkip(s, t) || CanCkFinish(s, t)
    case CStore(_) => CanCkStore(s, t)
  }

  /** Reclamation of a checkpoint log never waits. */
  lemma CkProgress(s: State, t: nat)
    requires Basic(s) && t < |s.cj|
    ensures CkCanStep(s, t)
  {
    hide Linear, Links, Walks, Ops, TJobShape, Detect;
    assert CJobShape(s, t) && CkShape(s.ck[t]);
  }
}
