/** Every action of the qp thread keeps the invariant: grace periods, rounds and
    the publication of checkpoints. */
module QpSteps {
  import opened Options
  import opened Ordo
  import opened Protocol
  import opened History
  import opened Invariant
  import opened Growth
  import opened Basics
  import opened BasicSteps
  import opened TxSteps

  lemma MastersQp(s: State, z: State, v: seq<seq<Clk>>)
    requires Masters(s, v) && QpSide(s, z)
    ensures Masters(z, v)
  {
    forall o | 0 <= o < |z.obj| ensures MasterOk(z, v, o) {
      assert MasterOk(s, v, o);
      var cur := s.obj[o].cur;
      if cur.Entry? {
        assert TAsked(s.tj[cur.k], z.tj[cur.k]) && CAsked(s.cj[cur.k], z.cj[cur.k]);
      }
    }
  }

  lemma PassedAllQp(obj: seq<Obj>, v: seq<seq<Clk>>, ws: seq<Ws>, lg: TvLog, p: nat, qp0: nat, zqp0: nat)
    requires PassedAll(obj, v, ws, lg, p, qp0) && qp0 <= zqp0
    ensures PassedAll(obj, v, ws, lg, p, zqp0)
  {
    forall q | 0 <= q < p
      ensures PassedWs(obj, v, ws, lg, q, if lg.ids[q] < |ws| then |ws[lg.ids[q]].items| else 0, zqp0)
    {
      PassedWsQp(obj, v, ws, lg, q, if lg.ids[q] < |ws| then |ws[lg.ids[q]].items| else 0, qp0, zqp0);
    }
  }

  lemma PassedWsQp(obj: seq<Obj>, v: seq<seq<Clk>>, ws: seq<Ws>, lg: TvLog, q: nat, n: nat, qp0: nat, zqp0: nat)
    requires PassedWs(obj, v, ws, lg, q, n, qp0) && qp0 <= zqp0
    ensures PassedWs(obj, v, ws, lg, q, n, zqp0)
  {
    if q < |lg.ids| && lg.ids[q] < |ws| && ws[lg.ids[q]].wrt.At? {
      forall k | 0 <= k < n ensures Passed(obj, v, ws[lg.ids[q]].items[k], zqp0) {
        assert Passed(obj, v, ws[lg.ids[q]].items[k], qp0);
      }
    }
  }

  lemma ScansQp(s: State, z: State, v: seq<seq<Clk>>)
    requires Scans(s, v) && QpSide(s, z)
    ensures Scans(z, v)
  {
    forall t | 0 <= t < |z.log| ensures ScanOk(z, v, t) {
      assert ScanOk(s, v, t) && TAsked(s.tj[t], z.tj[t]);
      PassedAllQp(s.obj, v, s.ws, s.log[t], s.log[t].prev, s.qp.qp0, z.qp.qp0);
      if s.tj[t].TScan? || s.tj[t].TDetach? {
        PassedAllQp(s.obj, v, s.ws, s.log[t], s.tj[t].p, s.qp.qp0, z.qp.qp0);
        PassedWsQp(s.obj, v, s.ws, s.log[t], s.tj[t].p, s.tj[t].k, s.qp.qp0, z.qp.qp0);
      }
    }
  }

  /** What every step of the qp thread inherits. */
  lemma QpStep(s: State, z: State)
    requires Inv(s) && QpSide(s, z)
    requires Clocks(z.hi, z.tx, z.ws, z.qp) && Covers(View(s), Curs(s), z.qp.dlast)
    requires Rounding(z) && z.qp.last >= s.qp.last && z.qp.dlast >= s.qp.dlast
    requires Crash(z, View(s))
    ensures Inv(z)
  {
    assert View(z) == View(s) && Curs(z) == Curs(s);
    MastersQp(s, z, View(s));
    ScansQp(s, z, View(s));
    assert Entries(View(z), z.ck, z.qp.qp0) by {
      forall k, e | 0 <= k < |z.ck| && 0 <= e < |z.ck[k].ents|
        ensures EntryOk(View(z), z.ck[k].ents[e], z.qp.qp0)
      {
        assert EntryOk(View(s), s.ck[k].ents[e], s.qp.qp0);
      }
    }
    forall u | 0 <= u < |z.tx| ensures ReaderOk(z.tx[u], View(z), Curs(z), z.qp.last) {
      assert ReaderOk(s.tx[u], View(s), Curs(s), s.qp.last);
    }
    forall w | 0 <= w < |z.ws| ensures OpOk(z.ws[w], z.qp.dlast) {
      assert OpOk(s.ws[w], s.qp.dlast);
    }
  }

  lemma NothingRuns(s: State)
    requires Rounding(s) && !s.qp.ph.QTrig?
    ensures forall t :: 0 <= t < |s.tj| ==> s.tj[t] == TNone
    ensures forall t :: 0 <= t < |s.cj| ==> s.cj[t] == CNone
  {
    TimingHolds(s);
    NoJobs(s);
  }

  lemma JobsIdle(s: State, z: State)
    requires Jobs(s) && z.tj == s.tj && z.cj == s.cj && z.clk == s.clk && z.log == s.log && z.ck == s.ck
    requires |z.tx| == |s.tx| && z.qp.last >= s.qp.last && (z.qp.ph.QTrig? ==> z.qp.ph.n == 0)
    requires forall t :: 0 <= t < |s.tj| ==> s.tj[t] == TNone
    requires forall t :: 0 <= t < |s.cj| ==> s.cj[t] == CNone
    ensures Jobs(z)
  {
    forall t | 0 <= t < |z.cj| ensures CJobOk(z, t) { assert CJobOk(s, t); }
  }

  /** Without running jobs every entry belongs to a finished checkpoint, so the
      crash masters are the current ones. */
  lemma CrashIdle(s: State, z: State)
    requires Inv(s) && QpSide(s, z) && z.tj == s.tj && z.cj == s.cj
    requires !s.qp.ph.QTrig? || s.qp.mode != Ckpt
    requires forall t :: 0 <= t < |s.tj| ==> s.tj[t] == TNone
    requires forall t :: 0 <= t < |s.cj| ==> s.cj[t] == CNone
    requires z.qp.dlast == s.qp.dlast
    ensures Crash(z, View(s))
  {
    forall k, e | 0 <= k < |z.ck| && 0 <= e < |z.ck[k].ents| ensures EntDurable(z, k, e) {
      assert EntDurable(s, k, e);
    }
    forall o | 0 <= o < |z.obj| ensures CrashOk(z, View(s), o) {
      assert CrashOk(s, View(s), o) && MasterOk(s, View(s), o);
      var cur := s.obj[o].cur;
      if cur.Entry? {
        assert EntDurable(s, cur.k, cur.e);
      }
    }
  }

  lemma QpClockInv(s: State, c: nat)
    requires Inv(s) && CanQpClock(s, c)
    ensures Inv(DoQpClock(s, c))
  {
    var z := DoQpClock(s, c);
    NothingRuns(s);
    JobsIdle(s, z);
    CrashIdle(s, z);
    QpStep(s, z);
  }

  lemma QpCaptureInv(s: State)
    requires Inv(s) && CanQpCapture(s)
    ensures Inv(DoQpCapture(s))
  {
    var z := DoQpCapture(s);
    NothingRuns(s);
    JobsIdle(s, z);
    CrashIdle(s, z);
    assert TxOk(s.qp.ph.n, s.tx[s.qp.ph.n], s.ws, s.log[s.qp.ph.n]);
    assert Detect(z.tx, z.qp);
    QpStep(s, z);
  }

  lemma QpCheckInv(s: State, t: nat)
    requires Inv(s) && CanQpCheck(s, t)
    ensures Inv(DoQpCheck(s, t))
  {
    var z := DoQpCheck(s, t);
    NothingRuns(s);
    JobsIdle(s, z);
    CrashIdle(s, z);
    assert Waited(s.tx[t], s.qp.need[t], s.qp.cap[t], s.qp.clk);
    assert Detect(z.tx, z.qp);
    QpStep(s, z);
  }

  lemma QpAdvanceInv(s: State)
    requires Inv(s) && CanQpAdvance(s)
    ensures Inv(DoQpAdvance(s))
  {
    var z := DoQpAdvance(s);
    NothingRuns(s);
    JobsIdle(s, z);
    CrashIdle(s, z);
    forall t | 0 <= t < |s.tx| && InTx(s.tx[t].ph) ensures s.tx[t].lclk >= z.qp.qp0 {
      assert Waited(s.tx[t], s.qp.need[t], s.qp.cap[t], s.qp.clk);
    }
    QpStep(s, z);
  }

  lemma QpSkipInv(s: State)
    requires Inv(s) && CanQpSkip(s)
    ensures Inv(DoQpSkip(s))
  {
    var z := DoQpSkip(s);
    NothingRuns(s);
    JobsIdle(s, z);
    CrashIdle(s, z);
    QpStep(s, z);
  }

  lemma QpTriggerInv(s: State, m: Mode, cq: bool)
    requires Inv(s) && CanQpTrigger(s, m, cq)
    ensures Inv(DoQpTrigger(s, m, cq))
  {
    var z := DoQpTrigger(s, m, cq);
    NothingRuns(s);
    JobsIdle(s, z);
    CrashIdle(s, z);
    QpStep(s, z);
  }

  lemma QpPublishInv(s: State)
    requires Inv(s) && CanQpPublish(s)
    ensures Inv(DoQpPublish(s))
  {
    var z := DoQpPublish(s);
    NothingRuns(s);
    JobsIdle(s, z);
    CrashIdle(s, z);
    QpStep(s, z);
  }

  lemma PropagateJobs(s: State)
    requires Jobs(s) && CanQpPropagate(s)
    ensures Jobs(DoQpPropagate(s)) && QpSide(s, DoQpPropagate(s))
  {
    var z := DoQpPropagate(s);
    assert TJobOk(s, s.qp.ph.n) && CJobOk(s, s.qp.ph.n);
    forall t | 0 <= t < |z.tj| ensures TJobOk(z, t) && DoneOk(z, t) && CJobOk(z, t) {
      assert TJobOk(s, t) && DoneOk(s, t) && CJobOk(s, t);
    }
  }

  lemma PropagateCrash(s: State, v: seq<seq<Clk>>)
    requires Jobs(s) && Crash(s, v) && CanQpPropagate(s)
    ensures Crash(DoQpPropagate(s), v)
  {
    var z := DoQpPropagate(s);
    assert TJobOk(s, s.qp.ph.n) && CJobOk(s, s.qp.ph.n);
    forall k, e | 0 <= k < |z.ck| && 0 <= e < |z.ck[k].ents| ensures EntDurable(z, k, e) {
      assert EntDurable(s, k, e);
    }
    forall o | 0 <= o < |z.obj| ensures CrashOk(z, v, o) {
      assert CrashOk(s, v, o);
    }
  }

  lemma QpPropagateInv(s: State)
    requires Inv(s) && CanQpPropagate(s)
    ensures Inv(DoQpPropagate(s))
  {
    var z := DoQpPropagate(s);
    PropagateJobs(s);
    PropagateCrash(s, View(s));
    assert Detect(z.tx, z.qp) && Rounds(z.qp);
    QpStep(s, z);
  }

  // ---------------------------------------------------------------- finishing a checkpoint

  /** When every tvlog has been scanned, version i of object o, committed before
      the checkpoint clock, is in o's master. By induction from the newest down. */
  lemma {:induction false} ScannedMeansCovered(s: State, o: nat, i: nat)
    requires Inv(s) && s.qp.ph.QTrig? && s.qp.ph.n == |s.tx| && s.qp.mode == Ckpt
    requires forall t :: 0 <= t < |s.tj| ==> s.tj[t] == TNone
    requires o < |s.obj| && 1 <= i < |View(s)[o]| && LtClk(View(s)[o][i], s.qp.qp0)
    ensures Curs(s)[o] >= i
    decreases |View(s)[o]| - i
  {
    hide Entries, Masters, Covers, Crash, Readers, Detect, Ops, CJobOk, TJobOk;
    var ob := s.obj[o];
    assert ChainOk(ob, View(s)[o], Curs(s)[o]) && ChainVer(ob, View(s)[o], Curs(s)[o], i);
    assert ObjOk(ob, o, s.ws) && VerOk(ob, o, s.ws, i);
    var w, k := ob.vers[i].w, ob.vers[i].k;
    var t := s.ws[w].t;
    assert Placed(s.tx, s.log, s.ws[w], w) && WsOk(s.obj, s.ws, w);
    assert StampAt(s.ws, s.log[t], s.ws[w].pos) == s.ws[w].pending == View(s)[o][i];
    assert DoneOk(s, t) && LogOk(t, s.tx[t], s.ws, s.log[t]) && ScanOk(s, View(s), t);
    var p := s.ws[w].pos;
    assert p < s.log[t].prev;
    assert WrtAt(s.ws, s.log[t], p).At?;
    assert PassedWs(s.obj, View(s), s.ws, s.log[t], p, |s.ws[w].items|, s.qp.qp0);
    assert Passed(s.obj, View(s), s.ws[w].items[k], s.qp.qp0);
    if !ob.vers[i].detached {
      ScannedMeansCovered(s, o, i + 1);
    }
  }

  lemma BarrierCrash(s: State)
    requires Inv(s) && CanQpBarrier(s) && s.qp.mode == Ckpt
    requires Covers(View(s), Curs(s), s.qp.qp0)
    ensures Crash(DoQpBarrier(s), View(s))
  {
    var z := DoQpBarrier(s);
    forall k, e | 0 <= k < |z.ck| && 0 <= e < |z.ck[k].ents| ensures EntDurable(z, k, e) {
      assert EntDurable(s, k, e);
    }
    forall o | 0 <= o < |z.obj| ensures CrashOk(z, View(s), o) {
      assert MasterOk(s, View(s), o) && ChainOk(s.obj[o], View(s)[o], Curs(s)[o]);
      MasterSeen(s, o);
      var cur := s.obj[o].cur;
      if cur.Entry? {
        assert EntDurable(s, cur.k, cur.e) && EntryOk(View(s), s.ck[cur.k].ents[cur.e], s.qp.qp0);
      }
      forall j | Curs(s)[o] < j < |View(s)[o]| ensures !LtClk(View(s)[o][j], s.qp.qp0) {
      }
    }
  }

  lemma QpBarrierInv(s: State)
    requires Inv(s) && CanQpBarrier(s)
    ensures Inv(DoQpBarrier(s))
  {
    var z := DoQpBarrier(s);
    assert Jobs(z) by { JobsIdle(s, z); }
    if s.qp.mode == Ckpt {
      forall o, i | 0 <= o < |View(s)| && 1 <= i < |View(s)[o]| && LtClk(View(s)[o][i], s.qp.qp0)
        ensures Curs(s)[o] >= i
      {
        ScannedMeansCovered(s, o, i);
      }
      BarrierCrash(s);
    } else {
      CrashIdle(s, z);
    }
    QpStep(s, z);
  }
}
