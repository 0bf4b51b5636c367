/** Every reclamation step keeps the invariant: dropping, checkpointing, detaching
    and writing back never change what a transaction reads. */
module ReclaimSteps {
  import opened Options
  import opened Ordo
  import opened Protocol
  import opened History
  import opened HistorySteps
  import opened Invariant
  import opened Growth
  import opened Basics
  import opened BasicSteps
  import opened TxSteps

  /** What every reclamation step inherits; masters only move to newer versions
      that every running transaction sees. */
  lemma ReclaimStep(s: State, z: State)
    requires Inv(s) && z.hi == s.hi && z.tx == s.tx && z.ws == s.ws && z.qp == s.qp && z.clk == s.clk
    requires View(z) == View(s) && |z.obj| == |s.obj|
    requires Hist(z.obj, z.ws) && Txs(z.tx, z.ws, z.log)
    requires Chains(z.obj, View(s), Curs(z)) && Entries(View(s), z.ck, z.qp.qp0)
    requires Masters(z, View(s)) && Scans(z, View(s)) && Jobs(z) && Crash(z, View(s))
    requires forall o :: 0 <= o < |s.obj| ==> Curs(z)[o] >= Curs(s)[o]
    ensures Inv(z)
  {
    assert forall o :: 0 <= o < |s.obj| ==> |z.obj[o].vers| == |View(z)[o]| == |s.obj[o].vers|;
    BasesStay(s.obj, s.ws, z.obj, z.ws);
    forall u | 0 <= u < |z.tx| ensures ReaderOk(z.tx[u], View(z), Curs(z), z.qp.last) {
      assert ReaderOk(s.tx[u], View(s), Curs(s), s.qp.last);
    }
  }

  // ---------------------------------------------------------------- bookkeeping steps

  /** A step of thread t's tvlog job that touches no log and no object. */
  lemma TJobStep(s: State, t: nat, j: TJob)
    requires Inv(s) && t < |s.tj| && !s.tj[t].TDetach?
    requires TJobOk(s.(tj := s.tj[t := j]), t) && ScanOk(s.(tj := s.tj[t := j]), View(s), t)
    requires j != TNone && (s.tj[t].TScan? ==> j.TScan?)
    ensures Inv(s.(tj := s.tj[t := j]))
  {
    hide Hist, Txs, Chains, Entries, Covers, Crash, Readers, Gaps, Detect;
    var z := s.(tj := s.tj[t := j]);
    assert View(z) == View(s) && Curs(z) == Curs(s);
    forall o | 0 <= o < |z.obj| ensures MasterOk(z, View(s), o) {
      assert MasterOk(s, View(s), o);
    }
    forall u | 0 <= u < |z.log| ensures ScanOk(z, View(s), u) {
      assert ScanOk(s, View(s), u);
    }
    forall u | 0 <= u < |z.tj| ensures TJobOk(z, u) && DoneOk(z, u) && CJobOk(z, u) {
      assert TJobOk(s, u) && DoneOk(s, u) && CJobOk(s, u);
    }
    TJobCrash(s, t, j);
    ReclaimStep(s, z);
  }

  lemma TJobCrash(s: State, t: nat, j: TJob)
    requires Crash(s, View(s)) && t < |s.tj| && (s.tj[t].TScan? ==> j.TScan?) && !s.tj[t].TDetach?
    ensures Crash(s.(tj := s.tj[t := j]), View(s))
  {
    var z := s.(tj := s.tj[t := j]);
    forall k, e | 0 <= k < |z.ck| && 0 <= e < |z.ck[k].ents| ensures EntDurable(z, k, e) {
      assert EntDurable(s, k, e);
    }
    forall o | 0 <= o < |z.obj| ensures CrashOk(z, View(s), o) {
      assert CrashOk(s, View(s), o);
    }
  }

  /** A step of thread t's ckptlog job that touches no log and no object. */
  lemma CJobStep(s: State, t: nat, j: CJob)
    requires Inv(s) && t < |s.cj|
    requires CJobOk(s.(cj := s.cj[t := j]), t)
    requires forall o :: 0 <= o < |s.obj| && s.obj[o].cur.Entry? && s.obj[o].cur.k == t ==>
      WbPos(s.ck[t], j) <= s.obj[o].cur.e
    requires CkDropLimit(s.(cj := s.cj[t := j]), t) <= CkDropLimit(s, t)
    ensures Inv(s.(cj := s.cj[t := j]))
  {
    hide Hist, Txs, Chains, Entries, Covers, Crash, Readers, Gaps, Detect;
    var z := s.(cj := s.cj[t := j]);
    assert View(z) == View(s) && Curs(z) == Curs(s);
    forall o | 0 <= o < |z.obj| ensures MasterOk(z, View(s), o) {
      assert MasterOk(s, View(s), o);
    }
    forall u | 0 <= u < |z.log| ensures ScanOk(z, View(s), u) {
      assert ScanOk(s, View(s), u);
    }
    forall u | 0 <= u < |z.tj| ensures TJobOk(z, u) && DoneOk(z, u) && CJobOk(z, u) {
      assert TJobOk(s, u) && DoneOk(s, u) && CJobOk(s, u);
    }
    CJobCrash(s, t, j);
    ReclaimStep(s, z);
  }

  lemma CJobCrash(s: State, t: nat, j: CJob)
    requires Crash(s, View(s)) && t < |s.cj|
    requires CkDropLimit(s.(cj := s.cj[t := j]), t) <= CkDropLimit(s, t)
    ensures Crash(s.(cj := s.cj[t := j]), View(s))
  {
    var z := s.(cj := s.cj[t := j]);
    forall k, e | 0 <= k < |z.ck| && 0 <= e < |z.ck[k].ents| ensures EntDurable(z, k, e) {
      assert EntDurable(s, k, e);
    }
    forall o | 0 <= o < |z.obj| ensures CrashOk(z, View(s), o) {
      assert CrashOk(s, View(s), o);
    }
  }

  lemma TvStartInv(s: State, t: nat)
    requires Inv(s) && CanTvStart(s, t)
    ensures Inv(DoTvStart(s, t))
  {
    assert TJobOk(s, t) && ScanOk(s, View(s), t);
    TJobStep(s, t, DoTvStart(s, t).tj[t]);
  }

  lemma TvScanBeginInv(s: State, t: nat)
    requires Inv(s) && CanTvScanBegin(s, t)
    ensures Inv(DoTvScanBegin(s, t))
  {
    assert TJobOk(s, t) && ScanOk(s, View(s), t) && LogOk(t, s.tx[t], s.ws, s.log[t]);
    var z := DoTvScanBegin(s, t);
    assert PassedAll(s.obj, View(s), s.ws, s.log[t], s.log[t].head, s.qp.qp0);
    TJobStep(s, t, z.tj[t]);
  }

  lemma TvNextInv(s: State, t: nat)
    requires Inv(s) && CanTvNext(s, t)
    ensures Inv(DoTvNext(s, t))
  {
    assert TJobOk(s, t) && ScanOk(s, View(s), t);
    var z := DoTvNext(s, t);
    TJobStep(s, t, z.tj[t]);
  }

  lemma CkStartInv(s: State, t: nat)
    requires Inv(s) && CanCkStart(s, t)
    ensures Inv(DoCkStart(s, t))
  {
    assert CJobOk(s, t);
    forall o | 0 <= o < |s.obj| && s.obj[o].cur.Entry? && s.obj[o].cur.k == t
      ensures s.ck[t].prev <= s.obj[o].cur.e
    {
      assert MasterOk(s, View(s), o);
    }
    CJobStep(s, t, DoCkStart(s, t).cj[t]);
  }

  lemma CkWbBeginInv(s: State, t: nat)
    requires Inv(s) && CanCkWbBegin(s, t)
    ensures Inv(DoCkWbBegin(s, t))
  {
    assert CJobOk(s, t);
    forall o | 0 <= o < |s.obj| && s.obj[o].cur.Entry? && s.obj[o].cur.k == t
      ensures s.ck[t].prev <= s.obj[o].cur.e
    {
      assert MasterOk(s, View(s), o);
    }
    CJobStep(s, t, DoCkWbBegin(s, t).cj[t]);
  }

  lemma CkSkipInv(s: State, t: nat)
    requires Inv(s) && CanCkSkip(s, t)
    ensures Inv(DoCkSkip(s, t))
  {
    assert CJobOk(s, t);
    forall o | 0 <= o < |s.obj| && s.obj[o].cur.Entry? && s.obj[o].cur.k == t
      ensures s.cj[t].p + 1 <= s.obj[o].cur.e
    {
      assert MasterOk(s, View(s), o);
    }
    CJobStep(s, t, DoCkSkip(s, t).cj[t]);
  }

  // ---------------------------------------------------------------- dropping

  lemma TvDropInv(s: State, t: nat)
    requires Inv(s) && CanTvDrop(s, t)
    ensures Inv(DoTvDrop(s, t))
  {
    hide Hist, Chains, Entries, Covers, Crash, Readers, Gaps, Detect;
    var z := DoTvDrop(s, t);
    var lg := s.log[t];
    assert TJobOk(s, t) && LogOk(t, s.tx[t], s.ws, lg);
    LogStep(s.tx, s.ws, s.log, t, lg.head + 1, lg.prev);
    assert z.log == s.log[t := lg.(head := lg.head + 1, prev := lg.prev)];
    assert View(z) == View(s) && Curs(z) == Curs(s);
    forall o | 0 <= o < |z.obj| ensures MasterOk(z, View(s), o) {
      assert MasterOk(s, View(s), o);
    }
    LogMovedScans(s, z, t);
    forall u | 0 <= u < |z.tj| ensures TJobOk(z, u) && DoneOk(z, u) && CJobOk(z, u) {
      assert TJobOk(s, u) && DoneOk(s, u) && CJobOk(s, u);
    }
    LogCrash(s, z);
    ReclaimStep(s, z);
  }

  lemma LogMovedScans(s: State, z: State, t: nat)
    requires Scans(s, View(s)) && z == s.(log := z.log) && t < |s.log|
    requires |z.log| == |s.log| && z.log == s.log[t := s.log[t].(head := z.log[t].head)]
    ensures Scans(z, View(s))
  {
    forall u | 0 <= u < |z.log| ensures ScanOk(z, View(s), u) {
      assert ScanOk(s, View(s), u);
    }
  }

  lemma LogCrash(s: State, z: State)
    requires Crash(s, View(s)) && z == s.(log := z.log)
    ensures Crash(z, View(s))
  {
    forall k, e | 0 <= k < |z.ck| && 0 <= e < |z.ck[k].ents| ensures EntDurable(z, k, e) {
      assert EntDurable(s, k, e);
    }
    forall o | 0 <= o < |z.obj| ensures CrashOk(z, View(s), o) {
      assert CrashOk(s, View(s), o);
    }
  }

  lemma CkDropInv(s: State, t: nat)
    requires Inv(s) && CanCkDrop(s, t)
    ensures Inv(DoCkDrop(s, t))
  {
    hide Hist, Txs, Chains, Covers, Readers, Gaps, Detect, Ops, TJobOk, DoneOk, Crash, Entries;
    var z := DoCkDrop(s, t);
    assert CJobOk(s, t);
    EntsSame(s, z);
    CkJobs(s, z);
    CkDropEntries(s, t);
    forall o | 0 <= o < |z.obj| ensures MasterOk(z, View(s), o) {
      assert MasterOk(s, View(s), o);
    }
    forall u | 0 <= u < |z.log| ensures ScanOk(z, View(s), u) {
      assert ScanOk(s, View(s), u);
    }
    ReclaimStep(s, z);
  }

  lemma CkDropEntries(s: State, t: nat)
    requires Inv(s) && CanCkDrop(s, t)
    ensures Entries(View(s), DoCkDrop(s, t).ck, s.qp.qp0) && Crash(DoCkDrop(s, t), View(s))
  {
    hide Linear, Chains, Covers, Readers, Masters, Scans, Detect, Ops, TJobOk, DoneOk, EntryOk;
    var z := DoCkDrop(s, t);
    assert CJobOk(s, t);
    forall k, e | 0 <= k < |z.ck| && 0 <= e < |z.ck[k].ents| ensures EntDurable(z, k, e) {
      assert EntDurable(s, k, e);
    }
    forall o | 0 <= o < |z.obj| ensures CrashOk(z, View(s), o) {
      assert CrashOk(s, View(s), o);
    }
  }

  /** Moving a ckptlog's head, prev or durable end changes no entry. */
  lemma EntsSame(s: State, z: State)
    requires z == s.(ck := z.ck, cj := z.cj) && |z.ck| == |s.ck|
    requires forall k :: 0 <= k < |s.ck| ==> z.ck[k].ents == s.ck[k].ents
    ensures View(z) == View(s) && Curs(z) == Curs(s)
  {
    forall o | 0 <= o < |s.obj| ensures CurVer(z.ck, z.obj[o]) == CurVer(s.ck, s.obj[o]) {
    }
  }

  lemma CkJobs(s: State, z: State)
    requires Jobs(s) && z == s.(ck := z.ck) && |z.ck| == |s.ck|
    requires forall k :: 0 <= k < |s.ck| ==> z.ck[k].ents == s.ck[k].ents && z.ck[k].prev == s.ck[k].prev
    requires forall k :: 0 <= k < |s.ck| ==> k < |s.cj| && (s.cj[k].CDrop? || z.ck[k] == s.ck[k])
    ensures Jobs(z)
  {
    forall u | 0 <= u < |z.tj| ensures TJobOk(z, u) && DoneOk(z, u) && CJobOk(z, u) {
      assert TJobOk(s, u) && DoneOk(s, u) && CJobOk(s, u);
    }
  }

  // ---------------------------------------------------------------- scanning and checkpointing

  /** The version behind the item a scan is looking at. */
  lemma ScanAt(s: State, t: nat)
    requires Inv(s) && ScanningItem(s, t)
    ensures s.clk[t] == Clks(s.qp.qp0, s.qp.qp2, s.qp.last)
    ensures var it := ScanItem(s, t);
            && 1 <= it.v < |s.obj[it.o].vers| && |s.obj[it.o].vers| == |View(s)[it.o]|
            && s.obj[it.o].vers[it.v].w == s.log[t].ids[s.tj[t].p]
            && s.obj[it.o].vers[it.v].raw == View(s)[it.o][it.v] && LtClk(View(s)[it.o][it.v], s.qp.qp0)
    ensures WsAt(s, t, s.tj[t].p).t == t
  {
    assert TJobOk(s, t) && LogOk(t, s.tx[t], s.ws, s.log[t]);
    assert LogEntryOk(t, s.tx[t], s.ws, s.log[t], s.tj[t].p);
    var w := s.log[t].ids[s.tj[t].p];
    assert WsOk(s.obj, s.ws, w) && ItemOk(s.obj, s.ws, w, s.tj[t].k);
    var it := ScanItem(s, t);
    assert View(s)[it.o][it.v] == s.ws[w].pending;
    Settled(s, it.o, it.v);
  }

  /** A master version still marked as live is being detached by its own writer. */
  lemma MasterDetached(s: State, t: nat)
    requires Inv(s) && ScanningItem(s, t)
    ensures var it := ScanItem(s, t);
            it.v == Curs(s)[it.o] ==> s.obj[it.o].vers[it.v].detached
  {
    ScanAt(s, t);
    var it := ScanItem(s, t);
    var ob := s.obj[it.o];
    assert MasterOk(s, View(s), it.o);
    if ob.cur.Entry? && it.v == Curs(s)[it.o] && !ob.vers[it.v].detached {
      TimingHolds(s);
      DetachIsOwn(s, ob.cur.k, it.o, it.v);
    }
  }

  lemma SkipPassed(s: State, t: nat)
    requires Inv(s) && CanTvSkip(s, t)
    ensures Passed(s.obj, View(s), ScanItem(s, t), s.qp.qp0)
  {
    ScanAt(s, t);
    MasterDetached(s, t);
    var it := ScanItem(s, t);
    var c, cv := View(s)[it.o], Curs(s)[it.o];
    assert ChainOk(s.obj[it.o], c, cv) && ChainVer(s.obj[it.o], c, cv, it.v) && GapsOf(c);
    if !s.obj[it.o].vers[it.v].detached {
      if GteClk(s.obj[it.o].vers[it.v].prev, s.qp.qp0) {
        assert cv >= it.v;
        MasterSeen(s, it.o);
      }
    }
  }

  lemma TvSkipInv(s: State, t: nat)
    requires Inv(s) && CanTvSkip(s, t)
    ensures Inv(DoTvSkip(s, t))
  {
    SkipPassed(s, t);
    assert TJobOk(s, t) && ScanOk(s, View(s), t);
    TJobStep(s, t, DoTvSkip(s, t).tj[t]);
  }

  /** The one borderline copy of a chain is the newest version before qp0. */
  lemma BorderlineNewest(ob: Obj, c: seq<Clk>, cv: nat, i: nat, qp0: nat, last: nat)
    requires ChainOk(ob, c, cv) && GapsOf(c) && 1 <= i < |c| && ob.vers[i].raw == c[i]
    requires !ob.vers[i].detached && (cv == i ==> ob.vers[i].detached) && Seen(c, cv, qp0)
    requires i + 1 < |c| && LtClk(c[i + 1], qp0) ==> ob.vers[i + 1].raw == c[i + 1]
    requires Borderline(ob.vers[i], qp0, last)
    ensures NewestBefore(c, i, qp0) && cv < i
  {
    assert ChainVer(ob, c, cv, i);
    assert i + 1 < |c| ==> ChainVer(ob, c, cv, i + 1);
    assert forall j :: i + 1 < j < |c| && LtClk(c[j], qp0) ==> LtClk(c[i + 1], qp0);
  }

  /** The copy the scan checkpoints is the newest version before the checkpoint
      clock, and the object's master is older. */
  lemma HitIsNewest(s: State, t: nat)
    requires Inv(s) && ScanningItem(s, t) && ScanHit(s, t)
    ensures var it := ScanItem(s, t);
            NewestBefore(View(s)[it.o], it.v, s.qp.qp0) && Curs(s)[it.o] < it.v
  {
    hide Hist, Txs, Entries, Covers, Crash, Readers, Detect, Rounds, Scans, Ops, Jobs;
    ScanAt(s, t);
    MasterDetached(s, t);
    var it := ScanItem(s, t);
    var c := View(s)[it.o];
    if it.v + 1 < |c| && LtClk(c[it.v + 1], s.qp.qp0) {
      Settled(s, it.o, it.v + 1);
    }
    MasterSeen(s, it.o);
    BorderlineNewest(s.obj[it.o], c, Curs(s)[it.o], it.v, s.qp.qp0, s.clk[t].last);
  }

  lemma CkptCurs(s: State, t: nat)
    requires Inv(s) && CanTvCkpt(s, t)
    ensures Curs(DoTvCkpt(s, t)) == Curs(s)[ScanItem(s, t).o := ScanItem(s, t).v]
  {
    hide Hist, Txs, Chains, Covers, Crash, Entries, Readers, Gaps, Detect, Ops, Jobs, Scans;
    var z := DoTvCkpt(s, t);
    forall o | 0 <= o < |s.obj|
      ensures Curs(z)[o] == if o == ScanItem(s, t).o then ScanItem(s, t).v else Curs(s)[o]
    {
      assert MasterOk(s, View(s), o);
    }
  }

  /** A newer master keeps the chain in order, as long as p_copy is not null. */
  lemma ChainNewMaster(ob: Obj, c: seq<Clk>, cv: nat, cur: Loc, i: nat)
    requires ChainOk(ob, c, cv) && cv < i < |c|
    ensures ChainOk(ob.(cur := cur), c, i)
  {
    forall j | 1 <= j < |c| ensures ChainVer(ob.(cur := cur), c, i, j) {
      assert ChainVer(ob, c, cv, j);
    }
  }

  lemma CkptMasters(s: State, t: nat)
    requires Inv(s) && CanTvCkpt(s, t)
    ensures Masters(DoTvCkpt(s, t), View(s))
  {
    hide Hist, Txs, Covers, Crash, Readers, Gaps, Detect, Scans, Ops;
    var z := DoTvCkpt(s, t);
    ScanAt(s, t);
    assert CJobOk(s, t) && TJobOk(s, t);
    forall o | 0 <= o < |z.obj| ensures MasterOk(z, View(s), o) {
      assert MasterOk(s, View(s), o);
    }
  }

  /** The master this checkpoint replaces is one a crash can fall back to. */
  lemma CkptReplacesOld(s: State, t: nat)
    requires Inv(s) && CanTvCkpt(s, t)
    ensures CrashMaster(s, ScanItem(s, t).o) == s.obj[ScanItem(s, t).o].cur
    ensures !MasterSince(s, s.obj[ScanItem(s, t).o], s.qp.qp0)
  {
    ScanAt(s, t);
    HitIsNewest(s, t);
    var o := ScanItem(s, t).o;
    assert MasterOk(s, View(s), o);
    var cur := s.obj[o].cur;
    if cur.Entry? {
      assert EntDurable(s, cur.k, cur.e) && EntryOk(View(s), s.ck[cur.k].ents[cur.e], s.qp.qp0);
    }
  }

  lemma CkptEntDurable(s: State, t: nat)
    requires Inv(s) && CanTvCkpt(s, t)
    ensures forall k, e :: 0 <= k < |DoTvCkpt(s, t).ck| && 0 <= e < |DoTvCkpt(s, t).ck[k].ents| ==>
      EntDurable(DoTvCkpt(s, t), k, e)
  {
    hide Linear, Chains, Entries, Masters, Covers, Readers, Detect, Ops, Scans, CrashOk, DoneOk, CJobOk;
    var z := DoTvCkpt(s, t);
    assert TJobOk(s, t);
    forall k, e | 0 <= k < |z.ck| && 0 <= e < |z.ck[k].ents| ensures EntDurable(z, k, e) {
      assert e < |s.ck[k].ents| ==> EntDurable(s, k, e);
    }
  }

  lemma CkptCrash(s: State, t: nat)
    requires Inv(s) && CanTvCkpt(s, t)
    ensures Crash(DoTvCkpt(s, t), View(s))
  {
    hide CrashOk;
    hide Linear, Chains, Entries, Covers, Masters, Readers, Detect, Ops, Scans, Jobs, EntDurable, DoneOk, TJobOk, CJobOk;
    CkptEntDurable(s, t);
    forall o | 0 <= o < |s.obj| ensures CrashOk(DoTvCkpt(s, t), View(s), o) {
      CkptCrashAt(s, t, o);
    }
  }

  lemma CkptCrashAt(s: State, t: nat, o: nat)
    requires Inv(s) && CanTvCkpt(s, t) && o < |s.obj|
    ensures CrashOk(DoTvCkpt(s, t), View(s), o)
  {
    hide Linear, Chains, Entries, Covers, Readers, Detect, Ops, Scans, Jobs, EntDurable, DoneOk, TJobOk, CJobOk;
    CkptRound(s, t);
    CkptReplacesOld(s, t);
    assert CrashOk(s, View(s), o) && MasterOk(s, View(s), o);
  }

  /** A checkpoint is taken with the round's own clock, which no crash knows yet. */
  lemma CkptRound(s: State, t: nat)
    requires Inv(s) && CanTvCkpt(s, t)
    ensures s.clk[t].qp0 == s.qp.qp0 > s.qp.dlast && 0 < |s.obj|
  {
    hide Linear, Checkpoints, Readers, DoneOk, CJobOk;
    assert TJobOk(s, t);
    ScanAt(s, t);
  }

  lemma CkptTJobs(s: State, t: nat, u: nat)
    requires Inv(s) && CanTvCkpt(s, t) && u < |s.tj|
    ensures u < |DoTvCkpt(s, t).tj| == |DoTvCkpt(s, t).log|
    ensures TJobOk(DoTvCkpt(s, t), u) && DoneOk(DoTvCkpt(s, t), u)
  {
    hide Linear, Chains, Covers, Crash, Entries, Masters, Scans, Readers, Detect, Ops;
    var z := DoTvCkpt(s, t);
    ScanAt(s, t);
    CkptReplacesOld(s, t);
    HitIsNewest(s, t);
    CkptCurs(s, t);
    assert TJobOk(s, u) && DoneOk(s, u);
    if s.tj[u].TDetach? && u != t {
      var it := s.ws[s.log[u].ids[s.tj[u].p]].items[s.tj[u].k];
      assert JustCkpted(s, it) && it.o != ScanItem(s, t).o;
      assert CurVer(z.ck, z.obj[it.o]) == Curs(z)[it.o];
    }
  }

  lemma CkptJobs(s: State, t: nat)
    requires Inv(s) && CanTvCkpt(s, t)
    ensures Jobs(DoTvCkpt(s, t))
  {
    hide Linear, Chains, Covers, Crash, Entries, Masters, Scans, Readers, Detect, Ops, TJobOk, DoneOk;
    var z := DoTvCkpt(s, t);
    ScanAt(s, t);
    HitIsNewest(s, t);
    CkptCurs(s, t);
    forall u | 0 <= u < |z.tj| ensures TJobOk(z, u) && DoneOk(z, u) {
      CkptTJobs(s, t, u);
    }
    forall u | 0 <= u < |z.cj| ensures CJobOk(z, u) {
      assert CJobOk(s, u);
    }
  }

  lemma CkptScans(s: State, t: nat)
    requires Inv(s) && CanTvCkpt(s, t)
    ensures Scans(DoTvCkpt(s, t), View(s))
  {
    hide Linear, Chains, Covers, Crash, Entries, Masters, Jobs, Readers, Detect, Ops, PassedAll, PassedWs;
    var z := DoTvCkpt(s, t);
    forall u | 0 <= u < |z.log| ensures ScanOk(z, View(s), u) {
      assert ScanOk(s, View(s), u);
      PassedMaster(s, z, u);
    }
  }

  /** What a scan has passed does not depend on the masters. */
  lemma PassedMaster(s: State, z: State, u: nat)
    requires ScanOk.requires(s, View(s), u) && ScanOk(s, View(s), u) && z.ws == s.ws && z.qp == s.qp
    requires z.log == s.log && |z.tj| == |s.tj| && |z.obj| == |s.obj|
    requires z.tj[u] == s.tj[u]
             || (s.tj[u].TScan? && z.tj[u].TDetach? && z.tj[u].p == s.tj[u].p && z.tj[u].k == s.tj[u].k)
    requires forall o :: 0 <= o < |s.obj| ==> z.obj[o].vers == s.obj[o].vers
    ensures ScanOk(z, View(s), u)
  {
    forall p: nat, n: nat | PassedWs(s.obj, View(s), s.ws, s.log[u], p, n, s.qp.qp0)
      ensures PassedWs(z.obj, View(s), z.ws, z.log[u], p, n, z.qp.qp0)
    {
      if p < |s.log[u].ids| && s.log[u].ids[p] < |s.ws| && s.ws[s.log[u].ids[p]].wrt.At? {
        forall k | 0 <= k < n ensures Passed(z.obj, View(s), s.ws[s.log[u].ids[p]].items[k], s.qp.qp0) {
          assert Passed(s.obj, View(s), s.ws[s.log[u].ids[p]].items[k], s.qp.qp0);
        }
      }
    }
  }

  lemma TvCkptInv(s: State, t: nat)
    requires Inv(s) && CanTvCkpt(s, t)
    ensures Inv(DoTvCkpt(s, t))
  {
    var z := DoTvCkpt(s, t);
    ScanAt(s, t);
    HitIsNewest(s, t);
    CkptCurs(s, t);
    var it := ScanItem(s, t);
    assert ChainOk(s.obj[it.o], View(s)[it.o], Curs(s)[it.o]);
    ChainNewMaster(s.obj[it.o], View(s)[it.o], Curs(s)[it.o], z.obj[it.o].cur, it.v);
    MasterHist(s.obj, s.ws, it.o, z.obj[it.o]);
    ViewSame(s, z);
    CkptMasters(s, t);
    assert Entries(View(s), z.ck, s.qp.qp0) by { InvBasic(s); CkptEntries(s, t); }
    CkptCrash(s, t);
    CkptJobs(s, t);
    CkptScans(s, t);
    ReclaimStep(s, z);
  }

  // ---------------------------------------------------------------- detaching

  /** The copy being detached is unlocked, and in its object's master. */
  lemma DetachAt(s: State, t: nat)
    requires Inv(s) && CanTvDetach(s, t)
    ensures var it := WsAt(s, t, s.tj[t].p).items[s.tj[t].k];
            && 1 <= it.v < |s.obj[it.o].vers| && |s.obj[it.o].vers| == |View(s)[it.o]|
            && s.obj[it.o].vers[it.v].raw.At? && it.v <= Curs(s)[it.o]
            && MasterSince(s, s.obj[it.o], s.qp.qp0)
  {
    assert TJobOk(s, t) && LogOk(t, s.tx[t], s.ws, s.log[t]);
    assert LogEntryOk(t, s.tx[t], s.ws, s.log[t], s.tj[t].p);
    var w := s.log[t].ids[s.tj[t].p];
    assert WsOk(s.obj, s.ws, w) && ItemOk(s.obj, s.ws, w, s.tj[t].k);
    var it := s.ws[w].items[s.tj[t].k];
    assert View(s)[it.o][it.v] == s.ws[w].pending;
    Settled(s, it.o, it.v);
  }

  lemma DetachChain(ob: Obj, c: seq<Clk>, cv: nat, i: nat)
    requires ChainOk(ob, c, cv) && 1 <= i < |c| && cv >= i && ob.vers[i].raw.At?
    ensures ChainOk(DetachObj(ob, i), c, cv)
  {
    var x := DetachObj(ob, i);
    forall j | 1 <= j < |c| ensures ChainVer(x, c, cv, j) {
      assert ChainVer(ob, c, cv, j);
      assert j + 1 < |c| ==> ChainVer(ob, c, cv, j + 1);
    }
  }

  /** Detach marks only appear. */
  predicate Marked(ob: Obj, x: Obj) {
    && x.cur == ob.cur && x.org == ob.org && x.lock == ob.lock && |x.vers| == |ob.vers|
    && forall i :: 0 <= i < |ob.vers| ==> x.vers[i] == ob.vers[i].(detached := x.vers[i].detached)
                                          && (ob.vers[i].detached ==> x.vers[i].detached)
  }

  lemma PassedMarked(obj: seq<Obj>, zo: seq<Obj>, v: seq<seq<Clk>>, ws: seq<Ws>, lg: TvLog, p: nat, n: nat, qp0: nat)
    requires PassedWs(obj, v, ws, lg, p, n, qp0) && |zo| == |obj|
    requires forall o :: 0 <= o < |obj| ==> Marked(obj[o], zo[o])
    ensures PassedWs(zo, v, ws, lg, p, n, qp0)
  {
    if p < |lg.ids| && lg.ids[p] < |ws| && ws[lg.ids[p]].wrt.At? {
      forall k | 0 <= k < n ensures Passed(zo, v, ws[lg.ids[p]].items[k], qp0) {
        assert Passed(obj, v, ws[lg.ids[p]].items[k], qp0);
      }
    }
  }

  lemma DetachScans(s: State, t: nat)
    requires Inv(s) && CanTvDetach(s, t)
    ensures Scans(DoTvDetach(s, t), View(s))
  {
    hide Hist, Txs, Chains, Entries, Covers, Crash, Readers, Gaps, Detect, Ops, Masters, Jobs;
    var z := DoTvDetach(s, t);
    DetachAt(s, t);
    forall p: nat, n: nat, u: nat | u < |s.log| && PassedWs(s.obj, View(s), s.ws, s.log[u], p, n, s.qp.qp0)
      ensures PassedWs(z.obj, View(s), s.ws, s.log[u], p, n, s.qp.qp0)
    {
      PassedMarked(s.obj, z.obj, View(s), s.ws, s.log[u], p, n, s.qp.qp0);
    }
    forall u | 0 <= u < |z.log| ensures ScanOk(z, View(s), u) {
      assert ScanOk(s, View(s), u);
    }
  }

  lemma DetachJobs(s: State, t: nat)
    requires Inv(s) && CanTvDetach(s, t)
    ensures Jobs(DoTvDetach(s, t))
  {
    hide Hist, Txs, Chains, Entries, Covers, Crash, Readers, Gaps, Detect, Ops, Masters, Scans;
    var z := DoTvDetach(s, t);
    forall u | 0 <= u < |z.tj| ensures TJobOk(z, u) && DoneOk(z, u) && CJobOk(z, u) {
      assert TJobOk(s, u) && DoneOk(s, u) && CJobOk(s, u);
    }
  }

  lemma DetachCrash(s: State, t: nat)
    requires Inv(s) && CanTvDetach(s, t)
    ensures Crash(DoTvDetach(s, t), View(s))
  {
    hide Hist, Txs, Chains, Entries, Covers, Readers, Gaps, Detect, Ops, Masters, Scans;
    var z := DoTvDetach(s, t);
    forall k, e | 0 <= k < |z.ck| && 0 <= e < |z.ck[k].ents| ensures EntDurable(z, k, e) {
      assert EntDurable(s, k, e);
    }
    forall o | 0 <= o < |z.obj| ensures CrashOk(z, View(s), o) {
      assert CrashOk(s, View(s), o);
    }
  }

  lemma DetachMasters(s: State, t: nat)
    requires Inv(s) && CanTvDetach(s, t)
    ensures Masters(DoTvDetach(s, t), View(s))
  {
    hide Hist, Txs, Chains, Entries, Covers, Readers, Gaps, Detect, Ops, Crash, Scans;
    var z := DoTvDetach(s, t);
    DetachAt(s, t);
    forall o | 0 <= o < |z.obj| ensures MasterOk(z, View(s), o) {
      assert MasterOk(s, View(s), o);
    }
  }

  lemma TvDetachInv(s: State, t: nat)
    requires Inv(s) && CanTvDetach(s, t)
    ensures Inv(DoTvDetach(s, t))
  {
    hide Txs, Entries, Covers, Readers, Gaps, Detect, Ops, Crash, Scans, Masters, Jobs;
    var z := DoTvDetach(s, t);
    var it := WsAt(s, t, s.tj[t].p).items[s.tj[t].k];
    DetachAt(s, t);
    DetachMasters(s, t);
    DetachScans(s, t);
    DetachJobs(s, t);
    DetachCrash(s, t);
    assert ChainOk(s.obj[it.o], View(s)[it.o], Curs(s)[it.o]);
    DetachChain(s.obj[it.o], View(s)[it.o], Curs(s)[it.o], it.v);
    MasterHist(s.obj, s.ws, it.o, z.obj[it.o]);
    ViewSame(s, z);
    CursSame(s, z);
    ReclaimStep(s, z);
  }

  // ---------------------------------------------------------------- finishing a tvlog

  /** A scan that stopped has nothing old left in front of it. */
  lemma StoppedMeansDone(s: State, t: nat, q: nat)
    requires Inv(s) && CanTvFinish(s, t) && s.tj[t].m == Ckpt && s.tj[t].p <= q < |s.log[t].ids|
    ensures !LtClk(StampAt(s.ws, s.log[t], q), s.qp.qp0)
  {
    hide Chains, Entries, Covers, Readers, Gaps, Detect, Ops, Crash, Scans, Masters;
    assert TJobOk(s, t) && LogOk(t, s.tx[t], s.ws, s.log[t]) && TxOk(t, s.tx[t], s.ws, s.log[t]);
    var lg, p := s.log[t], s.tj[t].p;
    assert LogEntryOk(t, s.tx[t], s.ws, lg, p) && WsOk(s.obj, s.ws, lg.ids[p]);
    assert !LtClk(StampAt(s.ws, lg, p), s.qp.qp0);
  }

  lemma FinishJobs(s: State, t: nat)
    requires Inv(s) && CanTvFinish(s, t)
    ensures Jobs(DoTvFinish(s, t))
  {
    hide Hist, Txs, Chains, Entries, Covers, Readers, Gaps, Detect, Ops, Crash, Scans, Masters;
    var z := DoTvFinish(s, t);
    assert TJobOk(s, t);
    forall u | 0 <= u < |z.tj| ensures TJobOk(z, u) && CJobOk(z, u) {
      assert TJobOk(s, u) && CJobOk(s, u);
    }
    forall u | 0 <= u < |z.tj| ensures DoneOk(z, u) {
      assert DoneOk(s, u);
      if u == t && s.qp.mode == Ckpt {
        forall q | z.log[t].prev <= q < |z.log[t].ids| ensures !LtClk(StampAt(z.ws, z.log[t], q), z.qp.qp0) {
          StoppedMeansDone(s, t, q);
        }
      }
    }
  }

  lemma FinishEntries(s: State, t: nat)
    requires Inv(s) && CanTvFinish(s, t)
    ensures Entries(View(s), DoTvFinish(s, t).ck, s.qp.qp0)
  {
    hide Linear, Chains, Covers, Readers, Detect, Ops, Scans, Masters, Crash, Jobs;
    var z := DoTvFinish(s, t);
    forall k, e | 0 <= k < |z.ck| && 0 <= e < |z.ck[k].ents| ensures EntryOk(View(s), z.ck[k].ents[e], s.qp.qp0) {
      assert EntryOk(View(s), s.ck[k].ents[e], s.qp.qp0);
    }
  }

  lemma FinishCrash(s: State, t: nat)
    requires Inv(s) && CanTvFinish(s, t)
    ensures Crash(DoTvFinish(s, t), View(s))
  {
    hide Linear, Chains, Covers, Readers, Rounding, Ops, Scans, Masters, EntryOk;
    var z := DoTvFinish(s, t);
    forall k, e | 0 <= k < |z.ck| && 0 <= e < |z.ck[k].ents| ensures EntDurable(z, k, e) {
      assert EntDurable(s, k, e);
    }
    forall o | 0 <= o < |z.obj| ensures CrashOk(z, View(s), o) {
      assert CrashOk(s, View(s), o);
    }
  }

  lemma FinishMasters(s: State, t: nat)
    requires Inv(s) && CanTvFinish(s, t)
    ensures Masters(DoTvFinish(s, t), View(s)) && Scans(DoTvFinish(s, t), View(s))
    ensures Curs(DoTvFinish(s, t)) == Curs(s)
  {
    hide Hist, Txs, Chains, Covers, Readers, Gaps, Detect, Ops, Crash, Jobs;
    var z := DoTvFinish(s, t);
    forall o | 0 <= o < |z.obj| ensures MasterOk(z, View(s), o) && Curs(z)[o] == Curs(s)[o] {
      assert MasterOk(s, View(s), o);
    }
    forall u | 0 <= u < |z.log| ensures ScanOk(z, View(s), u) {
      assert ScanOk(s, View(s), u);
    }
  }

  lemma TvFinishInv(s: State, t: nat)
    requires Inv(s) && CanTvFinish(s, t)
    ensures Inv(DoTvFinish(s, t))
  {
    hide Hist, Chains, Entries, Covers, Readers, Gaps, Detect, Ops, Crash, Scans, Masters;
    var z := DoTvFinish(s, t);
    assert TJobOk(s, t) && LogOk(t, s.tx[t], s.ws, s.log[t]);
    LogStep(s.tx, s.ws, s.log, t, s.log[t].head, s.tj[t].p);
    assert z.log == s.log[t := s.log[t].(head := s.log[t].head, prev := s.tj[t].p)];
    FinishJobs(s, t);
    FinishEntries(s, t);
    FinishCrash(s, t);
    FinishMasters(s, t);
    assert View(z) == View(s);
    ReclaimStep(s, z);
  }

  // ---------------------------------------------------------------- writing back

  /** An entry that may be written back is a finished checkpoint's. */
  lemma WbOld(s: State, t: nat)
    requires Inv(s) && WbEntry(s, t)
    ensures var en := s.ck[t].ents[s.cj[t].p]; en.s < s.qp.qp0 && en.s <= s.qp.dlast
  {
    assert CJobOk(s, t) && EntDurable(s, t, s.cj[t].p);
  }

  lemma CopyMasters(s: State, t: nat)
    requires Inv(s) && CanCkCopy(s, t)
    ensures Masters(DoCkCopy(s, t), View(s)) && Curs(DoCkCopy(s, t)) == Curs(s)
  {
    hide Hist, Txs, Covers, Readers, Gaps, Detect, Ops, Crash, Jobs, Scans;
    var z := DoCkCopy(s, t);
    forall o | 0 <= o < |z.obj| ensures MasterOk(z, View(s), o) && Curs(z)[o] == Curs(s)[o] {
      assert MasterOk(s, View(s), o) && ChainOk(s.obj[o], View(s)[o], Curs(s)[o]);
    }
  }

  lemma CopyJobs(s: State, t: nat)
    requires Inv(s) && CanCkCopy(s, t)
    ensures Jobs(DoCkCopy(s, t))
  {
    hide Hist, Txs, Chains, Entries, Covers, Readers, Gaps, Detect, Ops, Crash, Masters, Scans;
    var z := DoCkCopy(s, t);
    WbOld(s, t);
    forall u | 0 <= u < |z.tj| ensures TJobOk(z, u) && DoneOk(z, u) {
      assert TJobOk(s, u) && DoneOk(s, u);
    }
    forall u | 0 <= u < |z.cj| ensures CJobOk(z, u) {
      assert CJobOk(s, u) && CJobOk(s, t);
    }
  }

  lemma CopyCrash(s: State, t: nat)
    requires Inv(s) && CanCkCopy(s, t)
    ensures Crash(DoCkCopy(s, t), View(s))
  {
    hide Hist, Txs, Chains, Entries, Covers, Readers, Gaps, Detect, Ops, Masters, Scans;
    var z := DoCkCopy(s, t);
    WbOld(s, t);
    forall k, e | 0 <= k < |z.ck| && 0 <= e < |z.ck[k].ents| ensures EntDurable(z, k, e) {
      assert EntDurable(s, k, e);
    }
    forall o | 0 <= o < |z.obj| ensures CrashOk(z, View(s), o) {
      assert CrashOk(s, View(s), o);
    }
  }

  lemma CopyScans(s: State, t: nat)
    requires Inv(s) && CanCkCopy(s, t)
    ensures Scans(DoCkCopy(s, t), View(s))
  {
    hide Hist, Txs, Chains, Entries, Covers, Readers, Gaps, Detect, Ops, Masters, Crash, Jobs;
    forall u | 0 <= u < |s.log| ensures ScanOk(DoCkCopy(s, t), View(s), u) {
      PassedMaster(s, DoCkCopy(s, t), u);
    }
  }

  /** A chain does not depend on what the original object holds. */
  lemma ChainOrg(ob: Obj, c: seq<Clk>, cv: nat, cur: Loc, org: nat)
    requires ChainOk(ob, c, cv)
    ensures ChainOk(ob.(cur := cur, org := org), c, cv)
  {
    forall j | 1 <= j < |c| ensures ChainVer(ob.(cur := cur, org := org), c, cv, j) {
      assert ChainVer(ob, c, cv, j);
    }
  }

  lemma CkCopyInv(s: State, t: nat)
    requires Inv(s) && CanCkCopy(s, t)
    ensures Inv(DoCkCopy(s, t))
  {
    hide Hist, Txs, Entries, Covers, Readers, Gaps, Detect, Ops, Crash, Scans, Masters, Jobs;
    var z := DoCkCopy(s, t);
    var o := s.ck[t].ents[s.cj[t].p].o;
    CopyMasters(s, t);
    CopyJobs(s, t);
    CopyCrash(s, t);
    CopyScans(s, t);
    ChainOrg(s.obj[o], View(s)[o], Curs(s)[o], s.obj[o].cur, z.obj[o].org);
    MasterHist(s.obj, s.ws, o, z.obj[o]);
    ViewSame(s, z);
    ReclaimStep(s, z);
  }

  /** The store is harmless while the entry is still the object's master. */
  predicate StoreSafe(s: State, t: nat)
    requires CanCkStore(s, t)
  {
    s.obj[s.ck[t].ents[s.cj[t].p].o].cur == Entry(t, s.cj[t].p)
  }

  lemma StoreCurs(s: State, t: nat)
    requires Inv(s) && CanCkStore(s, t) && StoreSafe(s, t)
    ensures Curs(DoCkStore(s, t)) == Curs(s)
  {
    assert CJobOk(s, t);
  }

  lemma StoreMasters(s: State, t: nat)
    requires Inv(s) && CanCkStore(s, t) && StoreSafe(s, t)
    ensures Masters(DoCkStore(s, t), View(s))
  {
    hide Hist, Txs, Chains, Covers, Readers, Gaps, Detect, Ops, Crash, Scans;
    var z := DoCkStore(s, t);
    var en := s.ck[t].ents[s.cj[t].p];
    assert CJobOk(s, t) && TJobOk(s, t) && EntryOk(View(s), en, s.qp.qp0);
    forall o | 0 <= o < |z.obj| ensures MasterOk(z, View(s), o) {
      assert MasterOk(s, View(s), o);
    }
  }

  lemma StoreJobs(s: State, t: nat)
    requires Inv(s) && CanCkStore(s, t) && StoreSafe(s, t) && Curs(DoCkStore(s, t)) == Curs(s)
    ensures Jobs(DoCkStore(s, t))
  {
    hide Hist, Txs, Chains, Entries, Covers, Readers, Gaps, Detect, Ops, Crash, Masters, Scans;
    var z := DoCkStore(s, t);
    assert CJobOk(s, t);
    forall u | 0 <= u < |z.tj| ensures TJobOk(z, u) && DoneOk(z, u) {
      assert TJobOk(s, u) && DoneOk(s, u);
    }
    forall u | 0 <= u < |z.cj| ensures CJobOk(z, u) {
      assert CJobOk(s, u);
    }
  }

  lemma StoreCrash(s: State, t: nat)
    requires Inv(s) && CanCkStore(s, t) && StoreSafe(s, t)
    ensures Crash(DoCkStore(s, t), View(s)) && Scans(DoCkStore(s, t), View(s))
  {
    hide Hist, Txs, Chains, Entries, Covers, Readers, Gaps, Detect, Ops, Masters;
    var z := DoCkStore(s, t);
    assert CJobOk(s, t) && EntDurable(s, t, s.cj[t].p);
    forall k, e | 0 <= k < |z.ck| && 0 <= e < |z.ck[k].ents| ensures EntDurable(z, k, e) {
      assert EntDurable(s, k, e);
    }
    forall o | 0 <= o < |z.obj| ensures CrashOk(z, View(s), o) {
      assert CrashOk(s, View(s), o);
    }
    forall u | 0 <= u < |s.log| ensures ScanOk(z, View(s), u) {
      PassedMaster(s, z, u);
    }
  }

  lemma CkStoreInv(s: State, t: nat)
    requires Inv(s) && CanCkStore(s, t) && StoreSafe(s, t)
    ensures Inv(DoCkStore(s, t))
  {
    hide Hist, Txs, Entries, Covers, Readers, Gaps, Detect, Ops, Crash, Scans, Masters, Jobs;
    var z := DoCkStore(s, t);
    var o := s.ck[t].ents[s.cj[t].p].o;
    StoreCurs(s, t);
    StoreMasters(s, t);
    StoreJobs(s, t);
    StoreCrash(s, t);
    ChainOrg(s.obj[o], View(s)[o], Curs(s)[o], Org, s.obj[o].org);
    MasterHist(s.obj, s.ws, o, z.obj[o]);
    ViewSame(s, z);
    ReclaimStep(s, z);
  }

  lemma FinishEntriesCk(s: State, t: nat)
    requires Inv(s) && CanCkFinish(s, t)
    ensures Entries(View(s), DoCkFinish(s, t).ck, s.qp.qp0)
  {
    hide Linear, Chains, Covers, Readers, Detect, Ops, Masters, Scans, Crash, EntryOk;
    assert CJobOk(s, t);
  }

  lemma FinishCrashCk(s: State, t: nat)
    requires Inv(s) && CanCkFinish(s, t)
    ensures Crash(DoCkFinish(s, t), View(s))
  {
    hide Linear, Chains, Covers, Readers, Detect, Ops, Masters, Scans, Entries;
    var z := DoCkFinish(s, t);
    assert CJobOk(s, t);
    forall o | 0 <= o < |z.obj| ensures CrashOk(z, View(s), o) {
      assert CrashOk(s, View(s), o);
    }
    forall k, e | 0 <= k < |z.ck| && 0 <= e < |z.ck[k].ents| ensures EntDurable(z, k, e) {
      assert EntDurable(s, k, e);
    }
  }

  lemma CkFinishInv(s: State, t: nat)
    requires Inv(s) && CanCkFinish(s, t)
    ensures Inv(DoCkFinish(s, t))
  {
    hide Hist, Txs, Chains, Entries, Covers, Readers, Gaps, Detect, Ops, Crash;
    var z := DoCkFinish(s, t);
    assert CJobOk(s, t);
    EntsSame(s, z);
    FinishEntriesCk(s, t);
    FinishCrashCk(s, t);
    forall o | 0 <= o < |z.obj| ensures MasterOk(z, View(s), o) {
      assert MasterOk(s, View(s), o);
    }
    forall u | 0 <= u < |z.log| ensures ScanOk(z, View(s), u) {
      assert ScanOk(s, View(s), u);
    }
    forall u | 0 <= u < |z.tj| ensures TJobOk(z, u) && DoneOk(z, u) && CJobOk(z, u) {
      assert TJobOk(s, u) && DoneOk(s, u) && CJobOk(s, u);
    }
    ReclaimStep(s, z);
  }
}
