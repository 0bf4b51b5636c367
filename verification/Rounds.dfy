/** What a round of reclamation has done when it is over. */
module Rounds {
  import opened Options
  import opened Ordo
  import opened Protocol
  import opened History
  import opened Invariant
  import opened Basics
  import opened BasicSteps
  import opened Runs

  /** State n lies in the round that step b has triggered. */
  predicate InRoundOf(ss: seq<State>, acts: seq<Action>, b: nat, m: Mode, cq: bool, n: nat) {
    && b < n < |ss| && b < |acts| && acts[b] == QpTrigger(m, cq)
    && forall i :: b < i <= n ==> ss[i].qp.ph.QTrig?
  }

  // ---------------------------------------------------------------- checkpoint logs

  /** How far the round has got with a checkpoint log whose prev was p when it began. */
  predicate CkStage(s: State, t: nat, p: nat) {
    && s.qp.ph.QTrig? && s.qp.cq && t < |s.tx| == |s.cj| == |s.ck|
    && if t >= s.qp.ph.n then s.cj[t] == CNone && s.ck[t].prev == p
       else match s.cj[t]
         case CReq => s.ck[t].prev == p
         case CDrop(lim) => lim == p
         case _ => s.ck[t].head == p
  }

  /** What of the state the stage is about changes only by steps of the qp thread and of
      the log's own reclamation. */
  lemma CkStep(s: State, a: Action, z: State, t: nat, p: nat)
    requires t < |s.cj| == |s.ck| && CJobShape(s, t)
    requires Next(s, a, z) && CkStage(s, t, p) && z.qp.ph.QTrig?
    ensures CkStage(z, t, p)
  {
    hide OwnNext, WsNext, QpNext, TvNextStep, CkNextStep;
    if OwnNext(s, a, z) || WsNext(s, a, z) {
      TxFrame(s, a, z);
    } else if TvNextStep(s, a, z) {
      TvFrame(s, a, z);
    } else if QpNext(s, a, z) {
      CkAsked(s, a, z, t, p);
    } else {
      CkMoves(s, a, z, t, p);
    }
  }

  lemma CkAsked(s: State, a: Action, z: State, t: nat, p: nat)
    requires QpNext(s, a, z) && CkStage(s, t, p) && z.qp.ph.QTrig?
    ensures CkStage(z, t, p)
  {
  }

  lemma CkMoves(s: State, a: Action, z: State, t: nat, p: nat)
    requires t < |s.cj| == |s.ck| && CJobShape(s, t) && CkNextStep(s, a, z) && CkStage(s, t, p)
    ensures CkStage(z, t, p)
  {
  }

  lemma TxFrame(s: State, a: Action, z: State)
    requires OwnNext(s, a, z) || WsNext(s, a, z)
    ensures z.cj == s.cj && z.tj == s.tj && z.ck == s.ck && z.qp == s.qp && z.clk == s.clk && |z.tx| == |s.tx|
  {
  }

  lemma TvFrame(s: State, a: Action, z: State)
    requires TvNextStep(s, a, z)
    ensures z.cj == s.cj && z.qp == s.qp && z.tx == s.tx && z.clk == s.clk && |z.ck| == |s.ck|
    ensures forall t :: 0 <= t < |s.ck| ==> z.ck[t].head == s.ck[t].head && z.ck[t].prev == s.ck[t].prev
  {
  }

  lemma {:induction false} CkInRound(ss: seq<State>, acts: seq<Action>, b: nat, m: Mode, n: nat, t: nat)
    requires Run(ss, acts) && InRoundOf(ss, acts, b, m, true, n) && t < |ss[b].tx|
    ensures t < |ss[b].ck| && CkStage(ss[n], t, ss[b].ck[t].prev)
    decreases n
  {
    hide Next, Basic;
    assert StepAt(ss, acts, b) && StepAt(ss, acts, n - 1);
    RunBasic(ss, acts, n - 1);
    if n == b + 1 {
      CkTriggered(ss[b], m, ss[n], t);
    } else {
      CkInRound(ss, acts, b, m, n - 1, t);
      assert CJobShape(ss[n - 1], t) by { JobsOf(ss[n - 1], t); }
      CkStep(ss[n - 1], acts[n - 1], ss[n], t, ss[b].ck[t].prev);
    }
  }

  lemma JobsOf(s: State, t: nat)
    requires Basic(s) && t < |s.tx|
    ensures |s.tx| == |s.cj| == |s.ck| == |s.tj| == |s.log| == |s.clk| && CJobShape(s, t) && TJobShape(s, t)
    ensures s.log[t].head <= s.log[t].prev <= |s.log[t].ids|
  {
    assert LogOk(t, s.tx[t], s.ws, s.log[t]);
  }

  lemma CkTriggered(s: State, m: Mode, z: State, t: nat)
    requires Basic(s) && Next(s, QpTrigger(m, true), z) && t < |s.tx|
    ensures t < |s.ck| && CkStage(z, t, s.ck[t].prev)
  {
    hide Basic, TJobShape;
    JobsOf(s, t);
  }

  /** When a round that asked for it is over, every checkpoint log has dropped exactly what
      lay before its prev when the round began. */
  lemma RoundDropsEntries(ss: seq<State>, acts: seq<Action>, b: nat, m: Mode, n: nat, t: nat)
    requires Run(ss, acts) && InRoundOf(ss, acts, b, m, true, n) && CanQpBarrier(ss[n]) && t < |ss[b].tx|
    ensures t < |ss[b].ck| && t < |ss[n].ck| && ss[n].ck[t].head == ss[n].ck[t].dhead == ss[b].ck[t].prev
  {
    hide Next, Basic, TJobShape;
    CkInRound(ss, acts, b, m, n, t);
    RunBasic(ss, acts, n);
    JobsOf(ss[n], t);
  }

  /** Where a writeback stops: no master lies before its prev, and the entry there is too
      young to be written back, or is its object's master. */
  lemma WritebackStops(s: State, t: nat)
    requires Basic(s) && CanCkFinish(s, t)
    ensures var z := DoCkFinish(s, t); var c := z.ck[t];
            && c.head == c.dhead <= c.prev <= |c.ents|
            && (c.prev < |c.ents| && c.ents[c.prev].s <= s.qp.qp2 ==>
                  c.ents[c.prev].o < |z.obj| && z.obj[c.ents[c.prev].o].cur == Entry(t, c.prev))
            && forall o :: 0 <= o < |z.obj| && z.obj[o].cur.Entry? && z.obj[o].cur.k == t ==> z.obj[o].cur.e >= c.prev
  {
    hide Linear, Links, Walks, Ops, TJobShape, Detect;
    assert CJobShape(s, t) && CkShape(s.ck[t]);
    var c := s.ck[t];
    if s.cj[t].p < |c.ents| { assert EntryOk(View(s), c.ents[s.cj[t].p], s.qp.qp0); }
    forall o | 0 <= o < |s.obj| && s.obj[o].cur.Entry? && s.obj[o].cur.k == t ensures s.obj[o].cur.e >= s.cj[t].p {
      assert MasterShape(s, o);
    }
  }

  // ---------------------------------------------------------------- tvlogs

  /** The oldest write set is committed, and some copy of it has no successor before the
      grace-period clock. */
  predicate HeldBack(s: State, t: nat) {
    && t < |s.log| && WsAtOk(s, t, s.log[t].head) && WsAt(s, t, s.log[t].head).wrt.At?
    && !Superseded(s, WsAt(s, t, s.log[t].head), s.qp.qp0)
  }

  predicate TvStage(s: State, m: Mode, t: nat, p: nat) {
    && s.qp.ph.QTrig? && s.qp.mode == m && t < |s.tx| == |s.tj| == |s.log|
    && s.log[t].head <= p
    && if t >= s.qp.ph.n then s.tj[t] == TNone && s.log[t].prev == p
       else match s.tj[t]
         case TReq(_) => s.log[t].prev == p
         case TDrop(_, lim) => lim == p
         case _ => s.log[t].head == p || (m == BestEffort && s.log[t].head < p && HeldBack(s, t))
  }

  /** Nothing that is done in a round gives an older copy a successor before qp0. */
  lemma HeldBackStays(s: State, a: Action, z: State, t: nat)
    requires Basic(s) && Next(s, a, z) && HeldBack(s, t) && z.qp.qp0 == s.qp.qp0
    requires t < |z.log| == |s.log| && z.log[t].head == s.log[t].head
    ensures HeldBack(z, t)
  {
    hide Basic, Next;
    var w := s.log[t].ids[s.log[t].head];
    var k := HeldBy(s, t);
    HeadStays(s, a, z, t);
    var it := s.ws[w].items[k];
    PrevStays(s, a, z, it.o, it.v);
    assert z.ws[w].items[k] == it;
  }

  /** The copy that holds the write set back. */
  lemma HeldBy(s: State, t: nat) returns (k: nat)
    requires Basic(s) && HeldBack(s, t)
    ensures var w := WsAt(s, t, s.log[t].head);
            && k < |w.items| && ItemInChain(s, w.items[k]) && w.items[k].v >= 1
            && !LtClk(VerOf(s, w.items[k].o, w.items[k].v).prev, s.qp.qp0)
  {
    hide Links, Shapes, Entries, Walks, Ops, Timing, Gaps, BelowSeen;
    var i := s.log[t].ids[s.log[t].head];
    var w := s.ws[i];
    assert WsOk(s.obj, s.ws, i);
    k :| 0 <= k < |w.items| && !(ItemInChain(s, w.items[k]) && LtClk(VerOf(s, w.items[k].o, w.items[k].v).prev, s.qp.qp0));
    assert ItemOk(s.obj, s.ws, i, k);
  }

  /** A published write set stays where it is, with its copies. */
  lemma HeadStays(s: State, a: Action, z: State, t: nat)
    requires Basic(s) && Next(s, a, z) && t < |s.log| == |z.log|
    requires WrtAt(s.ws, s.log[t], s.log[t].head).At?
    ensures var p := s.log[t].head;
            && p < |s.log[t].ids| && p < |z.log[t].ids| && z.log[t].ids[p] == s.log[t].ids[p] < |s.ws| <= |z.ws|
            && z.ws[s.log[t].ids[p]].items == s.ws[s.log[t].ids[p]].items
            && z.ws[s.log[t].ids[p]].wrt == s.ws[s.log[t].ids[p]].wrt
  {
    hide OwnNext, WsNext, QpNext, TvNextStep, CkNextStep, Basic;
    if WsNext(s, a, z) {
      HeadStaysWs(s, a, z, t);
    } else {
      OthersKeep(s, a, z);
    }
  }

  lemma HeadStaysWs(s: State, a: Action, z: State, t: nat)
    requires Basic(s) && WsNext(s, a, z) && t < |s.log| == |z.log|
    requires WrtAt(s.ws, s.log[t], s.log[t].head).At?
    ensures var p := s.log[t].head;
            && p < |s.log[t].ids| && p < |z.log[t].ids| && z.log[t].ids[p] == s.log[t].ids[p] < |s.ws| <= |z.ws|
            && z.ws[s.log[t].ids[p]].items == s.ws[s.log[t].ids[p]].items
            && z.ws[s.log[t].ids[p]].wrt == s.ws[s.log[t].ids[p]].wrt
  {
    hide Basic, WsNext;
    TxsOf(s);
    LogOf(s, t);
    hide LogOk, TxOk;
    ItemsKept(s, a, z, s.log[t].ids[s.log[t].head]);
    IdsKept(s, a, z, t, s.log[t].head);
  }

  lemma ItemsKept(s: State, a: Action, z: State, w: nat)
    requires WsNext(s, a, z) && w < |s.ws| && s.ws[w].wrt.At?
    requires Txs(s.tx, s.ws, s.log)
    ensures w < |s.ws| <= |z.ws| && z.ws[w].items == s.ws[w].items && z.ws[w].wrt == s.ws[w].wrt
  {
  }

  lemma IdsKept(s: State, a: Action, z: State, t: nat, p: nat)
    requires WsNext(s, a, z) && t < |s.log| == |s.tx| && WrtAt(s.ws, s.log[t], p).At?
    requires Txs(s.tx, s.ws, s.log)
    ensures |z.log| == |s.log| && p < |s.log[t].ids| && p < |z.log[t].ids| && z.log[t].ids[p] == s.log[t].ids[p]
  {
  }

  lemma TxsOf(s: State)
    requires Basic(s)
    ensures Txs(s.tx, s.ws, s.log)
  {
  }

  lemma LogOf(s: State, t: nat)
    requires Basic(s) && t < |s.log|
    ensures LogOk(t, s.tx[t], s.ws, s.log[t]) && |s.tx| == |s.log|
  {
  }

  /** What links copies to their successors. */
  predicate SameLinks(s: State, z: State) {
    && z.ws == s.ws && |z.log| == |s.log| && |z.obj| == |s.obj|
    && (forall t :: 0 <= t < |s.log| ==> z.log[t].ids == s.log[t].ids)
    && (forall o :: 0 <= o < |s.obj| ==> |z.obj[o].vers| == |s.obj[o].vers|)
    && (forall o, i :: 0 <= o < |s.obj| && 0 <= i < |s.obj[o].vers| ==> z.obj[o].vers[i].prev == s.obj[o].vers[i].prev)
  }

  /** Steps that are not on a write set change nothing of that. */
  lemma OthersKeep(s: State, a: Action, z: State)
    requires OwnNext(s, a, z) || QpNext(s, a, z) || TvNextStep(s, a, z) || CkNextStep(s, a, z)
    ensures SameLinks(s, z)
  {
    hide OwnNext, QpNext, TvNextStep, CkNextStep;
    if OwnNext(s, a, z) || QpNext(s, a, z) {
      ObjFrame(s, a, z);
    } else if TvNextStep(s, a, z) {
      TvKeeps(s, a, z);
    } else {
      CkKeeps(s, a, z);
    }
  }

  lemma ObjFrame(s: State, a: Action, z: State)
    requires OwnNext(s, a, z) || QpNext(s, a, z)
    ensures z.obj == s.obj && z.ws == s.ws && z.log == s.log
  {
  }

  lemma TvKeeps(s: State, a: Action, z: State)
    requires TvNextStep(s, a, z)
    ensures SameLinks(s, z)
  {
  }

  lemma CkKeeps(s: State, a: Action, z: State)
    requires CkNextStep(s, a, z)
    ensures SameLinks(s, z) && z.log == s.log && z.tj == s.tj && z.qp == s.qp && z.clk == s.clk && z.tx == s.tx
  {
  }

  lemma PrevStays(s: State, a: Action, z: State, o: nat, i: nat)
    requires Basic(s) && Next(s, a, z) && z.qp.qp0 == s.qp.qp0
    requires o < |s.obj| && 1 <= i < |s.obj[o].vers| && !LtClk(s.obj[o].vers[i].prev, s.qp.qp0)
    ensures o < |z.obj| && i < |z.obj[o].vers| && !LtClk(z.obj[o].vers[i].prev, z.qp.qp0)
  {
    hide OwnNext, WsNext, QpNext, TvNextStep, CkNextStep, Basic;
    if WsNext(s, a, z) {
      PrevStaysWs(s, a, z, o, i);
    } else {
      OthersKeep(s, a, z);
    }
  }

  lemma PrevStaysWs(s: State, a: Action, z: State, o: nat, i: nat)
    requires Basic(s) && WsNext(s, a, z)
    requires o < |s.obj| && 1 <= i < |s.obj[o].vers| && !LtClk(s.obj[o].vers[i].prev, s.qp.qp0)
    ensures o < |z.obj| && i < |z.obj[o].vers| && !LtClk(z.obj[o].vers[i].prev, s.qp.qp0)
  {
    hide Basic;
    if a.CommitUnlock? {
      UnlockedLate(s, a.t);
      assert z == DoCommitUnlock(s, a.t);
      hide WsNext;
    } else {
      PrevKept(s, a, z, o, i);
      hide WsNext;
    }
  }

  lemma PrevKept(s: State, a: Action, z: State, o: nat, i: nat)
    requires WsNext(s, a, z) && !a.CommitUnlock? && o < |s.obj| && i < |s.obj[o].vers|
    ensures o < |z.obj| && i < |z.obj[o].vers| && z.obj[o].vers[i].prev == s.obj[o].vers[i].prev
  {
  }

  /** A copy that is unlocked only now was stamped after the grace-period clock. */
  lemma UnlockedLate(s: State, t: nat)
    requires Basic(s) && CanCommitUnlock(s, t)
    ensures !LtClk(CurWs(s, t).wrt, s.qp.qp0)
  {
    LocalBasic(s, t);
  }

  lemma {:induction false} TvInRound(ss: seq<State>, acts: seq<Action>, b: nat, m: Mode, cq: bool, n: nat, t: nat)
    requires Run(ss, acts) && InRoundOf(ss, acts, b, m, cq, n) && t < |ss[b].tx| && m != NoTv
    ensures t < |ss[b].log| && TvStage(ss[n], m, t, ss[b].log[t].prev)
    decreases n
  {
    hide Next, Basic;
    assert StepAt(ss, acts, b) && StepAt(ss, acts, n - 1);
    RunBasic(ss, acts, n - 1);
    if n == b + 1 {
      TvTriggered(ss[b], m, cq, ss[n], t);
    } else {
      TvInRound(ss, acts, b, m, cq, n - 1, t);
      TvStep(ss[n - 1], acts[n - 1], ss[n], m, t, ss[b].log[t].prev);
    }
  }

  lemma TvTriggered(s: State, m: Mode, cq: bool, z: State, t: nat)
    requires Basic(s) && Next(s, QpTrigger(m, cq), z) && t < |s.tx|
    ensures t < |s.log| && TvStage(z, m, t, s.log[t].prev)
  {
    hide Basic;
    JobsOf(s, t);
  }

  /** The stage depends on the log, its job and what holds it back. */
  lemma StageKept(s: State, a: Action, z: State, m: Mode, t: nat, p: nat)
    requires Basic(s) && Next(s, a, z) && TvStage(s, m, t, p)
    requires z.qp == s.qp && |z.tx| == |s.tx| && |z.tj| == |s.tj| && |z.log| == |s.log|
    requires z.tj[t] == s.tj[t] && z.log[t].head == s.log[t].head && z.log[t].prev == s.log[t].prev
    ensures TvStage(z, m, t, p)
  {
    hide Next, Basic;
    if HeldBack(s, t) && s.log[t].head < p {
      HeldBackStays(s, a, z, t);
    }
  }

  lemma TvStep(s: State, a: Action, z: State, m: Mode, t: nat, p: nat)
    requires Basic(s) && Next(s, a, z) && TvStage(s, m, t, p) && m != NoTv && z.qp.ph.QTrig?
    ensures TvStage(z, m, t, p)
  {
    hide Basic, OwnNext, WsNext, QpNext, TvNextStep, CkNextStep, HeldBack;
    JobsOf(s, t);
    if OwnNext(s, a, z) || WsNext(s, a, z) {
      TxFrame(s, a, z);
      LogFrame(s, a, z);
      StageKept(s, a, z, m, t, p);
    } else if QpNext(s, a, z) {
      TvAsked(s, a, z, m, t, p);
    } else if TvNextStep(s, a, z) && TvBusy(s, z, t) {
      assert s.log[t].head < s.log[t].prev ==> WrtAt(s.ws, s.log[t], s.log[t].head).At? by { LocalBasic(s, t); }
      TvMoves(s, a, z, m, t, p);
    } else if TvNextStep(s, a, z) {
      TvElsewhere(s, a, z);
      StageKept(s, a, z, m, t, p);
    } else {
      CkKeeps(s, a, z);
      StageKept(s, a, z, m, t, p);
    }
  }

  lemma LogFrame(s: State, a: Action, z: State)
    requires OwnNext(s, a, z) || WsNext(s, a, z)
    ensures |z.log| == |s.log| && forall t :: 0 <= t < |s.log| ==> z.log[t].head == s.log[t].head && z.log[t].prev == s.log[t].prev
  {
  }

  lemma TvAsked(s: State, a: Action, z: State, m: Mode, t: nat, p: nat)
    requires QpNext(s, a, z) && TvStage(s, m, t, p) && m != NoTv && z.qp.ph.QTrig?
    requires |s.log| == |s.clk| && |s.obj| >= 0
    ensures TvStage(z, m, t, p)
  {
    assert HeldBack(s, t) ==> HeldBack(z, t) by {
      assert z.qp.qp0 == s.qp.qp0 && z.log == s.log && z.ws == s.ws && z.obj == s.obj;
    }
    hide HeldBack;
  }

  lemma TvElsewhere(s: State, a: Action, z: State)
    requires TvNextStep(s, a, z)
    ensures z.qp == s.qp && z.tx == s.tx && |z.tj| == |s.tj| && |z.log| == |s.log|
  {
  }

  predicate TvBusy(s: State, z: State, t: nat) {
    t < |s.tj| && t < |s.log| && t < |z.tj| && t < |z.log| && (z.tj[t] != s.tj[t] || z.log[t] != s.log[t])
  }

  lemma TvMoves(s: State, a: Action, z: State, m: Mode, t: nat, p: nat)
    requires TvNextStep(s, a, z) && TvStage(s, m, t, p) && TvBusy(s, z, t) && t < |s.clk| && TJobShape(s, t)
    requires s.log[t].head < s.log[t].prev ==> WrtAt(s.ws, s.log[t], s.log[t].head).At?
    ensures TvStage(z, m, t, p)
  {
    hide TvNextStep, HeldBack;
    if s.tj[t].TDrop? {
      DropMoves(s, a, z, m, t, p);
    } else {
      ScanMoves(s, a, z, m, t, p);
    }
  }

  lemma DropMoves(s: State, a: Action, z: State, m: Mode, t: nat, p: nat)
    requires TvNextStep(s, a, z) && TvStage(s, m, t, p) && TvBusy(s, z, t) && t < |s.clk| && TJobShape(s, t)
    requires s.log[t].head < s.log[t].prev ==> WrtAt(s.ws, s.log[t], s.log[t].head).At?
    requires s.tj[t].TDrop?
    ensures TvStage(z, m, t, p)
  {
    hide Borderline, DetachObj;
    assert (a == TvDrop(t) && z == DoTvDrop(s, t)) || (a == TvScanBegin(t) && CanTvScanBegin(s, t) && z == DoTvScanBegin(s, t));
  }

  lemma ScanMoves(s: State, a: Action, z: State, m: Mode, t: nat, p: nat)
    requires TvNextStep(s, a, z) && TvStage(s, m, t, p) && TvBusy(s, z, t) && t < |s.clk| && TJobShape(s, t)
    requires !s.tj[t].TDrop?
    ensures TvStage(z, m, t, p)
  {
    hide HeldBack, DetachObj, Borderline, ScanHit;
    if HeldBack(s, t) && m == BestEffort && s.tj[t].TScan? { ScanHolds(s, a, z, m, t); }
  }

  lemma ScanHolds(s: State, a: Action, z: State, m: Mode, t: nat)
    requires TvNextStep(s, a, z) && TvBusy(s, z, t) && m == BestEffort && t < |s.clk| && HeldBack(s, t)
    requires |s.tj| == |s.log| && TJobShape(s, t) && s.tj[t].TScan? && s.qp.mode == m
    ensures HeldBack(z, t)
  {
    hide DetachObj, Borderline, ScanHit;
    assert z.obj == s.obj && z.ws == s.ws && z.log[t].head == s.log[t].head;
  }

  /** When a round is over, every tvlog has dropped exactly what lay before its prev when the
      round began, unless best-effort reclamation has been stopped by a write set one of
      whose copies still has no successor before the grace-period clock. */
  lemma RoundDropsSets(ss: seq<State>, acts: seq<Action>, b: nat, m: Mode, cq: bool, n: nat, t: nat)
    requires Run(ss, acts) && InRoundOf(ss, acts, b, m, cq, n) && CanQpBarrier(ss[n]) && t < |ss[b].tx| && m != NoTv
    ensures t < |ss[b].log| && t < |ss[n].log| && ss[n].log[t].head <= ss[b].log[t].prev
    ensures ss[n].log[t].head < ss[b].log[t].prev ==> m == BestEffort && HeldBack(ss[n], t)
  {
    hide Next, Basic, HeldBack;
    TvInRound(ss, acts, b, m, cq, n, t);
  }
}
