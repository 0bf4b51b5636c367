/** Three runs, one object, two threads: where the guards the other modules need are
    not enforced, and what then goes wrong. All exist for every uncertainty window. */
module Races {
  import opened Options
  import opened Ordo
  import opened Protocol
  import opened Invariant
  import opened Basics
  import opened TxSteps
  import opened ReclaimSteps
  import opened MemorySteps
  import opened Runs
  import opened GracePeriods
  import opened Snapshots
  import opened Durability
  import Recovery

  // ---------------------------------------------------------------- building runs

  /** Some run in which no writeback is overtaken ends in s. */
  ghost predicate Reachable(s: State) {
    exists ss, acts :: Run(ss, acts) && StoresGuarded(ss, acts) && ss[|ss| - 1] == s
  }

  lemma Begin(s: State)
    requires Init(s)
    ensures Reachable(s)
  {
    assert Run([s], []) && StoresGuarded([s], []);
  }

  /** One more step of the run. */
  lemma Go(s: State, a: Action, z: State)
    requires Reachable(s) && Next(s, a, z) && StoreGuard(s, a)
    ensures Reachable(z)
  {
    hide Next, StoreGuard;
    var ss, acts :| Run(ss, acts) && StoresGuarded(ss, acts) && ss[|ss| - 1] == s;
    var zs, za := ss + [z], acts + [a];
    forall i | 0 <= i < |za| ensures StepAt(zs, za, i) && StoreGuardAt(zs, za, i) {
      assert i < |acts| ==> StepAt(ss, acts, i) && StoreGuardAt(ss, acts, i);
    }
    assert Run(zs, za);
  }

  lemma GoOwn(s: State, a: Action, z: State)
    requires Reachable(s) && OwnNext(s, a, z)
    ensures Reachable(z)
  {
    hide Reachable, WsNext, QpNext, TvNextStep, CkNextStep, StoreSafe;
    Go(s, a, z);
  }

  lemma GoWs(s: State, a: Action, z: State)
    requires Reachable(s) && WsNext(s, a, z)
    ensures Reachable(z)
  {
    hide Reachable, OwnNext, QpNext, TvNextStep, CkNextStep, StoreSafe;
    Go(s, a, z);
  }

  lemma GoQp(s: State, a: Action, z: State)
    requires Reachable(s) && QpNext(s, a, z)
    ensures Reachable(z)
  {
    hide Reachable, OwnNext, WsNext, TvNextStep, CkNextStep, StoreSafe;
    Go(s, a, z);
  }

  lemma GoTv(s: State, a: Action, z: State)
    requires Reachable(s) && TvNextStep(s, a, z)
    ensures Reachable(z)
  {
    hide Reachable, OwnNext, WsNext, QpNext, CkNextStep, StoreSafe;
    Go(s, a, z);
  }

  lemma GoCk(s: State, a: Action, z: State)
    requires Reachable(s) && CkNextStep(s, a, z) && !a.CkStore?
    ensures Reachable(z)
  {
    hide Reachable, OwnNext, WsNext, QpNext, TvNextStep, StoreSafe;
    Go(s, a, z);
  }

  // ---------------------------------------------------------------- pieces of runs

  /** Two threads, one object. */
  predicate Two(s: State) {
    && |s.tx| == |s.log| == |s.ck| == |s.oplog| == |s.clk| == |s.tj| == |s.cj| == |s.qp.need| == |s.qp.cap| == 2
    && |s.obj| == 1
  }

  predicate Resting(x: Tx) {
    x.ph == Idle && x.rd == NoRead && x.look == NoLook && x.ws.None? && x.refs == {}
  }

  /** Thread t may update the object at clock l. */
  predicate CanUpdate(s: State, t: nat, l: nat) {
    && Two(s) && t < 2 && Resting(s.tx[t]) && l + ORDO_BOUNDARY >= s.hi && l >= s.tx[t].last
    && s.obj[0].lock.None?
    && (match s.obj[0].pcopy
        case None => true
        case Some(i) =>
          i < |s.obj[0].vers| && s.obj[0].vers[i].w < |s.ws| && LtClk(s.obj[0].vers[i].raw, l))
  }

  function Base(s: State): nat
    requires |s.obj| == 1
  {
    if s.obj[0].pcopy.Some? then s.obj[0].pcopy.value else CurVer(s.ck, s.obj[0])
  }

  function LockedState(s: State, t: nat, l: nat): State
    requires CanUpdate(s, t, l)
  {
    s.(hi := Newer(s.hi, l),
       tx := s.tx[t := Tx(s.tx[t].run + 1, l, l, Running, NoRead, {LockSource(s, 0, Base(s))}, NoLook, Some(|s.ws|))],
       obj := s.obj[0 := s.obj[0].(lock := Some(LockId(|s.ws|, 0)))],
       ws := s.ws + [Ws(t, |s.log[t].ids|, [Item(0, Base(s), 0)], 0, Max, Max, 0, NotLogged)],
       log := s.log[t := s.log[t].(ids := s.log[t].ids + [|s.ws|])])
  }

  lemma Lock(s: State, t: nat, l: nat)
    requires Reachable(s) && CanUpdate(s, t, l)
    ensures Reachable(LockedState(s, t, l))
  {
    hide Reachable;
    var s1 := DoBeginCount(s, t);
    GoOwn(s, BeginCount(t), s1);
    var s2 := DoBeginClock(s1, t, l);
    GoOwn(s1, BeginClock(t, l), s2);
    var s3 := DoLockLook(s2, t, 0);
    GoOwn(s2, LockLook(t, 0), s3);
    var s4 := DoLockTake(s3, t);
    GoWs(s3, LockTake(t), s4);
    assert s4.tx[t].refs == {LockSource(s, 0, Base(s))};
    assert s4.tx == LockedState(s, t, l).tx;
    assert s4 == LockedState(s, t, l);
  }

  /** Thread t has one locked copy, in write set w, and is about to link it. */
  predicate CanLink(s: State, t: nat, w: nat) {
    && Two(s) && t < 2 && w < |s.ws| && s.tx[t].ph == Running && s.tx[t].rd == NoRead && s.tx[t].ws == Some(w)
    && |s.ws[w].items| == 1 && s.ws[w].items[0].o == 0 && s.ws[w].inst == 0
    && (s.obj[0].pcopy.Some? ==> s.obj[0].pcopy.value < |s.obj[0].vers|)
  }

  function LinkedState(s: State, t: nat, w: nat): State
    requires CanLink(s, t, w)
  {
    s.(tx := s.tx[t := s.tx[t].(ph := Installing)],
       obj := s.obj[0 := s.obj[0].(vers := s.obj[0].vers + [NewVer(s.obj[0], w, 0)],
                                   pcopy := Some(|s.obj[0].vers|))],
       ws := s.ws[w := s.ws[w].(inst := 1, items := [Item(0, s.ws[w].items[0].base, |s.obj[0].vers|)])])
  }

  lemma Link(s: State, t: nat, w: nat)
    requires Reachable(s) && CanLink(s, t, w)
    ensures Reachable(LinkedState(s, t, w))
  {
    hide Reachable;
    var s1 := DoCommitBegin(s, t);
    GoOwn(s, CommitBegin(t), s1);
    var s2 := DoCommitInstall(s1, t);
    GoWs(s1, CommitInstall(t), s2);
    assert s2.ws[w].items == LinkedState(s, t, w).ws[w].items;
    assert s2.tx == LinkedState(s, t, w).tx;
    assert s2 == LinkedState(s, t, w);
  }

  /** Thread t has linked its one copy, version i, and may commit at clock c. */
  predicate CanFinish(s: State, t: nat, w: nat, i: nat, c: nat) {
    && Two(s) && t < 2 && w < |s.ws| && s.tx[t].ph == Installing && s.tx[t].ws == Some(w)
    && |s.ws[w].items| == 1 && s.ws[w].inst == 1 && s.ws[w].unl == 0 && s.ws[w].op == NotLogged
    && s.ws[w].items[0].o == 0 && s.ws[w].items[0].v == i < |s.obj[0].vers|
    && (s.obj[0].vers[i].next.Some? ==> s.obj[0].vers[i].next.value < |s.obj[0].vers|)
    && c + ORDO_BOUNDARY >= s.hi && c >= s.tx[t].last && Gt(c, s.tx[t].lclk + ORDO_BOUNDARY)
  }

  function FinishedState(s: State, t: nat, w: nat, i: nat, c: nat): State
    requires CanFinish(s, t, w, i, c)
  {
    s.(hi := Newer(s.hi, c),
       tx := s.tx[t := Tx(s.tx[t].run + 1, s.tx[t].lclk, c, Idle, NoRead, {}, NoLook, None)],
       obj := s.obj[0 := UnlockObj(s.obj[0], i, At(c))],
       ws := s.ws[w := s.ws[w].(pending := At(c), wrt := At(c), unl := 1, op := Durable)],
       oplog := s.oplog[t := LoggedOp(s.oplog[t], w)])
  }

  function LoggedOp(q: OpLog, w: nat): OpLog {
    q.(ids := q.ids + [w], dtail := |q.ids| + 1)
  }

  /** Stamping the write set and logging its operation. */
  lemma Stamp(s: State, t: nat, w: nat, i: nat, c: nat) returns (z: State)
    requires Reachable(s) && CanFinish(s, t, w, i, c)
    ensures Reachable(z)
    ensures z == s.(hi := Newer(s.hi, c), tx := s.tx[t := s.tx[t].(last := c, ph := Stamped)],
                    ws := s.ws[w := s.ws[w].(pending := At(c), op := Queued)],
                    oplog := s.oplog[t := s.oplog[t].(ids := s.oplog[t].ids + [w])])
  {
    hide Reachable;
    var s1 := DoCommitStamp(s, t, c);
    GoWs(s, CommitStamp(t, c), s1);
    z := DoCommitLog(s1, t);
    GoWs(s1, CommitLog(t), z);
    assert z.ws == s.ws[w := s.ws[w].(pending := At(c), op := Queued)];
  }

  /** Persisting the operation and publishing the write set. */
  lemma PublishWs(s: State, t: nat, w: nat) returns (z: State)
    requires Reachable(s) && t < |s.tx| == |s.oplog| && s.tx[t].ph == Stamped && s.tx[t].ws == Some(w) && w < |s.ws|
    requires s.ws[w].op == Queued
    ensures Reachable(z)
    ensures z == s.(tx := s.tx[t := s.tx[t].(ph := Unlocking)],
                    ws := s.ws[w := s.ws[w].(wrt := s.ws[w].pending, op := Durable)],
                    oplog := s.oplog[t := s.oplog[t].(dtail := |s.oplog[t].ids|)])
  {
    hide Reachable;
    var s1 := DoCommitPersist(s, t);
    GoWs(s, CommitPersist(t), s1);
    z := DoCommitPublish(s1, t);
    GoWs(s1, CommitPublish(t), z);
    assert z.ws == s.ws[w := s.ws[w].(wrt := s.ws[w].pending, op := Durable)];
  }

  lemma Finish(s: State, t: nat, w: nat, i: nat, c: nat)
    requires Reachable(s) && CanFinish(s, t, w, i, c)
    ensures Reachable(FinishedState(s, t, w, i, c))
  {
    hide Reachable;
    var s0 := Stamp(s, t, w, i, c);
    var s1 := PublishWs(s0, t, w);
    var s2 := DoCommitUnlock(s1, t);
    GoWs(s1, CommitUnlock(t), s2);
    var s3 := DoTxEnd(s2, t);
    GoOwn(s2, TxEnd(t), s3);
    assert s3.tx == FinishedState(s, t, w, i, c).tx;
    assert s3.ws == FinishedState(s, t, w, i, c).ws && s3.oplog == FinishedState(s, t, w, i, c).oplog;
    assert s3 == FinishedState(s, t, w, i, c);
  }

  // ---- grace periods

  lemma FenceBehind(s: State)
    requires Reachable(s)
    ensures s.qp.fence <= s.hi
  {
    hide Reachable, Checkpoints, Readers, Rounding;
    ReachableInv(s);
  }

  lemma Clock(s: State, c: nat) returns (z: State)
    requires Reachable(s) && s.qp.ph == QRest && c > s.hi + ORDO_BOUNDARY
    ensures Reachable(z) && z == s.(hi := c, qp := s.qp.(ph := QInit(0), clk := c))
  {
    hide Reachable;
    FenceBehind(s);
    z := DoQpClock(s, c);
    GoQp(s, QpClock(c), z);
  }

  /** A thread that does not hold up the grace period. */
  predicate Lets(x: Tx, clk: nat) {
    x.run % 2 == 0 || !Lt(x.lclk, clk)
  }

  lemma Capture(s: State) returns (z: State)
    requires Reachable(s) && Two(s) && s.qp.ph == QInit(0)
    ensures Reachable(z) && z == s.(qp := z.qp) && Two(z)
    ensures z.qp == s.qp.(ph := QWait, need := z.qp.need, cap := z.qp.cap)
    ensures z.qp.need[0] == (s.tx[0].run % 2 == 1) && z.qp.need[1] == (s.tx[1].run % 2 == 1)
  {
    hide Reachable;
    var s1 := DoQpCapture(s);
    GoQp(s, QpCapture, s1);
    z := DoQpCapture(s1);
    GoQp(s1, QpCapture, z);
  }

  lemma Check(s: State, t: nat) returns (z: State)
    requires Reachable(s) && Two(s) && t < 2 && s.qp.ph == QWait
    requires s.qp.need[t] ==> !Lt(s.tx[t].lclk, s.qp.clk)
    ensures Reachable(z) && Two(z) && z == s.(qp := s.qp.(need := s.qp.need[t := false]))
  {
    hide Reachable;
    z := s;
    if s.qp.need[t] {
      z := DoQpCheck(s, t);
      GoQp(s, QpCheck(t), z);
    }
  }

  lemma Wait(s: State) returns (z: State)
    requires Reachable(s) && Two(s) && s.qp.ph == QInit(0) && s.qp.clk >= ORDO_BOUNDARY
    requires Lets(s.tx[0], s.qp.clk) && Lets(s.tx[1], s.qp.clk)
    ensures Reachable(z) && z == s.(qp := z.qp) && Two(z) && z.qp.ph == QReady
    ensures z.qp.qp0 == s.qp.clk - ORDO_BOUNDARY && z.qp.qp1 == s.qp.qp0 && z.qp.qp2 == s.qp.qp1
    ensures z.qp.last == s.qp.last && z.qp.dlast == s.qp.dlast
  {
    hide Reachable;
    var s1 := Capture(s);
    var s2 := Check(s1, 0);
    var s3 := Check(s2, 1);
    z := DoQpAdvance(s3);
    GoQp(s3, QpAdvance, z);
  }

  lemma Skip(s: State) returns (z: State)
    requires Reachable(s) && s.qp.ph == QReady
    ensures Reachable(z) && z == s.(qp := s.qp.(ph := QRest, fence := s.hi))
  {
    hide Reachable;
    z := DoQpSkip(s);
    GoQp(s, QpSkip, z);
  }

  lemma Trigger(s: State, m: Mode, cq: bool) returns (z: State)
    requires Reachable(s) && Two(s) && s.qp.ph == QReady
    ensures Reachable(z) && Two(z) && z.qp == s.qp.(ph := QTrig(2), mode := m, cq := cq)
    ensures z == s.(qp := z.qp, clk := z.clk, tj := z.tj, cj := z.cj)
    ensures z.clk == [Clks(s.qp.qp0, s.qp.qp2, s.qp.last), Clks(s.qp.qp0, s.qp.qp2, s.qp.last)]
    ensures z.tj == if m == NoTv then [TNone, TNone] else [TReq(m), TReq(m)]
    ensures z.cj == if cq then [CReq, CReq] else [CNone, CNone]
  {
    hide Reachable;
    var s1 := DoQpTrigger(s, m, cq);
    GoQp(s, QpTrigger(m, cq), s1);
    var s2 := DoQpPropagate(s1);
    GoQp(s1, QpPropagate, s2);
    z := DoQpPropagate(s2);
    GoQp(s2, QpPropagate, z);
  }

  lemma Publish(s: State) returns (z: State)
    requires Reachable(s) && Two(s) && s.qp.ph == QTrig(2) && s.qp.mode == Ckpt
    requires s.tj == [TNone, TNone] && s.cj == [CNone, CNone]
    ensures Reachable(z) && Two(z)
    ensures z == s.(qp := s.qp.(ph := QRest, dlast := s.qp.qp0, last := s.qp.qp0, fence := s.hi))
  {
    hide Reachable;
    var s1 := DoQpBarrier(s);
    GoQp(s, QpBarrier, s1);
    z := DoQpPublish(s1);
    GoQp(s1, QpPublish, z);
  }

  // ---- checkpoints

  /** Thread t's tvlog holds one write set, one copy, ready to be checkpointed. */
  predicate OneToScan(s: State, t: nat, i: nat) {
    && Two(s) && t < 2 && s.log[t].head == s.log[t].prev == 0 && |s.log[t].ids| == 1 && s.log[t].ids[0] < |s.ws|
    && var w := s.ws[s.log[t].ids[0]];
       && LtClk(w.wrt, s.clk[t].qp0) && |w.items| == 1 && w.items[0].o == 0 && w.items[0].v == i < |s.obj[0].vers|
       && !s.obj[0].vers[i].detached && s.obj[0].vers[i].prev.Max? && LtClk(s.obj[0].vers[i].raw, s.clk[t].qp0)
  }

  lemma Scan(s: State, t: nat) returns (z: State)
    requires Reachable(s) && Two(s) && t < 2 && s.tj[t] == TReq(Ckpt) && s.log[t].head == s.log[t].prev == 0
    ensures Reachable(z) && z == s.(tj := s.tj[t := TScan(Ckpt, 0, 0)])
  {
    hide Reachable;
    var s1 := DoTvStart(s, t);
    GoTv(s, TvStart(t), s1);
    z := DoTvScanBegin(s1, t);
    GoTv(s1, TvScanBegin(t), z);
    assert z.tj == s.tj[t := TScan(Ckpt, 0, 0)];
  }

  /** Thread t's tvlog holds nothing to checkpoint. */
  lemma NothingToScan(s: State, t: nat) returns (z: State)
    requires Reachable(s) && Two(s) && t < 2 && s.tj[t] == TReq(Ckpt) && s.log[t].head == s.log[t].prev == 0
    requires |s.log[t].ids| == 0 || (s.log[t].ids[0] < |s.ws| && s.ws[s.log[t].ids[0]].wrt.Max?)
    requires s.ck[t].dur == |s.ck[t].ents|
    ensures Reachable(z) && Two(z) && z == s.(tj := s.tj[t := TNone])
  {
    hide Reachable;
    var s1 := Scan(s, t);
    z := DoTvFinish(s1, t);
    GoTv(s1, TvFinish(t), z);
    assert z.log == s.log && z.ck == s.ck && z.tj == s.tj[t := TNone];
  }

  lemma Checkpoint(s: State, t: nat, i: nat) returns (z: State)
    requires Reachable(s) && OneToScan(s, t, i) && s.tj[t] == TReq(Ckpt)
    ensures Reachable(z) && Two(z)
    ensures z == s.(tj := s.tj[t := TDetach(0, 0)], obj := s.obj[0 := s.obj[0].(cur := Entry(t, |s.ck[t].ents|))],
                    ck := s.ck[t := s.ck[t].(ents := s.ck[t].ents + [Ent(0, i, s.clk[t].qp0, s.obj[0].cur)])])
  {
    hide Reachable;
    var s1 := Scan(s, t);
    z := DoTvCkpt(s1, t);
    GoTv(s1, TvCkpt(t), z);
    assert z.tj == s.tj[t := TDetach(0, 0)];
  }

  lemma StopScan(s: State, t: nat) returns (z: State)
    requires Reachable(s) && Two(s) && t < 2 && s.tj[t] == TScan(Ckpt, 0, 1) && |s.log[t].ids| == 1
    requires s.log[t].ids[0] < |s.ws| && LtClk(s.ws[s.log[t].ids[0]].wrt, s.clk[t].qp0)
    requires |s.ws[s.log[t].ids[0]].items| == 1
    ensures Reachable(z) && Two(z)
    ensures z == s.(tj := s.tj[t := TNone], log := s.log[t := s.log[t].(prev := 1)],
                    ck := s.ck[t := s.ck[t].(dur := |s.ck[t].ents|)])
  {
    hide Reachable, CanTvStart, DoTvStart, CanTvDrop, DoTvDrop, CanTvScanBegin, DoTvScanBegin, CanTvSkip, DoTvSkip;
    hide CanTvCkpt, DoTvCkpt, CanTvDetach, DoTvDetach, Superseded, DetachObj;
    var s1 := DoTvNext(s, t);
    GoTv(s, TvNext(t), s1);
    z := DoTvFinish(s1, t);
    GoTv(s1, TvFinish(t), z);
    assert z.tj == s.tj[t := TNone];
  }

  lemma Detach(s: State, t: nat, i: nat) returns (z: State)
    requires Reachable(s) && OneToScan(s, t, i) && s.tj[t] == TDetach(0, 0)
    ensures Reachable(z) && Two(z)
    ensures z == s.(tj := s.tj[t := TNone], obj := s.obj[0 := DetachObj(s.obj[0], i)],
                    log := s.log[t := s.log[t].(prev := 1)], ck := s.ck[t := s.ck[t].(dur := |s.ck[t].ents|)])
  {
    hide Reachable;
    var s1 := DoTvDetach(s, t);
    GoTv(s, TvDetach(t), s1);
    z := StopScan(s1, t);
    assert z.tj == s.tj[t := TNone];
  }

  // ---------------------------------------------------------------- the common beginning

  const B: nat := ORDO_BOUNDARY
  const V1: nat := 4 * B + 1

  const Start := State(B,
    seq(2, i => Tx(0, 0, 0, Idle, NoRead, {}, NoLook, None)), [Obj([NoVer], None, None, Org, 0)], [],
    seq(2, i => TvLog([], 0, 0)), seq(2, i => CkLog([], 0, 0, 0, 0)), seq(2, i => OpLog([], 0, 0, 0)), seq(2, i => Clks(0, 0, 0)),
    [TNone, TNone], [CNone, CNone],
    Qp(QRest, 0, [false, false], [0, 0], 0, 0, 0, 0, 0, NoTv, false, B))

  /** Nothing checkpointed yet, no round begun. */
  predicate NoRound(s: State) {
    && Two(s) && s.tj == [TNone, TNone] && s.cj == [CNone, CNone]
    && s.qp.ph == QRest && s.qp.qp0 == s.qp.qp1 == s.qp.qp2 == s.qp.last == 0
    && (forall t :: 0 <= t < 2 ==> s.ck[t] == CkLog([], 0, 0, 0, 0))
    && (forall t :: 0 <= t < 2 ==> s.clk[t] == Clks(0, 0, 0))
  }

  /** Thread 0 has committed version 1 of the object at clock V1. */
  predicate OneVersion(s: State) {
    && Two(s) && s.hi == V1 && Resting(s.tx[0]) && Resting(s.tx[1]) && s.tx[0].run == 2 && s.tx[1].run == 0
    && s.tx[0].last == V1 && s.tx[1].last == 0
    && |s.obj[0].vers| == 2 && s.obj[0].vers[1] == Ver(0, 0, At(V1), None, At(0), Max, false)
    && s.obj[0] == Obj(s.obj[0].vers, Some(1), None, Org, 0)
    && |s.ws| == 1 && s.ws[0] == Ws(0, 0, s.ws[0].items, 1, At(V1), At(V1), 1, Durable)
    && |s.ws[0].items| == 1 && s.ws[0].items[0] == Item(0, 0, 1)
    && |s.log[0].ids| == 1 && s.log[0] == TvLog(s.log[0].ids, 0, 0) && s.log[0].ids[0] == 0
    && s.log[1] == TvLog([], 0, 0)
  }

  lemma FirstLocked() returns (s: State)
    ensures Reachable(s) && CanUpdate(Start, 0, B) && s == LockedState(Start, 0, B)
  {
    hide Reachable;
    Begin(Start);
    Lock(Start, 0, B);
    s := LockedState(Start, 0, B);
  }

  lemma FirstLinked() returns (s: State)
    ensures Reachable(s) && CanFinish(s, 0, 0, 1, V1) && NoRound(s) && OneVersion(FinishedState(s, 0, 0, 1, V1))
  {
    hide Reachable;
    var s1 := FirstLocked();
    Link(s1, 0, 0);
    s := LinkedState(s1, 0, 0);
  }

  lemma FirstVersion() returns (s: State)
    ensures Reachable(s) && NoRound(s) && OneVersion(s)
  {
    hide Reachable, OneVersion;
    var s1 := FirstLinked();
    Finish(s1, 0, 0, 1, V1);
    s := FinishedState(s1, 0, 0, 1, V1);
  }

  // ---------------------------------------------------------------- a writeback overtaken by a checkpoint

  /** Round one checkpoints version 1. */
  lemma RoundOne(s: State) returns (z: State)
    requires Reachable(s) && NoRound(s) && OneVersion(s)
    ensures Reachable(z) && Two(z) && z == s.(hi := 6 * B + 2, obj := z.obj, log := z.log, ck := z.ck, clk := z.clk, qp := z.qp)
    ensures z.obj[0] == DetachObj(s.obj[0], 1).(cur := Entry(0, 0))
    ensures |z.ck[0].ents| == 1 && z.ck[0] == CkLog(z.ck[0].ents, 0, 0, 1, 0) && z.ck[0].ents[0] == Ent(0, 1, 5 * B + 2, Org)
    ensures z.ck[1] == s.ck[1] && z.log[1] == s.log[1] && z.log[0] == s.log[0].(prev := 1)
    ensures z.qp.ph == QRest && z.qp.qp0 == z.qp.last == 5 * B + 2 && z.qp.qp1 == z.qp.qp2 == 0
  {
    hide Reachable;
    var s1 := Clock(s, 6 * B + 2);
    var s2 := Wait(s1);
    var s3 := Trigger(s2, Ckpt, false);
    var s4 := Checkpoint(s3, 0, 1);
    var s5 := Detach(s4, 0, 1);
    var s6 := NothingToScan(s5, 1);
    z := Publish(s6);
  }

  /** Thread 1 commits version 2 on top of the checkpointed version 1. */
  lemma SecondVersion(s: State) returns (z: State)
    requires Reachable(s) && Two(s) && s.hi == 6 * B + 2 && Resting(s.tx[1]) && s.tx[1].last <= s.hi
    requires s.obj[0].pcopy.None? && s.obj[0].lock.None? && |s.obj[0].vers| == 2 && CurVer(s.ck, s.obj[0]) == 1
    requires |s.ws| == 1 && s.log[1] == TvLog([], 0, 0)
    ensures Reachable(z) && Two(z) && z == s.(hi := 8 * B + 3, tx := z.tx, obj := z.obj, ws := z.ws, log := z.log, oplog := z.oplog)
    ensures z.log[0] == s.log[0]
    ensures z.tx[0] == s.tx[0] && Resting(z.tx[1]) && z.tx[1].run == s.tx[1].run + 2
    ensures |z.ws| == 2 && z.ws[0] == s.ws[0] && z.ws[1].wrt == z.ws[1].pending == At(8 * B + 3)
    ensures |z.ws[1].items| == 1 && z.ws[1].items[0] == Item(0, 1, 2)
    ensures |z.log[1].ids| == 1 && z.log[1] == TvLog(z.log[1].ids, 0, 0) && z.log[1].ids[0] == 1
    ensures |z.obj[0].vers| == 3 && z.obj[0].vers[2] == Ver(1, 0, At(8 * B + 3), None, At(0), Max, false)
    ensures z.obj[0] == Obj(z.obj[0].vers, Some(2), None, s.obj[0].cur, s.obj[0].org)
  {
    hide Reachable;
    var l := 6 * B + 2;
    Lock(s, 1, l);
    var s1 := LockedState(s, 1, l);
    Link(s1, 1, 1);
    var s2 := LinkedState(s1, 1, 1);
    Finish(s2, 1, 1, 2, 8 * B + 3);
    z := FinishedState(s2, 1, 1, 2, 8 * B + 3);
  }

  /** Thread t's writeback loop is at its first entry. */
  lemma StartWb(s: State, t: nat) returns (z: State)
    requires Reachable(s) && Two(s) && t < 2 && s.cj[t] == CReq && s.ck[t].head == s.ck[t].prev == 0
    ensures Reachable(z) && Two(z) && z == s.(cj := s.cj[t := CWb(0)])
  {
    hide Reachable;
    var s1 := DoCkStart(s, t);
    GoCk(s, CkStart(t), s1);
    z := DoCkWbBegin(s1, t);
    GoCk(s1, CkWbBegin(t), z);
    assert z.cj == s.cj[t := CWb(0)];
  }

  /** Thread t has copied its only entry over the original object. */
  lemma CopyBack(s: State, t: nat) returns (z: State)
    requires Reachable(s) && Two(s) && t < 2 && s.cj[t] == CReq
    requires s.ck[t].head == s.ck[t].prev == 0 && |s.ck[t].ents| == 1
    requires s.ck[t].ents[0].o == 0 && s.obj[0].cur == Entry(t, 0) && !Gt(s.ck[t].ents[0].s, s.clk[t].qp2)
    ensures Reachable(z) && Two(z)
    ensures z == s.(obj := s.obj[0 := s.obj[0].(org := s.ck[t].ents[0].v)], cj := s.cj[t := CStore(0)])
  {
    hide Reachable;
    var s1 := StartWb(s, t);
    z := DoCkCopy(s1, t);
    GoCk(s1, CkCopy(t), z);
    assert z.cj == s.cj[t := CStore(0)];
  }

  /** Round two only detects a grace period; round three makes the entry of round one
      old enough to be written back. */
  lemma LaterRounds(s: State) returns (z: State)
    requires Reachable(s) && Two(s) && s.hi == 8 * B + 3 && s.qp.ph == QRest
    requires s.qp.qp0 == 5 * B + 2 && s.qp.qp1 == 0 && s.tx[0].run % 2 == 0 && s.tx[1].run % 2 == 0
    ensures Reachable(z) && Two(z)
    ensures z == s.(hi := 11 * B + 6, qp := z.qp, clk := z.clk, tj := z.tj, cj := z.cj)
    ensures z.clk[0] == z.clk[1] == Clks(10 * B + 6, 5 * B + 2, s.qp.last)
    ensures z.tj == [TReq(Ckpt), TReq(Ckpt)] && z.cj == [CReq, CReq]
  {
    hide Reachable;
    var s1 := Clock(s, 9 * B + 4);
    var s2 := Wait(s1);
    var s3 := Skip(s2);
    var s4 := Clock(s3, 11 * B + 6);
    var s5 := Wait(s4);
    z := Trigger(s5, Ckpt, true);
  }

  /** A run ends in front of a writeback's store that throws away a newer, committed
      master: another thread has checkpointed the object between the writeback's
      copy and its store. Once that thread has detached the copy, every transaction
      reads the old version. */
  lemma OvertakenWriteback() returns (s: State)
    ensures Reachable(s) && Inv(s) && CanCkStore(s, 0) && |s.obj| == 1
    ensures CurVer(s.ck, s.obj[0]) == 2 && |s.ws| == 2 && s.ws[1].wrt.At?
    ensures var z := DoCkStore(s, 0);
            && CurVer(z.ck, z.obj[0]) == 1 && CanTvDetach(z, 1)
            && forall l, k :: DerefVer(DoTvDetach(z, 1), 0, l, k) == 1
  {
    hide Inv, Reachable;
    var s1 := FirstVersion();
    var s2 := RoundOne(s1);
    var s3 := SecondVersion(s2);
    var s4 := LaterRounds(s3);
    var s5 := CopyBack(s4, 0);
    s := Checkpoint(s5, 1, 2);
    ReachableInv(s);
  }

  lemma ReachableInv(s: State)
    requires Reachable(s)
    ensures Inv(s)
  {
    hide Inv, Next, Init;
    var ss, acts :| Run(ss, acts) && StoresGuarded(ss, acts) && ss[|ss| - 1] == s;
    RunInv(ss, acts, |ss| - 1);
  }

  // ---------------------------------------------------------------- a copy dropped under a reader

  /** Round one begins; thread 1, running since its clock was read, links version 2
      above version 1; the round checkpoints and detaches version 1, which stays
      linked behind the version not yet stamped. */
  lemma StraddlingCommit(s: State) returns (z: State)
    requires Reachable(s) && NoRound(s) && OneVersion(s)
    ensures Reachable(z) && Two(z) && z.hi == 6 * B + 2 && z.clk[0] == Clks(5 * B + 2, 0, 0)
    ensures z.tx[0] == s.tx[0] && z.tx[1] == Tx(1, 6 * B + 2, 6 * B + 2, Installing, NoRead, {Ref(0, Copy(1), 1)}, NoLook, Some(1))
    ensures |z.ws| == 2 && z.ws[0] == s.ws[0] && |z.ws[1].items| == 1 && z.ws[1].items[0] == Item(0, 1, 2)
    ensures z.ws[1] == Ws(1, 0, z.ws[1].items, 1, Max, Max, 0, NotLogged)
    ensures |z.obj[0].vers| == 3 && z.obj[0].vers[1] == s.obj[0].vers[1].(detached := true)
    ensures z.obj[0].vers[2] == Ver(1, 0, Max, Some(1), At(V1), Max, false) && z.obj[0].pcopy == Some(2)
    ensures z.log[0] == s.log[0].(prev := 1) && z.tj == [TNone, TNone] && z.cj == [CNone, CNone]
    ensures z.qp.ph == QRest && z.qp.qp0 == z.qp.last == 5 * B + 2
  {
    hide Reachable;
    var c := 6 * B + 2;
    var s1 := Clock(s, c);
    Lock(s1, 1, c);
    var s2 := LockedState(s1, 1, c);
    Link(s2, 1, 1);
    var s3 := LinkedState(s2, 1, 1);
    var s4 := Wait(s3);
    var s5 := Trigger(s4, Ckpt, false);
    var s6 := Checkpoint(s5, 0, 1);
    var s7 := Detach(s6, 0, 1);
    var s8 := NothingToScan(s7, 1);
    z := Publish(s8);
  }

  /** Thread 0 begins, walks past the unstamped version 2 and gets version 1. */
  lemma ReadPast(s: State, l: nat) returns (z: State)
    requires Reachable(s) && Two(s) && Resting(s.tx[0]) && l >= s.hi && l >= s.tx[0].last && Lt(V1, l)
    requires s.clk[0].last == 0 && |s.ws| == 2 && s.ws[1].pending.Max? && s.obj[0].pcopy == Some(2)
    requires |s.obj[0].vers| == 3 && s.obj[0].vers[2] == Ver(1, 0, Max, Some(1), At(V1), Max, false)
    requires s.obj[0].vers[1].raw == At(V1) && s.obj[0].vers[1].w == 0
    ensures Reachable(z) && Two(z)
    ensures z == s.(hi := l, tx := s.tx[0 := Tx(s.tx[0].run + 1, l, l, Running, NoRead, {Ref(0, Copy(1), 1)}, NoLook, None)])
  {
    hide Reachable;
    var s1 := DoBeginCount(s, 0);
    GoOwn(s, BeginCount(0), s1);
    var s2 := DoBeginClock(s1, 0, l);
    GoOwn(s1, BeginClock(0, l), s2);
    var s3 := DoDerefBegin(s2, 0, 0);
    GoOwn(s2, DerefBegin(0, 0), s3);
    assert s3.tx[0].rd == AtCopy(0, 2, 0);
    var s4 := DoDerefCopy(s3, 0);
    GoOwn(s3, DerefCopy(0), s4);
    assert s4.tx[0].rd == AtCopy(0, 1, 0);
    z := DoDerefCopy(s4, 0);
    GoOwn(s4, DerefCopy(0), z);
    assert z.tx[0].refs == {Ref(0, Copy(1), 1)};
    assert z.tx == s.tx[0 := Tx(s.tx[0].run + 1, l, l, Running, NoRead, {Ref(0, Copy(1), 1)}, NoLook, None)];
  }

  /** Thread 0's tvlog is about to drop its first write set. */
  lemma StartDrop(s: State) returns (z: State)
    requires Reachable(s) && Two(s) && s.tj[0] == TReq(Ckpt) && s.log[0].head == 0 && s.log[0].prev == 1
    requires |s.log[0].ids| == 1 && s.log[0].ids[0] == 0 && |s.ws| == 2 && s.ws[0].wrt.At?
    ensures Reachable(z) && Two(z) && z == s.(tj := s.tj[0 := TDrop(Ckpt, 1)]) && CanTvDrop(z, 0)
  {
    hide Reachable;
    z := DoTvStart(s, 0);
    GoTv(s, TvStart(0), z);
  }

  lemma DropFirst(s: State) returns (z: State)
    requires Reachable(s) && Two(s) && s.tj[0] == TReq(Ckpt) && s.log[0].head == 0 && s.log[0].prev == 1
    requires |s.log[0].ids| == 1 && s.log[0].ids[0] == 0 && |s.ws| == 2 && s.ws[0].wrt.At?
    ensures Reachable(z) && Two(z)
    ensures z == s.(tj := s.tj[0 := TDrop(Ckpt, 1)], log := s.log[0 := s.log[0].(head := 1)])
  {
    hide Reachable;
    var s1 := StartDrop(s);
    z := DoTvDrop(s1, 0);
    GoTv(s1, TvDrop(0), z);
  }

  /** A run ends in front of a drop, made by checkpoint reclamation, that takes a copy
      a transaction holds. DropSafe forbids it: the copy is still linked, below one
      that is too young. All threads have just been told of a checkpoint newer than
      the copy; the transaction went past with the clock its thread had before. */
  lemma DroppedUnderReader() returns (s: State)
    ensures Reachable(s) && Inv(s) && |s.tx| == 2 && s.tx[0].ph == Running && CanTvDrop(s, 0)
    ensures exists r :: r in s.tx[0].refs && HoldsVersion(s, r) && !HoldsVersion(DoTvDrop(s, 0), r)
    ensures !DropSafe(s, 0) && |s.obj| == 1 && |s.obj[0].vers| == 3
    ensures forall t :: 0 <= t < |s.clk| ==> LtClk(s.obj[0].vers[1].raw, s.clk[t].last)
  {
    hide Inv, Reachable;
    var s1 := FirstVersion();
    var s2 := StraddlingCommit(s1);
    var s3 := Clock(s2, 7 * B + 3);
    var s4 := ReadPast(s3, 7 * B + 3);
    Finish(s4, 1, 1, 2, 8 * B + 3);
    var s5 := FinishedState(s4, 1, 1, 2, 8 * B + 3);
    var s6 := Wait(s5);
    var s7 := Trigger(s6, Ckpt, false);
    s := StartDrop(s7);
    ReachableInv(s);
    assert HoldsVersion(s, Ref(0, Copy(1), 1)) && !HoldsVersion(DoTvDrop(s, 0), Ref(0, Copy(1), 1));
  }

  // ---------------------------------------------------------------- a stale checkpoint recovered

  /** A round in which nothing is reclaimed. */
  lemma EmptyRound(s: State, c: nat) returns (z: State)
    requires Reachable(s) && Two(s) && s.qp.ph == QRest && c > s.hi + ORDO_BOUNDARY
    requires s.tx[0].run % 2 == 0 && s.tx[1].run % 2 == 0
    ensures Reachable(z) && Two(z) && z == s.(hi := c, qp := z.qp) && z.qp.ph == QReady
    ensures z.qp.qp0 == c - ORDO_BOUNDARY && z.qp.qp1 == s.qp.qp0 && z.qp.qp2 == s.qp.qp1
    ensures z.qp.last == s.qp.last && z.qp.dlast == s.qp.dlast
  {
    hide Reachable;
    var s1 := Clock(s, c);
    z := Wait(s1);
  }

  /** Thread 0 drops version 1, already detached, and finds nothing else. */
  lemma DropAndScan(s: State) returns (z: State)
    requires Reachable(s) && Two(s) && s.tj[0] == TReq(Ckpt) && s.log[0].head == 0 && s.log[0].prev == 1
    requires |s.log[0].ids| == 1 && s.log[0].ids[0] == 0 && |s.ws| == 2 && s.ws[0].wrt.At?
    requires s.ck[0].dur == |s.ck[0].ents|
    ensures Reachable(z) && Two(z) && z == s.(tj := s.tj[0 := TNone], log := s.log[0 := s.log[0].(head := 1)])
  {
    hide Reachable;
    var s1 := DropFirst(s);
    var s2 := DoTvScanBegin(s1, 0);
    GoTv(s1, TvScanBegin(0), s2);
    z := DoTvFinish(s2, 0);
    GoTv(s2, TvFinish(0), z);
    assert z.tj == s.tj[0 := TNone] && z.ck == s.ck;
    assert z.log == s.log[0 := s.log[0].(head := 1)];
  }

  /** Round two checkpoints version 2 in thread 1's log. */
  lemma RoundTwo(s: State) returns (z: State)
    requires Reachable(s) && Two(s) && s.hi == 8 * B + 3 && s.qp.ph == QRest && s.cj == [CNone, CNone]
    requires s.tj == [TNone, TNone] && s.tx[0].run % 2 == 0 && s.tx[1].run % 2 == 0
    requires s.log[0].head == 0 && s.log[0].prev == 1 && |s.log[0].ids| == 1 && s.log[0].ids[0] == 0
    requires |s.ws| == 2 && s.ws[0].wrt.At? && s.ck[0].dur == |s.ck[0].ents| == 1 && s.ck[1] == CkLog([], 0, 0, 0, 0)
    requires |s.log[1].ids| == 1 && s.log[1] == TvLog(s.log[1].ids, 0, 0) && s.log[1].ids[0] == 1
    requires s.ws[1].wrt == At(8 * B + 3) && |s.ws[1].items| == 1 && s.ws[1].items[0] == Item(0, 1, 2)
    requires |s.obj[0].vers| == 3 && s.obj[0].vers[2] == Ver(1, 0, At(8 * B + 3), None, At(0), Max, false)
    ensures Reachable(z) && Two(z)
    ensures z == s.(hi := 11 * B + 4, obj := z.obj, log := z.log, ck := z.ck, clk := z.clk, qp := z.qp)
    ensures z.obj[0] == DetachObj(s.obj[0], 2).(cur := Entry(1, 0)) && z.ck[0] == s.ck[0]
    ensures |z.ck[1].ents| == 1 && z.ck[1] == CkLog(z.ck[1].ents, 0, 0, 1, 0)
    ensures z.ck[1].ents[0] == Ent(0, 2, 10 * B + 4, s.obj[0].cur)
    ensures z.qp.ph == QRest && z.qp.qp0 == z.qp.last == z.qp.dlast == 10 * B + 4
  {
    hide Reachable;
    var s1 := EmptyRound(s, 11 * B + 4);
    var s2 := Trigger(s1, Ckpt, false);
    var s3 := DropAndScan(s2);
    var s4 := Checkpoint(s3, 1, 2);
    var s5 := Detach(s4, 1, 2);
    z := Publish(s5);
    assert z.tj == s.tj && z.cj == s.cj;
  }

  /** Thread 1 writes version 2 back and thread 0 passes its outdated entry. */
  lemma WriteBack(s: State) returns (z: State)
    requires Reachable(s) && Two(s) && s.cj == [CReq, CReq] && s.obj[0].cur == Entry(1, 0)
    requires forall t :: 0 <= t < 2 ==>
      && s.ck[t].head == s.ck[t].prev == 0 && |s.ck[t].ents| == 1 && s.ck[t].ents[0].o == 0
      && !Gt(s.ck[t].ents[0].s, s.clk[t].qp2)
    ensures Reachable(z) && Two(z) && z.cj == [CNone, CNone]
    ensures z == s.(cj := z.cj, ck := z.ck, obj := s.obj[0 := s.obj[0].(cur := Org, org := s.ck[1].ents[0].v)])
    ensures forall t :: 0 <= t < 2 ==> z.ck[t] == s.ck[t].(prev := 1, dhead := s.ck[t].head)
  {
    hide Reachable;
    var s1 := CopyBack(s, 1);
    var s2 := DoCkStore(s1, 1);
    Go(s1, CkStore(1), s2);
    var s3 := DoCkFinish(s2, 1);
    GoCk(s2, CkFinish(1), s3);
    var s4 := PassEntry(s3);
    z := DoCkFinish(s4, 0);
    GoCk(s4, CkFinish(0), z);
    assert z.obj == s.obj[0 := s.obj[0].(cur := Org, org := s.ck[1].ents[0].v)];
  }

  lemma PassEntry(s: State) returns (z: State)
    requires Reachable(s) && Two(s) && s.cj[0] == CReq && s.obj[0].cur == Org
    requires s.ck[0].head == s.ck[0].prev == 0 && |s.ck[0].ents| == 1 && s.ck[0].ents[0].o == 0
    requires !Gt(s.ck[0].ents[0].s, s.clk[0].qp2)
    ensures Reachable(z) && Two(z) && z == s.(cj := s.cj[0 := CWb(1)])
  {
    hide Reachable;
    var s1 := StartWb(s, 0);
    z := DoCkSkip(s1, 0);
    GoCk(s1, CkSkip(0), z);
    assert z.cj == s.cj[0 := CWb(1)];
  }

  /** Thread 1 drops the entry it has written back; thread 0 has not begun. */
  lemma DropEntry(s: State) returns (z: State)
    requires Reachable(s) && Two(s) && s.cj == [CReq, CReq] && s.ck[1].head == 0 && s.ck[1].prev == |s.ck[1].ents| == 1
    ensures Reachable(z) && Two(z) && z == s.(cj := [CReq, CNone], ck := s.ck[1 := s.ck[1].(head := 1, dhead := 1)])
  {
    hide Reachable;
    var s1 := DoCkStart(s, 1);
    GoCk(s, CkStart(1), s1);
    var s2 := DoCkDrop(s1, 1);
    GoCk(s1, CkDrop(1), s2);
    var s3 := DoCkWbBegin(s2, 1);
    GoCk(s2, CkWbBegin(1), s3);
    z := DoCkFinish(s3, 1);
    GoCk(s3, CkFinish(1), z);
    assert z.ck == s.ck[1 := s.ck[1].(head := 1, dhead := 1)];
    assert z.cj == [CReq, CNone];
  }

  lemma Barrier(s: State) returns (z: State)
    requires Reachable(s) && Two(s) && s.qp.ph == QTrig(2) && s.qp.mode == NoTv
    requires s.tj == [TNone, TNone] && s.cj == [CNone, CNone]
    ensures Reachable(z) && Two(z) && z == s.(qp := s.qp.(ph := QRest, fence := s.hi))
  {
    hide Reachable;
    z := DoQpBarrier(s);
    GoQp(s, QpBarrier, z);
  }

  /** A crash here: version 2 is in the original object only, its checkpoint has been
      dropped, and version 1 still lies in the other thread's log. */
  lemma StaleCheckpoint() returns (s: State)
    ensures Reachable(s) && Inv(s) && |s.obj| == 1 && |s.ws| == 2 && |s.ck| == 2
    ensures s.obj[0].cur == Org && s.obj[0].org == 2 && |s.obj[0].vers| == 3
    ensures s.ws[1].wrt.At? && LtClk(s.ws[1].wrt, s.qp.dlast) && s.ws[1].items == [Item(0, 1, 2)]
    ensures s.ck[1].dhead == s.ck[1].dur == 1
    ensures s.ck[0].dhead == 0 && s.ck[0].dur == |s.ck[0].ents| == 1
    ensures s.ck[0].ents[0].o == 0 && s.ck[0].ents[0].v == 1 && s.ck[0].ents[0].s <= s.qp.dlast
  {
    hide Inv, Reachable;
    var s1 := FirstVersion();
    var s2 := RoundOne(s1);
    var s3 := SecondVersion(s2);
    var s4 := RoundTwo(s3);
    var s5 := EmptyRound(s4, 12 * B + 5);
    var s6 := Skip(s5);
    var s7 := EmptyRound(s6, 13 * B + 6);
    var s8 := Trigger(s7, NoTv, true);
    var s9 := WriteBack(s8);
    var s10 := Barrier(s9);
    var s11 := EmptyRound(s10, 14 * B + 7);
    var s12 := Trigger(s11, NoTv, true);
    s := DropEntry(s12);
    ReachableInv(s);
  }

  /** The one entry recovery finds is thread 0's. */
  lemma OnlyEntry(s: State, choice: Option<Recovery.Pos>)
    requires |s.ck| == 2 && s.ck[1].dhead == s.ck[1].dur == 1 && |s.obj| == 1
    requires s.ck[0].dhead == 0 && s.ck[0].dur == |s.ck[0].ents| == 1
    requires s.ck[0].ents[0].o == 0 && s.ck[0].ents[0].s <= s.qp.dlast
    requires Recovers(s, 0, choice)
    ensures RecoveredVer(s, 0, choice) == s.ck[0].ents[0].v
  {
    hide View;
    assert DurableLogs(s)[0] == DurableLog(s, 0) && DurableLogs(s)[1] == DurableLog(s, 1) == [];
    assert Recovery.Candidate(DurableLogs(s), s.qp.dlast, 0, Recovery.Pos(0, 0));
  }

  /** Recovery then brings back version 1, although version 2 was published before
      the last finished checkpoint. */
  lemma StaleRecovery() returns (s: State)
    ensures Reachable(s) && Inv(s) && |s.obj| == 1 && |View(s)| == 1 && |View(s)[0]| >= 1
    ensures Newest(View(s)[0], s.qp.dlast) == 2
    ensures forall choice :: Recovers(s, 0, choice) ==> RecoveredVer(s, 0, choice) == 1
  {
    hide Inv, Reachable, Recovers;
    s := StaleCheckpoint();
    forall choice | Recovers(s, 0, choice) ensures RecoveredVer(s, 0, choice) == 1 {
      OnlyEntry(s, choice);
    }
    CheckpointsSurvive(s, 0);
  }
}
