/** Runs of the protocol, and the invariants along every run. */
module Runs {
  import opened Options
  import opened Ordo
  import opened Protocol
  import opened History
  import opened Invariant
  import opened Basics
  import opened BasicSteps
  import opened TxSteps
  import opened QpSteps
  import opened ReclaimSteps
  import opened MemorySteps

  /** Action acts[i] leads from ss[i] to ss[i + 1]. */
  predicate StepAt(ss: seq<State>, acts: seq<Action>, i: nat) {
    i < |acts| && i + 1 < |ss| && Next(ss[i], acts[i], ss[i + 1])
  }

  /** A run: it begins in an initial state, and each action leads to the next state. */
  predicate Run(ss: seq<State>, acts: seq<Action>) {
    && |ss| == |acts| + 1 && Init(ss[0])
    && forall i :: 0 <= i < |acts| ==> StepAt(ss, acts, i)
  }

  /** The writeback's last store finds the master it has copied. */
  predicate StoreGuard(s: State, a: Action) {
    a.CkStore? && CanCkStore(s, a.t) ==> StoreSafe(s, a.t)
  }

  /** A copy dropped while still linked has a successor older than the grace period. */
  predicate DropGuard(s: State, a: Action) {
    a.TvDrop? && CanTvDrop(s, a.t) && s.tj[a.t].m != BestEffort ==> DropSafe(s, a.t)
  }

  predicate StoreGuardAt(ss: seq<State>, acts: seq<Action>, i: nat) {
    i < |acts| && i < |ss| ==> StoreGuard(ss[i], acts[i])
  }

  predicate DropGuardAt(ss: seq<State>, acts: seq<Action>, i: nat) {
    i < |acts| && i < |ss| ==> DropGuard(ss[i], acts[i])
  }

  predicate StoresGuarded(ss: seq<State>, acts: seq<Action>) {
    forall i :: 0 <= i < |acts| ==> StoreGuardAt(ss, acts, i)
  }

  predicate DropsGuarded(ss: seq<State>, acts: seq<Action>) {
    forall i :: 0 <= i < |acts| ==> DropGuardAt(ss, acts, i)
  }

  // ---------------------------------------------------------------- the first state

  lemma InitInv(s: State)
    requires Init(s)
    ensures Inv(s) && Basic(s) && Marks(s) && Safe(s)
  {
    assert forall o :: 0 <= o < |s.obj| ==> View(s)[o] == [At(0)] && Curs(s)[o] == 0;
    assert Linear(s) && Bases(s.obj, s.ws);
    assert Checkpoints(s);
    assert Rounding(s);
    InvBasic(s);
  }

  // ---------------------------------------------------------------- one step

  lemma OwnInv(s: State, a: Action, z: State)
    requires Inv(s) && OwnNext(s, a, z)
    ensures Inv(z)
  {
    hide Inv;
    hide DoBeginCount, DoBeginClock, DoDerefBegin, DoDerefCopy, DoDerefMaster, DoLockLook,
         DoCommitBegin, DoTxEnd, DoAbort;
    hide CanBeginCount, CanBeginClock, CanDerefBegin, CanDerefCopy, CanDerefMaster, CanLockLook,
         CanCommitBegin, CanTxEnd, CanAbort;
    match a {
      case BeginCount(t) => BeginCountInv(s, t);
      case BeginClock(t, c) => BeginClockInv(s, t, c);
      case DerefBegin(t, o) => DerefBeginInv(s, t, o);
      case DerefCopy(t) => DerefCopyInv(s, t);
      case DerefMaster(t) => DerefMasterInv(s, t);
      case LockLook(t, o) => LockLookInv(s, t, o);
      case CommitBegin(t) => CommitBeginInv(s, t);
      case TxEnd(t) => TxEndInv(s, t);
      case Abort(t) => AbortInv(s, t);
    }
  }

  lemma WsInv(s: State, a: Action, z: State)
    requires Inv(s) && WsNext(s, a, z)
    ensures Inv(z)
  {
    hide Inv;
    hide DoLockTake, DoCommitInstall, DoCommitStamp, DoCommitLog, DoCommitPersist, DoCommitPublish,
         DoCommitUnlock, DoAbortUnlock, DoAbortDone, DoOpReclaim, DoOpDeqPersist;
    hide CanLockTake, CanCommitInstall, CanCommitStamp, CanCommitLog, CanCommitPersist,
         CanCommitPublish, CanCommitUnlock, CanAbortUnlock, CanAbortDone, CanOpReclaim,
         CanOpDeqPersist;
    match a {
      case LockTake(t) => LockTakeInv(s, t);
      case CommitInstall(t) => CommitInstallInv(s, t);
      case CommitStamp(t, c) => CommitStampInv(s, t, c);
      case CommitLog(t) => CommitLogInv(s, t);
      case CommitPersist(t) => CommitPersistInv(s, t);
      case CommitPublish(t) => CommitPublishInv(s, t);
      case CommitUnlock(t) => CommitUnlockInv(s, t);
      case AbortUnlock(t) => AbortUnlockInv(s, t);
      case AbortDone(t) => AbortDoneInv(s, t);
      case OpReclaim(t) => OpReclaimInv(s, t);
      case OpDeqPersist(t) => OpDeqPersistInv(s, t);
    }
  }

  lemma QpInv(s: State, a: Action, z: State)
    requires Inv(s) && QpNext(s, a, z)
    ensures Inv(z)
  {
    hide Inv;
    hide DoQpClock, DoQpCapture, DoQpCheck, DoQpAdvance, DoQpSkip, DoQpTrigger, DoQpPropagate,
         DoQpBarrier, DoQpPublish;
    hide CanQpClock, CanQpCapture, CanQpCheck, CanQpAdvance, CanQpSkip, CanQpTrigger, CanQpPropagate,
         CanQpBarrier, CanQpPublish;
    match a {
      case QpClock(c) => QpClockInv(s, c);
      case QpCapture => QpCaptureInv(s);
      case QpCheck(t) => QpCheckInv(s, t);
      case QpAdvance => QpAdvanceInv(s);
      case QpSkip => QpSkipInv(s);
      case QpTrigger(m, cq) => QpTriggerInv(s, m, cq);
      case QpPropagate => QpPropagateInv(s);
      case QpBarrier => QpBarrierInv(s);
      case QpPublish => QpPublishInv(s);
    }
  }

  lemma TvInv(s: State, a: Action, z: State)
    requires Inv(s) && TvNextStep(s, a, z)
    ensures Inv(z)
  {
    hide Inv;
    hide DoTvStart, DoTvDrop, DoTvScanBegin, DoTvSkip, DoTvCkpt, DoTvDetach, DoTvNext, DoTvFinish;
    hide CanTvStart, CanTvDrop, CanTvScanBegin, CanTvSkip, CanTvCkpt, CanTvDetach, CanTvNext,
         CanTvFinish;
    match a {
      case TvStart(t) => TvStartInv(s, t);
      case TvDrop(t) => TvDropInv(s, t);
      case TvScanBegin(t) => TvScanBeginInv(s, t);
      case TvSkip(t) => TvSkipInv(s, t);
      case TvCkpt(t) => TvCkptInv(s, t);
      case TvDetach(t) => TvDetachInv(s, t);
      case TvNext(t) => TvNextInv(s, t);
      case TvFinish(t) => TvFinishInv(s, t);
    }
  }

  lemma CkInv(s: State, a: Action, z: State)
    requires Inv(s) && CkNextStep(s, a, z) && StoreGuard(s, a)
    ensures Inv(z)
  {
    hide Inv;
    hide DoCkStart, DoCkDrop, DoCkWbBegin, DoCkCopy, DoCkStore, DoCkSkip, DoCkFinish;
    hide CanCkStart, CanCkDrop, CanCkWbBegin, CanCkCopy, CanCkSkip, CanCkFinish;
    match a {
      case CkStart(t) => CkStartInv(s, t);
      case CkDrop(t) => CkDropInv(s, t);
      case CkWbBegin(t) => CkWbBeginInv(s, t);
      case CkCopy(t) => CkCopyInv(s, t);
      case CkStore(t) => CkStoreInv(s, t);
      case CkSkip(t) => CkSkipInv(s, t);
      case CkFinish(t) => CkFinishInv(s, t);
    }
  }

  lemma StepInv(s: State, a: Action, z: State)
    requires Inv(s) && Next(s, a, z) && StoreGuard(s, a)
    ensures Inv(z)
  {
    hide Inv, OwnNext, WsNext, QpNext, TvNextStep, CkNextStep;
    if OwnNext(s, a, z) { OwnInv(s, a, z); }
    else if WsNext(s, a, z) { WsInv(s, a, z); }
    else if QpNext(s, a, z) { QpInv(s, a, z); }
    else if TvNextStep(s, a, z) { TvInv(s, a, z); }
    else { CkInv(s, a, z); }
  }

  // ---------------------------------------------------------------- one step, whatever the guards

  lemma OwnStepBasic(s: State, a: Action, z: State)
    requires Basic(s) && OwnNext(s, a, z)
    ensures Basic(z) && (Marks(s) ==> Marks(z))
  {
    hide Basic, Marks;
    hide DoBeginCount, DoBeginClock, DoDerefBegin, DoDerefCopy, DoDerefMaster, DoLockLook,
         DoCommitBegin, DoTxEnd, DoAbort;
    hide CanBeginCount, CanBeginClock, CanDerefBegin, CanDerefCopy, CanDerefMaster, CanLockLook,
         CanCommitBegin, CanTxEnd, CanAbort;
    match a {
      case BeginCount(t) => BeginCountBasic(s, t);
      case BeginClock(t, c) => BeginClockBasic(s, t, c);
      case DerefBegin(t, o) => DerefBeginBasic(s, t, o);
      case DerefCopy(t) => DerefCopyBasic(s, t);
      case DerefMaster(t) => DerefMasterBasic(s, t);
      case LockLook(t, o) => LockLookBasic(s, t, o);
      case CommitBegin(t) => CommitBeginBasic(s, t);
      case TxEnd(t) => TxEndBasic(s, t);
      case Abort(t) => AbortBasic(s, t);
    }
  }

  lemma WsStepBasic(s: State, a: Action, z: State)
    requires Basic(s) && WsNext(s, a, z)
    ensures Basic(z) && (Marks(s) ==> Marks(z))
  {
    hide Basic, Marks;
    hide DoLockTake, DoCommitInstall, DoCommitStamp, DoCommitLog, DoCommitPersist, DoCommitPublish,
         DoCommitUnlock, DoAbortUnlock, DoAbortDone, DoOpReclaim, DoOpDeqPersist;
    hide CanLockTake, CanCommitInstall, CanCommitStamp, CanCommitLog, CanCommitPersist,
         CanCommitPublish, CanCommitUnlock, CanAbortUnlock, CanAbortDone, CanOpReclaim,
         CanOpDeqPersist;
    match a {
      case LockTake(t) => LockTakeBasic(s, t);
      case CommitInstall(t) => CommitInstallBasic(s, t);
      case CommitStamp(t, c) => CommitStampBasic(s, t, c);
      case CommitLog(t) => CommitLogBasic(s, t);
      case CommitPersist(t) => CommitPersistBasic(s, t);
      case CommitPublish(t) => CommitPublishBasic(s, t);
      case CommitUnlock(t) => CommitUnlockBasic(s, t);
      case AbortUnlock(t) => AbortUnlockBasic(s, t);
      case AbortDone(t) => AbortDoneBasic(s, t);
      case OpReclaim(t) => OpReclaimBasic(s, t);
      case OpDeqPersist(t) => OpDeqPersistBasic(s, t);
    }
  }

  lemma QpStepBasic(s: State, a: Action, z: State)
    requires Basic(s) && QpNext(s, a, z)
    ensures Basic(z) && (Marks(s) ==> Marks(z))
  {
    hide Basic, Marks;
    match a {
      case QpClock(c) => QpClockBasic(s, c);
      case QpCapture => QpCaptureBasic(s);
      case QpCheck(t) => QpCheckBasic(s, t);
      case QpAdvance => QpAdvanceBasic(s);
      case QpSkip => QpIdleBasic(s, a, z);
      case QpTrigger(_, _) => QpIdleBasic(s, a, z);
      case QpPropagate => QpPropagateBasic(s);
      case QpBarrier => QpBarrierBasic(s);
      case QpPublish => QpIdleBasic(s, a, z);
    }
  }

  lemma TvStepBasic(s: State, a: Action, z: State)
    requires Basic(s) && TvNextStep(s, a, z)
    ensures Basic(z) && (Marks(s) ==> Marks(z))
  {
    hide Basic, Marks;
    match a {
      case TvDrop(t) => TvDropBasic(s, t);
      case TvCkpt(t) => TvCkptBasic(s, t);
      case TvDetach(t) => TvDetachBasic(s, t);
      case TvFinish(t) => TvFinishBasic(s, t);
      case TvStart(t) => TvJobBasic(s, a, z);
      case TvScanBegin(t) => TvJobBasic(s, a, z);
      case TvSkip(t) => TvJobBasic(s, a, z);
      case TvNext(t) => TvJobBasic(s, a, z);
    }
  }

  lemma CkStepBasic(s: State, a: Action, z: State)
    requires Basic(s) && CkNextStep(s, a, z)
    ensures Basic(z) && (Marks(s) ==> Marks(z))
  {
    hide Basic, Marks;
    match a {
      case CkDrop(t) => CkDropBasic(s, t);
      case CkFinish(t) => CkFinishBasic(s, t);
      case CkCopy(t) => CkObjBasic(s, a, z);
      case CkStore(t) => CkObjBasic(s, a, z);
      case CkStart(t) => CkJobBasic(s, a, z);
      case CkWbBegin(t) => CkJobBasic(s, a, z);
      case CkSkip(t) => CkJobBasic(s, a, z);
    }
  }

  lemma StepBasic(s: State, a: Action, z: State)
    requires Basic(s) && Next(s, a, z)
    ensures Basic(z) && (Marks(s) ==> Marks(z))
  {
    hide Basic, Marks, OwnNext, WsNext, QpNext, TvNextStep, CkNextStep;
    if OwnNext(s, a, z) { OwnStepBasic(s, a, z); }
    else if WsNext(s, a, z) { WsStepBasic(s, a, z); }
    else if QpNext(s, a, z) { QpStepBasic(s, a, z); }
    else if TvNextStep(s, a, z) { TvStepBasic(s, a, z); }
    else { CkStepBasic(s, a, z); }
  }

  lemma OwnStepSafe(s: State, a: Action, z: State)
    requires Basic(s) && Safe(s) && OwnNext(s, a, z)
    ensures Safe(z)
  {
    hide Basic, Safe;
    hide DoBeginCount, DoBeginClock, DoDerefBegin, DoDerefCopy, DoDerefMaster;
    hide CanBeginCount, CanBeginClock, CanDerefBegin, CanDerefCopy, CanDerefMaster;
    match a {
      case BeginCount(t) => BeginCountSafe(s, t);
      case BeginClock(t, c) => BeginClockSafe(s, t, c);
      case DerefBegin(t, o) => DerefBeginSafe(s, t, o);
      case DerefCopy(t) => DerefCopySafe(s, t);
      case DerefMaster(t) => DerefMasterSafe(s, t);
      case LockLook(t, o) => OwnEndSafe(s, a, z);
      case CommitBegin(t) => OwnEndSafe(s, a, z);
      case TxEnd(t) => OwnEndSafe(s, a, z);
      case Abort(t) => OwnEndSafe(s, a, z);
    }
  }

  /** Steps that take nothing more hold of. */
  lemma OwnEndSafe(s: State, a: Action, z: State)
    requires Basic(s) && Safe(s) && OwnNext(s, a, z) && (a.LockLook? || a.CommitBegin? || a.TxEnd? || a.Abort?)
    ensures Safe(z)
  {
    hide Basic, Safe;
    var t := a.t;
    assert t < |s.tx| == |z.tx| && z == s.(tx := s.tx[t := z.tx[t]]);
    Holds(s, a, z);
    hide OwnNext;
    OwnSafe(s, t, z.tx[t], s.hi);
  }

  lemma Holds(s: State, a: Action, z: State)
    requires OwnNext(s, a, z) && (a.LockLook? || a.CommitBegin? || a.TxEnd? || a.Abort?)
    ensures a.t < |s.tx| == |z.tx|
    ensures var x, y := z.tx[a.t], s.tx[a.t];
            (x.refs == {} && x.rd == NoRead) || (x.refs == y.refs && x.rd == y.rd && x.lclk == y.lclk)
  {
  }

  lemma WsStepSafe(s: State, a: Action, z: State)
    requires Basic(s) && Safe(s) && WsNext(s, a, z)
    ensures Safe(z)
  {
    hide Basic, Safe;
    hide DoLockTake, DoCommitInstall, DoCommitStamp, DoCommitLog, DoCommitPersist, DoCommitPublish,
         DoCommitUnlock, DoAbortUnlock, DoAbortDone, DoOpReclaim, DoOpDeqPersist;
    hide CanLockTake, CanCommitInstall, CanCommitStamp, CanCommitLog, CanCommitPersist,
         CanCommitPublish, CanCommitUnlock, CanAbortUnlock, CanAbortDone, CanOpReclaim,
         CanOpDeqPersist;
    match a {
      case LockTake(t) => LockTakeSafe(s, t);
      case CommitInstall(t) => CommitInstallSafe(s, t);
      case CommitStamp(t, c) => CommitStampSafe(s, t, c);
      case CommitLog(t) => CommitLogSafe(s, t);
      case CommitPersist(t) => CommitPersistSafe(s, t);
      case CommitPublish(t) => CommitPublishSafe(s, t);
      case CommitUnlock(t) => CommitUnlockSafe(s, t);
      case AbortUnlock(t) => AbortUnlockSafe(s, t);
      case AbortDone(t) => AbortDoneSafe(s, t);
      case OpReclaim(t) => OpReclaimSafe(s, t);
      case OpDeqPersist(t) => OpDeqPersistSafe(s, t);
    }
  }

  lemma QpStepSafe(s: State, a: Action, z: State)
    requires Basic(s) && Safe(s) && QpNext(s, a, z)
    ensures Safe(z)
  {
    hide Basic, Safe;
    match a {
      case QpClock(c) => QpClockSafe(s, c);
      case QpPropagate => QpPropagateSafe(s);
      case QpCapture => QpIdleSafe(s, z);
      case QpCheck(t) => QpIdleSafe(s, z);
      case QpAdvance => QpAdvanceSafe(s);
      case QpSkip => RestSafe(s, z);
      case QpTrigger(_, _) => QpIdleSafe(s, z);
      case QpBarrier => if s.qp.mode == Ckpt { QpIdleSafe(s, z); } else { RestSafe(s, z); }
      case QpPublish => RestSafe(s, z);
    }
  }

  lemma TvStepSafe(s: State, a: Action, z: State)
    requires Basic(s) && Safe(s) && TvNextStep(s, a, z) && DropGuard(s, a)
    ensures Safe(z)
  {
    hide Basic, Safe;
    match a {
      case TvDrop(t) =>
        if s.tj[t].m == BestEffort { BestEffortIsSafe(s, t); }
        TvDropSafe(s, t);
      case TvCkpt(t) => TvCkptSafe(s, t);
      case TvDetach(t) => TvDetachSafe(s, t);
      case TvFinish(t) => TvFinishSafe(s, t);
      case TvStart(t) => TvJobSafe(s, t, z.tj[t]);
      case TvScanBegin(t) => TvJobSafe(s, t, z.tj[t]);
      case TvSkip(t) => TvJobSafe(s, t, z.tj[t]);
      case TvNext(t) => TvJobSafe(s, t, z.tj[t]);
    }
  }

  lemma CkStepSafe(s: State, a: Action, z: State)
    requires Basic(s) && Safe(s) && CkNextStep(s, a, z)
    ensures Safe(z)
  {
    hide Basic, Safe;
    match a {
      case CkDrop(t) => CkDropSafe(s, t);
      case CkCopy(t) => CkCopySafe(s, t);
      case CkStore(t) => CkStoreSafe(s, t);
      case CkFinish(t) => CkFinishSafe(s, t);
      case CkStart(t) => CkJobSafe(s, t, z.cj[t]);
      case CkWbBegin(t) => CkJobSafe(s, t, z.cj[t]);
      case CkSkip(t) => CkJobSafe(s, t, z.cj[t]);
    }
  }

  lemma StepSafe(s: State, a: Action, z: State)
    requires Basic(s) && Safe(s) && Next(s, a, z) && DropGuard(s, a)
    ensures Safe(z)
  {
    hide Basic, Safe, OwnNext, WsNext, QpNext, TvNextStep, CkNextStep;
    if OwnNext(s, a, z) { OwnStepSafe(s, a, z); }
    else if WsNext(s, a, z) { WsStepSafe(s, a, z); }
    else if QpNext(s, a, z) { QpStepSafe(s, a, z); }
    else if TvNextStep(s, a, z) { TvStepSafe(s, a, z); }
    else { CkStepSafe(s, a, z); }
  }

  // ---------------------------------------------------------------- whole runs

  /** The invariant holds all along every run whose writebacks are not overtaken. */
  lemma {:induction false} RunInv(ss: seq<State>, acts: seq<Action>, n: nat)
    requires Run(ss, acts) && StoresGuarded(ss, acts) && n < |ss|
    ensures Inv(ss[n])
  {
    hide Inv, Safe, Next;
    if n == 0 {
      InitInv(ss[0]);
    } else {
      RunInv(ss, acts, n - 1);
      assert StepAt(ss, acts, n - 1) && StoreGuardAt(ss, acts, n - 1);
      StepInv(ss[n - 1], acts[n - 1], ss[n]);
    }
  }

  /** Linear histories, chains, logs, grace periods and walks: these hold all along every
      run, also when writebacks are overtaken and copies dropped too early. */
  lemma {:induction false} RunBasic(ss: seq<State>, acts: seq<Action>, n: nat)
    requires Run(ss, acts) && n < |ss|
    ensures Basic(ss[n]) && Marks(ss[n])
  {
    hide Inv, Basic, Marks, Safe, Next;
    if n == 0 {
      InitInv(ss[0]);
    } else {
      RunBasic(ss, acts, n - 1);
      assert StepAt(ss, acts, n - 1);
      StepBasic(ss[n - 1], acts[n - 1], ss[n]);
    }
  }

  /** Memory safety all along every run whose drops are guarded, even if writebacks
      are overtaken. */
  lemma {:induction false} RunSafe(ss: seq<State>, acts: seq<Action>, n: nat)
    requires Run(ss, acts) && DropsGuarded(ss, acts) && n < |ss|
    ensures Safe(ss[n])
  {
    hide Inv, Basic, Safe, Next;
    if n == 0 {
      InitInv(ss[0]);
    } else {
      RunBasic(ss, acts, n - 1);
      RunSafe(ss, acts, n - 1);
      assert StepAt(ss, acts, n - 1) && DropGuardAt(ss, acts, n - 1);
      StepSafe(ss[n - 1], acts[n - 1], ss[n]);
    }
  }
}
