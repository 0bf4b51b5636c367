/** What survives a crash: everything a transaction has seen is either in a durable
    oplog entry or in a finished, durable checkpoint. */
module Durability {
  import opened Options
  import opened Ordo
  import opened Protocol
  import opened History
  import opened Invariant
  import opened Growth
  import opened Basics
  import opened TxSteps
  import opened QpSteps
  import opened ReclaimSteps
  import opened Snapshots
  import opened Runs
  import opened OpQueues
  import Recovery

  // ---------------------------------------------------------------- nothing unpublished is seen

  /** Every version a transaction has dereferenced is published. */
  predicate Visible(s: State) {
    forall t, r :: 0 <= t < |s.tx| && r in s.tx[t].refs ==> Published(s, r.o, r.v)
  }

  /** A version that is not the newest, or that get_wrt_clk has shown, is published. */
  lemma UnlockedIsPublished(s: State, o: nat, i: nat)
    requires Basic(s) && o < |s.obj| && 1 <= i < |s.obj[o].vers|
    requires i + 1 < |s.obj[o].vers| || s.obj[o].vers[i].raw.At?
    ensures Published(s, o, i)
  {
    hide Walks, JobShapes, Detect;
    assert ObjOk(s.obj[o], o, s.ws) && VerOk(s.obj[o], o, s.ws, i) && WsOk(s.obj, s.ws, s.obj[o].vers[i].w);
  }

  lemma ReadIsPublished(s: State, t: nat)
    requires Basic(s) && CanDerefCopy(s, t)
    ensures var rd := s.tx[t].rd; var v := s.obj[rd.o].vers[rd.i];
            LtClk(GetWrtClk(v, s.ws[v.w], s.tx[t].lclk), s.tx[t].lclk) ==> Published(s, rd.o, rd.i)
  {
    DerefHere(s, t);
    var rd := s.tx[t].rd;
    if s.obj[rd.o].vers[rd.i].raw.At? {
      UnlockedIsPublished(s, rd.o, rd.i);
    }
  }

  lemma MasterIsPublished(s: State, o: nat)
    requires Basic(s) && o < |s.obj|
    ensures Published(s, o, CurVer(s.ck, s.obj[o]))
  {
    assert MasterShape(s, o);
    if s.obj[o].cur.Entry? { assert EntryShape(s, s.ck[s.obj[o].cur.k].ents[s.obj[o].cur.e]); }
  }

  /** Published versions stay published. */
  predicate PublishGrows(s: State, z: State) {
    && |z.obj| == |s.obj| && |z.ws| >= |s.ws|
    && (forall o :: 0 <= o < |s.obj| ==> |z.obj[o].vers| >= |s.obj[o].vers|)
    && (forall o, i :: 0 <= o < |s.obj| && 0 <= i < |s.obj[o].vers| ==> z.obj[o].vers[i].w == s.obj[o].vers[i].w)
    && (forall w :: 0 <= w < |s.ws| && s.ws[w].wrt.At? ==> z.ws[w].wrt.At?)
  }

  lemma PublishedStays(s: State, z: State, o: nat, i: nat)
    requires PublishGrows(s, z) && Published(s, o, i)
    ensures Published(z, o, i)
  {
  }

  lemma VisibleStep(s: State, z: State)
    requires Visible(s) && PublishGrows(s, z) && |z.tx| == |s.tx|
    requires forall t, r :: 0 <= t < |z.tx| && r in z.tx[t].refs ==> r in s.tx[t].refs || Published(s, r.o, r.v)
    ensures Visible(z)
  {
    forall t, r | 0 <= t < |z.tx| && r in z.tx[t].refs ensures Published(z, r.o, r.v) {
      PublishedStays(s, z, r.o, r.v);
    }
  }

  /** Only the last step of ts_deref adds a pointer. */
  lemma NewRefs(s: State, a: Action, z: State)
    requires OwnNext(s, a, z) && !a.DerefCopy? && !a.DerefMaster?
    ensures |z.tx| == |s.tx| && z.obj == s.obj && z.ws == s.ws
    ensures forall t :: 0 <= t < |s.tx| ==> z.tx[t].refs <= s.tx[t].refs
  {
  }

  lemma DerefVisible(s: State, a: Action, z: State)
    requires Basic(s) && Visible(s) && OwnNext(s, a, z) && (a.DerefCopy? || a.DerefMaster?)
    ensures Visible(z)
  {
    if a.DerefCopy? { ReadIsPublished(s, a.t); } else { MasterIsPublished(s, s.tx[a.t].rd.o); }
    hide Basic, Visible, Published;
    assert z.obj == s.obj && z.ws == s.ws;
    VisibleStep(s, z);
  }

  lemma OwnVisible(s: State, a: Action, z: State)
    requires Basic(s) && Visible(s) && OwnNext(s, a, z)
    ensures Visible(z)
  {
    hide Basic, Visible, OwnNext;
    if a.DerefCopy? || a.DerefMaster? {
      DerefVisible(s, a, z);
    } else {
      NewRefs(s, a, z);
      VisibleStep(s, z);
    }
  }

  predicate ChainAction(a: Action) {
    a.CommitInstall? || a.CommitUnlock? || a.AbortUnlock?
  }

  /** Write sets are never unpublished, and versions never taken back. */
  lemma WsPublishGrows(s: State, a: Action, z: State)
    requires WsNext(s, a, z) && !ChainAction(a) && !a.LockTake?
    requires a.CommitPublish? ==> HasWs(s, a.t) && CurWs(s, a.t).pending.At?
    ensures |z.tx| == |s.tx| && PublishGrows(s, z)
    ensures forall t :: 0 <= t < |s.tx| ==> z.tx[t].refs <= s.tx[t].refs
  {
    assert z.obj == s.obj;
  }

  lemma ChainPublishGrows(s: State, a: Action, z: State)
    requires WsNext(s, a, z) && ChainAction(a)
    ensures |z.tx| == |s.tx| && PublishGrows(s, z)
    ensures forall t :: 0 <= t < |s.tx| ==> z.tx[t].refs <= s.tx[t].refs
  {
  }

  /** What is duplicated under a lock is published: nobody is committing the object. */
  lemma SourcePublished(s: State, t: nat)
    requires Basic(s) && CanLockTake(s, t)
    ensures var o := s.tx[t].look.o;
            Published(s, o, if s.obj[o].pcopy.Some? then s.obj[o].pcopy.value else CurVer(s.ck, s.obj[o]))
  {
    var o := s.tx[t].look.o;
    LockTop(s, t);
    if s.obj[o].pcopy.Some? {
      var i := s.obj[o].pcopy.value;
      assert ObjOk(s.obj[o], o, s.ws) && VerOk(s.obj[o], o, s.ws, i) && WsOk(s.obj, s.ws, s.obj[o].vers[i].w);
    } else {
      MasterIsPublished(s, o);
    }
  }

  lemma LockPublishGrows(s: State, t: nat)
    requires CanLockTake(s, t)
    ensures var z, o := DoLockTake(s, t), s.tx[t].look.o;
            && |z.tx| == |s.tx| && PublishGrows(s, z)
            && forall u, r :: 0 <= u < |z.tx| && r in z.tx[u].refs ==>
                 r in s.tx[u].refs
                 || (r.o == o && r.v == if s.obj[o].pcopy.Some? then s.obj[o].pcopy.value else CurVer(s.ck, s.obj[o]))
  {
  }

  lemma WsVisible(s: State, a: Action, z: State)
    requires Basic(s) && Visible(s) && WsNext(s, a, z)
    ensures Visible(z)
  {
    hide Linear, Links, Shapes, Timing, Walks, Visible, WsNext;
    if a.LockTake? {
      LockVisible(s, a, z);
    } else {
      if a.CommitPublish? { PublishStamped(s, a, z); }
      if ChainAction(a) { ChainPublishGrows(s, a, z); } else { WsPublishGrows(s, a, z); }
      VisibleStep(s, z);
    }
  }

  lemma LockVisible(s: State, a: Action, z: State)
    requires Basic(s) && Visible(s) && WsNext(s, a, z) && a.LockTake?
    ensures Visible(z)
  {
    hide Linear, Links, Shapes, Timing, Walks, Visible;
    assert CanLockTake(s, a.t) && z == DoLockTake(s, a.t);
    hide WsNext, DoLockTake, CanLockTake;
    SourcePublished(s, a.t);
    LockPublishGrows(s, a.t);
    VisibleStep(s, z);
  }

  lemma PublishStamped(s: State, a: Action, z: State)
    requires Basic(s) && WsNext(s, a, z) && a.CommitPublish?
    ensures HasWs(s, a.t) && CurWs(s, a.t).pending.At?
  {
    LocalBasic(s, a.t);
  }

  lemma QpVisible(s: State, a: Action, z: State)
    requires Visible(s) && QpNext(s, a, z)
    ensures Visible(z)
  {
    hide Visible;
    assert z.obj == s.obj && z.ws == s.ws && z.tx == s.tx;
    VisibleStep(s, z);
  }

  lemma ReclaimVisible(s: State, a: Action, z: State)
    requires Visible(s) && (TvNextStep(s, a, z) || CkNextStep(s, a, z))
    ensures Visible(z)
  {
    hide Visible;
    assert z.ws == s.ws && z.tx == s.tx;
    VisibleStep(s, z);
  }

  lemma {:induction false} RunVisible(ss: seq<State>, acts: seq<Action>, n: nat)
    requires Run(ss, acts) && n < |ss|
    ensures Visible(ss[n])
  {
    hide Basic, Visible, OwnNext, WsNext, QpNext, TvNextStep, CkNextStep;
    if n == 0 {
      assert Visible(ss[0]) by { InitVisible(ss[0]); }
    } else {
      RunVisible(ss, acts, n - 1);
      RunBasic(ss, acts, n - 1);
      assert StepAt(ss, acts, n - 1);
      var s, a, z := ss[n - 1], acts[n - 1], ss[n];
      if OwnNext(s, a, z) { OwnVisible(s, a, z); }
      else if WsNext(s, a, z) { WsVisible(s, a, z); }
      else if QpNext(s, a, z) { QpVisible(s, a, z); }
      else { ReclaimVisible(s, a, z); }
    }
  }

  lemma InitVisible(s: State)
    requires Init(s)
    ensures Visible(s)
  {
  }

  // ---------------------------------------------------------------- what a crash leaves

  /** The object's master after a crash is durable, and holds the version the object
      had at the last finished checkpoint. */
  predicate CheckpointSurvives(s: State, o: nat)
    requires o < |s.obj|
  {
    var m := CrashMaster(s, o);
    && o < |View(s)| && |View(s)[o]| >= 1 && !m.Copy?
    && MasterVer(s.ck, s.obj[o], m) == Newest(View(s)[o], s.qp.dlast)
    && (m.Entry? ==>
          && m.k < |s.ck| && s.ck[m.k].head <= m.e < s.ck[m.k].dur <= |s.ck[m.k].ents|
          && s.ck[m.k].ents[m.e].o == o && s.ck[m.k].ents[m.e].s <= s.qp.dlast)
  }

  lemma CheckpointsSurvive(s: State, o: nat)
    requires Inv(s) && o < |s.obj|
    ensures CheckpointSurvives(s, o)
  {
    hide Linear, Chains, Masters, Covers, Scans, Readers, Rounding, Ops;
    assert CrashOk(s, View(s), o);
    NewestUnique(View(s)[o], MasterVer(s.ck, s.obj[o], CrashMaster(s, o)), Newest(View(s)[o], s.qp.dlast), s.qp.dlast);
  }

  /** An operation survives a crash: its entry lies in the persisted range of the oplog,
      or all its effect lies behind the durable checkpoint. */
  predicate OperationSurvives(s: State, w: nat)
    requires w < |s.ws|
  {
    Persisted(s, w)
    || (LtClk(s.ws[w].pending, s.qp.dlast)
        && forall k :: 0 <= k < |s.ws[w].items| ==>
             var it := s.ws[w].items[k];
             && it.o < |s.obj| && CheckpointSurvives(s, it.o)
             && Newest(View(s)[it.o], s.qp.dlast) >= it.v)
  }

  lemma WriterOf(s: State, w: nat)
    requires Basic(s) && Queues(s) && w < |s.ws|
    ensures s.ws[w].t < |s.oplog|
  {
    assert Placed(s.tx, s.log, s.ws[w], w);
  }

  /** Along every run: a published write set's operation is in the persisted range of the
      oplog, or its commit clock lies before the durable checkpoint clock. */
  lemma PublishedIsLogged(s: State, w: nat)
    requires Basic(s) && Queues(s) && w < |s.ws| && s.ws[w].wrt.At?
    ensures Persisted(s, w) || LtClk(s.ws[w].pending, s.qp.dlast)
  {
    assert OpOk(s.ws[w], s.qp.dlast);
    assert s.ws[w].t < |s.oplog| by { WriterOf(s, w); }
    hide Basic, Queues;
    if s.ws[w].op == Durable { DurableExact(s, w); }
  }

  /** A published write set survives a crash at any point of guarded runs. */
  lemma PublishedSurvives(s: State, w: nat)
    requires Inv(s) && Queues(s) && w < |s.ws| && s.ws[w].wrt.At?
    ensures OperationSurvives(s, w)
  {
    hide Chains, Masters, Covers, Scans, Readers, Rounding, Crash, Entries, Queues, Persisted;
    assert OpOk(s.ws[w], s.qp.dlast) && WsOk(s.obj, s.ws, w);
    assert s.ws[w].t < |s.oplog| by { InvBasic(s); WriterOf(s, w); }
    DurableExact(s, w);
    if s.ws[w].op == Reclaimed {
      forall k | 0 <= k < |s.ws[w].items|
        ensures var it := s.ws[w].items[k];
                it.o < |s.obj| && CheckpointSurvives(s, it.o) && Newest(View(s)[it.o], s.qp.dlast) >= it.v
      {
        InvBasic(s);
        ItemInSnapshot(s, w, k, s.qp.dlast);
        CheckpointsSurvive(s, s.ws[w].items[k].o);
      }
    }
  }

  /** Durability coverage: at every crash point, every write set up to a version any
      transaction has seen survives, and every object's last checkpoint does. */
  lemma SeenSurvives(ss: seq<State>, acts: seq<Action>, n: nat, t: nat, r: Ref, i: nat)
    requires Run(ss, acts) && StoresGuarded(ss, acts) && n < |ss| && t < |ss[n].tx|
    requires r in ss[n].tx[t].refs && 1 <= i <= r.v
    ensures r.o < |ss[n].obj| && i < |ss[n].obj[r.o].vers| && ss[n].obj[r.o].vers[i].w < |ss[n].ws|
    ensures OperationSurvives(ss[n], ss[n].obj[r.o].vers[i].w) && CheckpointSurvives(ss[n], r.o)
  {
    hide Inv, Queues;
    RunInv(ss, acts, n);
    InvBasic(ss[n]);
    RunVisible(ss, acts, n);
    RunQueues(ss, acts, n);
    assert Published(ss[n], r.o, r.v);
    if i < r.v {
      UnlockedIsPublished(ss[n], r.o, i);
    }
    PublishedSurvives(ss[n], ss[n].obj[r.o].vers[i].w);
    CheckpointsSurvive(ss[n], r.o);
  }

  // ---------------------------------------------------------------- what recovery makes of it

  function StampOf(s: State, o: nat, v: nat): nat {
    if o < |View(s)| && v < |View(s)[o]| && View(s)[o][v].At? then View(s)[o][v].c else 0
  }

  /** The part of a checkpoint log between its durable head and tail, as recovery reads
      it. While a call drops entries, it still begins where the call began. */
  function DurableLog(s: State, k: nat): seq<Recovery.Record>
    requires k < |s.ck|
  {
    var c := s.ck[k];
    if c.dhead <= c.dur <= |c.ents| then
      seq(c.dur - c.dhead, e requires 0 <= e < c.dur - c.dhead =>
        var en := c.ents[c.dhead + e]; Recovery.Record(en.o, StampOf(s, en.o, en.v), en.s))
    else []
  }

  function DurableLogs(s: State): seq<seq<Recovery.Record>> {
    seq(|s.ck|, k requires 0 <= k < |s.ck| => DurableLog(s, k))
  }

  function VersionAt(s: State, p: Recovery.Pos): nat {
    if p.k < |s.ck| && s.ck[p.k].dhead + p.e < |s.ck[p.k].ents| then s.ck[p.k].ents[s.ck[p.k].dhead + p.e].v else 0
  }

  /** The version an object is left with: that of the entry recovery chose, or the
      one in the original when there was none to choose. */
  function RecoveredVer(s: State, o: nat, choice: Option<Recovery.Pos>): nat
    requires o < |s.obj|
  {
    match choice
    case None => s.obj[o].org
    case Some(p) => VersionAt(s, p)
  }

  /** What CkptlogRecovery does for object o, on the logs a crash leaves. */
  ghost predicate Recovers(s: State, o: nat, choice: Option<Recovery.Pos>) {
    match choice
    case None => forall q :: !Recovery.Candidate(DurableLogs(s), s.qp.dlast, o, q)
    case Some(p) => Recovery.NewestEntry(DurableLogs(s), s.qp.dlast, o, p)
  }

  /** What recovery reads at position q of the logs. */
  lemma CandidateIs(s: State, o: nat, q: Recovery.Pos)
    requires Recovery.Candidate(DurableLogs(s), s.qp.dlast, o, q)
    ensures q.k < |s.ck| && s.ck[q.k].dhead + q.e < |s.ck[q.k].ents|
    ensures var en := s.ck[q.k].ents[s.ck[q.k].dhead + q.e];
            en.o == o && en.s <= s.qp.dlast && Recovery.Wrt(DurableLogs(s), q) == StampOf(s, o, en.v)
  {
    assert DurableLogs(s)[q.k] == DurableLog(s, q.k);
  }

  /** Between the calls of checkpoint reclamation, recovery finds no entry that has been
      dropped. */
  lemma DroppedStayDropped(s: State, o: nat, q: Recovery.Pos)
    requires Basic(s) && Recovery.Candidate(DurableLogs(s), s.qp.dlast, o, q)
    requires q.k < |s.cj| && s.cj[q.k].CNone?
    ensures q.k < |s.ck| && s.ck[q.k].head <= s.ck[q.k].dhead + q.e < |s.ck[q.k].ents|
  {
    hide Linear, Links, Shapes, Entries, Walks, Ops, Recovery.Candidate;
    CandidateIs(s, o, q);
    assert CJobShape(s, q.k);
  }

  lemma CandidateEntry(s: State, o: nat, q: Recovery.Pos)
    requires Basic(s) && Recovery.Candidate(DurableLogs(s), s.qp.dlast, o, q)
    ensures o < |View(s)| && |View(s)[o]| >= 1 && 1 <= VersionAt(s, q) <= Newest(View(s)[o], s.qp.dlast)
    ensures View(s)[o][VersionAt(s, q)].At?
    ensures Recovery.Wrt(DurableLogs(s), q) == StampOf(s, o, VersionAt(s, q))
  {
    hide Linear, Links, Shapes, Walks, Timing, Recovery.Candidate;
    CandidateIs(s, o, q);
    var en := s.ck[q.k].ents[s.ck[q.k].dhead + q.e];
    assert EntryOk(View(s), en, s.qp.qp0);
    assert VersionAt(s, q) == en.v;
    assert NewestBefore(View(s)[o], en.v, en.s);
  }

  /** A later version of an object has a larger commit clock. */
  lemma StampOrder(c: seq<Clk>, u: nat, v: nat)
    requires GapsOf(c) && 1 <= u < |c| && 1 <= v < |c| && c[u].At? && c[v].At?
    ensures c[u].c <= c[v].c <==> u <= v
  {
  }

  lemma {:induction false} UsableCovers(log: seq<Recovery.Record>, last: nat, e: nat)
    requires e < |log| && log[e].s <= last
    requires forall i, j :: 0 <= i < j < |log| ==> log[i].s <= log[j].s
    ensures e < Recovery.Usable(log, last)
  {
  }

  lemma MasterIsCandidate(s: State, o: nat)
    requires Inv(s) && o < |s.obj| && CrashMaster(s, o).Entry?
    ensures var m := CrashMaster(s, o);
            && m.k < |s.ck| && s.ck[m.k].dhead <= m.e
            && var q := Recovery.Pos(m.k, m.e - s.ck[m.k].dhead);
               Recovery.Candidate(DurableLogs(s), s.qp.dlast, o, q) && VersionAt(s, q) == Newest(View(s)[o], s.qp.dlast)
  {
    hide Linear, Chains, Masters, Covers, Scans, Readers, Rounding, Ops, Crash, EntryOk, StampOf;
    CheckpointsSurvive(s, o);
    var m := CrashMaster(s, o);
    hide CrashMaster, View;
    var e := m.e - s.ck[m.k].dhead;
    assert DurableLogs(s)[m.k] == DurableLog(s, m.k);
    UsableCovers(DurableLog(s, m.k), s.qp.dlast, e);
  }

  /** Recovery restores the version of the last finished checkpoint exactly when the
      current master is a checkpoint, or no checkpoint of the object is left in the
      logs, or the one the original was written back from is. Otherwise an older
      checkpoint, left in another thread's log, wins over the original, which
      recovery does not look at. */
  lemma RecoveryExact(s: State, o: nat, choice: Option<Recovery.Pos>)
    requires Inv(s) && o < |s.obj| && Recovers(s, o, choice)
    ensures |View(s)| == |s.obj| && |View(s)[o]| >= 1
    ensures RecoveredVer(s, o, choice) == Newest(View(s)[o], s.qp.dlast) <==>
      CrashMaster(s, o).Entry? || (forall q :: !Recovery.Candidate(DurableLogs(s), s.qp.dlast, o, q))
      || exists q :: Recovery.Candidate(DurableLogs(s), s.qp.dlast, o, q) && VersionAt(s, q) == s.obj[o].org
  {
    hide Hist, Txs, Chains, Masters, Covers, Scans, Readers, Rounding, Ops, Crash, Entries;
    CheckpointsSurvive(s, o);
    var c, want := View(s)[o], Newest(View(s)[o], s.qp.dlast);
    assert Basic(s) by { InvBasic(s); }
    hide Basic;
    if choice.Some? {
      CandidateEntry(s, o, choice.value);
      forall q | Recovery.Candidate(DurableLogs(s), s.qp.dlast, o, q)
        ensures VersionAt(s, q) <= VersionAt(s, choice.value) <= want
      {
        CandidateEntry(s, o, q);
        StampOrder(c, VersionAt(s, q), VersionAt(s, choice.value));
      }
    }
    if CrashMaster(s, o).Entry? {
      MasterIsCandidate(s, o);
    }
  }
}
