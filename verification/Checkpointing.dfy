/** Which copies a checkpoint takes, and when writing them back is sound. */
module Checkpointing {
  import opened Options
  import opened Ordo
  import opened Protocol
  import opened History
  import opened Invariant
  import opened Basics
  import opened BasicSteps
  import opened TxSteps
  import opened ReclaimSteps
  import opened MemorySteps
  import opened Runs
  import opened Snapshots

  // ---------------------------------------------------------------- selection

  /** get_ckpt_chs: the copy found by walking the chain from version i down. */
  function CkptWalk(ob: Obj, i: nat, qp0: nat, last: nat): Option<nat>
    decreases i
  {
    if i == 0 || i >= |ob.vers| then None
    else if ob.vers[i].raw.At? && LtClk(ob.vers[i].raw, qp0) then Some(i)
    else if ob.vers[i].raw.At? && LtClk(ob.vers[i].nextClk, last) then None
    else if ob.vers[i].next.None? || ob.vers[i].next.value >= i then None
    else CkptWalk(ob, ob.vers[i].next.value, qp0, last)
  }

  function CkptChoice(ob: Obj, qp0: nat, last: nat): Option<nat> {
    match ob.pcopy
    case None => None
    case Some(i) => CkptWalk(ob, i, qp0, last)
  }

  /** Walking down from version j finds i, the newest version before qp0. */
  lemma {:induction false} WalkFinds(ob: Obj, c: seq<Clk>, cv: nat, j: nat, i: nat, qp0: nat, last: nat)
    requires ChainOk(ob, c, cv) && GapsOf(c) && 1 <= i <= j < |c| && cv < i
    requires ob.vers[i].raw == c[i] && NewestBefore(c, i, qp0) && !LtClk(c[i], last)
    ensures CkptWalk(ob, j, qp0, last) == Some(i)
    decreases j
  {
    assert ChainVer(ob, c, cv, j);
    if j > i {
      assert ChainVer(ob, c, cv, j - 1);
      WalkFinds(ob, c, cv, j - 1, i, qp0, last);
    }
  }

  /** Whatever the walk finds is older than qp0, and the version above is not. */
  lemma {:induction false} WalkFound(ob: Obj, c: seq<Clk>, j: nat, qp0: nat, last: nat)
    requires LinkOk(ob, c) && 1 <= j < |c|
    requires j + 1 < |c| && ob.vers[j + 1].raw.At? ==> !LtClk(c[j + 1], qp0)
    ensures var f := CkptWalk(ob, j, qp0, last);
            f.Some? ==> 1 <= f.value <= j && LtClk(ob.vers[f.value].raw, qp0)
                        && (f.value + 1 < |c| && ob.vers[f.value + 1].raw.At? ==> !LtClk(c[f.value + 1], qp0))
    decreases j
  {
    assert LinkVer(ob, c, j);
    var v := ob.vers[j];
    if !LtClk(v.raw, qp0) && !(v.raw.At? && LtClk(v.nextClk, last)) && v.next.Some? {
      WalkFound(ob, c, j - 1, qp0, last);
      assert CkptWalk(ob, j, qp0, last) == CkptWalk(ob, j - 1, qp0, last);
    }
  }

  /** What a scan asks of a copy: is_at_borderline, if it is not detached yet. */
  predicate AtBorderline(ob: Obj, i: nat, qp0: nat, last: nat) {
    1 <= i < |ob.vers| && ob.vers[i].raw.At? && !ob.vers[i].detached && Borderline(ob.vers[i], qp0, last)
  }

  /** Which copy of an object a checkpoint takes, in every state, scan or no scan: the
      newest version before the checkpoint clock. If the master is older, that copy is
      at the borderline and get_ckpt_chs finds it, and no other copy ever passes either
      test. The copy the master already holds may pass until it is detached. */
  lemma CheckpointSelection(s: State, o: nat, i: nat)
    requires Inv(s) && o < |s.obj| && 1 <= i < |s.obj[o].vers|
    ensures o < |View(s)| && o < |Curs(s)| && |View(s)[o]| == |s.obj[o].vers|
    ensures var ob, n, cv := s.obj[o], Newest(View(s)[o], s.qp.qp0), Curs(s)[o];
            var hit, found := AtBorderline(ob, i, s.qp.qp0, s.qp.last), CkptChoice(ob, s.qp.qp0, s.qp.last) == Some(i);
            && cv <= n
            && (hit || found ==> i == n)
            && (i != cv ==> (hit <==> i == n) && (found <==> i == n))
  {
    hide Hist, Txs, Entries, Masters, Scans, Crash, Readers, Detect, Ops, Jobs, AtBorderline, CkptChoice;
    var ob, c := s.obj[o], View(s)[o];
    var n := Newest(c, s.qp.qp0);
    assert ChainOk(ob, c, Curs(s)[o]) && GapsOf(c);
    MasterSeen(s, o);
    if AtBorderline(ob, i, s.qp.qp0, s.qp.last) || CkptChoice(ob, s.qp.qp0, s.qp.last) == Some(i) {
      assert Basic(s) by { InvBasic(s); }
      hide Basic;
      SelectsNewest(s, o, i);
    }
    if i == n && i != Curs(s)[o] { UnsavedIsFound(s, o, i); }
  }

  /** Both tests single out the newest version before the checkpoint clock, even after
      writebacks have been overtaken. */
  lemma SelectsNewest(s: State, o: nat, i: nat)
    requires Basic(s) && o < |s.obj|
    requires AtBorderline(s.obj[o], i, s.qp.qp0, s.qp.last) || CkptChoice(s.obj[o], s.qp.qp0, s.qp.last) == Some(i)
    ensures o < |View(s)| && |View(s)[o]| >= 1 && i == Newest(View(s)[o], s.qp.qp0)
  {
    assert LinkOk(s.obj[o], View(s)[o]);
    hide Basic, CkptChoice, Newest;
    if AtBorderline(s.obj[o], i, s.qp.qp0, s.qp.last) {
      BorderlineBefore(s, o, i, s.qp.last);
    } else {
      ChosenIsNewest(s, o, i);
    }
    NewestUnique(View(s)[o], i, Newest(View(s)[o], s.qp.qp0), s.qp.qp0);
  }

  /** At most one copy of an object is at the borderline, whoever looks and whenever. */
  lemma OneBorderline(s: State, o: nat, i: nat, j: nat)
    requires Basic(s) && o < |s.obj|
    requires AtBorderline(s.obj[o], i, s.qp.qp0, s.qp.last) && AtBorderline(s.obj[o], j, s.qp.qp0, s.qp.last)
    ensures i == j
  {
    SelectsNewest(s, o, i);
    SelectsNewest(s, o, j);
  }

  lemma ChosenIsNewest(s: State, o: nat, i: nat)
    requires Basic(s) && o < |s.obj| && CkptChoice(s.obj[o], s.qp.qp0, s.qp.last) == Some(i)
    ensures o < |View(s)| && NewestBefore(View(s)[o], i, s.qp.qp0)
  {
    hide Txs, Clocks, BelowSeen, Shapes, Entries, Walks, JobShapes, Detect;
    var ob, c := s.obj[o], View(s)[o];
    assert LinkOk(ob, c) && GapsOf(c);
    WalkFound(ob, c, ob.pcopy.value, s.qp.qp0, s.qp.last);
    assert LinkVer(ob, c, i);
    if i + 1 < |c| && LtClk(c[i + 1], s.qp.qp0) { Settled(s, o, i + 1); }
  }

  lemma UnsavedIsFound(s: State, o: nat, n: nat)
    requires Inv(s) && o < |s.obj| && n < |s.obj[o].vers|
    requires o < |View(s)| && NewestBefore(View(s)[o], n, s.qp.qp0) && o < |Curs(s)| && Curs(s)[o] < n
    ensures AtBorderline(s.obj[o], n, s.qp.qp0, s.qp.last)
    ensures CkptChoice(s.obj[o], s.qp.qp0, s.qp.last) == Some(n)
  {
    hide Hist, Txs, Entries, Masters, Scans, Crash, Readers, Detect, Ops, Jobs;
    var ob, c, cv := s.obj[o], View(s)[o], Curs(s)[o];
    assert ChainOk(ob, c, cv) && ChainVer(ob, c, cv, n) && GapsOf(c);
    Settled(s, o, n);
    WalkFinds(ob, c, cv, ob.pcopy.value, n, s.qp.qp0, s.qp.last);
  }

  // ---------------------------------------------------------------- what the scans do

  /** A scan checkpoints the copy it looks at exactly when that is the newest version
      before the checkpoint clock and the master is older. */
  lemma ScanSelects(s: State, t: nat)
    requires Inv(s) && ScanningItem(s, t)
    ensures var it := ScanItem(s, t);
            && it.o < |View(s)| && |View(s)[it.o]| >= 1 && it.o < |Curs(s)|
            && (ScanHit(s, t) <==> it.v == Newest(View(s)[it.o], s.qp.qp0) > Curs(s)[it.o])
  {
    hide Hist, Txs, Entries, Masters, Scans, Crash, Readers, Detect, Ops, Jobs, CkptChoice, Borderline;
    ScanAt(s, t);
    MasterDetached(s, t);
    CheckpointSelection(s, ScanItem(s, t).o, ScanItem(s, t).v);
  }

  /** Entries are only ever added to a checkpoint log. */
  predicate EntsGrow(s: State, z: State) {
    |z.ck| == |s.ck| && forall k :: 0 <= k < |s.ck| ==> s.ck[k].ents <= z.ck[k].ents
  }

  lemma OwnEnts(s: State, a: Action, z: State)
    requires OwnNext(s, a, z)
    ensures EntsGrow(s, z)
  {
  }

  lemma WsEnts(s: State, a: Action, z: State)
    requires WsNext(s, a, z)
    ensures EntsGrow(s, z)
  {
    assert z.ck == s.ck;
  }

  lemma QpEnts(s: State, a: Action, z: State)
    requires QpNext(s, a, z)
    ensures EntsGrow(s, z)
  {
  }

  lemma ReclaimEnts(s: State, a: Action, z: State)
    requires TvNextStep(s, a, z) || CkNextStep(s, a, z)
    ensures EntsGrow(s, z)
  {
  }

  lemma {:induction false} RunEnts(ss: seq<State>, acts: seq<Action>, n: nat, m: nat)
    requires Run(ss, acts) && n <= m < |ss|
    ensures EntsGrow(ss[n], ss[m])
    decreases m - n
  {
    hide OwnNext, WsNext, QpNext, TvNextStep, CkNextStep;
    if n < m {
      RunEnts(ss, acts, n, m - 1);
      assert StepAt(ss, acts, m - 1);
      var s, a, z := ss[m - 1], acts[m - 1], ss[m];
      if OwnNext(s, a, z) { OwnEnts(s, a, z); }
      else if WsNext(s, a, z) { WsEnts(s, a, z); }
      else if QpNext(s, a, z) { QpEnts(s, a, z); }
      else { ReclaimEnts(s, a, z); }
    }
  }

  /** An object with an entry of this round is not checkpointed again: the entry holds
      the newest version before qp0, which is detached or about to be. */
  lemma NotAgain(s: State, t: nat, k: nat, e: nat)
    requires Basic(s) && Marks(s) && CanTvCkpt(s, t) && k < |s.ck| && e < |s.ck[k].ents|
    ensures s.ck[k].ents[e].s == s.qp.qp0 ==> s.ck[k].ents[e].o != ScanItem(s, t).o
  {
    var en, it := s.ck[k].ents[e], ScanItem(s, t);
    ScannedAt(s, t);
    assert Linear(s) && JobShapes(s) && EntryMark(s, k, e);
    if en.s == s.qp.qp0 && en.o == it.o {
      EntryKnown(s, k, e);
      BorderlineBefore(s, it.o, it.v, s.clk[t].last);
      hide Basic, Linear, JobShapes, Marks;
      NewestUnique(View(s)[it.o], it.v, en.v, s.qp.qp0);
      DetachIsOwn(s, k, en.o, en.v);
      assert false;
    }
  }

  /** A round checkpoints every object at most once, all threads and scans together. */
  lemma OncePerRound(ss: seq<State>, acts: seq<Action>, n: nat, m: nat)
    requires Run(ss, acts) && n < m < |acts|
    requires acts[n].TvCkpt? && acts[m].TvCkpt? && ss[n].qp.qp0 == ss[m].qp.qp0
    ensures CanTvCkpt(ss[n], acts[n].t) && CanTvCkpt(ss[m], acts[m].t)
    ensures ScanItem(ss[n], acts[n].t).o != ScanItem(ss[m], acts[m].t).o
  {
    hide Basic, Marks, Next;
    assert StepAt(ss, acts, n) && StepAt(ss, acts, m);
    CkptAct(ss[n], acts[n], ss[n + 1]);
    CkptAct(ss[m], acts[m], ss[m + 1]);
    RunBasic(ss, acts, n);
    RunBasic(ss, acts, m);
    RunEnts(ss, acts, n + 1, m);
    var k := acts[n].t;
    ScannedAt(ss[n], k);
    NotAgain(ss[m], acts[m].t, k, |ss[n].ck[k].ents|);
  }

  lemma CkptAct(s: State, a: Action, z: State)
    requires Next(s, a, z) && a.TvCkpt?
    ensures CanTvCkpt(s, a.t) && z == DoTvCkpt(s, a.t)
  {
  }

  // ---------------------------------------------------------------- writing back

  /** The last store of a writeback leaves every object's master value alone exactly
      when the entry it copied is still the master. np_cur_act is not looked at
      again between the copy and the store. */
  lemma WritebackExact(s: State, t: nat)
    requires Inv(s) && CanCkStore(s, t)
    ensures Curs(DoCkStore(s, t)) == Curs(s) <==> StoreSafe(s, t)
  {
    hide Linear, Readers, Masters, Entries, Scans, Crash, Chains;
    var en := s.ck[t].ents[s.cj[t].p];
    assert CJobOk(s, t);
    if StoreSafe(s, t) {
      StoreCurs(s, t);
    } else {
      assert Curs(s)[en.o] > en.v;
      assert Curs(DoCkStore(s, t))[en.o] == en.v;
    }
  }

  /** Copying the entry over the original object changes no master, and the object
      has no reader left. */
  lemma WritebackCopy(s: State, t: nat)
    requires Basic(s) && Safe(s) && CanCkCopy(s, t)
    ensures Curs(DoCkCopy(s, t)) == Curs(s)
    ensures forall u, r :: 0 <= u < |s.tx| && r in s.tx[u].refs && r.o == s.ck[t].ents[s.cj[t].p].o ==> r.loc != Org
  {
    hide Linear, Links, Walks;
    WbEarlier(s, t);
    assert CJobShape(s, t);
    forall u, r | 0 <= u < |s.tx| && r in s.tx[u].refs && r.o == s.ck[t].ents[s.cj[t].p].o ensures r.loc != Org {
      Holders(s, u);
      assert MemOf(s, s.tx[u]) && RefSafe(s, s.tx[u].lclk, r);
    }
  }
}
