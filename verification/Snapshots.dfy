/** What transactions see: every read returns the newest version of the snapshot,
    wherever it is stored, and a snapshot holds all of a write set or none of it. */
module Snapshots {
  import opened Options
  import opened Ordo
  import opened Protocol
  import opened History
  import opened Invariant
  import opened Basics
  import opened TxSteps
  import opened QpSteps
  import opened ReclaimSteps
  import opened MemorySteps
  import opened Runs

  // ---------------------------------------------------------------- the snapshot, as a specification

  /** The newest version committed before l, looking at the commit clocks alone. */
  function Newest(c: seq<Clk>, l: nat): (v: nat)
    requires |c| >= 1
    ensures NewestBefore(c, v, l)
  {
    if |c| == 1 || LtClk(c[|c| - 1], l) then |c| - 1 else Newest(c[..|c| - 1], l)
  }

  lemma NewestUnique(c: seq<Clk>, v: nat, u: nat, l: nat)
    requires NewestBefore(c, v, l) && NewestBefore(c, u, l)
    ensures v == u
  {
  }

  // ---------------------------------------------------------------- ts_deref as one walk

  /** The clock get_wrt_clk lets its caller see once all waiting is over. */
  function SettledClk(v: Ver, ws: seq<Ws>): Clk {
    if v.raw.At? || v.w >= |ws| then v.raw else ws[v.w].pending
  }

  /** The version ts_deref returns from position i of the chain, for a transaction
      with clock l whose thread holds checkpoint clock ckpt. */
  function Walk(s: State, o: nat, i: nat, l: nat, ckpt: nat): nat
    requires o < |s.obj|
    decreases i
  {
    var ob := s.obj[o];
    if i == 0 || i >= |ob.vers| then CurVer(s.ck, ob)
    else if LtClk(SettledClk(ob.vers[i], s.ws), l) then i
    else if LtClk(ob.vers[i].nextClk, ckpt) || ob.vers[i].next.None? || ob.vers[i].next.value >= i
    then CurVer(s.ck, ob)
    else Walk(s, o, ob.vers[i].next.value, l, ckpt)
  }

  function DerefVer(s: State, o: nat, l: nat, ckpt: nat): nat
    requires o < |s.obj|
  {
    match s.obj[o].pcopy
    case None => CurVer(s.ck, s.obj[o])
    case Some(i) => Walk(s, o, i, l, ckpt)
  }

  lemma SettledIsStamp(s: State, o: nat, i: nat)
    requires Inv(s) && o < |s.obj| && 1 <= i < |s.obj[o].vers|
    ensures SettledClk(s.obj[o].vers[i], s.ws) == View(s)[o][i]
  {
    assert ObjOk(s.obj[o], o, s.ws) && VerOk(s.obj[o], o, s.ws, i);
  }

  lemma {:induction false} WalkFindsNewest(s: State, o: nat, i: nat, l: nat, ckpt: nat)
    requires Inv(s) && o < |s.obj| && 1 <= i < |s.obj[o].vers| && l >= s.qp.qp0 && ckpt <= s.qp.last
    requires NoneAfter(View(s)[o], i, l)
    ensures NewestBefore(View(s)[o], Walk(s, o, i, l, ckpt), l)
    decreases i
  {
    hide Hist, Txs, Crash, Scans, Jobs, Masters, Entries, Readers, Detect, Ops, Gaps;
    var ob, c, cv := s.obj[o], View(s)[o], Curs(s)[o];
    SettledIsStamp(s, o, i);
    assert ChainOk(ob, c, cv) && ChainVer(ob, c, cv, i);
    MasterSeen(s, o);
    if !LtClk(c[i], l) {
      if LtClk(ob.vers[i].nextClk, ckpt) || ob.vers[i].next.None? {
        FallBack(ob, c, cv, i, l, ckpt, s.qp.dlast);
      } else {
        WalkFindsNewest(s, o, i - 1, l, ckpt);
      }
    }
  }

  /** ts_deref refines the snapshot: whatever thread and checkpoint clock it runs
      with, the walk over copies, checkpoints and originals finds the newest version
      of the snapshot. */
  lemma DerefRefinesSnapshot(s: State, o: nat, l: nat, ckpt: nat)
    requires Inv(s) && o < |s.obj| && l >= s.qp.qp0 && ckpt <= s.qp.last
    ensures |View(s)[o]| >= 1 && DerefVer(s, o, l, ckpt) == Newest(View(s)[o], l)
  {
    var c := View(s)[o];
    assert ChainOk(s.obj[o], c, Curs(s)[o]);
    if s.obj[o].pcopy.Some? {
      WalkFindsNewest(s, o, s.obj[o].pcopy.value, l, ckpt);
    } else {
      MasterSeen(s, o);
    }
    NewestUnique(c, DerefVer(s, o, l, ckpt), Newest(c, l), l);
  }

  /** Reclamation never changes an answer: every read any running or future
      transaction can make gives the same version before and after the step. */
  lemma ReclaimKeepsReads(s: State, a: Action, z: State, o: nat, l: nat, before: nat, after: nat)
    requires Inv(s) && (TvNextStep(s, a, z) || CkNextStep(s, a, z)) && StoreGuard(s, a)
    requires o < |s.obj| && l >= s.qp.qp0 && before <= s.qp.last && after <= s.qp.last
    ensures o < |z.obj| && DerefVer(z, o, l, after) == DerefVer(s, o, l, before)
  {
    ReclaimView(s, a, z);
    assert Inv(z) by { StepInv(s, a, z); }
    DerefRefinesSnapshot(s, o, l, before);
    DerefRefinesSnapshot(z, o, l, after);
  }

  lemma ReclaimView(s: State, a: Action, z: State)
    requires Inv(s) && (TvNextStep(s, a, z) || CkNextStep(s, a, z))
    ensures View(z) == View(s) && z.qp == s.qp && z.tx == s.tx && |z.obj| == |s.obj|
  {
    hide Txs, Chains, Entries, Masters, Covers, Scans, Crash, Readers, Gaps, Ops, Detect, Jobs;
    ViewSame(s, z);
  }

  // ---------------------------------------------------------------- along runs

  /** Every pointer a transaction holds names the newest version of its snapshot. For
      copies that needs nothing; what is read from a master may be an older version
      after a writeback has been overtaken. */
  lemma ReadsAreSnapshots(ss: seq<State>, acts: seq<Action>, n: nat, t: nat, r: Ref)
    requires Run(ss, acts) && n < |ss|
    requires t < |ss[n].tx| && r in ss[n].tx[t].refs
    ensures r.o < |View(ss[n])| && |View(ss[n])[r.o]| >= 1
    ensures r.loc.Copy? || StoresGuarded(ss, acts) ==> r.v == Newest(View(ss[n])[r.o], ss[n].tx[t].lclk)
  {
    hide StoresGuarded, Newest, Linear, Timing, Shapes, Checkpoints, Rounding;
    var s := ss[n];
    var x := s.tx[t];
    RunBasic(ss, acts, n);
    assert WalkOk(x, View(s), s.qp.last) && LinkOk(s.obj[r.o], View(s)[r.o]);
    if StoresGuarded(ss, acts) {
      RunInv(ss, acts, n);
      assert ReaderOk(x, View(s), Curs(s), s.qp.last);
    }
    if RefOk(r, View(s), x.lclk) {
      NewestUnique(View(s)[r.o], r.v, Newest(View(s)[r.o], x.lclk), x.lclk);
    }
  }

  /** Two pointers to one object in one transaction name the same version. */
  lemma RepeatableReads(ss: seq<State>, acts: seq<Action>, n: nat, t: nat, r: Ref, q: Ref)
    requires Run(ss, acts) && n < |ss| && t < |ss[n].tx|
    requires StoresGuarded(ss, acts) || (r.loc.Copy? && q.loc.Copy?)
    requires r in ss[n].tx[t].refs && q in ss[n].tx[t].refs && r.o == q.o
    ensures r.v == q.v
  {
    ReadsAreSnapshots(ss, acts, n, t, r);
    ReadsAreSnapshots(ss, acts, n, t, q);
  }

  /** A snapshot contains all of a write set or none of it, whatever has been
      installed, stamped, published or unlocked when the reads are made. */
  lemma SnapshotAtomicity(ss: seq<State>, acts: seq<Action>, n: nat, t: nat, w: nat, j: nat, k: nat, r: Ref, q: Ref)
    requires Run(ss, acts) && n < |ss| && t < |ss[n].tx|
    requires StoresGuarded(ss, acts) || (r.loc.Copy? && q.loc.Copy?)
    requires w < |ss[n].ws| && j < ss[n].ws[w].inst && k < ss[n].ws[w].inst && ss[n].ws[w].inst <= |ss[n].ws[w].items|
    requires r in ss[n].tx[t].refs && r.o == ss[n].ws[w].items[j].o
    requires q in ss[n].tx[t].refs && q.o == ss[n].ws[w].items[k].o
    ensures r.v >= ss[n].ws[w].items[j].v <==> q.v >= ss[n].ws[w].items[k].v
  {
    hide Basic;
    RunBasic(ss, acts, n);
    ReadsAreSnapshots(ss, acts, n, t, r);
    ReadsAreSnapshots(ss, acts, n, t, q);
    ItemInSnapshot(ss[n], w, j, ss[n].tx[t].lclk);
    ItemInSnapshot(ss[n], w, k, ss[n].tx[t].lclk);
  }

  /** An installed copy is covered by a snapshot exactly when its write set's commit
      clock is before the snapshot's. */
  lemma ItemInSnapshot(s: State, w: nat, k: nat, l: nat)
    requires Basic(s) && w < |s.ws| && k < s.ws[w].inst <= |s.ws[w].items|
    ensures var it := s.ws[w].items[k];
            && it.o < |View(s)| && |View(s)[it.o]| >= 1
            && (Newest(View(s)[it.o], l) >= it.v <==> LtClk(s.ws[w].pending, l))
  {
    hide Links, Shapes, Timing, Walks, Txs, Clocks, BelowSeen;
    assert WsOk(s.obj, s.ws, w) && ItemOk(s.obj, s.ws, w, k);
    var it := s.ws[w].items[k];
    var c := View(s)[it.o];
    assert c[it.v] == s.ws[w].pending && GapsOf(c);
    assert NewestBefore(c, Newest(c, l), l);
  }

  // ---------------------------------------------------------------- linear histories

  /** Versions follow each other: each belongs to one copy of one write set, commit
      clocks are more than three windows apart, and wrt_clk_next and wrt_clk_prev name
      the neighbours. It was duplicated from its predecessor, unless a writeback that was
      overtaken has put an older version into the master. */
  lemma LinearHistory(ss: seq<State>, acts: seq<Action>, n: nat, o: nat, i: nat)
    requires Run(ss, acts) && n < |ss|
    requires o < |ss[n].obj| && 1 <= i < |ss[n].obj[o].vers|
    ensures var s := ss[n]; var v := s.obj[o].vers[i]; var c := View(s)[o];
            && |c| == |s.obj[o].vers|
            && v.w < |s.ws| && v.k < |s.ws[v.w].items| && s.ws[v.w].items[v.k].o == o && s.ws[v.w].items[v.k].v == i
            && (StoresGuarded(ss, acts) ==> s.ws[v.w].items[v.k].base == i - 1)
            && (forall j :: i < j < |c| && c[j].At? ==> c[i].At? && Gt(c[j].c, c[i].c + 2 * ORDO_BOUNDARY))
            && (v.next.Some? ==> v.next == Some(i - 1) && v.nextClk == c[i - 1])
            && (v.prev.At? ==> i + 1 < |c| && v.prev == c[i + 1])
  {
    hide Txs, Clocks, BelowSeen, Shapes, Walks, Timing, Checkpoints, Rounding, Readers, StoresGuarded;
    RunBasic(ss, acts, n);
    var s := ss[n];
    assert ObjOk(s.obj[o], o, s.ws) && VerOk(s.obj[o], o, s.ws, i) && WsOk(s.obj, s.ws, s.obj[o].vers[i].w);
    assert LinkOk(s.obj[o], View(s)[o]) && LinkVer(s.obj[o], View(s)[o], i);
    assert GapsOf(View(s)[o]);
    if StoresGuarded(ss, acts) {
      RunInv(ss, acts, n);
      assert BaseOk(s.obj, s.ws[s.obj[o].vers[i].w], s.obj[o].vers[i].k);
    }
  }

  /** No lost update: a copy that is still locked is the only one of its object, and
      duplicates the newest version there is, if no writeback was overtaken. */
  lemma NoLostUpdate(ss: seq<State>, acts: seq<Action>, n: nat, w: nat, k: nat, x: nat, j: nat)
    requires Run(ss, acts) && n < |ss| && w < |ss[n].ws| && x < |ss[n].ws|
    requires ss[n].ws[w].unl <= k < |ss[n].ws[w].items| && ss[n].ws[x].unl <= j < |ss[n].ws[x].items|
    requires ss[n].ws[w].items[k].o == ss[n].ws[x].items[j].o
    ensures w == x && k == j
    ensures k >= ss[n].ws[w].inst && StoresGuarded(ss, acts) ==>
      var it := ss[n].ws[w].items[k];
      it.o < |ss[n].obj| && it.base == |ss[n].obj[it.o].vers| - 1
  {
    hide Txs, Clocks, Gaps, BelowSeen, Links, Shapes, Timing, Walks, Checkpoints, Rounding, Readers, StoresGuarded;
    RunBasic(ss, acts, n);
    var s := ss[n];
    assert WsOk(s.obj, s.ws, w) && ItemOk(s.obj, s.ws, w, k);
    assert WsOk(s.obj, s.ws, x) && ItemOk(s.obj, s.ws, x, j);
    if StoresGuarded(ss, acts) {
      RunInv(ss, acts, n);
      assert BaseOk(s.obj, s.ws[w], k);
    }
  }
}
