/** Grace periods and what they buy: two-phase reclamation never takes away what a
    transaction holds. */
module GracePeriods {
  import opened Options
  import opened Ordo
  import opened Protocol
  import opened History
  import opened Invariant
  import opened Basics
  import opened BasicSteps
  import opened MemorySteps
  import opened Runs

  // ---------------------------------------------------------------- qp_detect

  lemma OwnQp(s: State, a: Action, z: State)
    requires OwnNext(s, a, z)
    ensures z.qp == s.qp
  {
  }

  lemma WsQp(s: State, a: Action, z: State)
    requires WsNext(s, a, z)
    ensures z.qp == s.qp
  {
  }

  lemma TvQp(s: State, a: Action, z: State)
    requires TvNextStep(s, a, z)
    ensures z.qp == s.qp
  {
  }

  lemma CkQp(s: State, a: Action, z: State)
    requires CkNextStep(s, a, z)
    ensures z.qp == s.qp
  {
  }

  lemma StepQpGrows(s: State, a: Action, z: State)
    requires Rounds(s.qp) && Next(s, a, z)
    ensures z.qp.qp0 >= s.qp.qp0
  {
    hide OwnNext, WsNext, QpNext, TvNextStep, CkNextStep;
    if OwnNext(s, a, z) { OwnQp(s, a, z); }
    else if WsNext(s, a, z) { WsQp(s, a, z); }
    else if QpNext(s, a, z) { QpNextGrows(s, a, z); }
    else if TvNextStep(s, a, z) { TvQp(s, a, z); }
    else { CkQp(s, a, z); }
  }

  lemma QpNextGrows(s: State, a: Action, z: State)
    requires Rounds(s.qp) && QpNext(s, a, z)
    ensures z.qp.qp0 >= s.qp.qp0
  {
  }

  lemma {:induction false} RunQpGrows(ss: seq<State>, acts: seq<Action>, n: nat, m: nat)
    requires Run(ss, acts) && n <= m < |ss|
    ensures ss[m].qp.qp0 >= ss[n].qp.qp0
    decreases m - n
  {
    hide Linear, Links, Shapes, Walks, Next;
    if n < m {
      RunQpGrows(ss, acts, n, m - 1);
      RunBasic(ss, acts, m - 1);
      assert StepAt(ss, acts, m - 1);
      StepQpGrows(ss[m - 1], acts[m - 1], ss[m]);
    }
  }

  /** When qp_detect returns, every transaction then running began at or after the
      new grace-period clock, and so did every one that runs at any later time. The
      three clocks stay in order, a reclamation round apart by more than the window. */
  lemma GracePeriod(ss: seq<State>, acts: seq<Action>, n: nat, m: nat, t: nat)
    requires Run(ss, acts) && n < m < |ss| && acts[n] == QpAdvance
    ensures ss[n + 1].qp.qp0 == ss[n].qp.clk - ORDO_BOUNDARY > ss[n].qp.qp0
    ensures t < |ss[m].tx| && InTx(ss[m].tx[t].ph) ==> ss[m].tx[t].lclk >= ss[n + 1].qp.qp0
    ensures ss[m].qp.qp2 <= ss[m].qp.qp1 <= ss[m].qp.qp0
    ensures ss[n + 1].qp.qp1 == ss[n].qp.qp0 && ss[n + 1].qp.qp2 == ss[n].qp.qp1
    ensures Lt(ss[n + 1].qp.qp2, ss[n + 1].qp.qp0)
  {
    hide Linear, Links, Shapes, Walks, Timing, Next;
    assert StepAt(ss, acts, n);
    RunBasic(ss, acts, n);
    AdvanceFacts(ss[n], ss[n + 1]);
    RunBasic(ss, acts, m);
    RoundFacts(ss[m]);
    RunQpGrows(ss, acts, n + 1, m);
  }

  lemma AdvanceFacts(s: State, z: State)
    requires Basic(s) && Next(s, QpAdvance, z)
    ensures z.qp.qp0 == s.qp.clk - ORDO_BOUNDARY > s.qp.qp0 && Lt(z.qp.qp2, z.qp.qp0)
    ensures z.qp.qp1 == s.qp.qp0 && z.qp.qp2 == s.qp.qp1
  {
    hide Linear, Links, Shapes, Walks, JobShapes;
  }

  lemma RoundFacts(s: State)
    requires Basic(s)
    ensures s.qp.qp2 <= s.qp.qp1 <= s.qp.qp0
    ensures forall t :: 0 <= t < |s.tx| && InTx(s.tx[t].ph) ==> s.tx[t].lclk >= s.qp.qp0
  {
    hide Linear, Links, Shapes, Walks, JobShapes;
  }

  // ---------------------------------------------------------------- two phases

  /** Both logs are cut in order, and a call never drops what it has itself
      checkpointed or written back: drops stay below prev, the scan at or above. */
  lemma TwoPhases(ss: seq<State>, acts: seq<Action>, n: nat, t: nat)
    requires Run(ss, acts) && n < |ss| && t < |ss[n].tx|
    ensures var s := ss[n];
            && t < |s.log| && s.log[t].head <= s.log[t].prev <= |s.log[t].ids|
            && t < |s.ck| && s.ck[t].head <= s.ck[t].prev <= |s.ck[t].ents|
    ensures var s := ss[n];
            && (CanTvDrop(s, t) ==> s.log[t].head < s.log[t].prev)
            && (CanTvCkpt(s, t) || CanTvDetach(s, t) ==> s.tj[t].p >= s.log[t].prev)
            && (CanCkDrop(s, t) ==> s.ck[t].head < s.ck[t].prev)
            && (CanCkCopy(s, t) || CanCkStore(s, t) ==> s.cj[t].p >= s.ck[t].prev)
  {
    hide Hist, Links, Walks, Gaps, Detect;
    RunBasic(ss, acts, n);
    assert TJobShape(ss[n], t) && CJobShape(ss[n], t);
    assert LogOk(t, ss[n].tx[t], ss[n].ws, ss[n].log[t]);
  }

  /** No object's master lies in the part of a ckptlog that may be dropped. */
  lemma MastersAhead(ss: seq<State>, acts: seq<Action>, n: nat, o: nat)
    requires Run(ss, acts) && n < |ss| && o < |ss[n].obj|
    ensures var s := ss[n]; var cur := s.obj[o].cur;
            cur.Entry? ==>
              && cur.k < |s.ck| && s.ck[cur.k].prev <= cur.e < |s.ck[cur.k].ents|
              && s.ck[cur.k].ents[cur.e].o == o
  {
    hide Linear, Walks;
    RunBasic(ss, acts, n);
    var s := ss[n];
    assert MasterShape(s, o);
    if s.obj[o].cur.Entry? {
      assert CJobShape(s, s.obj[o].cur.k);
    }
  }

  /** The version a held pointer reads, wherever it points. */
  predicate HoldsVersion(s: State, r: Ref) {
    match r.loc
    case Org => r.o < |s.obj| && s.obj[r.o].org == r.v
    case Entry(k, e) =>
      && k < |s.ck| && s.ck[k].head <= e < |s.ck[k].ents|
      && s.ck[k].ents[e].o == r.o && s.ck[k].ents[e].v == r.v
    case Copy(i) =>
      && i == r.v && r.o < |s.obj| && i < |s.obj[r.o].vers| && s.obj[r.o].vers[i].w < |s.ws|
      && var w := s.ws[s.obj[r.o].vers[i].w]; w.t < |s.log| && s.log[w.t].head <= w.pos
  }

  /** Memory safety: what a transaction has dereferenced is not dropped, moved or
      overwritten under it, and a chain walk stands on a copy that is still there. */
  lemma HeldStays(ss: seq<State>, acts: seq<Action>, n: nat, t: nat)
    requires Run(ss, acts) && DropsGuarded(ss, acts) && n < |ss| && t < |ss[n].tx|
    ensures forall r :: r in ss[n].tx[t].refs ==> HoldsVersion(ss[n], r)
    ensures var rd := ss[n].tx[t].rd; rd.AtCopy? ==> HoldsVersion(ss[n], Ref(rd.o, Copy(rd.i), rd.i))
  {
    hide Linear, Links, Shapes, Timing;
    RunBasic(ss, acts, n);
    RunSafe(ss, acts, n);
    var s := ss[n];
    assert MemOf(s, s.tx[t]) && WalkOk(s.tx[t], View(s), s.qp.last);
    forall r | r in s.tx[t].refs ensures HoldsVersion(s, r) {
      assert RefSafe(s, s.tx[t].lclk, r) && (r.loc.Copy? ==> RefOk(r, View(s), s.tx[t].lclk));
    }
  }

  // ---------------------------------------------------------------- when a drop is safe

  /** A walk with clock l and checkpoint clock k goes on from version j to the next. */
  predicate GoesOn(ob: Obj, c: seq<Clk>, j: nat, l: nat, k: nat)
    requires j < |c| && j < |ob.vers|
  {
    !LtClk(c[j], l) && ob.vers[j].next.Some? && !LtClk(ob.vers[j].nextClk, k)
  }

  lemma WalkBegins(s: State, t: nat, o: nat)
    requires Basic(s) && CanDerefBegin(s, t, o)
    ensures o < |View(s)| && |View(s)[o]| == |s.obj[o].vers| >= 1
    ensures var x := DoDerefBegin(s, t, o).tx[t];
            && x.lclk >= s.qp.qp0 && s.clk[t].last <= s.qp.last
            && x.rd == if s.obj[o].pcopy.None? then AtMaster(o) else AtCopy(o, |View(s)[o]| - 1, s.clk[t].last)
  {
    hide Linear, Walks;
    assert LinkOk(s.obj[o], View(s)[o]);
  }

  /** That is what one step of ts_deref does, with a clock the grace period admits and
      whatever checkpoint clock its thread had when the walk began. */
  lemma WalkStep(s: State, t: nat)
    requires Basic(s) && CanDerefCopy(s, t)
    ensures var rd, x := s.tx[t].rd, DoDerefCopy(s, t).tx[t];
            && x.lclk == s.tx[t].lclk >= s.qp.qp0 && rd.ckpt <= s.qp.last
            && rd.o < |View(s)| && 1 <= rd.i < |View(s)[rd.o]| == |s.obj[rd.o].vers|
            && x.rd == if GoesOn(s.obj[rd.o], View(s)[rd.o], rd.i, x.lclk, rd.ckpt) then AtCopy(rd.o, rd.i - 1, rd.ckpt)
                       else if LtClk(View(s)[rd.o][rd.i], x.lclk) then NoRead else AtMaster(rd.o)
  {
    hide Links, Shapes, Timing;
    var rd := s.tx[t].rd;
    Holders(s, t);
    assert WalkOk(s.tx[t], View(s), s.qp.last);
    WalkClock(s, t);
    WalkLink(s, rd.o, rd.i);
  }

  lemma WalkClock(s: State, t: nat)
    requires Basic(s) && CanDerefCopy(s, t)
    ensures s.tx[t].ph == Running
    ensures var rd, l := s.tx[t].rd, s.tx[t].lclk; var v := s.obj[rd.o].vers[rd.i];
            1 <= rd.i ==> (LtClk(GetWrtClk(v, s.ws[v.w], l), l) <==> LtClk(View(s)[rd.o][rd.i], l))
  {
    hide Links, Shapes, Timing, Walks;
    var rd := s.tx[t].rd;
    assert TxOk(t, s.tx[t], s.ws, s.log[t]);
    if 1 <= rd.i {
      assert ObjOk(s.obj[rd.o], rd.o, s.ws) && VerOk(s.obj[rd.o], rd.o, s.ws, rd.i);
      assert WsOk(s.obj, s.ws, s.obj[rd.o].vers[rd.i].w);
    }
  }

  lemma WalkLink(s: State, o: nat, i: nat)
    requires Basic(s) && o < |s.obj| && 1 <= i < |s.obj[o].vers|
    ensures |View(s)[o]| == |s.obj[o].vers| && (s.obj[o].vers[i].next.Some? ==> s.obj[o].vers[i].next.value == i - 1)
  {
    hide Linear, Timing, Walks;
    assert LinkOk(s.obj[o], View(s)[o]) && LinkVer(s.obj[o], View(s)[o], i);
  }

  /** A ts_deref that begins now gets to version i, with or without stopping there. */
  predicate Arrives(ob: Obj, c: seq<Clk>, i: nat, l: nat, k: nat)
    requires |c| == |ob.vers|
  {
    ob.pcopy.Some? && forall j {:trigger GoesOn(ob, c, j, l, k)} :: i < j < |c| ==> GoesOn(ob, c, j, l, k)
  }

  /** Some transaction the grace period admits can get to version i, if its thread has
      checkpoint clock k. */
  ghost predicate Reaches(s: State, o: nat, i: nat, k: nat)
    requires o < |s.obj| && o < |View(s)| && |View(s)[o]| == |s.obj[o].vers|
  {
    exists l: nat :: l >= s.qp.qp0 && Arrives(s.obj[o], View(s)[o], i, l, k)
  }

  /** The same, whichever checkpoint clock its thread has: the round that drops the copy
      is also the one that tells the threads of the newest, and a transaction may have
      gone past with the clock from before. */
  ghost predicate StillNeeded(s: State, o: nat, i: nat)
    requires o < |s.obj| && o < |View(s)| && |View(s)[o]| == |s.obj[o].vers|
  {
    exists k: nat :: k <= s.qp.last && Reaches(s, o, i, k)
  }

  predicate CutAbove(ob: Obj, i: nat) {
    ob.pcopy.None? || exists j :: i < j < |ob.vers| && ob.vers[j].next.None?
  }

  /** A copy can be reached exactly when it is linked, its successor is not older than
      the grace-period clock, and no walk stops above it because it is older than the
      checkpoint clock. To be linked is to have an uncut chain above. */
  lemma ReachExact(s: State, o: nat, i: nat, k: nat)
    requires Basic(s) && o < |s.obj| && 1 <= i < |s.obj[o].vers|
    ensures o < |View(s)| && |View(s)[o]| == |s.obj[o].vers|
    ensures var ob, c := s.obj[o], View(s)[o]; var late := LtClk(ob.vers[i].prev, s.qp.qp0);
            && (CutAbove(ob, i) || late <==> (Linked(ob, i) ==> late))
            && (Reaches(s, o, i, k) <==> Linked(ob, i) && !late && (i + 1 < |c| ==> !LtClk(c[i], k)))
  {
    hide Hist, Txs, Walks, Detect, Reaches, Linked, CutAbove;
    var ob, c := s.obj[o], View(s)[o];
    assert LinkOk(ob, c);
    if Linked(ob, i) && !LtClk(ob.vers[i].prev, s.qp.qp0) {
      NothingAbove(s, o, i);
      if i + 1 < |c| && LtClk(c[i], k) { NobodyArrives(s, o, i, k); } else { SomebodyArrives(s, o, i, k); }
    } else {
      CutOrLate(s, o, i);
      NobodyArrives(s, o, i, k);
    }
  }

  /** A copy is out of reach of every admissible transaction exactly when it is no
      longer linked, or its successor is older than the grace-period clock. */
  lemma CopyExact(s: State, o: nat, i: nat)
    requires Basic(s) && o < |s.obj| && 1 <= i < |s.obj[o].vers|
    ensures o < |View(s)| && |View(s)[o]| == |s.obj[o].vers|
    ensures !StillNeeded(s, o, i) <==> (Linked(s.obj[o], i) ==> LtClk(s.obj[o].vers[i].prev, s.qp.qp0))
  {
    hide Basic, Reaches, Linked, CutAbove;
    ReachExact(s, o, i, 0);
    forall k: nat | Reaches(s, o, i, k)
      ensures Linked(s.obj[o], i) && !LtClk(s.obj[o].vers[i].prev, s.qp.qp0)
    {
      ReachExact(s, o, i, k);
    }
  }

  lemma CutStops(ob: Obj, c: seq<Clk>, i: nat, l: nat, k: nat)
    requires |c| == |ob.vers| && CutAbove(ob, i)
    ensures !Arrives(ob, c, i, l, k)
  {
    if ob.pcopy.Some? {
      var j :| i < j < |ob.vers| && ob.vers[j].next.None?;
      assert !GoesOn(ob, c, j, l, k);
    }
  }

  lemma NextStops(ob: Obj, c: seq<Clk>, i: nat, l: nat, k: nat)
    requires i + 1 < |c| == |ob.vers| && (LtClk(c[i + 1], l) || LtClk(ob.vers[i + 1].nextClk, k))
    ensures !Arrives(ob, c, i, l, k)
  {
    assert !GoesOn(ob, c, i + 1, l, k);
  }

  lemma CutOrLate(s: State, o: nat, i: nat)
    requires Basic(s) && o < |s.obj| && 1 <= i < |s.obj[o].vers|
    requires Linked(s.obj[o], i) ==> LtClk(s.obj[o].vers[i].prev, s.qp.qp0)
    ensures CutAbove(s.obj[o], i) || LtClk(s.obj[o].vers[i].prev, s.qp.qp0)
  {
    hide Linear, Timing, Walks;
    var ob, c := s.obj[o], View(s)[o];
    assert LinkOk(ob, c) && (i + 1 < |c| ==> LinkVer(ob, c, i + 1));
  }

  lemma NobodyArrives(s: State, o: nat, i: nat, k: nat)
    requires Basic(s) && o < |s.obj| && 1 <= i < |s.obj[o].vers|
    requires o < |View(s)| && |View(s)[o]| == |s.obj[o].vers|
    requires CutAbove(s.obj[o], i) || LtClk(s.obj[o].vers[i].prev, s.qp.qp0) || (i + 1 < |View(s)[o]| && LtClk(View(s)[o][i], k))
    ensures !Reaches(s, o, i, k)
  {
    hide Hist, Txs, Walks, Detect, JobShapes;
    var ob, c := s.obj[o], View(s)[o];
    assert LinkOk(ob, c) && LinkVer(ob, c, i);
    assert i + 1 < |c| ==> LinkVer(ob, c, i + 1);
    forall l: nat | l >= s.qp.qp0 ensures !Arrives(ob, c, i, l, k) {
      if CutAbove(ob, i) || ob.vers[i + 1].next.None? { CutStops(ob, c, i, l, k); } else { NextStops(ob, c, i, l, k); }
    }
  }

  /** Above a linked copy whose successor is not older than the grace-period clock, no
      version is, and the chain is whole. */
  lemma NothingAbove(s: State, o: nat, i: nat)
    requires Basic(s) && o < |s.obj| && 1 <= i < |s.obj[o].vers|
    requires Linked(s.obj[o], i) && !LtClk(s.obj[o].vers[i].prev, s.qp.qp0)
    ensures o < |View(s)| && |View(s)[o]| == |s.obj[o].vers|
    ensures NoneAfter(View(s)[o], i, s.qp.qp0) && !CutAbove(s.obj[o], i)
  {
    hide Hist, Txs, Walks, Detect, JobShapes;
    var ob, c := s.obj[o], View(s)[o];
    assert LinkOk(ob, c) && MarksOld(ob, c, s.qp.qp0) && LinkVer(ob, c, i) && GapsOf(c);
    if i + 1 < |c| {
      assert LinkVer(ob, c, i + 1);
      if LtClk(c[i + 1], s.qp.qp0) { Settled(s, o, i + 1); }
      hide Basic;
      forall j | i < j < |c| ensures !LtClk(c[j], s.qp.qp0) && ob.vers[j].next.Some? {
        assert LinkVer(ob, c, j);
      }
    }
  }

  lemma SomebodyArrives(s: State, o: nat, i: nat, k: nat)
    requires Basic(s) && o < |s.obj| && 1 <= i < |s.obj[o].vers|
    requires o < |View(s)| && NoneAfter(View(s)[o], i, s.qp.qp0) && !CutAbove(s.obj[o], i)
    requires i + 1 < |View(s)[o]| ==> !LtClk(View(s)[o][i], k)
    ensures |View(s)[o]| == |s.obj[o].vers| && Reaches(s, o, i, k)
  {
    hide Hist, Txs, Walks, Detect, JobShapes;
    var ob, c, l := s.obj[o], View(s)[o], s.qp.qp0;
    assert LinkOk(ob, c) && GapsOf(c);
    forall j {:trigger GoesOn(ob, c, j, l, k)} | i < j < |c| ensures GoesOn(ob, c, j, l, k) {
      assert ob.vers[j].next.Some? && LinkVer(ob, c, j);
    }
    assert Arrives(ob, c, i, l, k);
  }

  /** Dropping a write set is sound exactly when DropSafe holds: then no transaction
      the grace period admits can get to one of its copies, and else some can. Best
      effort reclamation makes sure of it; checkpoint reclamation checks nothing. */
  lemma DropExact(s: State, t: nat)
    requires Basic(s) && CanTvDrop(s, t)
    ensures var items := WsAt(s, t, s.log[t].head).items;
            && (forall k :: 0 <= k < |items| ==>
                  items[k].o < |s.obj| && items[k].o < |View(s)| && |View(s)[items[k].o]| == |s.obj[items[k].o].vers|)
            && (DropSafe(s, t) <==> forall k :: 0 <= k < |items| ==> !StillNeeded(s, items[k].o, items[k].v))
  {
    hide Basic, StillNeeded, Linked;
    var items := WsAt(s, t, s.log[t].head).items;
    DropAt(s, t);
    forall k | 0 <= k < |items|
      ensures items[k].o < |View(s)| && |View(s)[items[k].o]| == |s.obj[items[k].o].vers|
      ensures !StillNeeded(s, items[k].o, items[k].v) <==>
        (Linked(s.obj[items[k].o], items[k].v) ==> LtClk(VerOf(s, items[k].o, items[k].v).prev, s.clk[t].qp0))
    {
      CopyExact(s, items[k].o, items[k].v);
    }
  }

  /** The copies of the write set a drop is about to take. */
  lemma DropAt(s: State, t: nat)
    requires Basic(s) && CanTvDrop(s, t)
    ensures s.clk[t].qp0 == s.qp.qp0
    ensures var w := s.log[t].ids[s.log[t].head];
            && s.ws[w].t == t && s.ws[w].pos == s.log[t].head
            && forall k :: 0 <= k < |s.ws[w].items| ==>
                 var it := s.ws[w].items[k]; ItemInChain(s, it) && 1 <= it.v && s.obj[it.o].vers[it.v].w == w
  {
    hide Links, Shapes, Walks;
    assert TJobShape(s, t) && LogOk(t, s.tx[t], s.ws, s.log[t]);
    assert LogEntryOk(t, s.tx[t], s.ws, s.log[t], s.log[t].head);
    var w := s.log[t].ids[s.log[t].head];
    assert WsOk(s.obj, s.ws, w);
    forall k | 0 <= k < |s.ws[w].items|
      ensures var it := s.ws[w].items[k]; ItemInChain(s, it) && 1 <= it.v && s.obj[it.o].vers[it.v].w == w
    {
      assert ItemOk(s.obj, s.ws, w, k);
    }
  }

  /** A transaction with clock l may hold version i, as far as all invariants know. */
  predicate MayHold(s: State, l: nat, o: nat, i: nat)
    requires |s.tj| == |s.log|
  {
    l >= s.qp.qp0 && o < |View(s)| && NoneAfter(View(s)[o], i, l) && CopySafe(s, l, o, i)
  }

  /** DropSafe is also the weakest guard that keeps memory safety going: a drop leaves
      everything a transaction may hold in place exactly when it holds. */
  lemma DropKeepsHolders(s: State, t: nat)
    requires Basic(s) && CanTvDrop(s, t)
    ensures |s.tj| == |s.log| == |DoTvDrop(s, t).log|
    ensures DropSafe(s, t) <==>
      forall l, o, i :: MayHold(s, l, o, i) ==> CopySafe(DoTvDrop(s, t), l, o, i)
  {
    SameLogs(s);
    hide Basic, CopySafe, Linked, NoneAfter;
    var z := DoTvDrop(s, t);
    if DropSafe(s, t) {
      forall l, o, i | MayHold(s, l, o, i) ensures CopySafe(z, l, o, i) {
        HeldNotDropped(s, t, l, o, i);
      }
    } else {
      DropAt(s, t);
      var items := WsAt(s, t, s.log[t].head).items;
      var k :| 0 <= k < |items| && ItemInChain(s, items[k]) && Linked(s.obj[items[k].o], items[k].v)
               && !LtClk(VerOf(s, items[k].o, items[k].v).prev, s.clk[t].qp0);
      HolderLoses(s, t, items[k].o, items[k].v);
    }
  }

  lemma SameLogs(s: State)
    requires Basic(s)
    ensures |s.tj| == |s.log|
  {
  }

  lemma HolderLoses(s: State, t: nat, o: nat, i: nat)
    requires Basic(s) && CanTvDrop(s, t) && o < |s.obj| && 1 <= i < |s.obj[o].vers|
    requires s.obj[o].vers[i].w == s.log[t].ids[s.log[t].head]
    requires Linked(s.obj[o], i) && !LtClk(s.obj[o].vers[i].prev, s.qp.qp0)
    ensures |s.tj| == |s.log| && MayHold(s, s.qp.qp0, o, i) && !CopySafe(DoTvDrop(s, t), s.qp.qp0, o, i)
  {
    SameLogs(s);
    DropAt(s, t);
    NothingAbove(s, o, i);
    hide Basic, Linked, NoneAfter;
  }
}
