/** What application threads may do to the state the reclamation invariants look
    at: they only add versions and commit clocks, and never in the past. */
module Growth {
  import opened Options
  import opened Ordo
  import opened Protocol
  import opened History
  import opened Invariant

  /** Commit clocks only appear, and are at most the window behind the clock. */
  predicate Grows(v: seq<seq<Clk>>, z: seq<seq<Clk>>, hi: nat) {
    && |z| == |v|
    && forall o :: 0 <= o < |v| ==> GrowsOf(v[o], z[o], hi)
  }

  predicate GrowsOf(c: seq<Clk>, d: seq<Clk>, hi: nat) {
    && |d| >= |c|
    && (forall i :: 0 <= i < |c| && c[i].At? ==> d[i] == c[i])
    && (forall i :: 0 <= i < |d| && d[i].At? && (i >= |c| || c[i].Max?) ==> d[i].c + ORDO_BOUNDARY >= hi)
  }

  lemma NewestStays(c: seq<Clk>, d: seq<Clk>, hi: nat, v: nat, l: nat)
    requires GrowsOf(c, d, hi) && l <= hi && NewestBefore(c, v, l)
    ensures NewestBefore(d, v, l)
  {
    forall j | v < j < |d| ensures !LtClk(d[j], l) {
      assert j < |c| ==> !LtClk(c[j], l);
    }
  }

  predicate WsKept(w: Ws, x: Ws, hi: nat) {
    && x.t == w.t && x.pos == w.pos
    && (w.wrt.At? ==> x == w.(unl := x.unl, op := x.op))
    && (x.pending.At? && x.pending != w.pending ==> x.pending.c + ORDO_BOUNDARY >= hi)
  }

  predicate LogKept(ws: seq<Ws>, lg: TvLog, zl: TvLog) {
    && zl.head == lg.head && zl.prev == lg.prev
    && forall q :: 0 <= q < |lg.ids| && lg.ids[q] < |ws| && ws[lg.ids[q]].wrt.At? ==>
         q < |zl.ids| && zl.ids[q] == lg.ids[q]
  }

  predicate LogGrows(n: nat, lg: TvLog, zl: TvLog) {
    forall q :: 0 <= q < |zl.ids| ==> (q < |lg.ids| && zl.ids[q] == lg.ids[q]) || zl.ids[q] >= n
  }

  predicate ObjKept(ob: Obj, x: Obj) {
    && x.cur == ob.cur && x.org == ob.org && |x.vers| >= |ob.vers|
    && forall i :: 0 <= i < |ob.vers| ==>
         && x.vers[i].w == ob.vers[i].w && x.vers[i].k == ob.vers[i].k
         && x.vers[i].next == ob.vers[i].next && x.vers[i].detached == ob.vers[i].detached
         && (i >= 1 ==> (Linked(x, i) <==> Linked(ob, i)))
  }

  /** A step of the transaction side. */
  predicate TxSide(s: State, z: State) {
    && z.ck == s.ck && z.clk == s.clk && z.tj == s.tj && z.cj == s.cj && z.qp == s.qp
    && |z.tx| == |s.tx| && |z.obj| == |s.obj| && |z.log| == |s.log| && |z.ws| >= |s.ws|
    && (forall o :: 0 <= o < |s.obj| ==> ObjKept(s.obj[o], z.obj[o]))
    && (forall t :: 0 <= t < |s.log| ==> LogKept(s.ws, s.log[t], z.log[t]))
    && (forall t :: 0 <= t < |s.log| ==> LogGrows(|s.ws|, s.log[t], z.log[t]))
    && (forall w :: 0 <= w < |s.ws| ==> WsKept(s.ws[w], z.ws[w], s.hi))
    && (forall w :: |s.ws| <= w < |z.ws| ==> z.ws[w].pending.Max?)
  }

  lemma EntriesGrow(v: seq<seq<Clk>>, z: seq<seq<Clk>>, hi: nat, ck: seq<CkLog>, qp0: nat)
    requires Entries(v, ck, qp0) && Grows(v, z, hi) && qp0 <= hi
    ensures Entries(z, ck, qp0)
  {
    forall k, e | 0 <= k < |ck| && 0 <= e < |ck[k].ents| ensures EntryOk(z, ck[k].ents[e], qp0) {
      var en := ck[k].ents[e];
      assert EntryOk(v, en, qp0);
      NewestStays(v[en.o], z[en.o], hi, en.v, en.s);
    }
  }

  lemma CoversGrow(v: seq<seq<Clk>>, z: seq<seq<Clk>>, hi: nat, cv: seq<nat>, last: nat)
    requires Covers(v, cv, last) && Grows(v, z, hi) && last <= hi
    ensures Covers(z, cv, last)
  {
    forall o, i | 0 <= o < |z| && 1 <= i < |z[o]| && LtClk(z[o][i], last) ensures cv[o] >= i {
      assert GrowsOf(v[o], z[o], hi);
      assert i < |v[o]| && LtClk(v[o][i], last);
    }
  }

  lemma MastersGrow(s: State, z: State, v: seq<seq<Clk>>, zv: seq<seq<Clk>>)
    requires Masters(s, v) && Jobs(s) && TxSide(s, z) && Grows(v, zv, s.hi)
    ensures Masters(z, zv)
  {
    forall o | 0 <= o < |z.obj| ensures MasterOk(z, zv, o) {
      assert MasterOk(s, v, o) && ObjKept(s.obj[o], z.obj[o]) && GrowsOf(v[o], zv[o], s.hi);
      var cur := s.obj[o].cur;
      if cur.Entry? {
        var k := cur.k;
        assert TJobOk(s, k) && LogKept(s.ws, s.log[k], z.log[k]);
        if s.tj[k].TDetach? && s.log[k].ids[s.tj[k].p] < |s.ws| {
          assert WsKept(s.ws[s.log[k].ids[s.tj[k].p]], z.ws[s.log[k].ids[s.tj[k].p]], s.hi);
        }
      }
    }
  }

  lemma PassedGrow(s: State, z: State, v: seq<seq<Clk>>, zv: seq<seq<Clk>>, it: Item)
    requires Passed(s.obj, v, it, s.qp.qp0) && TxSide(s, z) && Grows(v, zv, s.hi)
    ensures Passed(z.obj, zv, it, s.qp.qp0)
  {
    assert ObjKept(s.obj[it.o], z.obj[it.o]) && GrowsOf(v[it.o], zv[it.o], s.hi);
  }

  /** Up to position p the log is committed, so nothing there changes. */
  lemma PassedAllGrow(s: State, z: State, v: seq<seq<Clk>>, zv: seq<seq<Clk>>, t: nat, p: nat)
    requires TxSide(s, z) && Grows(v, zv, s.hi) && t < |s.log|
    requires PassedAll(s.obj, v, s.ws, s.log[t], p, s.qp.qp0)
    requires forall q :: 0 <= q < p ==> WrtAt(s.ws, s.log[t], q).At?
    ensures PassedAll(z.obj, zv, z.ws, z.log[t], p, s.qp.qp0)
    ensures forall q :: 0 <= q < p ==> WrtAt(z.ws, z.log[t], q).At?
  {
    var lg, zl, qp0 := s.log[t], z.log[t], s.qp.qp0;
    assert LogKept(s.ws, lg, zl);
    if p > 0 { assert WrtAt(s.ws, lg, p - 1).At?; }
    forall q | 0 <= q < p
      ensures lg.ids[q] < |s.ws| && zl.ids[q] == lg.ids[q] && WsKept(s.ws[lg.ids[q]], z.ws[lg.ids[q]], s.hi)
      ensures PassedWs(z.obj, zv, z.ws, zl, q, |z.ws[zl.ids[q]].items|, qp0)
      ensures WrtAt(z.ws, zl, q).At?
    {
      assert WrtAt(s.ws, lg, q).At?;
      var items := s.ws[lg.ids[q]].items;
      assert PassedWs(s.obj, v, s.ws, lg, q, |items|, qp0);
      forall k | 0 <= k < |items| ensures Passed(z.obj, zv, items[k], qp0) {
        PassedGrow(s, z, v, zv, items[k]);
      }
    }
  }

  lemma ScansGrow(s: State, z: State, v: seq<seq<Clk>>, zv: seq<seq<Clk>>)
    requires Scans(s, v) && Jobs(s) && TxSide(s, z) && Grows(v, zv, s.hi)
    requires forall t :: 0 <= t < |s.log| ==>
      forall q :: 0 <= q < s.log[t].prev ==> WrtAt(s.ws, s.log[t], q).At?
    ensures Scans(z, zv)
  {
    forall t | 0 <= t < |z.log| ensures ScanOk(z, zv, t) {
      assert ScanOk(s, v, t) && TJobOk(s, t) && LogKept(s.ws, s.log[t], z.log[t]);
      PassedAllGrow(s, z, v, zv, t, s.log[t].prev);
      if s.tj[t].TScan? || s.tj[t].TDetach? {
        var p, k := s.tj[t].p, s.tj[t].k;
        PassedAllGrow(s, z, v, zv, t, p);
        if k > 0 {
          assert WrtAt(s.ws, s.log[t], p).At?;
          var w := s.log[t].ids[p];
          assert WsKept(s.ws[w], z.ws[w], s.hi);
          forall j | 0 <= j < k ensures Passed(z.obj, zv, z.ws[w].items[j], s.qp.qp0) {
            PassedGrow(s, z, v, zv, s.ws[w].items[j]);
          }
        }
      }
    }
  }

  /** The prefix of a log below p is committed. */
  predicate CommittedTo(ws: seq<Ws>, lg: TvLog, p: nat) {
    forall q :: 0 <= q < p ==> WrtAt(ws, lg, q).At?
  }

  lemma JobsGrow(s: State, z: State)
    requires Jobs(s) && TxSide(s, z) && s.qp.qp0 + ORDO_BOUNDARY <= s.hi
    requires forall t :: 0 <= t < |s.log| ==> s.log[t].prev <= |s.log[t].ids|
    ensures Jobs(z)
  {
    forall t | 0 <= t < |z.tj| ensures TJobOk(z, t) {
      assert TJobOk(s, t) && LogKept(s.ws, s.log[t], z.log[t]);
      if s.tj[t].TScan? || s.tj[t].TDetach? {
        var p := s.tj[t].p;
        var lg, zl := s.log[t], z.log[t];
        forall q | 0 <= q < |lg.ids| && WrtAt(s.ws, lg, q).At?
          ensures q < |zl.ids| && zl.ids[q] == lg.ids[q] && WrtAt(z.ws, zl, q) == WrtAt(s.ws, lg, q)
          ensures z.ws[zl.ids[q]].items == s.ws[lg.ids[q]].items
        {
          assert WsKept(s.ws[lg.ids[q]], z.ws[lg.ids[q]], s.hi);
        }
        if p > 0 { assert WrtAt(s.ws, lg, p - 1).At?; }
      }
    }
    forall t | 0 <= t < |z.tj| ensures DoneOk(z, t) {
      assert DoneOk(s, t) && LogKept(s.ws, s.log[t], z.log[t]) && LogGrows(|s.ws|, s.log[t], z.log[t]);
      forall p | z.log[t].prev <= p < |z.log[t].ids|
        ensures LtClk(StampAt(z.ws, z.log[t], p), s.qp.qp0) ==> LtClk(StampAt(s.ws, s.log[t], p), s.qp.qp0)
      {
        var w := z.log[t].ids[p];
        assert w < |s.ws| ==> WsKept(s.ws[w], z.ws[w], s.hi);
      }
    }
    forall t | 0 <= t < |z.cj| ensures CJobOk(z, t) {
      assert CJobOk(s, t);
      if s.cj[t].CStore? {
        var o := s.ck[t].ents[s.cj[t].p].o;
        assert ObjKept(s.obj[o], z.obj[o]);
      }
    }
  }

  lemma CrashGrow(s: State, z: State, v: seq<seq<Clk>>, zv: seq<seq<Clk>>)
    requires Crash(s, v) && TxSide(s, z) && Grows(v, zv, s.hi) && s.qp.dlast <= s.hi
    ensures Crash(z, zv)
  {
    forall k, e | 0 <= k < |z.ck| && 0 <= e < |z.ck[k].ents| ensures EntDurable(z, k, e) {
      assert EntDurable(s, k, e);
    }
    forall o | 0 <= o < |z.obj| ensures CrashOk(z, zv, o) {
      assert CrashOk(s, v, o) && ObjKept(s.obj[o], z.obj[o]);
      NewestStays(v[o], zv[o], s.hi, MasterVer(s.ck, s.obj[o], CrashMaster(s, o)), s.qp.dlast);
    }
  }

  lemma ReaderGrow(x: Tx, v: seq<seq<Clk>>, zv: seq<seq<Clk>>, hi: nat, cv: seq<nat>, last: nat)
    requires ReaderOk(x, v, cv, last) && Grows(v, zv, hi) && x.lclk <= hi
    ensures ReaderOk(x, zv, cv, last)
  {
    forall r | r in x.refs ensures RefOk(r, zv, x.lclk) {
      assert RefOk(r, v, x.lclk);
      NewestStays(v[r.o], zv[r.o], hi, r.v, x.lclk);
    }
    if x.ph == Running {
      if x.rd != NoRead {
        assert GrowsOf(v[x.rd.o], zv[x.rd.o], hi);
        NoneAfterStays(v[x.rd.o], zv[x.rd.o], hi, if x.rd.AtCopy? then x.rd.i else cv[x.rd.o], x.lclk);
      }
      if x.look.LookAt? {
        assert GrowsOf(v[x.look.o], zv[x.look.o], hi);
      }
    }
  }

  lemma NoneAfterStays(c: seq<Clk>, d: seq<Clk>, hi: nat, v: nat, l: nat)
    requires GrowsOf(c, d, hi) && l <= hi && NoneAfter(c, v, l)
    ensures NoneAfter(d, v, l)
  {
    forall j | v < j < |d| ensures !LtClk(d[j], l) {
      assert j < |c| ==> !LtClk(c[j], l);
    }
  }

  lemma RefGrow(s: State, z: State, l: nat, r: Ref)
    requires |s.tj| == |s.log| && |s.cj| == |s.ck| && TxSide(s, z) && RefSafe(s, l, r)
    ensures RefSafe(z, l, r)
  {
    if r.o < |s.obj| { assert ObjKept(s.obj[r.o], z.obj[r.o]); }
    if r.loc.Copy? { CopyGrow(s, z, l, r.o, r.loc.i); }
  }

  lemma CopyGrow(s: State, z: State, l: nat, o: nat, i: nat)
    requires |s.tj| == |s.log| && TxSide(s, z) && CopySafe(s, l, o, i)
    ensures CopySafe(z, l, o, i)
  {
    assert ObjKept(s.obj[o], z.obj[o]);
    var w := s.obj[o].vers[i].w;
    assert WsKept(s.ws[w], z.ws[w], s.hi);
    assert LogKept(s.ws, s.log[s.ws[w].t], z.log[s.ws[w].t]);
  }

  lemma DroppedGrow(s: State, z: State, v: seq<seq<Clk>>, zv: seq<seq<Clk>>)
    requires Memory(s, v) && TxSide(s, z) && |v| == |s.obj| && Grows(v, zv, s.hi)
    requires forall o, i :: 0 <= o < |s.obj| && 1 <= i < |s.obj[o].vers| ==> s.obj[o].vers[i].w < |s.ws|
    requires forall o, i :: 0 <= o < |s.obj| && |s.obj[o].vers| <= i < |z.obj[o].vers| && i >= 1 ==>
      DroppedOk(z, zv, o, i)
    ensures forall o, i :: 0 <= o < |z.obj| && 1 <= i < |z.obj[o].vers| ==> DroppedOk(z, zv, o, i)
  {
    forall o, i | 0 <= o < |z.obj| && 1 <= i < |z.obj[o].vers| ensures DroppedOk(z, zv, o, i) {
      assert ObjKept(s.obj[o], z.obj[o]);
      if i < |s.obj[o].vers| {
        assert DroppedOk(s, v, o, i) && GrowsOf(v[o], zv[o], s.hi);
        var w := s.obj[o].vers[i].w;
        assert WsKept(s.ws[w], z.ws[w], s.hi);
        if s.ws[w].t < |s.log| {
          assert LogKept(s.ws, s.log[s.ws[w].t], z.log[s.ws[w].t]);
        }
      }
    }
  }

  // ---------------------------------------------------------------- what holds along every run

  lemma PublishedGrow(s: State, z: State, o: nat, i: nat)
    requires Published(s, o, i) && TxSide(s, z)
    ensures Published(z, o, i)
  {
    assert ObjKept(s.obj[o], z.obj[o]);
    if i >= 1 { assert WsKept(s.ws[s.obj[o].vers[i].w], z.ws[s.obj[o].vers[i].w], s.hi); }
  }

  lemma ShapesGrow(s: State, z: State)
    requires Shapes(s) && TxSide(s, z)
    ensures Shapes(z)
  {
    forall k, e | 0 <= k < |z.ck| && 0 <= e < |z.ck[k].ents| ensures EntryShape(z, z.ck[k].ents[e]) {
      assert EntryShape(s, s.ck[k].ents[e]);
      PublishedGrow(s, z, s.ck[k].ents[e].o, s.ck[k].ents[e].v);
    }
    forall o | 0 <= o < |z.obj| ensures MasterShape(z, o) {
      assert MasterShape(s, o) && ObjKept(s.obj[o], z.obj[o]);
      PublishedGrow(s, z, o, s.obj[o].org);
    }
  }

  lemma MarksGrow(s: State, z: State)
    requires Marks(s) && JobShapes(s) && TxSide(s, z)
    ensures Marks(z)
  {
    forall k, e | 0 <= k < |z.ck| && 0 <= e < |z.ck[k].ents| ensures EntryMark(z, k, e) {
      assert EntryMark(s, k, e) && ObjKept(s.obj[s.ck[k].ents[e].o], z.obj[s.ck[k].ents[e].o]);
      assert TJobShape(s, k) && LogKept(s.ws, s.log[k], z.log[k]);
      if s.tj[k].TDetach? && s.log[k].ids[s.tj[k].p] < |s.ws| {
        assert WsKept(s.ws[s.log[k].ids[s.tj[k].p]], z.ws[s.log[k].ids[s.tj[k].p]], s.hi);
      }
    }
  }

  lemma JobShapesGrow(s: State, z: State)
    requires JobShapes(s) && TxSide(s, z)
    requires forall t :: 0 <= t < |s.log| ==> s.log[t].prev <= |s.log[t].ids|
    ensures JobShapes(z)
  {
    forall t | 0 <= t < |z.tj| ensures TJobShape(z, t) {
      assert TJobShape(s, t) && LogKept(s.ws, s.log[t], z.log[t]);
      if s.tj[t].TScan? || s.tj[t].TDetach? {
        var lg, zl, p := s.log[t], z.log[t], s.tj[t].p;
        forall q | 0 <= q < |lg.ids| && WrtAt(s.ws, lg, q).At?
          ensures q < |zl.ids| && zl.ids[q] == lg.ids[q] && WrtAt(z.ws, zl, q) == WrtAt(s.ws, lg, q)
          ensures z.ws[zl.ids[q]].items == s.ws[lg.ids[q]].items
        {
          assert WsKept(s.ws[lg.ids[q]], z.ws[lg.ids[q]], s.hi);
        }
        if p > 0 { assert WrtAt(s.ws, lg, p - 1).At?; }
      }
    }
    forall t | 0 <= t < |z.cj| ensures CJobShape(z, t) {
      assert CJobShape(s, t);
    }
  }

  lemma WalkGrow(x: Tx, v: seq<seq<Clk>>, zv: seq<seq<Clk>>, hi: nat, last: nat)
    requires WalkOk(x, v, last) && Grows(v, zv, hi) && x.lclk <= hi
    ensures WalkOk(x, zv, last)
  {
    forall r | r in x.refs && r.loc.Copy? ensures RefOk(r, zv, x.lclk) {
      assert RefOk(r, v, x.lclk);
      NewestStays(v[r.o], zv[r.o], hi, r.v, x.lclk);
    }
    if x.ph == Running {
      if x.rd.AtCopy? {
        assert GrowsOf(v[x.rd.o], zv[x.rd.o], hi);
        NoneAfterStays(v[x.rd.o], zv[x.rd.o], hi, x.rd.i, x.lclk);
      }
      if x.look.LookAt? {
        assert GrowsOf(v[x.look.o], zv[x.look.o], hi);
      }
    }
  }
}
