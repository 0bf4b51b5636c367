/** The parts of the invariants behind snapshots, checkpoints, reclamation and durability.

    They are stated over two views of the state: view[o], the commit clocks of object
    o's versions, and cv[o], the version held by o's current master. What does not speak
    of the version in the master holds along every run; the rest needs that no writeback
    throws a newer master away. */
module Invariant {
  import opened Options
  import opened Ordo
  import opened Protocol
  import opened History

  function Curs(s: State): seq<nat> {
    seq(|s.obj|, o requires 0 <= o < |s.obj| => CurVer(s.ck, s.obj[o]))
  }

  // ---------------------------------------------------------------- version chains

  predicate LinkVer(ob: Obj, c: seq<Clk>, i: nat)
    requires 1 <= i < |ob.vers| == |c|
  {
    var v := ob.vers[i];
    && (v.raw.At? ==> v.raw == c[i])
    && (i < |c| - 1 ==> v.raw.At?)
    && (v.detached ==> v.raw.At?)
    && (v.next.None? ==> v.nextClk == At(0) && (i >= 2 ==> ob.vers[i - 1].detached))
    && (v.next.Some? ==> v.next.value == i - 1 >= 1 && v.nextClk == c[i - 1])
    && (v.prev.At? ==> i + 1 < |c| && v.prev == c[i + 1] && ob.vers[i + 1].raw.At?)
    && (i + 1 < |c| && ob.vers[i + 1].next == Some(i) && ob.vers[i + 1].raw.At? ==> v.prev == c[i + 1])
  }

  /** p_copy is the newest version, or the newest version has been detached. */
  predicate HeadOk(ob: Obj, c: seq<Clk>) {
    && |ob.vers| == |c| >= 1
    && (ob.pcopy.None? && |c| >= 2 ==> ob.vers[|c| - 1].detached)
    && (ob.pcopy.Some? ==> ob.pcopy.value == |c| - 1 >= 1 && !ob.vers[|c| - 1].detached)
  }

  predicate LinkOk(ob: Obj, c: seq<Clk>) {
    HeadOk(ob, c) && forall i :: 1 <= i < |c| ==> LinkVer(ob, c, i)
  }

  /** A detached version was committed before the grace-period clock. */
  predicate MarksOld(ob: Obj, c: seq<Clk>, qp0: nat) {
    forall i :: 1 <= i < |ob.vers| && i < |c| && ob.vers[i].detached ==> LtClk(c[i], qp0)
  }

  predicate Links(obj: seq<Obj>, view: seq<seq<Clk>>, qp0: nat) {
    && |view| == |obj|
    && forall o :: 0 <= o < |obj| ==> LinkOk(obj[o], view[o]) && MarksOld(obj[o], view[o], qp0)
  }

  /** Whatever is no longer in the chain is in the master. */
  predicate ChainVer(ob: Obj, c: seq<Clk>, cv: nat, i: nat)
    requires 1 <= i < |ob.vers| == |c|
  {
    && LinkVer(ob, c, i)
    && (ob.vers[i].detached ==> cv >= i)
    && (ob.vers[i].next.None? ==> cv >= i - 1)
  }

  predicate ChainOk(ob: Obj, c: seq<Clk>, cv: nat) {
    && HeadOk(ob, c) && cv < |c|
    && (ob.pcopy.None? ==> cv == |c| - 1)
    && (forall i :: 1 <= i < |c| ==> ChainVer(ob, c, cv, i))
  }

  predicate Chains(obj: seq<Obj>, view: seq<seq<Clk>>, cv: seq<nat>) {
    && |view| == |cv| == |obj|
    && forall o :: 0 <= o < |obj| ==> ChainOk(obj[o], view[o], cv[o])
  }

  // ---------------------------------------------------------------- checkpoints

  /** Version v is the newest one before clock l. */
  predicate NewestBefore(c: seq<Clk>, v: nat, l: nat) {
    && v < |c| && Seen(c, v, l)
    && forall j :: v < j < |c| ==> !LtClk(c[j], l)
  }

  /** An entry holds the version its object had at the checkpoint clock. */
  predicate EntryOk(view: seq<seq<Clk>>, en: Ent, qp0: nat) {
    en.o < |view| && en.v >= 1 && en.s <= qp0 && NewestBefore(view[en.o], en.v, en.s)
  }

  predicate CkShape(c: CkLog) {
    c.dhead <= c.head <= c.prev <= |c.ents| && c.dur <= |c.ents|
  }

  predicate Entries(view: seq<seq<Clk>>, ck: seq<CkLog>, qp0: nat) {
    forall k :: 0 <= k < |ck| ==>
      && CkShape(ck[k])
      && (forall e :: 0 <= e < |ck[k].ents| ==> EntryOk(view, ck[k].ents[e], qp0))
      && (forall e, f :: 0 <= e < f < |ck[k].ents| ==> ck[k].ents[e].s <= ck[k].ents[f].s)
  }

  /** Thread k has checkpointed version v of object o and is about to detach it. */
  predicate MidDetach(tj: TJob, lg: TvLog, ws: seq<Ws>, o: nat, v: nat) {
    && tj.TDetach? && tj.p < |lg.ids| && lg.ids[tj.p] < |ws| && tj.k < |ws[lg.ids[tj.p]].items|
    && ws[lg.ids[tj.p]].items[tj.k].o == o && ws[lg.ids[tj.p]].items[tj.k].v == v
  }

  /** First entry of a ckptlog the writeback loop has not passed yet. */
  function WbPos(c: CkLog, j: CJob): nat {
    match j
    case CWb(p) => p
    case CStore(p) => p
    case _ => c.prev
  }

  /** The version's write set has been published. */
  predicate Published(s: State, o: nat, i: nat) {
    o < |s.obj| && i < |s.obj[o].vers|
    && (i >= 1 ==> s.obj[o].vers[i].w < |s.ws| && s.ws[s.obj[o].vers[i].w].wrt.At?)
  }

  predicate EntryShape(s: State, en: Ent) {
    en.v >= 1 && Published(s, en.o, en.v)
  }

  /** np_cur_act is the original or an entry no writeback has passed. */
  predicate MasterShape(s: State, o: nat)
    requires o < |s.obj| && |s.cj| == |s.ck|
  {
    var ob := s.obj[o];
    && !ob.cur.Copy? && Published(s, o, ob.org)
    && (ob.cur.Entry? ==>
          && ob.cur.k < |s.ck| && WbPos(s.ck[ob.cur.k], s.cj[ob.cur.k]) <= ob.cur.e < |s.ck[ob.cur.k].ents|
          && s.ck[ob.cur.k].ents[ob.cur.e].o == o)
  }

  /** An entry's version has been detached, or its thread is about to detach it. */
  predicate EntryMark(s: State, k: nat, e: nat)
    requires k < |s.ck| == |s.tj| == |s.log| && e < |s.ck[k].ents|
  {
    var en := s.ck[k].ents[e];
    && en.o < |s.obj| && en.v < |s.obj[en.o].vers|
    && (s.obj[en.o].vers[en.v].detached || MidDetach(s.tj[k], s.log[k], s.ws, en.o, en.v))
  }

  predicate Marks(s: State) {
    && |s.ck| == |s.tj| == |s.log|
    && forall k, e :: 0 <= k < |s.ck| && 0 <= e < |s.ck[k].ents| ==> EntryMark(s, k, e)
  }

  predicate Shapes(s: State) {
    && |s.cj| == |s.ck|
    && (forall k, e :: 0 <= k < |s.ck| && 0 <= e < |s.ck[k].ents| ==> EntryShape(s, s.ck[k].ents[e]))
    && (forall o :: 0 <= o < |s.obj| ==> MasterShape(s, o))
  }

  predicate MasterOk(s: State, view: seq<seq<Clk>>, o: nat)
    requires o < |s.obj| && |s.tj| == |s.cj| == |s.ck| == |s.log|
  {
    var ob := s.obj[o];
    && o < |view| && ob.org < |view[o]| && !ob.cur.Copy?
    && (ob.org >= 1 ==> LtClk(view[o][ob.org], s.qp.qp0))
    && (ob.cur.Org? && ob.org >= 1 ==> ob.org < |ob.vers| && ob.vers[ob.org].detached)
    && (ob.cur.Entry? ==>
          && ob.cur.k < |s.ck| && ob.cur.e < |s.ck[ob.cur.k].ents|
          && WbPos(s.ck[ob.cur.k], s.cj[ob.cur.k]) <= ob.cur.e
          && var en := s.ck[ob.cur.k].ents[ob.cur.e];
             && en.o == o && en.v < |ob.vers|
             && (ob.vers[en.v].detached || MidDetach(s.tj[ob.cur.k], s.log[ob.cur.k], s.ws, o, en.v)))
  }

  predicate Masters(s: State, view: seq<seq<Clk>>) {
    && |s.tj| == |s.cj| == |s.ck| == |s.log|
    && forall o :: 0 <= o < |s.obj| ==> MasterOk(s, view, o)
  }

  /** Everything committed before the last checkpoint is in the current master. */
  predicate Covers(view: seq<seq<Clk>>, cv: seq<nat>, last: nat) {
    && |view| == |cv|
    && forall o, i :: 0 <= o < |view| && 1 <= i < |view[o]| && LtClk(view[o][i], last) ==> cv[o] >= i
  }

  /** A copy the checkpoint scan may pass: checkpointed, or superseded before qp0. */
  predicate Passed(obj: seq<Obj>, view: seq<seq<Clk>>, it: Item, qp0: nat) {
    && it.o < |obj| && it.o < |view| && it.v < |obj[it.o].vers|
    && (obj[it.o].vers[it.v].detached
        || (it.v + 1 < |view[it.o]| && LtClk(view[it.o][it.v + 1], qp0)))
  }

  predicate PassedWs(obj: seq<Obj>, view: seq<seq<Clk>>, ws: seq<Ws>, lg: TvLog, p: nat, n: nat, qp0: nat) {
    p < |lg.ids| && lg.ids[p] < |ws| && ws[lg.ids[p]].wrt.At? ==>
      n <= |ws[lg.ids[p]].items|
      && forall k :: 0 <= k < n ==> Passed(obj, view, ws[lg.ids[p]].items[k], qp0)
  }

  predicate PassedAll(obj: seq<Obj>, view: seq<seq<Clk>>, ws: seq<Ws>, lg: TvLog, p: nat, qp0: nat) {
    && p <= |lg.ids|
    && forall q :: 0 <= q < p ==>
         PassedWs(obj, view, ws, lg, q, if lg.ids[q] < |ws| then |ws[lg.ids[q]].items| else 0, qp0)
  }

  predicate ScanOk(s: State, view: seq<seq<Clk>>, t: nat)
    requires t < |s.log| == |s.tj|
  {
    && PassedAll(s.obj, view, s.ws, s.log[t], s.log[t].prev, s.qp.qp0)
    && (s.tj[t].TScan? || s.tj[t].TDetach? ==>
          && PassedAll(s.obj, view, s.ws, s.log[t], s.tj[t].p, s.qp.qp0)
          && PassedWs(s.obj, view, s.ws, s.log[t], s.tj[t].p, s.tj[t].k, s.qp.qp0))
  }

  predicate Scans(s: State, view: seq<seq<Clk>>) {
    |s.log| == |s.tj| && forall t :: 0 <= t < |s.log| ==> ScanOk(s, view, t)
  }

  // ---------------------------------------------------------------- grace periods

  predicate InTx(ph: Phase) {
    ph in {Running, Installing, Stamped, Unlocking}
  }

  /** No running transaction began before the current grace-period clock. */
  predicate Floor(tx: seq<Tx>, qp0: nat) {
    forall t :: 0 <= t < |tx| && InTx(tx[t].ph) ==> tx[t].lclk >= qp0
  }

  predicate Late(x: Tx, clk: nat) {
    InTx(x.ph) ==> x.lclk + ORDO_BOUNDARY >= clk
  }

  /** A thread began late enough, or is waited for; and only one that was in a
      transaction is. */
  predicate Waited(x: Tx, need: bool, cap: nat, clk: nat) {
    && (Late(x, clk) || (need && x.run == cap))
    && (need ==> cap % 2 == 1)
  }

  predicate Detect(tx: seq<Tx>, qp: Qp) {
    && |tx| == |qp.need| == |qp.cap| && |tx| > 0
    && (qp.ph.QInit? ==> qp.ph.n < |tx|)
    && (qp.ph.QInit? ==> forall t :: 0 <= t < qp.ph.n ==> Waited(tx[t], qp.need[t], qp.cap[t], qp.clk))
    && (qp.ph.QWait? ==> forall t :: 0 <= t < |tx| ==> Waited(tx[t], qp.need[t], qp.cap[t], qp.clk))
  }

  predicate Detecting(qp: Qp) {
    qp.ph.QInit? || qp.ph.QWait?
  }

  predicate InRound(qp: Qp) {
    qp.ph.QReady? || qp.ph.QTrig? || qp.ph.QPub?
  }

  predicate Rounds(qp: Qp) {
    && qp.qp2 <= qp.qp1 <= qp.qp0
    && (Detecting(qp) ==> qp.clk > qp.fence + ORDO_BOUNDARY)
    && (Detecting(qp) || qp.ph.QRest? ==> qp.fence >= qp.qp0 + ORDO_BOUNDARY)
    && (InRound(qp) ==> qp.qp0 > qp.fence && qp.qp0 > qp.qp2 + ORDO_BOUNDARY)
    && (qp.ph.QReady? || qp.ph.QTrig? ==> qp.dlast < qp.qp0)
    && (qp.ph.QPub? ==> qp.dlast == qp.qp0)
    && (!qp.ph.QPub? ==> qp.last == qp.dlast)
  }

  // ---------------------------------------------------------------- reclamation jobs

  /** What a job of thread t may rely on: the round is on and the clocks are here. */
  predicate Active(s: State, t: nat) {
    && s.qp.ph.QTrig? && t < s.qp.ph.n && t < |s.clk|
    && s.clk[t] == Clks(s.qp.qp0, s.qp.qp2, s.qp.last)
  }

  /** Checkpoint clock of an object's current master entry. */
  predicate MasterSince(s: State, ob: Obj, clk: nat) {
    ob.cur.Entry? && ob.cur.k < |s.ck| && ob.cur.e < |s.ck[ob.cur.k].ents|
    && s.ck[ob.cur.k].ents[ob.cur.e].s == clk
  }

  /** The copy's object has got a master in this round, no older than the copy. */
  predicate JustCkpted(s: State, it: Item) {
    it.o < |s.obj| && MasterSince(s, s.obj[it.o], s.qp.qp0) && it.v <= CurVer(s.ck, s.obj[it.o])
  }

  /** A checkpoint of this round has put a newer version in the entry's place. */
  predicate Replaced(s: State, en: Ent) {
    en.o < |s.obj| && MasterSince(s, s.obj[en.o], s.qp.qp0) && en.v < CurVer(s.ck, s.obj[en.o])
  }

  predicate TJobShape(s: State, t: nat)
    requires t < |s.tj| == |s.log|
  {
    var lg := s.log[t];
    match s.tj[t]
    case TNone => true
    case TReq(m) => Active(s, t) && m == s.qp.mode != NoTv
    case TDrop(m, lim) => Active(s, t) && m == s.qp.mode != NoTv && lim == lg.prev
    case TScan(m, p, k) =>
      && Active(s, t) && m == s.qp.mode != NoTv && lg.head <= p <= |lg.ids|
      && (m == Ckpt ==> lg.prev <= p)
      && (forall q :: 0 <= q < p ==> WrtAt(s.ws, lg, q).At?)
      && (k > 0 ==> LtClk(WrtAt(s.ws, lg, p), s.qp.qp0) && k <= |s.ws[lg.ids[p]].items|)
    case TDetach(p, k) =>
      && Active(s, t) && s.qp.mode == Ckpt && lg.head <= p < |lg.ids| && lg.prev <= p
      && (forall q :: 0 <= q < p ==> WrtAt(s.ws, lg, q).At?)
      && LtClk(WrtAt(s.ws, lg, p), s.qp.qp0) && lg.ids[p] < |s.ws| && k < |s.ws[lg.ids[p]].items|
  }

  predicate TJobOk(s: State, t: nat)
    requires t < |s.tj| == |s.log|
  {
    && TJobShape(s, t)
    && (s.tj[t].TDetach? ==> JustCkpted(s, s.ws[s.log[t].ids[s.tj[t].p]].items[s.tj[t].k]))
  }

  /** After its checkpoint job a tvlog holds nothing older than the checkpoint
      clock beyond prev. */
  predicate DoneOk(s: State, t: nat)
    requires t < |s.tj| == |s.log|
  {
    s.qp.ph.QTrig? && t < s.qp.ph.n && s.qp.mode == Ckpt && s.tj[t].TNone? ==>
      forall p :: s.log[t].prev <= p < |s.log[t].ids| ==> !LtClk(StampAt(s.ws, s.log[t], p), s.qp.qp0)
  }

  predicate CJobShape(s: State, t: nat)
    requires t < |s.cj| == |s.ck|
  {
    match s.cj[t]
    case CNone => s.ck[t].dhead == s.ck[t].head
    case CReq => Active(s, t) && s.ck[t].dhead == s.ck[t].head
    case CDrop(lim) => Active(s, t) && lim == s.ck[t].prev
    case CWb(p) => Active(s, t) && s.ck[t].prev <= p <= |s.ck[t].ents|
    case CStore(p) =>
      Active(s, t) && s.ck[t].prev <= p < |s.ck[t].ents| && s.ck[t].ents[p].o < |s.obj|
  }

  predicate CJobOk(s: State, t: nat)
    requires t < |s.cj| == |s.ck|
  {
    && CJobShape(s, t)
    && (s.cj[t].CStore? ==>
          var en := s.ck[t].ents[s.cj[t].p];
          && s.obj[en.o].org == en.v && en.s < s.qp.qp0
          && (s.obj[en.o].cur == Entry(t, s.cj[t].p) || Replaced(s, en)))
  }

  predicate JobShapes(s: State) {
    && |s.tj| == |s.log| == |s.cj| == |s.ck| == |s.clk| == |s.tx|
    && (forall t :: 0 <= t < |s.tj| ==> TJobShape(s, t))
    && (forall t :: 0 <= t < |s.cj| ==> CJobShape(s, t))
    && (forall t :: 0 <= t < |s.clk| ==> s.clk[t].last <= s.qp.last)
    && (s.qp.ph.QTrig? ==> s.qp.ph.n <= |s.tx|)
  }

  predicate Jobs(s: State) {
    && |s.tj| == |s.log| == |s.cj| == |s.ck| == |s.clk| == |s.tx|
    && (forall t :: 0 <= t < |s.tj| ==> TJobOk(s, t))
    && (forall t :: 0 <= t < |s.tj| ==> DoneOk(s, t))
    && (forall t :: 0 <= t < |s.cj| ==> CJobOk(s, t))
    && (forall t :: 0 <= t < |s.clk| ==> s.clk[t].last <= s.qp.last)
    && (s.qp.ph.QTrig? ==> s.qp.ph.n <= |s.tx|)
  }

  // ---------------------------------------------------------------- readers

  /** A pointer a transaction got from ts_deref names its snapshot's version. */
  predicate RefOk(r: Ref, view: seq<seq<Clk>>, l: nat) {
    && r.o < |view| && NewestBefore(view[r.o], r.v, l)
    && (r.loc.Copy? ==> r.loc.i == r.v >= 1)
  }

  predicate NoneAfter(c: seq<Clk>, v: nat, l: nat) {
    forall j :: v < j < |c| ==> !LtClk(c[j], l)
  }

  predicate ReadOk(rd: Read, view: seq<seq<Clk>>, cv: seq<nat>, l: nat, last: nat) {
    match rd
    case NoRead => true
    case AtCopy(o, i, ckpt) =>
      o < |view| && 1 <= i < |view[o]| && NoneAfter(view[o], i, l) && ckpt <= last
    case AtMaster(o) => o < |view| && o < |cv| && NoneAfter(view[o], cv[o], l)
  }

  predicate LookOk(k: Look, view: seq<seq<Clk>>, l: nat) {
    k.LookAt? ==>
      && k.o < |view|
      && (k.seen.Some? ==> k.seen.value < |view[k.o]| && Seen(view[k.o], k.seen.value, l))
  }

  /** A transaction walks, and holds copies, within its snapshot. */
  predicate WalkOk(x: Tx, view: seq<seq<Clk>>, last: nat) {
    && (forall r :: r in x.refs ==> r.o < |view| && (r.loc.Copy? ==> RefOk(r, view, x.lclk)))
    && (x.ph == Running ==>
          && (x.rd.AtMaster? ==> x.rd.o < |view|)
          && (x.rd.AtCopy? ==>
                x.rd.o < |view| && 1 <= x.rd.i < |view[x.rd.o]| && NoneAfter(view[x.rd.o], x.rd.i, x.lclk) && x.rd.ckpt <= last)
          && LookOk(x.look, view, x.lclk))
  }

  predicate Walks(tx: seq<Tx>, view: seq<seq<Clk>>, last: nat) {
    forall t :: 0 <= t < |tx| ==> WalkOk(tx[t], view, last)
  }

  predicate ReaderOk(x: Tx, view: seq<seq<Clk>>, cv: seq<nat>, last: nat) {
    && (forall r :: r in x.refs ==> RefOk(r, view, x.lclk))
    && (x.ph == Running ==> ReadOk(x.rd, view, cv, x.lclk, last) && LookOk(x.look, view, x.lclk))
  }

  predicate Readers(tx: seq<Tx>, view: seq<seq<Clk>>, cv: seq<nat>, last: nat) {
    forall t :: 0 <= t < |tx| ==> ReaderOk(tx[t], view, cv, last)
  }

  // ---------------------------------------------------------------- memory

  /** The next round is still to come, or thread t has not been asked to reclaim yet. */
  predicate Pending(qp: Qp, t: nat) {
    qp.ph.QRest? || Detecting(qp) || qp.ph.QReady? || (qp.ph.QTrig? && qp.ph.n <= t)
  }

  /** Log position limit below which thread t may still drop in this round. */
  function DropLimit(s: State, t: nat): nat
    requires t < |s.tj| == |s.log|
  {
    match s.tj[t]
    case TReq(m) => s.log[t].prev
    case TDrop(m, lim) => lim
    case TNone => if Pending(s.qp, t) then s.log[t].prev else 0
    case _ => 0
  }

  function CkDropLimit(s: State, t: nat): nat
    requires t < |s.cj| == |s.ck|
  {
    match s.cj[t]
    case CReq => s.ck[t].prev
    case CDrop(lim) => lim
    case CNone => if Pending(s.qp, t) then s.ck[t].prev else 0
    case _ => 0
  }

  /** Some pointer leads to version i from its object. */
  predicate Linked(ob: Obj, i: nat) {
    ob.pcopy == Some(i) || (i + 1 < |ob.vers| && ob.vers[i + 1].next == Some(i))
  }

  /** Version i of object o is still in its writer's tvlog; if it is no longer
      linked and may be dropped in this round, the holder began before the fence. */
  predicate CopySafe(s: State, l: nat, o: nat, i: nat)
    requires |s.tj| == |s.log|
  {
    && o < |s.obj| && 1 <= i < |s.obj[o].vers| && s.obj[o].vers[i].w < |s.ws|
    && var w := s.ws[s.obj[o].vers[i].w];
       && w.t < |s.log| && s.log[w.t].head <= w.pos
       && (w.pos < DropLimit(s, w.t) ==> l <= s.qp.fence || Linked(s.obj[o], i))
  }

  predicate EntrySafe(s: State, l: nat, r: Ref)
    requires |s.cj| == |s.ck| && r.loc.Entry?
  {
    && r.loc.k < |s.ck| && s.ck[r.loc.k].head <= r.loc.e < |s.ck[r.loc.k].ents|
    && s.ck[r.loc.k].ents[r.loc.e].o == r.o && s.ck[r.loc.k].ents[r.loc.e].v == r.v
    && (r.loc.e < CkDropLimit(s, r.loc.k) ==> l <= s.qp.fence)
  }

  predicate OrgSafe(s: State, l: nat, r: Ref) {
    && r.o < |s.obj| && s.obj[r.o].org == r.v
    && (s.obj[r.o].cur != Org ==>
          l <= s.qp.fence || (InRound(s.qp) && MasterSince(s, s.obj[r.o], s.qp.qp0)))
  }

  predicate RefSafe(s: State, l: nat, r: Ref)
    requires |s.tj| == |s.log| && |s.cj| == |s.ck|
  {
    match r.loc
    case Org => OrgSafe(s, l, r)
    case Copy(i) => CopySafe(s, l, r.o, i)
    case Entry(k, e) => EntrySafe(s, l, r)
  }

  predicate MemOf(s: State, x: Tx)
    requires |s.tj| == |s.log| && |s.cj| == |s.ck|
  {
    && (forall r :: r in x.refs ==> RefSafe(s, x.lclk, r))
    && (x.rd.AtCopy? ==> CopySafe(s, x.lclk, x.rd.o, x.rd.i))
  }

  /** A version already dropped is not linked, or lies behind one older than qp0. */
  predicate DroppedOk(s: State, view: seq<seq<Clk>>, o: nat, i: nat)
    requires o < |s.obj| && 1 <= i < |s.obj[o].vers|
  {
    s.obj[o].vers[i].w < |s.ws| && s.ws[s.obj[o].vers[i].w].t < |s.log|
    && s.log[s.ws[s.obj[o].vers[i].w].t].head > s.ws[s.obj[o].vers[i].w].pos ==>
      !Linked(s.obj[o], i) || (o < |view| && i + 1 < |view[o]| && LtClk(view[o][i + 1], s.qp.qp0))
  }

  predicate Memory(s: State, view: seq<seq<Clk>>) {
    && |s.tj| == |s.log| && |s.cj| == |s.ck|
    && (forall o, i :: 0 <= o < |s.obj| && 1 <= i < |s.obj[o].vers| ==> DroppedOk(s, view, o, i))
    && forall t :: 0 <= t < |s.tx| ==> MemOf(s, s.tx[t])
  }

  // ---------------------------------------------------------------- durability

  predicate OpOk(w: Ws, dlast: nat) {
    && (w.wrt.At? ==> w.op == Durable || w.op == Reclaimed)
    && (w.op == Reclaimed ==> LtClk(w.pending, dlast))
  }

  /** Entries of finished checkpoints are durable; the rest belong to this round. */
  predicate EntDurable(s: State, k: nat, e: nat)
    requires k < |s.ck| && e < |s.ck[k].ents|
  {
    && (s.ck[k].ents[e].s <= s.qp.dlast
        || (s.ck[k].ents[e].s == s.qp.qp0 && s.qp.ph.QTrig? && s.qp.mode == Ckpt))
    && (e >= s.ck[k].dur ==> s.ck[k].ents[e].s > s.qp.dlast && k < |s.tj|
                             && (s.tj[k].TScan? || s.tj[k].TDetach?))
  }

  /** The master a crash falls back to: the current one, or the one it replaced
      while its checkpoint is not finished. */
  function CrashMaster(s: State, o: nat): Loc
    requires o < |s.obj|
  {
    var cur := s.obj[o].cur;
    if cur.Entry? && cur.k < |s.ck| && cur.e < |s.ck[cur.k].ents| && s.ck[cur.k].ents[cur.e].s > s.qp.dlast
    then s.ck[cur.k].ents[cur.e].was else cur
  }

  predicate CrashOk(s: State, view: seq<seq<Clk>>, o: nat)
    requires o < |s.obj| && |s.cj| == |s.ck|
  {
    var m := CrashMaster(s, o);
    && o < |view| && !m.Copy?
    && NewestBefore(view[o], MasterVer(s.ck, s.obj[o], m), s.qp.dlast)
    && (m.Entry? ==>
          && m.k < |s.ck| && s.ck[m.k].head <= m.e < |s.ck[m.k].ents| && m.e < s.ck[m.k].dur
          && CkDropLimit(s, m.k) <= m.e
          && s.ck[m.k].ents[m.e].o == o && s.ck[m.k].ents[m.e].s <= s.qp.dlast)
  }

  predicate Ops(ws: seq<Ws>, dlast: nat) {
    forall w :: 0 <= w < |ws| ==> OpOk(ws[w], dlast)
  }

  predicate Crash(s: State, view: seq<seq<Clk>>) {
    && |s.cj| == |s.ck|
    && (forall k, e :: 0 <= k < |s.ck| && 0 <= e < |s.ck[k].ents| ==> EntDurable(s, k, e))
    && (forall o :: 0 <= o < |s.obj| ==> CrashOk(s, view, o))
  }
}
