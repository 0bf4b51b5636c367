/** Linear version history: the part of the invariant that ties version chains,
    locks, write sets, logs and transactions together. */
module History {
  import opened Options
  import opened Ordo
  import opened Protocol

  // ---------------------------------------------------------------- versions and write sets

  /** Version i of object o is copy k of write set w, and carries a commit clock exactly
      when it has been unlocked. */
  predicate VerOk(ob: Obj, o: nat, ws: seq<Ws>, i: nat)
    requires 1 <= i < |ob.vers|
  {
    var v := ob.vers[i];
    && v.w < |ws| && v.k < ws[v.w].inst <= |ws[v.w].items|
    && ws[v.w].items[v.k].o == o && ws[v.w].items[v.k].v == i
    && v.raw == (if v.k < ws[v.w].unl then ws[v.w].pending else Max)
    && (v.k >= ws[v.w].unl ==> i == |ob.vers| - 1 && ob.lock == Some(LockId(v.w, v.k)))
  }

  predicate ObjOk(ob: Obj, o: nat, ws: seq<Ws>) {
    && |ob.vers| >= 1
    && (forall i :: 1 <= i < |ob.vers| ==> VerOk(ob, o, ws, i))
    && (ob.lock.Some? ==>
          var l := ob.lock.value;
          l.w < |ws| && ws[l.w].unl <= l.k < |ws[l.w].items| && ws[l.w].items[l.k].o == o)
  }

  /** A copy of write set w: linked copies point to their version, unreleased ones
      hold the lock. */
  predicate ItemOk(obj: seq<Obj>, ws: seq<Ws>, w: nat, k: nat)
    requires w < |ws| && k < |ws[w].items|
  {
    var it := ws[w].items[k];
    && it.o < |obj|
    && (k < ws[w].inst ==>
          1 <= it.v < |obj[it.o].vers| && obj[it.o].vers[it.v].w == w && obj[it.o].vers[it.v].k == k)
    && (k >= ws[w].unl ==> obj[it.o].lock == Some(LockId(w, k)))
  }

  predicate WsShape(w: Ws) {
    && w.inst <= |w.items| && w.unl <= |w.items| && |w.items| > 0
    && (w.pending.At? ==> w.inst == |w.items|)
    && (w.wrt.At? ==> w.wrt == w.pending)
    && (w.inst > 0 && w.unl > 0 ==> w.wrt.At?)
  }

  predicate WsOk(obj: seq<Obj>, ws: seq<Ws>, w: nat)
    requires w < |ws|
  {
    WsShape(ws[w]) && forall k :: 0 <= k < |ws[w].items| ==> ItemOk(obj, ws, w, k)
  }

  predicate Hist(obj: seq<Obj>, ws: seq<Ws>) {
    && (forall o :: 0 <= o < |obj| ==> ObjOk(obj[o], o, ws))
    && (forall w :: 0 <= w < |ws| ==> WsOk(obj, ws, w))
  }

  /** A linked copy was duplicated from the version below it, and a locked copy not
      linked yet from the newest one. */
  predicate BaseOk(obj: seq<Obj>, w: Ws, k: nat)
    requires k < |w.items|
  {
    var it := w.items[k];
    && (k < w.inst ==> it.base == it.v - 1)
    && (k >= w.unl && k >= w.inst && it.o < |obj| ==> it.base == |obj[it.o].vers| - 1)
  }

  predicate Bases(obj: seq<Obj>, ws: seq<Ws>) {
    forall w, k :: 0 <= w < |ws| && 0 <= k < |ws[w].items| ==> BaseOk(obj, ws[w], k)
  }

  // ---------------------------------------------------------------- transactions and logs

  predicate Fresh(w: Ws) {
    w.pending.Max? && w.wrt.Max? && w.inst == 0 && w.unl == 0
  }

  predicate Finished(w: Ws) {
    w.wrt.At? && w.pending.At? && w.unl == |w.items|
  }

  predicate PhaseOk(x: Tx, ws: seq<Ws>)
    requires x.ws.Some? ==> x.ws.value < |ws|
  {
    match x.ph
    case Idle => x.ws.None? && x.refs == {}
    case Begun => x.ws.None? && x.refs == {}
    case Running => x.ws.Some? ==> Fresh(ws[x.ws.value])
    case Installing => x.ws.Some? && ws[x.ws.value].pending.Max? && ws[x.ws.value].wrt.Max?
                       && ws[x.ws.value].unl == 0
    case Stamped => x.ws.Some? && ws[x.ws.value].pending.At? && ws[x.ws.value].wrt.Max?
                    && ws[x.ws.value].unl == 0
                    && Gt(ws[x.ws.value].pending.c, x.lclk + ORDO_BOUNDARY)
    case Unlocking => x.ws.Some? && ws[x.ws.value].pending.At? && ws[x.ws.value].wrt.At?
                      && Gt(ws[x.ws.value].pending.c, x.lclk + ORDO_BOUNDARY)
    case Aborting => x.ws.Some? && ws[x.ws.value].pending.Max? && ws[x.ws.value].wrt.Max?
                     && ws[x.ws.value].inst == 0 && x.refs == {}
  }

  /** Thread t, its current write set and the end of its tvlog. */
  predicate TxOk(t: nat, x: Tx, ws: seq<Ws>, lg: TvLog) {
    && (x.run % 2 == 1 <==> x.ph != Idle && x.ph != Aborting)
    && (x.rd != NoRead ==> x.ph == Running)
    && (x.ph in {Idle, Begun, Aborting} ==> x.look == NoLook)
    && x.lclk <= x.last
    && (x.ph in {Running, Installing} ==> x.last == x.lclk)
    && (x.ws.Some? ==> x.ws.value < |ws| && ws[x.ws.value].t == t
                       && |lg.ids| > 0 && lg.ids[|lg.ids| - 1] == x.ws.value)
    && PhaseOk(x, ws)
  }

  /** Commit clock and published clock of the write set at position p. */
  function StampAt(ws: seq<Ws>, lg: TvLog, p: nat): Clk {
    if p < |lg.ids| && lg.ids[p] < |ws| then ws[lg.ids[p]].pending else Max
  }

  function WrtAt(ws: seq<Ws>, lg: TvLog, p: nat): Clk {
    if p < |lg.ids| && lg.ids[p] < |ws| then ws[lg.ids[p]].wrt else Max
  }

  predicate LogEntryOk(t: nat, x: Tx, ws: seq<Ws>, lg: TvLog, p: nat)
    requires p < |lg.ids|
  {
    && lg.ids[p] < |ws| && ws[lg.ids[p]].t == t && ws[lg.ids[p]].pos == p
    && (p < |lg.ids| - 1 || x.ws.None? ==> Finished(ws[lg.ids[p]]))
    && (ws[lg.ids[p]].pending.At? ==> ws[lg.ids[p]].pending.c <= x.last)
  }

  /** Every position of the tvlog holds a write set of this thread, all finished
      but possibly the last; the part before prev is committed. */
  predicate LogOk(t: nat, x: Tx, ws: seq<Ws>, lg: TvLog) {
    && (forall p :: 0 <= p < |lg.ids| ==> LogEntryOk(t, x, ws, lg, p))
    && (forall p, q :: 0 <= p < q < |lg.ids| && StampAt(ws, lg, q).At? ==>
          StampAt(ws, lg, p).At? && StampAt(ws, lg, p).c < StampAt(ws, lg, q).c)
    && lg.head <= lg.prev <= |lg.ids|
    && (forall p :: 0 <= p < lg.prev ==> WrtAt(ws, lg, p).At?)
  }

  /** A write set with a linked copy sits in its thread's log, and any write set is its
      thread's current one as long as some copy is still locked. */
  predicate Placed(tx: seq<Tx>, log: seq<TvLog>, w: Ws, id: nat) {
    && w.t < |tx| && w.t < |log|
    && (w.inst > 0 ==> w.pos < |log[w.t].ids| && log[w.t].ids[w.pos] == id)
    && (w.unl < |w.items| ==> tx[w.t].ws == Some(id))
  }

  predicate Txs(tx: seq<Tx>, ws: seq<Ws>, log: seq<TvLog>) {
    && |tx| == |log|
    && (forall t :: 0 <= t < |tx| ==> TxOk(t, tx[t], ws, log[t]))
    && (forall t :: 0 <= t < |tx| ==> LogOk(t, tx[t], ws, log[t]))
    && (forall w :: 0 <= w < |ws| ==> Placed(tx, log, ws[w], w))
  }

  // ---------------------------------------------------------------- clocks

  /** Commit clocks grow along a version chain, by more than the window needed to
      tell neighbours apart; only the newest version can be without one. */
  predicate GapsOf(c: seq<Clk>) {
    forall i, j :: 1 <= i < j < |c| && c[j].At? ==>
      c[i].At? && c[i].c + 3 * ORDO_BOUNDARY < c[j].c
  }

  predicate Gaps(view: seq<seq<Clk>>) {
    forall o :: 0 <= o < |view| ==> GapsOf(view[o])
  }

  /** The version a locked copy is, or will be, linked above: the one below it, or the
      newest of n. */
  function Under(w: Ws, k: nat, n: nat): nat
    requires k < |w.items|
  {
    var m := if k < w.inst then w.items[k].v else n;
    if m > 0 then m - 1 else 0
  }

  predicate UnderSeen(view: seq<seq<Clk>>, w: Ws, k: nat, l: nat)
    requires k < |w.items|
  {
    w.items[k].o < |view| && Seen(view[w.items[k].o], Under(w, k, |view[w.items[k].o]|), l)
  }

  /** A transaction sees every version its copies come to lie on. */
  predicate BelowSeenBy(x: Tx, view: seq<seq<Clk>>, ws: seq<Ws>) {
    x.ph in {Running, Installing} && x.ws.Some? && x.ws.value < |ws| ==>
      forall k :: 0 <= k < |ws[x.ws.value].items| ==> UnderSeen(view, ws[x.ws.value], k, x.lclk)
  }

  predicate BelowSeen(tx: seq<Tx>, view: seq<seq<Clk>>, ws: seq<Ws>) {
    forall t :: 0 <= t < |tx| ==> BelowSeenBy(tx[t], view, ws)
  }

  predicate Clocks(hi: nat, tx: seq<Tx>, ws: seq<Ws>, qp: Qp) {
    && (forall t :: 0 <= t < |tx| ==> tx[t].last <= hi)
    && (forall w :: 0 <= w < |ws| && ws[w].pending.At? ==> ws[w].pending.c <= hi)
    && qp.qp0 + ORDO_BOUNDARY <= hi
    && qp.clk <= hi && qp.fence <= hi
    && qp.last <= qp.dlast <= qp.qp0
  }
}
