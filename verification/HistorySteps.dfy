/** Every action keeps the version history linear. */
module HistorySteps {
  import opened Options
  import opened Ordo
  import opened Protocol
  import opened History

  // ---------------------------------------------------------------- version chains

  lemma LockTakeObjs(s: State, t: nat)
    requires Hist(s.obj, s.ws) && CanLockTake(s, t)
    requires s.tx[t].ws.Some? ==> s.ws[s.tx[t].ws.value].unl == 0
    ensures var z := DoLockTake(s, t);
            forall o :: 0 <= o < |z.obj| ==> ObjOk(z.obj[o], o, z.ws)
  {
    var z := DoLockTake(s, t);
    if s.tx[t].ws.Some? {
      assert WsOk(s.obj, s.ws, s.tx[t].ws.value);
    }
    forall o | 0 <= o < |z.obj| ensures ObjOk(z.obj[o], o, z.ws) {
      assert ObjOk(s.obj[o], o, s.ws);
      forall i | 1 <= i < |z.obj[o].vers| ensures VerOk(z.obj[o], o, z.ws, i) {
        assert VerOk(s.obj[o], o, s.ws, i);
      }
    }
  }

  lemma LockTakeItems(s: State, t: nat)
    requires Hist(s.obj, s.ws) && CanLockTake(s, t)
    requires s.tx[t].ws.Some? ==> Fresh(s.ws[s.tx[t].ws.value])
    ensures var z := DoLockTake(s, t);
            forall w :: 0 <= w < |z.ws| ==> WsOk(z.obj, z.ws, w)
  {
    var z := DoLockTake(s, t);
    forall w | 0 <= w < |z.ws| ensures WsOk(z.obj, z.ws, w) {
      assert w < |s.ws| ==> WsOk(s.obj, s.ws, w);
      forall k | 0 <= k < |z.ws[w].items| ensures ItemOk(z.obj, z.ws, w, k) {
        assert w < |s.ws| && k < |s.ws[w].items| ==> ItemOk(s.obj, s.ws, w, k);
      }
    }
  }

  lemma InstallObjs(s: State, t: nat)
    requires Hist(s.obj, s.ws) && CanCommitInstall(s, t) && CurWs(s, t).unl == 0
    ensures var z := DoCommitInstall(s, t);
            forall o :: 0 <= o < |z.obj| ==> ObjOk(z.obj[o], o, z.ws)
  {
    var z := DoCommitInstall(s, t);
    var w0 := s.tx[t].ws.value;
    assert WsOk(s.obj, s.ws, w0) && ItemOk(s.obj, s.ws, w0, s.ws[w0].inst);
    forall o | 0 <= o < |z.obj| ensures ObjOk(z.obj[o], o, z.ws) {
      assert ObjOk(s.obj[o], o, s.ws);
      forall i | 1 <= i < |z.obj[o].vers| ensures VerOk(z.obj[o], o, z.ws, i) {
        assert i < |s.obj[o].vers| ==> VerOk(s.obj[o], o, s.ws, i);
      }
    }
  }

  lemma InstallItems(s: State, t: nat)
    requires Hist(s.obj, s.ws) && CanCommitInstall(s, t)
    requires CurWs(s, t).unl == 0 && CurWs(s, t).pending.Max?
    ensures var z := DoCommitInstall(s, t);
            forall w :: 0 <= w < |z.ws| ==> WsOk(z.obj, z.ws, w)
  {
    var z := DoCommitInstall(s, t);
    var w0 := s.tx[t].ws.value;
    assert WsOk(s.obj, s.ws, w0) && ItemOk(s.obj, s.ws, w0, s.ws[w0].inst);
    forall w | 0 <= w < |z.ws| ensures WsOk(z.obj, z.ws, w) {
      assert WsOk(s.obj, s.ws, w);
      forall k | 0 <= k < |z.ws[w].items| ensures ItemOk(z.obj, z.ws, w, k) {
        assert ItemOk(s.obj, s.ws, w, k);
      }
    }
  }

  /** A new lock is on an object nobody else has locked. */
  lemma LockTakeBases(s: State, t: nat)
    requires Hist(s.obj, s.ws) && Bases(s.obj, s.ws) && CanLockTake(s, t)
    requires s.tx[t].ws.Some? ==> Fresh(s.ws[s.tx[t].ws.value])
    requires var ob := s.obj[s.tx[t].look.o];
             (if ob.pcopy.Some? then ob.pcopy.value else CurVer(s.ck, ob)) == |ob.vers| - 1
    ensures Bases(DoLockTake(s, t).obj, DoLockTake(s, t).ws)
  {
    var z := DoLockTake(s, t);
    forall w, k | 0 <= w < |z.ws| && 0 <= k < |z.ws[w].items| ensures BaseOk(z.obj, z.ws[w], k) {
      assert w < |s.ws| && k < |s.ws[w].items| ==> BaseOk(s.obj, s.ws[w], k);
    }
  }

  /** A copy linked lies on the version it was duplicated from, and no other copy of the
      object waits to be linked. */
  lemma InstallBases(s: State, t: nat)
    requires Hist(s.obj, s.ws) && Bases(s.obj, s.ws) && CanCommitInstall(s, t) && CurWs(s, t).unl == 0
    ensures Bases(DoCommitInstall(s, t).obj, DoCommitInstall(s, t).ws)
  {
    var z, w0 := DoCommitInstall(s, t), s.tx[t].ws.value;
    assert WsOk(s.obj, s.ws, w0) && ItemOk(s.obj, s.ws, w0, s.ws[w0].inst);
    forall w, k | 0 <= w < |z.ws| && 0 <= k < |z.ws[w].items| ensures BaseOk(z.obj, z.ws[w], k) {
      assert WsOk(s.obj, s.ws, w) && ItemOk(s.obj, s.ws, w, k) && BaseOk(s.obj, s.ws[w], k);
    }
  }

  /** Nothing else changes what a copy was duplicated from. */
  lemma BasesStay(obj: seq<Obj>, ws: seq<Ws>, zo: seq<Obj>, zs: seq<Ws>)
    requires Bases(obj, ws) && |zo| == |obj| && |zs| == |ws|
    requires forall o :: 0 <= o < |obj| ==> |zo[o].vers| == |obj[o].vers|
    requires forall w :: 0 <= w < |ws| ==>
      zs[w].items == ws[w].items && zs[w].inst == ws[w].inst && zs[w].unl >= ws[w].unl
    ensures Bases(zo, zs)
  {
    forall w, k | 0 <= w < |zs| && 0 <= k < |zs[w].items| ensures BaseOk(zo, zs[w], k) {
      assert BaseOk(obj, ws[w], k);
    }
  }

  /** Marking, publishing and logging a write set without unlocking anything. */
  lemma MarkHist(obj: seq<Obj>, ws: seq<Ws>, w: nat, x: Ws)
    requires Hist(obj, ws) && w < |ws|
    requires x.items == ws[w].items && x.inst == ws[w].inst && x.unl == ws[w].unl && WsShape(x)
    requires x.unl > 0 && x.inst > 0 ==> x.pending == ws[w].pending
    ensures Hist(obj, ws[w := x])
  {
    var zs := ws[w := x];
    forall o | 0 <= o < |obj| ensures ObjOk(obj[o], o, zs) {
      assert ObjOk(obj[o], o, ws);
      forall i | 1 <= i < |obj[o].vers| ensures VerOk(obj[o], o, zs, i) {
        assert VerOk(obj[o], o, ws, i);
      }
    }
    forall v | 0 <= v < |ws| ensures WsOk(obj, zs, v) {
      assert WsOk(obj, ws, v);
      forall k | 0 <= k < |zs[v].items| ensures ItemOk(obj, zs, v, k) {
        assert ItemOk(obj, ws, v, k);
      }
    }
  }

  lemma UnlockObjs(s: State, t: nat)
    requires Hist(s.obj, s.ws) && CanCommitUnlock(s, t) && CurWs(s, t).wrt.At?
    ensures var z := DoCommitUnlock(s, t);
            forall o :: 0 <= o < |z.obj| ==> ObjOk(z.obj[o], o, z.ws)
  {
    var z := DoCommitUnlock(s, t);
    var w0 := s.tx[t].ws.value;
    assert WsOk(s.obj, s.ws, w0) && ItemOk(s.obj, s.ws, w0, s.ws[w0].unl);
    forall o | 0 <= o < |z.obj| ensures ObjOk(z.obj[o], o, z.ws) {
      assert ObjOk(s.obj[o], o, s.ws);
      forall i | 1 <= i < |z.obj[o].vers| ensures VerOk(z.obj[o], o, z.ws, i) {
        assert VerOk(s.obj[o], o, s.ws, i);
      }
    }
  }

  lemma UnlockItems(s: State, t: nat)
    requires Hist(s.obj, s.ws) && CanCommitUnlock(s, t) && CurWs(s, t).wrt.At?
    ensures var z := DoCommitUnlock(s, t);
            forall w :: 0 <= w < |z.ws| ==> WsOk(z.obj, z.ws, w)
  {
    var z := DoCommitUnlock(s, t);
    var w0 := s.tx[t].ws.value;
    assert WsOk(s.obj, s.ws, w0) && ItemOk(s.obj, s.ws, w0, s.ws[w0].unl);
    forall w | 0 <= w < |z.ws| ensures WsOk(z.obj, z.ws, w) {
      assert WsOk(s.obj, s.ws, w);
      forall k | 0 <= k < |z.ws[w].items| ensures ItemOk(z.obj, z.ws, w, k) {
        assert ItemOk(s.obj, s.ws, w, k);
      }
    }
  }

  lemma AbortUnlockHist(s: State, t: nat)
    requires Hist(s.obj, s.ws) && CanAbortUnlock(s, t) && CurWs(s, t).inst == 0
    ensures Hist(DoAbortUnlock(s, t).obj, DoAbortUnlock(s, t).ws)
  {
    var z := DoAbortUnlock(s, t);
    var w0 := s.tx[t].ws.value;
    assert WsOk(s.obj, s.ws, w0) && ItemOk(s.obj, s.ws, w0, s.ws[w0].unl);
    forall o | 0 <= o < |z.obj| ensures ObjOk(z.obj[o], o, z.ws) {
      assert ObjOk(s.obj[o], o, s.ws);
      forall i | 1 <= i < |z.obj[o].vers| ensures VerOk(z.obj[o], o, z.ws, i) {
        assert VerOk(s.obj[o], o, s.ws, i);
      }
    }
    forall w | 0 <= w < |z.ws| ensures WsOk(z.obj, z.ws, w) {
      assert WsOk(s.obj, s.ws, w);
      forall k | 0 <= k < |z.ws[w].items| ensures ItemOk(z.obj, z.ws, w, k) {
        assert ItemOk(s.obj, s.ws, w, k);
      }
    }
  }

  /** Masters, chain heads and detach marks play no part in the history. */
  lemma MasterHist(obj: seq<Obj>, ws: seq<Ws>, o: nat, x: Obj)
    requires Hist(obj, ws) && o < |obj|
    requires |x.vers| == |obj[o].vers| && x.lock == obj[o].lock
    requires forall i :: 0 <= i < |x.vers| ==>
      x.vers[i].w == obj[o].vers[i].w && x.vers[i].k == obj[o].vers[i].k && x.vers[i].raw == obj[o].vers[i].raw
    ensures Hist(obj[o := x], ws)
  {
    var zo := obj[o := x];
    forall p | 0 <= p < |zo| ensures ObjOk(zo[p], p, ws) {
      assert ObjOk(obj[p], p, ws);
      forall i | 1 <= i < |zo[p].vers| ensures VerOk(zo[p], p, ws, i) {
        assert VerOk(obj[p], p, ws, i);
      }
    }
    forall w | 0 <= w < |ws| ensures WsOk(zo, ws, w) {
      assert WsOk(obj, ws, w);
      forall k | 0 <= k < |ws[w].items| ensures ItemOk(zo, ws, w, k) {
        assert ItemOk(obj, ws, w, k);
      }
    }
  }

  // ---------------------------------------------------------------- transactions and logs

  /** A step of thread t that leaves its write set and its log alone. */
  lemma TxStep(tx: seq<Tx>, ws: seq<Ws>, log: seq<TvLog>, t: nat, x: Tx)
    requires Txs(tx, ws, log) && t < |tx|
    requires x.ws == tx[t].ws && x.last >= tx[t].last && TxOk(t, x, ws, log[t])
    ensures Txs(tx[t := x], ws, log)
  {
    var zx := tx[t := x];
    forall u | 0 <= u < |zx| ensures TxOk(u, zx[u], ws, log[u]) && LogOk(u, zx[u], ws, log[u]) {
      assert TxOk(u, tx[u], ws, log[u]) && LogOk(u, tx[u], ws, log[u]);
      forall p | 0 <= p < |log[u].ids| ensures LogEntryOk(u, zx[u], ws, log[u], p) {
        assert LogEntryOk(u, tx[u], ws, log[u], p);
      }
    }
    forall w | 0 <= w < |ws| ensures Placed(zx, log, ws[w], w) {
      assert Placed(tx, log, ws[w], w);
    }
  }

  /** A log whose write sets keep their clocks stays in order. */
  lemma LogFrame(t: nat, x: Tx, ws: seq<Ws>, lg: TvLog, zx: Tx, zs: seq<Ws>, zl: TvLog)
    requires LogOk(t, x, ws, lg) && |zl.ids| <= |lg.ids| && zl.ids == lg.ids[..|zl.ids|]
    requires forall p :: 0 <= p < |zl.ids| ==> StampAt(zs, zl, p) == StampAt(ws, lg, p)
    requires forall p :: 0 <= p < |zl.ids| ==> WrtAt(zs, zl, p) == WrtAt(ws, lg, p)
    requires forall p :: 0 <= p < |zl.ids| ==> LogEntryOk(t, zx, zs, zl, p)
    requires zl.head == lg.head && zl.prev == lg.prev <= |zl.ids|
    ensures LogOk(t, zx, zs, zl)
  {
  }

  /** The own log when only its last write set changes. */
  lemma WsStepOwn(t: nat, x: Tx, ws: seq<Ws>, lg: TvLog, zx: Tx, w: nat, y: Ws)
    requires LogOk(t, x, ws, lg) && |lg.ids| > 0 && lg.ids[|lg.ids| - 1] == w < |ws|
    requires zx.last >= x.last && y.t == t && y.pos == ws[w].pos && x.ws == zx.ws == Some(w)
    requires y.pending != ws[w].pending ==> y.pending.At? && x.last < y.pending.c <= zx.last
    requires ws[w].wrt.At? ==> y.wrt.At?
    ensures LogOk(t, zx, ws[w := y], lg)
  {
    var zs, n := ws[w := y], |lg.ids|;
    assert LogEntryOk(t, x, ws, lg, n - 1);
    assert StampAt(ws, lg, n - 1) == ws[w].pending && WrtAt(ws, lg, n - 1) == ws[w].wrt;
    forall p | 0 <= p < n
      ensures LogEntryOk(t, zx, zs, lg, p)
      ensures p < n - 1 ==> StampAt(zs, lg, p) == StampAt(ws, lg, p) && StampAt(ws, lg, p).At?
                            && StampAt(ws, lg, p).c <= x.last
      ensures p < n - 1 ==> WrtAt(zs, lg, p) == WrtAt(ws, lg, p)
    {
      assert LogEntryOk(t, x, ws, lg, p);
    }
  }

  /** A step of thread t on its current write set w. */
  lemma WsStep(tx: seq<Tx>, ws: seq<Ws>, log: seq<TvLog>, t: nat, x: Tx, w: nat, y: Ws)
    requires Txs(tx, ws, log) && t < |tx| && w < |ws| && tx[t].ws == x.ws == Some(w)
    requires x.last >= tx[t].last && y.t == t && y.pos == ws[w].pos
    requires TxOk(t, x, ws[w := y], log[t])
    requires y.pending != ws[w].pending ==> y.pending.At? && tx[t].last < y.pending.c <= x.last
    requires ws[w].wrt.At? ==> y.wrt.At?
    ensures Txs(tx[t := x], ws[w := y], log)
  {
    var zx, zs := tx[t := x], ws[w := y];
    assert TxOk(t, tx[t], ws, log[t]) && LogOk(t, tx[t], ws, log[t]);
    var n := |log[t].ids|;
    assert LogEntryOk(t, tx[t], ws, log[t], n - 1);
    forall u | 0 <= u < |zx| ensures TxOk(u, zx[u], zs, log[u]) {
      assert TxOk(u, tx[u], ws, log[u]);
    }
    forall u | 0 <= u < |zx| ensures LogOk(u, zx[u], zs, log[u]) {
      assert LogOk(u, tx[u], ws, log[u]);
      if u == t {
        WsStepOwn(t, tx[t], ws, log[t], x, w, y);
      } else {
        forall p | 0 <= p < |log[u].ids|
          ensures LogEntryOk(u, zx[u], zs, log[u], p)
          ensures StampAt(zs, log[u], p) == StampAt(ws, log[u], p)
          ensures WrtAt(zs, log[u], p) == WrtAt(ws, log[u], p)
        {
          assert LogEntryOk(u, tx[u], ws, log[u], p);
        }
        LogFrame(u, tx[u], ws, log[u], zx[u], zs, log[u]);
      }
    }
    forall v | 0 <= v < |zs| ensures Placed(zx, log, zs[v], v) {
      assert Placed(tx, log, ws[v], v);
    }
  }

  /** The first lock of a transaction appends a write set to the log. */
  lemma NewWsStep(tx: seq<Tx>, ws: seq<Ws>, log: seq<TvLog>, t: nat, x: Tx, y: Ws)
    requires Txs(tx, ws, log) && t < |tx| && tx[t].ws.None? && x.ws == Some(|ws|)
    requires x.last >= tx[t].last && y.t == t && y.pos == |log[t].ids| && Fresh(y)
    requires TxOk(t, x, ws + [y], log[t].(ids := log[t].ids + [|ws|]))
    ensures Txs(tx[t := x], ws + [y], log[t := log[t].(ids := log[t].ids + [|ws|])])
  {
    var zx, zs := tx[t := x], ws + [y];
    var zl := log[t := log[t].(ids := log[t].ids + [|ws|])];
    forall u | 0 <= u < |zx| ensures TxOk(u, zx[u], zs, zl[u]) {
      assert TxOk(u, tx[u], ws, log[u]);
    }
    forall u | 0 <= u < |zx| ensures LogOk(u, zx[u], zs, zl[u]) {
      assert LogOk(u, tx[u], ws, log[u]);
      forall p | 0 <= p < |zl[u].ids|
        ensures LogEntryOk(u, zx[u], zs, zl[u], p)
        ensures p < |log[u].ids| ==> StampAt(zs, zl[u], p) == StampAt(ws, log[u], p)
        ensures p < |log[u].ids| ==> WrtAt(zs, zl[u], p) == WrtAt(ws, log[u], p)
      {
        assert p < |log[u].ids| ==> LogEntryOk(u, tx[u], ws, log[u], p);
      }
    }
    forall v | 0 <= v < |zs| ensures Placed(zx, zl, zs[v], v) {
      assert v < |ws| ==> Placed(tx, log, ws[v], v);
    }
  }

  /** The end of a committed or read-only transaction. */
  lemma EndStep(tx: seq<Tx>, ws: seq<Ws>, log: seq<TvLog>, t: nat, x: Tx)
    requires Txs(tx, ws, log) && t < |tx|
    requires x.ws.None? && x.last >= tx[t].last && TxOk(t, x, ws, log[t])
    requires tx[t].ws.Some? ==> tx[t].ws.value < |ws| && Finished(ws[tx[t].ws.value])
    ensures Txs(tx[t := x], ws, log)
  {
    var zx := tx[t := x];
    assert TxOk(t, tx[t], ws, log[t]);
    forall u | 0 <= u < |zx| ensures TxOk(u, zx[u], ws, log[u]) && LogOk(u, zx[u], ws, log[u]) {
      assert TxOk(u, tx[u], ws, log[u]) && LogOk(u, tx[u], ws, log[u]);
      forall p | 0 <= p < |log[u].ids| ensures LogEntryOk(u, zx[u], ws, log[u], p) {
        assert LogEntryOk(u, tx[u], ws, log[u], p);
      }
    }
    forall w | 0 <= w < |ws| ensures Placed(zx, log, ws[w], w) {
      assert Placed(tx, log, ws[w], w);
    }
  }

  /** The end of an aborted transaction takes its write set off the log. */
  lemma AbortStep(tx: seq<Tx>, ws: seq<Ws>, log: seq<TvLog>, t: nat, x: Tx)
    requires Txs(tx, ws, log) && t < |tx| && |log[t].ids| > 0
    requires tx[t].ws.Some? && tx[t].ph == Aborting
    requires tx[t].ws.value < |ws| && ws[tx[t].ws.value].unl == |ws[tx[t].ws.value].items|
    requires x.ws.None? && x.last == tx[t].last
    requires TxOk(t, x, ws, log[t].(ids := log[t].ids[..|log[t].ids| - 1]))
    ensures Txs(tx[t := x], ws, log[t := log[t].(ids := log[t].ids[..|log[t].ids| - 1])])
  {
    var zx := tx[t := x];
    var zl := log[t := log[t].(ids := log[t].ids[..|log[t].ids| - 1])];
    assert TxOk(t, tx[t], ws, log[t]);
    forall u | 0 <= u < |zx| ensures TxOk(u, zx[u], ws, zl[u]) {
      assert TxOk(u, tx[u], ws, log[u]);
    }
    forall u | 0 <= u < |zx| ensures LogOk(u, zx[u], ws, zl[u]) {
      assert LogOk(u, tx[u], ws, log[u]);
      assert u == t && log[t].prev == |log[t].ids| ==> WrtAt(ws, log[t], |log[t].ids| - 1).At?;
      forall p | 0 <= p < |zl[u].ids|
        ensures LogEntryOk(u, zx[u], ws, zl[u], p)
        ensures StampAt(ws, zl[u], p) == StampAt(ws, log[u], p)
        ensures WrtAt(ws, zl[u], p) == WrtAt(ws, log[u], p)
      {
        assert LogEntryOk(u, tx[u], ws, log[u], p);
      }
      LogFrame(u, tx[u], ws, log[u], zx[u], ws, zl[u]);
    }
    forall w | 0 <= w < |ws| ensures Placed(zx, zl, ws[w], w) {
      assert Placed(tx, log, ws[w], w);
    }
  }

  /** Reclamation moves head and prev over committed write sets. */
  lemma LogStep(tx: seq<Tx>, ws: seq<Ws>, log: seq<TvLog>, t: nat, head: nat, prev: nat)
    requires Txs(tx, ws, log) && t < |tx| && head <= prev <= |log[t].ids|
    requires forall p :: 0 <= p < prev ==> WrtAt(ws, log[t], p).At?
    ensures Txs(tx, ws, log[t := log[t].(head := head, prev := prev)])
  {
    var zl := log[t := log[t].(head := head, prev := prev)];
    forall u | 0 <= u < |tx| ensures TxOk(u, tx[u], ws, zl[u]) && LogOk(u, tx[u], ws, zl[u]) {
      assert TxOk(u, tx[u], ws, log[u]) && LogOk(u, tx[u], ws, log[u]);
      forall p | 0 <= p < |zl[u].ids| ensures LogEntryOk(u, tx[u], ws, zl[u], p) {
        assert LogEntryOk(u, tx[u], ws, log[u], p);
      }
      assert forall p :: 0 <= p < |zl[u].ids| ==> StampAt(ws, zl[u], p) == StampAt(ws, log[u], p);
      assert forall p :: 0 <= p < |zl[u].ids| ==> WrtAt(ws, zl[u], p) == WrtAt(ws, log[u], p);
    }
    forall w | 0 <= w < |ws| ensures Placed(tx, zl, ws[w], w) {
      assert Placed(tx, log, ws[w], w);
    }
  }

  /** The oplog entry of a published write set changes state. */
  lemma OpStep(tx: seq<Tx>, ws: seq<Ws>, log: seq<TvLog>, w: nat, op: OpState)
    requires Txs(tx, ws, log) && w < |ws|
    ensures Txs(tx, ws[w := ws[w].(op := op)], log)
  {
    var zs := ws[w := ws[w].(op := op)];
    forall u | 0 <= u < |tx| ensures TxOk(u, tx[u], zs, log[u]) && LogOk(u, tx[u], zs, log[u]) {
      assert TxOk(u, tx[u], ws, log[u]) && LogOk(u, tx[u], ws, log[u]);
      forall p | 0 <= p < |log[u].ids| ensures LogEntryOk(u, tx[u], zs, log[u], p) {
        assert LogEntryOk(u, tx[u], ws, log[u], p);
      }
      assert forall p :: 0 <= p < |log[u].ids| ==> StampAt(zs, log[u], p) == StampAt(ws, log[u], p);
      assert forall p :: 0 <= p < |log[u].ids| ==> WrtAt(zs, log[u], p) == WrtAt(ws, log[u], p);
    }
    forall v | 0 <= v < |zs| ensures Placed(tx, log, zs[v], v) {
      assert Placed(tx, log, ws[v], v);
    }
  }
}
