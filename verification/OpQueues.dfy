/** The oplogs as queues: where an operation lies between the heads and tails of its
    thread's oplog decides whether a crash leaves it. */
module OpQueues {
  import opened Options
  import opened Ordo
  import opened Protocol
  import opened History
  import opened Invariant
  import opened Basics
  import opened Runs

  /** Where the entry at position p of an oplog is. */
  function StateAt(q: OpLog, p: nat): OpState {
    if p < q.head then Reclaimed else if p < q.dtail then Durable else Queued
  }

  predicate EntryAt(ws: seq<Ws>, q: OpLog, t: nat, p: nat)
    requires p < |q.ids|
  {
    q.ids[p] < |ws| && ws[q.ids[p]].t == t && ws[q.ids[p]].op == StateAt(q, p)
  }

  /** Heads and tails are in order, every entry is where its write set says, no write
      set has two, and only the one being committed may not be durable yet. */
  predicate QueueOk(ws: seq<Ws>, q: OpLog, x: Tx, t: nat) {
    && q.dhead <= q.head <= q.dtail <= |q.ids| <= q.dtail + 1
    && (forall p {:trigger EntryAt(ws, q, t, p)} :: 0 <= p < |q.ids| ==> EntryAt(ws, q, t, p))
    && (forall p, r :: 0 <= p < r < |q.ids| ==> q.ids[p] != q.ids[r])
    && (|q.ids| > q.dtail ==> x.ph == Stamped && x.ws == Some(q.ids[q.dtail]))
  }

  /** An operation that has been logged is in its thread's queue. */
  predicate Logged(ws: seq<Ws>, oplog: seq<OpLog>, w: nat)
    requires w < |ws|
  {
    ws[w].op != NotLogged ==> ws[w].t < |oplog| && w in oplog[ws[w].t].ids
  }

  predicate Queues(s: State) {
    && |s.oplog| == |s.tx|
    && (forall t {:trigger QueueOk(s.ws, s.oplog[t], s.tx[t], t)} :: 0 <= t < |s.tx| ==> QueueOk(s.ws, s.oplog[t], s.tx[t], t))
    && (forall w {:trigger Logged(s.ws, s.oplog, w)} :: 0 <= w < |s.ws| ==> Logged(s.ws, s.oplog, w))
  }

  /** The operation's entry lies in the persisted range of its thread's oplog. */
  predicate Persisted(s: State, w: nat) {
    w < |s.ws| && s.ws[w].t < |s.oplog|
    && exists p :: s.oplog[s.ws[w].t].dhead <= p < s.oplog[s.ws[w].t].dtail
                   && p < |s.oplog[s.ws[w].t].ids| && s.oplog[s.ws[w].t].ids[p] == w
  }

  /** Durable means exactly: between the head and the durable tail. */
  lemma DurableExact(s: State, w: nat)
    requires Queues(s) && w < |s.ws| && s.ws[w].t < |s.oplog|
    ensures var q := s.oplog[s.ws[w].t];
            s.ws[w].op == Durable <==> exists p :: q.head <= p < q.dtail && p < |q.ids| && q.ids[p] == w
    ensures s.ws[w].op == Durable ==> Persisted(s, w)
  {
    var t := s.ws[w].t;
    var q := s.oplog[t];
    assert QueueOk(s.ws, q, s.tx[t], t) && Logged(s.ws, s.oplog, w);
    if s.ws[w].op == Durable {
      var p :| 0 <= p < |q.ids| && q.ids[p] == w;
      assert EntryAt(s.ws, q, t, p);
    }
    forall p | q.head <= p < q.dtail && p < |q.ids| && q.ids[p] == w ensures s.ws[w].op == Durable {
      assert EntryAt(s.ws, q, t, p);
    }
  }

  /** Once the durable head has followed, what a crash leaves of the queue is exactly what
      is durable: no reclaimed operation is found again. */
  lemma DeqPersistExact(s: State, t: nat, w: nat)
    requires Queues(s) && CanOpDeqPersist(s, t) && w < |s.ws| && s.ws[w].t == t
    ensures var z := DoOpDeqPersist(s, t); Persisted(z, w) <==> z.ws[w].op == Durable
  {
    var z, q := DoOpDeqPersist(s, t), s.oplog[t];
    assert QueueOk(s.ws, q, s.tx[t], t) && z.oplog[t] == q.(dhead := q.head) && z.ws == s.ws;
    DurableExact(s, w);
  }

  /** The oldest operation is reclaimed as soon as its commit clock is before the checkpoint
      clock the thread has been told of, and not earlier: it is published and durable then. */
  lemma ReclaimExact(s: State, t: nat)
    requires Basic(s) && Queues(s) && t < |s.tx|
    ensures t < |s.oplog| && t < |s.clk|
    ensures var q := s.oplog[t];
            CanOpReclaim(s, t) <==>
              q.head < |q.ids| && q.ids[q.head] < |s.ws| && LtClk(s.ws[q.ids[q.head]].pending, s.clk[t].last)
  {
    hide Links, Shapes, Entries, Walks, Gaps, BelowSeen, TJobShape, CJobShape, Detect;
    var q := s.oplog[t];
    assert QueueOk(s.ws, q, s.tx[t], t);
    if q.head < |q.ids| {
      assert EntryAt(s.ws, q, t, q.head);
      var w := q.ids[q.head];
      assert WsOk(s.obj, s.ws, w) && OpOk(s.ws[w], s.qp.dlast);
      if LtClk(s.ws[w].pending, s.clk[t].last) { OldPublished(s, w); }
    }
  }

  /** Whatever was stamped before the grace-period clock is published. */
  lemma OldPublished(s: State, w: nat)
    requires Basic(s) && w < |s.ws| && LtClk(s.ws[w].pending, s.qp.qp0)
    ensures s.ws[w].wrt == s.ws[w].pending
  {
    hide Links, Shapes, Entries, Walks, Gaps, BelowSeen, JobShapes, Detect, Ops;
    assert WsOk(s.obj, s.ws, w) && ItemOk(s.obj, s.ws, w, 0);
    var it := s.ws[w].items[0];
    assert View(s)[it.o][it.v] == s.ws[w].pending;
    Settled(s, it.o, it.v);
  }

  // ---------------------------------------------------------------- steps

  /** What no step but those on the oplogs changes. */
  predicate OpsKept(s: State, z: State) {
    && z.oplog == s.oplog && |z.tx| == |s.tx| && |z.ws| >= |s.ws|
    && (forall w :: 0 <= w < |s.ws| ==> z.ws[w].op == s.ws[w].op && z.ws[w].t == s.ws[w].t)
    && (forall w :: |s.ws| <= w < |z.ws| ==> z.ws[w].op == NotLogged)
    && (forall t :: 0 <= t < |s.tx| && Logging(s, t) ==> z.tx[t].ph == Stamped && z.tx[t].ws == s.tx[t].ws)
  }

  /** The transaction's operation is enqueued and not durable yet. */
  predicate Logging(s: State, t: nat)
    requires t < |s.tx|
  {
    s.tx[t].ph == Stamped && s.tx[t].ws.Some? && s.tx[t].ws.value < |s.ws| && s.ws[s.tx[t].ws.value].op == Queued
  }

  lemma KeptQueues(s: State, z: State)
    requires Queues(s) && OpsKept(s, z)
    ensures Queues(z)
  {
    forall t {:trigger QueueOk(z.ws, z.oplog[t], z.tx[t], t)} | 0 <= t < |z.tx| ensures QueueOk(z.ws, z.oplog[t], z.tx[t], t) {
      var q := s.oplog[t];
      assert QueueOk(s.ws, q, s.tx[t], t);
      forall p {:trigger EntryAt(z.ws, q, t, p)} | 0 <= p < |q.ids| ensures EntryAt(z.ws, q, t, p) {
        assert EntryAt(s.ws, q, t, p);
      }
      if |q.ids| > q.dtail { assert EntryAt(s.ws, q, t, q.dtail); }
    }
    forall w {:trigger Logged(z.ws, z.oplog, w)} | 0 <= w < |z.ws| ensures Logged(z.ws, z.oplog, w) {
      if w < |s.ws| { assert Logged(s.ws, s.oplog, w); }
    }
  }

  lemma OwnChanges(s: State, a: Action, z: State)
    requires OwnNext(s, a, z)
    ensures z.ws == s.ws && z.oplog == s.oplog && a.t < |s.tx| == |z.tx|
    ensures forall u :: 0 <= u < |s.tx| && u != a.t ==> z.tx[u] == s.tx[u]
    ensures s.tx[a.t].ph == Stamped ==> z.tx[a.t].ph == Stamped && z.tx[a.t].ws == s.tx[a.t].ws
  {
  }

  lemma OwnKeeps(s: State, a: Action, z: State)
    requires OwnNext(s, a, z)
    ensures OpsKept(s, z)
  {
    OwnChanges(s, a, z);
    hide OwnNext;
  }

  predicate OpAction(a: Action) {
    a.CommitLog? || a.CommitPersist? || a.OpReclaim? || a.OpDeqPersist?
  }

  /** Every other step on a write set: publishing needs the operation to be durable. */
  lemma WsKeeps(s: State, a: Action, z: State)
    requires WsNext(s, a, z) && !OpAction(a)
    ensures OpsKept(s, z)
  {
    if a.LockTake? { LockKeeps(s, a.t); } else if a.CommitPublish? { PublishKeeps(s, a.t); } else { OtherWsKeeps(s, a, z); }
  }

  lemma LockKeeps(s: State, t: nat)
    requires CanLockTake(s, t)
    ensures OpsKept(s, DoLockTake(s, t))
  {
  }

  lemma PublishKeeps(s: State, t: nat)
    requires CanCommitPublish(s, t)
    ensures OpsKept(s, DoCommitPublish(s, t))
  {
  }

  lemma OtherWsKeeps(s: State, a: Action, z: State)
    requires WsNext(s, a, z) && !OpAction(a) && !a.LockTake? && !a.CommitPublish?
    ensures OpsKept(s, z)
  {
    assert |z.ws| == |s.ws| && forall w :: 0 <= w < |s.ws| ==> z.ws[w].op == s.ws[w].op && z.ws[w].t == s.ws[w].t;
  }

  lemma QpKeeps(s: State, a: Action, z: State)
    requires QpNext(s, a, z)
    ensures OpsKept(s, z)
  {
  }

  lemma ReclaimKeeps(s: State, a: Action, z: State)
    requires TvNextStep(s, a, z) || CkNextStep(s, a, z)
    ensures OpsKept(s, z)
  {
    assert z.oplog == s.oplog && z.tx == s.tx && z.ws == s.ws;
  }

  /** A step on thread t's oplog that changes at most one operation's state. */
  lemma QueueStep(s: State, z: State, t: nat, w: nat)
    requires Queues(s) && t < |s.tx| && w < |s.ws| && s.ws[w].t == t && z.tx == s.tx
    requires |z.ws| == |s.ws| && |z.oplog| == |s.oplog| == |s.tx|
    requires z.ws == s.ws[w := s.ws[w].(op := z.ws[w].op)] && z.oplog == s.oplog[t := z.oplog[t]]
    requires s.oplog[t].ids <= z.oplog[t].ids && QueueOk(z.ws, z.oplog[t], z.tx[t], t)
    requires z.ws[w].op == NotLogged || w in z.oplog[t].ids
    ensures Queues(z)
  {
    forall u {:trigger QueueOk(z.ws, z.oplog[u], z.tx[u], u)} | 0 <= u < |z.tx| ensures QueueOk(z.ws, z.oplog[u], z.tx[u], u) {
      if u != t {
        var q := s.oplog[u];
        assert QueueOk(s.ws, q, s.tx[u], u);
        forall p {:trigger EntryAt(z.ws, q, u, p)} | 0 <= p < |q.ids| ensures EntryAt(z.ws, q, u, p) {
          assert EntryAt(s.ws, q, u, p);
        }
      }
    }
    forall v {:trigger Logged(z.ws, z.oplog, v)} | 0 <= v < |z.ws| ensures Logged(z.ws, z.oplog, v) {
      assert Logged(s.ws, s.oplog, v);
    }
  }

  /** Before an operation is enqueued, all earlier ones are durable. */
  lemma NothingQueued(s: State, t: nat)
    requires Queues(s) && CanCommitLog(s, t)
    ensures QueueOk(s.ws, s.oplog[t], s.tx[t], t) && |s.oplog[t].ids| == s.oplog[t].dtail
  {
    assert QueueOk(s.ws, s.oplog[t], s.tx[t], t);
    LastQueued(s.ws, s.oplog[t], s.tx[t], t);
  }

  lemma LastQueued(ws: seq<Ws>, q: OpLog, x: Tx, t: nat)
    requires QueueOk(ws, q, x, t)
    ensures |q.ids| > q.dtail ==> x.ws.Some? && x.ws.value < |ws| && ws[x.ws.value].op == Queued
  {
    if |q.ids| > q.dtail { assert EntryAt(ws, q, t, q.dtail); }
  }

  lemma LogQueues(s: State, t: nat)
    requires Basic(s) && Queues(s) && CanCommitLog(s, t)
    ensures Queues(DoCommitLog(s, t))
  {
    LocalBasic(s, t);
    var z, w, q := DoCommitLog(s, t), s.tx[t].ws.value, s.oplog[t];
    hide Basic;
    NothingQueued(s, t);
    var zq := z.oplog[t];
    forall p {:trigger EntryAt(z.ws, zq, t, p)} | 0 <= p < |zq.ids| ensures EntryAt(z.ws, zq, t, p) && (p < |q.ids| ==> zq.ids[p] != w) {
      if p < |q.ids| { assert EntryAt(s.ws, q, t, p); }
    }
    forall p, r | 0 <= p < r < |zq.ids| ensures zq.ids[p] != zq.ids[r] {
      assert EntryAt(z.ws, zq, t, p);
    }
    assert zq.ids[|q.ids|] == w;
    QueueStep(s, z, t, w);
  }

  lemma PersistQueues(s: State, t: nat)
    requires Basic(s) && Queues(s) && CanCommitPersist(s, t)
    ensures Queues(DoCommitPersist(s, t))
  {
    LocalBasic(s, t);
    var z, w, q := DoCommitPersist(s, t), s.tx[t].ws.value, s.oplog[t];
    hide Basic;
    assert QueueOk(s.ws, q, s.tx[t], t) && Logged(s.ws, s.oplog, w);
    var i :| 0 <= i < |q.ids| && q.ids[i] == w;
    assert EntryAt(s.ws, q, t, i);
    var zq := z.oplog[t];
    forall p {:trigger EntryAt(z.ws, zq, t, p)} | 0 <= p < |zq.ids| ensures EntryAt(z.ws, zq, t, p) {
      assert EntryAt(s.ws, q, t, p);
    }
    QueueStep(s, z, t, w);
  }

  lemma ReclaimQueues(s: State, t: nat)
    requires Queues(s) && CanOpReclaim(s, t) && t < |s.tx|
    ensures Queues(DoOpReclaim(s, t))
  {
    var z, q := DoOpReclaim(s, t), s.oplog[t];
    var w := q.ids[q.head];
    assert QueueOk(s.ws, q, s.tx[t], t) && EntryAt(s.ws, q, t, q.head);
    var zq := z.oplog[t];
    forall p {:trigger EntryAt(z.ws, zq, t, p)} | 0 <= p < |zq.ids| ensures EntryAt(z.ws, zq, t, p) {
      assert EntryAt(s.ws, q, t, p);
    }
    QueueStep(s, z, t, w);
  }

  lemma DeqPersistQueues(s: State, t: nat)
    requires Queues(s) && CanOpDeqPersist(s, t)
    ensures Queues(DoOpDeqPersist(s, t))
  {
    var z, q := DoOpDeqPersist(s, t), s.oplog[t];
    forall u {:trigger QueueOk(z.ws, z.oplog[u], z.tx[u], u)} | 0 <= u < |z.tx| ensures QueueOk(z.ws, z.oplog[u], z.tx[u], u) {
      assert QueueOk(s.ws, s.oplog[u], s.tx[u], u);
      forall p {:trigger EntryAt(z.ws, z.oplog[u], u, p)} | 0 <= p < |z.oplog[u].ids| ensures EntryAt(z.ws, z.oplog[u], u, p) {
        assert EntryAt(s.ws, s.oplog[u], u, p);
      }
    }
    forall w {:trigger Logged(z.ws, z.oplog, w)} | 0 <= w < |z.ws| ensures Logged(z.ws, z.oplog, w) {
      assert Logged(s.ws, s.oplog, w);
    }
  }

  lemma WsQueues(s: State, a: Action, z: State)
    requires Basic(s) && Queues(s) && WsNext(s, a, z)
    ensures Queues(z)
  {
    if OpAction(a) {
      assert |s.oplog| == |s.tx|;
      hide Basic, Queues, DoCommitLog, DoCommitPersist, DoOpReclaim, DoOpDeqPersist;
      match a {
        case CommitLog(t) => LogQueues(s, t);
        case CommitPersist(t) => PersistQueues(s, t);
        case OpReclaim(t) => ReclaimQueues(s, t);
        case OpDeqPersist(t) => DeqPersistQueues(s, t);
      }
    } else {
      hide Basic, Queues, WsNext;
      WsKeeps(s, a, z);
      KeptQueues(s, z);
    }
  }

  lemma StepQueues(s: State, a: Action, z: State)
    requires Basic(s) && Queues(s) && Next(s, a, z)
    ensures Queues(z)
  {
    hide Basic, Queues, OwnNext, WsNext, QpNext, TvNextStep, CkNextStep, OpsKept;
    if WsNext(s, a, z) {
      WsQueues(s, a, z);
    } else {
      if OwnNext(s, a, z) { OwnKeeps(s, a, z); }
      else if QpNext(s, a, z) { QpKeeps(s, a, z); }
      else { ReclaimKeeps(s, a, z); }
      KeptQueues(s, z);
    }
  }

  lemma {:induction false} RunQueues(ss: seq<State>, acts: seq<Action>, n: nat)
    requires Run(ss, acts) && n < |ss|
    ensures Queues(ss[n])
  {
    hide Basic, Next, Queues;
    if n == 0 {
      InitQueues(ss[0]);
    } else {
      RunQueues(ss, acts, n - 1);
      RunBasic(ss, acts, n - 1);
      assert StepAt(ss, acts, n - 1);
      StepQueues(ss[n - 1], acts[n - 1], ss[n]);
    }
  }

  lemma InitQueues(s: State)
    requires Init(s)
    ensures Queues(s)
  {
  }
}
