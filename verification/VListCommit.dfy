/** The steps of the versioned list that allocate, push, give up and commit. */
module VListCommit {
  import opened Options
  import opened VList
  import opened VListInvariant
  import opened VListFrames
  import opened VListSteps

  // ---------------------------------------------------------------- beginning

  lemma BeginGrows(m: Mem, t: nat, op: Op, u: nat)
    requires MemOk(m)
    ensures MemOk(BeginMem(m, t, op)) && Grows(m, BeginMem(m, t, op), u)
  {
    if op.Find? {
      SameGrows(m, u);
    } else if op.Del? {
      RecMem(m, t, u);
    } else {
      var y := m.(recs := m.recs + [FreshRec(t)]);
      RecMem(m, t, u);
      NodeMem(y, t, op.key, u);
      assert BeginMem(m, t, op) == WithNode(y, t, op.key);
      assert Grows(m, BeginMem(m, t, op), u);
    }
  }

  lemma NewUnlisted(m: Mem)
    requires MemOk(m)
    ensures Unlisted(m, |m.nodes|)
  {
    forall j {:trigger m.lists[j]} | 0 <= j < |m.lists| ensures |m.nodes| !in m.lists[j] {
      assert ListOk(m, j);
    }
  }

  lemma BeginInv(s: State, t: nat, op: Op)
    requires Inv(s) && CanBegin(s, t, op)
    ensures Inv(DoBegin(s, t, op))
  {
    var m, x, z := s.m, s.th[t], DoBegin(s, t, op);
    assert ThreadOk(m, x, t);
    BeginGrows(m, t, op, t);
    StandingEpoch(m, x.rec);
    StandingKept(m, z.m, t, x.rec);
    if op.Ins? { NewUnlisted(m); }
    assert NodeGrows(m, z.m, t, HEAD) && NodeGrows(m, z.m, t, TAIL);
    hide MemOk, Grows, Stamped;
    assert ThreadOk(z.m, z.th[t], t);
    StepInv(s, z, t);
  }

  // ---------------------------------------------------------------- pushing

  predicate MayPush(m: Mem, r: nat, n: nat, next: nat, t: nat) {
    && r < |m.recs| && n < |m.nodes| && next < |m.nodes|
    && m.recs[r].pos.None? && m.recs[r].owner == t && !m.recs[r].dead
    && |m.recs[r].nodes| == |m.recs[r].slots| < 2 && n !in m.recs[r].nodes
  }

  lemma PushGrows(m: Mem, r: nat, n: nat, next: nat, t: nat)
    requires MemOk(m) && MayPush(m, r, n, next, t)
    ensures Grows(m, PushMem(m, r, n, next), t)
  {
    var z := PushMem(m, r, n, next);
    assert NewSlot(z, t, |m.slots|);
  }

  lemma PushRec(m: Mem, r: nat, n: nat, next: nat, t: nat)
    requires MemOk(m) && MayPush(m, r, n, next, t)
    ensures RecOk(PushMem(m, r, n, next), r)
  {
    var z := PushMem(m, r, n, next);
    assert RecOk(m, r);
    var c, d := m.recs[r], z.recs[r];
    forall k {:trigger d.slots[k]} | 0 <= k < |d.slots|
      ensures d.nodes[k] < |z.nodes| && d.slots[k] < |z.slots| && z.slots[d.slots[k]].rec == Some(r) && z.slots[d.slots[k]].node == d.nodes[k]
    {
      if k < |c.slots| { assert d.slots[k] == c.slots[k] && d.nodes[k] == c.nodes[k]; }
    }
  }

  lemma PushNode(m: Mem, r: nat, n: nat, next: nat, t: nat)
    requires MemOk(m) && MayPush(m, r, n, next, t)
    ensures NodeOk(PushMem(m, r, n, next), n)
  {
    var z := PushMem(m, r, n, next);
    PushGrows(m, r, n, next, t);
    assert NodeOk(m, n);
    var c, d := m.nodes[n].slots, z.nodes[n].slots;
    forall i {:trigger d[i]} | 0 <= i < |d| ensures d[i] < |z.slots| && z.slots[d[i]].node == n && (i < |c| ==> d[i] == c[i] && SlotPos(z, d[i]) == SlotPos(m, c[i])) {
      if i < |c| { SamePos(m, z, t, c[i]); }
    }
    assert d[0] == c[0];
    forall i, j {:trigger d[i], d[j]} | 0 <= i < j < |d| ensures d[i] < d[j] && InOrder(z, d[i], d[j]) {
      if j < |c| { assert InOrder(m, c[i], c[j]); }
    }
  }

  lemma SamePos(m: Mem, z: Mem, t: nat, x: nat)
    requires MemOk(m) && Grows(m, z, t) && |z.chain| == |m.chain| && x < |m.slots|
    ensures SlotPos(z, x) == SlotPos(m, x) && x < |z.slots| && z.slots[x].node == m.slots[x].node && z.slots[x].rec == m.slots[x].rec
  {
    assert SlotGrows(m, z, x) && SlotOk(m, x);
    if m.slots[x].rec.Some? { assert RecGrows(m, z, t, m.slots[x].rec.value); }
  }

  lemma PushMemOk(m: Mem, r: nat, n: nat, next: nat, t: nat)
    requires MemOk(m) && MayPush(m, r, n, next, t)
    ensures MemOk(PushMem(m, r, n, next)) && Grows(m, PushMem(m, r, n, next), t)
  {
    var z := PushMem(m, r, n, next);
    PushGrows(m, r, n, next, t);
    hide Grows;
    forall q {:trigger InChain(z, q)} | 0 <= q < |z.chain| ensures InChain(z, q) {
      assert InChain(m, q);
      InChainKept(m, z, t, q);
    }
    forall r0 {:trigger RecOk(z, r0)} | 0 <= r0 < |z.recs| ensures RecOk(z, r0) {
      if r0 == r { PushRec(m, r, n, next, t); } else { RecKept(m, z, t, r0) by { assert RecOk(m, r0); } }
    }
    forall x {:trigger SlotOk(z, x)} | 0 <= x < |z.slots| ensures SlotOk(z, x) {
      if x < |m.slots| {
        assert SlotOk(m, x);
      } else {
        assert z.recs[r].slots[|m.recs[r].slots|] == x;
      }
    }
    forall n0 {:trigger NodeOk(z, n0)} | 0 <= n0 < |z.nodes| ensures NodeOk(z, n0) {
      if n0 == n { PushNode(m, r, n, next, t); } else { NodeKept(m, z, t, n0); }
    }
    PastKept(m, z, t);
  }

  lemma PastKept(m: Mem, z: Mem, t: nat)
    requires MemOk(m) && Grows(m, z, t) && z.g == m.g
    ensures forall j {:trigger ListOk(z, j)} :: 0 <= j < |m.lists| ==> ListOk(z, j)
    ensures forall j {:trigger Changed(z, j)} :: 0 < j < |m.lists| ==> Changed(z, j)
    ensures Standing(z, z.g)
  {
    hide ListOk, Changed, Standing;
    forall j {:trigger ListOk(z, j)} | 0 <= j < |m.lists| ensures ListOk(z, j) { ListKept(m, z, t, j); }
    forall j {:trigger Changed(z, j)} | 0 < j < |m.lists| ensures Changed(z, j) { ChangedKept(m, z, t, j); }
    StandingKept(m, z, t, m.g);
  }

  /** The slot just pushed is on top, and nothing above counts. */
  lemma PushAbove(m: Mem, r: nat, n: nat, next: nat, t: nat, b: nat)
    requires MemOk(m) && MayPush(m, r, n, next, t) && Above(m, r, b)
    ensures Above(PushMem(m, r, n, next), r, b)
  {
    var z := PushMem(m, r, n, next);
    PushGrows(m, r, n, next, t);
    forall n0, i, j {:trigger z.nodes[n0].slots[i], z.nodes[n0].slots[j]} | 0 <= n0 < |z.nodes| && 0 <= i < j < |z.nodes[n0].slots|
      ensures AboveOne(z, r, b, z.nodes[n0].slots[i], z.nodes[n0].slots[j])
    {
      assert NodeGrows(m, z, t, n0) && NodeOk(m, n0);
      if j < |m.nodes[n0].slots| {
        assert AboveOne(m, r, b, m.nodes[n0].slots[i], m.nodes[n0].slots[j]);
        SamePos(m, z, t, m.nodes[n0].slots[i]);
        SamePos(m, z, t, m.nodes[n0].slots[j]);
      } else {
        assert NewSlot(z, t, z.nodes[n0].slots[j]);
      }
    }
  }

  /** The nodes a writer changes, and what it lets them point to. */
  lemma WantedFirst(m: Mem, x: Thread, t: nat)
    requires MemOk(m) && ThreadOk(m, x, t) && x.ph == Push && 0 == |m.recs[x.new_rec].nodes|
    ensures MayPush(m, x.new_rec, Target(x, 0), Successor(x, 0), t)
  {
    hide MemOk, Told, Above, Stamped, Unlisted, Adjacent;
  }

  lemma WantedSecond(m: Mem, x: Thread, t: nat)
    requires MemOk(m) && ThreadOk(m, x, t) && x.ph == Push && 1 == |m.recs[x.new_rec].nodes|
    ensures MayPush(m, x.new_rec, Target(x, 1), Successor(x, 1), t)
  {
    hide MemOk, Told, Above, Stamped, Adjacent;
    var c, b := m.recs[x.new_rec], x.epoch - STARTING;
    assert PushedOne(m, x, 0);
    assert x.prev in m.lists[b];
    assert Target(x, 1) != x.prev;
  }

  lemma PushedMore(m: Mem, x: Thread, t: nat, k: nat)
    requires MemOk(m) && Pushed(m, x, k) && k < 2 && MayPush(m, x.new_rec, Target(x, k), Successor(x, k), t)
    ensures Pushed(PushMem(m, x.new_rec, Target(x, k), Successor(x, k)), x, k + 1)
  {
    var n := Target(x, k);
    var z := PushMem(m, x.new_rec, n, Successor(x, k));
    PushGrows(m, x.new_rec, n, Successor(x, k), t);
    forall h {:trigger PushedOne(z, x, h)} | 0 <= h < k + 1 ensures PushedOne(z, x, h) {
      if h < k {
        assert PushedOne(m, x, h);
        var c := m.recs[x.new_rec];
        assert z.recs[x.new_rec].slots[h] == c.slots[h] && z.recs[x.new_rec].nodes[h] == c.nodes[h];
        assert SlotGrows(m, z, c.slots[h]);
        SlotInKept(m, z, t, c.nodes[h], c.slots[h]);
      } else {
        assert z.nodes[n].slots[|m.nodes[n].slots|] == |m.slots|;
      }
    }
  }

  lemma PushInv(s: State, t: nat)
    requires Inv(s) && CanPush(s, t)
    ensures Inv(DoPush(s, t))
  {
    hide Told, OwnNode;
    var m, x, z := s.m, s.th[t], DoPush(s, t);
    assert ThreadOk(m, x, t);
    var k, r, b := |m.recs[x.new_rec].nodes|, x.new_rec, x.epoch - STARTING;
    if k == 0 { WantedFirst(m, x, t); } else { WantedSecond(m, x, t); }
    PushMemOk(m, r, Target(x, k), Successor(x, k), t);
    PushedMore(m, x, t, k);
    PushAbove(m, r, Target(x, k), Successor(x, k), t, b);
    FoundKept(m, z.m, t, x, b);
    PushedThread(m, z.m, x, z.th[t], t, k);
    hide MemOk, Grows, ThreadOk;
    StepInv(s, z, t);
  }

  /** What a writer knows after its push. */
  lemma PushedThread(m: Mem, z: Mem, x: Thread, y: Thread, t: nat, k: nat)
    requires MemOk(m) && ThreadOk(m, x, t) && x.ph == Push && k == |m.recs[x.new_rec].nodes|
    requires MayPush(m, x.new_rec, Target(x, k), Successor(x, k), t)
    requires z == PushMem(m, x.new_rec, Target(x, k), Successor(x, k)) && Grows(m, z, t)
    requires Pushed(z, x, k + 1) && Above(z, x.new_rec, x.epoch - STARTING) && FoundAt(z, x, x.epoch - STARTING)
    requires y == if k == 1 then x.(ph := Commit(x.rec, x.epoch + 1)) else x
    ensures ThreadOk(z, y, t)
  {
    hide Told, Above, Stamped, FoundAt, WalkOk, MemOk, Untouched;
    StandingKept(m, z, t, x.rec);
    if x.out.Some? { ToldKept(m, z, t, x.out.value); }
    assert NodeGrows(m, z, t, HEAD) && NodeGrows(m, z, t, TAIL);
    assert RecGrows(m, z, t, x.new_rec);
    if x.op.Ins? { assert NodeGrows(m, z, t, x.op.node); }
    assert Attempt(z, x) && Attempt(z, y);
    if k == 1 {
      FoundElse(z, x, y, x.epoch - STARTING);
      PushedElse(z, x, y, 2);
      NothingBetween(z, y.new_rec, x.epoch - STARTING);
      assert CommitOk(z, y, x.epoch - STARTING);
      assert At(z, x.rec, x.epoch - STARTING);
      assert PhaseOk(z, y);
    } else {
      assert PhaseOk(z, y);
    }
    assert Standing(z, y.rec) && y.epoch == STARTING + z.recs[y.rec].pos.value;
    assert BoundsOk(z, y);
    assert OwnNode(z, y, t) && OwnRec(z, y, t);
  }

  lemma FoundElse(m: Mem, x: Thread, y: Thread, p: int)
    requires FoundAt(m, x, p) && y == x.(ph := y.ph)
    ensures FoundAt(m, y, p)
  {
  }

  lemma NothingBetween(m: Mem, r: nat, b: int)
    requires r < |m.recs| && b >= 0
    ensures Untouched(m, r, b, b)
  {
  }

  // ---------------------------------------------------------------- giving up

  lemma DeadMem(m: Mem, r: nat, t: nat)
    requires MemOk(m) && r < |m.recs| && m.recs[r].pos.None? && m.recs[r].owner == t
    ensures var z := m.(recs := m.recs[r := m.recs[r].(dead := true)]); MemOk(z) && Grows(m, z, t)
  {
    var z := m.(recs := m.recs[r := m.recs[r].(dead := true)]);
    assert Grows(m, z, t);
    hide Grows;
    forall q {:trigger InChain(z, q)} | 0 <= q < |z.chain| ensures InChain(z, q) {
      assert InChain(m, q);
      InChainKept(m, z, t, q);
    }
    forall r0 {:trigger RecOk(z, r0)} | 0 <= r0 < |z.recs| ensures RecOk(z, r0) { RecKept(m, z, t, r0) by { assert RecOk(m, r0); } }
    forall x {:trigger SlotOk(z, x)} | 0 <= x < |z.slots| ensures SlotOk(z, x) { assert SlotOk(m, x); }
    MemKept(m, z, t);
  }

  /** A pair of neighbours the change does not touch stays one. */
  lemma AdjacentStays(l: seq<nat>, k: seq<nat>, a: nat, b: nat, u: nat, v: nat)
    requires ChangedBy(l, k, a, b) && Adjacent(l, u, v) && u != a && u != b
    ensures Adjacent(k, u, v)
  {
    hide Inserted, Removed, Adjacent;
    if Inserted(l, k, a, b) { AdjacentInserted(l, k, a, b, u, v); } else { AdjacentRemoved(l, k, a, b, u, v); }
  }

  lemma AdjacentInserted(l: seq<nat>, k: seq<nat>, a: nat, b: nat, u: nat, v: nat)
    requires Inserted(l, k, a, b) && Adjacent(l, u, v) && u != a
    ensures Adjacent(k, u, v)
  {
    var h :| 0 <= h && h + 1 < |l| && l[h] == u && l[h + 1] == v;
    var i :| 0 <= i && i + 1 < |l| && l[i] == a && k == l[..i + 1] + [b] + l[i + 1..];
    var g := if h < i then h else h + 1;
    assert k[g] == u && k[g + 1] == v;
  }

  lemma AdjacentRemoved(l: seq<nat>, k: seq<nat>, a: nat, b: nat, u: nat, v: nat)
    requires Removed(l, k, a, b) && Adjacent(l, u, v) && u != a && u != b
    ensures Adjacent(k, u, v)
  {
    var h :| 0 <= h && h + 1 < |l| && l[h] == u && l[h + 1] == v;
    var i :| 0 <= i && i + 1 < |l| && l[i] == a && l[i + 1] == b && k == l[..i + 1] + l[i + 2..];
    var g := if h < i then h else h - 1;
    assert k[g] == u && k[g + 1] == v;
  }

  /** Without a conflict the writer's choice is still right one place further on. */
  lemma FoundNext(m: Mem, x: Thread, p: int)
    requires MemOk(m) && FoundAt(m, x, p) && Pushed(m, x, 2) && p + 1 < |m.chain|
    requires m.chain[p + 1] < |m.recs| && !Conflict(m.recs[x.new_rec], m.recs[m.chain[p + 1]])
    ensures FoundAt(m, x, p + 1)
  {
    assert Changed(m, p + 1);
    var c, d := m.recs[x.new_rec], m.recs[m.chain[p + 1]];
    assert PushedOne(m, x, 0) && PushedOne(m, x, 1);
    assert c.nodes[0] != d.nodes[0] && c.nodes[0] != d.nodes[1] && c.nodes[1] != d.nodes[0] && c.nodes[1] != d.nodes[1];
    var l, k := m.lists[p], m.lists[p + 1];
    AdjacentStays(l, k, d.nodes[0], d.nodes[1], x.prev, x.cur.value);
    if x.op.Del? { AdjacentStays(l, k, d.nodes[0], d.nodes[1], x.cur.value, x.after); }
  }

  lemma CheckInv(s: State, t: nat)
    requires Inv(s) && CanCheck(s, t)
    ensures Inv(DoCheck(s, t))
  {
    hide Told, OwnNode, Above;
    var m, x := s.m, s.th[t];
    assert ThreadOk(m, x, t);
    var q := x.ph.e - STARTING - 1;
    ScanEnds(m, x.ph.r, q);
    if Conflict(m.recs[x.new_rec], m.recs[m.chain[q + 1]]) { GiveUp(s, t); } else { GoOn(s, t); }
  }

  lemma GiveUp(s: State, t: nat)
    requires Inv(s) && CanCheck(s, t) && Conflict(s.m.recs[s.th[t].new_rec], s.m.recs[s.m.recs[s.th[t].ph.r].next.value])
    ensures Inv(DoCheck(s, t))
  {
    hide Told, Above, Conflict, Stamped, WalkOk, Unlisted;
    var m, x, z := s.m, s.th[t], DoCheck(s, t);
    assert ThreadOk(m, x, t);
    DeadMem(m, x.new_rec, t);
    StandingKept(m, z.m, t, x.rec);
    if x.out.Some? { ToldKept(m, z.m, t, x.out.value); }
    assert ThreadOk(z.m, z.th[t], t) by { hide MemOk, Grows; UnlistedSame(m, z.m, x.op); }
    hide MemOk, Grows, ThreadOk;
    StepInv(s, z, t);
  }

  lemma UnlistedSame(m: Mem, z: Mem, op: Op)
    requires z.lists == m.lists && (op.Ins? ==> Unlisted(m, op.node))
    ensures op.Ins? ==> Unlisted(z, op.node)
  {
  }

  lemma GoOn(s: State, t: nat)
    requires Inv(s) && CanCheck(s, t) && !Conflict(s.m.recs[s.th[t].new_rec], s.m.recs[s.m.recs[s.th[t].ph.r].next.value])
    ensures Inv(DoCheck(s, t))
  {
    hide Told, OwnNode, Above, Conflict;
    var m, x, y := s.m, s.th[t], DoCheck(s, t).th[t];
    assert ThreadOk(m, x, t);
    var q := x.ph.e - STARTING - 1;
    ScanEnds(m, x.ph.r, q);
    FoundNext(m, x, q);
    UntouchedNext(m, x.new_rec, x.epoch - STARTING, q);
    assert CommitOk(m, x, q + 1);
    CommitGoesOn(m, x, y, q + 1);
    hide CommitOk, MemOk, Stamped;
    assert OwnNode(m, y, t) by { OwnElse(m, x, y, t); }
    ThreadStep(s, t, y);
  }

  lemma OwnElse(m: Mem, x: Thread, y: Thread, t: nat)
    requires OwnNode(m, x, t) && y.op == x.op
    ensures OwnNode(m, y, t)
  {
  }

  lemma UntouchedNext(m: Mem, r: nat, b: nat, q: int)
    requires 0 <= q && Untouched(m, r, b, q) && q + 1 < |m.chain| && m.chain[q + 1] < |m.recs| && !Conflict(m.recs[r], m.recs[m.chain[q + 1]])
    ensures Untouched(m, r, b, q + 1)
  {
  }

  lemma UndoInv(s: State, t: nat)
    requires Inv(s) && CanUndo(s, t)
    ensures Inv(DoUndo(s, t))
  {
    hide Told, MemOk;
    assert ThreadOk(s.m, s.th[t], t);
    if s.th[t].ph.k == 0 { UndoFirst(s, t); } else { Retry(s, t); }
  }

  lemma UndoFirst(s: State, t: nat)
    requires Inv(s) && CanUndo(s, t) && s.th[t].ph.k == 0
    ensures Inv(DoUndo(s, t))
  {
    hide Told;
    var m, x, z := s.m, s.th[t], DoUndo(s, t);
    assert ThreadOk(m, x, t) && RecOk(m, x.new_rec);
    var i := m.recs[x.new_rec].slots[0];
    SlotMem(m, i, INACTIVE, t);
    SlotMem(m, i, INACTIVE, t + 1);
    ThreadKept(m, z.m, t + 1, x, t);
    hide MemOk, Grows, Stamped;
    StepInv(s, z, t);
  }

  lemma Retry(s: State, t: nat)
    requires Inv(s) && CanUndo(s, t) && s.th[t].ph.k == 1
    ensures Inv(DoUndo(s, t))
  {
    hide Told, Stamped;
    var m, x, z := s.m, s.th[t], DoUndo(s, t);
    assert ThreadOk(m, x, t) && RecOk(m, x.new_rec);
    var i := m.recs[x.new_rec].slots[1];
    SlotMem(m, i, INACTIVE, t);
    RecMem(SlotEpoch(m, i, INACTIVE), t, t);
    UndoGrows(m, i, t);
    hide SlotEpoch;
    StandingEpoch(m, x.rec);
    StandingKept(m, z.m, t, x.rec);
    if x.out.Some? { ToldKept(m, z.m, t, x.out.value); }
    assert NodeGrows(m, z.m, t, HEAD) && NodeGrows(m, z.m, t, TAIL);
    if x.op.Ins? { assert NodeGrows(m, z.m, t, x.op.node); }
    UnlistedSame(m, z.m, x.op) by { SlotLists(m, i); }
    hide MemOk, Grows;
    assert ThreadOk(z.m, z.th[t], t);
    hide ThreadOk;
    StepInv(s, z, t);
  }

  lemma SlotLists(m: Mem, i: nat)
    requires i < |m.slots|
    ensures SlotEpoch(m, i, INACTIVE).lists == m.lists
  {
  }

  lemma UndoGrows(m: Mem, i: nat, t: nat)
    requires MemOk(m) && i < |m.slots|
    ensures var y := SlotEpoch(m, i, INACTIVE); Grows(m, y.(recs := y.recs + [FreshRec(t)]), t)
  {
  }

  // ---------------------------------------------------------------- g_committed_rec

  lemma AdvertiseInv(s: State, t: nat)
    requires Inv(s) && CanAdvertise(s, t)
    ensures Inv(DoAdvertise(s, t))
  {
    hide Told;
    var m, x, z := s.m, s.th[t], DoAdvertise(s, t);
    assert ThreadOk(m, x, t);
    AdvertiseMem(m, x.rec, t);
    AdvertiseMem(m, x.rec, t + 1);
    ThreadKept(m, z.m, t + 1, x, t);
    hide MemOk, Grows, ThreadOk;
    StepInv(s, z, t);
  }

  lemma AdvertiseMem(m: Mem, r: nat, t: nat)
    requires MemOk(m) && Standing(m, r)
    ensures MemOk(m.(g := r)) && Grows(m, m.(g := r), t)
  {
    var z := m.(g := r);
    assert Grows(m, z, t);
    hide Grows;
    forall q {:trigger InChain(z, q)} | 0 <= q < |z.chain| ensures InChain(z, q) {
      assert InChain(m, q);
      InChainKept(m, z, t, q);
    }
    forall r0 {:trigger RecOk(z, r0)} | 0 <= r0 < |z.recs| ensures RecOk(z, r0) { RecKept(m, z, t, r0) by { assert RecOk(m, r0); } }
    forall x {:trigger SlotOk(z, x)} | 0 <= x < |z.slots| ensures SlotOk(z, x) { assert SlotOk(m, x); }
    MemKept(m, z, t);
    StandingKept(m, z, t, r);
  }

  lemma JoinInv(s: State, t: nat)
    requires Inv(s) && CanJoin(s, t)
    ensures Inv(DoJoin(s, t))
  {
    assert ThreadOk(s.m, s.th[t], t);
    StandingEpoch(s.m, s.m.g);
    ThreadStep(s, t, DoJoin(s, t).th[t]);
  }
}
