/** Every step of the versioned list keeps its invariant. */
module VListSteps {
  import opened Options
  import opened VList
  import opened VListInvariant
  import opened VListFrames

  // ---------------------------------------------------------------- steps on the thread alone

  lemma SameGrows(m: Mem, t: nat)
    requires MemOk(m)
    ensures Grows(m, m, t)
  {
  }

  lemma ThreadStep(s: State, t: nat, y: Thread)
    requires Inv(s) && t < |s.th| && ThreadOk(s.m, y, t)
    ensures Inv(s.(th := s.th[t := y]))
  {
    hide ThreadOk, MemOk;
    SameGrows(s.m, t);
    StepInv(s, s.(th := s.th[t := y]), t);
  }

  /** A record with a snapshot has its place's epoch. */
  lemma StandingEpoch(m: Mem, r: nat)
    requires MemOk(m) && Standing(m, r)
    ensures m.recs[r].epoch == STARTING + m.recs[r].pos.value && m.recs[r].pos.value < |m.chain|
  {
    assert RecOk(m, r);
    assert m.chain[m.recs[r].pos.value] == r;
  }

  /** Without slots, nothing can be above them. */
  lemma NothingAbove(m: Mem, r: nat, b: nat)
    requires MemOk(m) && r < |m.recs| && |m.recs[r].nodes| == 0
    ensures Above(m, r, b)
  {
    assert RecOk(m, r);
    forall n, i, j {:trigger m.nodes[n].slots[i], m.nodes[n].slots[j]} | 0 <= n < |m.nodes| && 0 <= i < j < |m.nodes[n].slots|
      ensures AboveOne(m, r, b, m.nodes[n].slots[i], m.nodes[n].slots[j])
    {
      var x := m.nodes[n].slots[i];
      if x < |m.slots| { assert SlotOk(m, x); }
    }
  }

  /** The end of the scan is the end of the chain, at that moment. */
  lemma ScanEnds(m: Mem, r: nat, q: int)
    requires MemOk(m) && At(m, r, q)
    ensures q < |m.chain| && m.chain[q] == r
    ensures m.recs[r].next.None? ==> q == |m.chain| - 1
    ensures m.recs[r].next.Some? ==> q + 1 < |m.chain| && m.recs[r].next.value == m.chain[q + 1] && At(m, m.chain[q + 1], q + 1)
    ensures m.recs[r].epoch == INACTIVE || m.recs[r].epoch == STARTING + q
  {
    assert RecOk(m, r) && InChain(m, q);
    if q + 1 < |m.chain| { assert InChain(m, q + 1); }
  }

  lemma HeadFirst(m: Mem, x: Thread, b: nat)
    requires MemOk(m) && b < |m.lists| && x.prev == HEAD && x.cur.None? && BoundsOk(m, x)
    ensures WalkOk(m, x, b)
  {
    assert ListOk(m, b);
    assert m.lists[b][0] == HEAD;
  }

  lemma ScanInv(s: State, t: nat)
    requires Inv(s) && CanScan(s, t)
    ensures Inv(DoScan(s, t))
  {
    var x := s.th[t];
    assert ThreadOk(s.m, x, t);
    var q := x.ph.e - STARTING;
    ScanEnds(s.m, x.ph.r, q);
    var y := DoScan(s, t).th[t];
    if s.m.recs[x.ph.r].next.None? {
      HeadFirst(s.m, y, q);
      if !x.op.Find? { NothingAbove(s.m, x.new_rec, q); }
      assert Attempt(s.m, y);
    }
    ThreadStep(s, t, y);
  }

  lemma StampedOne(m: Mem, r: nat, q: int)
    requires MemOk(m) && At(m, r, q) && Stamped(m, q - 1) && m.recs[r].epoch == STARTING + q
    ensures Stamped(m, q)
  {
    ScanEnds(m, r, q);
  }

  lemma ScanReadInv(s: State, t: nat)
    requires Inv(s) && CanScanRead(s, t)
    ensures Inv(DoScanRead(s, t))
  {
    var x := s.th[t];
    assert ThreadOk(s.m, x, t);
    ScanEnds(s.m, x.ph.r, x.ph.e - STARTING);
    if s.m.recs[x.ph.r].epoch != INACTIVE { StampedOne(s.m, x.ph.r, x.ph.e - STARTING); }
    ThreadStep(s, t, DoScanRead(s, t).th[t]);
  }

  lemma LoadInv(s: State, t: nat)
    requires Inv(s) && CanLoad(s, t)
    ensures Inv(DoLoad(s, t))
  {
    assert ThreadOk(s.m, s.th[t], t);
    ThreadStep(s, t, DoLoad(s, t).th[t]);
  }

  // ---------------------------------------------------------------- reading a slot

  lemma {:induction false} LastIs(m: Mem, n: nat, i: nat, j: nat, k: nat)
    requires n < |m.nodes| && k <= i < |m.nodes[n].slots| && Vis(m, m.nodes[n].slots[k], j)
    requires forall h {:trigger m.nodes[n].slots[h]} :: k < h <= i ==> !Vis(m, m.nodes[n].slots[h], j)
    ensures Last(m, n, i, j) == k
  {
    if k < i { LastIs(m, n, i - 1, j, k); }
  }

  /** What the epochs tell read_slot: an epoch in range means that the slot counts in
      the snapshot, any other that it does not, whoever has stored it and when. */
  lemma EpochDecides(m: Mem, x: nat, v: nat, b: nat, ind: bool)
    requires MemOk(m) && Stamped(m, b) && x < |m.slots| && (ind ==> m.slots[x].rec.Some? && m.slots[x].rec.value < |m.recs|)
    requires v == (if ind then m.recs[m.slots[x].rec.value].epoch else m.slots[x].epoch)
    requires ind || v != INDIRECT
    ensures Vis(m, x, b) <==> STARTING <= v <= STARTING + b
  {
    assert SlotOk(m, x);
    if m.slots[x].rec.Some? {
      var r := m.slots[x].rec.value;
      assert RecOk(m, r);
      if m.recs[r].pos.Some? {
        var q := m.recs[r].pos.value;
        assert InChain(m, q) && m.chain[q] == r;
      }
    }
  }

  /** A slot found belongs to the snapshot: it names the next node of its list. */
  lemma FoundIsNext(m: Mem, x: Thread, n: nat, i: nat)
    requires MemOk(m) && SearchOk(m, x) && SeekOk(m, x) && n == Place(x) && i == x.ph.i
    requires Vis(m, m.nodes[n].slots[i], x.epoch - STARTING)
    ensures m.nodes[n].slots[i] < |m.slots|
    ensures var c := m.slots[m.nodes[n].slots[i]].next; var b := x.epoch - STARTING;
            c < |m.nodes| && Adjacent(m.lists[b], n, c) && m.nodes[n].value < m.nodes[c].value && c in m.lists[b]
  {
    var b := x.epoch - STARTING;
    assert ListOk(m, b) && NodeOk(m, n);
    var l := m.lists[b];
    LastIs(m, n, |m.nodes[n].slots| - 1, b, i);
    assert n in l && m.nodes[n].value < m.nodes[TAIL].value;
    var h :| 0 <= h < |l| && l[h] == n;
    assert h + 1 < |l|;
    assert Follows(m, b, h);
  }

  /** The slot the walk is at, and the epoch read for it. */
  function SlotAt(m: Mem, x: Thread): nat
    requires SeekOk(m, x)
  {
    m.nodes[Place(x)].slots[x.ph.i]
  }

  /** A slot that does not count is passed, and there is one below it. */
  lemma PassOk(m: Mem, x: Thread, t: nat)
    requires MemOk(m) && ThreadOk(m, x, t) && x.ph.Seek? && !Vis(m, SlotAt(m, x), x.epoch - STARTING)
    ensures x.ph.i > 0 && ThreadOk(m, x.(ph := Seek(x.ph.i - 1, false)), t)
  {
    hide Told, Above, Stamped;
    assert NodeOk(m, Place(x));
    var y := x.(ph := Seek(x.ph.i - 1, false));
    assert SeekOk(m, y);
    assert SearchOk(m, y);
  }

  lemma IndirectOk(m: Mem, x: Thread, t: nat)
    requires MemOk(m) && ThreadOk(m, x, t) && x.ph.Seek? && !x.ph.ind && SlotAt(m, x) < |m.slots| && m.slots[SlotAt(m, x)].epoch == INDIRECT
    ensures ThreadOk(m, x.(ph := Seek(x.ph.i, true)), t)
  {
    hide Told, Above, Stamped;
    assert SlotOk(m, SlotAt(m, x));
    assert SearchOk(m, x.(ph := Seek(x.ph.i, true)));
  }

  /** A slot that counts takes the walk on. */
  lemma TakeOk(m: Mem, x: Thread, t: nat)
    requires MemOk(m) && ThreadOk(m, x, t) && x.ph.Seek? && Vis(m, SlotAt(m, x), x.epoch - STARTING)
    ensures SlotAt(m, x) < |m.slots|
    ensures var c := m.slots[SlotAt(m, x)].next;
            c < |m.nodes| && c != Place(x) && ThreadOk(m, Arrive(x, c, m.nodes[c].value), t)
  {
    hide Told, Above, Stamped;
    FoundIsNext(m, x, Place(x), x.ph.i);
    ArriveOk(m, x, t, m.slots[SlotAt(m, x)].next);
  }

  lemma LookInv(s: State, t: nat)
    requires Inv(s) && CanLook(s, t)
    ensures Inv(DoLook(s, t))
  {
    hide MemOk, Arrive, WalkOk, Attempt, Told, OwnNode, OwnRec, Vis;
    var m, x := s.m, s.th[t];
    assert ThreadOk(m, x, t);
    var sl := m.slots[SlotAt(m, x)];
    var v := if x.ph.ind then m.recs[sl.rec.value].epoch else sl.epoch;
    if !x.ph.ind && v == INDIRECT {
      IndirectOk(m, x, t);
    } else {
      EpochDecides(m, SlotAt(m, x), v, x.epoch - STARTING, x.ph.ind);
      if Vis(m, SlotAt(m, x), x.epoch - STARTING) { TakeOk(m, x, t); } else { PassOk(m, x, t); }
    }
    hide ThreadOk;
    ThreadStep(s, t, DoLook(s, t).th[t]);
  }

  /** No key lies between two neighbours. */
  lemma KeyBetween(m: Mem, x: Thread, b: nat, c: nat)
    requires MemOk(m) && b < |m.lists| && Adjacent(m.lists[b], x.prev, c) && c < |m.nodes| && x.prev < |m.nodes|
    requires m.nodes[x.prev].value < x.op.key <= m.nodes[c].value
    ensures x.op.key in Keys(m.nodes, m.lists[b]) <==> x.op.key == m.nodes[c].value
  {
    assert ListOk(m, b);
    var l := m.lists[b];
    var i :| 0 <= i && i + 1 < |l| && l[i] == x.prev && l[i + 1] == c;
    if x.op.key in Keys(m.nodes, l) {
      var n :| n in l && n < |m.nodes| && m.nodes[n].value == x.op.key;
      var h :| 0 <= h < |l| && l[h] == n;
    } else {
      assert c in l;
    }
  }

  lemma ArriveOk(m: Mem, x: Thread, t: nat, c: nat)
    requires MemOk(m) && ThreadOk(m, x, t) && x.ph.Seek? && c < |m.nodes| && x.epoch - STARTING < |m.lists|
    requires Adjacent(m.lists[x.epoch - STARTING], Place(x), c) && c in m.lists[x.epoch - STARTING]
    ensures ThreadOk(m, Arrive(x, c, m.nodes[c].value), t)
  {
    hide Above, Stamped, Keys;
    var b, y := x.epoch - STARTING, Arrive(x, c, m.nodes[c].value);
    if !x.op.Find? { assert RecOk(m, x.new_rec); }
    if x.cur.None? && x.op.key <= m.nodes[c].value { KeyBetween(m, x, b, c); }
  }

  // ---------------------------------------------------------------- epochs

  /** Storing the epoch of its place in a record of the chain, first or again. */
  lemma EpochMem(m: Mem, r: nat, e: nat, t: nat)
    requires MemOk(m) && e >= STARTING && At(m, r, e - STARTING)
    ensures MemOk(WithEpoch(m, r, e)) && Grows(m, WithEpoch(m, r, e), t)
  {
    var z := WithEpoch(m, r, e);
    ScanEnds(m, r, e - STARTING);
    assert Grows(m, z, t);
    hide Grows;
    forall q {:trigger InChain(z, q)} | 0 <= q < |z.chain| ensures InChain(z, q) {
      assert InChain(m, q);
      InChainKept(m, z, t, q);
    }
    forall r0 {:trigger RecOk(z, r0)} | 0 <= r0 < |z.recs| ensures RecOk(z, r0) { RecKept(m, z, t, r0) by { assert RecOk(m, r0); } }
    forall x {:trigger SlotOk(z, x)} | 0 <= x < |z.slots| ensures SlotOk(z, x) { assert SlotOk(m, x); }
    MemKept(m, z, t);
  }

  /** What remains of the memory's invariant when no version changes. */
  lemma MemKept(m: Mem, z: Mem, t: nat)
    requires MemOk(m) && Grows(m, z, t) && z.chain == m.chain && |z.lists| == |m.lists|
    requires |z.nodes| == |m.nodes| && forall n :: 0 <= n < |m.nodes| ==> z.nodes[n].slots == m.nodes[n].slots
    ensures forall n {:trigger NodeOk(z, n)} :: 0 <= n < |z.nodes| ==> NodeOk(z, n)
    ensures forall j {:trigger ListOk(z, j)} :: 0 <= j < |z.lists| ==> ListOk(z, j)
    ensures forall j {:trigger Changed(z, j)} :: 0 < j < |z.lists| ==> Changed(z, j)
    ensures Standing(z, m.g)
  {
    hide ListOk, Changed, NodeOk, Standing;
    forall n {:trigger NodeOk(z, n)} | 0 <= n < |z.nodes| ensures NodeOk(z, n) { NodeKept(m, z, t, n); }
    forall j {:trigger ListOk(z, j)} | 0 <= j < |z.lists| ensures ListOk(z, j) { ListKept(m, z, t, j); }
    forall j {:trigger Changed(z, j)} | 0 < j < |z.lists| ensures Changed(z, j) { ChangedKept(m, z, t, j); }
    StandingKept(m, z, t, m.g);
  }

  lemma ScanStoreInv(s: State, t: nat)
    requires Inv(s) && CanScanStore(s, t)
    ensures Inv(DoScanStore(s, t))
  {
    hide MemOk, Grows, Told, Stamped;
    var m, x, z := s.m, s.th[t], DoScanStore(s, t);
    assert ThreadOk(m, x, t);
    EpochMem(m, x.ph.r, x.ph.e, t);
    EpochMem(m, x.ph.r, x.ph.e, t + 1);
    ThreadKept(m, z.m, t + 1, x, t);
    StampedOne(z.m, x.ph.r, x.ph.e - STARTING);
    StepInv(s, z, t);
  }

  lemma CommitStoreInv(s: State, t: nat)
    requires Inv(s) && CanCommitStore(s, t)
    ensures Inv(DoCommitStore(s, t))
  {
    hide MemOk, Grows, Told, Stamped;
    var m, x, z := s.m, s.th[t], DoCommitStore(s, t);
    assert ThreadOk(m, x, t);
    EpochMem(m, x.ph.r, x.ph.e, t);
    EpochMem(m, x.ph.r, x.ph.e, t + 1);
    ThreadKept(m, z.m, t + 1, x, t);
    StampedOne(z.m, x.ph.r, x.ph.e - STARTING);
    CommitGoesOn(z.m, x, z.th[t], x.ph.e - STARTING);
    StepInv(s, z, t);
  }

  /** The phase is no part of what a committing writer knows. */
  lemma CommitGoesOn(m: Mem, x: Thread, y: Thread, p: int)
    requires CommitOk(m, x, p) && y == x.(ph := y.ph)
    ensures CommitOk(m, y, p)
  {
    PushedElse(m, x, y, 2);
  }

  lemma CommitReadInv(s: State, t: nat)
    requires Inv(s) && CanCommitRead(s, t)
    ensures Inv(DoCommitRead(s, t))
  {
    var m, x, y := s.m, s.th[t], DoCommitRead(s, t).th[t];
    assert ThreadOk(m, x, t);
    var q := x.ph.e - STARTING;
    ScanEnds(m, x.ph.r, q);
    if m.recs[x.ph.r].epoch != INACTIVE { StampedOne(m, x.ph.r, q); }
    CommitGoesOn(m, x, y, q);
    hide Told, CommitOk, Stamped, MemOk;
    ThreadStep(s, t, y);
  }

  lemma StampRecInv(s: State, t: nat)
    requires Inv(s) && CanStampRec(s, t)
    ensures Inv(DoStampRec(s, t))
  {
    hide MemOk, Grows, Told, Stamped;
    var m, x, z := s.m, s.th[t], DoStampRec(s, t);
    assert ThreadOk(m, x, t);
    EpochMem(m, x.new_rec, x.ph.e, t);
    EpochMem(m, x.new_rec, x.ph.e, t + 1);
    ThreadKept(m, z.m, t + 1, x, t);
    StampedOne(z.m, x.new_rec, x.ph.e - STARTING);
    StepInv(s, z, t);
  }

  lemma SlotMem(m: Mem, i: nat, e: nat, t: nat)
    requires MemOk(m) && i < |m.slots| && m.slots[i].rec.Some? && m.slots[i].rec.value < |m.recs|
    requires var r := m.recs[m.slots[i].rec.value]; (e == INACTIVE && r.dead) || (r.pos.Some? && e == STARTING + r.pos.value)
    ensures MemOk(SlotEpoch(m, i, e)) && Grows(m, SlotEpoch(m, i, e), t)
  {
    var z := SlotEpoch(m, i, e);
    assert Grows(m, z, t);
    hide Grows;
    forall q {:trigger InChain(z, q)} | 0 <= q < |z.chain| ensures InChain(z, q) {
      assert InChain(m, q);
      InChainKept(m, z, t, q);
    }
    forall r {:trigger RecOk(z, r)} | 0 <= r < |z.recs| ensures RecOk(z, r) { RecKept(m, z, t, r) by { assert RecOk(m, r); } }
    forall x {:trigger SlotOk(z, x)} | 0 <= x < |z.slots| ensures SlotOk(z, x) { assert SlotOk(m, x); }
    MemKept(m, z, t);
  }

  lemma OwnSlot(m: Mem, r: nat, k: nat)
    requires MemOk(m) && r < |m.recs| && k < |m.recs[r].nodes|
    ensures k < |m.recs[r].slots| && m.recs[r].slots[k] < |m.slots| && m.slots[m.recs[r].slots[k]].rec == Some(r)
  {
    assert RecOk(m, r);
  }

  lemma StampSlotInv(s: State, t: nat)
    requires Inv(s) && CanStampSlot(s, t)
    ensures Inv(DoStampSlot(s, t))
  {
    hide MemOk, Grows, Told, Stamped;
    var m, x, z := s.m, s.th[t], DoStampSlot(s, t);
    assert ThreadOk(m, x, t);
    OwnSlot(m, x.new_rec, x.ph.k);
    var i := m.recs[x.new_rec].slots[x.ph.k];
    SlotMem(m, i, x.ph.e, t);
    SlotMem(m, i, x.ph.e, t + 1);
    ThreadKept(m, z.m, t + 1, x, t);
    StepInv(s, z, t);
  }

  // ---------------------------------------------------------------- new records and nodes

  /** A record just allocated. */
  lemma RecMem(m: Mem, t: nat, u: nat)
    requires MemOk(m)
    ensures var z := m.(recs := m.recs + [FreshRec(t)]); MemOk(z) && Grows(m, z, u)
  {
    var z := m.(recs := m.recs + [FreshRec(t)]);
    assert Grows(m, z, u);
    hide Grows;
    forall q {:trigger InChain(z, q)} | 0 <= q < |z.chain| ensures InChain(z, q) {
      assert InChain(m, q);
      InChainKept(m, z, u, q);
    }
    forall r {:trigger RecOk(z, r)} | 0 <= r < |z.recs| ensures RecOk(z, r) {
      if r < |m.recs| { RecKept(m, z, u, r) by { assert RecOk(m, r); } }
    }
    forall x {:trigger SlotOk(z, x)} | 0 <= x < |z.slots| ensures SlotOk(z, x) { assert SlotOk(m, x); }
    MemKept(m, z, u);
  }

  function WithNode(m: Mem, t: nat, value: int): Mem {
    var n := |m.nodes|;
    m.(nodes := m.nodes + [Node(value, Some(t), [|m.slots|])], slots := m.slots + [Slot(STARTING, n, None, n)])
  }

  /** A node just allocated, with one slot. */
  lemma NodeMem(m: Mem, t: nat, value: int, u: nat)
    requires MemOk(m)
    ensures MemOk(WithNode(m, t, value)) && Grows(m, WithNode(m, t, value), u)
  {
    var z := WithNode(m, t, value);
    assert Grows(m, z, u);
    hide Grows;
    forall q {:trigger InChain(z, q)} | 0 <= q < |z.chain| ensures InChain(z, q) {
      assert InChain(m, q);
      InChainKept(m, z, u, q);
    }
    forall r {:trigger RecOk(z, r)} | 0 <= r < |z.recs| ensures RecOk(z, r) { RecKept(m, z, u, r) by { assert RecOk(m, r); } }
    forall x {:trigger SlotOk(z, x)} | 0 <= x < |z.slots| ensures SlotOk(z, x) {
      if x < |m.slots| { assert SlotOk(m, x); }
    }
    forall n {:trigger NodeOk(z, n)} | 0 <= n < |z.nodes| ensures NodeOk(z, n) {
      if n < |m.nodes| { NodeKept(m, z, u, n); }
    }
    forall j {:trigger ListOk(z, j)} | 0 <= j < |z.lists| ensures ListOk(z, j) { ListKept(m, z, u, j); }
    forall j {:trigger Changed(z, j)} | 0 < j < |z.lists| ensures Changed(z, j) { ChangedKept(m, z, u, j); }
    StandingKept(m, z, u, m.g);
  }
}
