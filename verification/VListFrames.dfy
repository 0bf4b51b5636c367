/** The memory of the versioned list only grows: what a snapshot has seen stays as it
    is, and what other threads know of their own objects stays true. */
module VListFrames {
  import opened Options
  import opened VList
  import opened VListInvariant

  /** A slot just pushed by thread t. */
  predicate NewSlot(z: Mem, t: nat, x: nat) {
    && x < |z.slots| && SlotPos(z, x).None? && z.slots[x].rec.Some? && z.slots[x].rec.value < |z.recs|
    && z.recs[z.slots[x].rec.value].owner == t
  }

  predicate NodeGrows(m: Mem, z: Mem, t: nat, n: nat)
    requires n < |m.nodes|
  {
    && n < |z.nodes| && z.nodes[n].value == m.nodes[n].value && z.nodes[n].owner == m.nodes[n].owner
    && |m.nodes[n].slots| <= |z.nodes[n].slots|
    && (forall i {:trigger z.nodes[n].slots[i]} :: 0 <= i < |m.nodes[n].slots| ==> z.nodes[n].slots[i] == m.nodes[n].slots[i])
    && (forall i {:trigger z.nodes[n].slots[i]} :: |m.nodes[n].slots| <= i < |z.nodes[n].slots| ==> NewSlot(z, t, z.nodes[n].slots[i]))
  }

  predicate SlotGrows(m: Mem, z: Mem, x: nat)
    requires x < |m.slots|
  {
    x < |z.slots| && z.slots[x] == m.slots[x].(epoch := z.slots[x].epoch)
  }

  predicate RecGrows(m: Mem, z: Mem, t: nat, r: nat)
    requires r < |m.recs|
  {
    && r < |z.recs| && z.recs[r].owner == m.recs[r].owner
    && (z.recs[r].pos == m.recs[r].pos
        || (m.recs[r].pos.None? && m.recs[r].owner == t && z.recs[r].pos == Some(|m.chain|) && |z.chain| > |m.chain|))
    && (m.recs[r].pos.Some? || m.recs[r].owner != t ==>
          && z.recs[r].nodes == m.recs[r].nodes && z.recs[r].slots == m.recs[r].slots
          && z.recs[r].dead == m.recs[r].dead && z.recs[r].base == m.recs[r].base)
    && (m.recs[r].epoch != INACTIVE ==> z.recs[r].epoch == m.recs[r].epoch)
  }

  /** Thread t's step from m to z. */
  predicate Grows(m: Mem, z: Mem, t: nat) {
    && |m.nodes| <= |z.nodes| && |m.slots| <= |z.slots| && |m.recs| <= |z.recs|
    && (forall n {:trigger NodeGrows(m, z, t, n)} :: 0 <= n < |m.nodes| ==> NodeGrows(m, z, t, n))
    && (forall x {:trigger SlotGrows(m, z, x)} :: 0 <= x < |m.slots| ==> SlotGrows(m, z, x))
    && (forall r {:trigger RecGrows(m, z, t, r)} :: 0 <= r < |m.recs| ==> RecGrows(m, z, t, r))
    && |m.chain| == |m.lists| <= |z.lists| == |z.chain| && 0 < |m.lists|
    && (forall q {:trigger z.chain[q]} {:trigger m.chain[q]} :: 0 <= q < |m.chain| ==> z.chain[q] == m.chain[q])
    && (forall j {:trigger z.lists[j]} {:trigger m.lists[j]} :: 0 <= j < |m.lists| ==> z.lists[j] == m.lists[j])
    && (forall j, n :: |m.lists| <= j < |z.lists| && n in z.lists[j] ==>
          n in m.lists[|m.lists| - 1] || (n < |z.nodes| && z.nodes[n].owner == Some(t)))
  }

  // ---------------------------------------------------------------- versions

  lemma VisKept(m: Mem, z: Mem, t: nat, x: nat, j: nat)
    requires MemOk(m) && Grows(m, z, t) && x < |m.slots| && j < |m.chain|
    ensures x < |z.slots| && (Vis(z, x, j) <==> Vis(m, x, j))
    ensures SlotPos(m, x).Some? ==> SlotPos(z, x) == SlotPos(m, x)
    ensures SlotPos(m, x).None? && SlotPos(z, x).Some? ==> SlotPos(z, x).value == |m.chain|
  {
    assert SlotOk(m, x) && SlotGrows(m, z, x);
    if m.slots[x].rec.Some? {
      assert RecGrows(m, z, t, m.slots[x].rec.value);
    }
  }

  lemma NodeVis(m: Mem, z: Mem, t: nat, n: nat, i: nat, j: nat)
    requires MemOk(m) && Grows(m, z, t) && n < |m.nodes| && j < |m.chain| && n < |z.nodes| && i < |z.nodes[n].slots|
    ensures i < |m.nodes[n].slots| ==>
      z.nodes[n].slots[i] == m.nodes[n].slots[i] && (Vis(z, z.nodes[n].slots[i], j) <==> Vis(m, m.nodes[n].slots[i], j))
    ensures i >= |m.nodes[n].slots| ==> !Vis(z, z.nodes[n].slots[i], j)
  {
    assert NodeGrows(m, z, t, n) && NodeOk(m, n);
    if i < |m.nodes[n].slots| {
      VisKept(m, z, t, m.nodes[n].slots[i], j);
    } else {
      assert NewSlot(z, t, z.nodes[n].slots[i]);
    }
  }

  lemma {:induction false} LastKept(m: Mem, z: Mem, t: nat, n: nat, i: nat, j: nat)
    requires MemOk(m) && Grows(m, z, t) && n < |m.nodes| && j < |m.chain|
    requires n < |z.nodes| && i < |z.nodes[n].slots| && |m.nodes[n].slots| > 0
    ensures Last(z, n, i, j) == Last(m, n, if i < |m.nodes[n].slots| then i else |m.nodes[n].slots| - 1, j)
  {
    hide MemOk, Grows, Vis;
    NodeVis(m, z, t, n, i, j);
    if i > 0 { LastKept(m, z, t, n, i - 1, j); }
  }

  /** What follows a node in a list of the past does not change. */
  lemma NextKept(m: Mem, z: Mem, t: nat, n: nat, j: nat)
    requires MemOk(m) && Grows(m, z, t) && n < |m.nodes| && j < |m.chain|
    ensures NextAt(z, n, j) == NextAt(m, n, j)
  {
    assert NodeGrows(m, z, t, n) && NodeOk(m, n);
    var i := |z.nodes[n].slots| - 1;
    LastKept(m, z, t, n, i, j);
    var k := Last(m, n, |m.nodes[n].slots| - 1, j);
    assert SlotGrows(m, z, m.nodes[n].slots[k]);
    assert z.nodes[n].slots[k] == m.nodes[n].slots[k] && m.nodes[n].slots[k] < |m.slots|;
    hide MemOk, Grows, Vis;
  }

  lemma ListKept(m: Mem, z: Mem, t: nat, j: nat)
    requires MemOk(m) && Grows(m, z, t) && j < |m.lists|
    ensures ListOk(z, j)
  {
    assert ListOk(m, j);
    var l := m.lists[j];
    assert z.lists[j] == l;
    forall i {:trigger l[i]} | 0 <= i < |l| ensures l[i] < |z.nodes| && z.nodes[l[i]].value == m.nodes[l[i]].value {
      assert NodeGrows(m, z, t, l[i]);
    }
    forall i {:trigger Follows(z, j, i)} | 0 <= i && i + 1 < |l| ensures Follows(z, j, i) {
      assert Follows(m, j, i);
      NextKept(m, z, t, l[i], j);
    }
  }

  lemma ChangedKept(m: Mem, z: Mem, t: nat, j: nat)
    requires MemOk(m) && Grows(m, z, t) && 0 < j < |m.lists|
    ensures Changed(z, j)
  {
    assert Changed(m, j) && InChain(m, j);
    assert RecGrows(m, z, t, m.chain[j]);
    assert z.lists[j] == m.lists[j] && z.lists[j - 1] == m.lists[j - 1] && z.chain[j] == m.chain[j];
  }

  // ---------------------------------------------------------------- records

  lemma StampedKept(m: Mem, z: Mem, t: nat, j: int)
    requires Grows(m, z, t) && Stamped(m, j)
    ensures Stamped(z, j)
  {
    forall q {:trigger z.chain[q]} | 0 <= q <= j ensures z.chain[q] < |z.recs| && z.recs[z.chain[q]].epoch == STARTING + q {
      assert z.chain[q] == m.chain[q];
      assert RecGrows(m, z, t, m.chain[q]);
    }
  }

  lemma AtKept(m: Mem, z: Mem, t: nat, r: nat, p: int)
    requires Grows(m, z, t) && At(m, r, p)
    ensures At(z, r, p)
  {
    assert RecGrows(m, z, t, r);
  }

  lemma StandingKept(m: Mem, z: Mem, t: nat, r: nat)
    requires Grows(m, z, t) && Standing(m, r)
    ensures Standing(z, r) && z.recs[r].pos == m.recs[r].pos
  {
    assert RecGrows(m, z, t, r);
    StampedKept(m, z, t, m.recs[r].pos.value);
  }

  lemma UntouchedKept(m: Mem, z: Mem, t: nat, r: nat, b: nat, p: nat)
    requires MemOk(m) && Grows(m, z, t) && r < |m.recs| && p < |m.chain| && Untouched(m, r, b, p)
    requires m.recs[r].pos.Some? || m.recs[r].owner != t
    ensures Untouched(z, r, b, p)
  {
    assert RecGrows(m, z, t, r);
    forall q {:trigger z.chain[q]} | b < q <= p && q < |z.chain| && z.chain[q] < |z.recs|
      ensures !Conflict(z.recs[r], z.recs[z.chain[q]])
    {
      assert z.chain[q] == m.chain[q] && InChain(m, q);
      assert RecGrows(m, z, t, m.chain[q]);
    }
  }

  lemma InChainKept(m: Mem, z: Mem, t: nat, q: nat)
    requires MemOk(m) && Grows(m, z, t) && q < |m.chain| && m.chain[q] < |z.recs|
    requires z.recs[m.chain[q]].next == (if q + 1 < |z.chain| then Some(z.chain[q + 1]) else None)
    requires z.recs[m.chain[q]].epoch == INACTIVE || z.recs[m.chain[q]].epoch == STARTING + q
    ensures InChain(z, q)
  {
    assert InChain(m, q);
    var c := m.chain[q];
    assert RecGrows(m, z, t, c) && z.chain[q] == c;
    if q > 0 { UntouchedKept(m, z, t, c, m.recs[c].base, q - 1); }
  }

  lemma RecKept(m: Mem, z: Mem, t: nat, r: nat)
    requires MemOk(m) && Grows(m, z, t) && r < |m.recs| && r < |z.recs|
    requires z.recs[r].nodes == m.recs[r].nodes && z.recs[r].slots == m.recs[r].slots
    requires z.recs[r].pos == m.recs[r].pos && (z.recs[r].pos.None? ==> z.recs[r].next.None? && z.recs[r].epoch == INACTIVE)
    ensures RecOk(z, r)
  {
    assert RecOk(m, r);
    var c := m.recs[r];
    forall k {:trigger c.slots[k]} | 0 <= k < |c.slots|
      ensures c.nodes[k] < |z.nodes| && c.slots[k] < |z.slots| && z.slots[c.slots[k]].rec == Some(r) && z.slots[c.slots[k]].node == c.nodes[k]
    {
      assert SlotGrows(m, z, c.slots[k]);
    }
    if c.pos.Some? { assert z.chain[c.pos.value] == m.chain[c.pos.value]; }
  }

  lemma NodeKept(m: Mem, z: Mem, t: nat, n: nat)
    requires MemOk(m) && Grows(m, z, t) && n < |m.nodes| && n < |z.nodes| && z.nodes[n].slots == m.nodes[n].slots
    requires |z.chain| == |m.chain|
    ensures NodeOk(z, n)
  {
    assert NodeOk(m, n);
    var c := m.nodes[n].slots;
    forall i {:trigger c[i]} | 0 <= i < |c| ensures c[i] < |z.slots| && z.slots[c[i]].node == n && SlotPos(z, c[i]) == SlotPos(m, c[i]) {
      assert SlotGrows(m, z, c[i]) && SlotOk(m, c[i]);
      if m.slots[c[i]].rec.Some? { assert RecGrows(m, z, t, m.slots[c[i]].rec.value); }
    }
    assert SlotGrows(m, z, c[0]);
    forall i, j {:trigger c[i], c[j]} | 0 <= i < j < |c| ensures c[i] < c[j] && InOrder(z, c[i], c[j]) {
      assert InOrder(m, c[i], c[j]);
    }
  }

  // ---------------------------------------------------------------- other threads

  lemma KeysKept(m: Mem, z: Mem, t: nat, j: nat)
    requires MemOk(m) && Grows(m, z, t) && j < |m.lists|
    ensures Keys(z.nodes, z.lists[j]) == Keys(m.nodes, m.lists[j])
  {
    assert ListOk(m, j) && z.lists[j] == m.lists[j];
    var l := m.lists[j];
    forall n | n in l ensures n < |m.nodes| && n < |z.nodes| && z.nodes[n].value == m.nodes[n].value {
      var i :| 0 <= i < |l| && l[i] == n;
      assert NodeGrows(m, z, t, n);
    }
    forall k ensures k in Keys(z.nodes, l) <==> k in Keys(m.nodes, l) {
      if k in Keys(m.nodes, l) {
        var n :| n in l && n < |m.nodes| && m.nodes[n].value == k;
        assert z.nodes[n].value == k;
      }
    }
  }

  lemma ToldKept(m: Mem, z: Mem, t: nat, o: Outcome)
    requires MemOk(m) && Grows(m, z, t) && Told(m, o)
    ensures Told(z, o)
  {
    KeysKept(m, z, t, o.at);
    if o.at > 0 { KeysKept(m, z, t, o.at - 1); }
  }

  lemma WalkKept(m: Mem, z: Mem, t: nat, x: Thread, b: nat)
    requires MemOk(m) && Grows(m, z, t) && b < |m.lists| && WalkOk(m, x, b)
    ensures WalkOk(z, x, b)
  {
    assert z.lists[b] == m.lists[b];
    assert NodeGrows(m, z, t, HEAD) && NodeGrows(m, z, t, TAIL) && NodeGrows(m, z, t, x.prev);
    if x.cur.Some? { assert NodeGrows(m, z, t, x.cur.value); }
  }

  lemma FoundKept(m: Mem, z: Mem, t: nat, x: Thread, p: int)
    requires MemOk(m) && Grows(m, z, t) && FoundAt(m, x, p)
    ensures FoundAt(z, x, p)
  {
    WalkKept(m, z, t, x, p);
    assert z.lists[p] == m.lists[p];
  }

  lemma SlotInKept(m: Mem, z: Mem, t: nat, n: nat, x: nat)
    requires Grows(m, z, t) && n < |m.nodes| && x in m.nodes[n].slots
    ensures n < |z.nodes| && x in z.nodes[n].slots
  {
    assert NodeGrows(m, z, t, n);
    var i :| 0 <= i < |m.nodes[n].slots| && m.nodes[n].slots[i] == x;
    assert z.nodes[n].slots[i] == x;
  }

  lemma PushedKept(m: Mem, z: Mem, t: nat, x: Thread, n: nat)
    requires MemOk(m) && Grows(m, z, t) && Pushed(m, x, n) && m.recs[x.new_rec].owner != t
    ensures Pushed(z, x, n)
  {
    var r := m.recs[x.new_rec];
    assert RecGrows(m, z, t, x.new_rec);
    forall k {:trigger PushedOne(z, x, k)} | 0 <= k < n ensures PushedOne(z, x, k) {
      assert PushedOne(m, x, k);
      assert SlotGrows(m, z, r.slots[k]);
      SlotInKept(m, z, t, r.nodes[k], r.slots[k]);
    }
  }

  /** The phase is no part of what a writer has pushed. */
  lemma PushedElse(m: Mem, x: Thread, y: Thread, n: nat)
    requires Pushed(m, x, n) && y == x.(ph := y.ph)
    ensures Pushed(m, y, n)
  {
    forall k {:trigger PushedOne(m, y, k)} | 0 <= k < n ensures PushedOne(m, y, k) { assert PushedOne(m, x, k); }
  }

  lemma AboveKept(m: Mem, z: Mem, t: nat, r: nat, b: nat)
    requires MemOk(m) && Grows(m, z, t) && Above(m, r, b) && r < |m.recs| && m.recs[r].owner != t && b < |m.chain|
    requires forall n :: |m.nodes| <= n < |z.nodes| ==> |z.nodes[n].slots| <= 1
    ensures Above(z, r, b)
  {
    forall n, i, j {:trigger z.nodes[n].slots[i], z.nodes[n].slots[j]} | 0 <= n < |z.nodes| && 0 <= i < j < |z.nodes[n].slots|
      ensures AboveOne(z, r, b, z.nodes[n].slots[i], z.nodes[n].slots[j])
    {
      assert n < |m.nodes|;
      assert NodeGrows(m, z, t, n) && NodeOk(m, n) && RecGrows(m, z, t, r);
      var x, y := z.nodes[n].slots[i], z.nodes[n].slots[j];
      if j >= |m.nodes[n].slots| {
        assert NewSlot(z, t, y);
      } else {
        assert AboveOne(m, r, b, m.nodes[n].slots[i], m.nodes[n].slots[j]);
        VisKept(m, z, t, x, b);
        VisKept(m, z, t, y, b);
        assert SlotGrows(m, z, x);
      }
    }
  }

  lemma PendingKept(m: Mem, z: Mem, t: nat, x: Thread, u: nat)
    requires MemOk(m) && Grows(m, z, t) && Pending(m, x) && OwnRec(m, x, u) && OwnNode(m, x, u) && u != t
    ensures Pending(z, x) && z.recs[x.new_rec].dead == m.recs[x.new_rec].dead && z.recs[x.new_rec].nodes == m.recs[x.new_rec].nodes
  {
    assert RecGrows(m, z, t, x.new_rec);
    if x.op.Ins? {
      assert NodeGrows(m, z, t, x.op.node);
      forall j {:trigger z.lists[j]} | 0 <= j < |z.lists| ensures x.op.node !in z.lists[j] {
        if j < |m.lists| { assert z.lists[j] == m.lists[j]; }
      }
    }
  }

  lemma SeekKept(m: Mem, z: Mem, t: nat, x: Thread)
    requires MemOk(m) && Grows(m, z, t) && SeekOk(m, x) && x.epoch - STARTING < |m.chain|
    ensures SeekOk(z, x)
  {
    var n, b := Place(x), x.epoch - STARTING;
    assert NodeGrows(m, z, t, n) && NodeOk(m, n);
    forall h {:trigger z.nodes[n].slots[h]} | x.ph.i < h < |z.nodes[n].slots| ensures !Vis(z, z.nodes[n].slots[h], b) {
      NodeVis(m, z, t, n, h, b);
      if h < |m.nodes[n].slots| { assert !Vis(m, m.nodes[n].slots[h], b); }
    }
    assert z.nodes[n].slots[x.ph.i] == m.nodes[n].slots[x.ph.i];
    assert SlotGrows(m, z, m.nodes[n].slots[x.ph.i]);
  }

  lemma AttemptKept(m: Mem, z: Mem, t: nat, x: Thread, u: nat)
    requires MemOk(m) && Grows(m, z, t) && Attempt(m, x) && u != t && (!x.op.Find? ==> OwnRec(m, x, u) && OwnNode(m, x, u))
    requires forall n :: |m.nodes| <= n < |z.nodes| ==> |z.nodes[n].slots| <= 1
    ensures Attempt(z, x)
  {
    if !x.op.Find? {
      PendingKept(m, z, t, x, u);
      AboveKept(m, z, t, x.new_rec, x.epoch - STARTING);
    }
  }

  lemma CommitKept(m: Mem, z: Mem, t: nat, x: Thread, u: nat, p: int)
    requires MemOk(m) && Grows(m, z, t) && CommitOk(m, x, p) && u != t && (!x.op.Find? ==> OwnRec(m, x, u) && OwnNode(m, x, u))
    requires forall n :: |m.nodes| <= n < |z.nodes| ==> |z.nodes[n].slots| <= 1
    ensures CommitOk(z, x, p)
  {
    AttemptKept(m, z, t, x, u);
    FoundKept(m, z, t, x, p);
    PushedKept(m, z, t, x, 2);
    UntouchedKept(m, z, t, x.new_rec, x.epoch - STARTING, p);
  }

  lemma ScanKept(m: Mem, z: Mem, t: nat, x: Thread, u: nat)
    requires MemOk(m) && Grows(m, z, t) && PhaseOk(m, x) && u != t && (!x.op.Find? ==> OwnRec(m, x, u) && OwnNode(m, x, u))
    requires x.ph.Scan? || x.ph.ScanRead? || x.ph.ScanStore?
    ensures PhaseOk(z, x)
  {
    hide MemOk, Grows, Stamped, At, Pending, OwnRec, OwnNode;
    var q := x.ph.e - STARTING;
    AtKept(m, z, t, x.ph.r, q);
    StampedKept(m, z, t, if x.ph.Scan? then q else q - 1);
    StartedKept(m, z, t, x, u);
  }

  lemma CommitPhaseKept(m: Mem, z: Mem, t: nat, x: Thread, u: nat)
    requires MemOk(m) && Grows(m, z, t) && PhaseOk(m, x) && u != t && (!x.op.Find? ==> OwnRec(m, x, u) && OwnNode(m, x, u))
    requires x.ph.Commit? || x.ph.CommitRead? || x.ph.CommitStore?
    requires forall n :: |m.nodes| <= n < |z.nodes| ==> |z.nodes[n].slots| <= 1
    ensures PhaseOk(z, x)
  {
    hide MemOk, Grows, Stamped, At, CommitOk, OwnRec, OwnNode;
    var q := if x.ph.Commit? then x.ph.e - STARTING - 1 else x.ph.e - STARTING;
    AtKept(m, z, t, x.ph.r, q);
    StampedKept(m, z, t, x.ph.e - STARTING - 1);
    CommitKept(m, z, t, x, u, q);
  }

  lemma WalkPhaseKept(m: Mem, z: Mem, t: nat, x: Thread, u: nat)
    requires MemOk(m) && Grows(m, z, t) && PhaseOk(m, x) && u != t && (!x.op.Find? ==> OwnRec(m, x, u) && OwnNode(m, x, u))
    requires x.ph.Top? || x.ph.Seek? || x.ph.Push?
    requires forall n :: |m.nodes| <= n < |z.nodes| ==> |z.nodes[n].slots| <= 1
    ensures PhaseOk(z, x)
  {
    hide MemOk, Grows, Attempt, WalkOk, SeekOk, FoundAt, Pushed, OwnRec, OwnNode;
    if x.ph.Push? {
      AttemptKept(m, z, t, x, u);
      FoundKept(m, z, t, x, x.epoch - STARTING);
      OwnRecKept(m, z, t, x, u);
      PushedKept(m, z, t, x, |m.recs[x.new_rec].nodes|);
    } else {
      SearchKept(m, z, t, x, u);
      if x.ph.Seek? { SeekKept(m, z, t, x) by { SearchBase(m, x); } }
    }
  }

  lemma StampKept(m: Mem, z: Mem, t: nat, x: Thread, u: nat)
    requires MemOk(m) && Grows(m, z, t) && PhaseOk(m, x) && u != t && (!x.op.Find? ==> OwnRec(m, x, u) && OwnNode(m, x, u))
    requires x.ph.StampRec? || x.ph.StampSlot? || x.ph.Undo?
    ensures PhaseOk(z, x)
  {
    hide MemOk, Grows, Stamped, Committed, Pending, OwnRec, OwnNode;
    if x.ph.Undo? {
      PendingKept(m, z, t, x, u);
    } else {
      CommittedKept(m, z, t, x, x.ph.e);
      StampedKept(m, z, t, if x.ph.StampRec? then x.ph.e - STARTING - 1 else x.ph.e - STARTING);
    }
  }

  lemma PhaseKept(m: Mem, z: Mem, t: nat, x: Thread, u: nat)
    requires MemOk(m) && Grows(m, z, t) && PhaseOk(m, x) && u != t && (Writing(x) ==> OwnRec(m, x, u) && OwnNode(m, x, u))
    requires forall n :: |m.nodes| <= n < |z.nodes| ==> |z.nodes[n].slots| <= 1
    ensures PhaseOk(z, x)
  {
    if x.ph.Idle? || x.ph.Lost? {
    } else {
      hide MemOk, Grows, PhaseOk, OwnRec, OwnNode;
      if x.ph.Scan? || x.ph.ScanRead? || x.ph.ScanStore? { ScanKept(m, z, t, x, u); }
      else if x.ph.Top? || x.ph.Seek? || x.ph.Push? { WalkPhaseKept(m, z, t, x, u); }
      else if x.ph.Commit? || x.ph.CommitRead? || x.ph.CommitStore? { CommitPhaseKept(m, z, t, x, u); }
      else { StampKept(m, z, t, x, u); }
    }
  }

  lemma OwnRecKept(m: Mem, z: Mem, t: nat, x: Thread, u: nat)
    requires Grows(m, z, t) && OwnRec(m, x, u) && u != t
    ensures x.new_rec < |z.recs| && z.recs[x.new_rec].nodes == m.recs[x.new_rec].nodes && m.recs[x.new_rec].owner == u
    ensures OwnRec(z, x, u)
  {
    assert RecGrows(m, z, t, x.new_rec);
  }

  lemma SearchBase(m: Mem, x: Thread)
    requires MemOk(m) && SearchOk(m, x)
    ensures x.epoch - STARTING < |m.chain|
  {
  }

  lemma StartedKept(m: Mem, z: Mem, t: nat, x: Thread, u: nat)
    requires MemOk(m) && Grows(m, z, t) && Started(m, x) && u != t && (!x.op.Find? ==> OwnRec(m, x, u) && OwnNode(m, x, u))
    ensures Started(z, x)
  {
    if !x.op.Find? { PendingKept(m, z, t, x, u); }
  }

  lemma SearchKept(m: Mem, z: Mem, t: nat, x: Thread, u: nat)
    requires MemOk(m) && Grows(m, z, t) && SearchOk(m, x) && u != t && (!x.op.Find? ==> OwnRec(m, x, u) && OwnNode(m, x, u))
    requires forall n :: |m.nodes| <= n < |z.nodes| ==> |z.nodes[n].slots| <= 1
    ensures SearchOk(z, x)
  {
    AttemptKept(m, z, t, x, u);
    WalkKept(m, z, t, x, x.epoch - STARTING);
    if !x.op.Find? { OwnRecKept(m, z, t, x, u); }
  }

  lemma CommittedKept(m: Mem, z: Mem, t: nat, x: Thread, e: nat)
    requires MemOk(m) && Grows(m, z, t) && Committed(m, x, e)
    ensures Committed(z, x, e)
  {
    AtKept(m, z, t, x.new_rec, e - STARTING);
    assert RecGrows(m, z, t, x.new_rec);
    ToldKept(m, z, t, Outcome(x.op, true, e - STARTING, x.since));
  }

  /** A step of thread t leaves what another thread knows true. */
  lemma ThreadKept(m: Mem, z: Mem, t: nat, x: Thread, u: nat)
    requires MemOk(m) && Grows(m, z, t) && ThreadOk(m, x, u) && u != t
    requires forall n :: |m.nodes| <= n < |z.nodes| ==> |z.nodes[n].slots| <= 1
    ensures ThreadOk(z, x, u)
  {
    hide PhaseOk, Told;
    StandingKept(m, z, t, x.rec);
    if x.out.Some? { ToldKept(m, z, t, x.out.value); }
    assert NodeGrows(m, z, t, HEAD) && NodeGrows(m, z, t, TAIL);
    if Writing(x) {
      OwnRecKept(m, z, t, x, u);
      if x.op.Ins? { assert NodeGrows(m, z, t, x.op.node); }
    }
    PhaseKept(m, z, t, x, u);
  }

  lemma StepInv(s: State, z: State, t: nat)
    requires Inv(s) && t < |s.th| == |z.th| && z.th == s.th[t := z.th[t]]
    requires MemOk(z.m) && Grows(s.m, z.m, t) && ThreadOk(z.m, z.th[t], t)
    requires forall n :: |s.m.nodes| <= n < |z.m.nodes| ==> |z.m.nodes[n].slots| <= 1
    ensures Inv(z)
  {
    hide MemOk, Grows, ThreadOk;
    forall u {:trigger ThreadOk(z.m, z.th[u], u)} | 0 <= u < |z.th| ensures ThreadOk(z.m, z.th[u], u) {
      if u != t {
        assert ThreadOk(s.m, s.th[u], u);
        ThreadKept(s.m, z.m, t, s.th[u], u);
      }
    }
  }
}
