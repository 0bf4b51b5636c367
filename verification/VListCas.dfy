/** The commit of the versioned list: appending a record to the chain makes its slots
    count, and the list after it is the operation applied to the list before it. */
module VListCas {
  import opened Options
  import opened VList
  import opened VListInvariant
  import opened VListFrames
  import opened VListSteps
  import opened VListCommit

  /** A writer at the end of the chain. */
  predicate AtEnd(m: Mem, x: Thread, t: nat) {
    && MemOk(m) && x.ph.Commit? && x.ph.r < |m.recs| && m.recs[x.ph.r].next.None?
    && At(m, x.ph.r, |m.chain| - 1) && CommitOk(m, x, |m.chain| - 1)
    && OwnRec(m, x, t) && OwnNode(m, x, t) && x.since <= |m.chain| && x.epoch >= STARTING
  }

  // ---------------------------------------------------------------- the list

  /** Sorted lists hold no node twice. */
  lemma SortedOnce(m: Mem, l: seq<nat>, i: nat, j: nat)
    requires Sorted(m, l) && i < |l| && j < |l| && l[i] == l[j]
    ensures i == j
  {
  }

  lemma IndexIs(m: Mem, l: seq<nat>, a: nat, b: nat)
    requires Sorted(m, l) && Adjacent(l, a, b)
    ensures var i := IndexOf(l, a); i + 1 < |l| && l[i] == a && l[i + 1] == b
  {
    var h :| 0 <= h && h + 1 < |l| && l[h] == a && l[h + 1] == b;
    assert a in l;
    SortedOnce(m, l, h, IndexOf(l, a));
  }

  lemma InsertSorted(m: Mem, l: seq<nat>, k: seq<nat>, i: nat, n: nat)
    requires Sorted(m, l) && i + 1 < |l| && n < |m.nodes| && k == l[..i + 1] + [n] + l[i + 1..]
    requires m.nodes[l[i]].value < m.nodes[n].value < m.nodes[l[i + 1]].value
    ensures Sorted(m, k)
  {
    forall g | 0 <= g < |k| ensures k[g] == (if g <= i then l[g] else if g == i + 1 then n else l[g - 1]) && k[g] < |m.nodes| {
    }
    forall g, h | 0 <= g < h < |k| ensures m.nodes[k[g]].value < m.nodes[k[h]].value {
      if g == i + 1 {
        assert m.nodes[l[i + 1]].value <= m.nodes[l[h - 1]].value;
      } else if h == i + 1 {
        assert m.nodes[l[g]].value <= m.nodes[l[i]].value;
      }
    }
  }

  /** The list after an insertion: sorted, with the new node in place. */
  lemma InsertedOk(m: Mem, x: Thread, l: seq<nat>)
    requires Sorted(m, l) && x.op.Ins? && x.cur.Some? && Adjacent(l, x.prev, x.cur.value) && x.op.node !in l && x.op.node < |m.nodes|
    requires x.prev < |m.nodes| && x.cur.value < |m.nodes|
    requires m.nodes[x.prev].value < m.nodes[x.op.node].value < m.nodes[x.cur.value].value
    ensures Inserted(l, Applied(x, l), x.prev, x.op.node) && Sorted(m, Applied(x, l))
  {
    IndexIs(m, l, x.prev, x.cur.value);
    hide Sorted, Adjacent;
    InsertSorted(m, l, Applied(x, l), IndexOf(l, x.prev), x.op.node);
  }

  lemma RemoveSorted(m: Mem, l: seq<nat>, k: seq<nat>, i: nat)
    requires Sorted(m, l) && i + 1 < |l| && k == l[..i + 1] + l[i + 2..]
    ensures Sorted(m, k) && l[i + 1] !in k
  {
    forall g | 0 <= g < |k| ensures k[g] == l[if g <= i then g else g + 1] && k[g] != l[i + 1] {
    }
  }

  /** The list after a deletion. */
  lemma RemovedOk(m: Mem, x: Thread, l: seq<nat>)
    requires Sorted(m, l) && x.op.Del? && x.cur.Some? && Adjacent(l, x.prev, x.cur.value)
    ensures Removed(l, Applied(x, l), x.prev, x.cur.value) && Sorted(m, Applied(x, l))
  {
    IndexIs(m, l, x.prev, x.cur.value);
    hide Sorted, Adjacent;
    RemoveSorted(m, l, Applied(x, l), IndexOf(l, x.prev));
  }

  /** Neighbours in the new list are those of the old one, but for the changed node and
      its surroundings. */
  lemma NeighboursInserted(m: Mem, x: Thread, l: seq<nat>, g: nat)
    requires Sorted(m, l) && x.op.Ins? && x.cur.Some? && Adjacent(l, x.prev, x.cur.value) && g + 1 < |Applied(x, l)|
    ensures var k := Applied(x, l);
            (k[g] == x.prev && k[g + 1] == x.op.node) || (k[g] == x.op.node && k[g + 1] == x.cur.value)
            || (k[g] != x.prev && Adjacent(l, k[g], k[g + 1]))
  {
    IndexIs(m, l, x.prev, x.cur.value);
    var i, k := IndexOf(l, x.prev), Applied(x, l);
    InsertedAt(l, k, i, x.op.node, g);
    hide Sorted, IndexOf, Applied, Adjacent;
    if g < i || g > i + 1 {
      var h := if g < i then g else g - 1;
      NotSame(m, l, h, i);
      AdjacentAt(l, h);
    }
  }

  lemma InsertedAt(l: seq<nat>, k: seq<nat>, i: nat, n: nat, g: nat)
    requires i + 1 < |l| && k == l[..i + 1] + [n] + l[i + 1..] && g + 1 < |k|
    ensures k[g] == (if g <= i then l[g] else if g == i + 1 then n else l[g - 1])
    ensures k[g + 1] == (if g < i then l[g + 1] else if g == i then n else l[g])
  {
  }

  lemma AdjacentAt(l: seq<nat>, h: nat)
    requires h + 1 < |l|
    ensures Adjacent(l, l[h], l[h + 1])
  {
  }

  lemma NotSame(m: Mem, l: seq<nat>, h: nat, i: nat)
    requires Sorted(m, l) && h < |l| && i < |l| && h != i
    ensures l[h] != l[i]
  {
  }

  lemma NeighboursRemoved(m: Mem, x: Thread, l: seq<nat>, g: nat)
    requires Sorted(m, l) && x.op.Del? && x.cur.Some? && Adjacent(l, x.prev, x.cur.value) && Adjacent(l, x.cur.value, x.after)
    requires g + 1 < |Applied(x, l)|
    ensures var k := Applied(x, l);
            (k[g] == x.prev && k[g + 1] == x.after) || (k[g] != x.prev && k[g] != x.cur.value && Adjacent(l, k[g], k[g + 1]))
  {
    IndexIs(m, l, x.prev, x.cur.value);
    IndexIs(m, l, x.cur.value, x.after);
    var i, k := IndexOf(l, x.prev), Applied(x, l);
    SortedOnce(m, l, i + 1, IndexOf(l, x.cur.value));
    RemovedAt(l, k, i, g);
    hide Sorted, IndexOf, Applied, Adjacent;
    if g != i {
      var h := if g < i then g else g + 1;
      NotSame(m, l, h, i);
      NotSame(m, l, h, i + 1);
      AdjacentAt(l, h);
    }
  }

  lemma RemovedAt(l: seq<nat>, k: seq<nat>, i: nat, g: nat)
    requires i + 1 < |l| && k == l[..i + 1] + l[i + 2..] && g + 1 < |k|
    ensures k[g] == l[if g <= i then g else g + 1] && k[g + 1] == l[if g < i then g + 1 else g + 2]
  {
  }

  predicate ListShape(m: Mem, l: seq<nat>) {
    |l| >= 2 && l[0] == HEAD && l[|l| - 1] == TAIL && Sorted(m, l)
  }

  /** What the walk has found, in the last list. */
  lemma AtEndFacts(m: Mem, x: Thread, t: nat)
    requires AtEnd(m, x, t)
    ensures |m.lists| == |m.chain| > 0 && x.cur.Some? && !x.op.Find?
    ensures var l := m.lists[|m.lists| - 1];
            && ListShape(m, l) && Adjacent(l, x.prev, x.cur.value) && x.prev < |m.nodes| && x.cur.value < |m.nodes|
            && m.nodes[x.prev].value < x.op.key <= m.nodes[x.cur.value].value
            && (x.op.Ins? ==> x.op.node !in l && x.op.node < |m.nodes| && m.nodes[x.op.node].value == x.op.key
                              && x.op.key < m.nodes[x.cur.value].value && m.nodes[x.op.node].owner == Some(t))
            && (x.op.Del? ==> Adjacent(l, x.cur.value, x.after) && x.op.key == m.nodes[x.cur.value].value)
  {
    assert ListOk(m, |m.lists| - 1);
    assert m.lists[|m.lists| - 1] == m.lists[|m.lists| - 1];
  }

  lemma AppliedOk(m: Mem, x: Thread, t: nat)
    requires AtEnd(m, x, t)
    ensures |m.lists| > 0
    ensures var l := m.lists[|m.lists| - 1]; var k := Applied(x, l);
            ListShape(m, k) && ChangedBy(l, k, x.prev, Target(x, 1))
  {
    AtEndFacts(m, x, t);
    hide AtEnd, Sorted, Adjacent;
    var l := m.lists[|m.lists| - 1];
    if x.op.Ins? { InsertedOk(m, x, l); InsertedEnds(m, x, l); } else { RemovedOk(m, x, l); RemovedEnds(m, x, l); }
  }

  lemma InsertedEnds(m: Mem, x: Thread, l: seq<nat>)
    requires ListShape(m, l) && x.op.Ins? && x.cur.Some? && Adjacent(l, x.prev, x.cur.value)
    ensures var k := Applied(x, l); |k| >= 2 && k[0] == HEAD && k[|k| - 1] == TAIL
  {
    IndexIs(m, l, x.prev, x.cur.value);
  }

  lemma RemovedEnds(m: Mem, x: Thread, l: seq<nat>)
    requires ListShape(m, l) && x.op.Del? && x.cur.Some? && Adjacent(l, x.prev, x.cur.value) && Adjacent(l, x.cur.value, x.after)
    ensures var k := Applied(x, l); |k| >= 2 && k[0] == HEAD && k[|k| - 1] == TAIL
  {
    IndexIs(m, l, x.prev, x.cur.value);
    IndexIs(m, l, x.cur.value, x.after);
    SortedOnce(m, l, IndexOf(l, x.prev) + 1, IndexOf(l, x.cur.value));
  }

  lemma AppliedNodes(x: Thread, l: seq<nat>, n: nat)
    requires n in Applied(x, l)
    ensures n in l || (x.op.Ins? && n == x.op.node)
  {
  }

  // ---------------------------------------------------------------- the memory

  lemma CasGrows(m: Mem, x: Thread, t: nat)
    requires AtEnd(m, x, t)
    ensures Grows(m, CasMem(m, x), t)
  {
    var z := CasMem(m, x);
    AtEndFacts(m, x, t);
    NotItself(m, x, t);
    forall j, n | |m.lists| <= j < |z.lists| && n in z.lists[j]
      ensures n in m.lists[|m.lists| - 1] || (n < |z.nodes| && z.nodes[n].owner == Some(t))
    {
      AppliedNodes(x, m.lists[|m.lists| - 1], n);
    }
    hide CommitOk, ListOk, Applied;
    forall r {:trigger RecGrows(m, z, t, r)} | 0 <= r < |m.recs| ensures RecGrows(m, z, t, r) {
    }
  }

  /** The writer's record is none of the chain's. */
  lemma NotItself(m: Mem, x: Thread, t: nat)
    requires AtEnd(m, x, t)
    ensures x.new_rec != x.ph.r && x.new_rec < |m.recs| && m.recs[x.new_rec].pos.None? && !m.recs[x.new_rec].dead
    ensures m.chain[|m.chain| - 1] == x.ph.r
  {
    ScanEnds(m, x.ph.r, |m.chain| - 1);
  }

  lemma CasChain(m: Mem, x: Thread, t: nat, q: nat)
    requires AtEnd(m, x, t) && q <= |m.chain|
    ensures InChain(CasMem(m, x), q)
  {
    var z := CasMem(m, x);
    CasGrows(m, x, t);
    NotItself(m, x, t);
    assert RecOk(m, x.new_rec);
    if q < |m.chain| {
      assert InChain(m, q);
      InChainKept(m, z, t, q);
    } else {
      hide Grows;
      assert z.chain[q] == x.new_rec;
      CasUntouched(m, x, t);
    }
  }

  lemma CasUntouched(m: Mem, x: Thread, t: nat)
    requires AtEnd(m, x, t)
    ensures Untouched(CasMem(m, x), x.new_rec, x.epoch - STARTING, |m.chain| - 1)
  {
    var z := CasMem(m, x);
    NotItself(m, x, t);
    forall q {:trigger z.chain[q]} | x.epoch - STARTING < q <= |m.chain| - 1 && q < |z.chain| && z.chain[q] < |z.recs|
      ensures !Conflict(z.recs[x.new_rec], z.recs[z.chain[q]])
    {
      assert z.chain[q] == m.chain[q] && InChain(m, q);
      assert z.recs[m.chain[q]].nodes == m.recs[m.chain[q]].nodes && z.recs[x.new_rec].nodes == m.recs[x.new_rec].nodes;
    }
  }

  /** Slots of the writer's record count from the new place on, all others from where
      they did. */
  lemma CasPos(m: Mem, x: Thread, t: nat, y: nat)
    requires AtEnd(m, x, t) && y < |m.slots|
    ensures var z := CasMem(m, x);
            && y < |z.slots| && z.slots[y] == m.slots[y]
            && SlotPos(z, y) == (if m.slots[y].rec == Some(x.new_rec) then Some(|m.chain|) else SlotPos(m, y))
            && (SlotPos(m, y).Some? ==> SlotPos(m, y).value < |m.chain|)
  {
    NotItself(m, x, t);
    assert SlotOk(m, y);
    if m.slots[y].rec.Some? { assert RecOk(m, m.slots[y].rec.value); }
  }

  /** A record has one slot for each of its nodes. */
  lemma OneSlotEach(m: Mem, r: nat, a: nat, b: nat)
    requires r < |m.recs| && RecOk(m, r) && a in m.recs[r].slots && b in m.recs[r].slots
    requires a < |m.slots| && b < |m.slots| && m.slots[a].node == m.slots[b].node
    ensures a == b && m.slots[a].node in m.recs[r].nodes
  {
    var c := m.recs[r];
    var ka :| 0 <= ka < |c.slots| && c.slots[ka] == a;
    var kb :| 0 <= kb < |c.slots| && c.slots[kb] == b;
    assert c.nodes[ka] == c.nodes[kb];
  }

  /** A slot that counts from place p on is one of the record's there. */
  lemma FromChain(m: Mem, y: nat, p: nat)
    requires MemOk(m) && y < |m.slots| && SlotPos(m, y) == Some(p) && p > 0
    ensures p < |m.chain| && m.chain[p] < |m.recs| && m.slots[y].node in m.recs[m.chain[p]].nodes
  {
    assert SlotOk(m, y);
    var r := m.slots[y].rec.value;
    assert RecOk(m, r);
    OneSlotEach(m, r, y, y);
  }

  /** No record since the snapshot has one of the writer's nodes. */
  lemma NotSince(m: Mem, x: Thread, t: nat, n: nat, p: nat)
    requires AtEnd(m, x, t) && n in m.recs[x.new_rec].nodes && x.epoch - STARTING < p < |m.chain| && m.chain[p] < |m.recs|
    ensures n !in m.recs[m.chain[p]].nodes
  {
    assert !Conflict(m.recs[x.new_rec], m.recs[m.chain[p]]);
  }

  /** Of two slots of a node, the writer's own is the upper one, or the other does not count. */
  lemma OwnOnTop(m: Mem, x: Thread, t: nat, n: nat, i: nat, j: nat)
    requires AtEnd(m, x, t) && n < |m.nodes| && i < j < |m.nodes[n].slots|
    requires m.nodes[n].slots[i] < |m.slots| && m.slots[m.nodes[n].slots[i]].rec == Some(x.new_rec)
    ensures m.nodes[n].slots[j] < |m.slots| && m.slots[m.nodes[n].slots[j]].rec != Some(x.new_rec)
    ensures SlotPos(m, m.nodes[n].slots[j]).None?
  {
    hide ListOk, Changed, FoundAt, Untouched, Conflict;
    assert NodeOk(m, n);
    var a, b := m.nodes[n].slots[i], m.nodes[n].slots[j];
    assert SlotOk(m, a) && SlotOk(m, b) && RecOk(m, x.new_rec) && a < b;
    assert AboveOne(m, x.new_rec, x.epoch - STARTING, a, b);
    OneSlotEach(m, x.new_rec, a, a);
    if m.slots[b].rec == Some(x.new_rec) {
      OneSlotEach(m, x.new_rec, a, b);
    } else if SlotPos(m, b).Some? {
      var p := SlotPos(m, b).value;
      FromChain(m, b, p);
      NotSince(m, x, t, n, p);
    }
  }

  lemma CasOrder(m: Mem, x: Thread, t: nat, n: nat, i: nat, j: nat)
    requires AtEnd(m, x, t) && n < |m.nodes| && i < j < |m.nodes[n].slots|
    ensures InOrder(CasMem(m, x), m.nodes[n].slots[i], m.nodes[n].slots[j]) && m.nodes[n].slots[i] < m.nodes[n].slots[j]
  {
    assert NodeOk(m, n);
    var a, b := m.nodes[n].slots[i], m.nodes[n].slots[j];
    assert InOrder(m, a, b);
    CasPos(m, x, t, a);
    CasPos(m, x, t, b);
    if m.slots[a].rec == Some(x.new_rec) { OwnOnTop(m, x, t, n, i, j); }
  }

  lemma CasNode(m: Mem, x: Thread, t: nat, n: nat)
    requires AtEnd(m, x, t) && n < |m.nodes|
    ensures NodeOk(CasMem(m, x), n)
  {
    assert NodeOk(m, n);
    var z := CasMem(m, x);
    var c := m.nodes[n].slots;
    assert z.nodes == m.nodes && z.slots == m.slots;
    forall i, j {:trigger c[i], c[j]} | 0 <= i < j < |c| ensures c[i] < c[j] && InOrder(z, c[i], c[j]) {
      CasOrder(m, x, t, n, i, j);
    }
  }

  lemma CasRec(m: Mem, x: Thread, t: nat, r: nat)
    requires AtEnd(m, x, t) && r < |m.recs|
    ensures RecOk(CasMem(m, x), r)
  {
    var z := CasMem(m, x);
    NotItself(m, x, t);
    assert RecOk(m, r);
    assert z.slots == m.slots && z.nodes == m.nodes && z.recs[r].slots == m.recs[r].slots && z.recs[r].nodes == m.recs[r].nodes;
    var c := z.recs[r];
    forall k {:trigger c.slots[k]} | 0 <= k < |c.slots|
      ensures c.nodes[k] < |z.nodes| && c.slots[k] < |z.slots| && z.slots[c.slots[k]].rec == Some(r) && z.slots[c.slots[k]].node == c.nodes[k]
    {
      assert m.recs[r].slots[k] < |m.slots|;
    }
  }

  lemma CasSlot(m: Mem, x: Thread, t: nat, y: nat)
    requires AtEnd(m, x, t) && y < |m.slots|
    ensures SlotOk(CasMem(m, x), y)
  {
    NotItself(m, x, t);
    assert SlotOk(m, y);
  }

  // ---------------------------------------------------------------- the new list

  lemma {:induction false} CasLast(m: Mem, x: Thread, t: nat, n: nat, i: nat)
    requires AtEnd(m, x, t) && n < |m.nodes| && n !in m.recs[x.new_rec].nodes && i < |m.nodes[n].slots|
    ensures Last(CasMem(m, x), n, i, |m.chain|) == Last(m, n, i, |m.chain| - 1)
  {
    hide ListOk, Changed, CommitOk;
    assert NodeOk(m, n) && RecOk(m, x.new_rec);
    var y := m.nodes[n].slots[i];
    CasPos(m, x, t, y);
    if m.slots[y].rec == Some(x.new_rec) {
      assert SlotOk(m, y);
      OneSlotEach(m, x.new_rec, y, y);
    }
    hide AtEnd;
    if i > 0 { CasLast(m, x, t, n, i - 1); }
  }

  /** A node the writer has not changed is followed by the same node as before. */
  lemma NextOther(m: Mem, x: Thread, t: nat, n: nat)
    requires AtEnd(m, x, t) && n < |m.nodes| && n !in m.recs[x.new_rec].nodes
    ensures NextAt(CasMem(m, x), n, |m.chain|) == NextAt(m, n, |m.chain| - 1)
  {
    assert NodeOk(m, n);
    CasLast(m, x, t, n, |m.nodes[n].slots| - 1);
    var z := CasMem(m, x);
    assert z.nodes == m.nodes && z.slots == m.slots;
  }

  /** A node the writer has changed is followed by the one it chose. */
  lemma NextOwn(m: Mem, x: Thread, t: nat, j: nat)
    requires AtEnd(m, x, t) && j < 2
    ensures |m.recs[x.new_rec].nodes| == 2 && m.recs[x.new_rec].nodes[j] == Target(x, j)
    ensures NextAt(CasMem(m, x), Target(x, j), |m.chain|) == Successor(x, j)
  {
    hide ListOk, Changed, FoundAt, Above, Untouched;
    var r, z := m.recs[x.new_rec], CasMem(m, x);
    assert PushedOne(m, x, j);
    var n := r.nodes[j];
    var c := m.nodes[n].slots;
    assert RecOk(m, x.new_rec) && NodeOk(m, n);
    var i :| 0 <= i < |c| && c[i] == r.slots[j];
    assert z.nodes == m.nodes && z.slots == m.slots;
    CasPos(m, x, t, c[i]);
    forall h {:trigger z.nodes[n].slots[h]} | i < h <= |c| - 1 ensures !Vis(z, z.nodes[n].slots[h], |m.chain|) {
      OwnOnTop(m, x, t, n, i, h);
      CasPos(m, x, t, c[h]);
    }
    LastIs(z, n, |c| - 1, |m.chain|, i);
  }

  lemma NextInList(m: Mem, q: nat, u: nat, v: nat)
    requires MemOk(m) && q < |m.lists| && Adjacent(m.lists[q], u, v)
    ensures u < |m.nodes| && u in m.lists[q] && NextAt(m, u, q) == v
  {
    assert ListOk(m, q);
    var l := m.lists[q];
    var i :| 0 <= i && i + 1 < |l| && l[i] == u && l[i + 1] == v;
    assert Follows(m, q, i);
  }

  lemma NewNodes(m: Mem, x: Thread, t: nat)
    requires AtEnd(m, x, t)
    ensures m.recs[x.new_rec].nodes == [x.prev, Target(x, 1)]
  {
    NextOwn(m, x, t, 0);
    NextOwn(m, x, t, 1);
  }

  lemma NextStays(m: Mem, x: Thread, t: nat, u: nat, v: nat)
    requires AtEnd(m, x, t) && |m.lists| > 0 && Adjacent(m.lists[|m.lists| - 1], u, v) && u != x.prev && u != Target(x, 1)
    ensures NextAt(CasMem(m, x), u, |m.chain|) == v
  {
    NextInList(m, |m.lists| - 1, u, v);
    NewNodes(m, x, t);
    NextOther(m, x, t, u);
  }

  lemma NewNextInserted(m: Mem, x: Thread, t: nat, g: nat)
    requires AtEnd(m, x, t) && x.op.Ins? && |m.lists| > 0 && g + 1 < |Applied(x, m.lists[|m.lists| - 1])|
    ensures var k := Applied(x, m.lists[|m.lists| - 1]); NextAt(CasMem(m, x), k[g], |m.chain|) == k[g + 1]
  {
    AtEndFacts(m, x, t);
    NextOwn(m, x, t, 0);
    NextOwn(m, x, t, 1);
    var l := m.lists[|m.lists| - 1];
    var k := Applied(x, l);
    NeighboursInserted(m, x, l, g);
    hide AtEnd, Sorted, NextAt, Applied;
    if k[g] != x.prev && k[g] != x.op.node { NextStays(m, x, t, k[g], k[g + 1]); }
  }

  lemma NewNextRemoved(m: Mem, x: Thread, t: nat, g: nat)
    requires AtEnd(m, x, t) && x.op.Del? && |m.lists| > 0 && g + 1 < |Applied(x, m.lists[|m.lists| - 1])|
    ensures var k := Applied(x, m.lists[|m.lists| - 1]); NextAt(CasMem(m, x), k[g], |m.chain|) == k[g + 1]
  {
    AtEndFacts(m, x, t);
    NextOwn(m, x, t, 0);
    var l := m.lists[|m.lists| - 1];
    var k := Applied(x, l);
    NeighboursRemoved(m, x, l, g);
    hide AtEnd, Sorted, NextAt, Applied;
    if k[g] != x.prev { NextStays(m, x, t, k[g], k[g + 1]); }
  }

  lemma CasNexts(m: Mem, x: Thread, t: nat)
    requires AtEnd(m, x, t)
    ensures |m.lists| > 0
    ensures var k := Applied(x, m.lists[|m.lists| - 1]);
            forall i {:trigger NextAt(CasMem(m, x), k[i], |m.chain|)} :: 0 <= i && i + 1 < |k| ==> NextAt(CasMem(m, x), k[i], |m.chain|) == k[i + 1]
  {
    AtEndFacts(m, x, t);
    hide AtEnd, Applied, Adjacent, Sorted, NextAt, CasMem;
    var k := Applied(x, m.lists[|m.lists| - 1]);
    forall i {:trigger NextAt(CasMem(m, x), k[i], |m.chain|)} | 0 <= i && i + 1 < |k| ensures NextAt(CasMem(m, x), k[i], |m.chain|) == k[i + 1] {
      if x.op.Ins? { NewNextInserted(m, x, t, i); } else { NewNextRemoved(m, x, t, i); }
    }
  }

  lemma CasListOk(m: Mem, x: Thread, t: nat)
    requires AtEnd(m, x, t)
    ensures var z := CasMem(m, x); |z.lists| == |m.chain| + 1 && ListOk(z, |m.chain|)
  {
    assert |m.lists| == |m.chain| > 0;
    var z := CasMem(m, x);
    var k := Applied(x, m.lists[|m.lists| - 1]);
    assert z.nodes == m.nodes && z.lists[|m.chain|] == k && |z.lists| == |m.chain| + 1;
    AppliedOk(m, x, t);
    CasNexts(m, x, t);
    hide AtEnd, Applied, ChangedBy, NextAt, CasMem;
    SortedSame(m, z, k);
    hide Sorted;
    forall i {:trigger Follows(z, |m.chain|, i)} | 0 <= i && i + 1 < |k| ensures Follows(z, |m.chain|, i) {
    }
  }

  lemma CasChanged(m: Mem, x: Thread, t: nat)
    requires AtEnd(m, x, t)
    ensures var z := CasMem(m, x); |z.lists| == |z.chain| == |m.chain| + 1 && |m.chain| > 0 && Changed(z, |m.chain|)
  {
    assert |m.lists| == |m.chain| > 0;
    AppliedOk(m, x, t);
    NewNodes(m, x, t);
    NotItself(m, x, t);
    hide AtEnd, Applied, ChangedBy, Sorted, ListShape;
  }

  lemma SortedSame(m: Mem, z: Mem, k: seq<nat>)
    requires z.nodes == m.nodes && Sorted(m, k)
    ensures Sorted(z, k)
  {
  }

  lemma CasSizes(m: Mem, x: Thread, t: nat)
    requires AtEnd(m, x, t)
    ensures MemOk(m) && |m.chain| == |m.lists| > 0 && TAIL < |m.nodes|
    ensures var z := CasMem(m, x);
            && z.nodes == m.nodes && z.slots == m.slots && |z.recs| == |m.recs| && z.g == m.g
            && |z.chain| == |z.lists| == |m.chain| + 1
  {
  }

  lemma CasMemOk(m: Mem, x: Thread, t: nat)
    requires AtEnd(m, x, t)
    ensures MemOk(CasMem(m, x)) && Grows(m, CasMem(m, x), t)
  {
    CasSizes(m, x, t);
    var z := CasMem(m, x);
    hide AtEnd, Grows, InChain, RecOk, SlotOk, NodeOk, ListOk, Changed, CasMem, Standing;
    CasGrows(m, x, t);
    CasListOk(m, x, t);
    CasChanged(m, x, t);
    PastKept(m, z, t);
    forall q {:trigger InChain(z, q)} | 0 <= q < |z.chain| ensures InChain(z, q) { CasChain(m, x, t, q); }
    forall r {:trigger RecOk(z, r)} | 0 <= r < |z.recs| ensures RecOk(z, r) { CasRec(m, x, t, r); }
    forall y {:trigger SlotOk(z, y)} | 0 <= y < |z.slots| ensures SlotOk(z, y) { CasSlot(m, x, t, y); }
    forall n {:trigger NodeOk(z, n)} | 0 <= n < |z.nodes| ensures NodeOk(z, n) { CasNode(m, x, t, n); }
    forall j {:trigger ListOk(z, j)} | 0 <= j < |z.lists| ensures ListOk(z, j) { if j < |m.lists| {} }
    forall j {:trigger Changed(z, j)} | 0 < j < |z.lists| ensures Changed(z, j) { if j < |m.lists| {} }
  }

  // ---------------------------------------------------------------- the operation's effect

  lemma InsertKeys(m: Mem, l: seq<nat>, k: seq<nat>, a: nat, n: nat)
    requires Inserted(l, k, a, n) && n < |m.nodes|
    ensures Keys(m.nodes, k) == Keys(m.nodes, l) + {m.nodes[n].value}
  {
    forall h ensures h in k <==> h in l || h == n {
      var i :| 0 <= i && i + 1 < |l| && l[i] == a && k == l[..i + 1] + [n] + l[i + 1..];
      assert l == l[..i + 1] + l[i + 1..];
    }
  }

  lemma RemovedNodes(m: Mem, l: seq<nat>, k: seq<nat>, a: nat, n: nat, h: nat)
    requires Removed(l, k, a, n)
    ensures n in l && (h in k <==> h in l && h != n)
  {
    var i :| 0 <= i && i + 1 < |l| && l[i] == a && l[i + 1] == n && k == l[..i + 1] + l[i + 2..];
    assert l == l[..i + 1] + [n] + l[i + 2..];
  }

  lemma OtherKey(m: Mem, l: seq<nat>, h: nat, n: nat)
    requires Sorted(m, l) && h in l && n in l && h != n
    ensures h < |m.nodes| && n < |m.nodes| && m.nodes[h].value != m.nodes[n].value
  {
    var g :| 0 <= g < |l| && l[g] == h;
    var i :| 0 <= i < |l| && l[i] == n;
  }

  lemma RemoveKeys(m: Mem, l: seq<nat>, k: seq<nat>, a: nat, n: nat)
    requires Removed(l, k, a, n) && Sorted(m, l) && n < |m.nodes|
    ensures m.nodes[n].value in Keys(m.nodes, l) && Keys(m.nodes, k) == Keys(m.nodes, l) - {m.nodes[n].value}
  {
    RemovedNodes(m, l, k, a, n, n);
    forall h: nat ensures h in k <==> h in l && h != n {
      RemovedNodes(m, l, k, a, n, h);
    }
    forall h | h in l && h != n ensures h < |m.nodes| && m.nodes[h].value != m.nodes[n].value {
      OtherKey(m, l, h, n);
    }
    hide Removed, Sorted;
  }

  /** The set of keys after a commit. */
  lemma CommitKeys(m: Mem, x: Thread, t: nat)
    requires AtEnd(m, x, t)
    ensures |m.lists| > 0 && !x.op.Find?
    ensures var l := m.lists[|m.lists| - 1]; var k := Applied(x, l);
            && (x.op.Ins? ==> x.op.key !in Keys(m.nodes, l) && Keys(m.nodes, k) == Keys(m.nodes, l) + {x.op.key})
            && (x.op.Del? ==> x.op.key in Keys(m.nodes, l) && Keys(m.nodes, k) == Keys(m.nodes, l) - {x.op.key})
  {
    AtEndFacts(m, x, t);
    assert MemOk(m);
    var q := |m.lists| - 1;
    var l, k := m.lists[q], Applied(x, m.lists[q]);
    hide AtEnd, MemOk, Keys, Applied, Adjacent, Inserted, Removed, Sorted;
    ChangeIs(m, x, l, k);
    if x.op.Ins? {
      KeyBetween(m, x, q, x.cur.value);
      InsertKeys(m, l, k, x.prev, x.op.node);
    } else {
      RemoveKeys(m, l, k, x.prev, x.cur.value);
    }
  }

  lemma CasTold(m: Mem, x: Thread, t: nat)
    requires AtEnd(m, x, t)
    ensures Told(CasMem(m, x), Outcome(x.op, true, |m.chain|, x.since))
  {
    CommitKeys(m, x, t);
    assert |m.lists| == |m.chain| > 0 && x.since <= |m.chain|;
    var q, z := |m.lists| - 1, CasMem(m, x);
    assert z.nodes == m.nodes && z.lists[q] == m.lists[q] && z.lists[q + 1] == Applied(x, m.lists[q]) && |z.lists| == q + 2;
    hide AtEnd, CasMem, Keys, Applied;
  }

  lemma ChangeIs(m: Mem, x: Thread, l: seq<nat>, k: seq<nat>)
    requires k == Applied(x, l) && ListShape(m, l) && x.cur.Some? && Adjacent(l, x.prev, x.cur.value) && !x.op.Find?
    requires x.op.Ins? ==> x.op.node !in l
    ensures x.op.Ins? ==> Inserted(l, k, x.prev, x.op.node)
    ensures x.op.Del? ==> Removed(l, k, x.prev, x.cur.value)
  {
    IndexIs(m, l, x.prev, x.cur.value);
    if x.op.Del? { RemovedOk(m, x, l); }
  }

  lemma CasInv(s: State, t: nat)
    requires Inv(s) && CanCas(s, t)
    ensures Inv(DoCas(s, t))
  {
    hide Told;
    var m, x, z := s.m, s.th[t], DoCas(s, t);
    assert ThreadOk(m, x, t);
    ScanEnds(m, x.ph.r, x.ph.e - STARTING - 1);
    assert AtEnd(m, x, t);
    CasMemOk(m, x, t);
    CasTold(m, x, t);
    NewNodes(m, x, t);
    CasThread(m, x, t);
    hide MemOk, Grows, ThreadOk, AtEnd;
    StepInv(s, z, t);
  }

  lemma CasThread(m: Mem, x: Thread, t: nat)
    requires AtEnd(m, x, t) && ThreadOk(m, x, t) && Grows(m, CasMem(m, x), t)
    requires Told(CasMem(m, x), Outcome(x.op, true, |m.chain|, x.since)) && |m.recs[x.new_rec].nodes| == 2
    ensures ThreadOk(CasMem(m, x), x.(ph := StampRec(x.ph.e)), t)
  {
    hide CommitOk, Told;
    var z, q := CasMem(m, x), x.ph.e - STARTING - 1;
    assert MemOk(m) && q == |m.chain| - 1;
    NotItself(m, x, t);
    StandingKept(m, z, t, x.rec);
    StampedKept(m, z, t, q);
    if x.out.Some? { ToldKept(m, z, t, x.out.value); }
    assert z.nodes == m.nodes && z.recs[x.new_rec].nodes == m.recs[x.new_rec].nodes && z.recs[x.new_rec].owner == m.recs[x.new_rec].owner;
    assert !x.op.Find? by { AtEndFacts(m, x, t); }
    hide MemOk, Grows, Stamped;
    assert At(z, x.new_rec, x.ph.e - STARTING);
  }
}
