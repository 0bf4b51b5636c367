/** What every step of the versioned list keeps. */
module VListInvariant {
  import opened Options
  import opened VList

  // ---------------------------------------------------------------- versions of a node

  /** The place in the chain from which on a slot counts. */
  function SlotPos(m: Mem, x: nat): Option<nat> {
    if x >= |m.slots| then None
    else match m.slots[x].rec
      case None => Some(0)
      case Some(r) => if r < |m.recs| then m.recs[r].pos else None
  }

  /** The slot belongs to the list after record j of the chain. */
  predicate Vis(m: Mem, x: nat, j: nat) {
    SlotPos(m, x).Some? && SlotPos(m, x).value <= j
  }

  /** The newest of the slots 0..i of a node that is visible at j. */
  function Last(m: Mem, n: nat, i: nat, j: nat): (k: nat)
    requires n < |m.nodes| && i < |m.nodes[n].slots|
    ensures k <= i && forall h :: k < h <= i ==> !Vis(m, m.nodes[n].slots[h], j)
    ensures k > 0 ==> Vis(m, m.nodes[n].slots[k], j)
  {
    if i == 0 || Vis(m, m.nodes[n].slots[i], j) then i else Last(m, n, i - 1, j)
  }

  /** The successor of node n in the list after record j. */
  function NextAt(m: Mem, n: nat, j: nat): nat {
    if n < |m.nodes| && |m.nodes[n].slots| > 0 then
      var x := m.nodes[n].slots[Last(m, n, |m.nodes[n].slots| - 1, j)];
      if x < |m.slots| then m.slots[x].next else 0
    else 0
  }

  // ---------------------------------------------------------------- records, slots, nodes

  predicate InChain(m: Mem, q: nat)
    requires q < |m.chain|
  {
    var c := m.chain[q];
    && c < |m.recs| && m.recs[c].pos == Some(q) && !m.recs[c].dead
    && m.recs[c].next == (if q + 1 < |m.chain| then Some(m.chain[q + 1]) else None)
    && (m.recs[c].epoch == INACTIVE || m.recs[c].epoch == STARTING + q)
    && (q > 0 ==> |m.recs[c].nodes| == 2 && m.recs[c].base < q && Untouched(m, c, m.recs[c].base, q - 1))
  }

  /** No record after place b up to place p of the chain has a node in common with r. */
  predicate Untouched(m: Mem, r: nat, b: nat, p: nat) {
    r < |m.recs| && forall q {:trigger m.chain[q]} :: b < q <= p && q < |m.chain| && m.chain[q] < |m.recs| ==> !Conflict(m.recs[r], m.recs[m.chain[q]])
  }

  predicate RecOk(m: Mem, r: nat)
    requires r < |m.recs|
  {
    var c := m.recs[r];
    && (c.pos.Some? ==> c.pos.value < |m.chain| && m.chain[c.pos.value] == r)
    && (c.pos.None? ==> c.next.None? && c.epoch == INACTIVE)
    && |c.nodes| == |c.slots| <= 2
    && (forall k {:trigger c.slots[k]} :: 0 <= k < |c.slots| ==>
          && c.nodes[k] < |m.nodes| && c.slots[k] < |m.slots|
          && m.slots[c.slots[k]].rec == Some(r) && m.slots[c.slots[k]].node == c.nodes[k])
    && (|c.nodes| == 2 ==> c.nodes[0] != c.nodes[1])
  }

  predicate SlotOk(m: Mem, x: nat)
    requires x < |m.slots|
  {
    var sl := m.slots[x];
    && sl.next < |m.nodes| && sl.node < |m.nodes|
    && (sl.rec.None? ==> sl.epoch == STARTING)
    && (sl.rec.Some? ==>
          && sl.rec.value < |m.recs|
          && var r := m.recs[sl.rec.value];
             && x in r.slots
             && (sl.epoch == INDIRECT || (sl.epoch == INACTIVE && r.dead) || (r.pos.Some? && sl.epoch == STARTING + r.pos.value)))
  }

  predicate NodeOk(m: Mem, n: nat)
    requires n < |m.nodes|
  {
    var c := m.nodes[n].slots;
    && |c| > 0 && c[0] < |m.slots| && m.slots[c[0]].rec.None?
    && (forall i {:trigger c[i]} :: 0 <= i < |c| ==> c[i] < |m.slots| && m.slots[c[i]].node == n)
    && (forall i, j {:trigger c[i], c[j]} :: 0 <= i < j < |c| ==> c[i] < c[j] && InOrder(m, c[i], c[j]))
  }

  /** Of two slots of a node that count, the upper one counts from a later place on. */
  predicate InOrder(m: Mem, x: nat, y: nat) {
    SlotPos(m, x).Some? && SlotPos(m, y).Some? ==> SlotPos(m, x).value < SlotPos(m, y).value
  }

  // ---------------------------------------------------------------- lists

  predicate Adjacent(l: seq<nat>, a: nat, b: nat) {
    exists i :: 0 <= i && i + 1 < |l| && l[i] == a && l[i + 1] == b
  }

  predicate Sorted(m: Mem, l: seq<nat>) {
    && (forall i :: 0 <= i < |l| ==> l[i] < |m.nodes|)
    && (forall i, j :: 0 <= i < j < |l| ==> m.nodes[l[i]].value < m.nodes[l[j]].value)
  }

  /** The list after record j: sorted, between the sentinels, and what the slots say. */
  predicate ListOk(m: Mem, j: nat)
    requires j < |m.lists|
  {
    var l := m.lists[j];
    && |l| >= 2 && l[0] == HEAD && l[|l| - 1] == TAIL && Sorted(m, l)
    && (forall i {:trigger Follows(m, j, i)} :: 0 <= i && i + 1 < |l| ==> Follows(m, j, i))
  }

  /** What a reader finds behind a node of the list is the next node of the list. */
  predicate Follows(m: Mem, j: nat, i: nat)
    requires j < |m.lists| && i + 1 < |m.lists[j]|
  {
    NextAt(m, m.lists[j][i], j) == m.lists[j][i + 1]
  }

  /** List j comes from list j - 1 by linking in the second node of its record behind
      the first, or by taking it out from behind the first. */
  predicate Changed(m: Mem, j: nat)
    requires 0 < j < |m.lists| && j < |m.chain|
  {
    && m.chain[j] < |m.recs| && |m.recs[m.chain[j]].nodes| == 2
    && ChangedBy(m.lists[j - 1], m.lists[j], m.recs[m.chain[j]].nodes[0], m.recs[m.chain[j]].nodes[1])
  }

  predicate ChangedBy(l: seq<nat>, k: seq<nat>, a: nat, b: nat) {
    Inserted(l, k, a, b) || Removed(l, k, a, b)
  }

  predicate Inserted(l: seq<nat>, k: seq<nat>, a: nat, b: nat) {
    b !in l && exists i :: 0 <= i && i + 1 < |l| && l[i] == a && k == l[..i + 1] + [b] + l[i + 1..]
  }

  predicate Removed(l: seq<nat>, k: seq<nat>, a: nat, b: nat) {
    b !in k && exists i :: 0 <= i && i + 1 < |l| && l[i] == a && l[i + 1] == b && k == l[..i + 1] + l[i + 2..]
  }

  predicate MemOk(m: Mem) {
    && |m.chain| == |m.lists| > 0 && TAIL < |m.nodes|
    && (forall q {:trigger InChain(m, q)} :: 0 <= q < |m.chain| ==> InChain(m, q))
    && (forall r {:trigger RecOk(m, r)} :: 0 <= r < |m.recs| ==> RecOk(m, r))
    && (forall x {:trigger SlotOk(m, x)} :: 0 <= x < |m.slots| ==> SlotOk(m, x))
    && (forall n {:trigger NodeOk(m, n)} :: 0 <= n < |m.nodes| ==> NodeOk(m, n))
    && (forall j {:trigger ListOk(m, j)} :: 0 <= j < |m.lists| ==> ListOk(m, j))
    && (forall j {:trigger Changed(m, j)} :: 0 < j < |m.lists| ==> Changed(m, j))
    && Standing(m, m.g)
  }

  // ---------------------------------------------------------------- threads

  /** All records of the chain up to place j have their epochs. */
  predicate Stamped(m: Mem, j: int) {
    j < |m.chain| && forall q {:trigger m.chain[q]} :: 0 <= q <= j ==> m.chain[q] < |m.recs| && m.recs[m.chain[q]].epoch == STARTING + q
  }

  /** A record from which a snapshot may be taken. */
  predicate Standing(m: Mem, r: nat) {
    r < |m.recs| && m.recs[r].pos.Some? && Stamped(m, m.recs[r].pos.value)
  }

  predicate At(m: Mem, r: nat, p: int) {
    p >= 0 && r < |m.recs| && m.recs[r].pos == Some(p)
  }

  /** Keys of a list. */
  function Keys(nodes: seq<Node>, l: seq<nat>): set<int> {
    set n | n in l && n < |nodes| :: nodes[n].value
  }

  /** What the operation may say. */
  predicate Told(m: Mem, o: Outcome) {
    && o.since <= o.at + 1 && 0 <= o.at < |m.lists|
    && var now := Keys(m.nodes, m.lists[o.at]);
       match o.op
       case Find(key) => o.ok <==> key in now
       case Ins(key, _) => if o.ok then o.at > 0 && key !in Keys(m.nodes, m.lists[o.at - 1]) && now == Keys(m.nodes, m.lists[o.at - 1]) + {key} && o.since <= o.at
                           else key in now
       case Del(key) => if o.ok then o.at > 0 && key in Keys(m.nodes, m.lists[o.at - 1]) && now == Keys(m.nodes, m.lists[o.at - 1]) - {key} && o.since <= o.at
                        else key !in now
  }

  predicate Writing(x: Thread) {
    !x.ph.Idle? && !x.ph.Lost? && !x.op.Find?
  }

  /** The new node of an insertion is nobody else's. */
  predicate OwnNode(m: Mem, x: Thread, t: nat) {
    x.op.Ins? ==>
      && x.op.node < |m.nodes| && m.nodes[x.op.node].owner == Some(t) && m.nodes[x.op.node].value == x.op.key
      && x.op.node != HEAD && x.op.node != TAIL
  }

  predicate Unlisted(m: Mem, n: nat) {
    forall j {:trigger m.lists[j]} :: 0 <= j < |m.lists| ==> n !in m.lists[j]
  }

  predicate OwnRec(m: Mem, x: Thread, t: nat) {
    x.new_rec < |m.recs| && m.recs[x.new_rec].owner == t
  }

  /** The writer has not committed yet. */
  predicate Pending(m: Mem, x: Thread) {
    && x.new_rec < |m.recs| && m.recs[x.new_rec].pos.None?
    && (x.op.Ins? ==> Unlisted(m, x.op.node))
  }

  /** The walk: the last node, and what follows it in the snapshot. */
  predicate WalkOk(m: Mem, x: Thread, b: nat)
    requires b < |m.lists|
  {
    && x.prev in m.lists[b] && x.prev < |m.nodes| && m.nodes[x.prev].value < x.op.key
    && TAIL < |m.nodes| && HEAD < |m.nodes| && m.nodes[HEAD].value < x.op.key < m.nodes[TAIL].value
    && (x.cur.Some? ==>
          && Adjacent(m.lists[b], x.prev, x.cur.value) && x.cur.value < |m.nodes|
          && m.nodes[x.prev].value < x.op.key <= m.nodes[x.cur.value].value
          && (x.op.Ins? ==> x.op.key < m.nodes[x.cur.value].value)
          && (x.op.Del? ==> x.op.key == m.nodes[x.cur.value].value))
  }

  /** The writer's choice, in the list after place p. */
  predicate FoundAt(m: Mem, x: Thread, p: int) {
    && 0 <= p < |m.lists| && x.cur.Some? && WalkOk(m, x, p)
    && (x.op.Del? ==> x.after < |m.nodes| && Adjacent(m.lists[p], x.cur.value, x.after))
  }

  /** The slots pushed so far are the ones wanted. */
  predicate Pushed(m: Mem, x: Thread, n: nat) {
    && x.new_rec < |m.recs| && x.cur.Some? && !m.recs[x.new_rec].dead
    && |m.recs[x.new_rec].nodes| == |m.recs[x.new_rec].slots| == n
    && forall k {:trigger PushedOne(m, x, k)} :: 0 <= k < n ==> PushedOne(m, x, k)
  }

  predicate PushedOne(m: Mem, x: Thread, k: nat) {
    && x.new_rec < |m.recs|
    && var r := m.recs[x.new_rec];
       && k < |r.nodes| == |r.slots| && r.nodes[k] == Target(x, k) && r.slots[k] < |m.slots|
       && m.slots[r.slots[k]].next == Successor(x, k)
       && r.nodes[k] < |m.nodes| && r.slots[k] in m.nodes[r.nodes[k]].slots
  }

  /** Whatever counts above the writer's slots came after its snapshot. */
  predicate Above(m: Mem, r: nat, b: nat) {
    forall n, i, j {:trigger m.nodes[n].slots[i], m.nodes[n].slots[j]} ::
      0 <= n < |m.nodes| && 0 <= i < j < |m.nodes[n].slots| ==> AboveOne(m, r, b, m.nodes[n].slots[i], m.nodes[n].slots[j])
  }

  predicate AboveOne(m: Mem, r: nat, b: nat, x: nat, y: nat) {
    x < |m.slots| && m.slots[x].rec == Some(r) && SlotPos(m, y).Some? ==> SlotPos(m, y).value > b
  }

  predicate SeekOk(m: Mem, x: Thread) {
    x.ph.Seek? && x.epoch >= STARTING && Place(x) < |m.nodes| && x.ph.i < |m.nodes[Place(x)].slots|
    && (forall h {:trigger m.nodes[Place(x)].slots[h]} :: x.ph.i < h < |m.nodes[Place(x)].slots| ==> !Vis(m, m.nodes[Place(x)].slots[h], x.epoch - STARTING))
    && (x.ph.ind ==> m.nodes[Place(x)].slots[x.ph.i] < |m.slots| && m.slots[m.nodes[Place(x)].slots[x.ph.i]].rec.Some?)
  }

  predicate ThreadOk(m: Mem, x: Thread, t: nat) {
    && Standing(m, x.rec) && x.epoch == STARTING + m.recs[x.rec].pos.value
    && (x.out.Some? ==> Told(m, x.out.value))
    && !x.ph.Lost? && (!x.ph.Idle? ==> x.since <= |m.chain| && BoundsOk(m, x))
    && (Writing(x) ==> OwnNode(m, x, t) && OwnRec(m, x, t))
    && PhaseOk(m, x)
  }

  predicate BoundsOk(m: Mem, x: Thread) {
    TAIL < |m.nodes| && m.nodes[HEAD].value < x.op.key < m.nodes[TAIL].value
  }

  predicate PhaseOk(m: Mem, x: Thread)
  {
    var b := x.epoch - STARTING;
    match x.ph
    case Idle => true
    case Lost => true
    case Scan(r, e) => At(m, r, e - STARTING) && Stamped(m, e - STARTING) && Started(m, x)
    case ScanRead(r, e) => At(m, r, e - STARTING) && Stamped(m, e - STARTING - 1) && Started(m, x)
    case ScanStore(r, e) => At(m, r, e - STARTING) && Stamped(m, e - STARTING - 1) && Started(m, x)
    case Top => SearchOk(m, x)
    case Seek(_, _) => SearchOk(m, x) && SeekOk(m, x)
    case Push => !x.op.Find? && Attempt(m, x) && FoundAt(m, x, b) && x.new_rec < |m.recs| && |m.recs[x.new_rec].nodes| < 2 && Pushed(m, x, |m.recs[x.new_rec].nodes|)
    case Commit(r, e) => At(m, r, e - STARTING - 1) && Stamped(m, e - STARTING - 1) && CommitOk(m, x, e - STARTING - 1)
    case CommitRead(r, e) => At(m, r, e - STARTING) && Stamped(m, e - STARTING - 1) && CommitOk(m, x, e - STARTING)
    case CommitStore(r, e) => At(m, r, e - STARTING) && Stamped(m, e - STARTING - 1) && CommitOk(m, x, e - STARTING)
    case StampRec(e) => Committed(m, x, e) && Stamped(m, e - STARTING - 1)
    case StampSlot(k, e) => k < 2 && Committed(m, x, e) && Stamped(m, e - STARTING)
    case Undo(k) => k < 2 && !x.op.Find? && Pending(m, x) && m.recs[x.new_rec].dead && |m.recs[x.new_rec].nodes| == 2
  }

  predicate Started(m: Mem, x: Thread) {
    && x.prev == HEAD && x.cur.None?
    && (!x.op.Find? ==> Pending(m, x) && !m.recs[x.new_rec].dead && |m.recs[x.new_rec].nodes| == 0)
  }

  /** An attempt under way: nothing of it counts yet. */
  predicate Attempt(m: Mem, x: Thread) {
    && x.since <= x.epoch - STARTING + 1 && x.epoch >= STARTING && x.epoch - STARTING < |m.lists|
    && (!x.op.Find? ==> Pending(m, x) && !m.recs[x.new_rec].dead && Above(m, x.new_rec, x.epoch - STARTING))
  }

  predicate SearchOk(m: Mem, x: Thread) {
    && Attempt(m, x) && WalkOk(m, x, x.epoch - STARTING)
    && (x.cur.Some? ==> x.op.Del?)
    && (!x.op.Find? ==> |m.recs[x.new_rec].nodes| == 0)
  }

  predicate CommitOk(m: Mem, x: Thread, p: int) {
    && !x.op.Find? && Attempt(m, x) && x.epoch - STARTING <= p && FoundAt(m, x, p) && Pushed(m, x, 2)
    && Untouched(m, x.new_rec, x.epoch - STARTING, p)
  }

  predicate Committed(m: Mem, x: Thread, e: nat) {
    && !x.op.Find? && e > STARTING && At(m, x.new_rec, e - STARTING) && |m.recs[x.new_rec].nodes| == 2
    && Told(m, Outcome(x.op, true, e - STARTING, x.since))
  }

  predicate Inv(s: State) {
    MemOk(s.m) && forall t {:trigger ThreadOk(s.m, s.th[t], t)} :: 0 <= t < |s.th| ==> ThreadOk(s.m, s.th[t], t)
  }
}
