/** The versioned list (benchmark/versioning/list_vlist.c) as a state machine: readers,
    insertions and deletions of many threads, which read slots, push slots, help each
    other to stamp records with epochs, and commit by appending a record to a chain. */
module VList {
  import opened Options

  const INDIRECT: nat := 0
  const INACTIVE: nat := 1
  const STARTING: nat := 2

  const HEAD: nat := 0
  const TAIL: nat := 1

  /** The slots of a node, oldest first; slot_next leads from one to the one before it. */
  datatype Node = Node(value: int, owner: Option<nat>, slots: seq<nat>)

  /** node is a history variable. */
  datatype Slot = Slot(epoch: nat, next: nat, rec: Option<nat>, node: nat)

  /** pos and base are history variables: the place in the chain, and the place of the
      snapshot it was made from; dead: the writer has given up. */
  datatype Rec = Rec(epoch: nat, next: Option<nat>, nodes: seq<nat>, slots: seq<nat>,
                     owner: nat, pos: Option<nat>, base: nat, dead: bool)

  /** chain and lists are history variables: the committed records, and the nodes of the
      list after each of them. g is g_committed_rec. */
  datatype Mem = Mem(nodes: seq<Node>, slots: seq<Slot>, recs: seq<Rec>, g: nat,
                     chain: seq<nat>, lists: seq<seq<nat>>)

  datatype Op = Ins(key: int, node: nat) | Del(key: int) | Find(key: int)

  datatype Phase =
    | Idle
    | Scan(r: nat, e: nat)          // vlist_set_read_epoch at record r, with epoch e
    | ScanRead(r: nat, e: nat)      // about to look at the epoch of r
    | ScanStore(r: nat, e: nat)     // found it inactive
    | Top                           // about to load a node's slots
    | Seek(i: nat, ind: bool)       // at slot i, or at its record
    | Push                          // add_slot
    | Commit(r: nat, e: nat)        // vlist_write_cs_exit at record r
    | CommitRead(r: nat, e: nat)
    | CommitStore(r: nat, e: nat)
    | StampRec(e: nat)
    | StampSlot(k: nat, e: nat)
    | Undo(k: nat)
    | Lost                          // an assertion of read_slot has failed

  /** What an operation has returned. at is the place in the chain it belongs to, since
      the length of the chain when it began. */
  datatype Outcome = Outcome(op: Op, ok: bool, at: int, since: nat)

  datatype Thread = Thread(rec: nat, epoch: nat, ph: Phase, op: Op, new_rec: nat, prev: nat, cur: Option<nat>,
                           after: nat, since: nat, out: Option<Outcome>)

  datatype State = State(m: Mem, th: seq<Thread>)

  // ---------------------------------------------------------------- scanning the chain

  function FreshRec(t: nat): Rec {
    Rec(INACTIVE, None, [], [], t, None, 0, false)
  }

  /** The first part of an operation, private but for the record it starts from. */
  predicate CanBegin(s: State, t: nat, op: Op) {
    && t < |s.th| && s.th[t].ph == Idle && s.th[t].rec < |s.m.recs|
    && HEAD < |s.m.nodes| && TAIL < |s.m.nodes| && s.m.nodes[HEAD].value < op.key < s.m.nodes[TAIL].value
    && (op.Ins? ==> op.node == |s.m.nodes|)
  }

  function BeginMem(m: Mem, t: nat, op: Op): Mem {
    var n := |m.nodes|;
    if op.Find? then m
    else if op.Del? then m.(recs := m.recs + [FreshRec(t)])
    else m.(nodes := m.nodes + [Node(op.key, Some(t), [|m.slots|])],
            slots := m.slots + [Slot(STARTING, n, None, n)],
            recs := m.recs + [FreshRec(t)])
  }

  function DoBegin(s: State, t: nat, op: Op): State
    requires CanBegin(s, t, op)
  {
    var x := s.th[t];
    State(BeginMem(s.m, t, op),
          s.th[t := x.(op := op, ph := Scan(x.rec, s.m.recs[x.rec].epoch), new_rec := |s.m.recs|, prev := HEAD,
                       cur := None, since := |s.m.chain|, out := None)])
  }

  predicate CanScan(s: State, t: nat) {
    t < |s.th| && s.th[t].ph.Scan? && s.th[t].ph.r < |s.m.recs|
  }

  function DoScan(s: State, t: nat): State
    requires CanScan(s, t)
  {
    var x := s.th[t];
    match s.m.recs[x.ph.r].next
    case Some(n) => s.(th := s.th[t := x.(ph := ScanRead(n, x.ph.e + 1))])
    case None => s.(th := s.th[t := x.(rec := x.ph.r, epoch := x.ph.e, ph := Top)])
  }

  predicate CanScanRead(s: State, t: nat) {
    t < |s.th| && s.th[t].ph.ScanRead? && s.th[t].ph.r < |s.m.recs|
  }

  function DoScanRead(s: State, t: nat): State
    requires CanScanRead(s, t)
  {
    var x := s.th[t];
    s.(th := s.th[t := x.(ph := if s.m.recs[x.ph.r].epoch == INACTIVE then ScanStore(x.ph.r, x.ph.e) else Scan(x.ph.r, x.ph.e))])
  }

  function WithEpoch(m: Mem, r: nat, e: nat): Mem
    requires r < |m.recs|
  {
    m.(recs := m.recs[r := m.recs[r].(epoch := e)])
  }

  predicate CanScanStore(s: State, t: nat) {
    t < |s.th| && s.th[t].ph.ScanStore? && s.th[t].ph.r < |s.m.recs|
  }

  function DoScanStore(s: State, t: nat): State
    requires CanScanStore(s, t)
  {
    var x := s.th[t];
    State(WithEpoch(s.m, x.ph.r, x.ph.e), s.th[t := x.(ph := Scan(x.ph.r, x.ph.e))])
  }

  // ---------------------------------------------------------------- walking the list

  /** The node whose slots are read: the last one of the walk, or the one to be deleted. */
  function Place(x: Thread): nat {
    if x.cur.Some? then x.cur.value else x.prev
  }

  predicate CanLoad(s: State, t: nat) {
    t < |s.th| && s.th[t].ph == Top && Place(s.th[t]) < |s.m.nodes| && |s.m.nodes[Place(s.th[t])].slots| > 0
  }

  function DoLoad(s: State, t: nat): State
    requires CanLoad(s, t)
  {
    s.(th := s.th[t := s.th[t].(ph := Seek(|s.m.nodes[Place(s.th[t])].slots| - 1, false))])
  }

  predicate CanLook(s: State, t: nat) {
    && t < |s.th| && s.th[t].ph.Seek? && Place(s.th[t]) < |s.m.nodes|
    && s.th[t].ph.i < |s.m.nodes[Place(s.th[t])].slots|
    && s.m.nodes[Place(s.th[t])].slots[s.th[t].ph.i] < |s.m.slots|
    && var sl := s.m.slots[s.m.nodes[Place(s.th[t])].slots[s.th[t].ph.i]];
       sl.next < |s.m.nodes| && (s.th[t].ph.ind ==> sl.rec.Some? && sl.rec.value < |s.m.recs|)
  }

  /** One round of read_slot: the slot's epoch, or that of its record. */
  function DoLook(s: State, t: nat): State
    requires CanLook(s, t)
  {
    var x := s.th[t];
    var sl := s.m.slots[s.m.nodes[Place(x)].slots[x.ph.i]];
    var v := if x.ph.ind then s.m.recs[sl.rec.value].epoch else sl.epoch;
    var y :=
      if !x.ph.ind && v == INDIRECT then x.(ph := Seek(x.ph.i, true))
      else if STARTING <= v <= x.epoch then
        if sl.next == Place(x) then x.(ph := Lost) else Arrive(x, sl.next, s.m.nodes[sl.next].value)
      else if x.ph.i == 0 then x.(ph := Lost)
      else x.(ph := Seek(x.ph.i - 1, false));
    s.(th := s.th[t := y])
  }

  /** The walk has come to node c. */
  function Arrive(x: Thread, c: nat, value: int): Thread {
    var key := x.op.key;
    if x.cur.Some? then x.(after := c, ph := Push)
    else if value < key then x.(prev := c, ph := Top)
    else if x.op.Ins? && value != key then x.(cur := Some(c), ph := Push)
    else if x.op.Del? && value == key then x.(cur := Some(c), ph := Top)
    else x.(ph := Idle, out := Some(Outcome(x.op, x.op.Find? && value == key, x.epoch - STARTING, x.since)))
  }

  // ---------------------------------------------------------------- pushing slots

  /** The node a writer's slot k belongs to, and the successor it names. */
  function Target(x: Thread, k: nat): nat {
    if k == 0 then x.prev else if x.op.Ins? then x.op.node else Place(x)
  }

  function Successor(x: Thread, k: nat): nat {
    if k == 0 then (if x.op.Ins? then x.op.node else x.after) else Place(x)
  }

  predicate CanPush(s: State, t: nat) {
    && t < |s.th| && s.th[t].ph == Push && s.th[t].new_rec < |s.m.recs|
    && |s.m.recs[s.th[t].new_rec].nodes| == |s.m.recs[s.th[t].new_rec].slots| < 2
    && Target(s.th[t], |s.m.recs[s.th[t].new_rec].nodes|) < |s.m.nodes|
  }

  function PushMem(m: Mem, r: nat, n: nat, next: nat): Mem
    requires r < |m.recs| && n < |m.nodes|
  {
    m.(slots := m.slots + [Slot(INDIRECT, next, Some(r), n)],
       nodes := m.nodes[n := m.nodes[n].(slots := m.nodes[n].slots + [|m.slots|])],
       recs := m.recs[r := m.recs[r].(nodes := m.recs[r].nodes + [n], slots := m.recs[r].slots + [|m.slots|])])
  }

  /** add_slot with a successful CAS; one that fails changes nothing. */
  function DoPush(s: State, t: nat): State
    requires CanPush(s, t)
  {
    var x := s.th[t];
    var k := |s.m.recs[x.new_rec].nodes|;
    State(PushMem(s.m, x.new_rec, Target(x, k), Successor(x, k)),
          s.th[t := if k == 1 then x.(ph := Commit(x.rec, x.epoch + 1)) else x])
  }

  // ---------------------------------------------------------------- committing

  predicate Conflict(a: Rec, b: Rec) {
    exists i, j :: 0 <= i < |a.nodes| && 0 <= j < |b.nodes| && a.nodes[i] == b.nodes[j]
  }

  predicate CanCheck(s: State, t: nat) {
    && t < |s.th| && s.th[t].ph.Commit? && s.th[t].ph.r < |s.m.recs| && s.th[t].new_rec < |s.m.recs|
    && s.m.recs[s.th[t].ph.r].next.Some? && s.m.recs[s.th[t].ph.r].next.value < |s.m.recs|
  }

  /** The next record in the chain: one with a node in common ends the attempt. */
  function DoCheck(s: State, t: nat): State
    requires CanCheck(s, t)
  {
    var x := s.th[t];
    var n := s.m.recs[x.ph.r].next.value;
    if Conflict(s.m.recs[x.new_rec], s.m.recs[n]) then
      State(s.m.(recs := s.m.recs[x.new_rec := s.m.recs[x.new_rec].(dead := true)]), s.th[t := x.(ph := Undo(0))])
    else
      s.(th := s.th[t := x.(ph := CommitRead(n, x.ph.e))])
  }

  predicate CanCommitRead(s: State, t: nat) {
    t < |s.th| && s.th[t].ph.CommitRead? && s.th[t].ph.r < |s.m.recs|
  }

  function DoCommitRead(s: State, t: nat): State
    requires CanCommitRead(s, t)
  {
    var x := s.th[t];
    s.(th := s.th[t := x.(ph := if s.m.recs[x.ph.r].epoch == INACTIVE then CommitStore(x.ph.r, x.ph.e)
                                else Commit(x.ph.r, x.ph.e + 1))])
  }

  predicate CanCommitStore(s: State, t: nat) {
    t < |s.th| && s.th[t].ph.CommitStore? && s.th[t].ph.r < |s.m.recs|
  }

  function DoCommitStore(s: State, t: nat): State
    requires CanCommitStore(s, t)
  {
    var x := s.th[t];
    State(WithEpoch(s.m, x.ph.r, x.ph.e), s.th[t := x.(ph := Commit(x.ph.r, x.ph.e + 1))])
  }

  function IndexOf(l: seq<nat>, n: nat): (i: nat)
    ensures i <= |l| && (i < |l| ==> l[i] == n) && (n in l ==> i < |l|)
  {
    if l == [] || l[0] == n then 0 else 1 + IndexOf(l[1..], n)
  }

  /** The list after an operation. */
  function Applied(x: Thread, l: seq<nat>): seq<nat> {
    var i := IndexOf(l, x.prev);
    if i + 1 >= |l| then l
    else if x.op.Ins? then l[..i + 1] + [x.op.node] + l[i + 1..]
    else l[..i + 1] + l[i + 2..]
  }

  predicate CanCas(s: State, t: nat) {
    && t < |s.th| && s.th[t].ph.Commit? && s.th[t].ph.r < |s.m.recs| && s.th[t].new_rec < |s.m.recs|
    && s.m.recs[s.th[t].ph.r].next.None? && |s.m.lists| > 0 && s.th[t].epoch >= STARTING
  }

  function CasMem(m: Mem, x: Thread): Mem
    requires x.ph.Commit? && x.ph.r < |m.recs| && x.new_rec < |m.recs| && |m.lists| > 0 && x.epoch >= STARTING
  {
    var linked := m.recs[x.ph.r := m.recs[x.ph.r].(next := Some(x.new_rec))];
    m.(recs := linked[x.new_rec := linked[x.new_rec].(pos := Some(|m.chain|), base := x.epoch - STARTING)],
       chain := m.chain + [x.new_rec], lists := m.lists + [Applied(x, m.lists[|m.lists| - 1])])
  }

  /** The CAS that appends the record. */
  function DoCas(s: State, t: nat): State
    requires CanCas(s, t)
  {
    State(CasMem(s.m, s.th[t]), s.th[t := s.th[t].(ph := StampRec(s.th[t].ph.e))])
  }

  predicate CanStampRec(s: State, t: nat) {
    t < |s.th| && s.th[t].ph.StampRec? && s.th[t].new_rec < |s.m.recs|
  }

  function DoStampRec(s: State, t: nat): State
    requires CanStampRec(s, t)
  {
    var x := s.th[t];
    State(WithEpoch(s.m, x.new_rec, x.ph.e), s.th[t := x.(ph := StampSlot(0, x.ph.e))])
  }

  function SlotEpoch(m: Mem, i: nat, e: nat): Mem
    requires i < |m.slots|
  {
    m.(slots := m.slots[i := m.slots[i].(epoch := e)])
  }

  predicate HasSlot(m: Mem, x: Thread, k: nat) {
    x.new_rec < |m.recs| && k < |m.recs[x.new_rec].slots| && m.recs[x.new_rec].slots[k] < |m.slots|
  }

  predicate CanStampSlot(s: State, t: nat) {
    t < |s.th| && s.th[t].ph.StampSlot? && HasSlot(s.m, s.th[t], s.th[t].ph.k) && s.th[t].ph.e >= STARTING
  }

  /** The record's slots get the epoch too; after the second one the operation returns. */
  function DoStampSlot(s: State, t: nat): State
    requires CanStampSlot(s, t)
  {
    var x := s.th[t];
    State(SlotEpoch(s.m, s.m.recs[x.new_rec].slots[x.ph.k], x.ph.e),
          s.th[t := if x.ph.k == 0 then x.(ph := StampSlot(1, x.ph.e))
                    else x.(ph := Idle, rec := x.new_rec, epoch := x.ph.e,
                            out := Some(Outcome(x.op, true, x.ph.e - STARTING, x.since)))])
  }

  predicate CanUndo(s: State, t: nat) {
    t < |s.th| && s.th[t].ph.Undo? && HasSlot(s.m, s.th[t], s.th[t].ph.k) && s.th[t].rec < |s.m.recs|
  }

  /** The slots of an attempt that failed are made inactive; then a new attempt begins. */
  function DoUndo(s: State, t: nat): State
    requires CanUndo(s, t)
  {
    var x := s.th[t];
    var m := SlotEpoch(s.m, s.m.recs[x.new_rec].slots[x.ph.k], INACTIVE);
    if x.ph.k == 0 then State(m, s.th[t := x.(ph := Undo(1))])
    else
      State(m.(recs := m.recs + [FreshRec(t)]),
            s.th[t := x.(ph := Scan(x.rec, m.recs[x.rec].epoch), new_rec := |m.recs|, prev := HEAD, cur := None)])
  }

  // ---------------------------------------------------------------- g_committed_rec

  predicate CanAdvertise(s: State, t: nat) {
    t < |s.th| && s.th[t].ph == Idle && s.m.g < |s.m.recs| && s.m.recs[s.m.g].epoch < s.th[t].epoch
  }

  function DoAdvertise(s: State, t: nat): State
    requires CanAdvertise(s, t)
  {
    s.(m := s.m.(g := s.th[t].rec))
  }

  /** list_thread_init. */
  predicate CanJoin(s: State, t: nat) {
    t < |s.th| && s.th[t].ph == Idle && s.m.g < |s.m.recs|
  }

  function DoJoin(s: State, t: nat): State
    requires CanJoin(s, t)
  {
    s.(th := s.th[t := s.th[t].(rec := s.m.g, epoch := s.m.recs[s.m.g].epoch, out := None)])
  }

  // ---------------------------------------------------------------- steps

  datatype Action =
    | Begin(t: nat, op: Op) | ScanNext(t: nat) | ReadEpoch(t: nat) | StoreEpoch(t: nat) | Load(t: nat) | Look(t: nat)
    | PushSlot(t: nat) | Check(t: nat) | HelpRead(t: nat) | HelpStore(t: nat) | Cas(t: nat) | Stamp(t: nat)
    | StampOne(t: nat) | UndoOne(t: nat) | Advertise(t: nat) | Join(t: nat)

  predicate Next(s: State, a: Action, z: State) {
    match a
    case Begin(t, op) => CanBegin(s, t, op) && z == DoBegin(s, t, op)
    case ScanNext(t) => CanScan(s, t) && z == DoScan(s, t)
    case ReadEpoch(t) => CanScanRead(s, t) && z == DoScanRead(s, t)
    case StoreEpoch(t) => CanScanStore(s, t) && z == DoScanStore(s, t)
    case Load(t) => CanLoad(s, t) && z == DoLoad(s, t)
    case Look(t) => CanLook(s, t) && z == DoLook(s, t)
    case PushSlot(t) => CanPush(s, t) && z == DoPush(s, t)
    case Check(t) => CanCheck(s, t) && z == DoCheck(s, t)
    case HelpRead(t) => CanCommitRead(s, t) && z == DoCommitRead(s, t)
    case HelpStore(t) => CanCommitStore(s, t) && z == DoCommitStore(s, t)
    case Cas(t) => CanCas(s, t) && z == DoCas(s, t)
    case Stamp(t) => CanStampRec(s, t) && z == DoStampRec(s, t)
    case StampOne(t) => CanStampSlot(s, t) && z == DoStampSlot(s, t)
    case UndoOne(t) => CanUndo(s, t) && z == DoUndo(s, t)
    case Advertise(t) => CanAdvertise(s, t) && z == DoAdvertise(s, t)
    case Join(t) => CanJoin(s, t) && z == DoJoin(s, t)
  }

  predicate FirstList(m: Mem, l: seq<nat>) {
    && |l| >= 2 && l[0] == HEAD && l[|l| - 1] == TAIL && (forall i :: 0 <= i < |l| ==> l[i] < |m.nodes| && l[i] < |m.slots|)
    && (forall i, j :: 0 <= i < j < |l| ==> m.nodes[l[i]].value < m.nodes[l[j]].value)
    && (forall i {:trigger InitNext(m, l, i)} :: 0 <= i && i + 1 < |l| ==> InitNext(m, l, i))
  }

  predicate InitNext(m: Mem, l: seq<nat>, i: nat)
    requires i + 1 < |l| && l[i] < |m.slots|
  {
    m.slots[l[i]].next == l[i + 1]
  }

  /** A sorted list, one slot per node, and one record. */
  predicate Init(s: State) {
    var m := s.m;
    && |m.nodes| == |m.slots| && m.recs == [Rec(STARTING, None, [], [], 0, Some(0), 0, false)] && m.g == 0
    && m.chain == [0] && |m.lists| == 1
    && (forall n :: 0 <= n < |m.nodes| ==>
          && m.nodes[n] == Node(m.nodes[n].value, None, [n])
          && m.slots[n] == Slot(STARTING, m.slots[n].next, None, n) && m.slots[n].next < |m.nodes|)
    && FirstList(m, m.lists[0])
    && (forall t :: 0 <= t < |s.th| ==>
          s.th[t].ph == Idle && s.th[t].rec == 0 && s.th[t].epoch == STARTING && s.th[t].out.None?)
  }

  predicate StepAt(ss: seq<State>, acts: seq<Action>, i: nat) {
    i < |acts| && i + 1 < |ss| && Next(ss[i], acts[i], ss[i + 1])
  }

  predicate Run(ss: seq<State>, acts: seq<Action>) {
    |ss| == |acts| + 1 && Init(ss[0]) && forall i :: 0 <= i < |acts| ==> StepAt(ss, acts, i)
  }
}
