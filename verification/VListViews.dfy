/** What the versioned list promises: one epoch per record whoever stores it, a list for
    every epoch that no later step changes, first committer wins, and operations that
    take effect at one moment between their call and their return. */
module VListViews {
  import opened Options
  import opened VList
  import opened VListInvariant
  import opened VListFrames
  import opened VListSteps
  import opened VListCommit
  import opened VListCas

  // ---------------------------------------------------------------- runs

  lemma InitList(m: Mem)
    requires |m.nodes| == |m.slots| && |m.lists| == 1 && |m.recs| == 1 && FirstList(m, m.lists[0])
    requires forall n :: 0 <= n < |m.nodes| ==>
      && m.nodes[n] == Node(m.nodes[n].value, None, [n])
      && m.slots[n] == Slot(STARTING, m.slots[n].next, None, n) && m.slots[n].next < |m.nodes|
    ensures ListOk(m, 0)
  {
    var l := m.lists[0];
    forall i {:trigger Follows(m, 0, i)} | 0 <= i && i + 1 < |l| ensures Follows(m, 0, i) {
      assert m.nodes[l[i]].slots == [l[i]];
      assert InitNext(m, l, i);
    }
  }

  lemma InitInv(s: State)
    requires Init(s)
    ensures Inv(s)
  {
    InitList(s.m);
    assert s.m.lists[0][|s.m.lists[0]| - 1] == TAIL;
    assert InChain(s.m, 0);
  }

  lemma StepOk(s: State, a: Action, z: State)
    requires Inv(s) && Next(s, a, z)
    ensures Inv(z)
  {
    hide Inv, CanBegin, CanScan, CanScanRead, CanScanStore, CanLoad, CanLook, CanPush, CanCheck, CanCommitRead;
    hide CanCommitStore, CanCas, CanStampRec, CanStampSlot, CanUndo, CanAdvertise, CanJoin;
    hide DoBegin, DoScan, DoScanRead, DoScanStore, DoLoad, DoLook, DoPush, DoCheck, DoCommitRead;
    hide DoCommitStore, DoCas, DoStampRec, DoStampSlot, DoUndo, DoAdvertise, DoJoin;
    match a {
      case Begin(t, op) => BeginInv(s, t, op);
      case ScanNext(t) => ScanInv(s, t);
      case ReadEpoch(t) => ScanReadInv(s, t);
      case StoreEpoch(t) => ScanStoreInv(s, t);
      case Load(t) => LoadInv(s, t);
      case Look(t) => LookInv(s, t);
      case PushSlot(t) => PushInv(s, t);
      case Check(t) => CheckInv(s, t);
      case HelpRead(t) => CommitReadInv(s, t);
      case HelpStore(t) => CommitStoreInv(s, t);
      case Cas(t) => CasInv(s, t);
      case Stamp(t) => StampRecInv(s, t);
      case StampOne(t) => StampSlotInv(s, t);
      case UndoOne(t) => UndoInv(s, t);
      case Advertise(t) => AdvertiseInv(s, t);
      case Join(t) => JoinInv(s, t);
    }
  }

  lemma {:induction false} RunInv(ss: seq<State>, acts: seq<Action>, n: nat)
    requires Run(ss, acts) && n < |ss|
    ensures Inv(ss[n])
  {
    hide Inv, Next;
    if n == 0 {
      InitInv(ss[0]);
    } else {
      RunInv(ss, acts, n - 1);
      assert StepAt(ss, acts, n - 1);
      StepOk(ss[n - 1], acts[n - 1], ss[n]);
    }
  }

  // ---------------------------------------------------------------- epochs

  /** All epochs stored for a record, in it and in its slots, are its place in the chain. */
  lemma OneEpoch(ss: seq<State>, acts: seq<Action>, n: nat, q: nat, k: nat)
    requires Run(ss, acts) && n < |ss| && q < |ss[n].m.chain|
    ensures var m := ss[n].m;
            && m.chain[q] < |m.recs|
            && (m.recs[m.chain[q]].epoch == INACTIVE || m.recs[m.chain[q]].epoch == STARTING + q)
            && (k < |m.recs[m.chain[q]].slots| ==>
                  && m.recs[m.chain[q]].slots[k] < |m.slots|
                  && m.slots[m.recs[m.chain[q]].slots[k]].epoch in {INDIRECT, STARTING + q})
  {
    RunInv(ss, acts, n);
    var m := ss[n].m;
    assert InChain(m, q);
    var r := m.recs[m.chain[q]];
    assert RecOk(m, m.chain[q]);
    if k < |r.slots| { assert SlotOk(m, r.slots[k]); }
  }

  /** Every helper is about to store that epoch. */
  lemma HelpersAgree(ss: seq<State>, acts: seq<Action>, n: nat, t: nat)
    requires Run(ss, acts) && n < |ss| && t < |ss[n].th|
    ensures var m, x := ss[n].m, ss[n].th[t];
            && (x.ph.ScanStore? || x.ph.CommitStore? ==> STARTING <= x.ph.e < STARTING + |m.chain| && m.chain[x.ph.e - STARTING] == x.ph.r)
            && (x.ph.StampRec? || x.ph.StampSlot? ==> STARTING <= x.ph.e < STARTING + |m.chain| && m.chain[x.ph.e - STARTING] == x.new_rec)
  {
    RunInv(ss, acts, n);
    var m, x := ss[n].m, ss[n].th[t];
    assert ThreadOk(m, x, t);
    if x.ph.ScanStore? || x.ph.CommitStore? { ScanEnds(m, x.ph.r, x.ph.e - STARTING); }
    if x.ph.StampRec? || x.ph.StampSlot? { ScanEnds(m, x.new_rec, x.ph.e - STARTING); }
  }

  // ---------------------------------------------------------------- lists

  /** The list of every epoch is sorted between the sentinels, the slots lead through it,
      and it is the one before it with one node linked in or taken out. */
  lemma ListsOfEpochs(ss: seq<State>, acts: seq<Action>, n: nat, j: nat)
    requires Run(ss, acts) && n < |ss| && j < |ss[n].m.chain|
    ensures var m := ss[n].m;
            && j < |m.lists| && ListShape(m, m.lists[j])
            && (forall i {:trigger Follows(m, j, i)} :: 0 <= i && i + 1 < |m.lists[j]| ==> Follows(m, j, i))
            && (j > 0 ==>
                  && m.chain[j] < |m.recs| && |m.recs[m.chain[j]].nodes| == 2
                  && ChangedBy(m.lists[j - 1], m.lists[j], m.recs[m.chain[j]].nodes[0], m.recs[m.chain[j]].nodes[1]))
  {
    RunInv(ss, acts, n);
    var m := ss[n].m;
    assert ListOk(m, j);
    if j > 0 { assert Changed(m, j); }
  }

  /** A read_slot that stops, stops at the slot of its snapshot. */
  lemma ReadIsSnapshot(ss: seq<State>, acts: seq<Action>, n: nat, t: nat)
    requires Run(ss, acts) && n < |ss| && t < |ss[n].th| && CanLook(ss[n], t)
    requires var x := ss[n].th[t];
             var sl := ss[n].m.slots[ss[n].m.nodes[Place(x)].slots[x.ph.i]];
             STARTING <= (if x.ph.ind then ss[n].m.recs[sl.rec.value].epoch else sl.epoch) <= x.epoch
    ensures var m, x := ss[n].m, ss[n].th[t];
            var c := m.slots[m.nodes[Place(x)].slots[x.ph.i]].next;
            && x.epoch - STARTING < |m.lists| && c == NextAt(m, Place(x), x.epoch - STARTING)
            && Adjacent(m.lists[x.epoch - STARTING], Place(x), c)
  {
    RunInv(ss, acts, n);
    var m, x := ss[n].m, ss[n].th[t];
    assert ThreadOk(m, x, t) && MemOk(m);
    hide Run, Told, OwnNode;
    var b, i := x.epoch - STARTING, x.ph.i;
    var id := m.nodes[Place(x)].slots[i];
    EpochDecides(m, id, if x.ph.ind then m.recs[m.slots[id].rec.value].epoch else m.slots[id].epoch, b, x.ph.ind);
    FoundIsNext(m, x, Place(x), i);
    LastIs(m, Place(x), |m.nodes[Place(x)].slots| - 1, b, i);
  }

  /** The assertions in read_slot never fail: there is a slot, and it leads elsewhere. */
  lemma NeverLost(ss: seq<State>, acts: seq<Action>, n: nat, t: nat)
    requires Run(ss, acts) && n < |ss| && t < |ss[n].th|
    ensures !ss[n].th[t].ph.Lost?
  {
    RunInv(ss, acts, n);
    assert ThreadOk(ss[n].m, ss[n].th[t], t);
  }

  lemma QuietGrows(s: State, a: Action, z: State)
    requires Inv(s) && Next(s, a, z)
    requires a.ScanNext? || a.ReadEpoch? || a.Load? || a.Look? || a.HelpRead? || a.Join?
    ensures Grows(s.m, z.m, a.t)
  {
    assert z.m == s.m;
    assert MemOk(s.m);
    hide Grows, Inv, MemOk, Next;
    SameGrows(s.m, a.t);
  }

  lemma EpochGrows(s: State, a: Action, z: State)
    requires Inv(s) && Next(s, a, z) && (a.StoreEpoch? || a.HelpStore? || a.Stamp?)
    ensures Grows(s.m, z.m, a.t)
  {
    var x := s.th[a.t];
    assert ThreadOk(s.m, x, a.t) && MemOk(s.m);
    var r := if a.Stamp? then x.new_rec else x.ph.r;
    assert z.m == WithEpoch(s.m, r, x.ph.e) && x.ph.e >= STARTING && At(s.m, r, x.ph.e - STARTING);
    hide Grows, MemOk, Inv, Next;
    EpochMem(s.m, r, x.ph.e, a.t);
  }

  lemma SlotGrowth(s: State, a: Action, z: State)
    requires Inv(s) && Next(s, a, z) && (a.StampOne? || a.UndoOne?)
    ensures Grows(s.m, z.m, a.t)
  {
    var x := s.th[a.t];
    assert MemOk(s.m);
    var i := s.m.recs[x.new_rec].slots[x.ph.k];
    StampGrows(s.m, i, if a.StampOne? then x.ph.e else INACTIVE, a.t);
    UndoGrows(s.m, i, a.t);
  }

  lemma CheckGrows(s: State, t: nat)
    requires Inv(s) && CanCheck(s, t)
    ensures Grows(s.m, DoCheck(s, t).m, t)
  {
    var m, x := s.m, s.th[t];
    assert ThreadOk(m, x, t) && MemOk(m);
    hide MemOk, Conflict;
    DeadMem(m, x.new_rec, t);
    SameGrows(m, t);
  }

  lemma AdvertiseGrows(s: State, t: nat)
    requires Inv(s) && CanAdvertise(s, t)
    ensures Grows(s.m, DoAdvertise(s, t).m, t)
  {
    assert ThreadOk(s.m, s.th[t], t);
    AdvertiseMem(s.m, s.th[t].rec, t);
  }

  lemma StepGrows(s: State, a: Action, z: State)
    requires Inv(s) && Next(s, a, z)
    ensures Grows(s.m, z.m, a.t)
  {
    hide Grows, CanScan, CanScanRead, CanScanStore, CanLoad, CanLook, CanPush, CanCheck, CanCommitRead;
    hide CanCommitStore, CanCas, CanStampRec, CanStampSlot, CanUndo, CanAdvertise, CanJoin, ThreadOk, MemOk;
    hide DoScan, DoScanRead, DoScanStore, DoLoad, DoLook, DoPush, DoCheck, DoCommitRead;
    hide DoCommitStore, DoCas, DoStampRec, DoStampSlot, DoUndo, DoAdvertise, DoJoin;
    match a {
      case Begin(t, op) => BeginGrows(s.m, t, op, t);
      case PushSlot(t) => PushStepGrows(s, t);
      case Check(t) => CheckGrows(s, t);
      case Cas(t) => CasStepGrows(s, t);
      case Advertise(t) => AdvertiseGrows(s, t);
      case StoreEpoch(_) => EpochGrows(s, a, z);
      case HelpStore(_) => EpochGrows(s, a, z);
      case Stamp(_) => EpochGrows(s, a, z);
      case StampOne(_) => SlotGrowth(s, a, z);
      case UndoOne(_) => SlotGrowth(s, a, z);
      case _ => QuietGrows(s, a, z);
    }
  }

  lemma StampGrows(m: Mem, i: nat, e: nat, t: nat)
    requires MemOk(m) && i < |m.slots|
    ensures Grows(m, SlotEpoch(m, i, e), t)
  {
  }

  lemma PushStepGrows(s: State, t: nat)
    requires Inv(s) && CanPush(s, t)
    ensures Grows(s.m, DoPush(s, t).m, t)
  {
    var m, x := s.m, s.th[t];
    assert ThreadOk(m, x, t);
    var k := |m.recs[x.new_rec].nodes|;
    if k == 0 { WantedFirst(m, x, t); } else { WantedSecond(m, x, t); }
    PushGrows(m, x.new_rec, Target(x, k), Successor(x, k), t);
  }

  lemma CasStepGrows(s: State, t: nat)
    requires Inv(s) && CanCas(s, t)
    ensures Grows(s.m, DoCas(s, t).m, t)
  {
    var m, x := s.m, s.th[t];
    assert ThreadOk(m, x, t);
    ScanEnds(m, x.ph.r, x.ph.e - STARTING - 1);
    assert AtEnd(m, x, t);
    CasGrows(m, x, t);
  }

  /** Isolation: no step, of whatever thread, changes the list of an epoch there is, or
      what a reader at that epoch finds behind any node. */
  lemma SnapshotsStay(s: State, a: Action, z: State, j: nat, n: nat)
    requires Inv(s) && Next(s, a, z) && j < |s.m.chain| && n < |s.m.nodes|
    ensures j < |s.m.lists| && j < |z.m.lists| && z.m.lists[j] == s.m.lists[j] && z.m.chain[j] == s.m.chain[j]
    ensures NextAt(z.m, n, j) == NextAt(s.m, n, j)
  {
    StepGrows(s, a, z);
    NextKept(s.m, z.m, a.t, n, j);
  }

  /** First committer wins: of two committed records with a node in common, the later
      one was made from a snapshot that has the earlier one. */
  lemma FirstCommitterWins(ss: seq<State>, acts: seq<Action>, n: nat, p: nat, q: nat)
    requires Run(ss, acts) && n < |ss| && 0 < p < q < |ss[n].m.chain|
    ensures var m := ss[n].m;
            && m.chain[p] < |m.recs| && m.chain[q] < |m.recs|
            && (Conflict(m.recs[m.chain[q]], m.recs[m.chain[p]]) ==> p <= m.recs[m.chain[q]].base < q)
  {
    RunInv(ss, acts, n);
    var m := ss[n].m;
    assert InChain(m, q) && InChain(m, p);
  }

  // ---------------------------------------------------------------- operations

  /** The snapshot of an operation is the list as it is when its scan ends. */
  lemma SnapshotIsNow(ss: seq<State>, acts: seq<Action>, n: nat, t: nat)
    requires Run(ss, acts) && n < |acts| && acts[n] == ScanNext(t) && t < |ss[n + 1].th| && ss[n + 1].th[t].ph == Top
    ensures ss[n + 1].th[t].epoch - STARTING == |ss[n + 1].m.chain| - 1
  {
    RunInv(ss, acts, n);
    assert StepAt(ss, acts, n);
    var m, x := ss[n].m, ss[n].th[t];
    assert ThreadOk(m, x, t);
    ScanEnds(m, x.ph.r, x.ph.e - STARTING);
  }

  /** An operation that has returned has done, to the set of keys at one place of the
      chain between its call and its return, what it says. */
  lemma OperationsAreAtomic(ss: seq<State>, acts: seq<Action>, n: nat, t: nat)
    requires Run(ss, acts) && n < |ss| && t < |ss[n].th| && ss[n].th[t].out.Some?
    ensures var m, o := ss[n].m, ss[n].th[t].out.value;
            && o.since <= o.at + 1 && 0 <= o.at < |m.lists|
            && var now := Keys(m.nodes, m.lists[o.at]);
               && (o.op.Find? ==> (o.ok <==> o.op.key in now))
               && (!o.op.Find? && !o.ok ==> (o.op.Ins? <==> o.op.key in now))
               && (!o.op.Find? && o.ok ==>
                     && o.since <= o.at && o.at > 0
                     && var before := Keys(m.nodes, m.lists[o.at - 1]);
                        && (o.op.Ins? ==> o.op.key !in before && now == before + {o.op.key})
                        && (o.op.Del? ==> o.op.key in before && now == before - {o.op.key}))
  {
    RunInv(ss, acts, n);
    assert ThreadOk(ss[n].m, ss[n].th[t], t);
  }

  /** What a step of one thread does to the operation under way: nobody else touches it,
      and until it ends it stays the one it was, begun when it was. */
  lemma OperationEffect(s: State, a: Action, z: State)
    requires Next(s, a, z)
    ensures a.t < |s.th| == |z.th| && forall u :: 0 <= u < |s.th| && u != a.t ==> z.th[u] == s.th[u]
    ensures s.th[a.t].ph.Idle? ==> (z.th[a.t].ph.Idle? <==> !a.Begin?)
    ensures a.Begin? ==> s.th[a.t].ph.Idle? && z.th[a.t].op == a.op && z.th[a.t].since == |s.m.chain|
    ensures !s.th[a.t].ph.Idle? && !z.th[a.t].ph.Idle? ==> z.th[a.t].op == s.th[a.t].op && z.th[a.t].since == s.th[a.t].since
    ensures !s.th[a.t].ph.Idle? && z.th[a.t].ph.Idle? ==>
      z.th[a.t].out.Some? && z.th[a.t].out.value.op == s.th[a.t].op && z.th[a.t].out.value.since == s.th[a.t].since
  {
  }

  /** From the call to the return an operation is under way. */
  predicate Busy(ss: seq<State>, b: nat, n: nat, t: nat) {
    forall i :: b < i < n && i < |ss| ==> t < |ss[i].th| && !ss[i].th[t].ph.Idle?
  }

  lemma {:induction false} StaysBegun(ss: seq<State>, acts: seq<Action>, b: nat, n: nat, t: nat, op: Op)
    requires Run(ss, acts) && b < n < |ss| && acts[b] == Begin(t, op) && Busy(ss, b, n + 1, t)
    ensures t < |ss[n].th| && ss[n].th[t].op == op && ss[n].th[t].since == |ss[b].m.chain|
    decreases n
  {
    hide Next;
    assert StepAt(ss, acts, b) && StepAt(ss, acts, n - 1);
    OperationEffect(ss[b], acts[b], ss[b + 1]);
    OperationEffect(ss[n - 1], acts[n - 1], ss[n]);
    if n > b + 1 {
      StaysBegun(ss, acts, b, n - 1, t, op);
    }
  }

  /** An operation that returns says what came of it, and takes effect at a place of the
      chain that did not exist yet, or was the last one, when it was called, and exists
      when it returns. */
  lemma ReturnsBetween(ss: seq<State>, acts: seq<Action>, b: nat, n: nat, t: nat, op: Op)
    requires Run(ss, acts) && b + 1 < n < |ss| && acts[b] == Begin(t, op) && Busy(ss, b, n, t)
    requires t < |ss[n].th| && ss[n].th[t].ph.Idle?
    ensures ss[n].th[t].out.Some?
    ensures var o := ss[n].th[t].out.value;
            && o.op == op && |ss[b].m.chain| - 1 <= o.at < |ss[n].m.chain|
            && (o.ok && !op.Find? ==> |ss[b].m.chain| <= o.at)
  {
    hide Next;
    assert StepAt(ss, acts, n - 1);
    OperationEffect(ss[n - 1], acts[n - 1], ss[n]);
    StaysBegun(ss, acts, b, n - 1, t, op);
    RunInv(ss, acts, n);
    assert ThreadOk(ss[n].m, ss[n].th[t], t);
  }

  /** A writer gives an attempt up only because of a record that was committed after its
      snapshot and shares a node with it. */
  lemma GivesUpOnConflict(s: State, t: nat, z: State)
    requires Inv(s) && Next(s, Check(t), z)
    ensures t < |s.th| == |z.th| && s.th[t].ph.Commit? && s.th[t].new_rec < |s.m.recs|
    ensures var x, y := s.th[t], z.th[t];
            && (y.ph.Undo? || (y.ph.CommitRead? && y.ph.e == x.ph.e))
            && (y.ph.Undo? ==> exists q :: ConflictAt(s.m, x, q))
  {
    var m, x := s.m, s.th[t];
    assert ThreadOk(m, x, t) && MemOk(m);
    hide Conflict;
    var q := x.ph.e - STARTING - 1;
    assert RecOk(m, x.ph.r) && InChain(m, q);
    hide Inv, MemOk, ThreadOk, RecOk;
    assert Conflict(m.recs[x.new_rec], m.recs[m.chain[q + 1]]) ==> ConflictAt(m, x, q + 1);
  }

  /** The record at place q came after the snapshot of x, and shares a node with its own. */
  predicate ConflictAt(m: Mem, x: Thread, q: int) {
    && 0 <= q < |m.chain| && x.epoch - STARTING < q && m.chain[q] < |m.recs| && x.new_rec < |m.recs|
    && Conflict(m.recs[x.new_rec], m.recs[m.chain[q]])
  }

  /** Storing epochs: a committed slot gets the place of its record, a slot of an attempt
      given up is put out of use, and the thread goes on from its own record. */
  lemma StampAnswers(s: State, a: Action, z: State, t: nat)
    requires Inv(s) && Next(s, a, z) && (a == StampOne(t) || a == UndoOne(t))
    ensures t < |s.th| == |z.th| && (s.th[t].ph.StampSlot? || s.th[t].ph.Undo?) && HasSlot(s.m, s.th[t], s.th[t].ph.k)
    ensures var m, x, y := s.m, s.th[t], z.th[t]; var i := m.recs[x.new_rec].slots[x.ph.k];
            && i < |z.m.slots|
            && (a.StampOne? ==> m.recs[x.new_rec].pos.Some? && z.m.slots[i].epoch == STARTING + m.recs[x.new_rec].pos.value)
            && (a.UndoOne? ==> m.recs[x.new_rec].pos.None? && z.m.slots[i].epoch == INACTIVE)
            && (y.ph.Idle? ==> y.rec == x.new_rec && y.out.Some? && y.out.value.ok)
  {
    assert ThreadOk(s.m, s.th[t], t);
    hide Told;
  }

  /** Advertising moves g_committed_rec forward to the thread's record, and who joins starts
      from there, with its epoch. */
  lemma AdvertiseAnswers(s: State, a: Action, z: State)
    requires Inv(s) && Next(s, a, z) && (a.Advertise? || a.Join?)
    ensures a.t < |z.th| && z.m.g < |z.m.recs| && z.m.recs[z.m.g].pos.Some?
    ensures z.th[a.t].rec == z.m.g && z.th[a.t].epoch == z.m.recs[z.m.g].epoch == STARTING + z.m.recs[z.m.g].pos.value
    ensures s.m.g < |s.m.recs| && (a.Advertise? ==> z.m.recs[z.m.g].epoch > s.m.recs[s.m.g].epoch)
  {
    assert ThreadOk(s.m, s.th[a.t], a.t) && MemOk(s.m);
    assert RecOk(s.m, s.m.g) && RecOk(s.m, s.th[a.t].rec);
    hide Inv, MemOk;
  }

  // ---------------------------------------------------------------- nobody waits

  predicate CanStep(s: State, t: nat)
    requires t < |s.th|
  {
    match s.th[t].ph
    case Idle => true
    case Scan(_, _) => CanScan(s, t)
    case ScanRead(_, _) => CanScanRead(s, t)
    case ScanStore(_, _) => CanScanStore(s, t)
    case Top => CanLoad(s, t)
    case Seek(_, _) => CanLook(s, t)
    case Push => CanPush(s, t)
    case Commit(_, _) => CanCheck(s, t) || CanCas(s, t)
    case CommitRead(_, _) => CanCommitRead(s, t)
    case CommitStore(_, _) => CanCommitStore(s, t)
    case StampRec(_) => CanStampRec(s, t)
    case StampSlot(_, _) => CanStampSlot(s, t)
    case Undo(_) => CanUndo(s, t)
    case Lost => false
  }

  /** Along every run each operation under way has a next step, whatever others do, and an
      idle thread may begin any operation on a key between the sentinels. */
  lemma NobodyWaits(ss: seq<State>, acts: seq<Action>, n: nat, t: nat, op: Op)
    requires Run(ss, acts) && n < |ss| && t < |ss[n].th|
    ensures CanStep(ss[n], t)
    ensures |ss[n].m.nodes| >= 2
    ensures ss[n].th[t].ph.Idle? && ss[n].m.nodes[HEAD].value < op.key < ss[n].m.nodes[TAIL].value ==>
      CanBegin(ss[n], t, op) || (op.Ins? && op.node != |ss[n].m.nodes|)
  {
    RunInv(ss, acts, n);
    hide Run;
    StepsOn(ss[n], t);
  }

  lemma StepsOn(s: State, t: nat)
    requires Inv(s) && t < |s.th|
    ensures CanStep(s, t) && |s.m.nodes| >= 2 && s.th[t].rec < |s.m.recs|
  {
    var m, x := s.m, s.th[t];
    assert ThreadOk(m, x, t) && MemOk(m);
    match x.ph {
      case Top => PlaceKnown(m, x);
      case Seek(i, ind) => SeekKnown(m, x);
      case Push => TargetKnown(m, x);
      case Commit(r, e) => NextKnown(m, r, e - STARTING - 1);
      case StampSlot(k, e) => assert RecOk(m, x.new_rec);
      case Undo(k) => assert RecOk(m, x.new_rec);
      case _ =>
    }
  }

  lemma PlaceKnown(m: Mem, x: Thread)
    requires MemOk(m) && SearchOk(m, x)
    ensures Place(x) < |m.nodes| && |m.nodes[Place(x)].slots| > 0
  {
    assert NodeOk(m, Place(x));
  }

  lemma SeekKnown(m: Mem, x: Thread)
    requires MemOk(m) && SeekOk(m, x)
    ensures var id := m.nodes[Place(x)].slots[x.ph.i];
            && id < |m.slots| && m.slots[id].next < |m.nodes|
            && (x.ph.ind ==> m.slots[id].rec.Some? && m.slots[id].rec.value < |m.recs|)
  {
    assert NodeOk(m, Place(x));
    var id := m.nodes[Place(x)].slots[x.ph.i];
    assert SlotOk(m, id);
  }

  lemma TargetKnown(m: Mem, x: Thread)
    requires MemOk(m) && x.epoch >= STARTING && FoundAt(m, x, x.epoch - STARTING)
    ensures x.prev < |m.nodes| && Place(x) < |m.nodes|
  {
  }

  lemma NextKnown(m: Mem, r: nat, p: int)
    requires MemOk(m) && At(m, r, p)
    ensures m.recs[r].next.Some? ==> m.recs[r].next.value < |m.recs|
  {
    assert RecOk(m, r) && InChain(m, p);
    if p + 1 < |m.chain| { assert InChain(m, p + 1); }
  }
}
