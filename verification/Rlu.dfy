/** Read-Log-Update (benchmark/rlu/rlu.c, rlu.h) with the global version counters, as
    a state machine: sections of many threads, their write sets, and the
    quiescence and writeback of every writer, all interleaved. */
module Rlu {
  import opened Options

  const MAX_WRITE_SETS: nat := 200

  /** The copy of an object in a write set. */
  datatype Item = Item(o: nat, val: int)

  /** A locked object points to item k of thread t's write set at position p. */
  datatype CopyPtr = CopyPtr(t: nat, p: nat, k: nat)

  datatype Obj = Obj(val: int, lock: Option<CopyPtr>)

  datatype Phase =
    | Out                         // between sections
    | Registered                  // run_counter raised, versions not read
    | Versioned                   // local_version read, local_commit_version not
    | In                          // inside the section
    | Aborting(k: nat)            // section left, items before k unlocked
    | Full                        // committed, has to write back at once
    | Capture(n: nat)             // rlu_init_quiescence, before thread n
    | Wait                        // rlu_wait_for_quiescence
    | Writeback(p: nat, k: nat, copied: bool)   // at item k of write set p
    | Finish                      // everything written back
    | Count                       // writer_version back at MAX, commit not counted

  /** Where a dereferenced pointer leads. */
  datatype Loc = Org | At(c: CopyPtr)

  datatype Ref = Ref(o: nat, loc: Loc, val: int)

  /** rlu_deref_slow_path has read the lock and not yet the writer's version. */
  datatype Look = NoLook | LookAt(o: nat, c: CopyPtr)

  datatype Thread = Thread(
    run: nat,                     // run_counter
    lv: nat,                      // local_version
    ph: Phase,
    check: bool, steal: bool,     // is_check_locks, is_steal
    wrote: bool,                  // is_write_detected
    wv: Option<nat>,              // writer_version; None is MAX_VERSION
    ver: nat,                     // history variable: the last writer_version
    sets: seq<seq<Item>>,         // all write sets so far; sets[tail] is the current one
    head: nat, wb: nat, tail: nat,
    need: seq<bool>, cap: seq<nat>,
    look: Look,
    refs: set<Ref>)               // what the section has dereferenced

  datatype State = State(
    g: nat,                       // g_rlu_writer_version
    commit: nat,                  // g_rlu_commit_version
    done: set<nat>,               // history variable: the versions counted in commit
    max: nat,                     // g_rlu_max_write_sets
    th: seq<Thread>, obj: seq<Obj>)

  predicate Running(ph: Phase) {
    ph == Versioned || ph == In
  }

  predicate Syncing(ph: Phase) {
    ph.Capture? || ph.Wait? || ph.Writeback? || ph.Finish?
  }

  function CopyVal(th: seq<Thread>, c: CopyPtr): int {
    if c.t < |th| && c.p < |th[c.t].sets| && c.k < |th[c.t].sets[c.p]| then th[c.t].sets[c.p][c.k].val else 0
  }

  /** Thread t's writer version is not newer than l. */
  predicate Reached(th: seq<Thread>, t: nat, l: nat) {
    t < |th| && th[t].wv.Some? && th[t].wv.value <= l
  }

  /** The copy of o is the one a section of thread t with version l has to use. */
  predicate Stolen(th: seq<Thread>, ob: Obj, t: nat, l: nat) {
    ob.lock.Some? && ob.lock.value.t != t && Reached(th, ob.lock.value.t, l)
  }

  /** The value object o has for thread t's section. */
  function View(th: seq<Thread>, ob: Obj, t: nat, l: nat): int {
    if ob.lock.Some? && (ob.lock.value.t == t || Reached(th, ob.lock.value.t, l))
    then CopyVal(th, ob.lock.value) else ob.val
  }

  // ---------------------------------------------------------------- sections

  /** rlu_reader_lock: run_counter first, then the versions. */
  predicate CanEnter(s: State, t: nat) {
    t < |s.th| && s.th[t].ph == Out
  }

  function DoEnter(s: State, t: nat): State
    requires CanEnter(s, t)
  {
    s.(th := s.th[t := s.th[t].(run := s.th[t].run + 1, ph := Registered, wrote := false, check := true, steal := true)])
  }

  predicate CanVersion(s: State, t: nat) {
    t < |s.th| && s.th[t].ph == Registered
  }

  function DoVersion(s: State, t: nat): State
    requires CanVersion(s, t)
  {
    s.(th := s.th[t := s.th[t].(lv := s.g, ph := Versioned)])
  }

  /** local_commit_version, and what follows from it being equal to local_version. */
  predicate CanBegin(s: State, t: nat) {
    t < |s.th| && s.th[t].ph == Versioned
  }

  function DoBegin(s: State, t: nat): State
    requires CanBegin(s, t)
  {
    var x := s.th[t];
    s.(th := s.th[t := x.(ph := In, steal := x.lv != s.commit, check := x.lv != s.commit || x.tail != x.wb)])
  }

  /** RLU_DEREF: done at once unless the object is locked and locks are checked. */
  predicate CanDeref(s: State, t: nat, o: nat) {
    t < |s.th| && o < |s.obj| && s.th[t].ph == In && s.th[t].look == NoLook
  }

  function DoDeref(s: State, t: nat, o: nat): State
    requires CanDeref(s, t, o)
  {
    var x, ob := s.th[t], s.obj[o];
    if !x.check || ob.lock.None? then
      s.(th := s.th[t := x.(refs := x.refs + {Ref(o, Org, ob.val)})])
    else
      s.(th := s.th[t := x.(look := LookAt(o, ob.lock.value))])
  }

  /** The rest of the slow path: the own copy, a stolen copy, or the original. */
  predicate CanResolve(s: State, t: nat) {
    t < |s.th| && s.th[t].ph == In && s.th[t].look.LookAt? && s.th[t].look.o < |s.obj|
  }

  function DoResolve(s: State, t: nat): State
    requires CanResolve(s, t)
  {
    var x := s.th[t];
    var o, c := x.look.o, x.look.c;
    if c.t == t && c.p == x.tail then
      s.(th := s.th[t := x.(look := NoLook)])
    else if c.t == t || (x.steal && Reached(s.th, c.t, x.lv)) then
      s.(th := s.th[t := x.(look := NoLook, refs := x.refs + {Ref(o, At(c), CopyVal(s.th, c))})])
    else
      s.(th := s.th[t := x.(look := NoLook, refs := x.refs + {Ref(o, Org, s.obj[o].val)})])
  }

  /** rlu_try_lock on a free object: install the copy. */
  predicate CanLock(s: State, t: nat, o: nat) {
    && t < |s.th| && o < |s.obj| && s.th[t].ph == In && s.th[t].look == NoLook && s.obj[o].lock.None?
    && s.th[t].tail < |s.th[t].sets|
  }

  function DoLock(s: State, t: nat, o: nat): State
    requires CanLock(s, t, o)
  {
    var x := s.th[t];
    s.(th := s.th[t := x.(wrote := true, check := true,
                          sets := x.sets[x.tail := x.sets[x.tail] + [Item(o, s.obj[o].val)]])],
       obj := s.obj[o := s.obj[o].(lock := Some(CopyPtr(t, x.tail, |x.sets[x.tail]|)))])
  }

  /** The section changes one of its own copies. */
  predicate CanWrite(s: State, t: nat, k: nat) {
    t < |s.th| && s.th[t].ph == In && s.th[t].tail < |s.th[t].sets| && k < |s.th[t].sets[s.th[t].tail]|
  }

  function DoWrite(s: State, t: nat, k: nat, val: int): State
    requires CanWrite(s, t, k)
  {
    var x := s.th[t];
    s.(th := s.th[t := x.(sets := x.sets[x.tail := x.sets[x.tail][k := x.sets[x.tail][k].(val := val)]])])
  }

  /** rlu_reader_unlock and rlu_commit_write_set. */
  predicate CanLeave(s: State, t: nat) {
    t < |s.th| && s.th[t].ph == In && s.th[t].look == NoLook
  }

  function DoLeave(s: State, t: nat): State
    requires CanLeave(s, t)
  {
    var x := s.th[t].(run := s.th[t].run + 1, refs := {});
    if !x.wrote then s.(th := s.th[t := x.(ph := Out)])
    else
      var tail := x.tail + 1;
      s.(th := s.th[t := x.(wrote := false, tail := tail, sets := x.sets + [[]],
                            ph := if tail % MAX_WRITE_SETS == x.head % MAX_WRITE_SETS || tail - x.wb >= s.max
                                  then Full else Out)])
  }

  /** rlu_abort: out of the section first, then the locks. */
  predicate CanAbort(s: State, t: nat) {
    t < |s.th| && s.th[t].ph == In && s.th[t].look == NoLook
  }

  function DoAbort(s: State, t: nat): State
    requires CanAbort(s, t)
  {
    var x := s.th[t].(run := s.th[t].run + 1, refs := {});
    s.(th := s.th[t := x.(ph := if x.wrote then Aborting(0) else Out, wrote := false)])
  }

  predicate CanUnlock(s: State, t: nat) {
    && t < |s.th| && s.th[t].ph.Aborting? && s.th[t].tail < |s.th[t].sets|
    && s.th[t].ph.k < |s.th[t].sets[s.th[t].tail]|
    && s.th[t].sets[s.th[t].tail][s.th[t].ph.k].o < |s.obj|
  }

  function DoUnlock(s: State, t: nat): State
    requires CanUnlock(s, t)
  {
    var k := s.th[t].ph.k;
    var o := s.th[t].sets[s.th[t].tail][k].o;
    s.(th := s.th[t := s.th[t].(ph := Aborting(k + 1))], obj := s.obj[o := s.obj[o].(lock := None)])
  }

  predicate CanAborted(s: State, t: nat) {
    && t < |s.th| && s.th[t].ph.Aborting? && s.th[t].tail < |s.th[t].sets|
    && s.th[t].ph.k == |s.th[t].sets[s.th[t].tail]|
  }

  function DoAborted(s: State, t: nat): State
    requires CanAborted(s, t)
  {
    s.(th := s.th[t := s.th[t].(ph := Out, sets := s.th[t].sets[s.th[t].tail := []])])
  }

  // ---------------------------------------------------------------- rlu_sync_and_writeback

  /** Reading the global version and raising it is one step. */
  predicate CanSync(s: State, t: nat) {
    t < |s.th| && (s.th[t].ph == Out || s.th[t].ph == Full) && s.th[t].tail != s.th[t].head
  }

  function DoSync(s: State, t: nat): State
    requires CanSync(s, t)
  {
    s.(g := s.g + 1, th := s.th[t := s.th[t].(wv := Some(s.g + 1), ver := s.g + 1, ph := Capture(0))])
  }

  predicate CanCapture(s: State, t: nat) {
    && t < |s.th| && s.th[t].ph.Capture? && s.th[t].ph.n < |s.th|
    && |s.th[t].need| == |s.th[t].cap| == |s.th|
  }

  function DoCapture(s: State, t: nat): State
    requires CanCapture(s, t)
  {
    var x, n := s.th[t], s.th[t].ph.n;
    s.(th := s.th[t := x.(need := x.need[n := n != t && s.th[n].run % 2 == 1], cap := x.cap[n := s.th[n].run],
                          ph := if n + 1 == |s.th| then Wait else Capture(n + 1))])
  }

  predicate CanPass(s: State, t: nat, n: nat) {
    && t < |s.th| && s.th[t].ph == Wait && n < |s.th| && |s.th[t].need| == |s.th[t].cap| == |s.th|
    && s.th[t].need[n] && s.th[t].wv.Some?
    && (s.th[t].cap[n] != s.th[n].run || s.th[n].lv >= s.th[t].wv.value)
  }

  function DoPass(s: State, t: nat, n: nat): State
    requires CanPass(s, t, n)
  {
    s.(th := s.th[t := s.th[t].(need := s.th[t].need[n := false])])
  }

  /** Nobody is waited for: reset the old write sets, go on to the new ones. */
  predicate CanReset(s: State, t: nat) {
    t < |s.th| && s.th[t].ph == Wait && forall n :: 0 <= n < |s.th[t].need| ==> !s.th[t].need[n]
  }

  function DoReset(s: State, t: nat): State
    requires CanReset(s, t)
  {
    s.(th := s.th[t := s.th[t].(head := s.th[t].wb, ph := Writeback(s.th[t].wb, 0, false))])
  }

  predicate AtItem(s: State, t: nat) {
    && t < |s.th| && s.th[t].ph.Writeback? && s.th[t].ph.p < s.th[t].tail && s.th[t].ph.p < |s.th[t].sets|
    && s.th[t].ph.k < |s.th[t].sets[s.th[t].ph.p]|
    && s.th[t].sets[s.th[t].ph.p][s.th[t].ph.k].o < |s.obj|
  }

  function ItemAt(s: State, t: nat): Item
    requires AtItem(s, t)
  {
    s.th[t].sets[s.th[t].ph.p][s.th[t].ph.k]
  }

  predicate CanCopyBack(s: State, t: nat) {
    AtItem(s, t) && !s.th[t].ph.copied
  }

  function DoCopyBack(s: State, t: nat): State
    requires CanCopyBack(s, t)
  {
    var it := ItemAt(s, t);
    s.(th := s.th[t := s.th[t].(ph := s.th[t].ph.(copied := true))], obj := s.obj[it.o := s.obj[it.o].(val := it.val)])
  }

  predicate CanRelease(s: State, t: nat) {
    AtItem(s, t) && s.th[t].ph.copied
  }

  function DoRelease(s: State, t: nat): State
    requires CanRelease(s, t)
  {
    var it := ItemAt(s, t);
    s.(th := s.th[t := s.th[t].(ph := Writeback(s.th[t].ph.p, s.th[t].ph.k + 1, false))],
       obj := s.obj[it.o := s.obj[it.o].(lock := None)])
  }

  predicate CanNextSet(s: State, t: nat) {
    && t < |s.th| && s.th[t].ph.Writeback? && s.th[t].ph.p < s.th[t].tail && s.th[t].ph.p < |s.th[t].sets|
    && s.th[t].ph.k == |s.th[t].sets[s.th[t].ph.p]|
  }

  function DoNextSet(s: State, t: nat): State
    requires CanNextSet(s, t)
  {
    s.(th := s.th[t := s.th[t].(ph := Writeback(s.th[t].ph.p + 1, 0, false))])
  }

  predicate CanWritten(s: State, t: nat) {
    t < |s.th| && s.th[t].ph.Writeback? && s.th[t].ph.p == s.th[t].tail
  }

  function DoWritten(s: State, t: nat): State
    requires CanWritten(s, t)
  {
    s.(th := s.th[t := s.th[t].(wb := s.th[t].tail, ph := Finish)])
  }

  predicate CanFinish(s: State, t: nat) {
    t < |s.th| && s.th[t].ph == Finish
  }

  function DoFinish(s: State, t: nat): State
    requires CanFinish(s, t)
  {
    s.(th := s.th[t := s.th[t].(wv := None, ph := Count)])
  }

  predicate CanCount(s: State, t: nat) {
    t < |s.th| && s.th[t].ph == Count
  }

  function DoCount(s: State, t: nat): State
    requires CanCount(s, t)
  {
    s.(commit := s.commit + 1, done := s.done + {s.th[t].ver}, th := s.th[t := s.th[t].(ph := Out)])
  }

  // ---------------------------------------------------------------- runs

  datatype Action =
    | Enter(t: nat) | Version(t: nat) | Begin(t: nat) | Deref(t: nat, o: nat) | Resolve(t: nat)
    | Lock(t: nat, o: nat) | Write(t: nat, k: nat, val: int) | Leave(t: nat)
    | Abort(t: nat) | Unlock(t: nat) | Aborted(t: nat)
    | Sync(t: nat) | CaptureRun(t: nat) | Pass(t: nat, n: nat) | Reset(t: nat)
    | CopyBack(t: nat) | Release(t: nat) | NextSet(t: nat) | Written(t: nat) | FinishSync(t: nat) | CountSync(t: nat)

  predicate SectionNext(s: State, a: Action, z: State) {
    match a
    case Enter(t) => CanEnter(s, t) && z == DoEnter(s, t)
    case Version(t) => CanVersion(s, t) && z == DoVersion(s, t)
    case Begin(t) => CanBegin(s, t) && z == DoBegin(s, t)
    case Deref(t, o) => CanDeref(s, t, o) && z == DoDeref(s, t, o)
    case Resolve(t) => CanResolve(s, t) && z == DoResolve(s, t)
    case Lock(t, o) => CanLock(s, t, o) && z == DoLock(s, t, o)
    case Write(t, k, val) => CanWrite(s, t, k) && z == DoWrite(s, t, k, val)
    case Leave(t) => CanLeave(s, t) && z == DoLeave(s, t)
    case Abort(t) => CanAbort(s, t) && z == DoAbort(s, t)
    case Unlock(t) => CanUnlock(s, t) && z == DoUnlock(s, t)
    case Aborted(t) => CanAborted(s, t) && z == DoAborted(s, t)
    case _ => false
  }

  predicate SyncNext(s: State, a: Action, z: State) {
    match a
    case Sync(t) => CanSync(s, t) && z == DoSync(s, t)
    case CaptureRun(t) => CanCapture(s, t) && z == DoCapture(s, t)
    case Pass(t, n) => CanPass(s, t, n) && z == DoPass(s, t, n)
    case Reset(t) => CanReset(s, t) && z == DoReset(s, t)
    case CopyBack(t) => CanCopyBack(s, t) && z == DoCopyBack(s, t)
    case Release(t) => CanRelease(s, t) && z == DoRelease(s, t)
    case NextSet(t) => CanNextSet(s, t) && z == DoNextSet(s, t)
    case Written(t) => CanWritten(s, t) && z == DoWritten(s, t)
    case FinishSync(t) => CanFinish(s, t) && z == DoFinish(s, t)
    case CountSync(t) => CanCount(s, t) && z == DoCount(s, t)
    case _ => false
  }

  predicate Next(s: State, a: Action, z: State) {
    SectionNext(s, a, z) || SyncNext(s, a, z)
  }

  predicate Init(s: State) {
    && s.g == 0 && s.commit == 0 && s.done == {} && 1 <= s.max && 2 * s.max <= MAX_WRITE_SETS && |s.th| > 0
    && (forall t :: 0 <= t < |s.th| ==>
          s.th[t] == Thread(0, 0, Out, false, false, false, None, 0, [[]], 0, 0, 0, s.th[t].need, s.th[t].cap, NoLook, {})
          && |s.th[t].need| == |s.th[t].cap| == |s.th|)
    && (forall o :: 0 <= o < |s.obj| ==> s.obj[o].lock.None?)
  }
}
