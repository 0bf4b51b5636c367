/** TimeStone's multi-version protocol as a state machine.

    Many application threads, the qp thread and every thread's reclamation work
    run interleaved. One action is one atomic access to shared state (or a few
    accesses nobody can observe in between). Objects, write sets and threads are
    named by their index. Pointers to log records become indices too: version i
    of object o is the i-th copy ever linked into o's version chain; version 0 is
    the object as it was before its first update. */
module Protocol {
  import opened Options
  import opened Ordo

  // ---------------------------------------------------------------- objects

  /** Where a master copy or a dereferenced pointer lives. */
  datatype Loc =
    | Org                       // the original object (np_org_act)
    | Copy(i: nat)              // version i, in its writer's tvlog
    | Entry(k: nat, e: nat)     // entry e of thread k's ckptlog

  /** A version record (ts_cpy_hdr): copy number k of write set w. */
  datatype Ver = Ver(
    w: nat, k: nat,
    raw: Clk,                   // __wrt_clk, set when the copy is unlocked
    next: Option<nat>,          // p_copy: the older version it is chained to
    nextClk: Clk,               // wrt_clk_next
    prev: Clk,                  // wrt_clk_prev
    detached: bool)             // STATUS_DETACHED

  /** p_lock points at the locked copy: copy k of write set w. */
  datatype LockId = LockId(w: nat, k: nat)

  /** An object and its volatile header (ts_act_vhdr). */
  datatype Obj = Obj(
    vers: seq<Ver>,
    pcopy: Option<nat>,         // p_copy
    lock: Option<LockId>,       // p_lock
    cur: Loc,                   // np_cur_act: Org or Entry
    org: nat)                   // which version the original object holds

  // ---------------------------------------------------------------- write sets

  /** A locked copy of object o, duplicated from version base; v is its version
      number once it is linked into the chain. */
  datatype Item = Item(o: nat, base: nat, v: nat)

  datatype OpState = NotLogged | Queued | Durable | Reclaimed

  /** A write set (ts_wrt_set) of thread t at position pos of its tvlog. */
  datatype Ws = Ws(
    t: nat, pos: nat,
    items: seq<Item>,
    inst: nat,                  // copies already linked into their chains
    pending: Clk,               // pending_wrt_clk
    wrt: Clk,                   // wrt_clk
    unl: nat,                   // copies already unlocked
    op: OpState)                // history variable: where its oplog entry is

  // ---------------------------------------------------------------- threads

  datatype Phase = Idle | Begun | Running | Installing | Stamped | Unlocking | Aborting

  /** A dereferenced pointer: object, location and the version read there. */
  datatype Ref = Ref(o: nat, loc: Loc, v: nat)

  /** Progress of a ts_deref call. */
  datatype Read =
    | NoRead
    | AtCopy(o: nat, i: nat, ckpt: nat)   // looking at version i, cached __last_ckpt
    | AtMaster(o: nat)                    // about to read np_cur_act

  /** Progress of a ts_try_lock call: the p_copy it has seen. */
  datatype Look = NoLook | LookAt(o: nat, seen: Option<nat>)

  datatype Tx = Tx(
    run: nat,                   // run_cnt, odd inside a transaction
    lclk: nat,                  // local_clk
    last: nat,                  // last value this thread read from the clock
    ph: Phase,
    rd: Read,
    refs: set<Ref>,
    look: Look,
    ws: Option<nat>)            // cur_wrt_set

  /** The write sets of a tvlog, by position; [head, |ids|) is in use. */
  datatype TvLog = TvLog(ids: seq<nat>, head: nat, prev: nat)

  /** A checkpointed master: version v of object o, written at checkpoint s.
      was is a history variable: the master it replaced. */
  datatype Ent = Ent(o: nat, v: nat, s: nat, was: Loc)

  /** A ckptlog; after a crash the entries from dhead to dur are found. */
  datatype CkLog = CkLog(ents: seq<Ent>, head: nat, prev: nat, dur: nat, dhead: nat)

  /** A thread's oplog: the write sets whose operations were enqueued, and the volatile
      head. After a crash the entries from dhead to dtail are found. */
  datatype OpLog = OpLog(ids: seq<nat>, head: nat, dhead: nat, dtail: nat)

  /** A thread's copy of the system clocks, propagated by the qp thread. */
  datatype Clks = Clks(qp0: nat, qp2: nat, last: nat)

  datatype Mode = NoTv | BestEffort | Ckpt

  /** Progress of tvlog_reclaim_x on one tvlog. */
  datatype TJob =
    | TNone
    | TReq(m: Mode)
    | TDrop(m: Mode, lim: nat)            // reclaiming [head, lim)
    | TScan(m: Mode, p: nat, k: nat)      // checkpointing: copy k of position p
    | TDetach(p: nat, k: nat)             // that copy was just checkpointed

  /** Progress of ckptlog_reclaim_x on one ckptlog. */
  datatype CJob =
    | CNone
    | CReq
    | CDrop(lim: nat)                     // reclaiming [head, lim)
    | CWb(p: nat)                         // writing back: entry p
    | CStore(p: nat)                      // entry p copied, np_cur_act not yet set

  // ---------------------------------------------------------------- qp thread

  datatype QPhase = QRest | QInit(n: nat) | QWait | QReady | QTrig(n: nat) | QPub

  datatype Qp = Qp(
    ph: QPhase,
    clk: nat,                   // the clock read by qp_detect
    need: seq<bool>, cap: seq<nat>,       // need_wait, qp_info.run_cnt
    qp0: nat, qp1: nat, qp2: nat,
    last: nat,                  // __last_ckpt
    dlast: nat,                 // last_ckpt_clk in the NVM root
    mode: Mode, cq: bool,       // what this round reclaims
    fence: nat)                 // history variable: hi when the thread last came to rest

  datatype State = State(
    hi: nat,                    // newest clock value read by anyone so far
    tx: seq<Tx>, obj: seq<Obj>, ws: seq<Ws>,
    log: seq<TvLog>, ck: seq<CkLog>, oplog: seq<OpLog>, clk: seq<Clks>,
    tj: seq<TJob>, cj: seq<CJob>,
    qp: Qp)

  // ---------------------------------------------------------------- views

  /** Commit clock of version i: the pending clock its write set shares. Defined
      for every index so that it can be used freely in quantifiers. */
  function CommitClk(ws: seq<Ws>, ob: Obj, i: nat): Clk {
    if 0 < i < |ob.vers| && ob.vers[i].w < |ws| then ws[ob.vers[i].w].pending else At(0)
  }

  /** The commit clocks of an object's versions, oldest first. */
  function Stamps(ws: seq<Ws>, ob: Obj): seq<Clk> {
    seq(|ob.vers|, i requires 0 <= i < |ob.vers| => CommitClk(ws, ob, i))
  }

  function View(s: State): seq<seq<Clk>> {
    seq(|s.obj|, o requires 0 <= o < |s.obj| => Stamps(s.ws, s.obj[o]))
  }

  /** Version i belongs to the snapshot of a transaction that began at clock l. */
  predicate Seen(c: seq<Clk>, i: nat, l: nat) {
    i == 0 || (i < |c| && LtClk(c[i], l))
  }

  /** The version held by the current master (np_cur_act). */
  function MasterVer(ck: seq<CkLog>, ob: Obj, loc: Loc): nat {
    match loc
    case Org => ob.org
    case Copy(i) => i
    case Entry(k, e) => if k < |ck| && e < |ck[k].ents| then ck[k].ents[e].v else 0
  }

  function CurVer(ck: seq<CkLog>, ob: Obj): nat {
    MasterVer(ck, ob, ob.cur)
  }

  /** get_wrt_clk has to wait exactly when a commit that concerns the caller is
      stamped but not yet published. */
  predicate WrtReady(v: Ver, w: Ws, l: nat) {
    v.raw.At? || w.pending.Max? || l < w.pending.c || w.wrt.At?
  }

  function GetWrtClk(v: Ver, w: Ws, l: nat): Clk {
    if v.raw.At? then v.raw
    else if w.pending.Max? || l < w.pending.c then Max
    else w.wrt
  }

  /** is_at_borderline: the newest copy older than the checkpoint clock. */
  predicate Borderline(v: Ver, ckptS: nat, last: nat) {
    if v.prev.Max? then LtClk(v.raw, ckptS)
    else GteClk(v.prev, ckptS) && LtClk(v.raw, ckptS) && GteClk(v.raw, last)
  }

  /** A clock reading: at most ORDO_BOUNDARY behind any earlier reading, and never
      behind the same core's own. */
  predicate ClockRead(s: State, t: nat, c: nat)
    requires t < |s.tx|
  {
    c + ORDO_BOUNDARY >= s.hi && c >= s.tx[t].last
  }

  function Newer(a: nat, b: nat): nat {
    if a < b then b else a
  }

  function VerOf(s: State, o: nat, i: nat): Ver
    requires o < |s.obj| && i < |s.obj[o].vers|
  {
    s.obj[o].vers[i]
  }

  predicate ItemInChain(s: State, it: Item) {
    it.o < |s.obj| && it.v < |s.obj[it.o].vers|
  }

  /** Thread t's current write set. */
  predicate HasWs(s: State, t: nat) {
    t < |s.tx| && s.tx[t].ws.Some? && s.tx[t].ws.value < |s.ws|
  }

  function CurWs(s: State, t: nat): Ws
    requires HasWs(s, t)
  {
    s.ws[s.tx[t].ws.value]
  }

  /** The write set at position p of thread t's tvlog. */
  predicate WsAtOk(s: State, t: nat, p: nat) {
    t < |s.log| && p < |s.log[t].ids| && s.log[t].ids[p] < |s.ws|
  }

  function WsAt(s: State, t: nat, p: nat): Ws
    requires WsAtOk(s, t, p)
  {
    s.ws[s.log[t].ids[p]]
  }

  // ---------------------------------------------------------------- actions

  datatype Action =
    | BeginCount(t: nat) | BeginClock(t: nat, c: nat)
    | DerefBegin(t: nat, o: nat) | DerefCopy(t: nat) | DerefMaster(t: nat)
    | LockLook(t: nat, o: nat) | LockTake(t: nat)
    | CommitBegin(t: nat) | CommitInstall(t: nat) | CommitStamp(t: nat, c: nat)
    | CommitLog(t: nat) | CommitPersist(t: nat) | CommitPublish(t: nat)
    | CommitUnlock(t: nat) | TxEnd(t: nat)
    | Abort(t: nat) | AbortUnlock(t: nat) | AbortDone(t: nat)
    | OpReclaim(t: nat) | OpDeqPersist(t: nat)
    | QpClock(c: nat) | QpCapture | QpCheck(t: nat) | QpAdvance | QpSkip
    | QpTrigger(m: Mode, cq: bool) | QpPropagate | QpBarrier | QpPublish
    | TvStart(t: nat) | TvDrop(t: nat) | TvScanBegin(t: nat) | TvSkip(t: nat)
    | TvCkpt(t: nat) | TvDetach(t: nat) | TvNext(t: nat) | TvFinish(t: nat)
    | CkStart(t: nat) | CkDrop(t: nat) | CkWbBegin(t: nat) | CkCopy(t: nat)
    | CkStore(t: nat) | CkSkip(t: nat) | CkFinish(t: nat)

  // ---- ts_begin: run_cnt first, then the local clock (lib/timestone.c:388-389)

  predicate CanBeginCount(s: State, t: nat) {
    t < |s.tx| && s.tx[t].ph == Idle
  }

  function DoBeginCount(s: State, t: nat): State
    requires CanBeginCount(s, t)
  {
    s.(tx := s.tx[t := s.tx[t].(run := s.tx[t].run + 1, ph := Begun)])
  }

  predicate CanBeginClock(s: State, t: nat, c: nat) {
    t < |s.tx| && s.tx[t].ph == Begun && ClockRead(s, t, c)
  }

  function DoBeginClock(s: State, t: nat, c: nat): State
    requires CanBeginClock(s, t, c)
  {
    s.(hi := Newer(s.hi, c),
       tx := s.tx[t := s.tx[t].(lclk := c, last := c, ph := Running)])
  }

  // ---- ts_deref (lib/timestone.c:520-584)

  predicate CanDerefBegin(s: State, t: nat, o: nat) {
    t < |s.tx| && t < |s.clk| && o < |s.obj| && s.tx[t].ph == Running && s.tx[t].rd == NoRead
  }

  function DoDerefBegin(s: State, t: nat, o: nat): State
    requires CanDerefBegin(s, t, o)
  {
    var rd := match s.obj[o].pcopy
      case None => AtMaster(o)
      case Some(i) => AtCopy(o, i, s.clk[t].last);
    s.(tx := s.tx[t := s.tx[t].(rd := rd)])
  }

  predicate CanDerefCopy(s: State, t: nat) {
    && t < |s.tx| && s.tx[t].rd.AtCopy?
    && var rd := s.tx[t].rd;
       && rd.o < |s.obj| && rd.i < |s.obj[rd.o].vers|
       && var v := s.obj[rd.o].vers[rd.i];
          v.w < |s.ws| && WrtReady(v, s.ws[v.w], s.tx[t].lclk)
  }

  function DoDerefCopy(s: State, t: nat): State
    requires CanDerefCopy(s, t)
  {
    var rd := s.tx[t].rd;
    var v := s.obj[rd.o].vers[rd.i];
    if LtClk(GetWrtClk(v, s.ws[v.w], s.tx[t].lclk), s.tx[t].lclk) then
      s.(tx := s.tx[t := s.tx[t].(rd := NoRead,
                                  refs := s.tx[t].refs + {Ref(rd.o, Copy(rd.i), rd.i)})])
    else if LtClk(v.nextClk, rd.ckpt) || v.next.None? then
      s.(tx := s.tx[t := s.tx[t].(rd := AtMaster(rd.o))])
    else
      s.(tx := s.tx[t := s.tx[t].(rd := rd.(i := v.next.value))])
  }

  predicate CanDerefMaster(s: State, t: nat) {
    t < |s.tx| && s.tx[t].rd.AtMaster? && s.tx[t].rd.o < |s.obj|
  }

  function DoDerefMaster(s: State, t: nat): State
    requires CanDerefMaster(s, t)
  {
    var o := s.tx[t].rd.o;
    var r := Ref(o, s.obj[o].cur, CurVer(s.ck, s.obj[o]));
    s.(tx := s.tx[t := s.tx[t].(rd := NoRead, refs := s.tx[t].refs + {r})])
  }

  // ---- _ts_try_lock (lib/timestone.c:661-781)

  predicate CanLockLook(s: State, t: nat, o: nat) {
    && t < |s.tx| && o < |s.obj| && s.tx[t].ph == Running && s.obj[o].lock.None?
    && (match s.obj[o].pcopy
        case None => true
        case Some(i) =>
          && i < |s.obj[o].vers|
          && var v := s.obj[o].vers[i];
             && v.w < |s.ws| && WrtReady(v, s.ws[v.w], s.tx[t].lclk)
             && !GteClk(GetWrtClk(v, s.ws[v.w], s.tx[t].lclk), s.tx[t].lclk))
  }

  function DoLockLook(s: State, t: nat, o: nat): State
    requires CanLockLook(s, t, o)
  {
    s.(tx := s.tx[t := s.tx[t].(look := LookAt(o, s.obj[o].pcopy))])
  }

  /** try_lock_obj: compare-and-swap p_lock, with p_copy unchanged since the look.
      The new copy is duplicated from p_copy, or from the current master; that source
      is one more record the transaction holds. */
  predicate CanLockTake(s: State, t: nat) {
    && t < |s.tx| && t < |s.log| && s.tx[t].ph == Running && s.tx[t].look.LookAt?
    && (s.tx[t].ws.Some? ==> s.tx[t].ws.value < |s.ws|)
    && var o := s.tx[t].look.o;
       o < |s.obj| && s.obj[o].lock.None? && s.obj[o].pcopy == s.tx[t].look.seen
  }

  function LockSource(s: State, o: nat, base: nat): Ref
    requires o < |s.obj|
  {
    Ref(o, if s.obj[o].pcopy.Some? then Copy(base) else s.obj[o].cur, base)
  }

  function DoLockTake(s: State, t: nat): State
    requires CanLockTake(s, t)
  {
    var o := s.tx[t].look.o;
    var base := if s.obj[o].pcopy.Some? then s.obj[o].pcopy.value else CurVer(s.ck, s.obj[o]);
    var it := Item(o, base, 0);
    var refs := s.tx[t].refs + {LockSource(s, o, base)};
    match s.tx[t].ws
    case Some(w) =>
      s.(tx := s.tx[t := s.tx[t].(look := NoLook, refs := refs)],
         obj := s.obj[o := s.obj[o].(lock := Some(LockId(w, |s.ws[w].items|)))],
         ws := s.ws[w := s.ws[w].(items := s.ws[w].items + [it])])
    case None =>
      s.(tx := s.tx[t := s.tx[t].(look := NoLook, refs := refs, ws := Some(|s.ws|))],
         obj := s.obj[o := s.obj[o].(lock := Some(LockId(|s.ws|, 0)))],
         ws := s.ws + [Ws(t, |s.log[t].ids|, [it], 0, Max, Max, 0, NotLogged)],
         log := s.log[t := s.log[t].(ids := s.log[t].ids + [|s.ws|])])
  }

  // ---- tvlog_commit (lib/tvlog.c:207-354, 404-446)

  predicate CanCommitBegin(s: State, t: nat) {
    HasWs(s, t) && s.tx[t].ph == Running && s.tx[t].rd == NoRead
  }

  function DoCommitBegin(s: State, t: nat): State
    requires CanCommitBegin(s, t)
  {
    s.(tx := s.tx[t := s.tx[t].(ph := Installing)])
  }

  /** ws_move_lock_to_copy: link the next locked copy into its version chain. */
  predicate CanCommitInstall(s: State, t: nat) {
    && HasWs(s, t) && s.tx[t].ph == Installing
    && CurWs(s, t).inst < |CurWs(s, t).items|
    && var o := CurWs(s, t).items[CurWs(s, t).inst].o;
       && o < |s.obj|
       && (s.obj[o].pcopy.Some? ==> s.obj[o].pcopy.value < |s.obj[o].vers|)
  }

  function NewVer(ob: Obj, w: nat, k: nat): Ver
    requires ob.pcopy.Some? ==> ob.pcopy.value < |ob.vers|
  {
    Ver(w, k, Max, ob.pcopy,
        if ob.pcopy.None? then At(0) else ob.vers[ob.pcopy.value].raw, Max, false)
  }

  function DoCommitInstall(s: State, t: nat): State
    requires CanCommitInstall(s, t)
  {
    var w := s.tx[t].ws.value;
    var k := s.ws[w].inst;
    var o := s.ws[w].items[k].o;
    var i := |s.obj[o].vers|;
    s.(obj := s.obj[o := s.obj[o].(vers := s.obj[o].vers + [NewVer(s.obj[o], w, k)],
                                   pcopy := Some(i))],
       ws := s.ws[w := s.ws[w].(inst := k + 1,
                                items := s.ws[w].items[k := s.ws[w].items[k].(v := i)])])
  }

  /** Reading the commit clock and storing pending_wrt_clk. new_clock(local_clk)
      returns a clock Gt local_clk + ORDO_BOUNDARY. */
  predicate CanCommitStamp(s: State, t: nat, c: nat) {
    && HasWs(s, t) && s.tx[t].ph == Installing
    && CurWs(s, t).inst == |CurWs(s, t).items|
    && ClockRead(s, t, c) && Gt(c, s.tx[t].lclk + ORDO_BOUNDARY)
  }

  function DoCommitStamp(s: State, t: nat, c: nat): State
    requires CanCommitStamp(s, t, c)
  {
    var w := s.tx[t].ws.value;
    s.(hi := Newer(s.hi, c),
       tx := s.tx[t := s.tx[t].(last := c, ph := Stamped)],
       ws := s.ws[w := s.ws[w].(pending := At(c))])
  }

  predicate CanCommitLog(s: State, t: nat) {
    HasWs(s, t) && s.tx[t].ph == Stamped && CurWs(s, t).op == NotLogged && t < |s.oplog|
  }

  function DoCommitLog(s: State, t: nat): State
    requires CanCommitLog(s, t)
  {
    var w := s.tx[t].ws.value;
    s.(ws := s.ws[w := s.ws[w].(op := Queued)],
       oplog := s.oplog[t := s.oplog[t].(ids := s.oplog[t].ids + [w])])
  }

  /** oplog_enq_persist: the durable tail becomes the volatile one. */
  predicate CanCommitPersist(s: State, t: nat) {
    HasWs(s, t) && s.tx[t].ph == Stamped && CurWs(s, t).op == Queued && t < |s.oplog|
  }

  function DoCommitPersist(s: State, t: nat): State
    requires CanCommitPersist(s, t)
  {
    var w := s.tx[t].ws.value;
    s.(ws := s.ws[w := s.ws[w].(op := Durable)],
       oplog := s.oplog[t := s.oplog[t].(dtail := |s.oplog[t].ids|)])
  }

  predicate CanCommitPublish(s: State, t: nat) {
    HasWs(s, t) && s.tx[t].ph == Stamped && CurWs(s, t).op == Durable
  }

  function DoCommitPublish(s: State, t: nat): State
    requires CanCommitPublish(s, t)
  {
    var w := s.tx[t].ws.value;
    s.(tx := s.tx[t := s.tx[t].(ph := Unlocking)],
       ws := s.ws[w := s.ws[w].(wrt := s.ws[w].pending)])
  }

  /** ws_unlock_commit, one copy: mark it, release the lock, tell the older copy. */
  predicate CanCommitUnlock(s: State, t: nat) {
    && HasWs(s, t) && s.tx[t].ph == Unlocking
    && CurWs(s, t).unl < |CurWs(s, t).items|
    && ItemInChain(s, CurWs(s, t).items[CurWs(s, t).unl])
    && var it := CurWs(s, t).items[CurWs(s, t).unl];
       var next := s.obj[it.o].vers[it.v].next;
       next.Some? ==> next.value < |s.obj[it.o].vers|
  }

  function UnlockObj(ob: Obj, i: nat, wrt: Clk): Obj
    requires i < |ob.vers| && (ob.vers[i].next.Some? ==> ob.vers[i].next.value < |ob.vers|)
  {
    var vs := ob.vers[i := ob.vers[i].(raw := wrt)];
    match ob.vers[i].next
    case None => ob.(vers := vs, lock := None)
    case Some(j) => ob.(vers := vs[j := vs[j].(prev := wrt)], lock := None)
  }

  function DoCommitUnlock(s: State, t: nat): State
    requires CanCommitUnlock(s, t)
  {
    var w := s.tx[t].ws.value;
    var k := s.ws[w].unl;
    var it := s.ws[w].items[k];
    s.(obj := s.obj[it.o := UnlockObj(s.obj[it.o], it.v, s.ws[w].wrt)],
       ws := s.ws[w := s.ws[w].(unl := k + 1)])
  }

  predicate CanTxEnd(s: State, t: nat) {
    && t < |s.tx|
    && ((s.tx[t].ph == Running && s.tx[t].rd == NoRead && s.tx[t].ws.None?)
        || (s.tx[t].ph == Unlocking && HasWs(s, t) && CurWs(s, t).unl == |CurWs(s, t).items|))
  }

  function DoTxEnd(s: State, t: nat): State
    requires CanTxEnd(s, t)
  {
    s.(tx := s.tx[t := s.tx[t].(run := s.tx[t].run + 1, ph := Idle, refs := {},
                                rd := NoRead, look := NoLook, ws := None)])
  }

  // ---- ts_abort: run_cnt first, then the locks (lib/timestone.c:478-508)

  predicate CanAbort(s: State, t: nat) {
    t < |s.tx| && s.tx[t].ph == Running && s.tx[t].rd == NoRead
  }

  function DoAbort(s: State, t: nat): State
    requires CanAbort(s, t)
  {
    s.(tx := s.tx[t := s.tx[t].(run := s.tx[t].run + 1, refs := {}, look := NoLook,
                                ph := if s.tx[t].ws.None? then Idle else Aborting)])
  }

  predicate CanAbortUnlock(s: State, t: nat) {
    && HasWs(s, t) && s.tx[t].ph == Aborting
    && CurWs(s, t).unl < |CurWs(s, t).items|
    && CurWs(s, t).items[CurWs(s, t).unl].o < |s.obj|
  }

  function DoAbortUnlock(s: State, t: nat): State
    requires CanAbortUnlock(s, t)
  {
    var w := s.tx[t].ws.value;
    var o := s.ws[w].items[s.ws[w].unl].o;
    s.(obj := s.obj[o := s.obj[o].(lock := None)],
       ws := s.ws[w := s.ws[w].(unl := s.ws[w].unl + 1)])
  }

  predicate CanAbortDone(s: State, t: nat) {
    && HasWs(s, t) && s.tx[t].ph == Aborting
    && CurWs(s, t).unl == |CurWs(s, t).items|
    && t < |s.log| && |s.log[t].ids| > 0
  }

  function DoAbortDone(s: State, t: nat): State
    requires CanAbortDone(s, t)
  {
    s.(tx := s.tx[t := s.tx[t].(ph := Idle, ws := None)],
       log := s.log[t := s.log[t].(ids := s.log[t].ids[..|s.log[t].ids| - 1])])
  }

  // ---- oplog_reclaim (lib/oplog.c:102-122): from the head on; the durable head follows

  predicate CanOpReclaim(s: State, t: nat) {
    && t < |s.clk| && t < |s.oplog| && s.oplog[t].head < |s.oplog[t].ids|
    && var w := s.oplog[t].ids[s.oplog[t].head];
       && w < |s.ws| && s.ws[w].t == t
       && s.ws[w].op == Durable && s.ws[w].wrt.At? && LtClk(s.ws[w].wrt, s.clk[t].last)
  }

  function DoOpReclaim(s: State, t: nat): State
    requires CanOpReclaim(s, t)
  {
    var w := s.oplog[t].ids[s.oplog[t].head];
    s.(ws := s.ws[w := s.ws[w].(op := Reclaimed)],
       oplog := s.oplog[t := s.oplog[t].(head := s.oplog[t].head + 1)])
  }

  predicate CanOpDeqPersist(s: State, t: nat) {
    t < |s.oplog|
  }

  function DoOpDeqPersist(s: State, t: nat): State
    requires CanOpDeqPersist(s, t)
  {
    s.(oplog := s.oplog[t := s.oplog[t].(dhead := s.oplog[t].head)])
  }

  // ---- qp_detect (lib/qp.c:133-245)

  /** The clock read that starts a grace period. Like any reading it may be a window
      behind readings of threads that are running now. It is assumed to be more than a
      window above what anybody had read when the qp thread last came to rest. */
  predicate CanQpClock(s: State, c: nat) {
    s.qp.ph == QRest && c > s.qp.fence + ORDO_BOUNDARY && c + ORDO_BOUNDARY >= s.hi
  }

  function DoQpClock(s: State, c: nat): State
    requires CanQpClock(s, c)
  {
    s.(hi := Newer(s.hi, c), qp := s.qp.(ph := QInit(0), clk := c))
  }

  /** qp_init, one thread: remember run_cnt, wait for the thread if it is odd. */
  predicate CanQpCapture(s: State) {
    && s.qp.ph.QInit? && s.qp.ph.n < |s.tx|
    && |s.qp.need| == |s.tx| == |s.qp.cap|
  }

  function DoQpCapture(s: State): State
    requires CanQpCapture(s)
  {
    var n := s.qp.ph.n;
    var run := s.tx[n].run;
    s.(qp := s.qp.(ph := if n + 1 == |s.tx| then QWait else QInit(n + 1),
                   cap := s.qp.cap[n := run],
                   need := s.qp.need[n := run % 2 == 1]))
  }

  /** qp_wait, one thread passing the quiescence test. */
  predicate CanQpCheck(s: State, t: nat) {
    && s.qp.ph == QWait && t < |s.tx| && |s.qp.need| == |s.tx| == |s.qp.cap|
    && s.qp.need[t]
    && (s.qp.cap[t] != s.tx[t].run || !Lt(s.tx[t].lclk, s.qp.clk))
  }

  function DoQpCheck(s: State, t: nat): State
    requires CanQpCheck(s, t)
  {
    s.(qp := s.qp.(need := s.qp.need[t := false]))
  }

  /** correct_qp_clock and advance_qp_clock, when nobody is waited for any more. */
  predicate CanQpAdvance(s: State) {
    && s.qp.ph == QWait && s.qp.clk >= ORDO_BOUNDARY
    && (forall t :: 0 <= t < |s.qp.need| ==> !s.qp.need[t])
  }

  function DoQpAdvance(s: State): State
    requires CanQpAdvance(s)
  {
    s.(qp := s.qp.(ph := QReady, qp2 := s.qp.qp1, qp1 := s.qp.qp0,
                   qp0 := s.qp.clk - ORDO_BOUNDARY))
  }

  predicate CanQpSkip(s: State) {
    s.qp.ph == QReady
  }

  function DoQpSkip(s: State): State
    requires CanQpSkip(s)
  {
    s.(qp := s.qp.(ph := QRest, fence := s.hi))
  }

  // ---- the reclamation round (lib/qp.c:354-395, 426-479)

  predicate CanQpTrigger(s: State, m: Mode, cq: bool) {
    s.qp.ph == QReady
  }

  function DoQpTrigger(s: State, m: Mode, cq: bool): State
    requires CanQpTrigger(s, m, cq)
  {
    s.(qp := s.qp.(ph := QTrig(0), mode := m, cq := cq))
  }

  /** Clocks and request reach one thread; it may start to reclaim at once. */
  predicate CanQpPropagate(s: State) {
    && s.qp.ph.QTrig? && s.qp.ph.n < |s.tx|
    && |s.clk| == |s.tj| == |s.cj| == |s.tx|
  }

  function DoQpPropagate(s: State): State
    requires CanQpPropagate(s)
  {
    var n := s.qp.ph.n;
    s.(qp := s.qp.(ph := QTrig(n + 1)),
       clk := s.clk[n := Clks(s.qp.qp0, s.qp.qp2, s.qp.last)],
       tj := s.tj[n := if s.qp.mode == NoTv then TNone else TReq(s.qp.mode)],
       cj := s.cj[n := if s.qp.cq then CReq else CNone])
  }

  /** All requests are done. After a checkpoint its clock is made durable first. */
  predicate CanQpBarrier(s: State) {
    && s.qp.ph.QTrig? && s.qp.ph.n == |s.tx|
    && (forall t :: 0 <= t < |s.tj| ==> s.tj[t] == TNone)
    && (forall t :: 0 <= t < |s.cj| ==> s.cj[t] == CNone)
  }

  function DoQpBarrier(s: State): State
    requires CanQpBarrier(s)
  {
    if s.qp.mode == Ckpt then s.(qp := s.qp.(ph := QPub, dlast := s.qp.qp0))
    else s.(qp := s.qp.(ph := QRest, fence := s.hi))
  }

  predicate CanQpPublish(s: State) {
    s.qp.ph == QPub
  }

  function DoQpPublish(s: State): State
    requires CanQpPublish(s)
  {
    s.(qp := s.qp.(ph := QRest, last := s.qp.dlast, fence := s.hi))
  }

  // ---- tvlog_reclaim_x (lib/tvlog.c:669-946)

  predicate CanTvStart(s: State, t: nat) {
    t < |s.tj| && t < |s.log| && s.tj[t].TReq?
  }

  function DoTvStart(s: State, t: nat): State
    requires CanTvStart(s, t)
  {
    s.(tj := s.tj[t := TDrop(s.tj[t].m, s.log[t].prev)])
  }

  /** The test best-effort reclamation makes before it drops a write set: every
      copy has a successor older than the grace-period clock. */
  predicate Superseded(s: State, w: Ws, qp0: nat) {
    forall k :: 0 <= k < |w.items| ==>
      ItemInChain(s, w.items[k]) && LtClk(VerOf(s, w.items[k].o, w.items[k].v).prev, qp0)
  }

  predicate CanTvDrop(s: State, t: nat) {
    && t < |s.tj| && t < |s.clk| && s.tj[t].TDrop?
    && t < |s.log| && WsAtOk(s, t, s.log[t].head) && s.log[t].head < s.tj[t].lim
    && WsAt(s, t, s.log[t].head).wrt.At?
    && (s.tj[t].m == BestEffort ==> Superseded(s, WsAt(s, t, s.log[t].head), s.clk[t].qp0))
  }

  function DoTvDrop(s: State, t: nat): State
    requires CanTvDrop(s, t)
  {
    s.(log := s.log[t := s.log[t].(head := s.log[t].head + 1)])
  }

  predicate CanTvScanBegin(s: State, t: nat) {
    && t < |s.tj| && t < |s.log| && t < |s.clk| && s.tj[t].TDrop?
    && (s.log[t].head == s.tj[t].lim
        || (&& WsAtOk(s, t, s.log[t].head)
            && s.tj[t].m == BestEffort
            && !Superseded(s, WsAt(s, t, s.log[t].head), s.clk[t].qp0)))
  }

  function DoTvScanBegin(s: State, t: nat): State
    requires CanTvScanBegin(s, t)
  {
    s.(tj := s.tj[t := TScan(s.tj[t].m, s.log[t].head, 0)])
  }

  /** The scan looks at a copy of a write set committed before the checkpoint clock. */
  predicate Scanning(s: State, t: nat) {
    && t < |s.tj| && t < |s.clk| && s.tj[t].TScan?
    && WsAtOk(s, t, s.tj[t].p)
    && LtClk(WsAt(s, t, s.tj[t].p).wrt, s.clk[t].qp0)
  }

  predicate ScanningItem(s: State, t: nat) {
    && Scanning(s, t)
    && s.tj[t].k < |WsAt(s, t, s.tj[t].p).items|
    && ItemInChain(s, WsAt(s, t, s.tj[t].p).items[s.tj[t].k])
  }

  function ScanItem(s: State, t: nat): Item
    requires ScanningItem(s, t)
  {
    WsAt(s, t, s.tj[t].p).items[s.tj[t].k]
  }

  predicate ScanHit(s: State, t: nat)
    requires ScanningItem(s, t)
  {
    var v := VerOf(s, ScanItem(s, t).o, ScanItem(s, t).v);
    !v.detached && Borderline(v, s.clk[t].qp0, s.clk[t].last)
  }

  predicate CanTvSkip(s: State, t: nat) {
    ScanningItem(s, t) && !ScanHit(s, t)
  }

  function DoTvSkip(s: State, t: nat): State
    requires CanTvSkip(s, t)
  {
    s.(tj := s.tj[t := TScan(s.tj[t].m, s.tj[t].p, s.tj[t].k + 1)])
  }

  /** ckptlog_enq: append the copy to the own ckptlog and make it the master. */
  predicate CanTvCkpt(s: State, t: nat) {
    ScanningItem(s, t) && ScanHit(s, t) && s.tj[t].m == Ckpt && t < |s.ck|
  }

  function DoTvCkpt(s: State, t: nat): State
    requires CanTvCkpt(s, t)
  {
    var it := ScanItem(s, t);
    var ent := Ent(it.o, it.v, s.clk[t].qp0, s.obj[it.o].cur);
    s.(ck := s.ck[t := s.ck[t].(ents := s.ck[t].ents + [ent])],
       obj := s.obj[it.o := s.obj[it.o].(cur := Entry(t, |s.ck[t].ents|))],
       tj := s.tj[t := TDetach(s.tj[t].p, s.tj[t].k)])
  }

  /** try_detach_obj: cut the version chain if this copy is its head. */
  predicate CanTvDetach(s: State, t: nat) {
    && t < |s.tj| && s.tj[t].TDetach?
    && WsAtOk(s, t, s.tj[t].p) && s.tj[t].k < |WsAt(s, t, s.tj[t].p).items|
    && ItemInChain(s, WsAt(s, t, s.tj[t].p).items[s.tj[t].k])
  }

  function DetachObj(ob: Obj, i: nat): Obj
    requires i < |ob.vers|
  {
    ob.(vers := ob.vers[i := ob.vers[i].(detached := true)],
        pcopy := if ob.pcopy == Some(i) then None else ob.pcopy)
  }

  function DoTvDetach(s: State, t: nat): State
    requires CanTvDetach(s, t)
  {
    var it := WsAt(s, t, s.tj[t].p).items[s.tj[t].k];
    s.(obj := s.obj[it.o := DetachObj(s.obj[it.o], it.v)],
       tj := s.tj[t := TScan(Ckpt, s.tj[t].p, s.tj[t].k + 1)])
  }

  predicate CanTvNext(s: State, t: nat) {
    Scanning(s, t) && s.tj[t].k == |WsAt(s, t, s.tj[t].p).items|
  }

  function DoTvNext(s: State, t: nat): State
    requires CanTvNext(s, t)
  {
    s.(tj := s.tj[t := TScan(s.tj[t].m, s.tj[t].p + 1, 0)])
  }

  /** The scan stops at the end of the log, at a write set that is not committed
      before the checkpoint clock, or, in best effort, at a copy that would have to
      be checkpointed. The ckptlog is persisted. */
  predicate CanTvFinish(s: State, t: nat) {
    && t < |s.tj| && t < |s.log| && t < |s.ck| && s.tj[t].TScan?
    && ((s.tj[t].k == 0 && s.tj[t].p == |s.log[t].ids|)
        || (s.tj[t].k == 0 && WsAtOk(s, t, s.tj[t].p) && !Scanning(s, t) && t < |s.clk|)
        || (s.tj[t].m == BestEffort && ScanningItem(s, t) && ScanHit(s, t)))
  }

  function DoTvFinish(s: State, t: nat): State
    requires CanTvFinish(s, t)
  {
    s.(log := s.log[t := s.log[t].(prev := s.tj[t].p)],
       ck := s.ck[t := s.ck[t].(dur := |s.ck[t].ents|)],
       tj := s.tj[t := TNone])
  }

  // ---- ckptlog_reclaim_x (lib/ckptlog.c:202-373)

  predicate CanCkStart(s: State, t: nat) {
    t < |s.cj| && t < |s.ck| && s.cj[t] == CReq
  }

  function DoCkStart(s: State, t: nat): State
    requires CanCkStart(s, t)
  {
    s.(cj := s.cj[t := CDrop(s.ck[t].prev)])
  }

  predicate CanCkDrop(s: State, t: nat) {
    t < |s.cj| && t < |s.ck| && s.cj[t].CDrop? && s.ck[t].head < s.cj[t].lim
  }

  function DoCkDrop(s: State, t: nat): State
    requires CanCkDrop(s, t)
  {
    s.(ck := s.ck[t := s.ck[t].(head := s.ck[t].head + 1)])
  }

  predicate CanCkWbBegin(s: State, t: nat) {
    t < |s.cj| && t < |s.ck| && s.cj[t].CDrop? && s.ck[t].head == s.cj[t].lim
  }

  function DoCkWbBegin(s: State, t: nat): State
    requires CanCkWbBegin(s, t)
  {
    s.(cj := s.cj[t := CWb(s.ck[t].head)])
  }

  /** The writeback loop is at an entry old enough to be written back. */
  predicate WbEntry(s: State, t: nat) {
    && t < |s.cj| && t < |s.ck| && t < |s.clk| && s.cj[t].CWb?
    && s.cj[t].p < |s.ck[t].ents|
    && !Gt(s.ck[t].ents[s.cj[t].p].s, s.clk[t].qp2)
    && s.ck[t].ents[s.cj[t].p].o < |s.obj|
  }

  predicate CanCkCopy(s: State, t: nat) {
    && WbEntry(s, t)
    && s.obj[s.ck[t].ents[s.cj[t].p].o].cur == Entry(t, s.cj[t].p)
  }

  function DoCkCopy(s: State, t: nat): State
    requires CanCkCopy(s, t)
  {
    var ent := s.ck[t].ents[s.cj[t].p];
    s.(obj := s.obj[ent.o := s.obj[ent.o].(org := ent.v)],
       cj := s.cj[t := CStore(s.cj[t].p)])
  }

  /** A plain store: np_cur_act is not looked at again after the copy. */
  predicate CanCkStore(s: State, t: nat) {
    && t < |s.cj| && t < |s.ck| && s.cj[t].CStore? && s.cj[t].p < |s.ck[t].ents|
    && s.ck[t].ents[s.cj[t].p].o < |s.obj|
  }

  function DoCkStore(s: State, t: nat): State
    requires CanCkStore(s, t)
  {
    var o := s.ck[t].ents[s.cj[t].p].o;
    s.(obj := s.obj[o := s.obj[o].(cur := Org)],
       cj := s.cj[t := CWb(s.cj[t].p + 1)])
  }

  predicate CanCkSkip(s: State, t: nat) {
    && WbEntry(s, t)
    && s.obj[s.ck[t].ents[s.cj[t].p].o].cur != Entry(t, s.cj[t].p)
  }

  function DoCkSkip(s: State, t: nat): State
    requires CanCkSkip(s, t)
  {
    s.(cj := s.cj[t := CWb(s.cj[t].p + 1)])
  }

  /** The loop ends when no old entry is left, or early at a current master when
      enough log space is free. Only now the head becomes durable. */
  predicate CanCkFinish(s: State, t: nat) {
    t < |s.cj| && t < |s.ck| && s.cj[t].CWb? && !CanCkSkip(s, t)
  }

  function DoCkFinish(s: State, t: nat): State
    requires CanCkFinish(s, t)
  {
    s.(ck := s.ck[t := s.ck[t].(prev := s.cj[t].p, dhead := s.ck[t].head)],
       cj := s.cj[t := CNone])
  }

  // ---------------------------------------------------------------- runs

  /** Steps of a transaction that change only its own state. */
  predicate OwnNext(s: State, a: Action, z: State) {
    match a
    case BeginCount(t) => CanBeginCount(s, t) && z == DoBeginCount(s, t)
    case BeginClock(t, c) => CanBeginClock(s, t, c) && z == DoBeginClock(s, t, c)
    case DerefBegin(t, o) => CanDerefBegin(s, t, o) && z == DoDerefBegin(s, t, o)
    case DerefCopy(t) => CanDerefCopy(s, t) && z == DoDerefCopy(s, t)
    case DerefMaster(t) => CanDerefMaster(s, t) && z == DoDerefMaster(s, t)
    case LockLook(t, o) => CanLockLook(s, t, o) && z == DoLockLook(s, t, o)
    case CommitBegin(t) => CanCommitBegin(s, t) && z == DoCommitBegin(s, t)
    case TxEnd(t) => CanTxEnd(s, t) && z == DoTxEnd(s, t)
    case Abort(t) => CanAbort(s, t) && z == DoAbort(s, t)
    case _ => false
  }

  /** Steps of a transaction on its write set. */
  predicate WsNext(s: State, a: Action, z: State) {
    match a
    case LockTake(t) => CanLockTake(s, t) && z == DoLockTake(s, t)
    case CommitInstall(t) => CanCommitInstall(s, t) && z == DoCommitInstall(s, t)
    case CommitStamp(t, c) => CanCommitStamp(s, t, c) && z == DoCommitStamp(s, t, c)
    case CommitLog(t) => CanCommitLog(s, t) && z == DoCommitLog(s, t)
    case CommitPersist(t) => CanCommitPersist(s, t) && z == DoCommitPersist(s, t)
    case CommitPublish(t) => CanCommitPublish(s, t) && z == DoCommitPublish(s, t)
    case CommitUnlock(t) => CanCommitUnlock(s, t) && z == DoCommitUnlock(s, t)
    case AbortUnlock(t) => CanAbortUnlock(s, t) && z == DoAbortUnlock(s, t)
    case AbortDone(t) => CanAbortDone(s, t) && z == DoAbortDone(s, t)
    case OpReclaim(t) => CanOpReclaim(s, t) && z == DoOpReclaim(s, t)
    case OpDeqPersist(t) => CanOpDeqPersist(s, t) && z == DoOpDeqPersist(s, t)
    case _ => false
  }

  /** Steps of the qp thread. */
  predicate QpNext(s: State, a: Action, z: State) {
    match a
    case QpClock(c) => CanQpClock(s, c) && z == DoQpClock(s, c)
    case QpCapture => CanQpCapture(s) && z == DoQpCapture(s)
    case QpCheck(t) => CanQpCheck(s, t) && z == DoQpCheck(s, t)
    case QpAdvance => CanQpAdvance(s) && z == DoQpAdvance(s)
    case QpSkip => CanQpSkip(s) && z == DoQpSkip(s)
    case QpTrigger(m, cq) => CanQpTrigger(s, m, cq) && z == DoQpTrigger(s, m, cq)
    case QpPropagate => CanQpPropagate(s) && z == DoQpPropagate(s)
    case QpBarrier => CanQpBarrier(s) && z == DoQpBarrier(s)
    case QpPublish => CanQpPublish(s) && z == DoQpPublish(s)
    case _ => false
  }

  /** Steps of a tvlog's reclamation. */
  predicate TvNextStep(s: State, a: Action, z: State) {
    match a
    case TvStart(t) => CanTvStart(s, t) && z == DoTvStart(s, t)
    case TvDrop(t) => CanTvDrop(s, t) && z == DoTvDrop(s, t)
    case TvScanBegin(t) => CanTvScanBegin(s, t) && z == DoTvScanBegin(s, t)
    case TvSkip(t) => CanTvSkip(s, t) && z == DoTvSkip(s, t)
    case TvCkpt(t) => CanTvCkpt(s, t) && z == DoTvCkpt(s, t)
    case TvDetach(t) => CanTvDetach(s, t) && z == DoTvDetach(s, t)
    case TvNext(t) => CanTvNext(s, t) && z == DoTvNext(s, t)
    case TvFinish(t) => CanTvFinish(s, t) && z == DoTvFinish(s, t)
    case _ => false
  }

  /** Steps of a ckptlog's reclamation. */
  predicate CkNextStep(s: State, a: Action, z: State) {
    match a
    case CkStart(t) => CanCkStart(s, t) && z == DoCkStart(s, t)
    case CkDrop(t) => CanCkDrop(s, t) && z == DoCkDrop(s, t)
    case CkWbBegin(t) => CanCkWbBegin(s, t) && z == DoCkWbBegin(s, t)
    case CkCopy(t) => CanCkCopy(s, t) && z == DoCkCopy(s, t)
    case CkStore(t) => CanCkStore(s, t) && z == DoCkStore(s, t)
    case CkSkip(t) => CanCkSkip(s, t) && z == DoCkSkip(s, t)
    case CkFinish(t) => CanCkFinish(s, t) && z == DoCkFinish(s, t)
    case _ => false
  }

  /** One step of a run: action a leads from s to z. */
  predicate Next(s: State, a: Action, z: State) {
    OwnNext(s, a, z) || WsNext(s, a, z) || QpNext(s, a, z) || TvNextStep(s, a, z) || CkNextStep(s, a, z)
  }

  const NoVer := Ver(0, 0, At(0), None, At(0), Max, false)

  /** Threads idle, logs empty, no object ever updated, the clock running. */
  predicate Init(s: State) {
    && s.hi >= ORDO_BOUNDARY
    && |s.tx| == |s.log| == |s.ck| == |s.oplog| == |s.clk| == |s.tj| == |s.cj|
    && |s.tx| == |s.qp.need| == |s.qp.cap| && |s.tx| > 0
    && (forall t :: 0 <= t < |s.tx| ==>
          s.tx[t] == Tx(0, 0, 0, Idle, NoRead, {}, NoLook, None))
    && (forall o :: 0 <= o < |s.obj| ==> s.obj[o] == Obj([NoVer], None, None, Org, 0))
    && s.ws == []
    && (forall t :: 0 <= t < |s.log| ==> s.log[t] == TvLog([], 0, 0))
    && (forall t :: 0 <= t < |s.ck| ==> s.ck[t] == CkLog([], 0, 0, 0, 0))
    && (forall t :: 0 <= t < |s.oplog| ==> s.oplog[t] == OpLog([], 0, 0, 0))
    && (forall t :: 0 <= t < |s.clk| ==> s.clk[t] == Clks(0, 0, 0))
    && (forall t :: 0 <= t < |s.tj| ==> s.tj[t] == TNone)
    && (forall t :: 0 <= t < |s.cj| ==> s.cj[t] == CNone)
    && s.qp.ph == QRest && s.qp.clk == s.qp.qp0 == s.qp.qp1 == s.qp.qp2 == 0
    && s.qp.last == s.qp.dlast == 0 && s.qp.fence == s.hi
  }
}
