/** The transient version log (lib/tvlog.c, lib/tvlog.h): a ring of write sets, each
    a header followed by locked copies. Cache lines are the unit, as in Ring. */
module TvLog {
  import opened Options
  import opened Ring

  // ---------------------------------------------------------------- sizes

  const LINE: nat := 64
  const COPY_HEADER: nat := 56        // sizeof(ts_cpy_hdr_struct_t)
  const WRT_SET: nat := 40            // sizeof(ts_wrt_set_t)
  const PADDING_LINES: nat := 1024    // a 16-bit padding_size, in lines

  /** Lines of a log entry for an object of this many bytes. */
  function LinesFor(bytes: nat): (l: nat)
    ensures l > 0 && (l - 1) * LINE < bytes + COPY_HEADER <= l * LINE
  {
    (bytes + COPY_HEADER + LINE - 1) / LINE
  }

  const SET_LINES: nat := LinesFor(WRT_SET)
  const EXTRA: nat := LinesFor(WRT_SET + COPY_HEADER)

  // ---------------------------------------------------------------- contents

  datatype Line =
    | Body
    | WrtSet(size: nat, num: nat)
    | Copy(size: nat, obj: nat, clk: Option<nat>, free: bool)
    | Bogus(size: nat)

  /** get_entry_size, from what the header stores. */
  function SizeOf(l: Line): nat {
    if l.Body? then 0 else l.size
  }

  predicate HeaderIs(l: Line, it: Item, obj: nat) {
    if it.bogus then l == Bogus(it.size) else l.Copy? && l.size == it.size && l.obj == obj
  }

  /** A write set: its header, its items, the objects they are copies of (any number
      for a bogus item), and where they end. */
  datatype WSet = WSet(start: nat, hsize: nat, items: seq<Item>, objs: seq<nat>, end: nat)

  predicate Written(buf: seq<Line>, w: WSet) {
    && |buf| > 0 && |w.objs| == |w.items|
    && forall k :: 0 <= k < |w.items| ==> HeaderIs(buf[Idx(|buf|, w.items[k].cnt)], w.items[k], w.objs[k])
  }

  predicate SetOk(buf: seq<Line>, w: WSet) {
    && |buf| > 0 && w.hsize > 0 && Idx(|buf|, w.start) + w.hsize <= |buf|
    && buf[Idx(|buf|, w.start)] == WrtSet(w.hsize, |w.items|)
    && Chain(|buf|, w.items, w.start + w.hsize, w.end) && Written(buf, w)
  }

  /** The write sets fill positions a to b. */
  predicate Sets(buf: seq<Line>, sets: seq<WSet>, a: nat, b: nat) {
    if sets == [] then a == b
    else sets[0].start == a && SetOk(buf, sets[0]) && Sets(buf, sets[1..], sets[0].end, b)
  }

  /** Where the walk over a write set stands after i steps. */
  function WalkAt(w: WSet, i: nat): nat {
    if i < |w.items| then w.items[i].cnt else w.end
  }

  lemma {:induction false} ChainNext(n: nat, items: seq<Item>, a: nat, b: nat, i: nat)
    requires n > 0 && Chain(n, items, a, b) && i < |items|
    ensures items[i].cnt + items[i].size == if i + 1 < |items| then items[i + 1].cnt else b
  {
    if i > 0 { ChainNext(n, items[1..], a + items[0].size, b, i - 1); }
  }

  /** One step of ws_for_each leads to the next item, and the last one to the end. */
  lemma WalkStep(buf: seq<Line>, w: WSet, i: nat)
    requires SetOk(buf, w) && i < |w.items|
    ensures WalkAt(w, i) + SizeOf(buf[Idx(|buf|, WalkAt(w, i))]) == WalkAt(w, i + 1)
  {
    ChainNext(|buf|, w.items, w.start + w.hsize, w.end, i);
  }

  lemma WalkBegin(buf: seq<Line>, w: WSet)
    requires SetOk(buf, w)
    ensures WalkAt(w, 0) == w.start + w.hsize <= w.end && w.hsize > 0 && |w.objs| == |w.items|
  {
    ChainRange(|buf|, w.items, w.start + w.hsize, w.end);
  }

  // ---------------------------------------------------------------- frames

  lemma SetAgree(buf: seq<Line>, zb: seq<Line>, w: WSet)
    requires |buf| == |zb| && SetOk(buf, w) && Agree(buf, zb, w.start, w.end)
    ensures SetOk(zb, w) && w.start < w.end
  {
    ChainRange(|buf|, w.items, w.start + w.hsize, w.end);
  }

  lemma {:induction false} SetsAgree(buf: seq<Line>, zb: seq<Line>, sets: seq<WSet>, a: nat, b: nat)
    requires |buf| == |zb| > 0 && Sets(buf, sets, a, b) && Agree(buf, zb, a, b)
    ensures Sets(zb, sets, a, b) && a <= b
  {
    if sets != [] {
      SetsRange(buf, sets[1..], sets[0].end, b);
      WalkBegin(buf, sets[0]);
      SetAgree(buf, zb, sets[0]);
      SetsAgree(buf, zb, sets[1..], sets[0].end, b);
    }
  }

  lemma {:induction false} SetsRange(buf: seq<Line>, sets: seq<WSet>, a: nat, b: nat)
    requires Sets(buf, sets, a, b)
    ensures a <= b
  {
    if sets != [] {
      WalkBegin(buf, sets[0]);
      SetsRange(buf, sets[1..], sets[0].end, b);
    }
  }

  lemma {:induction false} SetsAppend(buf: seq<Line>, sets: seq<WSet>, a: nat, w: WSet)
    requires Sets(buf, sets, a, w.start) && SetOk(buf, w)
    ensures Sets(buf, sets + [w], a, w.end)
  {
    if sets == [] {
      assert sets + [w] == [w];
    } else {
      SetsAppend(buf, sets[1..], sets[0].end, w);
      assert (sets + [w])[1..] == sets[1..] + [w];
    }
  }

  /** Headers of one write set have different places. */
  lemma HeadersApart(n: nat, w: WSet, j: nat, k: nat)
    requires n > 0 && Chain(n, w.items, w.start + w.hsize, w.end) && w.end <= w.start + n && w.hsize > 0
    requires j < |w.items| && k < |w.items|
    ensures j != k ==> Idx(n, w.items[j].cnt) != Idx(n, w.items[k].cnt)
    ensures Idx(n, w.items[j].cnt) != Idx(n, w.start)
  {
    ChainRange(n, w.items, w.start + w.hsize, w.end);
    PlacesDiffer(n, w.start, w.items[j].cnt);
    if j < k {
      ChainOrdered(n, w.items, w.start + w.hsize, w.end, j, k);
      PlacesDiffer(n, w.items[j].cnt, w.items[k].cnt);
    } else if k < j {
      ChainOrdered(n, w.items, w.start + w.hsize, w.end, k, j);
      PlacesDiffer(n, w.items[k].cnt, w.items[j].cnt);
    }
  }

  /** Writing behind a write set leaves it and the ones before it alone. */
  lemma KeepsSets(b: seq<Line>, d: seq<Line>, sets: seq<WSet>, a: nat, w: WSet)
    requires |b| == |d| > 0 && Sets(b, sets, a, w.start) && SetOk(b, w) && Agree(b, d, a, w.end)
    ensures Sets(d, sets, a, w.start) && SetOk(d, w)
  {
    WalkBegin(b, w);
    SetsRange(b, sets, a, w.start);
    SetsAgree(b, d, sets, a, w.start);
    SetAgree(b, d, w);
  }

  /** A copy's header may be rewritten, but for its size and its object. */
  lemma Relabel(b: seq<Line>, sets: seq<WSet>, a: nat, w: WSet, i: nat, l: Line)
    requires Sets(b, sets, a, w.start) && SetOk(b, w) && i < |w.items| && !w.items[i].bogus
    requires w.end <= a + |b| && l.Copy? && l.size == w.items[i].size && l.obj == w.objs[i]
    ensures var z := b[Idx(|b|, w.items[i].cnt) := l];
            && Sets(z, sets, a, w.start) && SetOk(z, w) && Agree(b, z, a, w.start)
            && forall k :: 0 <= k < |w.items| && k != i ==> z[Idx(|b|, w.items[k].cnt)] == b[Idx(|b|, w.items[k].cnt)]
  {
    hide Idx;
    var n := |b|;
    var z := b[Idx(n, w.items[i].cnt) := l];
    SetsRange(b, sets, a, w.start);
    ChainRange(n, w.items, w.start + w.hsize, w.end);
    WriteBeyond(b, z, a, w.items[i].cnt, l);
    SetsAgree(b, z, sets, a, w.start);
    forall k | 0 <= k < |w.items| ensures k != i ==> z[Idx(n, w.items[k].cnt)] == b[Idx(n, w.items[k].cnt)] {
      HeadersApart(n, w, k, i);
    }
    HeadersApart(n, w, i, i);
  }

  // ---------------------------------------------------------------- where an entry goes

  /** Lines left to the end of the buffer that an entry of this size has to skip. */
  function Gap(n: nat, tail: nat, lines: nat): nat
    requires n > 0
  {
    if Idx(n, tail) + lines >= n then n - Idx(n, tail) else 0
  }

  /** add_extra_padding: an entry grows to the end of the buffer if behind it no
      header of a write set would fit. */
  function Padding(n: nat, tail: nat, lines: nat): nat
    requires n > 0
  {
    if Idx(n, tail) + lines < n && Idx(n, tail) + lines + EXTRA >= n then n - (Idx(n, tail) + lines) else 0
  }

  /** A write set's header fits at this position without a bogus item. */
  predicate Roomy(n: nat, tail: nat)
    requires n > 0
  {
    Idx(n, tail) + EXTRA < n
  }

  /** The tail after a write set's header has been appended. */
  function AfterHeader(n: nat, tail: nat): nat
    requires n > 0
  {
    tail + SET_LINES + Padding(n, tail, SET_LINES)
  }

  /** Where the next copy is appended: behind a new header, if there is no write set. */
  function SetTail(n: nat, tail: nat, cur: Option<nat>): nat
    requires n > 0
  {
    if cur.Some? then tail else AfterHeader(n, tail)
  }

  /** The tail after a copy of this size has been appended. */
  function AfterAppend(n: nat, tail: nat, cur: Option<nat>, lines: nat): nat
    requires n > 0
  {
    var at := SetTail(n, tail, cur) + Gap(n, SetTail(n, tail, cur), lines);
    at + lines + Padding(n, at, lines)
  }

  // ---------------------------------------------------------------- how much room a write set takes

  /** A copy a transaction asks for. */
  datatype Want = Want(obj: nat, bytes: nat)

  /** The lines of the copies themselves. */
  function LinesOf(copies: seq<Want>): nat {
    if copies == [] then 0 else LinesOf(copies[..|copies| - 1]) + LinesFor(copies[|copies| - 1].bytes)
  }

  /** What may be lost at the end of the buffer: less than the largest copy needs, or a
      padding. */
  function Loss(copies: seq<Want>): nat {
    if copies == [] then EXTRA
    else
      var lines := LinesFor(copies[|copies| - 1].bytes);
      if Loss(copies[..|copies| - 1]) < lines then lines else Loss(copies[..|copies| - 1])
  }

  /** What a write set can take at most: it crosses the end of the buffer once. */
  function Footprint(copies: seq<Want>): nat {
    SET_LINES + LinesOf(copies) + Loss(copies)
  }

  lemma {:induction false} FootprintParts(copies: seq<Want>, k: nat)
    requires k < |copies|
    ensures LinesOf(copies[..k]) + LinesFor(copies[k].bytes) == LinesOf(copies[..k + 1]) <= LinesOf(copies)
    ensures EXTRA <= Loss(copies[..k + 1]) <= Loss(copies) && LinesFor(copies[k].bytes) <= Loss(copies)
    decreases |copies| - k
  {
    assert copies[..k + 1][..k] == copies[..k];
    LossLeast(copies[..k + 1]);
    if k + 1 == |copies| {
      assert copies[..k + 1] == copies;
    } else {
      FootprintParts(copies, k + 1);
      assert copies[..k + 2][..k + 1] == copies[..k + 1];
    }
  }

  lemma {:induction false} LossLeast(copies: seq<Want>)
    ensures Loss(copies) >= EXTRA
  {
    if copies != [] { LossLeast(copies[..|copies| - 1]); }
  }

  /** A write set that begins at start and whose entries take so many lines ends at the
      tail: nothing is lost before the end of the buffer is crossed, and no more than
      the loss behind it. */
  predicate EndsAt(n: nat, start: nat, tail: nat, lines: nat, loss: nat)
    requires n > 0
  {
    var edge := start + (n - Idx(n, start));
    if tail < edge then tail == start + lines else start + lines <= tail <= start + lines + loss
  }

  /** One more entry of a write set that takes at most a quarter of the log. */
  lemma EntryRoom(n: nat, start: nat, tail: nat, used: nat, lines: nat, loss: nat)
    requires n > 0 && EndsAt(n, start, tail, used, loss) && used + lines + loss <= n / 4
    requires 0 < lines <= loss && EXTRA <= loss
    ensures var at := tail + Gap(n, tail, lines);
            && Gap(n, tail, lines) <= lines
            && EndsAt(n, start, at + lines + Padding(n, at, lines), used + lines, loss)
  {
    var edge := start + (n - Idx(n, start));
    IdxEnd(n, start);
    if tail < edge {
      IdxStep(n, start, tail - start);
    } else {
      IdxStep(n, edge, tail - edge);
    }
  }

  lemma HeaderRoom(n: nat, start: nat, loss: nat)
    requires n > 0 && Roomy(n, start) && EXTRA <= loss && SET_LINES + loss <= n / 4
    ensures EndsAt(n, start, AfterHeader(n, start), SET_LINES, loss) && SET_LINES > 0
  {
    assert SET_LINES == 2 && EXTRA == 3;
    EntryRoom(n, start, start, 0, SET_LINES, loss);
  }

  /** The same for a copy, behind a new header if there is no write set. */
  lemma CopyRoom(n: nat, start: nat, tail: nat, cur: Option<nat>, used: nat, lines: nat, loss: nat)
    requires n > 0 && 0 < lines <= loss && EXTRA <= loss && used + lines + loss <= n / 4
    requires if cur.None? then used == SET_LINES && tail == start && Roomy(n, start)
             else EndsAt(n, start, tail, used, loss)
    ensures lines + EXTRA < n && Gap(n, SetTail(n, tail, cur), lines) <= lines
    ensures EndsAt(n, start, AfterAppend(n, tail, cur, lines), used + lines, loss)
  {
    if cur.None? { HeaderRoom(n, start, loss); }
    EntryRoom(n, start, SetTail(n, tail, cur), used, lines, loss);
    hide Gap, Padding, Idx, Roomy, EndsAt, AfterHeader;
  }

  /** The next append of a write set of at most a quarter stays within the log. */
  lemma AppendFits(n: nat, head: nat, start: nat, tail: nat, cur: Option<nat>, copies: seq<Want>, k: nat)
    requires n > 0 && head <= start && start - head < n - n / 4 && Footprint(copies) <= n / 4 && k < |copies|
    requires if cur.None? then k == 0 && tail == start && Roomy(n, start)
             else EndsAt(n, start, tail, SET_LINES + LinesOf(copies[..k]), Loss(copies))
    ensures var lines := LinesFor(copies[k].bytes); var z := AfterAppend(n, tail, cur, lines);
            && lines + EXTRA < n && Gap(n, SetTail(n, tail, cur), lines) <= lines
            && EndsAt(n, start, z, SET_LINES + LinesOf(copies[..k + 1]), Loss(copies))
            && start <= z <= start + Footprint(copies) <= head + n
  {
    hide Gap, Padding, Idx, Roomy, SetTail, AfterAppend, LinesFor, Loss, LinesOf;
    var lines, loss, used := LinesFor(copies[k].bytes), Loss(copies), SET_LINES + LinesOf(copies[..k]);
    FootprintParts(copies, k);
    if cur.None? { NoLines(copies[..k]); }
    CopyRoom(n, start, tail, cur, used, lines, loss);
    AfterIsLater(n, tail, cur, lines);
  }

  lemma NoLines(copies: seq<Want>)
    requires copies == []
    ensures LinesOf(copies) == 0
  {
  }

  lemma AfterIsLater(n: nat, tail: nat, cur: Option<nat>, lines: nat)
    requires n > 0
    ensures AfterAppend(n, tail, cur, lines) >= tail
  {
  }

  /** Behind an entry there is always room for a write set's header. */
  lemma StaysRoomy(n: nat, tail: nat, lines: nat)
    requires 0 < lines && lines + EXTRA < n && Idx(n, tail) + lines < n
    ensures Roomy(n, tail + lines + Padding(n, tail, lines))
    ensures Idx(n, tail) + lines + Padding(n, tail, lines) <= n
  {
    if Padding(n, tail, lines) > 0 {
      IdxEnd(n, tail);
    } else {
      IdxStep(n, tail, lines);
    }
  }

  // ---------------------------------------------------------------- locks

  /** Who holds an object's lock: this thread, at a copy in its log, or another one. */
  datatype Lock = Mine(cnt: nat) | Other

  /** The locks after the first k items were appended, from those before them. */
  function Locked(w: WSet, k: nat, was: map<nat, Lock>): map<nat, Lock>
    requires k <= |w.items| == |w.objs|
  {
    if k == 0 then was
    else if w.items[k - 1].bogus then Locked(w, k - 1, was)
    else Locked(w, k - 1, was)[w.objs[k - 1] := Mine(w.items[k - 1].cnt)]
  }

  /** No copy's object was locked before that copy was appended. */
  predicate TakenFree(w: WSet, was: map<nat, Lock>)
    requires |w.items| == |w.objs|
  {
    forall k :: 0 <= k < |w.items| && !w.items[k].bogus ==> w.objs[k] !in Locked(w, k, was)
  }

  /** The locks left when the first k copies have been released, but for those kept. */
  function Released(w: WSet, k: nat, locks: map<nat, Lock>, kept: set<nat>): map<nat, Lock>
    requires k <= |w.items| == |w.objs|
  {
    if k == 0 then locks
    else if w.items[k - 1].bogus || w.objs[k - 1] in kept then Released(w, k - 1, locks, kept)
    else Released(w, k - 1, locks, kept) - {w.objs[k - 1]}
  }

  /** The copies of the first k items that stay locked because they were freed. */
  function FreedObjs(w: WSet, k: nat, kept: set<nat>): set<nat>
    requires k <= |w.items| == |w.objs|
  {
    set j | 0 <= j < k && !w.items[j].bogus && w.objs[j] in kept :: w.objs[j]
  }

  /** Locks taken are in place, each at its own copy, and the others are untouched. */
  lemma {:induction false} LockedMeans(w: WSet, k: nat, was: map<nat, Lock>)
    requires k <= |w.items| == |w.objs| && TakenFree(w, was)
    ensures forall j :: 0 <= j < k && !w.items[j].bogus ==>
      w.objs[j] !in was && w.objs[j] in Locked(w, k, was) && Locked(w, k, was)[w.objs[j]] == Mine(w.items[j].cnt)
    ensures forall i, j :: 0 <= i < j < k && !w.items[i].bogus && !w.items[j].bogus ==> w.objs[i] != w.objs[j]
    ensures forall o :: o in was ==> o in Locked(w, k, was) && Locked(w, k, was)[o] == was[o]
    ensures forall o :: o in Locked(w, k, was) && o !in was ==>
      exists j :: 0 <= j < k && !w.items[j].bogus && w.objs[j] == o
  {
    if k > 0 {
      LockedMeans(w, k - 1, was);
      var was1, it, x := Locked(w, k - 1, was), w.items[k - 1], w.objs[k - 1];
      assert Locked(w, k, was) == if it.bogus then was1 else was1[x := Mine(it.cnt)];
      assert !it.bogus ==> x !in was1;
      hide Locked;
    }
  }

  lemma {:induction false} ReleasedMeans(w: WSet, k: nat, locks: map<nat, Lock>, kept: set<nat>)
    requires k <= |w.items| == |w.objs|
    ensures forall o :: o in Released(w, k, locks, kept) <==>
      o in locks && (o in kept || !exists j :: 0 <= j < k && !w.items[j].bogus && w.objs[j] == o)
    ensures forall o :: o in Released(w, k, locks, kept) ==> Released(w, k, locks, kept)[o] == locks[o]
  {
    if k > 0 { ReleasedMeans(w, k - 1, locks, kept); }
  }

  /** Releasing what was taken, but for the freed objects, restores every other lock. */
  lemma {:induction false} ReleaseUndoesLock(w: WSet, was: map<nat, Lock>, kept: set<nat>)
    requires |w.items| == |w.objs| && TakenFree(w, was)
    ensures var k := |w.items|; var z := Released(w, k, Locked(w, k, was), kept);
            && (forall o :: o in z <==> o in was || o in FreedObjs(w, k, kept))
            && (forall o :: o in was ==> z[o] == was[o])
            && (kept == {} ==> z == was)
  {
    var k := |w.items|;
    var l := Locked(w, k, was);
    var z := Released(w, k, l, kept);
    LockedMeans(w, k, was);
    ReleasedMeans(w, k, l, kept);
    forall o ensures o in z <==> o in was || o in FreedObjs(w, k, kept) {
    }
  }

  // ---------------------------------------------------------------- appending

  function Grow(w: WSet, it: Item, obj: nat): WSet {
    w.(items := w.items + [it], objs := w.objs + [obj], end := it.cnt + it.size)
  }

  /** The write set with one more copy, after a gap filled by a bogus item. */
  function Grown(w: WSet, gap: nat, obj: nat, size: nat): WSet {
    Grow(if gap > 0 then Grow(w, Item(w.end, gap, true), 0) else w, Item(w.end + gap, size, false), obj)
  }

  /** One more item, already written, and one more in the header's count. */
  lemma {:induction false} SetGrows(b: seq<Line>, zb: seq<Line>, w: WSet, it: Item, obj: nat)
    requires SetOk(b, w) && |zb| == |b| && it.cnt == w.end && it.cnt + it.size <= w.start + |b| && ItemOk(|b|, it)
    requires zb == b[Idx(|b|, w.start) := WrtSet(w.hsize, |w.items| + 1)]
    ensures SetOk(zb, Grow(w, it, obj)) <==> HeaderIs(b[Idx(|b|, it.cnt)], it, obj)
  {
    hide Idx, ItemOk;
    var n, z := |b|, Grow(w, it, obj);
    WalkBegin(b, w);
    ChainAppend(n, w.items, w.start + w.hsize, w.end, it);
    forall k | 0 <= k < |z.items| ensures zb[Idx(n, z.items[k].cnt)] == b[Idx(n, z.items[k].cnt)] {
      HeadersApart(n, z, k, k);
    }
    assert z.items[|w.items|] == it && z.objs[|w.items|] == obj;
  }

  /** An append that had to skip a gap first: the bogus item is one that a walk can
      step over only if its size fits the field that stores it. */
  lemma {:induction false} GrownOk(b: seq<Line>, zb: seq<Line>, w: WSet, gap: nat, obj: nat, size: nat, was: map<nat, Lock>)
    requires SetOk(b, w) && |zb| == |b| && size > 0 && w.end + gap + size <= w.start + |b|
    requires zb == b[Idx(|b|, w.start) := WrtSet(w.hsize, |Grown(w, gap, obj, size).items|)]
    requires ItemOk(|b|, Item(w.end + gap, size, false)) && b[Idx(|b|, w.end + gap)] == Copy(size, obj, None, false)
    requires gap > 0 ==> ItemOk(|b|, Item(w.end, gap, true))
    requires gap > 0 ==> b[Idx(|b|, w.end)] == Bogus(gap % PADDING_LINES)
    requires TakenFree(w, was) && obj !in Locked(w, |w.items|, was)
    ensures var z := Grown(w, gap, obj, size);
            && (SetOk(zb, z) <==> gap < PADDING_LINES)
            && TakenFree(z, was)
            && Locked(z, |z.items|, was) == Locked(w, |w.items|, was)[obj := Mine(w.end + gap)]
  {
    hide Idx, ItemOk, Chain, Locked, TakenFree;
    var n, it := |b|, Item(w.end + gap, size, false);
    WalkBegin(b, w);
    if gap == 0 {
      SetGrows(b, zb, w, it, obj);
      LockGrows(w, it, obj, was);
    } else {
      var bog := Item(w.end, gap, true);
      var c, m := b[Idx(n, w.start) := WrtSet(w.hsize, |w.items| + 1)], Grow(w, bog, 0);
      SetGrows(b, c, w, bog, 0);
      LockGrows(w, bog, 0, was);
      LockGrows(m, it, obj, was);
      PlacesDiffer(n, w.start, w.end);
      PlacesDiffer(n, w.start, w.end + gap);
      if gap < PADDING_LINES {
        SetGrows(c, zb, m, it, obj);
      } else {
        assert Grown(w, gap, obj, size).items[|w.items|] == bog;
      }
    }
  }

  lemma {:induction false} LockGrows(w: WSet, it: Item, obj: nat, was: map<nat, Lock>)
    requires |w.items| == |w.objs| && TakenFree(w, was)
    requires !it.bogus ==> obj !in Locked(w, |w.items|, was)
    ensures var z := Grow(w, it, obj);
            && TakenFree(z, was)
            && Locked(z, |z.items|, was)
            == if it.bogus then Locked(w, |w.items|, was) else Locked(w, |w.items|, was)[obj := Mine(it.cnt)]
  {
    var z, m := Grow(w, it, obj), |w.items|;
    assert w.items <= z.items && w.objs <= z.objs && z.items[m] == it && z.objs[m] == obj;
    assert |z.items| == |z.objs| == m + 1;
    LockedLast(z, was);
    LockedPrefix(w, z, m, was);
    hide Locked, Grow;
    forall k | 0 <= k < |z.items| && !z.items[k].bogus ensures z.objs[k] !in Locked(z, k, was) {
      LockedPrefix(w, z, k, was);
      assert k < m ==> z.items[k] == w.items[k] && z.objs[k] == w.objs[k];
    }
  }

  lemma LockedLast(z: WSet, was: map<nat, Lock>)
    requires |z.items| == |z.objs| > 0
    ensures
      var m := |z.items| - 1;
      && (z.items[m].bogus ==> Locked(z, m + 1, was) == Locked(z, m, was))
      && (!z.items[m].bogus ==> Locked(z, m + 1, was) == Locked(z, m, was)[z.objs[m] := Mine(z.items[m].cnt)])
  {
  }

  lemma {:induction false} LockedPrefix(w: WSet, z: WSet, k: nat, was: map<nat, Lock>)
    requires |w.items| == |w.objs| && |z.items| == |z.objs| && w.items <= z.items && w.objs <= z.objs
    requires k <= |w.items|
    ensures Locked(z, k, was) == Locked(w, k, was)
  {
    if k > 0 { LockedPrefix(w, z, k - 1, was); }
  }

  // ---------------------------------------------------------------- the log

  class Log {
    const n: nat                    // the size of the log, in lines
    const buf: array<Line>
    var head: nat                   // head_cnt
    var tail: nat                   // tail_cnt
    var cur: Option<nat>            // cur_wrt_set, by its position
    var locks: map<nat, Lock>       // p_lock of the objects
    ghost var done: seq<WSet>       // the finished write sets in the log
    ghost var ws: WSet              // the current one
    ghost var was: map<nat, Lock>   // the locks when it began

    constructor (n: nat)
      requires n > SET_LINES + EXTRA
      ensures Valid() && cur.None? && done == [] && locks == map[] && this.n == n && fresh(buf)
    {
      this.n := n;
      buf := new Line[n](_ => Body);
      head, tail, cur, locks := 0, 0, None, map[];
      done, ws, was := [], WSet(0, 1, [], [], 0), map[];
    }

    /** The log up to where a walk over the current write set ends. */
    ghost predicate Walkable()
      reads this, buf
    {
      && n > SET_LINES + EXTRA && buf.Length == n && head <= tail <= head + n
      && match cur
         case None => Sets(buf[..], done, head, tail) && Roomy(n, tail)
         case Some(start) =>
           && Sets(buf[..], done, head, start) && Roomy(n, start)
           && ws.start == start && ws.end <= tail && SetOk(buf[..], ws)
           && TakenFree(ws, was) && locks == Locked(ws, |ws.items|, was)
    }

    /** The walk over the current write set ends at the tail. */
    ghost predicate Valid()
      reads this, buf
    {
      Walkable() && (cur.Some? ==> ws.end == tail && Roomy(n, tail))
    }

    /** tvlog_alloc: skips to the beginning of the buffer if the entry would reach its
        end, and pads it if a write set's header would not fit behind it. */
    method Alloc(lines: nat) returns (size: nat, bogus: bool)
      requires buf.Length == n && 0 < lines && lines + EXTRA < n
      modifies buf, this`tail
      ensures bogus <==> Gap(n, old(tail), lines) > 0
      ensures tail == old(tail) + Gap(n, old(tail), lines)
      ensures size == lines + Padding(n, tail, lines)
      ensures Idx(n, tail) + size <= n && Roomy(n, tail + size)
      ensures bogus ==> Idx(n, old(tail)) > 0 && Idx(n, tail) == 0
      ensures buf[..] == if bogus
                         then old(buf[..])[Idx(n, old(tail)) := Bogus(Gap(n, old(tail), lines) % PADDING_LINES)]
                         else old(buf[..])
    {
      bogus := false;
      WrapTest(n, tail, lines);
      if Idx(n, tail + lines) < Idx(n, tail) {
        var gap := n - Idx(n, tail);
        IdxEnd(n, tail);
        buf[Idx(n, tail)] := Bogus(gap % PADDING_LINES);
        tail := tail + gap;
        bogus := true;
      }
      size := lines;
      WrapTest(n, tail, lines + EXTRA);
      StaysRoomy(n, tail, lines);
      IdxStep(n, tail, lines);
      if !bogus && Idx(n, tail + lines + EXTRA) < Idx(n, tail) {
        size := lines + (n - Idx(n, tail + lines));
      }
    }

    /** The first half of tvlog_append_begin: a new write set. Its header never needs
        a bogus item. */
    method BeginSet()
      requires Valid() && cur.None? && AfterHeader(n, tail) <= head + n
      modifies buf, this`tail, this`cur, this`ws, this`was
      ensures Valid() && cur == Some(old(tail)) && tail == AfterHeader(n, old(tail))
      ensures ws.items == [] && ws.objs == [] && was == locks && ws.end == tail
      ensures Agree(old(buf[..]), buf[..], head, old(tail))
    {
      hide Idx, Sets, HeaderIs, ItemOk;
      ghost var b, at := buf[..], tail;
      var size, bogus := Alloc(SET_LINES);
      assert !bogus;
      buf[Idx(n, tail)] := WrtSet(size, 0);
      cur, ws, was := Some(tail), WSet(tail, size, [], [], tail + size), locks;
      tail := tail + size;
      assert buf[..] == b[Idx(n, at) := WrtSet(size, 0)];
      WriteBeyond(b, buf[..], head, at, WrtSet(size, 0));
      SetsAgree(b, buf[..], done, head, at);
    }

    /** The second half of tvlog_append_begin: room for a copy behind the write set. */
    method AllocCopy(obj: nat, lines: nat) returns (size: nat, bogus: bool)
      requires Valid() && cur.Some? && 0 < lines && lines + EXTRA < n && AfterAppend(n, tail, cur, lines) <= head + n
      modifies buf, this`tail
      ensures Walkable() && tail == ws.end + Gap(n, ws.end, lines) && Agree(old(buf[..]), buf[..], head, old(tail))
      ensures tail + size == AfterAppend(n, old(tail), cur, lines) && size > 0
      ensures Idx(n, tail) + size <= n && Roomy(n, tail + size)
      ensures buf[Idx(n, tail)] == Copy(size, obj, None, false)
      ensures bogus <==> tail > ws.end
      ensures bogus ==> ItemOk(n, Item(ws.end, tail - ws.end, true))
      ensures bogus ==> buf[Idx(n, ws.end)] == Bogus((tail - ws.end) % PADDING_LINES)
    {
      hide Idx, SetOk, Sets, Locked, TakenFree, Chain;
      ghost var b, at := buf[..], tail;
      size, bogus := Alloc(lines);
      ghost var c := buf[..];
      buf[Idx(n, tail)] := Copy(size, obj, None, false);
      if bogus {
        WriteBeyond(b, c, head, at, c[Idx(n, at)]);
        PlacesDiffer(n, at, tail);
      }
      WriteBeyond(c, buf[..], head, tail, Copy(size, obj, None, false));
      KeepsSets(b, buf[..], done, head, ws);
    }

    /** tvlog_append_begin: room for a copy behind the current write set, which is
        created first if need be. */
    method AppendBegin(obj: nat, lines: nat) returns (size: nat, bogus: bool)
      requires Valid() && 0 < lines && lines + EXTRA < n && AfterAppend(n, tail, cur, lines) <= head + n
      modifies buf, this`tail, this`cur, this`ws, this`was
      ensures Walkable() && cur == Some(if old(cur).Some? then old(cur).value else old(tail))
      ensures Agree(old(buf[..]), buf[..], head, old(tail))
      ensures ws.end == SetTail(n, old(tail), old(cur)) && tail == ws.end + Gap(n, ws.end, lines)
      ensures tail + size == AfterAppend(n, old(tail), old(cur), lines) && size > 0
      ensures Idx(n, tail) + size <= n && Roomy(n, tail + size) && Roomy(n, ws.end)
      ensures if old(cur).Some? then ws == old(ws) && was == old(was) else ws.items == [] && ws.objs == [] && was == locks
      ensures buf[Idx(n, tail)] == Copy(size, obj, None, false)
      ensures bogus <==> tail > ws.end
      ensures bogus ==> ItemOk(n, Item(ws.end, tail - ws.end, true))
      ensures bogus ==> buf[Idx(n, ws.end)] == Bogus((tail - ws.end) % PADDING_LINES)
    {
      hide Idx, SetOk, Sets, Locked, TakenFree, Chain, ItemOk;
      ghost var b := buf[..];
      if cur.None? { BeginSet(); }
      ghost var c, at := buf[..], tail;
      size, bogus := AllocCopy(obj, lines);
      AgreeThrough(b, c, buf[..], head, old(tail), at);
    }

    lemma AgreeThrough(b: seq<Line>, c: seq<Line>, z: seq<Line>, at: nat, end: nat, later: nat)
      requires |b| == |c| == |z| > 0 && end <= later && Agree(b, c, at, end) && Agree(c, z, at, later)
      ensures Agree(b, z, at, end)
    {
    }

    /** tvlog_append_end: the copy, and the bogus item in front of it, join the set. */
    method AppendEnd(obj: nat, size: nat, bogus: bool)
      requires Walkable() && cur.Some? && ws.end <= tail && size > 0 && tail + size <= head + n
      requires Idx(n, tail) + size <= n && Roomy(n, tail + size) && (bogus <==> tail > ws.end)
      requires buf[Idx(n, tail)] == Copy(size, obj, None, false)
      requires bogus ==> ItemOk(n, Item(ws.end, tail - ws.end, true))
      requires bogus ==> buf[Idx(n, ws.end)] == Bogus((tail - ws.end) % PADDING_LINES)
      requires obj !in locks
      modifies buf, this`tail, this`ws, this`locks
      ensures tail == old(tail) + size && locks == old(locks)[obj := Mine(old(tail))]
      ensures ws == Grown(old(ws), old(tail) - old(ws.end), obj, size)
      ensures buf[..] == old(buf[..])[Idx(n, cur.value) := WrtSet(ws.hsize, |ws.items|)]
      ensures Valid() <==> old(tail) - old(ws.end) < PADDING_LINES
    {
      hide Idx, Sets, Locked, TakenFree, Chain, Written;
      ghost var b, w, gap := buf[..], ws, tail - ws.end;
      var start := cur.value;
      locks := locks[obj := Mine(tail)];
      tail := tail + size;
      WalkBegin(b, w);
      SetsRange(b, done, head, start);
      var h := buf[Idx(n, start)];
      buf[Idx(n, start)] := WrtSet(h.size, h.num + (if bogus then 1 else 0) + 1);
      ws := Grown(w, gap, obj, size);
      WriteBeyond(b, buf[..], head, start, buf[Idx(n, start)]);
      SetsAgree(b, buf[..], done, head, start);
      GrownOk(b, buf[..], w, gap, obj, size, was);
    }

    /** A whole append around try_lock_obj. The write set grows by this copy, and by
        the bogus item in front of it if there is one, and the object is locked; or the
        object was locked already. A failed attempt keeps the room its bogus item took:
        the walk then no longer reaches the tail, and only an abort is left. */
    method Append(obj: nat, bytes: nat) returns (ok: bool)
      requires Valid() && LinesFor(bytes) + EXTRA < n
      requires AfterAppend(n, tail, cur, LinesFor(bytes)) <= head + n
      modifies buf, this`tail, this`cur, this`ws, this`was, this`locks
      ensures ok <==> obj !in old(locks)
      ensures cur == Some(if old(cur).Some? then old(cur).value else old(tail))
      ensures was == if old(cur).Some? then old(was) else old(locks)
      ensures Agree(old(buf[..]), buf[..], head, cur.value) && Agree(old(buf[..]), buf[..], cur.value + 1, old(tail))
      ensures var at := SetTail(n, old(tail), old(cur)); var gap := Gap(n, at, LinesFor(bytes));
              if ok then
                && (Valid() <==> gap < PADDING_LINES)
                && tail == AfterAppend(n, old(tail), old(cur), LinesFor(bytes))
                && ws.items == (if old(cur).Some? then old(ws.items) else [])
                               + (if gap > 0 then [Item(at, gap, true)] else []) + [Item(at + gap, tail - at - gap, false)]
                && locks == old(locks)[obj := Mine(at + gap)]
              else
                && Walkable() && (Valid() <==> gap == 0) && tail == at + gap && locks == old(locks)
                && ws.items == if old(cur).Some? then old(ws.items) else []
    {
      hide Idx, SetOk, Sets, Locked, TakenFree, LinesFor, ItemOk;
      ghost var b, was_tail := buf[..], tail;
      var size, bogus := AppendBegin(obj, LinesFor(bytes));
      ghost var c := buf[..];
      StartBelow();
      if obj in locks { return false; }
      AppendEnd(obj, size, bogus);
      ok := true;
      OnlyHeader(b, c, buf[..], was_tail);
    }

    lemma StartBelow()
      requires Walkable() && cur.Some?
      ensures head <= cur.value < ws.end <= tail <= head + n
    {
      WalkBegin(buf[..], ws);
      SetsRange(buf[..], done, head, cur.value);
    }

    /** Appending a copy changes the write set's header and lines not used before. */
    lemma OnlyHeader(b: seq<Line>, c: seq<Line>, z: seq<Line>, at: nat)
      requires n > 0 && |b| == |c| == |z| == n && cur.Some? && head <= cur.value < head + n && at <= head + n
      requires Agree(b, c, head, at) && z == c[Idx(n, cur.value) := z[Idx(n, cur.value)]] && cur.value <= at
      ensures Agree(b, z, head, cur.value) && Agree(b, z, cur.value + 1, at)
    {
      WriteBeyond(c, z, head, cur.value, z[Idx(n, cur.value)]);
      forall p | cur.value + 1 <= p < at ensures z[Idx(n, p)] == b[Idx(n, p)] {
        PlacesDiffer(n, cur.value, p);
      }
    }

    /** All appends of a transaction that ts_begin has let in, which is when the log is
        filled to less than three quarters: if its write set takes a quarter at most,
        none of them reaches an entry still in the log, up to the first lock that
        cannot be had. */
    method AppendAll(copies: seq<Want>) returns (count: nat)
      requires Valid() && cur.None? && tail - head < n - n / 4 && Footprint(copies) <= n / 4
      requires forall k :: 0 <= k < |copies| ==> LinesFor(copies[k].bytes) < PADDING_LINES
      modifies buf, this`tail, this`cur, this`ws, this`was, this`locks
      ensures Walkable() && tail <= head + n && count <= |copies| && Agree(old(buf[..]), buf[..], head, old(tail))
      ensures count > 0 ==> cur == Some(old(tail)) && was == old(locks)
      ensures forall k :: 0 <= k < count ==> copies[k].obj in locks && copies[k].obj !in old(locks)
      ensures forall o :: o in old(locks) ==> o in locks && locks[o] == old(locks)[o]
      ensures if count == |copies| then Valid() else copies[count].obj in locks
    {
      hide Idx, SetOk, Sets, Locked, TakenFree, ItemOk, Roomy, EndsAt, Footprint, LinesOf, Loss, AfterAppend, Gap, Padding, SetTail;
      hide LinesFor;
      count := 0;
      while count < |copies|
        invariant count <= |copies| && Valid() && Agree(old(buf[..]), buf[..], head, old(tail))
        invariant if count == 0 then cur.None? && tail == old(tail) else cur == Some(old(tail)) && was == old(locks)
        invariant count > 0 ==> tail <= old(tail) + Footprint(copies)
        invariant count > 0 ==> EndsAt(n, old(tail), tail, SET_LINES + LinesOf(copies[..count]), Loss(copies))
        invariant count == 0 ==> locks == old(locks)
        invariant forall k :: 0 <= k < count ==> copies[k].obj in locks && copies[k].obj !in old(locks)
        invariant forall o :: o in old(locks) ==> o in locks && locks[o] == old(locks)[o]
      {
        AppendFits(n, head, old(tail), tail, cur, copies, count);
        var ok := Append(copies[count].obj, copies[count].bytes);
        if !ok { return; }
        count := count + 1;
      }
    }

    // ---- walks over the current write set

    /** ws_move_lock_to_copy, as far as the log goes: copies of freed objects are
        marked. The walk meets every item once and ends where the write set ends. */
    method MarkFreed(freed: set<nat>)
      requires Walkable() && cur.Some?
      modifies buf
      ensures Walkable() && Agree(old(buf[..]), buf[..], head, ws.start)
      ensures forall k :: 0 <= k < |ws.items| && !ws.items[k].bogus ==>
        buf[Idx(n, ws.items[k].cnt)] == Copy(ws.items[k].size, ws.objs[k], old(buf[Idx(n, ws.items[k].cnt)]).clk, ws.objs[k] in freed)
    {
      hide Idx, Sets, Locked, TakenFree, Chain;
      var h := buf[Idx(n, cur.value)];
      var i, cnt := 0, cur.value + h.size;
      WalkBegin(buf[..], ws);
      ghost var b := buf[..];
      while i < h.num
        invariant 0 <= i <= h.num == |ws.items| && cnt == WalkAt(ws, i)
        invariant Sets(buf[..], done, head, ws.start) && SetOk(buf[..], ws) && Agree(b, buf[..], head, ws.start)
        invariant forall k :: 0 <= k < |ws.items| && !ws.items[k].bogus ==>
          buf[Idx(n, ws.items[k].cnt)]
          == Copy(ws.items[k].size, ws.objs[k], b[Idx(n, ws.items[k].cnt)].clk,
                  if k < i then ws.objs[k] in freed else b[Idx(n, ws.items[k].cnt)].free)
      {
        var l := buf[Idx(n, cnt)];
        if l.Copy? {
          Relabel(buf[..], done, head, ws, i, l.(free := l.obj in freed));
          buf[Idx(n, cnt)] := l.(free := l.obj in freed);
        }
        WalkStep(buf[..], ws, i);
        cnt := cnt + SizeOf(l);
        i := i + 1;
      }
    }

    /** ws_unlock_commit: every copy gets its commit clock, and every lock but those
        of freed objects is released. */
    method UnlockCommit(clk: nat, ghost freed: set<nat>)
      requires Walkable() && cur.Some?
      requires forall k :: 0 <= k < |ws.items| && !ws.items[k].bogus ==>
        (buf[Idx(n, ws.items[k].cnt)].free <==> ws.objs[k] in freed)
      modifies buf, this`locks
      ensures n == buf.Length && Sets(buf[..], done, head, ws.start) && SetOk(buf[..], ws)
      ensures Agree(old(buf[..]), buf[..], head, ws.start)
      ensures |ws.items| == |ws.objs| && locks == Released(ws, |ws.items|, old(locks), freed)
      ensures forall k :: 0 <= k < |ws.items| && !ws.items[k].bogus ==>
        buf[Idx(n, ws.items[k].cnt)] == Copy(ws.items[k].size, ws.objs[k], Some(clk), ws.objs[k] in freed)
    {
      hide Idx, Sets, Locked, TakenFree, Chain;
      var h := buf[Idx(n, cur.value)];
      var i, cnt := 0, cur.value + h.size;
      WalkBegin(buf[..], ws);
      while i < h.num
        invariant 0 <= i <= h.num == |ws.items| && cnt == WalkAt(ws, i)
        invariant Sets(buf[..], done, head, ws.start) && SetOk(buf[..], ws)
        invariant Agree(old(buf[..]), buf[..], head, ws.start)
        invariant locks == Released(ws, i, old(locks), freed)
        invariant forall k :: 0 <= k < |ws.items| && !ws.items[k].bogus ==>
          && (buf[Idx(n, ws.items[k].cnt)].free <==> ws.objs[k] in freed)
          && (k < i ==> buf[Idx(n, ws.items[k].cnt)].clk == Some(clk))
      {
        var l := buf[Idx(n, cnt)];
        if l.Copy? {
          Relabel(buf[..], done, head, ws, i, l.(clk := Some(clk)));
          buf[Idx(n, cnt)] := l.(clk := Some(clk));
          if !l.free { locks := locks - {l.obj}; }
        }
        WalkStep(buf[..], ws, i);
        cnt := cnt + SizeOf(l);
        i := i + 1;
      }
    }

    /** tvlog_commit, as far as the log and the locks go: the write set is finished,
        its copies carry the commit clock, and exactly the locks it had taken are
        released, but for those of freed objects. */
    method Commit(freed: set<nat>, clk: nat)
      requires Valid() && cur.Some?
      modifies buf, this`locks, this`cur, this`done
      ensures Valid() && cur.None? && done == old(done) + [ws] && Agree(old(buf[..]), buf[..], head, ws.start)
      ensures forall k :: 0 <= k < |ws.items| && !ws.items[k].bogus ==>
        buf[Idx(n, ws.items[k].cnt)] == Copy(ws.items[k].size, ws.objs[k], Some(clk), ws.objs[k] in freed)
      ensures forall o :: o in locks <==> o in was || o in FreedObjs(ws, |ws.items|, freed)
      ensures forall o :: o in was ==> locks[o] == was[o]
      ensures forall o :: o in locks ==> o in old(locks) && locks[o] == old(locks)[o]
    {
      hide Idx, Sets, Locked, TakenFree, Chain, Released;
      MarkFreed(freed);
      UnlockCommit(clk, freed);
      ReleasedMeans(ws, |ws.items|, old(locks), freed);
      ReleaseUndoesLock(ws, was, freed);
      SetsAppend(buf[..], done, head, ws);
      cur, done := None, done + [ws];
    }

    /** tvlog_abort: every lock is released, the log ends where the write set began. */
    method Abort()
      requires Walkable() && cur.Some?
      modifies this`locks, this`cur, this`tail
      ensures Valid() && cur.None? && tail == ws.start && locks == was
    {
      hide Idx, Sets, Locked, TakenFree, Chain;
      var h := buf[Idx(n, cur.value)];
      var i, cnt := 0, cur.value + h.size;
      WalkBegin(buf[..], ws);
      SetsRange(buf[..], done, head, ws.start);
      while i < h.num
        invariant 0 <= i <= h.num == |ws.items| && cnt == WalkAt(ws, i)
        invariant cur == old(cur) && tail == old(tail) && locks == Released(ws, i, old(locks), {})
      {
        var l := buf[Idx(n, cnt)];
        if l.Copy? { locks := locks - {l.obj}; }
        WalkStep(buf[..], ws, i);
        cnt := cnt + SizeOf(l);
        i := i + 1;
      }
      ReleaseUndoesLock(ws, was, {});
      cur, tail := None, cur.value;
    }

    // ---- reclamation

    /** One round of the reclaim loop: the walk over the oldest write set leads to the
        next one, which becomes the head. */
    method DropFirst()
      requires Valid() && done != []
      modifies this`head, this`done
      ensures Valid() && head == old(done)[0].end > old(head) && done == old(done)[1..]
    {
      hide Idx, Locked, TakenFree, Chain;
      ghost var w := done[0];
      var h := buf[Idx(n, head)];
      var i, cnt := 0, head + h.size;
      WalkBegin(buf[..], w);
      while i < h.num
        invariant 0 <= i <= h.num == |w.items| && cnt == WalkAt(w, i)
        invariant head == old(head) && done == old(done)
      {
        WalkStep(buf[..], w, i);
        cnt := cnt + SizeOf(buf[Idx(n, cnt)]);
        i := i + 1;
      }
      SetsRange(buf[..], done[1..], w.end, if cur.Some? then ws.start else tail);
      if cur.Some? { WalkBegin(buf[..], ws); }
      head, done := cnt, done[1..];
    }
  }
}
