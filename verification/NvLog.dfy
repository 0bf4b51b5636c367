/** The durable ring log (lib/nvlog.c). Entries are aligned to cache lines, so lines
    are the unit of everything here. */
module NvLog {
  import opened Options
  import opened Ring

  /** A line of the buffer: an entry's header or part of its body. */
  datatype Line = Body(x: int) | Header(size: nat, bogus: bool)

  /** An entry as its reader sees it. */
  datatype Entry = Entry(cnt: nat, size: nat, body: seq<Line>)

  const LINE: nat := 64
  const HEADER: nat := 16

  /** Lines an entry takes: its object and a header, rounded up. */
  function LinesFor(bytes: nat): (l: nat)
    ensures l > 0 && (l - 1) * LINE < bytes + HEADER <= l * LINE
  {
    (bytes + HEADER + LINE - 1) / LINE
  }

  // ---------------------------------------------------------------- what a log contains

  predicate Written(buf: seq<Line>, items: seq<Item>) {
    |buf| > 0 && forall k :: 0 <= k < |items| ==>
      buf[Idx(|buf|, items[k].cnt)] == Header(items[k].size, items[k].bogus)
  }

  function BodyOf(buf: seq<Line>, it: Item): seq<Line>
    requires |buf| > 0 && ItemOk(|buf|, it)
  {
    buf[Idx(|buf|, it.cnt) + 1..Idx(|buf|, it.cnt) + it.size]
  }

  /** The queue: the entries in order, without the bogus items. */
  function Queue(buf: seq<Line>, items: seq<Item>): seq<Entry>
    requires |buf| > 0 && forall k :: 0 <= k < |items| ==> ItemOk(|buf|, items[k])
  {
    if items == [] then []
    else if items[0].bogus then Queue(buf, items[1..])
    else [Entry(items[0].cnt, items[0].size, BodyOf(buf, items[0]))] + Queue(buf, items[1..])
  }

  lemma BodyAgree(buf: seq<Line>, zb: seq<Line>, it: Item, a: nat, b: nat)
    requires |buf| == |zb| > 0 && Agree(buf, zb, a, b) && ItemOk(|buf|, it)
    requires a <= it.cnt && it.cnt + it.size <= b
    ensures BodyOf(zb, it) == BodyOf(buf, it)
  {
    hide Idx;
    var n, i := |buf|, Idx(|buf|, it.cnt);
    forall j | i < j < i + it.size ensures zb[j] == buf[j] {
      IdxStep(n, it.cnt, j - i);
      assert zb[Idx(n, it.cnt + (j - i))] == buf[Idx(n, it.cnt + (j - i))];
    }
  }

  /** Headers and bodies depend on the lines between the ends only. */
  lemma {:induction false} QueueAgree(buf: seq<Line>, zb: seq<Line>, items: seq<Item>, a: nat, b: nat)
    requires |buf| == |zb| > 0 && Chain(|buf|, items, a, b) && Agree(buf, zb, a, b)
    ensures forall k :: 0 <= k < |items| ==> ItemOk(|buf|, items[k])
    ensures Queue(zb, items) == Queue(buf, items)
    ensures Written(buf, items) ==> Written(zb, items)
  {
    ChainRange(|buf|, items, a, b);
    if items != [] {
      ChainRange(|buf|, items[1..], a + items[0].size, b);
      QueueAgree(buf, zb, items[1..], a + items[0].size, b);
      BodyAgree(buf, zb, items[0], a, b);
    }
  }

  lemma {:induction false} QueueAppend(buf: seq<Line>, items: seq<Item>, it: Item)
    requires |buf| > 0 && ItemOk(|buf|, it) && forall k :: 0 <= k < |items| ==> ItemOk(|buf|, items[k])
    ensures forall k :: 0 <= k < |items + [it]| ==> ItemOk(|buf|, (items + [it])[k])
    ensures Queue(buf, items + [it])
         == Queue(buf, items) + (if it.bogus then [] else [Entry(it.cnt, it.size, BodyOf(buf, it))])
  {
    if items != [] {
      QueueAppend(buf, items[1..], it);
      assert (items + [it])[1..] == items[1..] + [it];
    }
  }

  /** Lines nt to t of the ring, less than a lap, as stretches of the buffer. */
  predicate InStretch(n: nat, nt: nat, t: nat, i: nat)
    requires n > 0
  {
    if Idx(n, nt) < Idx(n, t) then Idx(n, nt) <= i < Idx(n, t) else Idx(n, nt) <= i < n || i < Idx(n, t)
  }

  lemma StretchOf(n: nat, nt: nat, t: nat, p: nat)
    requires n > 0 && nt <= p < t < nt + n
    ensures InStretch(n, nt, t, Idx(n, p))
  {
    PlacesDiffer(n, nt, t);
    var a := Idx(n, nt);
    if a + (t - nt) < n {
      IdxStep(n, nt, t - nt);
      IdxStep(n, nt, p - nt);
    } else {
      var m := nt + (n - a);
      IdxEnd(n, nt);
      IdxStep(n, m, t - m);
      if p < m { IdxStep(n, nt, p - nt); } else { IdxStep(n, m, p - m); }
    }
  }

  /** The position whose line the flush loops reach at index i. */
  lemma StretchHas(n: nat, nt: nat, t: nat, i: nat) returns (p: nat)
    requires n > 0 && nt < t < nt + n && i < n && InStretch(n, nt, t, i)
    ensures nt <= p < t && Idx(n, p) == i
  {
    PlacesDiffer(n, nt, t);
    var a := Idx(n, nt);
    var m := nt + (n - a);
    IdxEnd(n, nt);
    if a + (t - nt) < n {
      IdxStep(n, nt, t - nt);
      p := nt + (i - a);
      IdxStep(n, nt, i - a);
    } else {
      IdxStep(n, m, t - m);
      if i >= a {
        p := nt + (i - a);
        IdxStep(n, nt, i - a);
      } else {
        p := m + i;
        IdxStep(n, m, i);
      }
    }
  }

  lemma {:induction false} NotAnItem(n: nat, items: seq<Item>, it: Item, a: nat, b: nat)
    requires n > 0 && !ItemOk(n, it)
    ensures !Chain(n, items + [it], a, b)
  {
    if items == [] {
      assert items + [it] == [it];
    } else {
      NotAnItem(n, items[1..], it, a + items[0].size, b);
      assert (items + [it])[1..] == items[1..] + [it];
    }
  }

  /** A prefix that reaches as far as xs contains xs. */
  lemma {:induction false} PrefixEnds(n: nat, xs: seq<Item>, ys: seq<Item>, d: nat, a: nat, m: nat, b: nat)
    requires n > 0 && d <= |xs + ys| && m <= b
    requires Chain(n, xs, a, m) && Chain(n, (xs + ys)[..d], a, b)
    ensures |xs| <= d && Chain(n, ys[..d - |xs|], m, b)
  {
    if xs == [] {
      assert (xs + ys)[..d] == ys[..d];
    } else {
      ChainRange(n, xs[1..], a + xs[0].size, m);
      assert (xs + ys)[1..] == xs[1..] + ys;
      assert (xs + ys)[..d][1..] == (xs[1..] + ys)[..d - 1];
      PrefixEnds(n, xs[1..], ys, d - 1, a + xs[0].size, m, b);
    }
  }

  /** A line inside an entry's body is nobody's header. */
  lemma BodyNotHeader(n: nat, items: seq<Item>, a: nat, b: nat, k: nat, i: nat)
    requires n > 0 && Chain(n, items, a, b) && b <= a + n && k < |items| && 0 < i < items[k].size
    ensures forall j :: 0 <= j < |items| ==> Idx(n, items[j].cnt) != Idx(n, items[k].cnt + i)
  {
    ChainRange(n, items, a, b);
    forall j | 0 <= j < |items| ensures Idx(n, items[j].cnt) != Idx(n, items[k].cnt + i) {
      var p, q := items[j].cnt, items[k].cnt + i;
      if j < k { ChainOrdered(n, items, a, b, j, k); PlacesDiffer(n, p, q); }
      else if j == k { PlacesDiffer(n, p, q); }
      else { ChainOrdered(n, items, a, b, k, j); PlacesDiffer(n, q, p); }
    }
  }

  /** Lines left to the end of the buffer that an entry of e lines has to skip. */
  function Gap(n: nat, tail: nat, e: nat): nat
    requires n > 0
  {
    if e < n && Idx(n, tail) + e >= n then n - Idx(n, tail) else 0
  }

  /** Line i is the place of some position from a to b. */
  predicate HasPlace(n: nat, a: nat, b: nat, i: nat)
    requires n > 0
  {
    exists p :: a <= p < b && Idx(n, p) == i
  }

  /** Copying a stretch copies exactly the lines of its positions. */
  lemma Flushed(n: nat, b: seq<Line>, was: seq<Line>, now: seq<Line>, nt: nat, t: nat)
    requires n > 0 && |b| == |was| == |now| == n && nt < t < nt + n
    requires forall i :: 0 <= i < n ==> now[i] == if InStretch(n, nt, t, i) then b[i] else was[i]
    ensures forall p :: nt <= p < t ==> now[Idx(n, p)] == b[Idx(n, p)]
    ensures forall i :: 0 <= i < n && now[i] != was[i] ==> HasPlace(n, nt, t, i)
  {
    hide Idx;
    forall p | nt <= p < t ensures now[Idx(n, p)] == b[Idx(n, p)] {
      StretchOf(n, nt, t, p);
    }
    forall i | 0 <= i < n && now[i] != was[i] ensures HasPlace(n, nt, t, i) {
      var p := StretchHas(n, nt, t, i);
    }
  }

  // ---------------------------------------------------------------- the log

  class Log {
    const n: nat                // log_size, in lines
    const buf: array<Line>      // the buffer as the processor sees it
    const nv: array<Line>       // the buffer as it is durable
    var head: nat               // head_cnt
    var tail: nat               // tail_cnt
    var nhead: nat              // the durable head_cnt
    var ntail: nat              // the durable tail_cnt
    ghost var items: seq<Item>  // what lies between head and tail
    ghost var kept: seq<Item>   // dequeued, but not durably
    ghost var dur: nat          // how many of kept + items are durable

    /** An empty log (_nvlog_store_create and nvlog_load). */
    constructor (n: nat)
      requires n > 0
      ensures Valid() && Durable() && Entries() == [] && this.n == n && fresh(buf) && fresh(nv)
      ensures head == tail == nhead == ntail == 0 && items == [] && kept == [] && dur == 0
    {
      this.n := n;
      buf := new Line[n](_ => Body(0));
      nv := new Line[n](_ => Body(0));
      head, tail, nhead, ntail := 0, 0, 0, 0;
      items, kept, dur := [], [], 0;
    }

    /** nvlog_load: the log found in durable memory after a restart. All of it is durable
        still, so that another crash finds the same. */
    constructor Load(img: seq<Line>, head: nat, tail: nat, ghost items: seq<Item>)
      requires |img| > 0 && head <= tail <= head + |img|
      requires Chain(|img|, items, head, tail) && Written(img, items)
      ensures Valid() && Durable() && fresh(buf) && fresh(nv) && n == |img|
      ensures forall k :: 0 <= k < |items| ==> ItemOk(|img|, items[k])
      ensures Entries() == Queue(img, items)
      ensures this.head == head == nhead && this.tail == tail == ntail && buf[..] == img == nv[..]
      ensures this.items == items && kept == [] && dur == |items|
    {
      n := |img|;
      buf := new Line[|img|](i requires 0 <= i < |img| => img[i]);
      nv := new Line[|img|](i requires 0 <= i < |img| => img[i]);
      this.head, this.tail, nhead, ntail := head, tail, head, tail;
      this.items, kept, dur := items, [], |items|;
      new;
      assert buf[..] == img && nv[..] == img;
      assert (kept + this.items)[..dur] == items;
      ChainRange(|img|, items, head, tail);
    }

    ghost predicate Valid()
      reads this, buf
    {
      && n > 0 && buf.Length == n == nv.Length && buf != nv
      && head <= tail <= head + n
      && Chain(n, items, head, tail) && Written(buf[..], items)
    }

    /** The entries in the log, oldest first. */
    ghost function Entries(): seq<Entry>
      reads this, buf
      requires Valid()
    {
      ChainRange(n, items, head, tail);
      Queue(buf[..], items)
    }

    /** What is durable is a prefix of what is there, and none of it has changed. */
    ghost predicate Durable()
      reads this, buf, nv
      requires Valid()
    {
      && nhead <= head && nhead <= ntail <= tail <= nhead + n
      && Chain(n, kept, nhead, head) && Written(buf[..], kept)
      && dur <= |kept + items| && Chain(n, (kept + items)[..dur], nhead, ntail)
      && forall p :: nhead <= p < ntail ==> nv[Idx(n, p)] == buf[Idx(n, p)]
    }

    /** Writes a header at the tail and moves the tail behind it. */
    method Put(size: nat, bogus: bool)
      requires Valid() && size > 0
      modifies buf, this`tail, this`items
      ensures tail == old(tail) + size
      ensures Valid() <==> tail <= head + n && ItemOk(n, Item(old(tail), size, bogus))
      ensures Valid() ==>
        Entries() == old(Entries()) + (if bogus then [] else [Entry(old(tail), size, BodyOf(buf[..], Item(old(tail), size, bogus)))])
      ensures Valid() && old(Durable()) && tail <= nhead + n ==> Durable()
    {
      hide Idx, Chain, ItemOk, Queue;
      ghost var b, it := buf[..], Item(tail, size, bogus);
      ghost var was := items;
      buf[Idx(n, tail)] := Header(size, bogus);
      tail := tail + size;
      items := items + [it];
      assert buf[..] == b[Idx(n, it.cnt) := Header(size, bogus)];
      if tail <= head + n && ItemOk(n, it) {
        ChainAppend(n, was, head, it.cnt, it);
        WriteBeyond(b, buf[..], head, it.cnt, Header(size, bogus));
        QueueAgree(b, buf[..], was, head, it.cnt);
        QueueAppend(buf[..], was, it);
        if old(Durable()) && tail <= nhead + n {
          DurablePut(b, buf[..], was, it);
        }
      } else if tail <= head + n {
        NotAnItem(n, was, it, head, tail);
      }
    }

    lemma DurablePut(b: seq<Line>, zb: seq<Line>, was: seq<Item>, it: Item)
      requires n > 0 && |b| == |zb| == n == nv.Length && nhead <= ntail <= it.cnt < nhead + n && dur <= |kept + was|
      requires zb == b[Idx(n, it.cnt) := Header(it.size, it.bogus)]
      requires nhead <= head <= it.cnt && Chain(n, kept, nhead, head) && Written(b, kept)
      requires Chain(n, (kept + was)[..dur], nhead, ntail)
      requires forall p :: nhead <= p < ntail ==> nv[Idx(n, p)] == b[Idx(n, p)]
      ensures Written(zb, kept) && Chain(n, (kept + (was + [it]))[..dur], nhead, ntail)
      ensures forall p :: nhead <= p < ntail ==> nv[Idx(n, p)] == zb[Idx(n, p)]
    {
      WriteBeyond(b, zb, nhead, it.cnt, Header(it.size, it.bogus));
      assert Agree(b, zb, nhead, head) && Agree(b, zb, nhead, ntail);
      QueueAgree(b, zb, kept, nhead, head);
      assert (kept + (was + [it]))[..dur] == (kept + was)[..dur];
    }

    /** nvlog_enq: reserves an entry. If it would reach the end of the buffer, a bogus
        item fills the rest first, before the room is looked at. The log stays sound
        exactly when that bogus fits and no entry takes the whole buffer from the
        middle; then the queue grows by this entry or not at all. */
    method Enq(bytes: nat) returns (r: Option<nat>)
      requires Valid()
      modifies buf, this`tail, this`items
      ensures LinesFor(bytes) > n ==> r.None? && Valid() && tail == old(tail) && Entries() == old(Entries())
      ensures LinesFor(bytes) <= n ==>
        var e, at := LinesFor(bytes), old(tail) + Gap(n, old(tail), LinesFor(bytes));
        && (r == if at + e <= head + n then Some(at) else None)
        && tail == (if r.Some? then at + e else at)
        && (Valid() <==> at <= head + n && (e == n && r.Some? ==> Idx(n, at) == 0))
        && (Valid() && r.None? ==> Entries() == old(Entries()))
        && (Valid() && r.Some? ==>
              && ItemOk(n, Item(at, e, false))
              && Entries() == old(Entries()) + [Entry(at, e, BodyOf(buf[..], Item(at, e, false)))])
      ensures Valid() && old(Durable()) && tail <= nhead + n ==> Durable()
    {
      var entry := LinesFor(bytes);
      if entry > n { return None; }
      hide Idx, Chain, Written, Queue, BodyOf;
      if entry < n { WrapTest(n, tail, entry); } else { IdxLap(n, tail); }
      if Idx(n, tail + entry) < Idx(n, tail) {
        IdxEnd(n, tail);
        Put(n - Idx(n, tail), true);
      }
      if tail + entry - head > n { return None; }
      r := Some(tail);
      Put(entry, false);
    }

    /** The owner of a reserved entry writes line i of its body. */
    method Fill(cnt: nat, i: nat, x: int, ghost k: nat)
      requires Valid() && k < |items| && !items[k].bogus && items[k].cnt == cnt && 0 < i < items[k].size
      requires ntail <= cnt
      modifies buf
      ensures Valid() && buf[..] == old(buf[..])[Idx(n, cnt + i) := Body(x)]
      ensures old(Durable()) ==> Durable()
    {
      ghost var b := buf[..];
      ChainRange(n, items, head, tail);
      IdxStep(n, cnt, i);
      buf[Idx(n, cnt + i)] := Body(x);
      assert buf[..] == b[Idx(n, cnt + i) := Body(x)];
      BodyNotHeader(n, items, head, tail, k, i);
      if old(Durable()) {
        ChainRange(n, kept, nhead, head);
        forall p | nhead <= p < ntail ensures buf[Idx(n, p)] == b[Idx(n, p)] {
          PlacesDiffer(n, p, cnt + i);
        }
        forall j | 0 <= j < |kept| ensures buf[Idx(n, kept[j].cnt)] == b[Idx(n, kept[j].cnt)] {
          PlacesDiffer(n, kept[j].cnt, cnt + i);
        }
      }
    }

    /** The head moves over the first item. */
    method Skip(size: nat)
      requires Valid() && items != [] && size == items[0].size
      modifies this`head, this`items, this`kept
      ensures Valid() && head == old(head) + size && items == old(items)[1..]
      ensures Entries() == if old(items)[0].bogus then old(Entries()) else old(Entries())[1..]
      ensures old(Durable()) ==> Durable()
    {
      hide Idx, BodyOf;
      ghost var it, all := items[0], kept + items;
      ChainRange(n, items, head, tail);
      ChainRange(n, items[1..], head + it.size, tail);
      if old(Durable()) {
        ChainAppend(n, kept, nhead, head, it);
      }
      head, items, kept := head + size, items[1..], kept + [it];
      assert kept + items == all;
    }

    /** nvlog_peek_head: the oldest entry, skipping a bogus item for good. */
    method PeekHead() returns (r: Option<nat>)
      requires Valid()
      modifies this`head, this`items, this`kept
      ensures Valid() && Entries() == old(Entries()) && old(head) <= head
      ensures r == if Entries() == [] then None else Some(Entries()[0].cnt)
      ensures r.Some? ==> r.value == head && buf[Idx(n, head)] == Header(Entries()[0].size, false)
      ensures old(Durable()) ==> Durable()
    {
      if head == tail {
        EmptyChain(n, items, head, tail);
        return None;
      }
      hide Idx;
      ChainRange(n, items, head, tail);
      var h := buf[Idx(n, head)];
      if h.bogus {
        ghost var was, was_head := items, head;
        Skip(h.size);
        if head == tail {
          EmptyChain(n, items, head, tail);
          return None;
        }
        BogusApart(n, was, was_head, tail, 0);
      }
      r := Some(head);
    }

    /** nvlog_deq: takes the oldest entry off the queue. */
    method Deq() returns (r: Option<nat>)
      requires Valid()
      modifies this`head, this`items, this`kept
      ensures Valid()
      ensures r == if old(Entries()) == [] then None else Some(old(Entries())[0].cnt)
      ensures Entries() == if old(Entries()) == [] then [] else old(Entries())[1..]
      ensures old(Durable()) ==> Durable()
    {
      r := PeekHead();
      if r.Some? {
        var h := buf[Idx(n, head)];
        Skip(h.size);
      }
    }

    /** One of the flush loops of nvlog_enq_persist: clwb on every line from lo to hi. */
    method Flush(lo: nat, hi: nat)
      requires buf.Length == nv.Length == n && buf != nv && lo <= hi <= n
      modifies nv
      ensures forall i :: 0 <= i < n ==> nv[i] == if lo <= i < hi then buf[i] else old(nv[i])
    {
      var i := lo;
      while i < hi
        invariant lo <= i <= hi
        invariant forall j :: 0 <= j < n ==> nv[j] == if lo <= j < i then buf[j] else old(nv[j])
      {
        nv[i] := buf[i];
        i := i + 1;
      }
    }

    /** nvlog_enq_persist: flushes exactly the lines written since the last persist,
        provided that is less than a lap, and then makes the tail durable. After
        exactly a lap it takes the log for flushed and does nothing. */
    method EnqPersist()
      requires Valid()
      modifies nv, this`ntail, this`dur
      ensures Valid() && Entries() == old(Entries())
      ensures Idx(n, ntail) == Idx(n, tail)
      ensures Idx(n, old(ntail)) == Idx(n, tail) ==> ntail == old(ntail) && nv[..] == old(nv[..])
      ensures old(ntail) < tail < old(ntail) + n ==>
        && ntail == tail
        && (forall p :: old(ntail) <= p < tail ==> nv[Idx(n, p)] == buf[Idx(n, p)])
        && (forall i :: 0 <= i < n && nv[i] != old(nv[i]) ==> HasPlace(n, old(ntail), tail, i))
      ensures old(Durable()) && tail < old(ntail) + n ==> Durable() && ntail == tail && dur == |kept + items|
    {
      hide Idx, Queue, ItemOk, Written;
      ghost var nt := ntail;
      var v, nvt := Idx(n, tail), Idx(n, ntail);
      ghost var all := kept + items;
      if Durable() && tail < nt + n {
        ChainJoin(n, kept, items, nhead, head, tail);
        assert all[..|all|] == all && all + [] == all;
        if nt == tail { PrefixEnds(n, all, [], dur, nhead, tail, tail); }
      }
      if nt < tail < nt + n { PlacesDiffer(n, nt, tail); }
      if nvt == v {
        return;
      }
      if nvt < v {
        Flush(nvt, v);
      } else {
        Flush(nvt, n);
        Flush(0, v);
      }
      ntail := tail;
      dur := |kept + items|;
      if nt < tail < nt + n { Flushed(n, buf[..], old(nv[..]), nv[..], nt, tail); }
    }

    /** nvlog_deq_persist: the head becomes durable. */
    method DeqPersist()
      requires Valid()
      modifies this`nhead, this`kept, this`dur
      ensures Valid() && Entries() == old(Entries()) && nhead == head
      ensures old(Durable()) && head <= ntail ==> Durable()
    {
      if old(Durable()) && head <= ntail {
        PrefixEnds(n, kept, items, dur, nhead, head, ntail);
        dur := dur - |kept|;
        kept := [];
        assert (kept + items)[..dur] == items[..dur];
      }
      nhead := head;
    }
  }

  /** A crash may find every line as it was last flushed or as it was last written.
      The durable part of the log is there in either case: reloading it between the
      durable counters gives the same entries, in the same order, with what had been
      written into them. */
  lemma CrashKeeps(log: Log, img: seq<Line>)
    requires log.Valid() && log.Durable() && |img| == log.n
    requires forall i :: 0 <= i < log.n ==> img[i] == log.nv[i] || img[i] == log.buf[i]
    ensures var d := (log.kept + log.items)[..log.dur];
            && Chain(log.n, d, log.nhead, log.ntail) && log.ntail <= log.nhead + log.n
            && (forall k :: 0 <= k < |d| ==> ItemOk(log.n, d[k]))
            && Written(img, d) && Queue(img, d) == Queue(log.buf[..], d)
  {
    hide Idx;
    var d := (log.kept + log.items)[..log.dur];
    assert Written(log.buf[..], d);
    assert Agree(log.buf[..], img, log.nhead, log.ntail);
    ChainRange(log.n, d, log.nhead, log.ntail);
    QueueAgree(log.buf[..], img, d, log.nhead, log.ntail);
  }

  /** A second crash, after the log has been reloaded and before anything else, leaves the
      same queue: what was durable before is durable again. */
  method CrashTwice(log: Log, img: seq<Line>, zimg: seq<Line>) returns (again: Log)
    requires log.Valid() && log.Durable() && |img| == |zimg| == log.n
    requires forall i :: 0 <= i < log.n ==> img[i] == log.nv[i] || img[i] == log.buf[i]
    requires forall p :: log.nhead <= p < log.ntail ==> zimg[Idx(log.n, p)] == img[Idx(log.n, p)]
    ensures fresh(again) && again.Valid() && again.Durable() && again.nhead == log.nhead && again.ntail == log.ntail
    ensures var d := (log.kept + log.items)[..log.dur];
            && again.items == d && (forall k :: 0 <= k < |d| ==> ItemOk(log.n, d[k]))
            && again.Entries() == Queue(log.buf[..], d) == Queue(zimg, d)
  {
    ghost var d := (log.kept + log.items)[..log.dur];
    CrashKeeps(log, img);
    again := new Log.Load(img, log.nhead, log.ntail, d);
    assert Agree(img, zimg, log.nhead, log.ntail);
    QueueAgree(img, zimg, d, log.nhead, log.ntail);
  }
}
