/** Places in a ring buffer, and sequences of items that fill a stretch of it. The
    durable logs and the transient logs are both rings of this kind: positions count
    cache lines and only grow, and a position's place is its remainder. */
module Ring {

  /** A stretch of the log: an entry, or the bogus that fills the end of the buffer. */
  datatype Item = Item(cnt: nat, size: nat, bogus: bool)

  /** nvlog_index: the place of position p. */
  function Idx(n: nat, p: nat): (i: nat)
    requires n > 0
    ensures i < n
  {
    p % n
  }

  lemma MulGap(n: nat, a: nat, b: nat)
    requires a < b
    ensures n * a + n <= n * b
  {
    var d: nat := b - a - 1;
    assert b == a + 1 + d;
    assert n * b == n * a + n + n * d;
  }

  lemma IdxUnique(n: nat, p: nat, q: nat, r: nat)
    requires n > 0 && p == n * q + r && r < n
    ensures Idx(n, p) == r && p / n == q
  {
    if p / n < q { MulGap(n, p / n, q); }
    else if p / n > q { MulGap(n, q, p / n); }
  }

  lemma IdxStep(n: nat, p: nat, i: nat)
    requires n > 0 && Idx(n, p) + i < n
    ensures Idx(n, p + i) == Idx(n, p) + i
  {
    IdxUnique(n, p + i, p / n, p % n + i);
  }

  /** The end of the buffer and its beginning are the same place. */
  lemma IdxEnd(n: nat, p: nat)
    requires n > 0
    ensures Idx(n, p + (n - Idx(n, p))) == 0
  {
    assert n * (p / n) + n == n * (p / n + 1);
    IdxUnique(n, p + (n - p % n), p / n + 1, 0);
  }

  /** Two positions less than a lap apart have different places. */
  lemma PlacesDiffer(n: nat, p: nat, q: nat)
    requires n > 0 && p < q < p + n
    ensures Idx(n, p) != Idx(n, q)
  {
    if p / n < q / n { MulGap(n, p / n, q / n); }
    else if p / n > q / n { MulGap(n, q / n, p / n); }
    assert n * (p / n) + p % n == p && n * (q / n) + q % n == q;
    if p / n + 1 < q / n { MulGap(n, p / n + 1, q / n); }
  }

  /** The wraparound test of nvlog_enq: past the end of the buffer, or exactly at it. */
  lemma WrapTest(n: nat, tail: nat, entry: nat)
    requires 0 < entry < n
    ensures Idx(n, tail + entry) < Idx(n, tail) <==> Idx(n, tail) + entry >= n
  {
    var i := Idx(n, tail);
    if i + entry < n {
      IdxStep(n, tail, entry);
    } else {
      assert n * (tail / n) + n == n * (tail / n + 1);
      IdxUnique(n, tail + entry, tail / n + 1, i + entry - n);
    }
  }

  /** A whole buffer further is the same place. */
  lemma IdxLap(n: nat, p: nat)
    requires n > 0
    ensures Idx(n, p + n) == Idx(n, p)
  {
    IdxUnique(n, p + n, p / n + 1, p % n);
  }

  // ---------------------------------------------------------------- items

  predicate ItemOk(n: nat, it: Item)
    requires n > 0
  {
    && it.size > 0 && Idx(n, it.cnt) + it.size <= n
    && (it.bogus ==> Idx(n, it.cnt) + it.size == n && Idx(n, it.cnt) > 0)
  }

  /** The items fill positions a to b without a gap. */
  predicate Chain(n: nat, items: seq<Item>, a: nat, b: nat)
    requires n > 0
  {
    if items == [] then a == b
    else items[0].cnt == a && ItemOk(n, items[0]) && Chain(n, items[1..], a + items[0].size, b)
  }

  lemma {:induction false} ChainAppend(n: nat, items: seq<Item>, a: nat, b: nat, it: Item)
    requires n > 0 && Chain(n, items, a, b) && it.cnt == b && ItemOk(n, it)
    ensures Chain(n, items + [it], a, b + it.size)
  {
    if items != [] {
      ChainAppend(n, items[1..], a + items[0].size, b, it);
      assert (items + [it])[1..] == items[1..] + [it];
    }
  }

  /** Every item lies between the ends, and no entry straddles the buffer's end. */
  lemma {:induction false} ChainRange(n: nat, items: seq<Item>, a: nat, b: nat)
    requires n > 0 && Chain(n, items, a, b)
    ensures a <= b
    ensures forall k :: 0 <= k < |items| ==> a <= items[k].cnt && items[k].cnt + items[k].size <= b
    ensures forall k :: 0 <= k < |items| ==> ItemOk(n, items[k])
  {
    if items != [] {
      ChainRange(n, items[1..], a + items[0].size, b);
      forall k | 0 <= k < |items|
        ensures a <= items[k].cnt && items[k].cnt + items[k].size <= b && ItemOk(n, items[k])
      {
        assert k > 0 ==> items[k] == items[1..][k - 1];
      }
    }
  }

  /** Two bogus items never follow each other. */
  lemma {:induction false} BogusApart(n: nat, items: seq<Item>, a: nat, b: nat, k: nat)
    requires n > 0 && Chain(n, items, a, b) && k + 1 < |items| && items[k].bogus
    ensures !items[k + 1].bogus && Idx(n, items[k + 1].cnt) == 0
  {
    if k > 0 {
      BogusApart(n, items[1..], a + items[0].size, b, k - 1);
    } else {
      assert items[1..][0] == items[1];
      IdxEnd(n, items[0].cnt);
    }
  }

  lemma {:induction false} ChainJoin(n: nat, xs: seq<Item>, ys: seq<Item>, a: nat, b: nat, c: nat)
    requires n > 0 && Chain(n, xs, a, b) && Chain(n, ys, b, c)
    ensures Chain(n, xs + ys, a, c)
  {
    if xs == [] {
      assert xs + ys == ys;
    } else {
      ChainJoin(n, xs[1..], ys, a + xs[0].size, b, c);
      assert (xs + ys)[1..] == xs[1..] + ys;
    }
  }

  lemma {:induction false} ChainOrdered(n: nat, items: seq<Item>, a: nat, b: nat, j: nat, k: nat)
    requires n > 0 && Chain(n, items, a, b) && j < k < |items|
    ensures items[j].cnt + items[j].size <= items[k].cnt
  {
    if j == 0 {
      ChainRange(n, items[1..], a + items[0].size, b);
      assert items[k] == items[1..][k - 1];
    } else {
      ChainOrdered(n, items[1..], a + items[0].size, b, j - 1, k - 1);
    }
  }

  lemma EmptyChain(n: nat, items: seq<Item>, a: nat, b: nat)
    requires n > 0 && Chain(n, items, a, b)
    ensures a == b <==> items == []
  {
    if items != [] { ChainRange(n, items[1..], a + items[0].size, b); }
  }

  // ---------------------------------------------------------------- contents

  /** The lines of positions a to b are the same in both buffers. */
  predicate Agree<T(==)>(buf: seq<T>, zb: seq<T>, a: nat, b: nat)
    requires |buf| == |zb| > 0
  {
    forall p :: a <= p < b ==> zb[Idx(|buf|, p)] == buf[Idx(|buf|, p)]
  }

  /** A write at position b leaves the lines of positions a to b alone. */
  lemma WriteBeyond<T>(buf: seq<T>, zb: seq<T>, a: nat, b: nat, x: T)
    requires |buf| > 0 && a <= b < a + |buf| && zb == buf[Idx(|buf|, b) := x]
    ensures Agree(buf, zb, a, b)
  {
    forall p | a <= p < b ensures zb[Idx(|buf|, p)] == buf[Idx(|buf|, p)] {
      PlacesDiffer(|buf|, p, b);
    }
  }
}
