/** The cuckoo hash table of the allocator (lib-nv-jemalloc/src/ckh.c): eviction,
    relocation, rebuilding into larger and smaller tables, all in place. Random
    choices are a sequence handed in; when it is used up, an eviction ends as if it
    had found a cycle. */
module Cuckoo {
  import opened Options

  datatype Pair = Pair(key: nat, data: int)

  type Cell = Option<Pair>

  const CELLS: nat := 4         // cells per bucket: 2 ^ LG_CKH_BUCKET_CELLS

  /** Where a key may be in a table of nb buckets. */
  predicate Home(h0: nat -> nat, h1: nat -> nat, nb: nat, b: nat, key: nat) {
    nb > 0 && (b == h0(key) % nb || b == h1(key) % nb)
  }

  predicate AtHome(h0: nat -> nat, h1: nat -> nat, nb: nat, cells: seq<Cell>) {
    forall i :: 0 <= i < |cells| && cells[i].Some? ==> Home(h0, h1, nb, i / CELLS, cells[i].value.key)
  }

  /** No key occurs twice. */
  predicate Distinct(cells: seq<Cell>) {
    forall i, j :: 0 <= i < j < |cells| && cells[i].Some? && cells[j].Some? ==> cells[i].value.key != cells[j].value.key
  }

  /** The pairs in the cells. */
  function Pairs(cells: seq<Cell>): multiset<Cell> {
    multiset(cells)[None := 0]
  }

  predicate HasKey(cells: seq<Cell>, key: nat) {
    exists i :: 0 <= i < |cells| && cells[i].Some? && cells[i].value.key == key
  }

  /** The position of cell i of bucket b. */
  function At(b: nat, i: nat): nat {
    b * CELLS + i
  }

  /** The i-th cell looked at when starting at a random one. */
  function Turn(i: nat, offset: nat): (k: nat)
    ensures k < CELLS
  {
    (i + offset) % CELLS
  }

  /** Bucket b has no empty cell. */
  predicate BucketFull(cells: seq<Cell>, b: nat) {
    forall i :: 0 <= i < CELLS ==> At(b, i) < |cells| && cells[At(b, i)].Some?
  }

  predicate InBucket(cells: seq<Cell>, b: nat, p: Pair) {
    exists k :: 0 <= k < |cells| && k / CELLS == b && cells[k] == Some(p)
  }

  /** The other bucket of a key found in bucket b. */
  function Other(h0: nat -> nat, h1: nat -> nat, nb: nat, b: nat, key: nat): nat
    requires nb > 0
  {
    if h1(key) % nb == b then h0(key) % nb else h1(key) % nb
  }

  /** Neither bucket of the key has an empty cell. */
  predicate NoRoom(h0: nat -> nat, h1: nat -> nat, nb: nat, cells: seq<Cell>, key: nat) {
    nb > 0 && BucketFull(cells, h0(key) % nb) && BucketFull(cells, h1(key) % nb)
  }

  /** The pair has gone into an empty cell of one of its buckets, and nothing else moved. */
  predicate PutHome(h0: nat -> nat, h1: nat -> nat, nb: nat, cells: seq<Cell>, zc: seq<Cell>, p: Pair) {
    nb > 0 && (PutInto(cells, zc, h0(p.key) % nb, p) || PutInto(cells, zc, h1(p.key) % nb, p))
  }

  /** Some table of this size, made of part of the pairs, leaves one of the others without
      room: what it takes for a rebuild to fail. */
  ghost predicate Misfit(h0: nat -> nat, h1: nat -> nat, lg: nat, pairs: multiset<Cell>) {
    exists cells: seq<Cell>, q: Pair :: LeftOut(h0, h1, lg, pairs, cells, q)
  }

  ghost predicate LeftOut(h0: nat -> nat, h1: nat -> nat, lg: nat, pairs: multiset<Cell>, cells: seq<Cell>, q: Pair) {
    |cells| == Pow2(lg) * CELLS && NoRoom(h0, h1, Pow2(lg), cells, q.key) && Pairs(cells) + multiset{Some(q)} <= pairs
  }

  /** Two random numbers on. */
  function Rest(rng: seq<nat>): seq<nat> {
    if |rng| <= 2 then [] else rng[2..]
  }

  /** The path of evictions: hand takes a random cell of the full bucket; the pair that was
      there goes to its other bucket, into an empty cell or by the next eviction, unless
      that is the first bucket again. It ends with cells zc and pair zh in hand. */
  ghost predicate Path(h0: nat -> nat, h1: nat -> nat, nb: nat, first: nat, cells: seq<Cell>, b: nat, hand: Pair, rng: seq<nat>,
                       fail: bool, zc: seq<Cell>, zh: Pair)
    decreases |rng|
  {
    if rng == [] then fail && zc == cells && zh == hand
    else
      var k := At(b, rng[0] % CELLS);
      && nb > 0 && k < |cells| && cells[k].Some?
      && var q, now := cells[k].value, cells[k := Some(hand)];
         var next := Other(h0, h1, nb, b, q.key);
         if next == first then fail && zc == now && zh == q
         else if BucketFull(now, next) then Path(h0, h1, nb, first, now, next, q, Rest(rng), fail, zc, zh)
         else !fail && PutInto(now, zc, next, q)
  }

  /** The pair has gone into an empty cell of the bucket. */
  predicate PutInto(cells: seq<Cell>, zc: seq<Cell>, b: nat, p: Pair) {
    exists i :: 0 <= i < CELLS && At(b, i) < |cells| && cells[At(b, i)].None? && zc == cells[At(b, i) := Some(p)]
  }

  /** Whatever the rest of the path makes of the table is what the whole path makes. */
  ghost predicate Leads(h0: nat -> nat, h1: nat -> nat, nb: nat, first: nat, cells: seq<Cell>, rng0: seq<nat>, p: Pair, now: seq<Cell>, b: nat, hand: Pair, rng1: seq<nat>)
  {
    forall f, zc, zh :: Path(h0, h1, nb, first, now, b, hand, rng1, f, zc, zh) ==>
      Path(h0, h1, nb, first, cells, first, p, rng0, f, zc, zh)
  }

  lemma LeadsHere(h0: nat -> nat, h1: nat -> nat, nb: nat, first: nat, cells: seq<Cell>, rng0: seq<nat>, p: Pair)
    ensures Leads(h0, h1, nb, first, cells, rng0, p, cells, first, p, rng0)
  {
  }

  lemma Arrives(h0: nat -> nat, h1: nat -> nat, nb: nat, first: nat, cells: seq<Cell>, rng0: seq<nat>, p: Pair, now: seq<Cell>, b: nat, hand: Pair)
    requires Leads(h0, h1, nb, first, cells, rng0, p, now, b, hand, [])
    ensures Path(h0, h1, nb, first, cells, first, p, rng0, true, now, hand)
  {
    assert Path(h0, h1, nb, first, now, b, hand, [], true, now, hand);
  }

  /** One eviction that ends the path. */
  lemma Ends(h0: nat -> nat, h1: nat -> nat, nb: nat, first: nat, cells: seq<Cell>, rng0: seq<nat>, p: Pair, was: seq<Cell>, from: nat, in_hand: Pair, rng1: seq<nat>,
             hand: Pair, fail: bool, zc: seq<Cell>)
    requires Leads(h0, h1, nb, first, cells, rng0, p, was, from, in_hand, rng1)
    requires nb > 0 && rng1 != [] && At(from, rng1[0] % CELLS) < |was| && was[At(from, rng1[0] % CELLS)] == Some(hand)
    requires var now := was[At(from, rng1[0] % CELLS) := Some(in_hand)];
             var next := Other(h0, h1, nb, from, hand.key);
             if fail then next == first && zc == now
             else next != first && !BucketFull(now, next) && PutInto(now, zc, next, hand)
    ensures Path(h0, h1, nb, first, cells, first, p, rng0, fail, zc, hand)
  {
    assert Path(h0, h1, nb, first, was, from, in_hand, rng1, fail, zc, hand);
  }

  /** One eviction after which the path goes on. */
  lemma GoesOn(h0: nat -> nat, h1: nat -> nat, nb: nat, first: nat, cells: seq<Cell>, rng0: seq<nat>, p: Pair, was: seq<Cell>, from: nat, in_hand: Pair, rng1: seq<nat>, hand: Pair,
               now: seq<Cell>)
    requires Leads(h0, h1, nb, first, cells, rng0, p, was, from, in_hand, rng1)
    requires nb > 0 && rng1 != [] && At(from, rng1[0] % CELLS) < |was| && was[At(from, rng1[0] % CELLS)] == Some(hand)
    requires now == was[At(from, rng1[0] % CELLS) := Some(in_hand)]
    requires var next := Other(h0, h1, nb, from, hand.key); next != first && BucketFull(now, next)
    ensures Leads(h0, h1, nb, first, cells, rng0, p, now, Other(h0, h1, nb, from, hand.key), hand, Rest(rng1))
  {
    var next := Other(h0, h1, nb, from, hand.key);
    forall f, zc, zh | Path(h0, h1, nb, first, now, next, hand, Rest(rng1), f, zc, zh)
      ensures Path(h0, h1, nb, first, cells, first, p, rng0, f, zc, zh)
    {
      assert Path(h0, h1, nb, first, was, from, in_hand, rng1, f, zc, zh);
    }
  }

  /** The rest of a path that fails, once the new pair has taken its cell. */
  lemma {:induction false} TailFails(h0: nat -> nat, h1: nat -> nat, nb: nat, first: nat, cells: seq<Cell>, b: nat, hand: Pair,
                                     rng: seq<nat>, fail: bool, zc: seq<Cell>, zh: Pair, p: Pair)
    requires Path(h0, h1, nb, first, cells, b, hand, rng, fail, zc, zh) && fail && nb > 0 && b != first
    requires BucketFull(cells, b) && BucketFull(cells, first) && AtHome(h0, h1, nb, cells) && Home(h0, h1, nb, b, hand.key)
    requires NoRoom(h0, h1, nb, cells, hand.key) && InBucket(cells, first, p)
    ensures NoRoom(h0, h1, nb, zc, zh.key) && InBucket(zc, first, p)
    decreases |rng|
  {
    if rng != [] {
      var k := At(b, rng[0] % CELLS);
      var q, now := cells[k].value, cells[k := Some(hand)];
      var next := Other(h0, h1, nb, b, q.key);
      Evicted(h0, h1, nb, first, cells, b, hand, rng[0] % CELLS);
      Swapped(cells, b, rng[0] % CELLS, hand, first, p);
      hide InBucket, BucketFull, AtHome, Home;
      if next == first || BucketFull(now, next) { BothFull(h0, h1, nb, now, b, next, q.key); }
      if next != first && BucketFull(now, next) {
        TailFails(h0, h1, nb, first, now, next, q, Rest(rng), fail, zc, zh, p);
      }
    }
  }

  /** An eviction fails only with a pair in hand that has no room, and with the new pair in
      the cell it took. */
  lemma PathFails(h0: nat -> nat, h1: nat -> nat, nb: nat, first: nat, cells: seq<Cell>, p: Pair, rng: seq<nat>,
                  fail: bool, zc: seq<Cell>, zh: Pair)
    requires Path(h0, h1, nb, first, cells, first, p, rng, fail, zc, zh) && fail && nb > 0 && rng != []
    requires BucketFull(cells, first) && AtHome(h0, h1, nb, cells) && Home(h0, h1, nb, first, p.key)
    ensures NoRoom(h0, h1, nb, zc, zh.key) && InBucket(zc, first, p)
  {
    var k := At(first, rng[0] % CELLS);
    var q, now := cells[k].value, cells[k := Some(p)];
    var next := Other(h0, h1, nb, first, q.key);
    Evicted(h0, h1, nb, first, cells, first, p, rng[0] % CELLS);
    Swapped(cells, first, rng[0] % CELLS, p, first, p);
    hide InBucket, BucketFull, AtHome, Home;
    if next == first || BucketFull(now, next) { BothFull(h0, h1, nb, now, first, next, q.key); }
    if next != first && BucketFull(now, next) {
      TailFails(h0, h1, nb, first, now, next, q, Rest(rng), fail, zc, zh, p);
    }
  }

  /** One eviction fills or empties no bucket, and every pair is at home. */
  lemma Evicted(h0: nat -> nat, h1: nat -> nat, nb: nat, first: nat, cells: seq<Cell>, b: nat, hand: Pair, i: nat)
    requires nb > 0 && i < CELLS && At(b, i) < |cells| && cells[At(b, i)].Some?
    requires BucketFull(cells, b) && BucketFull(cells, first) && AtHome(h0, h1, nb, cells) && Home(h0, h1, nb, b, hand.key)
    ensures var now, q := cells[At(b, i) := Some(hand)], cells[At(b, i)].value;
            && BucketFull(now, b) && BucketFull(now, first) && AtHome(h0, h1, nb, now)
            && Home(h0, h1, nb, b, q.key) && Home(h0, h1, nb, Other(h0, h1, nb, b, q.key), q.key)
  {
    BucketOf(b, i);
    StaysFull(cells, At(b, i), hand, b);
    StaysFull(cells, At(b, i), hand, first);
  }

  /** The pair just taken out of a full bucket finds its other bucket full. */
  lemma BothFull(h0: nat -> nat, h1: nat -> nat, nb: nat, now: seq<Cell>, from: nat, next: nat, key: nat)
    requires BucketFull(now, from) && BucketFull(now, next) && Home(h0, h1, nb, from, key)
    requires next == Other(h0, h1, nb, from, key)
    ensures NoRoom(h0, h1, nb, now, key)
  {
  }

  /** Every pair of the bucket has an empty cell in its other bucket. */
  predicate VictimsCanMove(h0: nat -> nat, h1: nat -> nat, nb: nat, cells: seq<Cell>, b: nat) {
    nb > 0 && forall i :: 0 <= i < CELLS && At(b, i) < |cells| && cells[At(b, i)].Some? ==>
      !BucketFull(cells, Other(h0, h1, nb, b, cells[At(b, i)].value.key))
  }

  /** Relocation is tried: an eviction whose first victim has an empty cell in its other
      bucket ends there, with nothing else moved. */
  lemma FirstVictimMoves(h0: nat -> nat, h1: nat -> nat, nb: nat, first: nat, cells: seq<Cell>, p: Pair, rng: seq<nat>,
                         fail: bool, zc: seq<Cell>, zh: Pair)
    requires Path(h0, h1, nb, first, cells, first, p, rng, fail, zc, zh) && rng != [] && BucketFull(cells, first)
    requires VictimsCanMove(h0, h1, nb, cells, first)
    ensures !fail
  {
    var k := At(first, rng[0] % CELLS);
    var q, now := cells[k].value, cells[k := Some(p)];
    assert BucketFull(now, first) by { StaysFull(cells, k, p, first); }
    var next := Other(h0, h1, nb, first, q.key);
    if BucketFull(now, next) { StillFull(cells, k, p, next); }
  }

  /** Exchanging pairs fills or empties no bucket. */
  lemma StaysFull(cells: seq<Cell>, k: nat, p: Pair, b: nat)
    requires k < |cells|
    ensures BucketFull(cells, b) ==> BucketFull(cells[k := Some(p)], b)
  {
  }

  lemma StillFull(cells: seq<Cell>, k: nat, p: Pair, b: nat)
    requires k < |cells| && cells[k].Some?
    ensures BucketFull(cells[k := Some(p)], b) ==> BucketFull(cells, b)
  {
    if BucketFull(cells[k := Some(p)], b) {
      forall i | 0 <= i < CELLS ensures At(b, i) < |cells| && cells[At(b, i)].Some? {
        assert At(b, i) < |cells[k := Some(p)]|;
      }
    }
  }

  /** A pair put into a bucket stays while pairs go into other buckets. */
  lemma Swapped(cells: seq<Cell>, b: nat, i: nat, x: Pair, first: nat, p: Pair)
    requires i < CELLS && At(b, i) < |cells|
    ensures b == first && x == p ==> InBucket(cells[At(b, i) := Some(x)], first, p)
    ensures b != first && InBucket(cells, first, p) ==> InBucket(cells[At(b, i) := Some(x)], first, p)
  {
    var now := cells[At(b, i) := Some(x)];
    BucketOf(b, i);
    if b == first && x == p {
      assert now[At(b, i)] == Some(p);
    } else if b != first && InBucket(cells, first, p) {
      var k :| 0 <= k < |cells| && k / CELLS == first && cells[k] == Some(p);
      assert now[k] == Some(p);
    }
  }

  lemma MayBe(h0: nat -> nat, h1: nat -> nat, nb: nat, key: nat)
    requires nb > 0
    ensures Home(h0, h1, nb, h0(key) % nb, key) && Home(h0, h1, nb, h1(key) % nb, key)
  {
  }

  lemma BucketOf(b: nat, i: nat)
    requires i < CELLS
    ensures At(b, i) / CELLS == b
  {
  }

  lemma CellOf(nb: nat, b: nat, i: nat)
    requires b < nb && i < CELLS
    ensures At(b, i) < nb * CELLS
  {
  }

  lemma PositionOf(i: nat)
    ensures i == At(i / CELLS, i % CELLS)
  {
  }

  /** Pairs depends on the pairs only. */
  lemma PairsSet(cells: seq<Cell>, i: nat, x: Cell)
    requires i < |cells|
    ensures Pairs(cells[i := x]) + multiset{cells[i]}[None := 0] == Pairs(cells) + multiset{x}[None := 0]
    ensures multiset(cells[i := x])[None] + (if cells[i].None? then 1 else 0) == multiset(cells)[None] + (if x.None? then 1 else 0)
  {
    var a, b := multiset(cells), multiset(cells[i := x]);
    assert b == a - multiset{cells[i]} + multiset{x};
    assert cells[i] in a;
  }

  lemma DistinctSet(cells: seq<Cell>, i: nat, p: Pair)
    requires Distinct(cells) && i < |cells|
    requires forall j :: 0 <= j < |cells| && j != i && cells[j].Some? ==> cells[j].value.key != p.key
    ensures Distinct(cells[i := Some(p)])
  {
  }

  function Pow2(n: nat): (p: nat)
    ensures p > 0
  {
    if n == 0 then 1 else 2 * Pow2(n - 1)
  }

  class Table {
    const h0: nat -> nat
    const h1: nat -> nat
    var tab: array<Cell>
    var lg: nat                 // lg_curbuckets
    const minlg: nat            // lg_minbuckets
    var count: nat
    var rng: seq<nat>           // random numbers still to come
    var room: nat               // allocations that will still succeed

    ghost predicate Shape()
      reads this, tab
    {
      tab.Length == Pow2(lg) * CELLS
    }

    /** Every key is in one of its two buckets, once, and count is exact. */
    ghost predicate Valid()
      reads this, tab
    {
      && Shape() && AtHome(h0, h1, Pow2(lg), tab[..]) && Distinct(tab[..])
      && count + multiset(tab[..])[None] == tab.Length
    }

    /** ckh_new: the least table that the items fill to three quarters at most. */
    constructor (h0: nat -> nat, h1: nat -> nat, items: nat, rng: seq<nat>, room: nat)
      requires items > 0
      ensures Valid() && Pairs(tab[..]) == multiset{} && count == 0 && fresh(tab) && lg == minlg
      ensures 4 * items <= 3 * tab.Length
      ensures lg > 0 ==> 3 * (tab.Length / 2 - 4) < 4 * items
    {
      this.h0, this.h1, this.count, this.rng, this.room := h0, h1, 0, rng, room;
      var cells, least := (items + (3 - items % 3)) / 3 * 4, 0;
      while Pow2(least) * CELLS < cells
        invariant least > 0 ==> Pow2(least - 1) * CELLS < cells
        decreases cells - Pow2(least)
      {
        least := least + 1;
      }
      lg, minlg := least, least;
      tab := new Cell[Pow2(least) * CELLS](_ => None);
      new;
      AllNone(tab[..]);
    }

    /** ckh_bucket_search. */
    method BucketSearch(b: nat, key: nat) returns (cell: Option<nat>)
      requires Shape() && b < Pow2(lg)
      ensures cell.Some? ==> cell.value < tab.Length && tab[cell.value].Some? && tab[cell.value].value.key == key
      ensures cell.None? ==> forall i :: 0 <= i < CELLS ==>
        At(b, i) < tab.Length && (tab[At(b, i)].Some? ==> tab[At(b, i)].value.key != key)
    {
      var i := 0;
      while i < CELLS
        invariant 0 <= i <= CELLS
        invariant forall j :: 0 <= j < i ==>
          At(b, j) < tab.Length && (tab[At(b, j)].Some? ==> tab[At(b, j)].value.key != key)
      {
        CellOf(Pow2(lg), b, i);
        var c := tab[At(b, i)];
        if c.Some? && c.value.key == key { return Some(At(b, i)); }
        i := i + 1;
      }
      cell := None;
    }

    /** ckh_isearch: looking at two buckets is enough. */
    method Search(key: nat) returns (cell: Option<nat>)
      requires Valid()
      ensures cell.Some? <==> HasKey(tab[..], key)
      ensures cell.Some? ==> cell.value < tab.Length && tab[cell.value].Some? && tab[cell.value].value.key == key
    {
      cell := BucketSearch(h0(key) % Pow2(lg), key);
      if cell.None? {
        cell := BucketSearch(h1(key) % Pow2(lg), key);
        if cell.None? {
          forall i | 0 <= i < tab.Length && tab[i].Some? ensures tab[i].value.key != key {
            assert Home(h0, h1, Pow2(lg), i / CELLS, tab[..][i].value.key);
            PositionOf(i);
          }
        }
      }
    }

    /** prng_lg_range: one random number, while there are some. */
    method Draw() returns (r: nat)
      modifies this`rng
      ensures if old(rng) == [] then r == 0 && rng == [] else r == old(rng)[0] && rng == old(rng)[1..]
    {
      r := 0;
      if rng != [] { r, rng := rng[0], rng[1..]; }
    }

    /** ckh_try_bucket_insert: the first empty cell from a random one on. */
    method TryBucketInsert(b: nat, p: Pair, offset: nat) returns (full: bool)
      requires Valid() && Home(h0, h1, Pow2(lg), b, p.key) && b < Pow2(lg) && !HasKey(tab[..], p.key)
      modifies this`count, tab
      ensures Valid()
      ensures full ==> tab[..] == old(tab[..]) && BucketFull(tab[..], b)
      ensures !full ==> Pairs(tab[..]) == old(Pairs(tab[..])) + multiset{Some(p)}
      ensures !full ==> !old(BucketFull(tab[..], b)) && PutInto(old(tab[..]), tab[..], b, p)
      ensures count == old(count) + if full then 0 else 1
    {
      hide Turn, Distinct, AtHome, Pairs;
      var i := 0;
      while i < CELLS
        invariant 0 <= i <= CELLS && tab[..] == old(tab[..]) && count == old(count)
        invariant forall j :: 0 <= j < i ==>
          At(b, Turn(j, offset)) < tab.Length && tab[At(b, Turn(j, offset))].Some?
      {
        var k := At(b, Turn(i, offset));
        CellOf(Pow2(lg), b, Turn(i, offset));
        if tab[k].None? {
          assert !BucketFull(tab[..], b);
          Place(b, Turn(i, offset), p);
          return false;
        }
        i := i + 1;
      }
      full := true;
      AllSeen(tab[..], b, offset);
    }

    /** A pair goes into an empty cell of one of its buckets. */
    method Place(b: nat, i: nat, p: Pair)
      requires Valid() && Home(h0, h1, Pow2(lg), b, p.key) && b < Pow2(lg) && i < CELLS && !HasKey(tab[..], p.key)
      requires At(b, i) < tab.Length && tab[At(b, i)].None?
      modifies this`count, tab
      ensures Valid() && Pairs(tab[..]) == old(Pairs(tab[..])) + multiset{Some(p)} && count == old(count) + 1
      ensures At(b, i) < tab.Length && tab[..] == old(tab[..])[At(b, i) := Some(p)]
    {
      var k := At(b, i);
      ghost var was := tab[..];
      BucketOf(b, i);
      tab[k] := Some(p);
      count := count + 1;
      assert tab[..] == was[k := Some(p)];
      PairsSet(was, k, Some(p));
      DistinctSet(was, k, p);
    }

    /** ckh_evict_reloc_insert: the pair takes the place of another one of its full
        bucket, that one goes to its other bucket, and so on, until a cell is free or
        the first bucket comes up again. At any time the table and the pair in hand
        are what they were, and the new pair keeps the cell it took. It fails only with
        a pair in hand for which neither bucket has room. */
    method EvictRelocInsert(first: nat, p: Pair) returns (fail: bool, hand: Pair)
      requires Valid() && first < Pow2(lg) && Home(h0, h1, Pow2(lg), first, p.key)
      requires BucketFull(tab[..], first) && !HasKey(tab[..], p.key)
      modifies this`count, this`rng, tab
      ensures Valid() && (fail ==> !HasKey(tab[..], hand.key)) && count == old(count) + if fail then 0 else 1
      ensures Pairs(tab[..]) + (if fail then multiset{Some(hand)} else multiset{}) == old(Pairs(tab[..])) + multiset{Some(p)}
      ensures fail && old(rng) != [] ==> InBucket(tab[..], first, p) && NoRoom(h0, h1, Pow2(lg), tab[..], hand.key)
      ensures fail ==> rng == [] || Home(h0, h1, Pow2(lg), first, hand.key)
      ensures Path(h0, h1, Pow2(lg), first, old(tab[..]), first, p, old(rng), fail, tab[..], hand)
      ensures old(rng) != [] && VictimsCanMove(h0, h1, Pow2(lg), old(tab[..]), first) ==> !fail
    {
      hide Pairs, Distinct, HasKey, AtHome, InBucket, At, BucketFull, Home, NoRoom, Path, Leads, PutInto, VictimsCanMove;
      ghost var cells, rng0 := tab[..], rng;
      var bucket: nat := first;
      hand := p;
      LeadsHere(h0, h1, Pow2(lg), first, cells, rng0, p);
      while rng != []
        invariant Valid() && bucket < Pow2(lg) && Home(h0, h1, Pow2(lg), bucket, hand.key)
        invariant BucketFull(tab[..], bucket) && !HasKey(tab[..], hand.key) && count == old(count)
        invariant Pairs(tab[..]) + multiset{Some(hand)} == old(Pairs(tab[..])) + multiset{Some(p)}
        invariant Leads(h0, h1, Pow2(lg), first, cells, rng0, p, tab[..], bucket, hand, rng)
        decreases |rng|
      {
        ghost var was, from, in_hand, rng1 := tab[..], bucket, hand, rng;
        var r := Draw();
        CellOf(Pow2(lg), bucket, r % CELLS);
        hand := Swap(bucket, r % CELLS, hand);
        var next := h1(hand.key) % Pow2(lg);
        if next == bucket { next := h0(hand.key) % Pow2(lg); }
        MayBe(h0, h1, Pow2(lg), hand.key);
        ghost var now := tab[..];
        if next == first {
          Ends(h0, h1, Pow2(lg), first, cells, rng0, p, was, from, in_hand, rng1, hand, true, now);
          PathFails(h0, h1, Pow2(lg), first, cells, p, rng0, true, tab[..], hand);
          if VictimsCanMove(h0, h1, Pow2(lg), cells, first) {
            FirstVictimMoves(h0, h1, Pow2(lg), first, cells, p, rng0, true, tab[..], hand);
          }
          return true, hand;
        }
        bucket := next;
        var offset := Draw();
        var full := TryBucketInsert(bucket, hand, offset);
        if !full {
          Ends(h0, h1, Pow2(lg), first, cells, rng0, p, was, from, in_hand, rng1, hand, false, tab[..]);
          return false, hand;
        }
        GoesOn(h0, h1, Pow2(lg), first, cells, rng0, p, was, from, in_hand, rng1, hand, now);
      }
      fail := true;
      Arrives(h0, h1, Pow2(lg), first, cells, rng0, p, tab[..], bucket, hand);
      if old(rng) != [] { PathFails(h0, h1, Pow2(lg), first, cells, p, rng0, true, tab[..], hand); }
      if old(rng) != [] && VictimsCanMove(h0, h1, Pow2(lg), cells, first) {
        FirstVictimMoves(h0, h1, Pow2(lg), first, cells, p, rng0, true, tab[..], hand);
      }
    }

    /** Swaps the pair in hand with the one in cell i of a full bucket. */
    method Swap(b: nat, i: nat, p: Pair) returns (q: Pair)
      requires Valid() && b < Pow2(lg) && i < CELLS && Home(h0, h1, Pow2(lg), b, p.key)
      requires BucketFull(tab[..], b) && !HasKey(tab[..], p.key)
      modifies tab
      ensures Valid() && !HasKey(tab[..], q.key)
      ensures At(b, i) < tab.Length && old(tab[At(b, i)]) == Some(q) && tab[..] == old(tab[..])[At(b, i) := Some(p)]
      ensures Pairs(tab[..]) + multiset{Some(q)} == old(Pairs(tab[..])) + multiset{Some(p)}
    {
      CellOf(Pow2(lg), b, i);
      BucketOf(b, i);
      ghost var was := tab[..];
      var k := At(b, i);
      assert was[k].Some?;
      q := tab[k].value;
      tab[k] := Some(p);
      assert tab[..] == was[k := Some(p)];
      PairsSet(was, k, Some(p));
      DistinctSet(was, k, p);
      assert multiset{was[k]}[None := 0] == multiset{Some(q)} && multiset{Some(p)}[None := 0] == multiset{Some(p)};
    }

    /** ckh_try_insert: the primary bucket, the secondary one, then eviction. */
    method TryInsert(p: Pair) returns (fail: bool, hand: Pair)
      requires Valid() && !HasKey(tab[..], p.key)
      modifies this`count, this`rng, tab
      ensures Valid() && (fail ==> !HasKey(tab[..], hand.key)) && count == old(count) + if fail then 0 else 1
      ensures Pairs(tab[..]) + (if fail then multiset{Some(hand)} else multiset{}) == old(Pairs(tab[..])) + multiset{Some(p)}
      ensures fail && |old(rng)| > 2 ==> Some(p) in tab[..]
      ensures fail ==> NoRoom(h0, h1, Pow2(lg), tab[..], hand.key)
      ensures !old(NoRoom(h0, h1, Pow2(lg), tab[..], p.key)) ==> !fail && PutHome(h0, h1, Pow2(lg), old(tab[..]), tab[..], p)
      ensures var b0, b1, was := h0(p.key) % Pow2(lg), h1(p.key) % Pow2(lg), old(tab[..]);
              if !BucketFull(was, b0) then !fail && PutInto(was, tab[..], b0, p)
              else if !BucketFull(was, b1) then !fail && PutInto(was, tab[..], b1, p)
              else |old(rng)| > 2 && VictimsCanMove(h0, h1, Pow2(lg), was, b1) ==> !fail
    {
      var offset := Draw();
      var full := TryBucketInsert(h0(p.key) % Pow2(lg), p, offset);
      if !full { return false, p; }
      offset := Draw();
      full := TryBucketInsert(h1(p.key) % Pow2(lg), p, offset);
      if !full { return false, p; }
      fail, hand := EvictRelocInsert(h1(p.key) % Pow2(lg), p);
    }

    /** ckh_rebuild: everything from the old table into the new, empty one. */
    method Rebuild(from: array<Cell>) returns (fail: bool)
      requires Shape() && from != tab && Distinct(from[..]) && count + multiset(from[..])[None] == from.Length
      requires forall i :: 0 <= i < tab.Length ==> tab[i] == None
      modifies this`count, this`rng, tab
      ensures fail ==> count == old(count) && Misfit(h0, h1, lg, Pairs(from[..]))
      ensures !fail ==> Valid() && Pairs(tab[..]) == Pairs(from[..])
    {
      hide Pairs, Distinct, HasKey;
      var total := count;
      ghost var cells := from[..];
      count := 0;
      StartEmpty();
      AllTaken(cells, 0);
      var i: nat, n := 0, 0;
      while n < total
        invariant from[..] == cells && i <= |cells| && n <= total && Valid()
        invariant n + multiset(cells[..i])[None] == i && Pairs(tab[..]) == Pairs(cells[..i])
        decreases from.Length - i
      {
        AllTaken(cells, i);
        SplitAt(cells, i);
        if from[i].Some? {
          NotThere(cells, tab[..], i);
          var f, hand := TryInsert(from[i].value);
          if f {
            LeftBehind(h0, h1, lg, cells, i, tab[..], hand);
            count := total;
            return true;
          }
          n := n + 1;
        }
        i := i + 1;
      }
      RestIsNone(cells, i);
      fail := false;
    }

    /** The empty table is well formed. */
    lemma StartEmpty()
      requires Shape() && count == 0 && forall i :: 0 <= i < tab.Length ==> tab[i] == None
      ensures Valid() && Pairs(tab[..]) == multiset{}
    {
      AllNone(tab[..]);
    }

    /** ckh_grow: doubles the table until everything fits, or memory runs out and the
        table is as it was. */
    method Grow() returns (fail: bool)
      requires Valid()
      modifies this`tab, this`lg, this`count, this`rng, this`room
      ensures Valid() && Pairs(tab[..]) == old(Pairs(tab[..])) && count == old(count)
      ensures if fail then tab == old(tab) && lg == old(lg) && room == 0
              else fresh(tab) && lg > old(lg) && room < old(room) && lg - old(lg) == old(room) - room
      ensures forall j :: old(lg) < j < (if fail then old(lg) + old(room) + 1 else lg) ==> Misfit(h0, h1, j, old(Pairs(tab[..])))
    {
      var previous, larger := lg, lg;
      while true
        invariant tab == old(tab) && lg == previous <= larger && count == old(count) && larger - previous == old(room) - room
        invariant forall j :: previous < j <= larger ==> Misfit(h0, h1, j, old(Pairs(tab[..])))
        decreases room
      {
        larger := larger + 1;
        if room == 0 { return true; }
        room := room - 1;
        var from := tab;
        tab, lg := new Cell[Pow2(larger) * CELLS](_ => None), larger;
        fail := Rebuild(from);
        if !fail {
          SameCount(tab[..], from[..]);
          return false;
        }
        tab, lg := from, previous;
      }
    }

    /** ckh_shrink: halves the table if everything fits and memory allows. */
    method Shrink()
      requires Valid() && lg > 0
      modifies this`tab, this`lg, this`count, this`rng, this`room
      ensures Valid() && Pairs(tab[..]) == old(Pairs(tab[..])) && count == old(count)
      ensures (tab == old(tab) && lg == old(lg)) || (fresh(tab) && lg == old(lg) - 1)
      ensures old(room) > 0 ==> lg == old(lg) - 1 || Misfit(h0, h1, lg - 1, old(Pairs(tab[..])))
    {
      if room == 0 { return; }
      room := room - 1;
      var from, previous := tab, lg;
      tab, lg := new Cell[Pow2(lg - 1) * CELLS](_ => None), lg - 1;
      var fail := Rebuild(from);
      if fail {
        tab, lg := from, previous;
      } else {
        SameCount(tab[..], from[..]);
      }
    }

    /** ckh_insert: tries and grows by turns. Without memory the pair then in hand is
        lost: if there was none from the start, an older one, the new one being in. */
    method Insert(p: Pair) returns (fail: bool, lost: Pair)
      requires Valid() && !HasKey(tab[..], p.key)
      modifies this`tab, this`lg, this`count, this`rng, this`room, tab
      ensures Valid() && (tab == old(tab) || fresh(tab)) && lg >= old(lg)
      ensures Pairs(tab[..]) + (if fail then multiset{Some(lost)} else multiset{}) == old(Pairs(tab[..])) + multiset{Some(p)}
      ensures fail ==> !HasKey(tab[..], lost.key) && count == old(count)
      ensures !fail ==> count == old(count) + 1
      ensures fail ==> room == 0
      ensures !old(NoRoom(h0, h1, Pow2(lg), tab[..], p.key)) ==>
        !fail && tab == old(tab) && lg == old(lg) && PutHome(h0, h1, Pow2(lg), old(tab[..]), tab[..], p)
      ensures fail && old(room) == 0 && |old(rng)| > 2 ==>
        && HasKey(tab[..], p.key) && Some(lost) in old(Pairs(tab[..]))
    {
      hide Pairs, Distinct, HasKey, AtHome, NoRoom, PutHome, BucketFull, PutInto, VictimsCanMove;
      lost := p;
      while true
        invariant Valid() && (tab == old(tab) || fresh(tab)) && lg >= old(lg) && count == old(count)
        invariant Pairs(tab[..]) + multiset{Some(lost)} == old(Pairs(tab[..])) + multiset{Some(p)}
        invariant !HasKey(tab[..], lost.key)
        invariant room < old(room) ==> old(NoRoom(h0, h1, Pow2(lg), tab[..], p.key))
        invariant room < old(room) || (lost == p && rng == old(rng) && room == old(room) && tab == old(tab) && lg == old(lg) && tab[..] == old(tab[..]))
        decreases room
      {
        fail, lost := TryInsert(lost);
        if !fail { return; }
        Displaced(tab[..], old(tab[..]), p, lost);
        ghost var was := tab[..];
        fail := Grow();
        SameKeys(was, tab[..], lost.key);
        if fail { return; }
      }
    }

    /** ckh_remove: clears the cell of the key and halves a table less than a quarter full. */
    method Remove(key: nat) returns (removed: Option<Pair>)
      requires Valid() && lg >= minlg
      modifies this`tab, this`lg, this`count, this`rng, this`room, tab
      ensures Valid() && lg >= minlg && (tab == old(tab) || fresh(tab))
      ensures removed.Some? <==> old(HasKey(tab[..], key))
      ensures removed.Some? ==>
        && removed.value.key == key && !HasKey(tab[..], key)
        && Pairs(tab[..]) + multiset{removed} == old(Pairs(tab[..])) && count == old(count) - 1
      ensures count >= Pow2(old(lg)) || old(lg) == minlg ==> tab == old(tab) && lg == old(lg)
      ensures removed.Some? && count < Pow2(old(lg)) && old(lg) > minlg && old(room) > 0 ==>
        lg == old(lg) - 1 || Misfit(h0, h1, old(lg) - 1, Pairs(tab[..]))
      ensures removed.None? ==> tab == old(tab) && tab[..] == old(tab[..]) && lg == old(lg) && count == old(count)
    {
      hide Pairs, Distinct, HasKey, AtHome;
      var cell := Search(key);
      if cell.None? { return None; }
      removed := Clear(cell.value);
      ghost var was := tab[..];
      if count < Pow2(lg) && lg > minlg {
        Shrink();
        SameKeys(was, tab[..], key);
      }
    }

    /** The pair in a cell is taken out. */
    method Clear(k: nat) returns (removed: Option<Pair>)
      requires Valid() && k < tab.Length && tab[k].Some?
      modifies this`count, tab
      ensures Valid() && removed == old(tab[k]) && count == old(count) - 1
      ensures Pairs(tab[..]) + multiset{removed} == old(Pairs(tab[..])) && !HasKey(tab[..], removed.value.key)
    {
      ghost var was := tab[..];
      removed := tab[k];
      tab[k] := None;
      assert tab[..] == was[k := None];
      PairsSet(was, k, None);
      FullCells(was, k);
      count := count - 1;
    }
  }

  /** Some cell is empty exactly if there are fewer pairs than cells. */
  lemma FullCells(cells: seq<Cell>, k: nat)
    requires k < |cells| && cells[k].Some?
    ensures multiset(cells)[None] < |cells|
  {
    assert cells == cells[..k] + [cells[k]] + cells[k + 1..];
    NoneBound(cells[..k]);
    NoneBound(cells[k + 1..]);
  }

  /** The pair in hand when a rebuild fails, and the pairs in its table by then, are all
      from the old table. */
  lemma LeftBehind(h0: nat -> nat, h1: nat -> nat, lg: nat, cells: seq<Cell>, i: nat, now: seq<Cell>, hand: Pair)
    requires i < |cells| && cells[i].Some? && |now| == Pow2(lg) * CELLS && NoRoom(h0, h1, Pow2(lg), now, hand.key)
    requires Pairs(now) + multiset{Some(hand)} == Pairs(cells[..i]) + multiset{cells[i]}
    ensures Misfit(h0, h1, lg, Pairs(cells))
  {
    SplitAt(cells, i);
    assert cells == cells[..i + 1] + cells[i + 1..];
    assert multiset(cells) == multiset(cells[..i + 1]) + multiset(cells[i + 1..]);
    assert Pairs(cells[..i + 1]) <= Pairs(cells);
    assert LeftOut(h0, h1, lg, Pairs(cells), now, hand);
  }

  /** The number of pairs is the number of cells that are not empty. */
  lemma CountIsExact(cells: seq<Cell>)
    ensures |Pairs(cells)| + multiset(cells)[None] == |cells|
  {
    var m := multiset(cells);
    var empty: multiset<Cell> := multiset{};
    assert m == Pairs(cells) + empty[None := m[None]];
    assert |empty[None := m[None]]| == m[None];
  }

  lemma SameCount(a: seq<Cell>, b: seq<Cell>)
    requires Pairs(a) == Pairs(b)
    ensures |a| - multiset(a)[None] == |b| - multiset(b)[None]
  {
    CountIsExact(a);
    CountIsExact(b);
  }

  lemma SameKeys(a: seq<Cell>, b: seq<Cell>, key: nat)
    requires Pairs(a) == Pairs(b)
    ensures HasKey(a, key) <==> HasKey(b, key)
  {
    KeyInPairs(a, key);
    KeyInPairs(b, key);
  }

  lemma KeyInPairs(cells: seq<Cell>, key: nat)
    ensures HasKey(cells, key) <==> exists c :: c in Pairs(cells) && c.Some? && c.value.key == key
  {
    forall i | 0 <= i < |cells| && cells[i].Some? ensures cells[i] in Pairs(cells) {
      assert cells[i] in multiset(cells);
    }
    forall c | c in Pairs(cells) ensures exists i :: 0 <= i < |cells| && cells[i] == c {
      assert c in multiset(cells);
      assert c in cells;
    }
  }

  /** A new pair that is in has displaced an older one. */
  lemma Displaced(cells: seq<Cell>, was: seq<Cell>, p: Pair, lost: Pair)
    requires Pairs(cells) + multiset{Some(lost)} == Pairs(was) + multiset{Some(p)} && !HasKey(cells, lost.key)
    ensures Some(p) in cells ==> HasKey(cells, p.key) && Some(lost) in Pairs(was)
  {
    if Some(p) in cells {
      var i :| 0 <= i < |cells| && cells[i] == Some(p);
      assert Some(lost) in Pairs(was) + multiset{Some(p)};
    }
  }

  /** While there are pairs to move, some cells remain to be looked at. */
  lemma AllTaken(cells: seq<Cell>, i: nat)
    requires i <= |cells|
    ensures cells[..0] == [] && Pairs(cells[..0]) == multiset{}
    ensures i == |cells| ==> cells[..i] == cells
  {
  }

  lemma {:induction false} AllNone(cells: seq<Cell>)
    requires forall i :: 0 <= i < |cells| ==> cells[i] == None
    ensures multiset(cells)[None] == |cells| && Pairs(cells) == multiset{}
  {
    if cells != [] {
      var n := |cells| - 1;
      AllNone(cells[..n]);
      assert cells == cells[..n] + [None];
    }
  }

  /** Four consecutive offsets, modulo four, reach all cells of a bucket. */
  lemma AllSeen(cells: seq<Cell>, b: nat, offset: nat)
    requires forall j :: 0 <= j < CELLS ==>
      At(b, Turn(j, offset)) < |cells| && cells[At(b, Turn(j, offset))].Some?
    ensures BucketFull(cells, b)
  {
    forall i: nat | i < CELLS ensures At(b, i) < |cells| && cells[At(b, i)].Some? {
      TurnHits(i, offset);
    }
  }

  lemma TurnHits(i: nat, offset: nat)
    requires i < CELLS
    ensures exists j :: 0 <= j < CELLS && Turn(j, offset) == i
  {
    var r := offset % CELLS;
    var j := if i >= r then i - r else i + CELLS - r;
    assert Turn(j, offset) == i;
  }

  lemma SplitAt(cells: seq<Cell>, i: nat)
    requires i < |cells|
    ensures multiset(cells[..i + 1]) == multiset(cells[..i]) + multiset{cells[i]}
    ensures Pairs(cells[..i + 1]) == Pairs(cells[..i]) + (if cells[i].Some? then multiset{cells[i]} else multiset{})
  {
    assert cells[..i + 1] == cells[..i] + [cells[i]];
  }

  /** A key further on in the old table is not yet in the new one. */
  lemma NotThere(cells: seq<Cell>, now: seq<Cell>, i: nat)
    requires i < |cells| && cells[i].Some? && Distinct(cells) && Pairs(now) == Pairs(cells[..i])
    ensures !HasKey(now, cells[i].value.key)
  {
    forall j | 0 <= j < |now| && now[j].Some? ensures now[j].value.key != cells[i].value.key {
      assert now[j] in multiset(now) && now[j] in Pairs(now);
      assert now[j] in multiset(cells[..i]);
      assert now[j] in cells[..i];
    }
  }

  lemma RestIsNone(cells: seq<Cell>, i: nat)
    requires i <= |cells| && i - multiset(cells[..i])[None] == |cells| - multiset(cells)[None]
    ensures Pairs(cells) == Pairs(cells[..i])
  {
    assert cells == cells[..i] + cells[i..];
    assert multiset(cells) == multiset(cells[..i]) + multiset(cells[i..]);
    assert multiset(cells[i..])[None] == |cells[i..]|;
    OnlyNone(cells[i..]);
    forall x: Cell | x != None ensures multiset(cells[i..])[x] == 0 {
      assert Pairs(cells[i..])[x] == 0;
    }
  }

  lemma {:induction false} OnlyNone(cells: seq<Cell>)
    requires multiset(cells)[None] == |cells|
    ensures Pairs(cells) == multiset{}
  {
    if cells != [] {
      var n := |cells| - 1;
      assert cells == cells[..n] + [cells[n]];
      NoneBound(cells[..n]);
      OnlyNone(cells[..n]);
    }
  }

  lemma NoneBound(cells: seq<Cell>)
    ensures multiset(cells)[None] <= |cells|
  {
    assert |multiset(cells)| == |cells|;
  }
}
