/** The steps of a deletion: taking a node out, putting its successor in its place,
    and the repair of paths that are one black node short. */
module RbDelete {
  import opened RbShape

  // ---------------------------------------------------------------- searching inside

  /** A search for a key of x's interval passes through x. */
  lemma {:induction false} InsideSearch(h: Heap, lab: Labels, x: nat, key: Key)
    requires Shape(h, lab) && x in h.m && NodeOk(h, lab, x) && lab.lo[x] < key < lab.hi[x]
    ensures h.top in h.m && Search(h, lab, h.top, key) == Search(h, lab, x, key)
    decreases HI - LO - Size(lab, x)
  {
    var p := h.m[x].parent;
    if p != 0 {
      assert NodeOk(h, lab, p);
      InsideSearch(h, lab, p, key);
    }
  }

  /** The leftmost node behind key k has the least of the keys behind k. */
  lemma LeastBehind(h: Heap, lab: Labels, s: nat, n: nat)
    requires Shape(h, lab) && 0 !in h.m && s in h.m && n in h.m && s != n && h.m[s].l == 0
    requires s in lab.lo && n in lab.lo && lab.lo[n] == lab.lo[s]
    ensures h.m[s].key < h.m[n].key
  {
    assert NodeOk(h, lab, s) && NodeOk(h, lab, n);
    EveryNodeFound(h, lab, n);
    EveryNodeFound(h, lab, s);
    if h.m[n].key < h.m[s].key {
      InsideSearch(h, lab, s, h.m[n].key);
    }
  }

  // ---------------------------------------------------------------- taking a node out

  /** Node q, with at most the one child c, gives its place to c. */
  function Spliced(h: Heap, q: nat, c: nat, red: bool): Heap
    requires q in h.m
  {
    var p := h.m[q].parent;
    var m1 := if c in h.m then h.m[c := h.m[c].(parent := p, red := red)] else h.m;
    var m2 := if p in m1 then m1[p := Replace(m1[p], q, c)] else m1;
    Heap(if p == 0 then c else h.top, m2 - {q})
  }

  function SplicedLabels(lab: Labels, q: nat, c: nat, height: nat): Labels
    requires q in lab.lo && q in lab.hi
  {
    if c == 0 then lab else Labels(lab.lo[c := lab.lo[q]], lab.hi[c := lab.hi[q]], lab.bh[c := height])
  }

  lemma BlackCounts(h: Heap, lab: Labels)
    requires Inv(h, lab, NoFlaw)
    ensures forall n :: n in h.m && !h.m[n].red ==> Height(lab, n) >= 1
  {
    forall n | n in h.m && !h.m[n].red ensures Height(lab, n) >= 1 {
      assert HeightOk(h, lab, n, NoFlaw);
    }
  }

  /** The only child of a node is red and has no children. */
  lemma OnlyChild(h: Heap, lab: Labels, q: nat, c: nat)
    requires Inv(h, lab, NoFlaw) && q in h.m
    requires (h.m[q].l == 0 && h.m[q].r == c) || (h.m[q].r == 0 && h.m[q].l == c)
    ensures NodeOk(h, lab, q) && q != 0 && c != q && Height(lab, q) == if h.m[q].red then 0 else 1
    ensures c != 0 ==> c in h.m && NodeOk(h, lab, c) && h.m[c].parent == q && h.m[c].red && h.m[c].l == 0 == h.m[c].r && !h.m[q].red
    ensures var p := h.m[q].parent;
            p != 0 ==> p in h.m && NodeOk(h, lab, p) && p != q && p != c && h.m[p].l != h.m[p].r && (h.m[p].l == q || h.m[p].r == q)
  {
    assert NodeOk(h, lab, q) && RedOk(h, q, NoFlaw) && HeightOk(h, lab, q, NoFlaw);
    if c != 0 {
      assert NodeOk(h, lab, c) && HeightOk(h, lab, c, NoFlaw) && RedOk(h, c, NoFlaw);
      BlackCounts(h, lab);
    }
    var p := h.m[q].parent;
    if p != 0 {
      assert NodeOk(h, lab, p);
      assert h.m[p].l != 0 ==> NodeOk(h, lab, h.m[p].l);
      assert h.m[p].r != 0 ==> NodeOk(h, lab, h.m[p].r);
    }
  }

  /** What taking node q out makes of each node. */
  lemma SplicedAt(h: Heap, lab: Labels, q: nat, c: nat, red: bool, n: nat)
    requires Inv(h, lab, NoFlaw) && q in h.m && n in h.m && n != q
    requires (h.m[q].l == 0 && h.m[q].r == c) || (h.m[q].r == 0 && h.m[q].l == c)
    ensures var z, p := Spliced(h, q, c, red), h.m[q].parent;
            && n in z.m
            && z.m[n] == if n == c then h.m[c].(parent := p, red := red)
                         else if n == p then Replace(h.m[p], q, c) else h.m[n]
  {
    OnlyChild(h, lab, q, c);
  }

  lemma SplicedDomain(h: Heap, lab: Labels, q: nat, c: nat, red: bool)
    requires Inv(h, lab, NoFlaw) && q in h.m
    requires (h.m[q].l == 0 && h.m[q].r == c) || (h.m[q].r == 0 && h.m[q].l == c)
    ensures Spliced(h, q, c, red).m.Keys == h.m.Keys - {q}
    ensures Keys(Spliced(h, q, c, red)) == Keys(h) - {h.m[q].key}
  {
    var z := Spliced(h, q, c, red);
    OnlyChild(h, lab, q, c);
    assert z.m.Keys == h.m.Keys - {q};
    forall n | n in z.m ensures z.m[n].key == h.m[n].key && h.m[n].key != h.m[q].key {
      SplicedAt(h, lab, q, c, red, n);
      EveryNodeFound(h, lab, n);
      EveryNodeFound(h, lab, q);
    }
    KeysWithout(h, z, q);
  }

  lemma KeysWithout(h: Heap, z: Heap, q: nat)
    requires q in h.m && z.m.Keys == h.m.Keys - {q}
    requires forall n :: n in z.m ==> z.m[n].key == h.m[n].key && h.m[n].key != h.m[q].key
    ensures Keys(z) == Keys(h) - {h.m[q].key}
  {
    forall k ensures k in Keys(z) <==> k in Keys(h) && k != h.m[q].key {
      if n :| n in h.m && h.m[n].key == k && n != q { assert z.m[n].key == k; }
      if n :| n in z.m && z.m[n].key == k { assert h.m[n].key == k; }
    }
  }

  lemma SplicedNode(h: Heap, lab: Labels, q: nat, c: nat, red: bool, height: nat, n: nat)
    requires Inv(h, lab, NoFlaw) && q in h.m && q in lab.lo && q in lab.hi
    requires (h.m[q].l == 0 && h.m[q].r == c) || (h.m[q].r == 0 && h.m[q].l == c)
    requires n in h.m && n != q
    ensures var z := Spliced(h, q, c, red); n in z.m && NodeOk(z, SplicedLabels(lab, q, c, height), n)
  {
    OnlyChild(h, lab, q, c);
    if n == c { SplicedChild(h, lab, q, c, red, height); }
    else if n == h.m[q].parent { SplicedParent(h, lab, q, c, red, height); }
    else { SplicedOther(h, lab, q, c, red, height, n); }
  }

  lemma SplicedChild(h: Heap, lab: Labels, q: nat, c: nat, red: bool, height: nat)
    requires Inv(h, lab, NoFlaw) && q in h.m && q in lab.lo && q in lab.hi
    requires (h.m[q].l == 0 && h.m[q].r == c) || (h.m[q].r == 0 && h.m[q].l == c)
    requires c != 0
    ensures var z := Spliced(h, q, c, red); c in z.m && NodeOk(z, SplicedLabels(lab, q, c, height), c)
  {
    var p := h.m[q].parent;
    OnlyChild(h, lab, q, c);
    SplicedAt(h, lab, q, c, red, c);
    if p != 0 { SplicedAt(h, lab, q, c, red, p); }
    assert p == 0 ==> h.top == q;
    hide Shape, Colours;
  }

  lemma SplicedParent(h: Heap, lab: Labels, q: nat, c: nat, red: bool, height: nat)
    requires Inv(h, lab, NoFlaw) && q in h.m && q in lab.lo && q in lab.hi
    requires (h.m[q].l == 0 && h.m[q].r == c) || (h.m[q].r == 0 && h.m[q].l == c)
    ensures var z, p := Spliced(h, q, c, red), h.m[q].parent;
            p != 0 ==> p in z.m && NodeOk(z, SplicedLabels(lab, q, c, height), p)
  {
    var z, p := Spliced(h, q, c, red), h.m[q].parent;
    OnlyChild(h, lab, q, c);
    if p != 0 {
      SplicedAt(h, lab, q, c, red, p);
      var u := h.m[p].parent;
      if u != 0 { assert NodeOk(h, lab, u) && u != q && u != c; SplicedKeeps(h, lab, q, c, red, u); }
      SplicedPlace(h, lab, q, c, red, height);
      SplicedSibling(h, lab, q, c, red, height);
      assert z.top == h.top;
      hide Shape, Colours, Spliced, ChildOk;
    }
  }

  /** The child in q's place. */
  lemma SplicedPlace(h: Heap, lab: Labels, q: nat, c: nat, red: bool, height: nat)
    requires Inv(h, lab, NoFlaw) && q in h.m && q in lab.lo && q in lab.hi
    requires (h.m[q].l == 0 && h.m[q].r == c) || (h.m[q].r == 0 && h.m[q].l == c)
    requires h.m[q].parent != 0
    ensures var z, zl, p := Spliced(h, q, c, red), SplicedLabels(lab, q, c, height), h.m[q].parent;
            p in h.m && p in z.m && p in zl.lo && p in zl.hi && ChildOk(z, zl, p, h.m[p].l != q)
  {
    OnlyChild(h, lab, q, c);
    SplicedAt(h, lab, q, c, red, h.m[q].parent);
    if c != 0 { SplicedAt(h, lab, q, c, red, c); }
    hide Shape, Colours, Spliced;
  }

  /** The other child of q's parent. */
  lemma SplicedSibling(h: Heap, lab: Labels, q: nat, c: nat, red: bool, height: nat)
    requires Inv(h, lab, NoFlaw) && q in h.m && q in lab.lo && q in lab.hi
    requires (h.m[q].l == 0 && h.m[q].r == c) || (h.m[q].r == 0 && h.m[q].l == c)
    requires h.m[q].parent != 0
    ensures var z, zl, p := Spliced(h, q, c, red), SplicedLabels(lab, q, c, height), h.m[q].parent;
            p in h.m && p in z.m && p in zl.lo && p in zl.hi && ChildOk(z, zl, p, h.m[p].l == q)
  {
    var p := h.m[q].parent;
    OnlyChild(h, lab, q, c);
    SplicedAt(h, lab, q, c, red, p);
    var s := if h.m[p].l == q then h.m[p].r else h.m[p].l;
    assert s == Child(h.m[p], h.m[p].l == q) && ChildOk(h, lab, p, h.m[p].l == q);
    if s != 0 {
      assert NodeOk(h, lab, s) && s != c && s != q;
      SplicedKeeps(h, lab, q, c, red, s);
    }
    hide Shape, Colours, Spliced, NodeOk;
  }

  lemma SplicedOther(h: Heap, lab: Labels, q: nat, c: nat, red: bool, height: nat, n: nat)
    requires Inv(h, lab, NoFlaw) && q in h.m && q in lab.lo && q in lab.hi
    requires (h.m[q].l == 0 && h.m[q].r == c) || (h.m[q].r == 0 && h.m[q].l == c)
    requires n in h.m && n != q && n != c && n != h.m[q].parent
    ensures var z := Spliced(h, q, c, red); n in z.m && NodeOk(z, SplicedLabels(lab, q, c, height), n)
  {
    OnlyChild(h, lab, q, c);
    assert NodeOk(h, lab, n);
    var l, r, u := h.m[n].l, h.m[n].r, h.m[n].parent;
    var z, zl := Spliced(h, q, c, red), SplicedLabels(lab, q, c, height);
    assert l != q && r != q && u != q && (c != 0 ==> l != c && r != c && u != c);
    SplicedKeeps(h, lab, q, c, red, n);
    assert z.m[n].l == l && z.m[n].r == r;
    if l != 0 { SplicedKeeps(h, lab, q, c, red, l); }
    if r != 0 { SplicedKeeps(h, lab, q, c, red, r); }
    if u != 0 { SplicedKeeps(h, lab, q, c, red, u); }
    assert z.top == if h.m[q].parent == 0 then c else h.top;
    assert (h.m[q].parent == 0 <==> q == h.top) && (h.top != 0 ==> h.top in h.m);
    assert n in zl.lo && n in zl.hi && zl.lo[n] == lab.lo[n] && zl.hi[n] == lab.hi[n];
    hide Spliced, Shape, Colours;
    assert ChildOk(z, zl, n, false);
    assert ChildOk(z, zl, n, true);
  }

  /** A node that is neither q nor its child keeps its parent, its colour, and every
      child but q. */
  lemma SplicedKeeps(h: Heap, lab: Labels, q: nat, c: nat, red: bool, n: nat)
    requires Inv(h, lab, NoFlaw) && q in h.m && q in lab.lo && q in lab.hi
    requires (h.m[q].l == 0 && h.m[q].r == c) || (h.m[q].r == 0 && h.m[q].l == c)
    requires n in h.m && n != q && n != c
    ensures var z := Spliced(h, q, c, red);
            && n in z.m && z.m[n].parent == h.m[n].parent && z.m[n].key == h.m[n].key && z.m[n].red == h.m[n].red
            && (h.m[n].l != q ==> z.m[n].l == h.m[n].l) && (h.m[n].r != q ==> z.m[n].r == h.m[n].r)
  {
    OnlyChild(h, lab, q, c);
    SplicedAt(h, lab, q, c, red, n);
  }

  // ---- colours

  /** The flaw left when q is gone: none if q was red, or if its child is made black in
      its stead; else the paths through q's place are one black node short. */
  function SpliceFlaw(h: Heap, q: nat, c: nat, red: bool): Flaw
    requires q in h.m
  {
    var p := h.m[q].parent;
    if h.m[q].red || (c != 0 && !red) then NoFlaw
    else if p in h.m then Flaw(c, p, h.m[p].r == q) else Flaw(c, 0, false)
  }

  lemma SplicedColours(h: Heap, lab: Labels, q: nat, c: nat, red: bool, n: nat)
    requires Inv(h, lab, NoFlaw) && q in h.m && q in lab.lo && q in lab.hi
    requires (h.m[q].l == 0 && h.m[q].r == c) || (h.m[q].r == 0 && h.m[q].l == c)
    requires n in h.m && n != q
    ensures var z := Spliced(h, q, c, red); var zl := SplicedLabels(lab, q, c, if red then 0 else 1);
            n in z.m && RedOk(z, n, SpliceFlaw(h, q, c, red)) && HeightOk(z, zl, n, SpliceFlaw(h, q, c, red))
  {
    var f := SpliceFlaw(h, q, c, red);
    var z, zl := Spliced(h, q, c, red), SplicedLabels(lab, q, c, if red then 0 else 1);
    OnlyChild(h, lab, q, c);
    SplicedDomain(h, lab, q, c, red);
    SplicedAt(h, lab, q, c, red, n);
    if n == c {
      hide Shape, Colours, Spliced;
    } else if n == h.m[q].parent {
      SplicedParentColours(h, lab, q, c, red);
    } else {
      hide Spliced, Shape, Colours, NodeOk, RedOk, HeightOk, SpliceFlaw;
      SplicedOtherColours(h, lab, q, c, red, n);
    }
  }

  lemma SplicedOtherColours(h: Heap, lab: Labels, q: nat, c: nat, red: bool, n: nat)
    requires Inv(h, lab, NoFlaw) && q in h.m && q in lab.lo && q in lab.hi
    requires (h.m[q].l == 0 && h.m[q].r == c) || (h.m[q].r == 0 && h.m[q].l == c)
    requires n in h.m && n != q && n != c && n != h.m[q].parent
    ensures var z := Spliced(h, q, c, red); var zl := SplicedLabels(lab, q, c, if red then 0 else 1);
            n in z.m && RedOk(z, n, SpliceFlaw(h, q, c, red)) && HeightOk(z, zl, n, SpliceFlaw(h, q, c, red))
  {
    var f := SpliceFlaw(h, q, c, red);
    var z, zl := Spliced(h, q, c, red), SplicedLabels(lab, q, c, if red then 0 else 1);
    OnlyChild(h, lab, q, c);
    SplicedDomain(h, lab, q, c, red);
    SplicedKeeps(h, lab, q, c, red, n);
    assert NodeOk(h, lab, n) && RedOk(h, n, NoFlaw) && HeightOk(h, lab, n, NoFlaw) && n != 0;
    ColoursOf(h, lab, n, NoFlaw, false);
    var l, r := h.m[n].l, h.m[n].r;
    assert l != q && r != q && (c != 0 ==> l != c && r != c);
    if l != 0 { SplicedKeeps(h, lab, q, c, red, l); }
    if r != 0 { SplicedKeeps(h, lab, q, c, red, r); }
    assert Child(h.m[n], false) == l && Child(h.m[n], true) == r && Child(z.m[n], false) == l && Child(z.m[n], true) == r;
    assert f.deficit != n && Height(zl, l) == Height(lab, l) && Height(zl, r) == Height(lab, r) && n in lab.bh && n in zl.bh;
    hide Spliced, Shape, Colours, NodeOk, RedOk, HeightOk, SpliceFlaw, Child;
    NodeColours(z, zl, n, f, false);
  }

  lemma SplicedParentColours(h: Heap, lab: Labels, q: nat, c: nat, red: bool)
    requires Inv(h, lab, NoFlaw) && q in h.m && q in lab.lo && q in lab.hi
    requires (h.m[q].l == 0 && h.m[q].r == c) || (h.m[q].r == 0 && h.m[q].l == c)
    ensures var z := Spliced(h, q, c, red); var zl := SplicedLabels(lab, q, c, if red then 0 else 1);
            var p := h.m[q].parent; var f := SpliceFlaw(h, q, c, red);
            p != 0 ==> p in z.m && RedOk(z, p, f) && HeightOk(z, zl, p, f)
  {
    var p := h.m[q].parent;
    OnlyChild(h, lab, q, c);
    if p != 0 {
      assert RedOk(h, p, NoFlaw) && HeightOk(h, lab, p, NoFlaw);
      SplicedAt(h, lab, q, c, red, p);
      var s := if h.m[p].l == q then h.m[p].r else h.m[p].l;
      if s != 0 { assert NodeOk(h, lab, s); SplicedKeeps(h, lab, q, c, red, s); }
      if c != 0 { SplicedAt(h, lab, q, c, red, c); }
      assert (s != 0 ==> s != c && s != q) && Spliced(h, q, c, red).m.Keys == h.m.Keys - {q} by {
        SplicedDomain(h, lab, q, c, red);
      }
      hide Spliced, Shape, Colours, NodeOk;
    }
  }

  /** Taking out a node that is not a lone top. */
  lemma SpliceOut(h: Heap, lab: Labels, q: nat, c: nat, red: bool)
    requires Inv(h, lab, NoFlaw) && q in h.m && q in lab.lo && q in lab.hi
    requires (h.m[q].l == 0 && h.m[q].r == c) || (h.m[q].r == 0 && h.m[q].l == c)
    requires h.m[q].parent != 0 || c == 0 || !red
    ensures var z := Spliced(h, q, c, red);
            && Inv(z, SplicedLabels(lab, q, c, if red then 0 else 1), SpliceFlaw(h, q, c, red))
            && Keys(z) == Keys(h) - {h.m[q].key} && z.m.Keys == h.m.Keys - {q}
  {
    var z, zl, f := Spliced(h, q, c, red), SplicedLabels(lab, q, c, if red then 0 else 1), SpliceFlaw(h, q, c, red);
    SplicedDomain(h, lab, q, c, red);
    SplicedTop(h, lab, q, c, red);
    hide Spliced, NodeOk, RedOk, HeightOk, Child;
    forall n | n in z.m ensures NodeOk(z, zl, n) && RedOk(z, n, f) && HeightOk(z, zl, n, f) {
      SplicedNode(h, lab, q, c, red, if red then 0 else 1, n);
      SplicedColours(h, lab, q, c, red, n);
    }
  }

  lemma SplicedTop(h: Heap, lab: Labels, q: nat, c: nat, red: bool)
    requires Inv(h, lab, NoFlaw) && q in h.m && q in lab.lo && q in lab.hi
    requires (h.m[q].l == 0 && h.m[q].r == c) || (h.m[q].r == 0 && h.m[q].l == c)
    requires h.m[q].parent != 0 || c == 0 || !red
    ensures var z, f := Spliced(h, q, c, red), SpliceFlaw(h, q, c, red);
            && (z.top != 0 ==> z.top in z.m) && (z.top in z.m && z.m[z.top].red ==> z.top == f.red)
            && (f.deficit != 0 ==> f.deficit in z.m)
  {
    var z := Spliced(h, q, c, red);
    OnlyChild(h, lab, q, c);
    SplicedDomain(h, lab, q, c, red);
    assert z.top == if h.m[q].parent == 0 then c else h.top;
    if h.m[q].parent != 0 && h.top != 0 {
      assert NodeOk(h, lab, h.top);
      if h.top != c { SplicedKeeps(h, lab, q, c, red, h.top); }
    }
    if c != 0 { SplicedAt(h, lab, q, c, red, c); }
  }

  // ---------------------------------------------------------------- the successor takes the node's place

  /** Node y, with key k, takes the place of node x. */
  function Renamed(h: Heap, x: nat, y: nat, k: Key): Heap
    requires x in h.m
  {
    var s := h.m[x];
    var m1 := if s.l in h.m then h.m[s.l := h.m[s.l].(parent := y)] else h.m;
    var m2 := if s.r in m1 then m1[s.r := m1[s.r].(parent := y)] else m1;
    var m3 := if s.parent in m2 then m2[s.parent := Replace(m2[s.parent], x, y)] else m2;
    Heap(if s.parent == 0 then y else h.top, (m3 - {x})[y := s.(key := k)])
  }

  /** Every bound that was x's key becomes k. */
  function Bound(v: int, old_: int, k: int): int {
    if v == old_ then k else v
  }

  function RenamedLabels(h: Heap, lab: Labels, x: nat, y: nat, k: Key): Labels
    requires x in h.m && x in lab.lo && x in lab.hi && x in lab.bh
  {
    var kx := h.m[x].key;
    Labels((map n | n in lab.lo :: Bound(lab.lo[n], kx, k))[y := lab.lo[x]],
           (map n | n in lab.hi :: Bound(lab.hi[n], kx, k))[y := lab.hi[x]],
           lab.bh[y := lab.bh[x]])
  }

  /** x may be replaced by a node with key k, the least behind x's key. */
  predicate CanRename(h: Heap, lab: Labels, x: nat, y: nat, k: Key) {
    && Shape(h, lab) && 0 !in h.m && x in h.m && y !in h.m && y != 0
    && x in lab.lo && x in lab.hi && x in lab.bh && h.m[x].key < k < lab.hi[x]
    && forall n :: n in h.m && n in lab.lo && lab.lo[n] == h.m[x].key ==> k < h.m[n].key
  }

  lemma RenameNodes(h: Heap, lab: Labels, x: nat, y: nat, k: Key)
    requires CanRename(h, lab, x, y, k)
    ensures NodeOk(h, lab, x)
    ensures var s := h.m[x];
            && (s.l != 0 ==> s.l in h.m && NodeOk(h, lab, s.l) && s.l != x && s.l != s.r && s.l != s.parent)
            && (s.r != 0 ==> s.r in h.m && NodeOk(h, lab, s.r) && s.r != x && s.r != s.parent)
            && (s.parent != 0 ==> s.parent in h.m && NodeOk(h, lab, s.parent) && s.parent != x
                                  && h.m[s.parent].l != h.m[s.parent].r)
  {
    assert NodeOk(h, lab, x);
    var s := h.m[x];
    assert s.l != 0 ==> NodeOk(h, lab, s.l);
    assert s.r != 0 ==> NodeOk(h, lab, s.r);
    if s.parent != 0 {
      assert NodeOk(h, lab, s.parent);
      assert h.m[s.parent].l != 0 ==> NodeOk(h, lab, h.m[s.parent].l);
      assert h.m[s.parent].r != 0 ==> NodeOk(h, lab, h.m[s.parent].r);
    }
  }

  lemma RenamedAt(h: Heap, lab: Labels, x: nat, y: nat, k: Key, n: nat)
    requires CanRename(h, lab, x, y, k) && n in h.m && n != x
    ensures var z, s := Renamed(h, x, y, k), h.m[x];
            && n in z.m && n != y
            && z.m[n] == if n == s.l || n == s.r then h.m[n].(parent := y)
                         else if n == s.parent then Replace(h.m[n], x, y) else h.m[n]
  {
    RenameNodes(h, lab, x, y, k);
    hide Shape;
  }

  lemma RenamedDomain(h: Heap, lab: Labels, x: nat, y: nat, k: Key)
    requires CanRename(h, lab, x, y, k)
    ensures Renamed(h, x, y, k).m.Keys == h.m.Keys - {x} + {y} && Renamed(h, x, y, k).m[y] == h.m[x].(key := k)
    ensures Keys(Renamed(h, x, y, k)) == Keys(h) - {h.m[x].key} + {k}
  {
    var z := Renamed(h, x, y, k);
    RenameNodes(h, lab, x, y, k);
    forall n | n in h.m && n != x ensures n in z.m && z.m[n].key == h.m[n].key && h.m[n].key != h.m[x].key {
      RenamedAt(h, lab, x, y, k, n);
      EveryNodeFound(h, lab, n);
      EveryNodeFound(h, lab, x);
    }
    assert forall n :: n in z.m ==> n == y || (n in h.m && n != x);
    hide Renamed;
    forall v ensures v in Keys(z) <==> v in Keys(h) - {h.m[x].key} + {k} {
      if n :| n in h.m && h.m[n].key == v && n != x { assert z.m[n].key == v; }
      if n :| n in z.m && z.m[n].key == v { assert n == y || h.m[n].key == v; }
      if v == k { assert z.m[y].key == v; }
    }
  }

  lemma RenamedNew(h: Heap, lab: Labels, x: nat, y: nat, k: Key)
    requires CanRename(h, lab, x, y, k)
    ensures y in Renamed(h, x, y, k).m && Renamed(h, x, y, k).m[y] == h.m[x].(key := k) && 0 !in Renamed(h, x, y, k).m
  {
  }

  lemma RenamedSelf(h: Heap, lab: Labels, x: nat, y: nat, k: Key)
    requires CanRename(h, lab, x, y, k)
    ensures var z := Renamed(h, x, y, k); y in z.m && NodeOk(z, RenamedLabels(h, lab, x, y, k), y)
  {
    var s := h.m[x];
    RenameNodes(h, lab, x, y, k);
    RenamedDomain(h, lab, x, y, k);
    if s.l != 0 { RenamedAt(h, lab, x, y, k, s.l); }
    if s.r != 0 { RenamedAt(h, lab, x, y, k, s.r); }
    var z, zl := Renamed(h, x, y, k), RenamedLabels(h, lab, x, y, k);
    assert z.top == if s.parent == 0 then y else h.top;
    assert h.top != y by { if h.top != 0 { assert NodeOk(h, lab, h.top); } }
    assert s.parent != 0 ==> s.parent in z.m && (z.m[s.parent].l == y || z.m[s.parent].r == y) by {
      if s.parent != 0 { RenamedAt(h, lab, x, y, k, s.parent); }
    }
    hide Shape, Renamed, CanRename;
    assert ChildOk(z, zl, y, false);
    assert ChildOk(z, zl, y, true);
  }

  lemma RenamedOther(h: Heap, lab: Labels, x: nat, y: nat, k: Key, n: nat)
    requires CanRename(h, lab, x, y, k) && n in h.m && n != x
    ensures var z := Renamed(h, x, y, k); n in z.m && NodeOk(z, RenamedLabels(h, lab, x, y, k), n)
  {
    RenameNodes(h, lab, x, y, k);
    RenamedDomain(h, lab, x, y, k);
    RenamedAt(h, lab, x, y, k, n);
    RenamedBounds(h, lab, x, y, k, n);
    RenamedLinks(h, lab, x, y, k, n);
    RenamedChildOk(h, lab, x, y, k, n, false);
    RenamedChildOk(h, lab, x, y, k, n, true);
  }

  /** Moving a bound from x's key to k keeps every key between its bounds. */
  lemma RenamedBounds(h: Heap, lab: Labels, x: nat, y: nat, k: Key, n: nat)
    requires CanRename(h, lab, x, y, k) && n in h.m && n != x
    ensures var zl := RenamedLabels(h, lab, x, y, k);
            && n in zl.lo && n in zl.hi && LO <= zl.lo[n] < h.m[n].key < zl.hi[n] <= HI
            && zl.lo[n] == Bound(lab.lo[n], h.m[x].key, k) && zl.hi[n] == Bound(lab.hi[n], h.m[x].key, k)
            && (n == h.top ==> zl.lo[n] == LO && zl.hi[n] == HI)
  {
    assert NodeOk(h, lab, n);
  }

  lemma RenamedLinks(h: Heap, lab: Labels, x: nat, y: nat, k: Key, n: nat)
    requires CanRename(h, lab, x, y, k) && n in h.m && n != x
    ensures var z := Renamed(h, x, y, k);
            && n in z.m && n != y && n != 0 && (z.m[n].parent == 0 <==> n == z.top) && (n == z.top ==> n == h.top)
            && (z.m[n].parent != 0 ==>
                  z.m[n].parent in z.m && (z.m[z.m[n].parent].l == n || z.m[z.m[n].parent].r == n))
  {
    var z, s, u := Renamed(h, x, y, k), h.m[x], h.m[n].parent;
    RenameNodes(h, lab, x, y, k);
    RenamedDomain(h, lab, x, y, k);
    RenamedAt(h, lab, x, y, k, n);
    assert NodeOk(h, lab, n);
    assert z.top == if s.parent == 0 then y else h.top;
    if u != 0 && u != x { RenamedAt(h, lab, x, y, k, u); }
    hide Shape, Renamed;
  }

  lemma RenamedChildOk(h: Heap, lab: Labels, x: nat, y: nat, k: Key, n: nat, dir: bool)
    requires CanRename(h, lab, x, y, k) && n in h.m && n != x
    ensures var z, zl := Renamed(h, x, y, k), RenamedLabels(h, lab, x, y, k);
            n in z.m && n in zl.lo && n in zl.hi && ChildOk(z, zl, n, dir)
  {
    hide Renamed, RenamedLabels;
    var z, zl, c, kx := Renamed(h, x, y, k), RenamedLabels(h, lab, x, y, k), Child(h.m[n], dir), h.m[x].key;
    RenameNodes(h, lab, x, y, k);
    RenamedAt(h, lab, x, y, k, n);
    RenamedBounds(h, lab, x, y, k, n);
    assert NodeOk(h, lab, n);
    NoSameKey(h, lab, x, n);
    if c == x {
      RenamedNew(h, lab, x, y, k);
      RenamedNewBounds(h, lab, x, y, k);
      assert n == h.m[x].parent;
      hide CanRename, NodeOk;
      assert Child(z.m[n], dir) == y;
    } else if c != 0 {
      RenamedAt(h, lab, x, y, k, c);
      RenamedBounds(h, lab, x, y, k, c);
      assert z.m[c].parent == n && Child(z.m[n], dir) == c;
      hide CanRename, NodeOk;
    }
  }

  lemma RenamedNewBounds(h: Heap, lab: Labels, x: nat, y: nat, k: Key)
    requires CanRename(h, lab, x, y, k)
    ensures var zl := RenamedLabels(h, lab, x, y, k);
            y in zl.lo && y in zl.hi && zl.lo[y] == lab.lo[x] && zl.hi[y] == lab.hi[x]
  {
  }

  lemma NoSameKey(h: Heap, lab: Labels, x: nat, n: nat)
    requires Shape(h, lab) && x in h.m && n in h.m && x != n
    ensures h.m[x].key != h.m[n].key
  {
    EveryNodeFound(h, lab, x);
    EveryNodeFound(h, lab, n);
  }

  /** The flaw after the renaming: where it was x's, it is y's. */
  function RenamedFlaw(f: Flaw, x: nat, y: nat): Flaw {
    f.(deficit := if f.deficit == x then y else f.deficit)
  }

  /** Node n's colours and heights, seen on node v of another heap. */
  lemma TransferColours(h: Heap, lab: Labels, z: Heap, zl: Labels, f: Flaw, g: Flaw, n: nat, v: nat)
    requires n in h.m && v in z.m && RedOk(h, n, f) && HeightOk(h, lab, n, f) && z.m[v].red == h.m[n].red
    requires v in zl.bh && zl.bh[v] == lab.bh[n] && (f.deficit == n <==> g.deficit == v) && (f.deficit == n ==> f.dir == g.dir)
    requires forall dir :: var c, d := Child(h.m[n], dir), Child(z.m[v], dir);
      Height(zl, d) == Height(lab, c) && (d in z.m && z.m[d].red ==> c in h.m && h.m[c].red && (c == f.red ==> d == g.red))
    ensures RedOk(z, v, g) && HeightOk(z, zl, v, g)
  {
    assert Child(h.m[n], false) == h.m[n].l && Child(h.m[n], true) == h.m[n].r;
    assert Child(z.m[v], false) == z.m[v].l && Child(z.m[v], true) == z.m[v].r;
  }

  lemma RenamedChildColours(h: Heap, lab: Labels, x: nat, y: nat, k: Key, f: Flaw, n: nat, dir: bool)
    requires CanRename(h, lab, x, y, k) && Colours(h, lab, f) && f.red != x && f.red != y && n in h.m
    ensures var z, zl, v := Renamed(h, x, y, k), RenamedLabels(h, lab, x, y, k), if n == x then y else n;
            && v in z.m
            && var c, d := Child(h.m[n], dir), Child(z.m[v], dir);
               Height(zl, d) == Height(lab, c) && (d in z.m && z.m[d].red ==> c in h.m && h.m[c].red && (c == f.red ==> d == f.red))
  {
    hide Renamed, RenamedLabels;
    var z, zl, c := Renamed(h, x, y, k), RenamedLabels(h, lab, x, y, k), Child(h.m[n], dir);
    RenameNodes(h, lab, x, y, k);
    RenamedNew(h, lab, x, y, k);
    RenamedHeights(h, lab, x, y, k);
    assert NodeOk(h, lab, n);
    if n != x { RenamedAt(h, lab, x, y, k, n); }
    if c != 0 && c != x { RenamedAt(h, lab, x, y, k, c); }
    hide CanRename, Colours, NodeOk;
  }

  lemma RenamedHeights(h: Heap, lab: Labels, x: nat, y: nat, k: Key)
    requires CanRename(h, lab, x, y, k)
    ensures RenamedLabels(h, lab, x, y, k).bh == lab.bh[y := lab.bh[x]]
  {
  }

  lemma RenamedColours(h: Heap, lab: Labels, x: nat, y: nat, k: Key, f: Flaw, n: nat)
    requires CanRename(h, lab, x, y, k) && Colours(h, lab, f) && f.red != x && f.red != y && f.deficit != y && n in h.m
    ensures var z, zl, v := Renamed(h, x, y, k), RenamedLabels(h, lab, x, y, k), if n == x then y else n;
            v in z.m && RedOk(z, v, RenamedFlaw(f, x, y)) && HeightOk(z, zl, v, RenamedFlaw(f, x, y))
  {
    RenamedDomain(h, lab, x, y, k);
    if n != x { RenamedAt(h, lab, x, y, k, n); }
    assert RedOk(h, n, f) && HeightOk(h, lab, n, f) && n != y;
    RenamedChildColours(h, lab, x, y, k, f, n, false);
    RenamedChildColours(h, lab, x, y, k, f, n, true);
    hide Renamed, Shape, Colours, RedOk, HeightOk, NodeOk, Child;
    TransferColours(h, lab, Renamed(h, x, y, k), RenamedLabels(h, lab, x, y, k), f, RenamedFlaw(f, x, y), n, if n == x then y else n);
  }

  /** The whole renaming. */
  lemma Rename(h: Heap, lab: Labels, x: nat, y: nat, k: Key, f: Flaw)
    requires CanRename(h, lab, x, y, k) && Colours(h, lab, f) && f.red != x && f.red != y && f.deficit != y
    ensures var z := Renamed(h, x, y, k);
            && Inv(z, RenamedLabels(h, lab, x, y, k), RenamedFlaw(f, x, y))
            && Keys(z) == Keys(h) - {h.m[x].key} + {k} && z.m.Keys == h.m.Keys - {x} + {y}
  {
    hide Renamed, RenamedLabels, NodeOk, RedOk, HeightOk;
    var z, zl := Renamed(h, x, y, k), RenamedLabels(h, lab, x, y, k);
    RenamedDomain(h, lab, x, y, k);
    RenamedTop(h, lab, x, y, k, f);
    forall n | n in z.m ensures NodeOk(z, zl, n) && RedOk(z, n, RenamedFlaw(f, x, y)) && HeightOk(z, zl, n, RenamedFlaw(f, x, y)) {
      if n == y {
        RenamedSelf(h, lab, x, y, k);
        RenamedColours(h, lab, x, y, k, f, x);
      } else {
        RenamedOther(h, lab, x, y, k, n);
        RenamedColours(h, lab, x, y, k, f, n);
      }
    }
  }

  lemma RenamedTop(h: Heap, lab: Labels, x: nat, y: nat, k: Key, f: Flaw)
    requires CanRename(h, lab, x, y, k) && Colours(h, lab, f) && f.red != x
    ensures var z := Renamed(h, x, y, k);
            && (z.top != 0 ==> z.top in z.m) && (z.top in z.m && z.m[z.top].red ==> z.top == f.red)
            && (RenamedFlaw(f, x, y).deficit != 0 ==> RenamedFlaw(f, x, y).deficit in z.m)
  {
    var z := Renamed(h, x, y, k);
    RenameNodes(h, lab, x, y, k);
    RenamedDomain(h, lab, x, y, k);
    if h.top != 0 && h.top != x { RenamedAt(h, lab, x, y, k, h.top); }
    assert h.m[x].parent == 0 <==> x == h.top;
    assert z.top == if h.m[x].parent == 0 then y else h.top;
  }
}
