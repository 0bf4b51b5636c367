/** The slots of a red-black tree (benchmark/versioning/tree_vrbtree.c) as one
    writer's snapshot sees them. Search order, parent links and black heights are
    properties of single nodes, with the help of labels; rotations keep them. */
module RbShape {

  /** The range of a C int; a key and the bounds around all keys. */
  const LO: int := -0x8000_0001
  const HI: int := 0x8000_0000
  type Key = k: int | LO < k < HI

  /** A node's slot. Node 0 is the null pointer; dir false is child[0]. */
  datatype Slot = Slot(key: Key, l: nat, r: nat, parent: nat, red: bool)

  /** top is child[0] of the sentinel. */
  datatype Heap = Heap(top: nat, m: map<nat, Slot>)

  /** For each node, the open interval its subtree's keys lie in, and its black height. */
  datatype Labels = Labels(lo: map<nat, int>, hi: map<nat, int>, bh: map<nat, nat>)

  function Child(s: Slot, dir: bool): nat {
    if dir then s.r else s.l
  }

  function WithChild(s: Slot, dir: bool, c: nat): Slot {
    if dir then s.(r := c) else s.(l := c)
  }

  /** Replaces child a by child c (add_or_change_slot_child). */
  function Replace(s: Slot, a: nat, c: nat): Slot {
    if s.l == a then s.(l := c) else s.(r := c)
  }

  // ---------------------------------------------------------------- shape

  predicate ChildOk(h: Heap, lab: Labels, n: nat, dir: bool)
    requires n in h.m && n in lab.lo && n in lab.hi
  {
    var c := Child(h.m[n], dir);
    c != 0 ==>
      && c in h.m && c in lab.lo && c in lab.hi && h.m[c].parent == n
      && lab.lo[c] == (if dir then h.m[n].key else lab.lo[n])
      && lab.hi[c] == (if dir then lab.hi[n] else h.m[n].key)
  }

  predicate NodeOk(h: Heap, lab: Labels, n: nat)
    requires n in h.m
  {
    && n != 0 && n in lab.lo && n in lab.hi
    && LO <= lab.lo[n] < h.m[n].key < lab.hi[n] <= HI
    && ChildOk(h, lab, n, false) && ChildOk(h, lab, n, true)
    && (h.m[n].parent == 0 <==> n == h.top)
    && (h.m[n].parent != 0 ==>
          h.m[n].parent in h.m && (h.m[h.m[n].parent].l == n || h.m[h.m[n].parent].r == n))
    && (n == h.top ==> lab.lo[n] == LO && lab.hi[n] == HI)
  }

  /** Search order and parent links. */
  predicate Shape(h: Heap, lab: Labels) {
    && (h.top != 0 ==> h.top in h.m)
    && forall n {:trigger NodeOk(h, lab, n)} :: n in h.m ==> NodeOk(h, lab, n)
  }

  // ---------------------------------------------------------------- colours

  function Height(lab: Labels, c: nat): nat {
    if c == 0 || c !in lab.bh then 0 else lab.bh[c]
  }

  /** Where the tree may be wrong: red may be red below a red node, and the paths
      through child dir of deficit are one black node short. */
  datatype Flaw = Flaw(red: nat, deficit: nat, dir: bool)

  const NoFlaw := Flaw(0, 0, false)

  predicate RedOk(h: Heap, n: nat, f: Flaw)
    requires n in h.m
  {
    h.m[n].red ==>
      && (h.m[n].l in h.m && h.m[h.m[n].l].red ==> h.m[n].l == f.red)
      && (h.m[n].r in h.m && h.m[h.m[n].r].red ==> h.m[n].r == f.red)
  }

  /** The height of child dir, counted as if nothing were short. */
  function Side(h: Heap, lab: Labels, n: nat, dir: bool, f: Flaw): nat
    requires n in h.m
  {
    Height(lab, Child(h.m[n], dir)) + if f.deficit == n && f.dir == dir then 1 else 0
  }

  predicate HeightOk(h: Heap, lab: Labels, n: nat, f: Flaw)
    requires n in h.m
  {
    && n in lab.bh && Side(h, lab, n, false, f) == Side(h, lab, n, true, f)
    && lab.bh[n] == Side(h, lab, n, false, f) + if h.m[n].red then 0 else 1
  }

  predicate Colours(h: Heap, lab: Labels, f: Flaw) {
    && (forall n {:trigger RedOk(h, n, f)} :: n in h.m ==> RedOk(h, n, f))
    && (forall n {:trigger HeightOk(h, lab, n, f)} :: n in h.m ==> HeightOk(h, lab, n, f))
    && (h.top in h.m && h.m[h.top].red ==> h.top == f.red)
    && (f.deficit != 0 ==> f.deficit in h.m)
  }

  predicate Inv(h: Heap, lab: Labels, f: Flaw) {
    Shape(h, lab) && Colours(h, lab, f) && 0 !in h.m
  }

  function Keys(h: Heap): set<int> {
    set n | n in h.m :: h.m[n].key
  }

  /** The nodes are the same but for those gone, and each has its key. */
  predicate KeepsNodes(h: Heap, z: Heap, gone: set<nat>) {
    z.m.Keys == h.m.Keys - gone && forall n :: n in z.m && n in h.m ==> z.m[n].key == h.m[n].key
  }

  // ---------------------------------------------------------------- searching

  function Size(lab: Labels, n: nat): nat {
    if n in lab.lo && n in lab.hi && lab.lo[n] <= lab.hi[n] then lab.hi[n] - lab.lo[n] else 0
  }

  /** The node with this key below n, or null. */
  function Search(h: Heap, lab: Labels, n: nat, key: Key): (r: nat)
    requires Shape(h, lab) && (n != 0 ==> n in h.m)
    ensures r != 0 ==> r in h.m && h.m[r].key == key
    decreases if n == 0 then 0 else Size(lab, n)
  {
    if n == 0 || h.m[n].key == key then n
    else
      assert NodeOk(h, lab, n);
      Search(h, lab, Child(h.m[n], h.m[n].key < key), key)
  }

  /** A search that finds a node from one of its ancestors finds it from the top. */
  lemma {:induction false} SearchUp(h: Heap, lab: Labels, x: nat, n: nat)
    requires Shape(h, lab) && x in h.m && n in h.m && Search(h, lab, x, h.m[n].key) == n
    requires NodeOk(h, lab, x) && lab.lo[x] < h.m[n].key < lab.hi[x]
    ensures Search(h, lab, h.top, h.m[n].key) == n
    decreases HI - LO - Size(lab, x)
  {
    var p := h.m[x].parent;
    if p != 0 {
      assert NodeOk(h, lab, p);
      SearchUp(h, lab, p, n);
    }
  }

  /** Every node is found by its key; so no key occurs twice. */
  lemma EveryNodeFound(h: Heap, lab: Labels, n: nat)
    requires Shape(h, lab) && n in h.m
    ensures Search(h, lab, h.top, h.m[n].key) == n
  {
    assert NodeOk(h, lab, n);
    SearchUp(h, lab, n, n);
  }

  lemma SearchDecides(h: Heap, lab: Labels, key: Key)
    requires Shape(h, lab) && 0 !in h.m
    ensures key in Keys(h) <==> Search(h, lab, h.top, key) != 0
  {
    if key in Keys(h) {
      var n :| n in h.m && h.m[n].key == key;
      EveryNodeFound(h, lab, n);
    }
  }

  // ---------------------------------------------------------------- what the program checks

  /** The black nodes on the path down the left edge. */
  function BlackCount(h: Heap, lab: Labels, n: nat): nat
    requires Shape(h, lab) && (n != 0 ==> n in h.m)
    decreases if n == 0 then 0 else Size(lab, n)
  {
    if n == 0 then 0
    else
      assert NodeOk(h, lab, n);
      BlackCount(h, lab, h.m[n].l) + if h.m[n].red then 0 else 1
  }

  /** rbtree_check: parent links, no red node below a red one, children on their
      sides, equal black counts, all the way down. */
  predicate RbtreeCheck(h: Heap, lab: Labels, n: nat, parent: nat, parentRed: bool)
    requires Shape(h, lab) && (n != 0 ==> n in h.m)
    decreases if n == 0 then 0 else Size(lab, n)
  {
    n != 0 ==>
      assert NodeOk(h, lab, n);
      && h.m[n].parent == parent && !(h.m[n].red && parentRed)
      && (h.m[n].l != 0 ==> h.m[h.m[n].l].key < h.m[n].key)
      && (h.m[n].r != 0 ==> h.m[h.m[n].r].key > h.m[n].key)
      && RbtreeCheck(h, lab, h.m[n].l, n, h.m[n].red) && RbtreeCheck(h, lab, h.m[n].r, n, h.m[n].red)
      && BlackCount(h, lab, h.m[n].l) == BlackCount(h, lab, h.m[n].r)
  }

  lemma {:induction false} InvChecks(h: Heap, lab: Labels, n: nat, parentRed: bool)
    requires Inv(h, lab, NoFlaw) && (n != 0 ==> n in h.m && (h.m[n].red ==> !parentRed))
    ensures RbtreeCheck(h, lab, n, if n == 0 then 0 else h.m[n].parent, parentRed)
    ensures BlackCount(h, lab, n) == Height(lab, n)
    decreases if n == 0 then 0 else Size(lab, n)
  {
    if n != 0 {
      assert NodeOk(h, lab, n) && RedOk(h, n, NoFlaw) && HeightOk(h, lab, n, NoFlaw);
      var l, r := h.m[n].l, h.m[n].r;
      if l != 0 { assert NodeOk(h, lab, l); }
      if r != 0 { assert NodeOk(h, lab, r); }
      InvChecks(h, lab, l, h.m[n].red);
      InvChecks(h, lab, r, h.m[n].red);
    }
  }

  // ---------------------------------------------------------------- rotations

  /** rot_left (d false) and rot_right (d true): child !d of a takes a's place, a becomes
      its child d, and the child in between changes hands. */
  function Rotated(h: Heap, a: nat, d: bool): Heap
    requires a in h.m && Child(h.m[a], !d) in h.m
  {
    var c := Child(h.m[a], !d);
    var mid, p := Child(h.m[c], d), h.m[a].parent;
    var m0 := if mid in h.m then h.m[mid := h.m[mid].(parent := a)] else h.m;
    var m1 := if p in m0 then m0[p := Replace(m0[p], a, c)] else m0;
    var m2 := m1[a := WithChild(m1[a], !d, mid).(parent := c)];
    Heap(if p == 0 then c else h.top, m2[c := WithChild(m2[c], d, a).(parent := p)])
  }

  function RotLabels(h: Heap, lab: Labels, a: nat, d: bool): Labels
    requires a in h.m && Child(h.m[a], !d) in h.m && a in lab.lo && a in lab.hi
  {
    var c := Child(h.m[a], !d);
    var lo, hi := lab.lo[c := lab.lo[a]], lab.hi[c := lab.hi[a]];
    if d then lab.(lo := lo[a := h.m[c].key], hi := hi) else lab.(lo := lo, hi := hi[a := h.m[c].key])
  }

  /** The four nodes of a rotation are different, and linked as expected. */
  lemma RotNodes(h: Heap, lab: Labels, a: nat, d: bool)
    requires Shape(h, lab) && 0 !in h.m && a in h.m && Child(h.m[a], !d) != 0
    ensures var c := Child(h.m[a], !d);
            && c in h.m && c != a && h.m[c].parent == a
            && var mid, p := Child(h.m[c], d), h.m[a].parent;
               && (mid != 0 ==> mid in h.m && h.m[mid].parent == c && mid != a && mid != c && mid != p)
               && (p != 0 ==> p in h.m && p != a && p != c && (h.m[p].l == a || h.m[p].r == a))
               && (p != 0 ==> h.m[p].l != h.m[p].r)
  {
    var c := Child(h.m[a], !d);
    assert NodeOk(h, lab, a) && NodeOk(h, lab, c);
    var mid, p := Child(h.m[c], d), h.m[a].parent;
    if mid != 0 { assert NodeOk(h, lab, mid); }
    if p != 0 { assert NodeOk(h, lab, p); }
  }

  /** What a rotation makes of each node. */
  predicate RotatedAt(h: Heap, z: Heap, a: nat, d: bool)
    requires a in h.m && Child(h.m[a], !d) in h.m
  {
    var c := Child(h.m[a], !d);
    var mid, p := Child(h.m[c], d), h.m[a].parent;
    && z.m.Keys == h.m.Keys
    && (forall n :: n in h.m && n != a && n != c && n != mid && n != p ==> z.m[n] == h.m[n])
    && z.m[c] == WithChild(h.m[c], d, a).(parent := p)
    && z.m[a] == WithChild(h.m[a], !d, mid).(parent := c)
    && (mid != 0 && mid in h.m ==> z.m[mid] == h.m[mid].(parent := a))
    && (p != 0 && p in h.m ==> z.m[p] == Replace(h.m[p], a, c))
    && z.top == if p == 0 then c else h.top
  }

  lemma RotatedIs(h: Heap, lab: Labels, a: nat, d: bool)
    requires Shape(h, lab) && 0 !in h.m && a in h.m && Child(h.m[a], !d) in h.m
    ensures RotatedAt(h, Rotated(h, a, d), a, d)
  {
    RotNodes(h, lab, a, d);
    hide Shape;
    var c := Child(h.m[a], !d);
    var mid, p := Child(h.m[c], d), h.m[a].parent;
    var m0 := if mid in h.m then h.m[mid := h.m[mid].(parent := a)] else h.m;
    var m1 := if p in m0 then m0[p := Replace(m0[p], a, c)] else m0;
    var m2 := m1[a := WithChild(m1[a], !d, mid).(parent := c)];
    var m3 := m2[c := WithChild(m2[c], d, a).(parent := p)];
    assert m0.Keys == h.m.Keys;
    assert m1.Keys == h.m.Keys && m1[a] == h.m[a] && m1[c] == h.m[c];
    assert m2.Keys == h.m.Keys && m2[c] == h.m[c];
    assert m3.Keys == h.m.Keys;
    hide WithChild, Replace, Child;
    forall n | n in h.m && n != a && n != c && n != mid && n != p ensures m3[n] == h.m[n] {
    }
  }

  lemma RotateKeys(h: Heap, z: Heap, a: nat, d: bool)
    requires a in h.m && Child(h.m[a], !d) in h.m && RotatedAt(h, z, a, d)
    requires 0 !in h.m
    ensures z.m.Keys == h.m.Keys && forall n :: n in h.m ==> z.m[n].key == h.m[n].key && z.m[n].red == h.m[n].red
    ensures Keys(z) == Keys(h)
  {
    var c := Child(h.m[a], !d);
    var mid, p := Child(h.m[c], d), h.m[a].parent;
    forall n | n in h.m ensures z.m[n].key == h.m[n].key && z.m[n].red == h.m[n].red {
      if n != a && n != c && n != mid && n != p { assert z.m[n] == h.m[n]; }
    }
    KeysSame(h, z);
  }

  /** Neither do a rotation and new colours take a node away or give it another key. */
  lemma TurnKeeps(h: Heap, y: Heap, z: Heap, a: nat, d: bool, red: map<nat, bool>)
    requires a in h.m && Child(h.m[a], !d) in h.m && RotatedAt(h, y, a, d) && 0 !in h.m && Recolored(y, z, red)
    ensures KeepsNodes(h, z, {})
  {
    RotateKeys(h, y, a, d);
    hide RotatedAt;
    forall n | n in z.m && n in h.m ensures z.m[n].key == h.m[n].key {
      assert z.m[n] == if n in red then y.m[n].(red := red[n]) else y.m[n];
    }
  }

  lemma KeysSame(h: Heap, z: Heap)
    requires z.m.Keys == h.m.Keys && forall n :: n in h.m ==> z.m[n].key == h.m[n].key
    ensures Keys(z) == Keys(h)
  {
    forall k ensures k in Keys(z) <==> k in Keys(h) {
      if n :| n in h.m && h.m[n].key == k { assert z.m[n].key == k; }
      if n :| n in z.m && z.m[n].key == k { assert h.m[n].key == k; }
    }
  }

  /** A rotation keeps search order and parent links. */
  lemma RotateShape(h: Heap, lab: Labels, z: Heap, a: nat, d: bool)
    requires Shape(h, lab) && 0 !in h.m && a in h.m && Child(h.m[a], !d) in h.m && a in lab.lo && a in lab.hi
    requires RotatedAt(h, z, a, d)
    ensures Shape(z, RotLabels(h, lab, a, d))
  {
    hide NodeOk;
    RotNodes(h, lab, a, d);
    forall n | n in z.m ensures NodeOk(z, RotLabels(h, lab, a, d), n) {
      RotateNode(h, lab, z, a, d, n);
    }
  }

  lemma RotateNode(h: Heap, lab: Labels, z: Heap, a: nat, d: bool, n: nat)
    requires Shape(h, lab) && 0 !in h.m && a in h.m && Child(h.m[a], !d) in h.m && a in lab.lo && a in lab.hi
    requires RotatedAt(h, z, a, d) && n in z.m
    ensures NodeOk(z, RotLabels(h, lab, a, d), n)
  {
    RotNodes(h, lab, a, d);
    var c := Child(h.m[a], !d);
    var mid, p := Child(h.m[c], d), h.m[a].parent;
    if n == a { RotateLower(h, lab, z, a, d); }
    else if n == c { RotateUpper(h, lab, z, a, d); }
    else if n == mid { RotateMiddle(h, lab, z, a, d); }
    else if n == p { RotateParent(h, lab, z, a, d); }
    else { RotateOther(h, lab, z, a, d, n); }
  }

  lemma RotateLower(h: Heap, lab: Labels, z: Heap, a: nat, d: bool)
    requires Shape(h, lab) && 0 !in h.m && a in h.m && Child(h.m[a], !d) in h.m && a in lab.lo && a in lab.hi
    requires RotatedAt(h, z, a, d)
    ensures a in z.m && NodeOk(z, RotLabels(h, lab, a, d), a)
  {
    RotNodes(h, lab, a, d);
    var c := Child(h.m[a], !d);
    assert NodeOk(h, lab, a) && NodeOk(h, lab, c);
    var mid, b := Child(h.m[c], d), Child(h.m[a], d);
    assert mid != 0 ==> NodeOk(h, lab, mid);
    assert b != 0 ==> NodeOk(h, lab, b);
    hide Shape;
    assert b != 0 ==> b != c && b != mid && b != a && b != h.m[a].parent;
  }

  lemma RotateUpper(h: Heap, lab: Labels, z: Heap, a: nat, d: bool)
    requires Shape(h, lab) && 0 !in h.m && a in h.m && Child(h.m[a], !d) in h.m && a in lab.lo && a in lab.hi
    requires RotatedAt(h, z, a, d)
    ensures Child(h.m[a], !d) in z.m && NodeOk(z, RotLabels(h, lab, a, d), Child(h.m[a], !d))
  {
    RotNodes(h, lab, a, d);
    var c := Child(h.m[a], !d);
    assert NodeOk(h, lab, a) && NodeOk(h, lab, c);
    var e, p := Child(h.m[c], !d), h.m[a].parent;
    assert e != 0 ==> NodeOk(h, lab, e);
    assert p != 0 ==> NodeOk(h, lab, p);
    hide Shape;
    assert e != 0 ==> e != c && e != a && e != p && e != Child(h.m[c], d);
  }

  lemma RotateMiddle(h: Heap, lab: Labels, z: Heap, a: nat, d: bool)
    requires Shape(h, lab) && 0 !in h.m && a in h.m && Child(h.m[a], !d) in h.m && a in lab.lo && a in lab.hi
    requires RotatedAt(h, z, a, d)
    ensures var mid := Child(h.m[Child(h.m[a], !d)], d);
            mid != 0 ==> mid in z.m && NodeOk(z, RotLabels(h, lab, a, d), mid)
  {
    RotNodes(h, lab, a, d);
    var c := Child(h.m[a], !d);
    var mid, p := Child(h.m[c], d), h.m[a].parent;
    if mid != 0 {
      assert NodeOk(h, lab, a) && NodeOk(h, lab, c) && NodeOk(h, lab, mid);
      var l, r := h.m[mid].l, h.m[mid].r;
      assert l != 0 ==> NodeOk(h, lab, l);
      assert r != 0 ==> NodeOk(h, lab, r);
      hide Shape;
      assert l != 0 ==> l != a && l != c && l != mid && l != p;
      assert r != 0 ==> r != a && r != c && r != mid && r != p;
    }
  }

  lemma RotateParent(h: Heap, lab: Labels, z: Heap, a: nat, d: bool)
    requires Shape(h, lab) && 0 !in h.m && a in h.m && Child(h.m[a], !d) in h.m && a in lab.lo && a in lab.hi
    requires RotatedAt(h, z, a, d)
    ensures var p := h.m[a].parent; p != 0 ==> p in z.m && NodeOk(z, RotLabels(h, lab, a, d), p)
  {
    RotNodes(h, lab, a, d);
    var c := Child(h.m[a], !d);
    var mid, p := Child(h.m[c], d), h.m[a].parent;
    if p != 0 {
      assert NodeOk(h, lab, a) && NodeOk(h, lab, c) && NodeOk(h, lab, p);
      RotateUp(h, lab, z, a, d, p);
      RotateChild(h, lab, z, a, d, p, false);
      RotateChild(h, lab, z, a, d, p, true);
    }
  }

  /** The parent of a node a rotation does not move still has it as a child. */
  lemma RotateUp(h: Heap, lab: Labels, z: Heap, a: nat, d: bool, n: nat)
    requires Shape(h, lab) && 0 !in h.m && a in h.m && Child(h.m[a], !d) in h.m && a in lab.lo && a in lab.hi
    requires RotatedAt(h, z, a, d)
    requires n in h.m && n != a && n != Child(h.m[a], !d) && n != Child(h.m[Child(h.m[a], !d)], d)
    ensures n in z.m && z.m[n].parent == h.m[n].parent && (z.m[n].parent == 0 <==> n == z.top)
    ensures z.m[n].parent != 0 ==> z.m[n].parent in z.m && (z.m[z.m[n].parent].l == n || z.m[z.m[n].parent].r == n)
  {
    RotNodes(h, lab, a, d);
    var c, q := Child(h.m[a], !d), h.m[n].parent;
    assert NodeOk(h, lab, n) && NodeOk(h, lab, a);
    assert q != 0 ==> NodeOk(h, lab, q);
    if q != 0 && q != a && q != c && q != h.m[a].parent {
      assert z.m[q].l == h.m[q].l && z.m[q].r == h.m[q].r;
    }
  }

  /** A child of the parent, or of a node a rotation does not touch. */
  lemma RotateChild(h: Heap, lab: Labels, z: Heap, a: nat, d: bool, n: nat, dir: bool)
    requires Shape(h, lab) && 0 !in h.m && a in h.m && Child(h.m[a], !d) in h.m && a in lab.lo && a in lab.hi
    requires RotatedAt(h, z, a, d)
    requires n in h.m && n != a && n != Child(h.m[a], !d) && n != Child(h.m[Child(h.m[a], !d)], d)
    ensures n in z.m && n in lab.lo && n in lab.hi && ChildOk(z, RotLabels(h, lab, a, d), n, dir)
  {
    RotNodes(h, lab, a, d);
    var c, k := Child(h.m[a], !d), Child(h.m[n], dir);
    var mid, p := Child(h.m[c], d), h.m[a].parent;
    assert NodeOk(h, lab, n) && NodeOk(h, lab, a) && NodeOk(h, lab, c);
    if k != 0 && k != a {
      assert NodeOk(h, lab, k);
      assert k != c && k != mid;
      assert Child(z.m[n], dir) == k;
      if k == p { assert z.m[k].parent == h.m[k].parent; } else { assert z.m[k] == h.m[k]; }
    }
  }

  lemma RotateOther(h: Heap, lab: Labels, z: Heap, a: nat, d: bool, n: nat)
    requires Shape(h, lab) && 0 !in h.m && a in h.m && Child(h.m[a], !d) in h.m && a in lab.lo && a in lab.hi
    requires RotatedAt(h, z, a, d)
    requires n in h.m && n != a && n != Child(h.m[a], !d) && n != h.m[a].parent
    requires n != Child(h.m[Child(h.m[a], !d)], d)
    ensures n in z.m && NodeOk(z, RotLabels(h, lab, a, d), n)
  {
    assert NodeOk(h, lab, n);
    RotateUp(h, lab, z, a, d, n);
    RotateChild(h, lab, z, a, d, n, false);
    RotateChild(h, lab, z, a, d, n, true);
  }

  // ---------------------------------------------------------------- colours and heights

  /** Only the colours in red differ. */
  predicate Recolored(h: Heap, z: Heap, red: map<nat, bool>) {
    && z.top == h.top && z.m.Keys == h.m.Keys
    && forall n {:trigger z.m[n]} :: n in h.m ==> z.m[n] == if n in red then h.m[n].(red := red[n]) else h.m[n]
  }

  lemma UntouchedColour(h: Heap, z: Heap, red: map<nat, bool>, n: nat)
    requires Recolored(h, z, red) && n in h.m && n !in red
    ensures n in z.m && z.m[n] == h.m[n]
  {
  }

  lemma RecolorShape(h: Heap, lab: Labels, z: Heap, red: map<nat, bool>)
    requires Shape(h, lab) && Recolored(h, z, red)
    ensures Shape(z, lab) && Keys(z) == Keys(h)
  {
    forall n | n in z.m ensures NodeOk(z, lab, n) {
      assert NodeOk(h, lab, n) && z.m[n].key == h.m[n].key;
      RecolorNode(h, lab, z, red, n);
    }
    KeysSame(h, z);
  }

  /** Shape does not depend on the heights. */
  lemma SameShape(z: Heap, lab: Labels, zl: Labels)
    requires Shape(z, lab) && zl.lo == lab.lo && zl.hi == lab.hi
    ensures Shape(z, zl)
  {
    forall n | n in z.m ensures NodeOk(z, zl, n) {
      assert NodeOk(z, lab, n);
    }
  }

  lemma RecolorNode(h: Heap, lab: Labels, z: Heap, red: map<nat, bool>, n: nat)
    requires Recolored(h, z, red) && n in h.m && NodeOk(h, lab, n)
    ensures n in z.m && NodeOk(z, lab, n)
  {
    var l, r, p := h.m[n].l, h.m[n].r, h.m[n].parent;
    assert z.m[n].l == l && z.m[n].r == r && z.m[n].parent == p && z.m[n].key == h.m[n].key;
    assert l in h.m ==> z.m[l].parent == h.m[l].parent;
    assert r in h.m ==> z.m[r].parent == h.m[r].parent;
    assert p in h.m ==> z.m[p].l == h.m[p].l && z.m[p].r == h.m[p].r;
  }

  /** A node whose own slot, height and children's colours and heights stay the same. */
  lemma SameColours(h: Heap, lab: Labels, z: Heap, zl: Labels, f: Flaw, g: Flaw, n: nat)
    requires n in h.m && n in z.m && RedOk(h, n, f) && HeightOk(h, lab, n, f)
    requires z.m.Keys == h.m.Keys && z.m[n].l == h.m[n].l && z.m[n].r == h.m[n].r && z.m[n].red == h.m[n].red
    requires n in zl.bh && zl.bh[n] == lab.bh[n]
    requires forall dir :: var k := Child(h.m[n], dir);
      Height(zl, k) == Height(lab, k) && (k in z.m && z.m[k].red ==> h.m[k].red && (k == f.red ==> k == g.red))
    requires f.deficit == n <==> g.deficit == n
    requires f.deficit == n ==> f.dir == g.dir
    ensures RedOk(z, n, g) && HeightOk(z, zl, n, g)
  {
    assert Child(h.m[n], false) == h.m[n].l && Child(h.m[n], true) == h.m[n].r;
  }

  /** A node's colours and height, put together and taken apart by direction. */
  lemma NodeColours(z: Heap, zl: Labels, n: nat, g: Flaw, dir: bool)
    requires n in z.m && n in zl.bh && g.deficit != n
    requires z.m[n].red ==> forall k :: k in z.m && z.m[k].red && (k == Child(z.m[n], dir) || k == Child(z.m[n], !dir)) ==> k == g.red
    requires Height(zl, Child(z.m[n], dir)) == Height(zl, Child(z.m[n], !dir))
    requires zl.bh[n] == Height(zl, Child(z.m[n], dir)) + if z.m[n].red then 0 else 1
    ensures RedOk(z, n, g) && HeightOk(z, zl, n, g)
  {
  }

  lemma ColoursOf(h: Heap, lab: Labels, n: nat, f: Flaw, dir: bool)
    requires n in h.m && n != 0 && RedOk(h, n, f) && HeightOk(h, lab, n, f) && f.deficit != n
    ensures h.m[n].red ==> forall k :: k in h.m && h.m[k].red && (k == Child(h.m[n], dir) || k == Child(h.m[n], !dir)) ==> k == f.red
    ensures Height(lab, Child(h.m[n], dir)) == Height(lab, Child(h.m[n], !dir))
    ensures Height(lab, n) == Height(lab, Child(h.m[n], dir)) + if h.m[n].red then 0 else 1
  {
  }

  /** The labels after a rotation, with new black heights for a, c and c's far child. */
  predicate RotatedLabels(h: Heap, lab: Labels, zl: Labels, a: nat, d: bool)
    requires a in h.m && Child(h.m[a], !d) in h.m && a in lab.lo && a in lab.hi
  {
    var c := Child(h.m[a], !d);
    && zl.lo == RotLabels(h, lab, a, d).lo && zl.hi == RotLabels(h, lab, a, d).hi
    && forall n :: n in h.m ==>
         n in zl.bh && n in lab.bh && (n != a && n != c && n != Child(h.m[c], !d) ==> zl.bh[n] == lab.bh[n])
  }

  /** Labels after a rotation that swaps the black heights of the two nodes. */
  function TurnLabels(h: Heap, lab: Labels, up: nat, prev: nat, d: bool): Labels
    requires up in h.m && Child(h.m[up], !d) in h.m && up in lab.lo && up in lab.hi
  {
    RotLabels(h, lab, up, d).(bh := lab.bh[prev := Height(lab, up)][up := Height(lab, prev)])
  }

  /** A flaw at, or just below, the rotation may change; any other stays. */
  predicate FlawMoves(h: Heap, f: Flaw, g: Flaw, a: nat, c: nat) {
    && ((f.deficit == g.deficit && f.dir == g.dir)
        || (f.deficit in {0, a, c} && g.deficit in {0, a, c}))
    && (f.red in h.m && f.red != g.red ==> f.red == a || h.m[f.red].parent == a || h.m[f.red].parent == c)
    && (g.deficit != 0 ==> g.deficit in h.m)
  }

  /** A rotation with a change of colours around it is right everywhere if it is right
      at the nodes that move, and what their parent sees is what it saw before. */
  lemma RotateColours(h: Heap, lab: Labels, y: Heap, z: Heap, zl: Labels, a: nat, d: bool, red: map<nat, bool>, f: Flaw, g: Flaw)
    requires Inv(h, lab, f) && a in h.m && Child(h.m[a], !d) in h.m && a in lab.lo && a in lab.hi
    requires RotatedAt(h, y, a, d) && Recolored(y, z, red) && RotatedLabels(h, lab, zl, a, d)
    requires var c := Child(h.m[a], !d); var e := Child(h.m[c], !d);
             && (forall k :: k in red ==> k == a || k == c || k == e) && FlawMoves(h, f, g, a, c)
             && RedOk(z, a, g) && HeightOk(z, zl, a, g) && RedOk(z, c, g) && HeightOk(z, zl, c, g)
             && (e != 0 ==> e in z.m && RedOk(z, e, g) && HeightOk(z, zl, e, g))
             && zl.bh[c] == lab.bh[a] && (z.m[c].red ==> h.m[a].red && (a == f.red ==> c == g.red))
    ensures Inv(z, zl, g) && Keys(z) == Keys(h) && z.m.Keys == h.m.Keys
  {
    var c := Child(h.m[a], !d);
    RotateKeys(h, y, a, d);
    RotateShape(h, lab, y, a, d);
    RecolorShape(y, RotLabels(h, lab, a, d), z, red);
    SameShape(z, RotLabels(h, lab, a, d), zl);
    var e, p := Child(h.m[c], !d), h.m[a].parent;
    hide RotatedAt, Recolored, Shape, RotatedLabels, FlawMoves;
    forall n | n in z.m ensures RedOk(z, n, g) && HeightOk(z, zl, n, g) {
      if n != a && n != c && n != e {
        if n == p { RotateParentColours(h, lab, y, z, zl, a, d, red, f, g); }
        else { RotateOtherColours(h, lab, y, z, zl, a, d, red, f, g, n); }
      }
    }
    RotateTop(h, lab, y, z, zl, a, d, red, f, g);
  }

  /** A node's colour and children after the rotation and the change of colours. */
  lemma SlotAfter(h: Heap, lab: Labels, y: Heap, z: Heap, a: nat, d: bool, red: map<nat, bool>, n: nat)
    requires Shape(h, lab) && 0 !in h.m && a in h.m && Child(h.m[a], !d) in h.m && n in h.m
    requires RotatedAt(h, y, a, d) && Recolored(y, z, red)
    ensures n in z.m && z.m[n].red == if n in red then red[n] else h.m[n].red
    ensures var c, p := Child(h.m[a], !d), h.m[a].parent;
            && (n != a && n != c && n != p ==> z.m[n].l == h.m[n].l && z.m[n].r == h.m[n].r)
            && (n == p ==> z.m[n].l == Replace(h.m[p], a, c).l && z.m[n].r == Replace(h.m[p], a, c).r)
  {
    RotNodes(h, lab, a, d);
    RotateKeys(h, y, a, d);
    var c, p := Child(h.m[a], !d), h.m[a].parent;
    if n != a && n != c && n != p && n != Child(h.m[c], d) { assert y.m[n] == h.m[n]; }
    assert z.m[n] == if n in red then y.m[n].(red := red[n]) else y.m[n];
  }

  lemma RotateOtherColours(h: Heap, lab: Labels, y: Heap, z: Heap, zl: Labels, a: nat, d: bool, red: map<nat, bool>, f: Flaw, g: Flaw, n: nat)
    requires Inv(h, lab, f) && a in h.m && Child(h.m[a], !d) in h.m && a in lab.lo && a in lab.hi
    requires RotatedAt(h, y, a, d) && Recolored(y, z, red) && RotatedLabels(h, lab, zl, a, d)
    requires var c := Child(h.m[a], !d); var e := Child(h.m[c], !d);
             && (forall k :: k in red ==> k == a || k == c || k == e) && FlawMoves(h, f, g, a, c)
             && zl.bh[c] == lab.bh[a] && (z.m[c].red ==> h.m[a].red && (a == f.red ==> c == g.red))
    requires n in h.m && n != a && n != Child(h.m[a], !d) && n != h.m[a].parent
    requires n != Child(h.m[Child(h.m[a], !d)], !d)
    ensures n in z.m && RedOk(z, n, g) && HeightOk(z, zl, n, g)
  {
    var c := Child(h.m[a], !d);
    var e := Child(h.m[c], !d);
    SlotAfter(h, lab, y, z, a, d, red, n);
    assert z.m.Keys == h.m.Keys;
    assert NodeOk(h, lab, n) && RedOk(h, n, f) && HeightOk(h, lab, n, f) && NodeOk(h, lab, c) && NodeOk(h, lab, a);
    forall dir
      ensures var k := Child(h.m[n], dir);
        Height(zl, k) == Height(lab, k) && (k in z.m && z.m[k].red ==> h.m[k].red && (k == f.red ==> k == g.red))
    {
      var k := Child(h.m[n], dir);
      assert ChildOk(h, lab, n, dir);
      if k != 0 {
        assert NodeOk(h, lab, k);
        SlotAfter(h, lab, y, z, a, d, red, k);
      }
    }
    hide RotatedAt, Recolored, Shape, Colours, RotatedLabels, NodeOk, ChildOk;
    SameColours(h, lab, z, zl, f, g, n);
  }

  lemma RotateTop(h: Heap, lab: Labels, y: Heap, z: Heap, zl: Labels, a: nat, d: bool, red: map<nat, bool>, f: Flaw, g: Flaw)
    requires Inv(h, lab, f) && a in h.m && Child(h.m[a], !d) in h.m && a in lab.lo && a in lab.hi
    requires RotatedAt(h, y, a, d) && Recolored(y, z, red) && RotatedLabels(h, lab, zl, a, d)
    requires var c := Child(h.m[a], !d); var e := Child(h.m[c], !d);
             && (forall k :: k in red ==> k == a || k == c || k == e) && FlawMoves(h, f, g, a, c)
             && zl.bh[c] == lab.bh[a] && (z.m[c].red ==> h.m[a].red && (a == f.red ==> c == g.red))
    ensures z.top in z.m && z.m[z.top].red ==> z.top == g.red
  {
    var c := Child(h.m[a], !d);
    RotNodes(h, lab, a, d);
    assert NodeOk(h, lab, a) && NodeOk(h, lab, c);
    if h.m[a].parent != 0 && h.top in h.m {
      assert NodeOk(h, lab, h.top);
      SlotAfter(h, lab, y, z, a, d, red, h.top);
      assert Child(h.m[c], !d) != 0 ==> NodeOk(h, lab, Child(h.m[c], !d));
      hide RotatedAt, Recolored, Shape;
    }
  }

  lemma RotateParentColours(h: Heap, lab: Labels, y: Heap, z: Heap, zl: Labels, a: nat, d: bool, red: map<nat, bool>, f: Flaw, g: Flaw)
    requires Inv(h, lab, f) && a in h.m && Child(h.m[a], !d) in h.m && a in lab.lo && a in lab.hi
    requires RotatedAt(h, y, a, d) && Recolored(y, z, red) && RotatedLabels(h, lab, zl, a, d)
    requires var c := Child(h.m[a], !d); var e := Child(h.m[c], !d);
             && (forall k :: k in red ==> k == a || k == c || k == e) && FlawMoves(h, f, g, a, c)
             && zl.bh[c] == lab.bh[a] && (z.m[c].red ==> h.m[a].red && (a == f.red ==> c == g.red))
    ensures var p := h.m[a].parent; p != 0 ==> p in z.m && RedOk(z, p, g) && HeightOk(z, zl, p, g)
  {
    var c, p := Child(h.m[a], !d), h.m[a].parent;
    RotNodes(h, lab, a, d);
    if p != 0 {
      assert NodeOk(h, lab, p) && RedOk(h, p, f) && HeightOk(h, lab, p, f) && NodeOk(h, lab, a) && NodeOk(h, lab, c);
      var s := if h.m[p].l == a then h.m[p].r else h.m[p].l;
      SlotAfter(h, lab, y, z, a, d, red, p);
      assert p !in red && z.m.Keys == h.m.Keys by {
        assert Child(h.m[c], !d) != 0 ==> NodeOk(h, lab, Child(h.m[c], !d));
      }
      if s != 0 {
        assert NodeOk(h, lab, s) && s != c && s != Child(h.m[c], !d) && s != a;
        SlotAfter(h, lab, y, z, a, d, red, s);
        assert Height(zl, s) == Height(lab, s) && z.m[s].red == h.m[s].red;
        assert f.red == s ==> g.red == s;
      }
      var dir := h.m[p].r == a;
      assert Child(h.m[p], dir) == a && Child(h.m[p], !dir) == s && Child(z.m[p], dir) == c && Child(z.m[p], !dir) == s;
      assert f.deficit == p <==> g.deficit == p;
      assert s in z.m <==> s in h.m;
      hide RotatedAt, Recolored, Shape, Colours, RotatedLabels, NodeOk, FlawMoves;
      ChildSwapped(h, lab, z, zl, f, g, p, dir, a, c);
    }
  }

  /** One child gives its place to another of the same height, no redder. */
  lemma ChildSwapped(h: Heap, lab: Labels, z: Heap, zl: Labels, f: Flaw, g: Flaw, p: nat, dir: bool, a: nat, c: nat)
    requires p in h.m && p in z.m && RedOk(h, p, f) && HeightOk(h, lab, p, f) && z.m[p].red == h.m[p].red
    requires Child(h.m[p], dir) == a && Child(z.m[p], dir) == c && Child(h.m[p], !dir) == Child(z.m[p], !dir)
    requires a in h.m && c in z.m && (z.m[c].red ==> h.m[a].red && (a == f.red ==> c == g.red))
    requires p in zl.bh && zl.bh[p] == lab.bh[p] && Height(zl, c) == Height(lab, a)
    requires var s := Child(h.m[p], !dir);
             Height(zl, s) == Height(lab, s) && (s in z.m && z.m[s].red ==> s in h.m && h.m[s].red && (s == f.red ==> s == g.red))
    requires (f.deficit == p <==> g.deficit == p) && (f.deficit == p ==> f.dir == g.dir)
    ensures RedOk(z, p, g) && HeightOk(z, zl, p, g)
  {
    if dir { assert h.m[p].r == a && z.m[p].r == c && z.m[p].l == h.m[p].l; }
    else { assert h.m[p].l == a && z.m[p].l == c && z.m[p].r == h.m[p].r; }
  }

  lemma HeightsKnown(h: Heap, lab: Labels, f: Flaw)
    requires Colours(h, lab, f)
    ensures forall n :: n in h.m ==> n in lab.bh
  {
    forall n | n in h.m ensures n in lab.bh {
      assert HeightOk(h, lab, n, f);
    }
  }

  /** The far child of the node going up keeps its children. */
  lemma EChildren(h: Heap, lab: Labels, z: Heap, a: nat, d: bool, e: nat, c: nat)
    requires Shape(h, lab) && 0 !in h.m && a in h.m && c in h.m && c == Child(h.m[a], !d) && e == Child(h.m[c], !d) && e in h.m
    requires RotatedAt(h, z, a, d)
    ensures e in z.m && z.m[e] == h.m[e]
    ensures forall k :: k == h.m[e].l || k == h.m[e].r ==> k != a && k != c && (k in h.m ==> z.m[k].red == h.m[k].red)
  {
    RotNodes(h, lab, a, d);
    RotateKeys(h, z, a, d);
    assert NodeOk(h, lab, e) && NodeOk(h, lab, c) && NodeOk(h, lab, a);
    var l, r := h.m[e].l, h.m[e].r;
    assert l != 0 ==> NodeOk(h, lab, l);
    assert r != 0 ==> NodeOk(h, lab, r);
    var mid, p := Child(h.m[c], d), h.m[a].parent;
    assert mid != 0 ==> NodeOk(h, lab, mid);
    assert p != 0 ==> NodeOk(h, lab, p);
  }

  /** The links of the two moved nodes, after a change of colours. */
  lemma MovedLinks(h: Heap, lab: Labels, y: Heap, z: Heap, a: nat, d: bool, red: map<nat, bool>)
    requires Shape(h, lab) && 0 !in h.m && a in h.m && Child(h.m[a], !d) in h.m
    requires RotatedAt(h, y, a, d) && Recolored(y, z, red)
    ensures var c := Child(h.m[a], !d);
            && z.m.Keys == h.m.Keys && c in z.m && a in z.m
            && Child(z.m[a], d) == Child(h.m[a], d) && Child(z.m[a], !d) == Child(h.m[c], d)
            && Child(z.m[c], d) == a && Child(z.m[c], !d) == Child(h.m[c], !d)
  {
    RotNodes(h, lab, a, d);
    var c := Child(h.m[a], !d);
    assert z.m[a].l == y.m[a].l && z.m[a].r == y.m[a].r && z.m[c].l == y.m[c].l && z.m[c].r == y.m[c].r;
    hide Shape, Recolored;
  }

  lemma TurnRotated(h: Heap, lab: Labels, f: Flaw, up: nat, prev: nat, d: bool)
    requires Colours(h, lab, f) && up in h.m && prev in h.m && Child(h.m[up], !d) == prev && up in lab.lo && up in lab.hi
    ensures RotatedLabels(h, lab, TurnLabels(h, lab, up, prev, d), up, d)
  {
    HeightsKnown(h, lab, f);
  }

  /** What rbtree_check demands of the whole tree, starting at the top with a red
      parent colour. */
  lemma TreeChecks(h: Heap, lab: Labels)
    requires Inv(h, lab, NoFlaw)
    ensures RbtreeCheck(h, lab, h.top, 0, true)
  {
    if h.top != 0 { assert NodeOk(h, lab, h.top); }
    InvChecks(h, lab, h.top, true);
  }
}
