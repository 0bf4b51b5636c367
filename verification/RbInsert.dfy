/** The steps of an insertion: a new leaf, and the repair of two reds in a row. */
module RbInsert {
  import opened RbShape

  function RedAt(n: nat): Flaw {
    Flaw(n, 0, false)
  }

  /** A red node below a black one is no flaw. */
  lemma NoFlawBelowBlack(h: Heap, lab: Labels, n: nat)
    requires Inv(h, lab, RedAt(n)) && n in h.m
    requires if h.m[n].parent in h.m then !h.m[h.m[n].parent].red else !h.m[n].red
    ensures Inv(h, lab, NoFlaw)
  {
    assert NodeOk(h, lab, n);
    forall k | k in h.m ensures RedOk(h, k, NoFlaw) && HeightOk(h, lab, k, NoFlaw) {
      assert NodeOk(h, lab, k) && RedOk(h, k, RedAt(n)) && HeightOk(h, lab, k, RedAt(n));
    }
  }

  /** The labels of a new leaf below prev. */
  function LeafLabels(h: Heap, lab: Labels, id: nat, prev: nat, dir: bool, height: nat): Labels {
    Labels(lab.lo[id := if prev !in h.m || prev !in lab.lo then LO else if dir then h.m[prev].key else lab.lo[prev]],
           lab.hi[id := if prev !in h.m || prev !in lab.hi then HI else if dir then lab.hi[prev] else h.m[prev].key],
           lab.bh[id := height])
  }

  /** A new leaf where a search for its key ended. */
  lemma AttachLeaf(h: Heap, lab: Labels, id: nat, key: Key, prev: nat, dir: bool)
    requires Inv(h, lab, NoFlaw) && id != 0 && id !in h.m && prev in h.m && Child(h.m[prev], dir) == 0
    requires prev in lab.lo && prev in lab.hi && lab.lo[prev] < key < lab.hi[prev] && key != h.m[prev].key
    requires dir <==> h.m[prev].key < key
    ensures var z := Heap(h.top, h.m[prev := WithChild(h.m[prev], dir, id)][id := Slot(key, 0, 0, prev, true)]);
            Inv(z, LeafLabels(h, lab, id, prev, dir, 0), RedAt(id)) && Keys(z) == Keys(h) + {key}
  {
    var z := Heap(h.top, h.m[prev := WithChild(h.m[prev], dir, id)][id := Slot(key, 0, 0, prev, true)]);
    var zl := LeafLabels(h, lab, id, prev, dir, 0);
    assert NodeOk(h, lab, prev);
    forall n | n in z.m ensures NodeOk(z, zl, n) && RedOk(z, n, RedAt(id)) && HeightOk(z, zl, n, RedAt(id)) {
      AttachedNode(h, lab, id, key, prev, dir, n);
    }
    if h.top in h.m { assert NodeOk(h, lab, h.top); }
    AttachedKeys(h, z, id, key, prev, dir);
  }

  lemma AttachedKeys(h: Heap, z: Heap, id: nat, key: Key, prev: nat, dir: bool)
    requires id !in h.m && prev in h.m
    requires z.m == h.m[prev := WithChild(h.m[prev], dir, id)][id := Slot(key, 0, 0, prev, true)]
    ensures Keys(z) == Keys(h) + {key}
  {
    forall k ensures k in Keys(z) <==> k in Keys(h) + {key} {
      if n :| n in h.m && h.m[n].key == k { assert z.m[n].key == k; }
      if n :| n in z.m && z.m[n].key == k { assert n == id || h.m[n].key == k; }
      if k == key { assert z.m[id].key == k; }
    }
  }

  lemma AttachedNode(h: Heap, lab: Labels, id: nat, key: Key, prev: nat, dir: bool, n: nat)
    requires Inv(h, lab, NoFlaw) && id != 0 && id !in h.m && prev in h.m && Child(h.m[prev], dir) == 0
    requires prev in lab.lo && prev in lab.hi && lab.lo[prev] < key < lab.hi[prev] && key != h.m[prev].key
    requires dir <==> h.m[prev].key < key
    requires n in h.m || n == id
    ensures var z := Heap(h.top, h.m[prev := WithChild(h.m[prev], dir, id)][id := Slot(key, 0, 0, prev, true)]);
            var zl := LeafLabels(h, lab, id, prev, dir, 0);
            n in z.m && NodeOk(z, zl, n) && RedOk(z, n, RedAt(id)) && HeightOk(z, zl, n, RedAt(id))
  {
    assert NodeOk(h, lab, prev);
    if n in h.m {
      assert NodeOk(h, lab, n) && RedOk(h, n, NoFlaw) && HeightOk(h, lab, n, NoFlaw);
      if n == prev { AttachedParent(h, lab, id, key, prev, dir); } else { AttachedOther(h, lab, id, key, prev, dir, n); }
    }
  }

  lemma AttachedParent(h: Heap, lab: Labels, id: nat, key: Key, prev: nat, dir: bool)
    requires Inv(h, lab, NoFlaw) && id != 0 && id !in h.m && prev in h.m && Child(h.m[prev], dir) == 0
    requires prev in lab.lo && prev in lab.hi && lab.lo[prev] < key < lab.hi[prev] && key != h.m[prev].key
    requires dir <==> h.m[prev].key < key
    ensures var z := Heap(h.top, h.m[prev := WithChild(h.m[prev], dir, id)][id := Slot(key, 0, 0, prev, true)]);
            var zl := LeafLabels(h, lab, id, prev, dir, 0);
            prev in z.m && NodeOk(z, zl, prev) && RedOk(z, prev, RedAt(id)) && HeightOk(z, zl, prev, RedAt(id))
  {
    assert NodeOk(h, lab, prev) && RedOk(h, prev, NoFlaw) && HeightOk(h, lab, prev, NoFlaw);
    var k, p := Child(h.m[prev], !dir), h.m[prev].parent;
    assert k != 0 ==> NodeOk(h, lab, k) && k != prev;
    assert p != 0 ==> NodeOk(h, lab, p) && p != prev;
    hide Shape, Colours;
    if dir {
      assert k == h.m[prev].l;
    } else {
      assert k == h.m[prev].r;
    }
  }

  lemma AttachedOther(h: Heap, lab: Labels, id: nat, key: Key, prev: nat, dir: bool, n: nat)
    requires Inv(h, lab, NoFlaw) && id != 0 && id !in h.m && prev in h.m && Child(h.m[prev], dir) == 0
    requires prev in lab.lo && prev in lab.hi && lab.lo[prev] < key < lab.hi[prev] && key != h.m[prev].key
    requires dir <==> h.m[prev].key < key
    requires n in h.m && n != prev
    ensures var z := Heap(h.top, h.m[prev := WithChild(h.m[prev], dir, id)][id := Slot(key, 0, 0, prev, true)]);
            var zl := LeafLabels(h, lab, id, prev, dir, 0);
            n in z.m && NodeOk(z, zl, n) && RedOk(z, n, RedAt(id)) && HeightOk(z, zl, n, RedAt(id))
  {
    var z := Heap(h.top, h.m[prev := WithChild(h.m[prev], dir, id)][id := Slot(key, 0, 0, prev, true)]);
    var zl := LeafLabels(h, lab, id, prev, dir, 0);
    assert NodeOk(h, lab, n) && RedOk(h, n, NoFlaw) && HeightOk(h, lab, n, NoFlaw);
    var l, r, p := h.m[n].l, h.m[n].r, h.m[n].parent;
    assert z.m[n] == h.m[n];
    assert l != 0 ==> NodeOk(h, lab, l) && z.m[l].parent == h.m[l].parent && z.m[l].red == h.m[l].red;
    assert r != 0 ==> NodeOk(h, lab, r) && z.m[r].parent == h.m[r].parent && z.m[r].red == h.m[r].red;
    assert p != 0 ==> NodeOk(h, lab, p) && p in z.m && (h.m[p].l == n ==> z.m[p].l == n) && (h.m[p].r == n ==> z.m[p].r == n);
    hide Shape, Colours, WithChild;
  }

  lemma FirstNode(h: Heap, lab: Labels, id: nat, key: Key)
    requires Inv(h, lab, NoFlaw) && id != 0 && h.top == 0
    ensures var z := Heap(id, map[id := Slot(key, 0, 0, 0, false)]);
            h.m == map[] && Inv(z, LeafLabels(h, lab, id, 0, false, 1), NoFlaw) && Keys(z) == {key}
  {
    if n :| n in h.m {
      EveryNodeFound(h, lab, n);
    }
    var z := Heap(id, map[id := Slot(key, 0, 0, 0, false)]);
    assert h.m == map[];
    var zl := LeafLabels(h, lab, id, 0, false, 1);
    forall n | n in z.m ensures NodeOk(z, zl, n) && RedOk(z, n, NoFlaw) && HeightOk(z, zl, n, NoFlaw) {
    }
    assert z.m[id].key == key;
  }

  /** Two red nodes in a row with a red uncle: the situation of one round of the loop. */
  predicate RedPair(h: Heap, lab: Labels, node: nat, prev: nat, up: nat, pd: bool) {
    && Inv(h, lab, RedAt(node)) && node in h.m && prev in h.m && up in h.m
    && h.m[node].red && h.m[node].parent == prev && h.m[prev].red && h.m[prev].parent == up
    && Child(h.m[up], pd) == prev
  }

  lemma RedPairFacts(h: Heap, lab: Labels, node: nat, prev: nat, up: nat, pd: bool)
    requires RedPair(h, lab, node, prev, up, pd)
    ensures NodeOk(h, lab, node) && NodeOk(h, lab, prev) && NodeOk(h, lab, up) && !h.m[up].red
    ensures node != prev && node != up && prev != up && node != 0 && prev != 0
    ensures RedOk(h, node, RedAt(node)) && RedOk(h, prev, RedAt(node)) && RedOk(h, up, RedAt(node))
    ensures HeightOk(h, lab, node, RedAt(node)) && HeightOk(h, lab, prev, RedAt(node)) && HeightOk(h, lab, up, RedAt(node))
    ensures var s := Child(h.m[up], !pd);
            s != 0 ==> s in h.m && NodeOk(h, lab, s) && s != prev && s != up && s != node && h.m[s].parent == up
                       && RedOk(h, s, RedAt(node)) && HeightOk(h, lab, s, RedAt(node))
  {
    assert NodeOk(h, lab, node) && NodeOk(h, lab, prev) && NodeOk(h, lab, up);
    assert RedOk(h, node, RedAt(node)) && RedOk(h, prev, RedAt(node)) && RedOk(h, up, RedAt(node));
    assert HeightOk(h, lab, node, RedAt(node)) && HeightOk(h, lab, prev, RedAt(node)) && HeightOk(h, lab, up, RedAt(node));
    var s := Child(h.m[up], !pd);
    if s != 0 {
      assert NodeOk(h, lab, s) && RedOk(h, s, RedAt(node)) && HeightOk(h, lab, s, RedAt(node));
    }
  }

  /** A red uncle: both are made black, the grandparent red, and the pair moves up. */
  lemma RedUncle(h: Heap, lab: Labels, z: Heap, node: nat, prev: nat, up: nat, pd: bool)
    requires RedPair(h, lab, node, prev, up, pd)
    requires var s := Child(h.m[up], !pd);
             s in h.m && h.m[s].red && Recolored(h, z, map[prev := false, s := false, up := true])
    ensures var s := Child(h.m[up], !pd);
            Inv(z, UncleLabels(h, lab, prev, s), RedAt(up)) && Keys(z) == Keys(h) && z.m.Keys == h.m.Keys
  {
    RedPairFacts(h, lab, node, prev, up, pd);
    var s := Child(h.m[up], !pd);
    var red := map[prev := false, s := false, up := true];
    var zl := UncleLabels(h, lab, prev, s);
    RecolorShape(h, lab, z, red);
    SameShape(z, lab, zl);
    forall n | n in z.m ensures RedOk(z, n, RedAt(up)) && HeightOk(z, zl, n, RedAt(up)) {
      RedUncleNode(h, lab, z, node, prev, up, pd, n);
    }
    if h.top in h.m {
      assert NodeOk(h, lab, h.top);
    }
  }

  function UncleLabels(h: Heap, lab: Labels, prev: nat, s: nat): Labels {
    lab.(bh := lab.bh[prev := Height(lab, prev) + 1][s := Height(lab, s) + 1])
  }

  lemma RedUncleNode(h: Heap, lab: Labels, z: Heap, node: nat, prev: nat, up: nat, pd: bool, n: nat)
    requires RedPair(h, lab, node, prev, up, pd)
    requires var s := Child(h.m[up], !pd);
             s in h.m && h.m[s].red && Recolored(h, z, map[prev := false, s := false, up := true])
    requires n in h.m
    ensures n in z.m && RedOk(z, n, RedAt(up)) && HeightOk(z, UncleLabels(h, lab, prev, Child(h.m[up], !pd)), n, RedAt(up))
  {
    RedPairFacts(h, lab, node, prev, up, pd);
    if n == prev || n == Child(h.m[up], !pd) || n == up { RedUncleNear(h, lab, z, node, prev, up, pd, n); }
    else { RedUncleFar(h, lab, z, node, prev, up, pd, n); }
  }

  lemma RedUncleNear(h: Heap, lab: Labels, z: Heap, node: nat, prev: nat, up: nat, pd: bool, n: nat)
    requires RedPair(h, lab, node, prev, up, pd)
    requires var s := Child(h.m[up], !pd);
             s in h.m && h.m[s].red && Recolored(h, z, map[prev := false, s := false, up := true])
    requires n == prev || n == Child(h.m[up], !pd) || n == up
    ensures n in z.m && RedOk(z, n, RedAt(up)) && HeightOk(z, UncleLabels(h, lab, prev, Child(h.m[up], !pd)), n, RedAt(up))
  {
    RedPairFacts(h, lab, node, prev, up, pd);
    var s, f := Child(h.m[up], !pd), RedAt(node);
    var zl := UncleLabels(h, lab, prev, s);
    assert z.m[prev] == h.m[prev].(red := false) && z.m[s] == h.m[s].(red := false) && z.m[up] == h.m[up].(red := true);
    ColoursOf(h, lab, n, f, pd);
    ColoursOf(h, lab, up, f, pd);
    var l, r := Child(h.m[n], pd), Child(h.m[n], !pd);
    assert ChildOk(h, lab, n, pd) && ChildOk(h, lab, n, !pd);
    assert Child(z.m[n], pd) == l && Child(z.m[n], !pd) == r && n in zl.bh && n != 0;
    assert n != up ==> l != prev && l != s && r != prev && r != s;
    assert n != up ==> Height(zl, l) == Height(lab, l) && Height(zl, r) == Height(lab, r);
    hide Shape, Colours, Recolored, NodeOk, ChildOk, RedOk, HeightOk;
    NodeColours(z, zl, n, RedAt(up), pd);
  }

  lemma RedUncleFar(h: Heap, lab: Labels, z: Heap, node: nat, prev: nat, up: nat, pd: bool, n: nat)
    requires RedPair(h, lab, node, prev, up, pd)
    requires var s := Child(h.m[up], !pd);
             s in h.m && h.m[s].red && Recolored(h, z, map[prev := false, s := false, up := true])
    requires n in h.m && n != prev && n != Child(h.m[up], !pd) && n != up
    ensures n in z.m && RedOk(z, n, RedAt(up)) && HeightOk(z, UncleLabels(h, lab, prev, Child(h.m[up], !pd)), n, RedAt(up))
  {
    RedPairFacts(h, lab, node, prev, up, pd);
    var s := Child(h.m[up], !pd);
    var zl := UncleLabels(h, lab, prev, s);
    assert NodeOk(h, lab, n) && RedOk(h, n, RedAt(node)) && HeightOk(h, lab, n, RedAt(node));
    assert z.m[n] == h.m[n];
    forall dir
      ensures var k := Child(h.m[n], dir);
        Height(zl, k) == Height(lab, k) && (k in z.m && z.m[k].red && k != up ==> h.m[k].red && k != node)
    {
      var k := Child(h.m[n], dir);
      assert ChildOk(h, lab, n, dir);
      if k != 0 {
        assert NodeOk(h, lab, k) && k != prev && k != s && k != node;
        assert k != up ==> z.m[k] == h.m[k];
      }
    }
    hide Shape, Colours, Recolored, NodeOk, ChildOk;
    FarColours(h, lab, z, zl, RedAt(node), up, n);
  }

  /** A node whose child turned red is no flaw but that one. */
  lemma FarColours(h: Heap, lab: Labels, z: Heap, zl: Labels, f: Flaw, up: nat, n: nat)
    requires n in h.m && n in z.m && z.m[n] == h.m[n] && RedOk(h, n, f) && HeightOk(h, lab, n, f) && f.deficit == 0 && n != 0
    requires n in zl.bh && zl.bh[n] == lab.bh[n] && z.m.Keys == h.m.Keys
    requires forall dir :: var k := Child(h.m[n], dir);
      Height(zl, k) == Height(lab, k) && (k in z.m && z.m[k].red && k != up ==> h.m[k].red && k != f.red)
    ensures RedOk(z, n, RedAt(up)) && HeightOk(z, zl, n, RedAt(up))
  {
    assert Child(h.m[n], false) == h.m[n].l && Child(h.m[n], true) == h.m[n].r;
  }

  /** The inner case: a rotation below the grandparent turns it into the outer case. */
  lemma InnerTurn(h: Heap, lab: Labels, z: Heap, node: nat, prev: nat, up: nat, pd: bool)
    requires RedPair(h, lab, node, prev, up, pd) && Child(h.m[prev], !pd) == node && prev in lab.lo && prev in lab.hi
    requires RotatedAt(h, z, prev, pd)
    ensures RedPair(z, RotLabels(h, lab, prev, pd), prev, node, up, pd) && Child(z.m[node], pd) == prev
    ensures Keys(z) == Keys(h) && z.m.Keys == h.m.Keys
  {
    RedPairFacts(h, lab, node, prev, up, pd);
    RotNodes(h, lab, prev, pd);
    var zl := RotLabels(h, lab, prev, pd);
    assert Recolored(z, z, map[]);
    var mid, e := Child(h.m[node], pd), Child(h.m[node], !pd);
    var b := Child(h.m[prev], pd);
    assert mid != 0 ==> NodeOk(h, lab, mid);
    assert e != 0 ==> NodeOk(h, lab, e) && RedOk(h, e, RedAt(node)) && HeightOk(h, lab, e, RedAt(node)) && e != up && e != prev && e != node && e != mid;
    assert b != 0 ==> NodeOk(h, lab, b) && b != node && b != prev && b != up && b != mid;
    assert e != 0 ==> z.m[e] == h.m[e];
    assert b != 0 ==> z.m[b] == h.m[b];
    InnerTurnColours(h, lab, z, node, prev, up, pd);
    HeightsKnown(h, lab, RedAt(node));
    RotateColours(h, lab, z, z, zl, prev, pd, map[], RedAt(node), RedAt(prev));
  }

  lemma InnerTurnColours(h: Heap, lab: Labels, z: Heap, node: nat, prev: nat, up: nat, pd: bool)
    requires RedPair(h, lab, node, prev, up, pd) && Child(h.m[prev], !pd) == node && prev in lab.lo && prev in lab.hi
    requires RotatedAt(h, z, prev, pd)
    ensures var zl := RotLabels(h, lab, prev, pd); var e := Child(h.m[node], !pd); var g := RedAt(prev);
            && prev in z.m && node in z.m && RedOk(z, prev, g) && HeightOk(z, zl, prev, g)
            && RedOk(z, node, g) && HeightOk(z, zl, node, g)
            && (e != 0 ==> e in z.m && RedOk(z, e, g) && HeightOk(z, zl, e, g))
            && zl.bh[node] == lab.bh[prev]
  {
    RedPairFacts(h, lab, node, prev, up, pd);
    RotNodes(h, lab, prev, pd);
    RotateKeys(h, z, prev, pd);
    var mid, e := Child(h.m[node], pd), Child(h.m[node], !pd);
    var b := Child(h.m[prev], pd);
    var zl, f, g := RotLabels(h, lab, prev, pd), RedAt(node), RedAt(prev);
    ColoursOf(h, lab, node, f, pd);
    ColoursOf(h, lab, prev, f, pd);
    assert mid != 0 ==> NodeOk(h, lab, mid) && mid != node && mid != prev;
    assert b != 0 ==> NodeOk(h, lab, b) && b != node && b != prev && b != mid;
    if e != 0 {
      assert NodeOk(h, lab, e) && RedOk(h, e, f) && HeightOk(h, lab, e, f) && e != node && e != prev;
      EChildren(h, lab, z, prev, pd, e, node);
      ColoursOf(h, lab, e, f, pd);
    }
    assert Child(z.m[prev], pd) == b && Child(z.m[prev], !pd) == mid;
    assert Child(z.m[node], pd) == prev && Child(z.m[node], !pd) == e;
    assert node in lab.bh && prev in lab.bh && (e != 0 ==> e in lab.bh);
    assert e != 0 ==> Child(h.m[e], pd) != node && Child(h.m[e], !pd) != node;
    hide Shape, Colours, RotatedAt, NodeOk, RedOk, HeightOk;
    NodeColours(z, zl, prev, g, pd);
    NodeColours(z, zl, node, g, pd);
    if e != 0 { NodeColours(z, zl, e, g, pd); }
  }

  /** The outer case: a rotation at the grandparent ends it. */
  lemma OuterTurn(h: Heap, lab: Labels, y: Heap, z: Heap, node: nat, prev: nat, up: nat, pd: bool)
    requires RedPair(h, lab, node, prev, up, pd) && Child(h.m[prev], pd) == node && up in lab.lo && up in lab.hi
    requires Child(h.m[up], !pd) in h.m ==> !h.m[Child(h.m[up], !pd)].red
    requires RotatedAt(h, y, up, !pd) && Recolored(y, z, map[up := true, prev := false])
    ensures Inv(z, TurnLabels(h, lab, up, prev, !pd), NoFlaw) && Keys(z) == Keys(h) && z.m.Keys == h.m.Keys
  {
    RedPairFacts(h, lab, node, prev, up, pd);
    var zl, red := TurnLabels(h, lab, up, prev, !pd), map[up := true, prev := false];
    OuterTurnMoved(h, lab, y, z, node, prev, up, pd);
    OuterTurnNode(h, lab, y, z, node, prev, up, pd);
    HeightsKnown(h, lab, RedAt(node));
    RotateColours(h, lab, y, z, zl, up, !pd, red, RedAt(node), NoFlaw);
  }

  lemma OuterTurnMoved(h: Heap, lab: Labels, y: Heap, z: Heap, node: nat, prev: nat, up: nat, pd: bool)
    requires RedPair(h, lab, node, prev, up, pd) && Child(h.m[prev], pd) == node && up in lab.lo && up in lab.hi
    requires Child(h.m[up], !pd) in h.m ==> !h.m[Child(h.m[up], !pd)].red
    requires RotatedAt(h, y, up, !pd) && Recolored(y, z, map[up := true, prev := false])
    ensures var zl := TurnLabels(h, lab, up, prev, !pd);
            && up in z.m && prev in z.m && !z.m[prev].red && up in lab.bh && prev in zl.bh && zl.bh[prev] == lab.bh[up]
            && RedOk(z, up, NoFlaw) && HeightOk(z, zl, up, NoFlaw)
            && RedOk(z, prev, NoFlaw) && HeightOk(z, zl, prev, NoFlaw)
  {
    var zl, red := TurnLabels(h, lab, up, prev, !pd), map[up := true, prev := false];
    OuterTurnNumbers(h, lab, node, prev, up, pd);
    MovedLinks(h, lab, y, z, up, !pd, red);
    var mid, s := Child(h.m[prev], !pd), Child(h.m[up], !pd);
    SlotAfter(h, lab, y, z, up, !pd, red, up);
    SlotAfter(h, lab, y, z, up, !pd, red, prev);
    if mid != 0 { SlotAfter(h, lab, y, z, up, !pd, red, mid); }
    if s != 0 { SlotAfter(h, lab, y, z, up, !pd, red, s); }
    hide Shape, Colours, Recolored, RotatedAt, NodeOk, RedOk, HeightOk, Child;
    NodeColours(z, zl, up, NoFlaw, pd);
    NodeColours(z, zl, prev, NoFlaw, pd);
  }

  lemma OuterTurnNumbers(h: Heap, lab: Labels, node: nat, prev: nat, up: nat, pd: bool)
    requires RedPair(h, lab, node, prev, up, pd) && Child(h.m[prev], pd) == node && up in lab.lo && up in lab.hi
    requires Child(h.m[up], !pd) in h.m ==> !h.m[Child(h.m[up], !pd)].red
    ensures var zl := TurnLabels(h, lab, up, prev, !pd); var mid, s := Child(h.m[prev], !pd), Child(h.m[up], !pd);
            && up != prev && up != 0 && prev != 0 && up in lab.bh && 0 !in h.m
            && (mid != 0 ==> mid in h.m && !h.m[mid].red && mid != up && mid != prev)
            && (s != 0 ==> s in h.m && !h.m[s].red && s != up && s != prev)
            && Height(zl, mid) == Height(zl, s) == Height(zl, node) == Height(lab, prev)
            && up in zl.bh && zl.bh[up] == Height(lab, prev) && prev in zl.bh && zl.bh[prev] == lab.bh[up] == Height(lab, prev) + 1
  {
    RedPairFacts(h, lab, node, prev, up, pd);
    var f, mid := RedAt(node), Child(h.m[prev], !pd);
    ColoursOf(h, lab, prev, f, pd);
    ColoursOf(h, lab, up, f, pd);
    assert mid != 0 ==> NodeOk(h, lab, mid) && mid != node;
    hide Shape, Colours, RedOk, HeightOk;
  }

  lemma FarNodeColours(h: Heap, lab: Labels, y: Heap, z: Heap, node: nat, prev: nat, up: nat, pd: bool)
    requires up in h.m && Child(h.m[up], pd) in h.m && up in lab.lo && up in lab.hi && node in h.m && node in lab.bh
    requires y.m.Keys == h.m.Keys && y.m[node] == h.m[node] && Recolored(y, z, map[up := true, prev := false])
    requires node != up && node != prev && node != 0
    requires var l, r := h.m[node].l, h.m[node].r;
             && l != prev && l != up && l != node && r != prev && r != up && r != node
             && (l in h.m ==> y.m[l].red == h.m[l].red) && (r in h.m ==> y.m[r].red == h.m[r].red)
             && (h.m[node].red ==> !(l in h.m && h.m[l].red) && !(r in h.m && h.m[r].red))
             && Height(lab, l) == Height(lab, r) && lab.bh[node] == Height(lab, l) + if h.m[node].red then 0 else 1
    ensures node in z.m && RedOk(z, node, NoFlaw) && HeightOk(z, TurnLabels(h, lab, up, prev, !pd), node, NoFlaw)
  {
    var l, r := h.m[node].l, h.m[node].r;
    UntouchedColour(y, z, map[up := true, prev := false], node);
    if l in h.m { UntouchedColour(y, z, map[up := true, prev := false], l); }
    if r in h.m { UntouchedColour(y, z, map[up := true, prev := false], r); }
    hide Recolored;
    NodeColours(z, TurnLabels(h, lab, up, prev, !pd), node, NoFlaw, false);
  }

  lemma OuterTurnNode(h: Heap, lab: Labels, y: Heap, z: Heap, node: nat, prev: nat, up: nat, pd: bool)
    requires RedPair(h, lab, node, prev, up, pd) && Child(h.m[prev], pd) == node && up in lab.lo && up in lab.hi
    requires RotatedAt(h, y, up, !pd) && Recolored(y, z, map[up := true, prev := false])
    ensures node in z.m && RedOk(z, node, NoFlaw) && HeightOk(z, TurnLabels(h, lab, up, prev, !pd), node, NoFlaw)
  {
    RedPairFacts(h, lab, node, prev, up, pd);
    EChildren(h, lab, y, up, !pd, node, prev);
    ColoursOf(h, lab, node, RedAt(node), false);
    var l, r := h.m[node].l, h.m[node].r;
    assert Child(h.m[node], false) == l && Child(h.m[node], true) == r;
    assert (l != 0 ==> l in h.m && l != node) && (r != 0 ==> r in h.m && r != node);
    assert y.m.Keys == h.m.Keys && node in lab.bh;
    hide RotatedAt, Shape, Colours, NodeOk, RedOk, HeightOk, Child, RedPair;
    FarNodeColours(h, lab, y, z, node, prev, up, pd);
  }

  /** The topmost node can always be black. */
  lemma BlackTop(h: Heap, lab: Labels, z: Heap, n: nat)
    requires Inv(h, lab, RedAt(n)) && n in h.m && h.m[n].red && h.m[n].parent == 0
    requires z == Heap(h.top, h.m[n := h.m[n].(red := false)])
    ensures Inv(z, lab.(bh := lab.bh[n := Height(lab, n) + 1]), NoFlaw) && Keys(z) == Keys(h)
  {
    var zl := lab.(bh := lab.bh[n := Height(lab, n) + 1]);
    assert NodeOk(h, lab, n);
    assert Recolored(h, z, map[n := false]);
    RecolorShape(h, lab, z, map[n := false]);
    SameShape(z, lab, zl);
    forall k | k in z.m ensures RedOk(z, k, NoFlaw) && HeightOk(z, zl, k, NoFlaw) {
      assert NodeOk(h, lab, k) && RedOk(h, k, RedAt(n)) && HeightOk(h, lab, k, RedAt(n));
    }
  }

  lemma RedPairIs(h: Heap, lab: Labels, node: nat, prev: nat)
    requires Inv(h, lab, RedAt(node)) && node in h.m && h.m[node].red && h.m[node].parent == prev
    requires prev in h.m && h.m[prev].red
    ensures var up := h.m[prev].parent;
            up in h.m && RedPair(h, lab, node, prev, up, h.m[up].r == prev) && prev in lab.lo && prev in lab.hi
            && up in lab.lo && up in lab.hi && node in lab.lo && node in lab.hi && Size(lab, node) < Size(lab, up) <= HI - LO
            && (Child(h.m[prev], true) == node || Child(h.m[prev], false) == node)
            && (Child(h.m[up], h.m[up].r != prev) != 0 ==> Child(h.m[up], h.m[up].r != prev) in h.m)
  {
    assert NodeOk(h, lab, node) && NodeOk(h, lab, prev) && RedOk(h, prev, RedAt(node));
    assert NodeOk(h, lab, h.m[prev].parent);
  }

  /** The first rotation changes neither the uncle nor the grandparent's labels. */
  lemma UncleStays(h: Heap, z: Heap, prev: nat, pd: bool, up: nat, node: nat)
    requires prev in h.m && Child(h.m[prev], !pd) in h.m && RotatedAt(h, z, prev, pd) && up in h.m && up != 0
    requires h.m[prev].parent == up && Child(h.m[up], pd) == prev && node == Child(h.m[prev], !pd)
    requires 0 !in h.m && up != prev && up != node && h.m[up].l != h.m[up].r
    ensures Child(z.m[up], !pd) == Child(h.m[up], !pd)
    ensures Child(z.m[up], !pd) in z.m ==> z.m[Child(z.m[up], !pd)].red == h.m[Child(h.m[up], !pd)].red
  {
    RotateKeys(h, z, prev, pd);
    assert z.m[up] == Replace(h.m[up], prev, node);
  }
}
