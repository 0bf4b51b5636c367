/** The repair loop of a deletion (vtree_rebalance): paths through one child of a
    node are one black node short. */
module RbBalance {
  import opened RbShape

  /** The paths through child d of p are short; that child is black, or the one red node
      that may stay below a red p until p is black again. */
  predicate Short(h: Heap, lab: Labels, x: nat, p: nat, d: bool) {
    && Inv(h, lab, Flaw(x, p, d)) && p in h.m
    && (Child(h.m[p], d) in h.m && h.m[Child(h.m[p], d)].red ==> Child(h.m[p], d) == x)
    && (x != 0 ==> x == Child(h.m[p], d))
  }

  /** s is the sibling of the short place. */
  predicate Sib(h: Heap, lab: Labels, x: nat, p: nat, d: bool, s: nat) {
    Short(h, lab, x, p, d) && s == Child(h.m[p], !d) && s in h.m && s in lab.bh && p in lab.bh && p in lab.lo && p in lab.hi
  }

  /** There is a sibling, and it is one black node higher. */
  lemma ShortFacts(h: Heap, lab: Labels, x: nat, p: nat, d: bool)
    requires Short(h, lab, x, p, d)
    ensures var f, s := Flaw(x, p, d), Child(h.m[p], !d);
            && NodeOk(h, lab, p) && RedOk(h, p, f) && HeightOk(h, lab, p, f) && p != 0 && p in lab.bh
            && s != 0 && s in h.m && NodeOk(h, lab, s) && s != p && s != x && h.m[s].parent == p && s in lab.bh
            && RedOk(h, s, f) && HeightOk(h, lab, s, f) && (h.m[s].red ==> !h.m[p].red)
            && Height(lab, s) == Height(lab, Child(h.m[p], d)) + 1 && s != Child(h.m[p], d)
            && Height(lab, p) == Height(lab, s) + if h.m[p].red then 0 else 1
    ensures x != 0 ==> x in h.m && h.m[x].parent == p
  {
    var f, s := Flaw(x, p, d), Child(h.m[p], !d);
    assert NodeOk(h, lab, p) && RedOk(h, p, f) && HeightOk(h, lab, p, f);
    if d { assert s == h.m[p].l; } else { assert s == h.m[p].r; }
    if s != 0 { assert NodeOk(h, lab, s) && RedOk(h, s, f) && HeightOk(h, lab, s, f); }
    if Child(h.m[p], d) != 0 { assert NodeOk(h, lab, Child(h.m[p], d)); }
  }

  /** The children of the sibling. */
  lemma Nephews(h: Heap, lab: Labels, x: nat, p: nat, d: bool, dir: bool)
    requires Short(h, lab, x, p, d)
    ensures Child(h.m[p], !d) in h.m
    ensures var f, s := Flaw(x, p, d), Child(h.m[p], !d); var k := Child(h.m[s], dir);
            && (k != 0 ==> k in h.m && NodeOk(h, lab, k) && h.m[k].parent == s && k != p && k != s && k != x && k in lab.bh
                           && (x != 0 ==> h.m[k].l != x && h.m[k].r != x)
                           && k != Child(h.m[p], d) && RedOk(h, k, f) && HeightOk(h, lab, k, f) && (h.m[s].red ==> !h.m[k].red))
            && Height(lab, s) == Height(lab, k) + if h.m[s].red then 0 else 1
  {
    ShortFacts(h, lab, x, p, d);
    var f, s := Flaw(x, p, d), Child(h.m[p], !d);
    var k := Child(h.m[s], dir);
    ColoursOf(h, lab, s, f, dir);
    if k != 0 {
      assert NodeOk(h, lab, k) && RedOk(h, k, f) && HeightOk(h, lab, k, f);
      assert ChildOk(h, lab, k, false) && ChildOk(h, lab, k, true);
    }
    if Child(h.m[p], d) != 0 { assert NodeOk(h, lab, Child(h.m[p], d)); }
  }

  // ---------------------------------------------------------------- a red sibling

  /** A red sibling goes up; the short place now has a black one. */
  lemma RedSibling(h: Heap, lab: Labels, y: Heap, z: Heap, x: nat, p: nat, d: bool, s: nat)
    requires Sib(h, lab, x, p, d, s) && h.m[s].red
    requires RotatedAt(h, y, p, d) && Recolored(y, z, map[p := true, s := false])
    ensures Short(z, TurnLabels(h, lab, p, s, d), x, p, d) && Keys(z) == Keys(h) && z.m.Keys == h.m.Keys && z.m[p].red
    ensures Child(z.m[p], !d) == Child(h.m[s], d) && Child(z.m[p], !d) in z.m && !z.m[Child(z.m[p], !d)].red
  {
    var f, zl, red := Flaw(x, p, d), TurnLabels(h, lab, p, s, d), map[p := true, s := false];
    RedSiblingMoved(h, lab, y, z, x, p, d, s);
    TurnRotated(h, lab, f, p, s, d);
    RedSiblingFar(h, lab, y, z, x, p, d, s);
    ShortFacts(h, lab, x, p, d);
    hide Recolored, RedOk, HeightOk, NodeOk, Shape, Colours, RotatedLabels, TurnLabels, RotatedAt;
    RotateColours(h, lab, y, z, zl, p, d, red, f, f);
  }

  lemma RedSiblingFar(h: Heap, lab: Labels, y: Heap, z: Heap, x: nat, p: nat, d: bool, s: nat)
    requires Sib(h, lab, x, p, d, s)
    requires RotatedAt(h, y, p, d) && Recolored(y, z, map[p := true, s := false])
    ensures var e := Child(h.m[s], !d);
            e != 0 ==> e in z.m && RedOk(z, e, Flaw(x, p, d)) && HeightOk(z, TurnLabels(h, lab, p, s, d), e, Flaw(x, p, d))
  {
    Nephews(h, lab, x, p, d, !d);
    HeightsKnown(h, lab, Flaw(x, p, d));
    var e := Child(h.m[s], !d);
    if e != 0 {
      hide Shape, Colours, RotatedAt, Recolored, RedOk, HeightOk, NodeOk;
      FarKept(h, lab, y, z, TurnLabels(h, lab, p, s, d), p, d, map[p := true, s := false], Flaw(x, p, d), Flaw(x, p, d), e);
    }
  }

  lemma RedSiblingMoved(h: Heap, lab: Labels, y: Heap, z: Heap, x: nat, p: nat, d: bool, s: nat)
    requires Sib(h, lab, x, p, d, s) && h.m[s].red
    requires RotatedAt(h, y, p, d) && Recolored(y, z, map[p := true, s := false])
    ensures var f := Flaw(x, p, d); var zl := TurnLabels(h, lab, p, s, d);
            && p in z.m && s in z.m && !z.m[s].red && z.m[p].red && s in zl.bh && zl.bh[s] == lab.bh[p]
            && RedOk(z, p, f) && HeightOk(z, zl, p, f) && RedOk(z, s, f) && HeightOk(z, zl, s, f)
            && Child(z.m[p], !d) == Child(h.m[s], d) && Child(z.m[p], !d) in z.m && !z.m[Child(z.m[p], !d)].red
            && Child(z.m[p], d) == Child(h.m[p], d)
            && (Child(z.m[p], d) in z.m && z.m[Child(z.m[p], d)].red ==> Child(z.m[p], d) == x)
  {
    var f, zl, red := Flaw(x, p, d), TurnLabels(h, lab, p, s, d), map[p := true, s := false];
    RedSiblingNumbers(h, lab, x, p, d, s);
    MovedLinks(h, lab, y, z, p, d, red);
    SlotAfter(h, lab, y, z, p, d, red, s);
    SlotAfter(h, lab, y, z, p, d, red, p);
    var mid, b := Child(h.m[s], d), Child(h.m[p], d);
    SlotAfter(h, lab, y, z, p, d, red, mid);
    if b in h.m { SlotAfter(h, lab, y, z, p, d, red, b); }
    hide Shape, Colours, Recolored, RotatedAt, NodeOk, RedOk, HeightOk, Child;
    NodeColours(z, zl, s, f, d);
    ShortColours(z, zl, p, f);
  }

  lemma RedSiblingNumbers(h: Heap, lab: Labels, x: nat, p: nat, d: bool, s: nat)
    requires Sib(h, lab, x, p, d, s) && h.m[s].red
    ensures var zl := TurnLabels(h, lab, p, s, d); var mid, e, b := Child(h.m[s], d), Child(h.m[s], !d), Child(h.m[p], d);
            && p != s && p != 0 && s != 0 && mid != 0 && mid in h.m && !h.m[mid].red && mid != p && mid != s && !h.m[p].red
            && b != s && b != p && e != s && e != p && (b in h.m && h.m[b].red ==> b == x)
            && Height(zl, b) + 1 == Height(zl, mid) == Height(lab, s) == Height(zl, e)
            && p in zl.bh && zl.bh[p] == Height(lab, s) && s in zl.bh && zl.bh[s] == lab.bh[p] == Height(lab, s) + 1
  {
    ShortFacts(h, lab, x, p, d);
    Nephews(h, lab, x, p, d, d);
    Nephews(h, lab, x, p, d, !d);
    var b := Child(h.m[p], d);
    assert b != 0 ==> NodeOk(h, lab, b);
    hide Shape, Colours, RedOk, HeightOk;
  }

  /** A node one of whose sides is short, put together by direction. */
  lemma ShortColours(z: Heap, zl: Labels, p: nat, f: Flaw)
    requires p in z.m && p in zl.bh && f.deficit == p
    requires z.m[p].red ==> forall k :: k in z.m && z.m[k].red && (k == Child(z.m[p], f.dir) || k == Child(z.m[p], !f.dir)) ==> k == f.red
    requires Height(zl, Child(z.m[p], f.dir)) + 1 == Height(zl, Child(z.m[p], !f.dir))
    requires zl.bh[p] == Height(zl, Child(z.m[p], !f.dir)) + if z.m[p].red then 0 else 1
    ensures RedOk(z, p, f) && HeightOk(z, zl, p, f)
  {
  }

  /** The far child of the node going up, when its colour stays. */
  lemma FarKept(h: Heap, lab: Labels, y: Heap, z: Heap, zl: Labels, a: nat, d: bool, red: map<nat, bool>, f: Flaw, g: Flaw, e: nat)
    requires Shape(h, lab) && 0 !in h.m && a in h.m && Child(h.m[a], !d) in h.m && e in h.m
    requires e == Child(h.m[Child(h.m[a], !d)], !d) && RotatedAt(h, y, a, d) && Recolored(y, z, red)
    requires forall k :: k in red ==> k == a || k == Child(h.m[a], !d)
    requires RedOk(h, e, f) && HeightOk(h, lab, e, f) && f.deficit != e && g.deficit != e
    requires forall k :: k in h.m && k != a && k != Child(h.m[a], !d) ==> k in lab.bh && k in zl.bh && zl.bh[k] == lab.bh[k]
    requires f.red != 0 ==> h.m[e].l != f.red && h.m[e].r != f.red
    ensures e in z.m && RedOk(z, e, g) && HeightOk(z, zl, e, g)
  {
    var c := Child(h.m[a], !d);
    RotNodes(h, lab, a, d);
    EChildren(h, lab, y, a, d, e, c);
    assert NodeOk(h, lab, e) && NodeOk(h, lab, c) && e != a && e != c;
    UntouchedColour(y, z, red, e);
    var l, r := h.m[e].l, h.m[e].r;
    assert (l != 0 ==> l in h.m) && (r != 0 ==> r in h.m) && y.m.Keys == h.m.Keys;
    if l != 0 { UntouchedColour(y, z, red, l); }
    if r != 0 { UntouchedColour(y, z, red, r); }
    ColoursOf(h, lab, e, f, false);
    assert Child(h.m[e], false) == l && Child(h.m[e], true) == r && z.m[e] == h.m[e];
    assert Height(zl, l) == Height(lab, l) && Height(zl, r) == Height(lab, r);
    hide Shape, RotatedAt, Recolored, NodeOk, RedOk, HeightOk, Child;
    NodeColours(z, zl, e, g, false);
  }

  // ---------------------------------------------------------------- a black sibling with black children

  /** Labels when the sibling, and with it the node above, lose a black node. */
  function LowerLabels(lab: Labels, p: nat, s: nat, dp: bool): Labels {
    lab.(bh := lab.bh[s := Height(lab, s) - if Height(lab, s) > 0 then 1 else 0]
                     [p := Height(lab, p) - if dp && Height(lab, p) > 0 then 1 else 0])
  }

  /** The flaw when the shortage has moved to p itself. */
  function MovedUp(h: Heap, p: nat): Flaw
    requires p in h.m
  {
    var u := h.m[p].parent;
    if u in h.m then Flaw(0, u, h.m[u].r == p) else NoFlaw
  }

  /** The sibling turns red. A red p turns black and ends it; a black p is short now. */
  lemma BlackNephews(h: Heap, lab: Labels, z: Heap, x: nat, p: nat, d: bool, s: nat)
    requires Sib(h, lab, x, p, d, s) && !h.m[s].red
    requires forall dir :: Child(h.m[s], dir) in h.m ==> !h.m[Child(h.m[s], dir)].red
    requires Recolored(h, z, map[s := true, p := false])
    ensures var zl := LowerLabels(lab, p, s, !h.m[p].red); var g := if h.m[p].red then NoFlaw else MovedUp(h, p);
            Inv(z, zl, g) && Keys(z) == Keys(h) && z.m.Keys == h.m.Keys
  {
    var zl, g := LowerLabels(lab, p, s, !h.m[p].red), if h.m[p].red then NoFlaw else MovedUp(h, p);
    RecolorShape(h, lab, z, map[s := true, p := false]);
    SameShape(z, lab, zl);
    BlackNephewsTop(h, lab, z, x, p, d, s);
    hide NodeOk, RedOk, HeightOk, Recolored, Shape, MovedUp;
    forall n | n in z.m ensures RedOk(z, n, g) && HeightOk(z, zl, n, g) {
      if n == p || n == s { BlackNephewsNear(h, lab, z, x, p, d, s); }
      else if n == h.m[p].parent { BlackNephewsUp(h, lab, z, x, p, d, s); }
      else { BlackNephewsOther(h, lab, z, x, p, d, s, n); }
    }
  }

  lemma BlackNephewsTop(h: Heap, lab: Labels, z: Heap, x: nat, p: nat, d: bool, s: nat)
    requires Sib(h, lab, x, p, d, s) && Recolored(h, z, map[s := true, p := false])
    ensures var g := if h.m[p].red then NoFlaw else MovedUp(h, p);
            && !(z.top in z.m && z.m[z.top].red) && (g.deficit != 0 ==> g.deficit in z.m)
  {
    ShortFacts(h, lab, x, p, d);
    if h.top in h.m {
      assert NodeOk(h, lab, h.top);
      assert h.top != s;
      if h.top != p { UntouchedColour(h, z, map[s := true, p := false], h.top); }
    }
  }

  lemma BlackNephewsNear(h: Heap, lab: Labels, z: Heap, x: nat, p: nat, d: bool, s: nat)
    requires Sib(h, lab, x, p, d, s) && !h.m[s].red
    requires forall dir :: Child(h.m[s], dir) in h.m ==> !h.m[Child(h.m[s], dir)].red
    requires Recolored(h, z, map[s := true, p := false])
    ensures var zl := LowerLabels(lab, p, s, !h.m[p].red); var g := if h.m[p].red then NoFlaw else MovedUp(h, p);
            && p in z.m && s in z.m && RedOk(z, p, g) && HeightOk(z, zl, p, g) && RedOk(z, s, g) && HeightOk(z, zl, s, g)
  {
    var zl, g := LowerLabels(lab, p, s, !h.m[p].red), if h.m[p].red then NoFlaw else MovedUp(h, p);
    ShortFacts(h, lab, x, p, d);
    Nephews(h, lab, x, p, d, d);
    Nephews(h, lab, x, p, d, !d);
    var mid, e, b := Child(h.m[s], d), Child(h.m[s], !d), Child(h.m[p], d);
    assert z.m[p] == h.m[p].(red := false) && z.m[s] == h.m[s].(red := true) && z.m.Keys == h.m.Keys;
    assert Child(z.m[p], d) == b && Child(z.m[p], !d) == s && Child(z.m[s], d) == mid && Child(z.m[s], !d) == e;
    assert b != 0 ==> NodeOk(h, lab, b);
    assert b != s && b != p && mid != p && e != p && mid != s && e != s;
    if mid != 0 { UntouchedColour(h, z, map[s := true, p := false], mid); }
    if e != 0 { UntouchedColour(h, z, map[s := true, p := false], e); }
    assert Height(zl, b) == Height(lab, b) && Height(zl, mid) == Height(lab, mid) && Height(zl, e) == Height(lab, e);
    assert g.deficit != p && g.deficit != s by {
      if h.m[p].parent != 0 { assert NodeOk(h, lab, h.m[p].parent); }
    }
    hide Shape, Colours, Recolored, NodeOk, RedOk, HeightOk, Child, MovedUp;
    NodeColours(z, zl, p, g, d);
    NodeColours(z, zl, s, g, d);
  }

  lemma BlackNephewsUp(h: Heap, lab: Labels, z: Heap, x: nat, p: nat, d: bool, s: nat)
    requires Sib(h, lab, x, p, d, s) && !h.m[s].red && Recolored(h, z, map[s := true, p := false])
    ensures var zl := LowerLabels(lab, p, s, !h.m[p].red); var g := if h.m[p].red then NoFlaw else MovedUp(h, p);
            var u := h.m[p].parent;
            u != 0 ==> u in z.m && RedOk(z, u, g) && HeightOk(z, zl, u, g)
  {
    var f, u := Flaw(x, p, d), h.m[p].parent;
    ShortFacts(h, lab, x, p, d);
    if u != 0 {
      assert NodeOk(h, lab, u) && RedOk(h, u, f) && HeightOk(h, lab, u, f);
      var o := if h.m[u].l == p then h.m[u].r else h.m[u].l;
      if o != 0 { assert NodeOk(h, lab, o) && o != s && o != p; UntouchedColour(h, z, map[s := true, p := false], o); }
      assert u != s && u != p && (x != 0 ==> o != x);
      UntouchedColour(h, z, map[s := true, p := false], u);
      assert z.m[p].red == false && z.m.Keys == h.m.Keys;
      hide Shape, Colours, Recolored, NodeOk;
    }
  }

  lemma BlackNephewsOther(h: Heap, lab: Labels, z: Heap, x: nat, p: nat, d: bool, s: nat, n: nat)
    requires Sib(h, lab, x, p, d, s) && !h.m[s].red && Recolored(h, z, map[s := true, p := false])
    requires n in h.m && n != p && n != s && n != h.m[p].parent
    ensures var zl := LowerLabels(lab, p, s, !h.m[p].red); var g := if h.m[p].red then NoFlaw else MovedUp(h, p);
            n in z.m && RedOk(z, n, g) && HeightOk(z, zl, n, g)
  {
    var f, zl, g := Flaw(x, p, d), LowerLabels(lab, p, s, !h.m[p].red), if h.m[p].red then NoFlaw else MovedUp(h, p);
    ShortFacts(h, lab, x, p, d);
    assert NodeOk(h, lab, n) && RedOk(h, n, f) && HeightOk(h, lab, n, f);
    ColoursOf(h, lab, n, f, false);
    UntouchedColour(h, z, map[s := true, p := false], n);
    var l, r := h.m[n].l, h.m[n].r;
    assert ChildOk(h, lab, n, false) && ChildOk(h, lab, n, true);
    assert l != p && r != p && l != s && r != s && (x != 0 ==> l != x && r != x);
    if l != 0 { UntouchedColour(h, z, map[s := true, p := false], l); }
    if r != 0 { UntouchedColour(h, z, map[s := true, p := false], r); }
    assert Child(h.m[n], false) == l && Child(h.m[n], true) == r && z.m[n] == h.m[n] && n != 0;
    assert g.deficit != n && Height(zl, l) == Height(lab, l) && Height(zl, r) == Height(lab, r);
    hide Shape, Colours, Recolored, NodeOk, RedOk, HeightOk, Child, MovedUp;
    NodeColours(z, zl, n, g, false);
  }

  // ---------------------------------------------------------------- a black sibling with a red child

  /** Only the near child is red: it goes up between the sibling and p, and the
      sibling becomes a red far child. */
  lemma NearRed(h: Heap, lab: Labels, y: Heap, z: Heap, x: nat, p: nat, d: bool, s: nat, k: nat)
    requires Sib(h, lab, x, p, d, s) && !h.m[s].red && k == Child(h.m[s], d) && k in h.m && h.m[k].red
    requires Child(h.m[s], !d) in h.m ==> !h.m[Child(h.m[s], !d)].red
    requires s in lab.lo && s in lab.hi && RotatedAt(h, y, s, !d) && Recolored(y, z, map[s := true, k := false])
    ensures Short(z, TurnLabels(h, lab, s, k, !d), x, p, d) && Keys(z) == Keys(h) && z.m.Keys == h.m.Keys
    ensures z.m[p].red == h.m[p].red && z.m[p].parent == h.m[p].parent && Child(z.m[p], !d) == k && k in z.m && !z.m[k].red
    ensures Child(z.m[k], !d) == s && s in z.m && z.m[s].red
  {
    var f, zl, red := Flaw(x, p, d), TurnLabels(h, lab, s, k, !d), map[s := true, k := false];
    NearRedMoved(h, lab, y, z, x, p, d, s, k);
    NearRedFar(h, lab, y, z, x, p, d, s, k);
    NearRedParent(h, lab, y, z, x, p, d, s, k);
    TurnRotated(h, lab, f, s, k, !d);
    ShortFacts(h, lab, x, p, d);
    hide Recolored, RedOk, HeightOk, NodeOk, Shape, Colours, RotatedLabels, TurnLabels, RotatedAt;
    RotateColours(h, lab, y, z, zl, s, !d, red, f, f);
  }

  lemma NearRedParent(h: Heap, lab: Labels, y: Heap, z: Heap, x: nat, p: nat, d: bool, s: nat, k: nat)
    requires Sib(h, lab, x, p, d, s) && k == Child(h.m[s], d) && k in h.m
    requires s in lab.lo && s in lab.hi && RotatedAt(h, y, s, !d) && Recolored(y, z, map[s := true, k := false])
    ensures p in z.m && z.m[p].red == h.m[p].red && z.m[p].parent == h.m[p].parent && Child(z.m[p], !d) == k
    ensures Child(z.m[p], d) == Child(h.m[p], d)
    ensures Child(z.m[p], d) in z.m && z.m[Child(z.m[p], d)].red ==> Child(z.m[p], d) == x
  {
    ShortFacts(h, lab, x, p, d);
    Nephews(h, lab, x, p, d, d);
    RotNodes(h, lab, s, !d);
    RotateKeys(h, y, s, !d);
    var b := Child(h.m[p], d);
    assert y.m[p] == Replace(h.m[p], s, k);
    UntouchedColour(y, z, map[s := true, k := false], p);
    assert b != 0 ==> NodeOk(h, lab, b) && b != s && b != k;
    if b in h.m { UntouchedColour(y, z, map[s := true, k := false], b); }
    hide Shape, Colours, RotatedAt, Recolored, NodeOk, RedOk, HeightOk;
    if d { assert h.m[p].l == s; } else { assert h.m[p].r == s; }
  }

  lemma NearRedFar(h: Heap, lab: Labels, y: Heap, z: Heap, x: nat, p: nat, d: bool, s: nat, k: nat)
    requires Sib(h, lab, x, p, d, s) && k == Child(h.m[s], d) && k in h.m
    requires s in lab.lo && s in lab.hi && RotatedAt(h, y, s, !d) && Recolored(y, z, map[s := true, k := false])
    ensures var e := Child(h.m[k], d);
            e != 0 ==> e in z.m && RedOk(z, e, Flaw(x, p, d)) && HeightOk(z, TurnLabels(h, lab, s, k, !d), e, Flaw(x, p, d))
  {
    var f, e := Flaw(x, p, d), Child(h.m[k], d);
    ShortFacts(h, lab, x, p, d);
    Nephews(h, lab, x, p, d, d);
    HeightsKnown(h, lab, f);
    if e != 0 {
      assert NodeOk(h, lab, e) && RedOk(h, e, f) && HeightOk(h, lab, e, f) && e != p && e != s && e != k;
      assert ChildOk(h, lab, e, false) && ChildOk(h, lab, e, true);
      hide Shape, Colours, RotatedAt, Recolored, RedOk, HeightOk, NodeOk;
      FarKept(h, lab, y, z, TurnLabels(h, lab, s, k, !d), s, !d, map[s := true, k := false], f, f, e);
    }
  }

  lemma NearRedMoved(h: Heap, lab: Labels, y: Heap, z: Heap, x: nat, p: nat, d: bool, s: nat, k: nat)
    requires Sib(h, lab, x, p, d, s) && !h.m[s].red && k == Child(h.m[s], d) && k in h.m && h.m[k].red
    requires Child(h.m[s], !d) in h.m ==> !h.m[Child(h.m[s], !d)].red
    requires s in lab.lo && s in lab.hi && RotatedAt(h, y, s, !d) && Recolored(y, z, map[s := true, k := false])
    ensures var f := Flaw(x, p, d); var zl := TurnLabels(h, lab, s, k, !d);
            && s in z.m && k in z.m && !z.m[k].red && z.m[s].red && k in zl.bh && zl.bh[k] == lab.bh[s]
            && RedOk(z, s, f) && HeightOk(z, zl, s, f) && RedOk(z, k, f) && HeightOk(z, zl, k, f) && Child(z.m[k], !d) == s
  {
    var f, zl, red := Flaw(x, p, d), TurnLabels(h, lab, s, k, !d), map[s := true, k := false];
    NearRedNumbers(h, lab, x, p, d, s, k);
    ShortFacts(h, lab, x, p, d);
    MovedLinks(h, lab, y, z, s, !d, red);
    SlotAfter(h, lab, y, z, s, !d, red, s);
    SlotAfter(h, lab, y, z, s, !d, red, k);
    var far, mid := Child(h.m[s], !d), Child(h.m[k], !d);
    if far != 0 { SlotAfter(h, lab, y, z, s, !d, red, far); }
    if mid != 0 { SlotAfter(h, lab, y, z, s, !d, red, mid); }
    hide Shape, Colours, Recolored, RotatedAt, NodeOk, RedOk, HeightOk, Child;
    NodeColours(z, zl, s, f, d);
    NodeColours(z, zl, k, f, d);
  }

  lemma NearRedNumbers(h: Heap, lab: Labels, x: nat, p: nat, d: bool, s: nat, k: nat)
    requires Sib(h, lab, x, p, d, s) && !h.m[s].red && k == Child(h.m[s], d) && k in h.m && h.m[k].red
    requires Child(h.m[s], !d) in h.m ==> !h.m[Child(h.m[s], !d)].red
    requires s in lab.lo && s in lab.hi
    ensures var zl := TurnLabels(h, lab, s, k, !d); var far, mid, e := Child(h.m[s], !d), Child(h.m[k], !d), Child(h.m[k], d);
            && k != s && k != p && far != k && far != s && mid != s && mid != k && e != s && e != k
            && (mid != 0 ==> mid in h.m && !h.m[mid].red) && (far != 0 ==> far in h.m && !h.m[far].red)
            && Height(zl, far) == Height(lab, k) == Height(zl, mid) == Height(zl, e)
            && s in zl.bh && k in zl.bh && zl.bh[s] == Height(lab, k) && zl.bh[k] == Height(lab, s) == lab.bh[s] == Height(lab, k) + 1
  {
    ShortFacts(h, lab, x, p, d);
    Nephews(h, lab, x, p, d, d);
    Nephews(h, lab, x, p, d, !d);
    ColoursOf(h, lab, k, Flaw(x, p, d), d);
    var mid, e := Child(h.m[k], !d), Child(h.m[k], d);
    assert mid != 0 ==> NodeOk(h, lab, mid);
    assert e != 0 ==> NodeOk(h, lab, e);
    hide Shape, Colours, RedOk, HeightOk;
  }

  /** The far child is red: the sibling goes up and takes p's colour, p and the far
      child turn black, and nothing is short any more. */
  lemma FarRed(h: Heap, lab: Labels, y: Heap, z: Heap, x: nat, p: nat, d: bool, s: nat, e: nat)
    requires Sib(h, lab, x, p, d, s) && !h.m[s].red && e == Child(h.m[s], !d) && e in h.m && h.m[e].red
    requires RotatedAt(h, y, p, d) && Recolored(y, z, map[s := h.m[p].red, p := false, e := false])
    ensures Inv(z, FarLabels(h, lab, p, s, d, e), NoFlaw) && Keys(z) == Keys(h) && z.m.Keys == h.m.Keys
  {
    hide Recolored, RedOk, HeightOk, NodeOk, Shape, Colours, RotatedLabels, TurnLabels, RotatedAt, FarLabels;
    var f, red := Flaw(x, p, d), map[s := h.m[p].red, p := false, e := false];
    ShortFacts(h, lab, x, p, d);
    FarRedMoved(h, lab, y, z, x, p, d, s, e);
    FarRedFar(h, lab, y, z, x, p, d, s, e);
    FarRotated(h, lab, f, p, s, d, e);
    RotateColours(h, lab, y, z, FarLabels(h, lab, p, s, d, e), p, d, red, f, NoFlaw);
  }

  lemma FarRotated(h: Heap, lab: Labels, f: Flaw, p: nat, s: nat, d: bool, e: nat)
    requires Inv(h, lab, f) && p in h.m && s == Child(h.m[p], !d) && s in h.m && p in lab.lo && p in lab.hi && s in lab.lo && s in lab.hi
    requires e == Child(h.m[s], !d)
    ensures RotatedLabels(h, lab, FarLabels(h, lab, p, s, d, e), p, d)
  {
    TurnRotated(h, lab, f, p, s, d);
  }

  function FarLabels(h: Heap, lab: Labels, p: nat, s: nat, d: bool, e: nat): Labels
    requires p in h.m && Child(h.m[p], !d) in h.m && p in lab.lo && p in lab.hi
  {
    var t := TurnLabels(h, lab, p, s, d);
    t.(bh := t.bh[e := Height(lab, e) + 1])
  }

  lemma FarRedMoved(h: Heap, lab: Labels, y: Heap, z: Heap, x: nat, p: nat, d: bool, s: nat, e: nat)
    requires Sib(h, lab, x, p, d, s) && !h.m[s].red && e == Child(h.m[s], !d) && e in h.m && h.m[e].red
    requires RotatedAt(h, y, p, d) && Recolored(y, z, map[s := h.m[p].red, p := false, e := false])
    ensures var zl := FarLabels(h, lab, p, s, d, e);
            && p in z.m && s in z.m && z.m[s].red == h.m[p].red && s in zl.bh && zl.bh[s] == lab.bh[p]
            && RedOk(z, p, NoFlaw) && HeightOk(z, zl, p, NoFlaw) && RedOk(z, s, NoFlaw) && HeightOk(z, zl, s, NoFlaw)
  {
    var zl, red := FarLabels(h, lab, p, s, d, e), map[s := h.m[p].red, p := false, e := false];
    FarRedNumbers(h, lab, x, p, d, s, e);
    MovedLinks(h, lab, y, z, p, d, red);
    SlotAfter(h, lab, y, z, p, d, red, s);
    SlotAfter(h, lab, y, z, p, d, red, p);
    SlotAfter(h, lab, y, z, p, d, red, e);
    hide Shape, Colours, Recolored, RotatedAt, NodeOk, RedOk, HeightOk, Child;
    NodeColours(z, zl, p, NoFlaw, d);
    NodeColours(z, zl, s, NoFlaw, d);
  }

  lemma FarRedNumbers(h: Heap, lab: Labels, x: nat, p: nat, d: bool, s: nat, e: nat)
    requires Sib(h, lab, x, p, d, s) && !h.m[s].red && e == Child(h.m[s], !d) && e in h.m && h.m[e].red
    ensures var zl := FarLabels(h, lab, p, s, d, e); var mid, b := Child(h.m[s], d), Child(h.m[p], d);
            && e != s && e != p && s != p && p != 0 && s != 0 && e != 0
            && Height(zl, mid) + 1 == Height(zl, b) + 1 == Height(lab, s)
            && p in zl.bh && zl.bh[p] == Height(lab, s) && s in zl.bh && zl.bh[s] == lab.bh[p]
            && e in zl.bh && zl.bh[e] == Height(lab, s) && zl.bh[s] == Height(lab, s) + if h.m[p].red then 0 else 1
  {
    ShortFacts(h, lab, x, p, d);
    Nephews(h, lab, x, p, d, d);
    Nephews(h, lab, x, p, d, !d);
    var b := Child(h.m[p], d);
    assert b != 0 ==> NodeOk(h, lab, b);
    hide Shape, Colours, RedOk, HeightOk;
  }

  lemma FarRedFar(h: Heap, lab: Labels, y: Heap, z: Heap, x: nat, p: nat, d: bool, s: nat, e: nat)
    requires Sib(h, lab, x, p, d, s) && e == Child(h.m[s], !d) && e in h.m && h.m[e].red
    requires RotatedAt(h, y, p, d) && Recolored(y, z, map[s := h.m[p].red, p := false, e := false])
    ensures e in z.m && RedOk(z, e, NoFlaw) && HeightOk(z, FarLabels(h, lab, p, s, d, e), e, NoFlaw)
  {
    var zl, red := FarLabels(h, lab, p, s, d, e), map[s := h.m[p].red, p := false, e := false];
    FarRedFarNumbers(h, lab, x, p, d, s, e);
    SlotAfter(h, lab, y, z, p, d, red, e);
    var l, r := h.m[e].l, h.m[e].r;
    hide Shape, Colours, Recolored, RotatedAt, NodeOk, RedOk, HeightOk, FarLabels;
    assert Child(z.m[e], false) == l && Child(z.m[e], true) == r && !z.m[e].red;
    hide Child;
    NodeColours(z, zl, e, NoFlaw, false);
  }

  lemma FarRedFarNumbers(h: Heap, lab: Labels, x: nat, p: nat, d: bool, s: nat, e: nat)
    requires Sib(h, lab, x, p, d, s) && e == Child(h.m[s], !d) && e in h.m && h.m[e].red
    ensures var zl := FarLabels(h, lab, p, s, d, e); var l, r := h.m[e].l, h.m[e].r;
            && e != p && e != s && e != h.m[p].parent && e != 0 && l != e && r != e
            && Height(zl, l) == Height(zl, r) == Height(lab, e) && e in zl.bh && zl.bh[e] == Height(lab, e) + 1
  {
    ShortFacts(h, lab, x, p, d);
    Nephews(h, lab, x, p, d, !d);
    ColoursOf(h, lab, e, Flaw(x, p, d), false);
    var l, r := h.m[e].l, h.m[e].r;
    assert Child(h.m[e], false) == l && Child(h.m[e], true) == r;
    assert l != 0 ==> NodeOk(h, lab, l);
    assert r != 0 ==> NodeOk(h, lab, r);
    assert h.m[p].parent != 0 ==> NodeOk(h, lab, h.m[p].parent);
    hide Shape, Colours, RedOk, HeightOk;
  }
}
