/** The versioned red-black tree (benchmark/versioning/tree_vrbtree.c): insertion and
    deletion with their repair loops, on the slots of one writer's snapshot. */
module RbTree {
  import opened RbShape
  import opened RbInsert
  import opened RbDelete
  import opened RbBalance

  class Tree {
    var top: nat                 // child[0] of the sentinel
    var m: map<nat, Slot>        // the slots of the nodes
    ghost var lab: Labels

    constructor ()
      ensures Valid() && Keys(H()) == {} && fresh(this)
    {
      top, m, lab := 0, map[], Labels(map[], map[], map[]);
    }

    function H(): Heap
      reads this
    {
      Heap(top, m)
    }

    ghost predicate Valid()
      reads this
    {
      Inv(H(), lab, NoFlaw)
    }

    /** rot_left and rot_right: the child in between, the parent, the lower and the
        upper node get their new links, one after the other. */
    method Rotate(a: nat, d: bool)
      requires Shape(H(), lab) && 0 !in m && a in m && Child(m[a], !d) != 0
      modifies this`top, this`m
      ensures Child(old(m[a]), !d) in old(m) && RotatedAt(old(H()), H(), a, d)
    {
      RotNodes(H(), lab, a, d);
      ghost var h := H();
      var c := Child(m[a], !d);
      var mid, p := Child(m[c], d), m[a].parent;
      if mid != 0 { m := m[mid := m[mid].(parent := a)]; }
      if p == 0 { top := c; } else { m := m[p := Replace(m[p], a, c)]; }
      m := m[a := WithChild(m[a], !d, mid).(parent := c)];
      m := m[c := WithChild(m[c], d, a).(parent := p)];
      assert H() == Rotated(h, a, d);
      RotatedIs(h, lab, a, d);
    }

    /** list_ins: a search, a new red leaf, and the loop that repairs two reds in a row. */
    method Insert(key: Key, id: nat) returns (ok: bool)
      requires Valid() && id != 0 && id !in m
      modifies this
      ensures Valid() && Keys(H()) == old(Keys(H())) + {key}
      ensures ok <==> key !in old(Keys(H()))
      ensures ok ==> m.Keys == old(m.Keys) + {id} && m[id].key == key && KeepsNodes(H(), old(H()), {id})
      ensures !ok ==> H() == old(H())
    {
      var prev, cur, dir := Find(key);
      SearchDecides(H(), lab, key);
      if cur != 0 {
        assert m[cur].key == key && key in Keys(H());
        return false;
      }
      ok := true;
      if prev == 0 {
        FirstNode(H(), lab, id, key);
        lab := LeafLabels(H(), lab, id, 0, false, 1);
        top, m := id, m[id := Slot(key, 0, 0, 0, false)];
        return;
      }
      AttachLeaf(H(), lab, id, key, prev, dir);
      lab := LeafLabels(H(), lab, id, prev, dir, 0);
      m := m[prev := WithChild(m[prev], dir, id)][id := Slot(key, 0, 0, prev, true)];
      RepairReds(id, prev);
    }

    /** The descent all operations begin with: the node with the key, or null, and the
        last node before it. */
    method Find(key: Key) returns (prev: nat, cur: nat, dir: bool)
      requires Valid()
      ensures cur == Search(H(), lab, top, key) && (cur != 0 ==> cur in m && m[cur].key == key)
      ensures prev == 0 ==> cur == top
      ensures prev != 0 ==>
        && prev in m && Child(m[prev], dir) == cur && prev in lab.lo && prev in lab.hi
        && lab.lo[prev] < key < lab.hi[prev] && key != m[prev].key && (dir <==> m[prev].key < key)
    {
      prev, cur, dir := 0, top, false;
      if top != 0 { assert NodeOk(H(), lab, top); }
      while cur != 0 && m[cur].key != key
        invariant cur != 0 ==> cur in m && cur in lab.lo && cur in lab.hi && lab.lo[cur] < key < lab.hi[cur]
        invariant Search(H(), lab, cur, key) == Search(H(), lab, top, key)
        invariant prev == 0 ==> cur == top
        invariant prev != 0 ==>
          && prev in m && Child(m[prev], dir) == cur && prev in lab.lo && prev in lab.hi
          && lab.lo[prev] < key < lab.hi[prev] && key != m[prev].key && (dir <==> m[prev].key < key)
        decreases if cur == 0 then 0 else 1 + Size(lab, cur)
      {
        assert NodeOk(H(), lab, cur);
        dir := m[cur].key < key;
        prev, cur := cur, Child(m[cur], dir);
        if cur != 0 { assert NodeOk(H(), lab, cur); }
      }
    }
  
    /** The loop of list_ins: a red leaf below a red node. A red uncle moves the
        problem up; otherwise one or two rotations end it. */
    method RepairReds(leaf: nat, first: nat)
      requires Inv(H(), lab, RedAt(leaf)) && leaf in m && m[leaf].red && m[leaf].parent == first
      modifies this
      ensures Valid() && Keys(H()) == old(Keys(H()))
      ensures KeepsNodes(old(H()), H(), {})
    {
      var node, prev := leaf, first;
      assert NodeOk(H(), lab, leaf);
      while prev != 0 && m[prev].red
        invariant Inv(H(), lab, RedAt(node)) && node in m && m[node].red && m[node].parent == prev
        invariant prev != 0 ==> prev in m
        invariant Keys(H()) == old(Keys(H())) && KeepsNodes(old(H()), H(), {})
        decreases HI - LO - Size(lab, node)
      {
        RedPairIs(H(), lab, node, prev);
        var up := m[prev].parent;
        var pd := m[up].r == prev;
        var s := Child(m[up], !pd);
        if s != 0 && m[s].red {
          UncleStep(node, prev, up, pd, s);
          node, prev := up, m[up].parent;
          assert NodeOk(H(), lab, node);
        } else {
          TurnStep(node, prev, up, pd);
          return;
        }
      }
      if prev == 0 {
        assert NodeOk(H(), lab, node);
        BlackTop(H(), lab, Heap(top, m[node := m[node].(red := false)]), node);
        lab := lab.(bh := lab.bh[node := Height(lab, node) + 1]);
        m := m[node := m[node].(red := false)];
      } else {
        NoFlawBelowBlack(H(), lab, node);
      }
    }

    /** A red uncle: change three colours. */
    method UncleStep(node: nat, prev: nat, up: nat, pd: bool, s: nat)
      requires RedPair(H(), lab, node, prev, up, pd) && s == Child(m[up], !pd) && s in m && m[s].red
      modifies this`m, this`lab
      ensures Inv(H(), lab, RedAt(up)) && Keys(H()) == old(Keys(H())) && m.Keys == old(m.Keys)
      ensures m[up].red && m[up].parent == old(m[up].parent) && lab.lo == old(lab.lo) && lab.hi == old(lab.hi)
      ensures KeepsNodes(old(H()), H(), {})
    {
      ghost var h := H();
      RedPairFacts(h, lab, node, prev, up, pd);
      m := m[prev := m[prev].(red := false)];
      m := m[s := m[s].(red := false)];
      m := m[up := m[up].(red := true)];
      assert Recolored(h, H(), map[prev := false, s := false, up := true]);
      RedUncle(h, lab, H(), node, prev, up, pd);
      lab := UncleLabels(h, lab, prev, s);
    }

    /** A black uncle, or none: turn the inner case into the outer one, and rotate. */
    method TurnStep(node: nat, prev: nat, up: nat, pd: bool)
      requires RedPair(H(), lab, node, prev, up, pd) && (Child(m[prev], true) == node || Child(m[prev], false) == node)
      requires up in lab.lo && up in lab.hi && prev in lab.lo && prev in lab.hi
      requires Child(m[up], !pd) in m ==> !m[Child(m[up], !pd)].red
      modifies this
      ensures Valid() && Keys(H()) == old(Keys(H()))
      ensures KeepsNodes(old(H()), H(), {})
    {
      if Child(m[prev], !pd) == node {
        InnerStep(node, prev, up, pd);
        OuterStep(prev, node, up, pd);
      } else {
        OuterStep(node, prev, up, pd);
      }
    }

    method InnerStep(node: nat, prev: nat, up: nat, pd: bool)
      requires RedPair(H(), lab, node, prev, up, pd) && Child(m[prev], !pd) == node
      requires up in lab.lo && up in lab.hi && prev in lab.lo && prev in lab.hi
      requires Child(m[up], !pd) in m ==> !m[Child(m[up], !pd)].red
      modifies this
      ensures RedPair(H(), lab, prev, node, up, pd) && Child(m[node], pd) == prev && Keys(H()) == old(Keys(H()))
      ensures up in lab.lo && up in lab.hi && (Child(m[up], !pd) in m ==> !m[Child(m[up], !pd)].red)
      ensures KeepsNodes(old(H()), H(), {})
    {
      hide NodeOk, RedOk, HeightOk, Shape, Colours;
      ghost var h := H();
      RedPairFacts(h, lab, node, prev, up, pd);
      RotNodes(h, lab, prev, pd);
      Rotate(prev, pd);
      InnerTurn(h, lab, H(), node, prev, up, pd);
      UncleStays(h, H(), prev, pd, up, node);
      lab := RotLabels(h, lab, prev, pd);
    }

    method OuterStep(node: nat, prev: nat, up: nat, pd: bool)
      requires RedPair(H(), lab, node, prev, up, pd) && Child(m[prev], pd) == node && up in lab.lo && up in lab.hi
      requires Child(m[up], !pd) in m ==> !m[Child(m[up], !pd)].red
      modifies this
      ensures Valid() && Keys(H()) == old(Keys(H()))
      ensures KeepsNodes(old(H()), H(), {})
    {
      hide NodeOk, RedOk, HeightOk, Shape, Colours, KeepsNodes;
      ghost var h := H();
      RedPairFacts(h, lab, node, prev, up, pd);
      RotNodes(h, lab, up, !pd);
      Rotate(up, !pd);
      ghost var y := H();
      RotateKeys(h, y, up, !pd);
      m := m[up := m[up].(red := true)];
      m := m[prev := m[prev].(red := false)];
      assert Recolored(y, H(), map[up := true, prev := false]);
      TurnKeeps(h, y, H(), up, !pd, map[up := true, prev := false]);
      OuterTurn(h, lab, y, H(), node, prev, up, pd);
      lab := TurnLabels(h, lab, up, prev, !pd);
    }

    // ---- list_del

    /** list_del: a node with at most one child gives its place to that child, any other
        to its successor; if a black node has gone, the paths it was on are repaired. */
    method Delete(key: Key) returns (ok: bool)
      requires Valid()
      modifies this
      ensures Valid() && Keys(H()) == old(Keys(H())) - {key}
      ensures ok <==> key in old(Keys(H()))
      ensures if ok then exists node :: node in old(m) && old(m)[node].key == key && KeepsNodes(old(H()), H(), {node}) else H() == old(H())
    {
      var prev, node, dir := Find(key);
      SearchDecides(H(), lab, key);
      if node == 0 { return false; }
      ok := true;
      assert NodeOk(H(), lab, node) && key in Keys(H());
      if m[node].l == 0 || m[node].r == 0 {
        DeleteThin(node);
      } else {
        DeleteFull(node);
      }
    }

    /** A node with at most one child. An only child is red, and turns black. */
    method DeleteThin(q: nat)
      requires Valid() && q in m && (m[q].l == 0 || m[q].r == 0)
      modifies this
      ensures Valid() && Keys(H()) == old(Keys(H())) - {old(m[q].key)}
      ensures KeepsNodes(old(H()), H(), {q})
    {
      var c := if m[q].l == 0 then m[q].r else m[q].l;
      var p, short := m[q].parent, !m[q].red && c == 0;
      var dir := p in m && m[p].r == q;
      ghost var h, l0 := H(), lab;
      OnlyChild(h, l0, q, c);
      Splice(q, c, false);
      if short && p != 0 {
        SpliceShort(h, l0, q, c, false);
        Rebalance(p, dir, 0);
      }
    }

    /** The links around a node taken out, and the colour of its child. */
    method Splice(q: nat, c: nat, red: bool)
      requires Valid() && q in m && ((m[q].l == 0 && m[q].r == c) || (m[q].r == 0 && m[q].l == c))
      requires m[q].parent != 0 || c == 0 || !red
      modifies this
      ensures H() == Spliced(old(H()), q, c, red) && q in old(lab).lo && q in old(lab).hi
      ensures lab == SplicedLabels(old(lab), q, c, if red then 0 else 1)
      ensures Inv(H(), lab, SpliceFlaw(old(H()), q, c, red))
      ensures Keys(H()) == old(Keys(H())) - {old(m[q].key)} && m.Keys == old(m.Keys) - {q}
      ensures KeepsNodes(old(H()), H(), {q})
    {
      ghost var h := H();
      OnlyChild(h, lab, q, c);
      SpliceOut(h, lab, q, c, red);
      var p := m[q].parent;
      if c != 0 { m := m[c := m[c].(parent := p, red := red)]; }
      if p == 0 { top := c; } else { m := m[p := Replace(m[p], q, c)]; }
      m := m - {q};
      assert H() == Spliced(h, q, c, red);
      lab := SplicedLabels(lab, q, c, if red then 0 else 1);
    }

    /** A node with two children: its successor leaves its own place and takes the node's. */
    method DeleteFull(node: nat)
      requires Valid() && node in m && m[node].l != 0 && m[node].r != 0
      modifies this
      ensures Valid() && Keys(H()) == old(Keys(H())) - {old(m[node].key)}
      ensures KeepsNodes(old(H()), H(), {node})
    {
      hide NodeOk, RedOk, HeightOk, Shape, Colours, Spliced, Renamed, RenamedLabels, SplicedLabels, CanRename, KeepsNodes;
      var succ := Successor(node);
      var k, c, sp, short := m[succ].key, m[succ].r, m[succ].parent, !m[succ].red;
      ghost var h, l0 := H(), lab;
      OnlyChild(h, l0, succ, c);
      Splice(succ, c, true);
      ghost var h1, l1, f := H(), lab, SpliceFlaw(h, succ, c, true);
      SuccessorFits(h, l0, node, succ, c);
      Rename(h1, l1, node, succ, k, f);
      TakePlace(node, succ, k);
      RenamedKeeps(h, h1, node, succ);
      ghost var h2 := H();
      lab := RenamedLabels(h1, l1, node, succ, k);
      if short {
        RenamedShort(h, l0, node, succ, c, k);
        Rebalance(if sp == node then succ else sp, sp == node, c);
        KeepsBoth(h, h2, H(), {node});
      }
    }

    /** The leftmost node of the right subtree. */
    method Successor(node: nat) returns (succ: nat)
      requires Valid() && node in m && m[node].r != 0
      ensures succ in m && succ != node && m[succ].l == 0 && m[succ].parent != 0 && node in lab.lo && node in lab.hi
      ensures succ in lab.lo && succ in lab.hi && lab.lo[succ] == m[node].key < m[succ].key < lab.hi[succ] <= lab.hi[node]
      ensures m[succ].parent in m && (if m[succ].parent == node then m[node].r == succ else m[m[succ].parent].l == succ)
    {
      assert NodeOk(H(), lab, node);
      succ := m[node].r;
      assert NodeOk(H(), lab, succ);
      while m[succ].l != 0
        invariant succ in m && succ != node && m[succ].parent != 0 && succ in lab.lo && succ in lab.hi
        invariant lab.lo[succ] == m[node].key < m[succ].key < lab.hi[succ] <= lab.hi[node]
        invariant m[succ].parent in m && (if m[succ].parent == node then m[node].r == succ else m[m[succ].parent].l == succ)
        decreases Size(lab, succ)
      {
        assert NodeOk(H(), lab, succ);
        succ := m[succ].l;
        assert NodeOk(H(), lab, succ);
      }
    }

    /** Node y, with key k, takes over the links of node x. */
    method TakePlace(x: nat, y: nat, k: Key)
      requires CanRename(H(), lab, x, y, k)
      modifies this`top, this`m
      ensures H() == Renamed(old(H()), x, y, k)
    {
      ghost var h := H();
      RenameNodes(h, lab, x, y, k);
      var s := m[x];
      if s.l != 0 { m := m[s.l := m[s.l].(parent := y)]; }
      if s.r != 0 { m := m[s.r := m[s.r].(parent := y)]; }
      if s.parent == 0 { top := y; } else { m := m[s.parent := Replace(m[s.parent], x, y)]; }
      m := (m - {x})[y := s.(key := k)];
      assert H() == Renamed(h, x, y, k);
    }

    // ---- vtree_rebalance

    /** The loop: every round ends it, or moves the shortage one level up. */
    method Rebalance(p0: nat, d0: bool, ghost x0: nat)
      requires Short(H(), lab, x0, p0, d0)
      modifies this
      ensures Valid() && Keys(H()) == old(Keys(H()))
      ensures KeepsNodes(old(H()), H(), {})
    {
      hide NodeOk, RedOk, HeightOk, Shape, Colours;
      var p, d := p0, d0;
      ghost var x := x0;
      while true
        invariant Short(H(), lab, x, p, d) && Keys(H()) == old(Keys(H())) && KeepsNodes(old(H()), H(), {})
        decreases HI - LO - Size(lab, p)
      {
        ShortFacts(H(), lab, x, p, d);
        var s := Child(m[p], !d);
        var turned := m[s].red;
        if turned { s := StepRedSibling(p, d, s, x); }
        ShortFacts(H(), lab, x, p, d);
        Nephews(H(), lab, x, p, d, d);
        Nephews(H(), lab, x, p, d, !d);
        var far, near := Child(m[s], !d), Child(m[s], d);
        if (far == 0 || !m[far].red) && (near == 0 || !m[near].red) {
          var node, red := p, m[p].red;
          p := StepBlackNephews(p, d, s, x);
          if red || p == 0 { return; }
          d, x := m[p].r == node, 0;
        } else {
          if far == 0 || !m[far].red {
            StepNearRed(p, d, s, near, x);
            s, far := near, s;
          }
          ShortFacts(H(), lab, x, p, d);
          StepFarRed(p, d, s, far, x);
          return;
        }
      }
    }

    method StepRedSibling(p: nat, d: bool, s0: nat, ghost x: nat) returns (s: nat)
      requires Sib(H(), lab, x, p, d, s0) && m[s0].red
      modifies this
      ensures Short(H(), lab, x, p, d) && Keys(H()) == old(Keys(H())) && m[p].red
      ensures s == Child(m[p], !d) && s in m && !m[s].red
      ensures KeepsNodes(old(H()), H(), {})
    {
      hide NodeOk, RedOk, HeightOk, Shape, Colours;
      ghost var h := H();
      ShortFacts(h, lab, x, p, d);
      Rotate(p, d);
      ghost var y := H();
      RotateKeys(h, y, p, d);
      m := m[p := m[p].(red := true)];
      m := m[s0 := m[s0].(red := false)];
      assert Recolored(y, H(), map[p := true, s0 := false]);
      RedSibling(h, lab, y, H(), x, p, d, s0);
      lab := TurnLabels(h, lab, p, s0, d);
      s := Child(m[p], !d);
    }

    method StepBlackNephews(p: nat, d: bool, s: nat, ghost x: nat) returns (up: nat)
      requires Sib(H(), lab, x, p, d, s) && !m[s].red
      requires forall dir :: Child(m[s], dir) in m ==> !m[Child(m[s], dir)].red
      modifies this
      ensures Keys(H()) == old(Keys(H())) && up == old(m[p].parent)
      ensures old(m[p].red) || up == 0 ==> Valid()
      ensures !old(m[p].red) && up != 0 ==> up in m && Short(H(), lab, 0, up, m[up].r == p) && Size(lab, up) > Size(old(lab), p)
      ensures KeepsNodes(old(H()), H(), {})
    {
      ghost var h := H();
      up := m[p].parent;
      m := m[s := m[s].(red := true)];
      m := m[p := m[p].(red := false)];
      BlackNephews(h, lab, H(), x, p, d, s);
      ghost var l0 := lab;
      lab := LowerLabels(lab, p, s, !h.m[p].red);
      NowShort(h, l0, H(), lab, x, p, d, s);
    }

    method StepNearRed(p: nat, d: bool, s: nat, k: nat, ghost x: nat)
      requires Sib(H(), lab, x, p, d, s) && !m[s].red && k == Child(m[s], d) && k in m && m[k].red
      requires Child(m[s], !d) in m ==> !m[Child(m[s], !d)].red
      modifies this
      ensures Short(H(), lab, x, p, d) && Keys(H()) == old(Keys(H()))
      ensures Child(m[p], !d) == k && k in m && !m[k].red && Child(m[k], !d) == s && s in m && m[s].red
      ensures KeepsNodes(old(H()), H(), {})
    {
      hide RedOk, HeightOk, Colours, KeepsNodes;
      ghost var h := H();
      ShortFacts(h, lab, x, p, d);
      Rotate(s, !d);
      ghost var y := H();
      RotateKeys(h, y, s, !d);
      m := m[s := m[s].(red := true)];
      m := m[k := m[k].(red := false)];
      assert Recolored(y, H(), map[s := true, k := false]);
      TurnKeeps(h, y, H(), s, !d, map[s := true, k := false]);
      NearRed(h, lab, y, H(), x, p, d, s, k);
      lab := TurnLabels(h, lab, s, k, !d);
    }

    method StepFarRed(p: nat, d: bool, s: nat, e: nat, ghost x: nat)
      requires Sib(H(), lab, x, p, d, s) && !m[s].red && e == Child(m[s], !d) && e in m && m[e].red
      modifies this
      ensures Valid() && Keys(H()) == old(Keys(H()))
      ensures KeepsNodes(old(H()), H(), {})
    {
      hide RedOk, HeightOk, Colours, NodeOk, Shape;
      ghost var h := H();
      ShortFacts(h, lab, x, p, d);
      Nephews(h, lab, x, p, d, !d);
      Rotate(p, d);
      ghost var y := H();
      RotateKeys(h, y, p, d);
      Recolor3(p, s, e);
      FarRed(h, lab, y, H(), x, p, d, s, e);
      lab := FarLabels(h, lab, p, s, d, e);
    }

    /** s takes p's colour, p and e turn black. */
    method Recolor3(p: nat, s: nat, e: nat)
      requires p in m && s in m && e in m && p != s && p != e && s != e
      modifies this`m
      ensures Recolored(old(H()), H(), map[s := old(m[p].red), p := false, e := false])
    {
      m := m[s := m[s].(red := m[p].red)];
      m := m[p := m[p].(red := false)];
      m := m[e := m[e].(red := false)];
    }
  }

  /** One change after another. */
  lemma KeepsBoth(h: Heap, y: Heap, z: Heap, gone: set<nat>)
    requires KeepsNodes(h, y, gone) && KeepsNodes(y, z, {})
    ensures KeepsNodes(h, z, gone)
  {
  }

  /** The successor left its place with its key and takes the node's place with it. */
  lemma RenamedKeeps(h: Heap, y: Heap, x: nat, succ: nat)
    requires KeepsNodes(h, y, {succ}) && x in y.m && succ in h.m && succ != x
    ensures KeepsNodes(h, Renamed(y, x, succ, h.m[succ].key), {x})
  {
    var k, s := h.m[succ].key, y.m[x];
    var z := Renamed(y, x, succ, k);
    assert z.m.Keys == y.m.Keys - {x} + {succ};
  }

  /** After a black node without children is gone, its parent is short on that side. */
  lemma SpliceShort(h: Heap, lab: Labels, q: nat, c: nat, red: bool)
    requires Inv(h, lab, NoFlaw) && q in h.m && q in lab.lo && q in lab.hi && h.m[q].parent != 0 && !h.m[q].red && (c == 0 || red)
    requires (h.m[q].l == 0 && h.m[q].r == c) || (h.m[q].r == 0 && h.m[q].l == c)
    ensures var p := h.m[q].parent;
            p in h.m && Short(Spliced(h, q, c, red), SplicedLabels(lab, q, c, if red then 0 else 1), c, p, h.m[p].r == q)
  {
    var p := h.m[q].parent;
    OnlyChild(h, lab, q, c);
    SpliceOut(h, lab, q, c, red);
    SplicedAt(h, lab, q, c, red, p);
  }

  /** A black p whose sibling side has lost a node has passed the shortage on. */
  lemma NowShort(h: Heap, lab: Labels, z: Heap, zl: Labels, x: nat, p: nat, d: bool, s: nat)
    requires Sib(h, lab, x, p, d, s) && z.m.Keys == h.m.Keys && zl.lo == lab.lo && zl.hi == lab.hi
    requires Recolored(h, z, map[s := true, p := false])
    requires Inv(z, zl, if h.m[p].red then NoFlaw else MovedUp(h, p))
    ensures var up := h.m[p].parent;
            !h.m[p].red && up != 0 ==> up in z.m && Short(z, zl, 0, up, z.m[up].r == p) && Size(zl, up) > Size(lab, p)
  {
    var up := h.m[p].parent;
    ShortFacts(h, lab, x, p, d);
    if !h.m[p].red && up != 0 {
      assert NodeOk(h, lab, up) && z.m[up].l == h.m[up].l && z.m[up].r == h.m[up].r;
    }
  }

  /** The successor's key may take the node's place once the successor is out. */
  lemma SuccessorFits(h: Heap, lab: Labels, node: nat, succ: nat, c: nat)
    requires Inv(h, lab, NoFlaw) && node in h.m && succ in h.m && succ != node && h.m[succ].l == 0 && h.m[succ].r == c
    requires h.m[succ].parent != 0 && node in lab.lo && node in lab.hi && succ in lab.lo && succ in lab.hi
    requires lab.lo[succ] == h.m[node].key < h.m[succ].key < lab.hi[succ] <= lab.hi[node]
    ensures var z, zl := Spliced(h, succ, c, true), SplicedLabels(lab, succ, c, 0);
            node in z.m && z.m[node].key == h.m[node].key && CanRename(z, zl, node, succ, h.m[succ].key)
  {
    var z, zl, k := Spliced(h, succ, c, true), SplicedLabels(lab, succ, c, 0), h.m[succ].key;
    SpliceOut(h, lab, succ, c, true);
    OnlyChild(h, lab, succ, c);
    SplicedAt(h, lab, succ, c, true, node);
    assert NodeOk(z, zl, node) && HeightOk(z, zl, node, SpliceFlaw(h, succ, c, true));
    forall n | n in z.m && n in zl.lo && zl.lo[n] == z.m[node].key ensures k < z.m[n].key {
      SplicedAt(h, lab, succ, c, true, n);
      assert NodeOk(h, lab, n);
      if n != c { LeastBehind(h, lab, succ, n); }
    }
  }

  /** After both steps the shortage is where the successor was, below its parent or,
      if that was the node, below the successor itself. */
  lemma RenamedShort(h: Heap, lab: Labels, node: nat, succ: nat, c: nat, k: Key)
    requires Inv(h, lab, NoFlaw) && node in h.m && succ in h.m && succ != node && h.m[succ].l == 0 && h.m[succ].r == c
    requires h.m[succ].parent != 0 && succ in lab.lo && succ in lab.hi && !h.m[succ].red
    requires h.m[succ].parent in h.m && h.m[node].l != 0
    requires if h.m[succ].parent == node then h.m[node].r == succ else h.m[h.m[succ].parent].l == succ
    requires var z, zl := Spliced(h, succ, c, true), SplicedLabels(lab, succ, c, 0);
             && CanRename(z, zl, node, succ, k)
             && Inv(Renamed(z, node, succ, k), RenamedLabels(z, zl, node, succ, k), RenamedFlaw(SpliceFlaw(h, succ, c, true), node, succ))
    ensures var z, zl := Spliced(h, succ, c, true), SplicedLabels(lab, succ, c, 0); var sp := h.m[succ].parent;
            Short(Renamed(z, node, succ, k), RenamedLabels(z, zl, node, succ, k), c, if sp == node then succ else sp, sp == node)
  {
    var z, zl, sp := Spliced(h, succ, c, true), SplicedLabels(lab, succ, c, 0), h.m[succ].parent;
    OnlyChild(h, lab, succ, c);
    SplicedAt(h, lab, succ, c, true, sp);
    RenamedNew(z, zl, node, succ, k);
    assert c != node && z.m[sp] == Replace(h.m[sp], succ, c);
    if sp != node {
      RenamedAt(z, zl, node, succ, k, sp);
      hide Inv, CanRename, Spliced, Renamed, RenamedLabels;
    }
  }
}
