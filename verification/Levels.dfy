/** Levels, reachability and paths (find_levels, find_inedges' edge view). */
module Levels {
  import opened Machine
  import opened Graph

  /** One of the two branch edges of a block. */
  datatype Edge = Edge(src: nat, dir: bool)

  ghost predicate ValidEdge(g: Graph, e: Edge) {
    e.src < |g| && g[e.src].term.Br?
  }

  ghost function Dst(g: Graph, e: Edge): nat
    requires ValidEdge(g, e)
  {
    Succ(g[e.src], e.dir)
  }

  /** `es` is a path of branch edges from `root` to `b`. */
  ghost predicate IsPath(g: Graph, root: nat, es: seq<Edge>, b: nat) {
    if es == [] then b == root
    else
      var e := es[|es| - 1];
      ValidEdge(g, e) && Dst(g, e) == b && IsPath(g, root, es[..|es| - 1], e.src)
  }

  lemma PathSnoc(g: Graph, root: nat, es: seq<Edge>, e: Edge)
    requires ValidEdge(g, e) && IsPath(g, root, es, e.src)
    ensures IsPath(g, root, es + [e], Dst(g, e))
  {
    assert (es + [e])[..|es|] == es;
  }

  /** The blocks reachable from `b`. */
  ghost function Reach(g: Graph, lv: seq<nat>, b: nat): (s: set<nat>)
    requires Levelled(g, lv) && b < |g|
    ensures b in s && forall x | x in s :: x < |g| && lv[x] <= lv[b]
    decreases lv[b]
  {
    if g[b].term.Ret? then {b}
    else
      assert EdgeDown(g, lv, b, true) && EdgeDown(g, lv, b, false);
      {b} + Reach(g, lv, g[b].term.jt) + Reach(g, lv, g[b].term.jf)
  }

  lemma {:induction false} ReachClosed(g: Graph, lv: seq<nat>, root: nat, e: Edge)
    requires Levelled(g, lv) && root < |g| && ValidEdge(g, e) && e.src in Reach(g, lv, root)
    ensures Dst(g, e) in Reach(g, lv, root)
    decreases lv[root]
  {
    assert EdgeDown(g, lv, e.src, e.dir);
    if e.src != root {
      assert EdgeDown(g, lv, root, true) && EdgeDown(g, lv, root, false);
      if e.src in Reach(g, lv, g[root].term.jt) {
        ReachClosed(g, lv, g[root].term.jt, e);
      } else {
        ReachClosed(g, lv, g[root].term.jf, e);
      }
    }
  }

  /** Every block on a path from the root is reachable. */
  lemma {:induction false} PathReaches(g: Graph, lv: seq<nat>, root: nat, es: seq<Edge>, b: nat)
    requires Levelled(g, lv) && root < |g| && IsPath(g, root, es, b)
    ensures b in Reach(g, lv, root) && forall e | e in es :: e.src in Reach(g, lv, root)
    decreases |es|
  {
    if es != [] {
      var e := es[|es| - 1];
      assert es == es[..|es| - 1] + [e];
      PathReaches(g, lv, root, es[..|es| - 1], e.src);
      ReachClosed(g, lv, root, e);
    }
  }

  lemma {:induction false} PathCons(g: Graph, e: Edge, es: seq<Edge>, b: nat)
    requires ValidEdge(g, e) && IsPath(g, Dst(g, e), es, b)
    ensures IsPath(g, e.src, [e] + es, b)
    decreases |es|
  {
    if es == [] {
      assert [e] + es == [e] && [e][..0] == [];
    } else {
      var k := |es| - 1;
      assert ([e] + es)[..|es|] == [e] + es[..k];
      PathCons(g, e, es[..k], es[k].src);
    }
  }

  /** Every reachable block has a path. */
  lemma {:induction false} ReachHasPath(g: Graph, lv: seq<nat>, root: nat, b: nat) returns (es: seq<Edge>)
    requires Levelled(g, lv) && root < |g| && b in Reach(g, lv, root)
    ensures IsPath(g, root, es, b)
    decreases lv[root]
  {
    if b == root {
      es := [];
    } else {
      assert EdgeDown(g, lv, root, true) && EdgeDown(g, lv, root, false);
      var d := b in Reach(g, lv, g[root].term.jt);
      var tail := ReachHasPath(g, lv, Succ(g[root], d), b);
      es := [Edge(root, d)] + tail;
      PathCons(g, Edge(root, d), tail, b);
    }
  }

  /** All sources on a path to `b` lie strictly above `b`. */
  lemma {:induction false} PathAbove(g: Graph, lv: seq<nat>, root: nat, es: seq<Edge>, b: nat)
    requires Levelled(g, lv) && root < |g| && IsPath(g, root, es, b)
    ensures b < |g|
    ensures forall e | e in es :: ValidEdge(g, e) && lv[e.src] > lv[b]
    decreases |es|
  {
    if es != [] {
      var e := es[|es| - 1];
      assert es == es[..|es| - 1] + [e];
      PathAbove(g, lv, root, es[..|es| - 1], e.src);
      assert EdgeDown(g, lv, e.src, e.dir);
    }
  }

  // Levels

  /** The level find_levels gives a block: 0 at a leaf, else one above its higher successor. */
  ghost function Height(g: Graph, lv: seq<nat>, b: nat): nat
    requires Levelled(g, lv) && b < |g|
    decreases lv[b]
  {
    if g[b].term.Ret? then 0
    else
      assert EdgeDown(g, lv, b, true) && EdgeDown(g, lv, b, false);
      1 + Max(Height(g, lv, g[b].term.jt), Height(g, lv, g[b].term.jf))
  }

  /** The levels are the exact heights. */
  ghost predicate ExactLevels(g: Graph, lv: seq<nat>) {
    && Levelled(g, lv)
    && forall b {:trigger HeightOver(g, lv, b)} | 0 <= b < |g| :: lv[b] == HeightOver(g, lv, b)
  }

  ghost function HeightOver(g: Graph, lv: seq<nat>, b: nat): nat
    requires Levelled(g, lv) && b < |g|
  {
    if g[b].term.Ret? then 0
    else
      assert EdgeDown(g, lv, b, true) && EdgeDown(g, lv, b, false);
      1 + Max(lv[g[b].term.jt], lv[g[b].term.jf])
  }

  /** Every acyclic graph has exact levels. */
  lemma HeightsAreExact(g: Graph, lv: seq<nat>, h: seq<nat>)
    requires Levelled(g, lv) && |h| == |g| && forall b | 0 <= b < |g| :: h[b] == Height(g, lv, b)
    ensures ExactLevels(g, h)
  {
    forall b, d | 0 <= b < |g| && g[b].term.Br?
      ensures EdgeDown(g, h, b, d)
    {
      assert EdgeDown(g, lv, b, d);
    }
    forall b | 0 <= b < |g|
      ensures h[b] == HeightOver(g, h, b)
    {
      if g[b].term.Br? { assert EdgeDown(g, lv, b, true) && EdgeDown(g, lv, b, false); }
    }
  }

  /** `levels[i]` lists each reachable block of level `i` once. */
  ghost predicate LevelLists(g: Graph, lv: seq<nat>, root: nat, levels: seq<seq<nat>>) {
    && Levelled(g, lv) && root < |g| && lv[root] < |levels|
    && (forall i, x | 0 <= i < |levels| && x in levels[i] :: x in Reach(g, lv, root) && lv[x] == i)
    && (forall x | x in Reach(g, lv, root) :: lv[x] < |levels| && x in levels[lv[x]])
    && (forall i | 0 <= i < |levels| :: NoDup(levels[i]))
  }

  /** The blocks still to be finished lie strictly above every block visited now. */
  ghost predicate StackAbove(lv: seq<nat>, stack: set<nat>, b: nat) {
    b < |lv| && forall s | s in stack :: s < |lv| && lv[s] > lv[b]
  }

  /** Every marked block off the stack has its successors marked. */
  ghost predicate MarksClosed(g: Graph, marked: set<nat>, stack: set<nat>) {
    && (forall m | m in marked :: m < |g|)
    && forall m, d | m in marked && m !in stack && g[m].term.Br? :: Succ(g[m], d) in marked
  }

  lemma {:induction false} MarkedReach(g: Graph, lv: seq<nat>, marked: set<nat>, stack: set<nat>, b: nat)
    requires Levelled(g, lv) && b < |g| && MarksClosed(g, marked, stack) && StackAbove(lv, stack, b) && b in marked
    ensures Reach(g, lv, b) <= marked
    decreases lv[b]
  {
    if g[b].term.Br? {
      assert EdgeDown(g, lv, b, true) && EdgeDown(g, lv, b, false);
      assert Succ(g[b], true) in marked && Succ(g[b], false) in marked;
      MarkedReach(g, lv, marked, stack, g[b].term.jt);
      MarkedReach(g, lv, marked, stack, g[b].term.jf);
    }
  }

  /** The state of find_levels: marks, level numbers and the level lists. */
  class Leveller {
    const g: Graph
    var marked: set<nat>
    var level: seq<nat>
    var levels: seq<seq<nat>>

    constructor (g: Graph)
      ensures this.g == g && marked == {} && |level| == |g| && |levels| == |g|
      ensures forall i | 0 <= i < |g| :: levels[i] == []
    {
      this.g := g;
      marked := {};
      level := seq(|g|, _ => 0);
      levels := seq(|g|, _ => []);
    }

    ghost predicate Valid(lv: seq<nat>, stack: set<nat>)
      reads this
    {
      Levelled(g, lv) && MarksClosed(g, marked, stack) && Filed(g, lv, marked - stack, level, levels)
    }

    /** Number the unmarked blocks below `b`. */
    method FindLevelsR(ghost lv: seq<nat>, ghost stack: set<nat>, b: nat)
      requires Valid(lv, stack) && b < |g| && StackAbove(lv, stack, b) && stack <= marked
      modifies this
      ensures Valid(lv, stack)
      ensures marked == old(marked) + Reach(g, lv, b)
      decreases lv[b]
    {
      if b in marked {
        MarkedReach(g, lv, marked, stack, b);
        return;
      }
      ghost var open := stack + {b};
      assert marked + {b} - open == marked - stack;
      marked := marked + {b};
      if g[b].term.Br? {
        assert EdgeDown(g, lv, b, true) && EdgeDown(g, lv, b, false);
        FindLevelsR(lv, open, g[b].term.jt);
        FindLevelsR(lv, open, g[b].term.jf);
      }
      SetLevel(lv, stack, b);
    }

    /** Give `b` its level and put it at the front of that level's list. */
    method SetLevel(ghost lv: seq<nat>, ghost stack: set<nat>, b: nat)
      requires Valid(lv, stack + {b}) && b in marked - stack && b < |g|
      requires g[b].term.Br? ==> {g[b].term.jt, g[b].term.jf} <= marked - (stack + {b})
      modifies this
      ensures Valid(lv, stack) && marked == old(marked)
    {
      var lev := 0;
      if g[b].term.Br? {
        assert EdgeDown(g, lv, b, true) && EdgeDown(g, lv, b, false);
        lev := Max(level[g[b].term.jt], level[g[b].term.jf]) + 1;
      }
      HeightBound(g, lv, b);
      FileBlock(g, lv, marked - (stack + {b}), level, levels, b);
      assert marked - (stack + {b}) + {b} == marked - stack;
      level := level[b := lev];
      levels := levels[lev := [b] + levels[lev]];
    }

    /** Level the graph from `root`. */
    method FindLevels(ghost lv: seq<nat>, root: nat) returns (ghost h: seq<nat>)
      requires Levelled(g, lv) && root < |g|
      modifies this
      ensures ExactLevels(g, h) && LevelLists(g, h, root, levels)
      ensures |level| == |g| && forall b | b in Reach(g, h, root) :: level[b] == h[b]
    {
      marked, level, levels := {}, seq(|g|, _ => 0), seq(|g|, _ => []);
      FindLevelsR(lv, {}, root);
      h := seq(|g|, b requires 0 <= b < |g| => Height(g, lv, b));
      HeightsAreExact(g, lv, h);
      ReachLevelIrrelevant(g, lv, h, root);
      assert marked - {} == Reach(g, h, root);
      FiledLists(g, lv, h, root, level, levels);
    }
  }

  /** Each block of `done` is listed exactly once, under its height. */
  ghost predicate Filed(g: Graph, lv: seq<nat>, done: set<nat>, level: seq<nat>, levels: seq<seq<nat>>)
    requires Levelled(g, lv)
  {
    && |level| == |g| && |levels| == |g|
    && (forall m | m in done :: m < |g| && level[m] == Height(g, lv, m) < |g| && m in levels[level[m]])
    && (forall i, x | 0 <= i < |levels| && x in levels[i] :: x in done && level[x] == i)
    && (forall i | 0 <= i < |levels| :: NoDup(levels[i]))
  }

  lemma FileBlock(g: Graph, lv: seq<nat>, done: set<nat>, level: seq<nat>, levels: seq<seq<nat>>, b: nat)
    requires Levelled(g, lv) && b < |g| && b !in done && Filed(g, lv, done, level, levels)
    requires Height(g, lv, b) < |g|
    ensures var h := Height(g, lv, b);
            Filed(g, lv, done + {b}, level[b := h], levels[h := [b] + levels[h]])
  {
    var h := Height(g, lv, b);
    var levels' := levels[h := [b] + levels[h]];
    assert b !in levels[h];
    assert NoDup(levels'[h]);
    forall m | m in done + {b}
      ensures m in levels'[level[b := h][m]]
    {
      if m != b { assert m in levels[level[m]]; }
    }
    forall i, x | 0 <= i < |levels'| && x in levels'[i]
      ensures x in done + {b} && level[b := h][x] == i
    {
      assert x in levels[i] || (x == b && i == h);
    }
  }

  lemma FiledLists(g: Graph, lv: seq<nat>, h: seq<nat>, root: nat, level: seq<nat>, levels: seq<seq<nat>>)
    requires Levelled(g, lv) && Levelled(g, h) && root < |g|
    requires forall b | 0 <= b < |g| :: h[b] == Height(g, lv, b)
    requires Filed(g, lv, Reach(g, h, root), level, levels)
    ensures LevelLists(g, h, root, levels)
    ensures forall b | b in Reach(g, h, root) :: level[b] == h[b]
  {
  }

  lemma {:induction false} ReachLevelIrrelevant(g: Graph, lv: seq<nat>, lv': seq<nat>, b: nat)
    requires Levelled(g, lv) && Levelled(g, lv') && b < |g|
    ensures Reach(g, lv, b) == Reach(g, lv', b)
    decreases lv[b]
  {
    if g[b].term.Br? {
      assert EdgeDown(g, lv, b, true) && EdgeDown(g, lv, b, false);
      assert EdgeDown(g, lv', b, true) && EdgeDown(g, lv', b, false);
      ReachLevelIrrelevant(g, lv, lv', g[b].term.jt);
      ReachLevelIrrelevant(g, lv, lv', g[b].term.jf);
    }
  }

  /** The blocks of a longest path down from `b`. */
  lemma {:induction false} HeightChain(g: Graph, lv: seq<nat>, b: nat) returns (s: set<nat>)
    requires Levelled(g, lv) && b < |g|
    ensures |s| == Height(g, lv, b) + 1
    ensures forall x | x in s :: x < |g| && lv[x] <= lv[b]
    decreases lv[b]
  {
    if g[b].term.Ret? {
      s := {b};
    } else {
      assert EdgeDown(g, lv, b, true) && EdgeDown(g, lv, b, false);
      var t := g[b].term;
      var d := Height(g, lv, t.jt) >= Height(g, lv, t.jf);
      s := HeightChain(g, lv, Succ(g[b], d));
      s := s + {b};
    }
  }

  /** A longest way down visits each block at most once, so one level per block is enough. */
  lemma HeightBound(g: Graph, lv: seq<nat>, b: nat)
    requires Levelled(g, lv) && b < |g|
    ensures Height(g, lv, b) < |g|
  {
    var s := HeightChain(g, lv, b);
    BoundedSet(s, |g|);
  }

  lemma {:induction false} BoundedSet(s: set<nat>, n: nat)
    requires forall x | x in s :: x < n
    ensures |s| <= n
  {
    if s != {} {
      if n - 1 in s {
        BoundedSet(s - {n - 1}, n - 1);
      } else {
        BoundedSet(s, n - 1);
      }
    }
  }
}
