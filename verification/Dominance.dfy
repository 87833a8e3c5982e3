/** Dominators, edge dominators and backward closure over a levelled graph (find_dom, find_edom, find_closure). */
module Dominance {
  import opened Machine
  import opened Graph
  import opened Levels

  // What the sets mean

  /** The path `es` to `b` does not pass through block `d`. */
  ghost predicate Avoids(es: seq<Edge>, b: nat, d: nat) {
    d != b && forall e | e in es :: e.src != d
  }

  /** `d` is on every path from the root to `b`. */
  ghost predicate Dominates(g: Graph, root: nat, d: nat, b: nat) {
    forall es :: IsPath(g, root, es, b) ==> !Avoids(es, b, d)
  }

  /** Edge `k` is on every path from the root that ends with edge `e`. */
  ghost predicate EdgeDominates(g: Graph, root: nat, k: Edge, e: Edge) {
    forall es :: IsPath(g, root, es, e.src) ==> k == e || k in es
  }

  /** `a` is reachable from the root, and `b` from `a`. */
  ghost predicate Reaches(g: Graph, lv: seq<nat>, root: nat, a: nat, b: nat)
    requires Levelled(g, lv) && root < |g|
  {
    a in Reach(g, lv, root) && b in Reach(g, lv, a)
  }

  // The order in which the sweeps visit blocks

  /** Reachable blocks of level at least `i`. */
  ghost function Above(g: Graph, lv: seq<nat>, root: nat, i: nat): set<nat>
    requires Levelled(g, lv) && root < |g|
  {
    set x | x in Reach(g, lv, root) && lv[x] >= i
  }

  /** The blocks visited when `j` blocks of level `i` are done, and all levels above it. */
  ghost function Visited(g: Graph, lv: seq<nat>, root: nat, levels: seq<seq<nat>>, i: nat, j: nat): set<nat>
    requires LevelLists(g, lv, root, levels) && i < |levels| && j <= |levels[i]|
  {
    Above(g, lv, root, i + 1) + set x | x in levels[i][..j]
  }

  lemma VisitNext(g: Graph, lv: seq<nat>, root: nat, levels: seq<seq<nat>>, i: nat, j: nat)
    requires LevelLists(g, lv, root, levels) && i < |levels| && j < |levels[i]|
    ensures var b, done := levels[i][j], Visited(g, lv, root, levels, i, j);
            && b in Reach(g, lv, root) && b < |g| && b !in done && lv[b] == i
            && Visited(g, lv, root, levels, i, j + 1) == done + {b}
            && (forall x | x in done :: x in Reach(g, lv, root) && lv[x] >= lv[b])
            && (forall x | x in Reach(g, lv, root) && lv[x] > lv[b] :: x in done)
  {
    assert levels[i][..j + 1] == levels[i][..j] + [levels[i][j]];
    assert NoDup(levels[i]);
    assert levels[i][j] in levels[i];
    forall x | x in levels[i][..j] ensures x in levels[i] { }
  }

  lemma VisitLevel(g: Graph, lv: seq<nat>, root: nat, levels: seq<seq<nat>>, i: nat)
    requires LevelLists(g, lv, root, levels) && i < |levels|
    ensures Visited(g, lv, root, levels, i, 0) == Above(g, lv, root, i + 1)
    ensures Visited(g, lv, root, levels, i, |levels[i]|) == Above(g, lv, root, i)
  {
    assert levels[i][..|levels[i]|] == levels[i];
  }

  // Block dominators

  function Blocks(n: nat): (s: set<nat>)
    ensures forall x: nat :: x in s <==> x < n
  {
    if n == 0 then {} else Blocks(n - 1) + {n - 1}
  }

  /** What the dominator set of `y` holds once the blocks in `done` have been propagated. */
  ghost predicate DomRule(g: Graph, root: nat, done: set<nat>, dom: seq<set<nat>>, y: nat, d: nat)
    requires |dom| == |g|
  {
    || (y in done && d == y)
    || (y != root && forall e | ValidEdge(g, e) && e.src in done && Dst(g, e) == y :: d in dom[e.src])
  }

  ghost predicate DomInv(g: Graph, lv: seq<nat>, root: nat, done: set<nat>, dom: seq<set<nat>>) {
    && Levelled(g, lv) && root < |g| && |dom| == |g|
    && forall y, d | y in Reach(g, lv, root) && 0 <= d < |g| :: d in dom[y] <==> DomRule(g, root, done, dom, y, d)
  }

  function Propagate(g: Graph, dom: seq<set<nat>>, b: nat): (dom': seq<set<nat>>)
    requires |dom| == |g| && b < |g| && (g[b].term.Br? ==> g[b].term.jt < |g| && g[b].term.jf < |g|)
  {
    var dom1 := dom[b := dom[b] + {b}];
    if g[b].term.Ret? then dom1
    else
      var dom2 := dom1[g[b].term.jt := dom1[g[b].term.jt] * dom1[b]];
      dom2[g[b].term.jf := dom2[g[b].term.jf] * dom2[b]]
  }

  lemma DomStep(g: Graph, lv: seq<nat>, root: nat, done: set<nat>, dom: seq<set<nat>>, b: nat)
    requires DomInv(g, lv, root, done, dom) && b in Reach(g, lv, root) && b !in done
    requires forall x | x in done :: x < |g| && lv[x] >= lv[b]
    requires g[b].term.Br? ==> EdgeDown(g, lv, b, true) && EdgeDown(g, lv, b, false)
    ensures DomInv(g, lv, root, done + {b}, Propagate(g, dom, b))
  {
    var dom' := Propagate(g, dom, b);
    forall x | x in done ensures dom'[x] == dom[x] { }
    forall y, d | y in Reach(g, lv, root) && 0 <= d < |g|
      ensures d in dom'[y] <==> DomRule(g, root, done + {b}, dom', y, d)
    {
      assert d in dom[y] <==> DomRule(g, root, done, dom, y, d);
      if g[b].term.Br? {
        assert ValidEdge(g, Edge(b, true)) && ValidEdge(g, Edge(b, false));
        assert Dst(g, Edge(b, true)) == g[b].term.jt && Dst(g, Edge(b, false)) == g[b].term.jf;
        ReachClosed(g, lv, root, Edge(b, true));
        assert lv[g[b].term.jt] < lv[root] && lv[g[b].term.jf] < lv[root];
      }
    }
  }

  /** A member of a dominator set is on every path. */
  lemma {:induction false} DomSound(g: Graph, lv: seq<nat>, root: nat, dom: seq<set<nat>>, es: seq<Edge>, b: nat,
                                    d: nat)
    requires Levelled(g, lv) && root < |g| && DomInv(g, lv, root, Reach(g, lv, root), dom) && IsPath(g, root, es, b)
    requires d < |g|
    ensures b in Reach(g, lv, root) && (d in dom[b] ==> !Avoids(es, b, d))
    decreases |es|
  {
    PathReaches(g, lv, root, es, b);
    if es != [] {
      var e := es[|es| - 1];
      assert es == es[..|es| - 1] + [e];
      DomSound(g, lv, root, dom, es[..|es| - 1], e.src, d);
      PathAbove(g, lv, root, es, b);
      assert d in dom[b] ==> DomRule(g, root, Reach(g, lv, root), dom, b, d);
    }
  }

  /** A block outside a dominator set is avoided by some path. */
  lemma {:induction false} DomComplete(g: Graph, lv: seq<nat>, root: nat, dom: seq<set<nat>>, b: nat, d: nat)
      returns (es: seq<Edge>)
    requires Levelled(g, lv) && root < |g| && DomInv(g, lv, root, Reach(g, lv, root), dom) && b in Reach(g, lv, root)
    requires d < |g| && d !in dom[b]
    ensures IsPath(g, root, es, b) && Avoids(es, b, d)
    decreases lv[root] - lv[b]
  {
    assert !DomRule(g, root, Reach(g, lv, root), dom, b, d);
    if b == root {
      es := [];
    } else {
      var e :| ValidEdge(g, e) && e.src in Reach(g, lv, root) && Dst(g, e) == b && d !in dom[e.src];
      assert EdgeDown(g, lv, e.src, e.dir);
      var pre := DomComplete(g, lv, root, dom, e.src, d);
      es := pre + [e];
      PathSnoc(g, root, pre, e);
    }
  }

  lemma DomExact(g: Graph, lv: seq<nat>, root: nat, dom: seq<set<nat>>, b: nat, d: nat)
    requires Levelled(g, lv) && root < |g| && DomInv(g, lv, root, Reach(g, lv, root), dom)
    requires b in Reach(g, lv, root) && d < |g|
    ensures d in dom[b] <==> Dominates(g, root, d, b)
  {
    if d in dom[b] {
      forall es | IsPath(g, root, es, b) ensures !Avoids(es, b, d) { DomSound(g, lv, root, dom, es, b, d); }
    } else {
      var es := DomComplete(g, lv, root, dom, b, d);
    }
  }

  /** Compute, for every reachable block, exactly the blocks on every path to it. */
  method FindDom(g: Graph, ghost lv: seq<nat>, levels: seq<seq<nat>>, root: nat, rootLevel: nat)
    returns (dom: seq<set<nat>>)
    requires LevelLists(g, lv, root, levels) && rootLevel == lv[root]
    ensures |dom| == |g|
    ensures forall b, d | b in Reach(g, lv, root) && 0 <= d < |g| :: d in dom[b] <==> Dominates(g, root, d, b)
  {
    dom := seq(|g|, _ => Blocks(|g|));
    dom := dom[root := {}];
    assert Above(g, lv, root, rootLevel + 1) == {};
    for i := rootLevel + 1 downto 0
      invariant DomInv(g, lv, root, Above(g, lv, root, i), dom)
    {
      VisitLevel(g, lv, root, levels, i);
      for j := 0 to |levels[i]|
        invariant DomInv(g, lv, root, Visited(g, lv, root, levels, i, j), dom)
      {
        VisitNext(g, lv, root, levels, i, j);
        var b := levels[i][j];
        assert g[b].term.Br? ==> EdgeDown(g, lv, b, true) && EdgeDown(g, lv, b, false);
        DomStep(g, lv, root, Visited(g, lv, root, levels, i, j), dom, b);
        dom := Propagate(g, dom, b);
      }
    }
    assert Above(g, lv, root, 0) == Reach(g, lv, root);
    forall b, d | b in Reach(g, lv, root) && 0 <= d < |g|
      ensures d in dom[b] <==> Dominates(g, root, d, b)
    {
      DomExact(g, lv, root, dom, b, d);
    }
  }

  // Edge dominators

  type EdgeSets = map<Edge, set<Edge>>

  ghost predicate EdomRule(g: Graph, root: nat, done: set<Edge>, edom: EdgeSets, e: Edge, k: Edge) {
    || (e in done && k == e)
    || (e.src != root && forall f | f in done && ValidEdge(g, f) && Dst(g, f) == e.src :: f in edom && k in edom[f])
  }

  ghost predicate EdomInv(g: Graph, lv: seq<nat>, root: nat, done: set<Edge>, edom: EdgeSets) {
    && Levelled(g, lv) && root < |g|
    && (forall e: Edge | e.src < |g| :: e in edom)
    && forall e: Edge, k: Edge | e.src in Reach(g, lv, root) && k.src < |g| ::
         k in edom[e] <==> EdomRule(g, root, done, edom, e, k)
  }

  /** Add an edge to its own set and pass the set on to the edges leaving its target (propedom). */
  function PropEdom(g: Graph, edom: EdgeSets, e: Edge): (edom': EdgeSets)
    requires e.src < |g| && (forall f: Edge | f.src < |g| :: f in edom)
    requires g[e.src].term.Br? ==> Succ(g[e.src], e.dir) < |g|
    ensures forall f: Edge | f.src < |g| :: f in edom'
  {
    var edom1 := edom[e := edom[e] + {e}];
    if g[e.src].term.Ret? then edom1
    else
      var s := Succ(g[e.src], e.dir);
      var edom2 := edom1[Edge(s, true) := edom1[Edge(s, true)] * edom1[e]];
      edom2[Edge(s, false) := edom2[Edge(s, false)] * edom2[e]]
  }

  lemma EdomStep(g: Graph, lv: seq<nat>, root: nat, done: set<Edge>, edom: EdgeSets, e: Edge)
    requires EdomInv(g, lv, root, done, edom) && e.src in Reach(g, lv, root) && e !in done
    requires forall f | f in done :: f.src < |g| && lv[f.src] >= lv[e.src]
    requires g[e.src].term.Br? ==> EdgeDown(g, lv, e.src, e.dir)
    ensures EdomInv(g, lv, root, done + {e}, PropEdom(g, edom, e))
  {
    forall x: Edge, k: Edge | x.src in Reach(g, lv, root) && k.src < |g|
      ensures k in PropEdom(g, edom, e)[x] <==> EdomRule(g, root, done + {e}, PropEdom(g, edom, e), x, k)
    {
      EdomStepAt(g, lv, root, done, edom, e, x, k);
    }
  }

  lemma EdomStepAt(g: Graph, lv: seq<nat>, root: nat, done: set<Edge>, edom: EdgeSets, e: Edge, x: Edge, k: Edge)
    requires EdomInv(g, lv, root, done, edom) && e.src in Reach(g, lv, root) && e !in done
    requires forall f | f in done :: f.src < |g| && lv[f.src] >= lv[e.src]
    requires g[e.src].term.Br? ==> EdgeDown(g, lv, e.src, e.dir)
    requires x.src in Reach(g, lv, root) && k.src < |g|
    ensures k in PropEdom(g, edom, e)[x] <==> EdomRule(g, root, done + {e}, PropEdom(g, edom, e), x, k)
  {
    var edom' := PropEdom(g, edom, e);
    assert k in edom[x] <==> EdomRule(g, root, done, edom, x, k);
    forall f | f in done ensures edom'[f] == edom[f] { }
    if ValidEdge(g, e) {
      ReachClosed(g, lv, root, e);
      assert lv[Dst(g, e)] < lv[root];
    }
  }

  /** Edges of visited blocks, as a set. */
  function EdgesOf(blocks: set<nat>): set<Edge> {
    (set b | b in blocks :: Edge(b, true)) + (set b | b in blocks :: Edge(b, false))
  }

  lemma {:induction false} EdomSound(g: Graph, lv: seq<nat>, root: nat, edom: EdgeSets, es: seq<Edge>, e: Edge, k: Edge)
    requires Levelled(g, lv) && root < |g| && EdomInv(g, lv, root, EdgesOf(Reach(g, lv, root)), edom)
    requires IsPath(g, root, es, e.src) && k.src < |g|
    ensures e.src in Reach(g, lv, root) && (k in edom[e] ==> k == e || k in es)
    decreases |es|
  {
    PathReaches(g, lv, root, es, e.src);
    if es != [] {
      var f := es[|es| - 1];
      EdomSound(g, lv, root, edom, es[..|es| - 1], f, k);
      assert k in edom[e] ==> EdomRule(g, root, EdgesOf(Reach(g, lv, root)), edom, e, k);
      assert f in EdgesOf(Reach(g, lv, root));
      PathAbove(g, lv, root, es, e.src);
    } else {
      assert k in edom[e] ==> EdomRule(g, root, EdgesOf(Reach(g, lv, root)), edom, e, k);
    }
  }

  lemma {:induction false} EdomComplete(g: Graph, lv: seq<nat>, root: nat, edom: EdgeSets, e: Edge, k: Edge)
      returns (es: seq<Edge>)
    requires Levelled(g, lv) && root < |g| && EdomInv(g, lv, root, EdgesOf(Reach(g, lv, root)), edom)
    requires e.src in Reach(g, lv, root) && k.src < |g| && k !in edom[e]
    ensures IsPath(g, root, es, e.src) && k != e && k !in es
    decreases lv[root] - lv[e.src]
  {
    var all := EdgesOf(Reach(g, lv, root));
    assert e in all;
    assert !EdomRule(g, root, all, edom, e, k);
    if e.src == root {
      es := [];
    } else {
      var f :| f in all && ValidEdge(g, f) && Dst(g, f) == e.src && k !in edom[f];
      assert EdgeDown(g, lv, f.src, f.dir);
      var pre := EdomComplete(g, lv, root, edom, f, k);
      es := pre + [f];
      PathSnoc(g, root, pre, f);
    }
  }

  lemma EdomExact(g: Graph, lv: seq<nat>, root: nat, edom: EdgeSets, e: Edge, k: Edge)
    requires Levelled(g, lv) && root < |g| && EdomInv(g, lv, root, EdgesOf(Reach(g, lv, root)), edom)
    requires e.src in Reach(g, lv, root) && k.src < |g|
    ensures k in edom[e] <==> EdgeDominates(g, root, k, e)
  {
    if k in edom[e] {
      forall es | IsPath(g, root, es, e.src) ensures k == e || k in es { EdomSound(g, lv, root, edom, es, e, k); }
    } else {
      var es := EdomComplete(g, lv, root, edom, e, k);
    }
  }

  lemma EdomInit(g: Graph, lv: seq<nat>, root: nat, all: set<Edge>, edom: EdgeSets)
    requires Levelled(g, lv) && root < |g| && all == EdgesOf(Blocks(|g|))
    requires edom == (map e | e in all :: all)[Edge(root, true) := {}][Edge(root, false) := {}]
    ensures EdomInv(g, lv, root, {}, edom)
  {
    forall e: Edge | e.src < |g| ensures e in all { }
    forall e: Edge, k: Edge | e.src in Reach(g, lv, root) && k.src < |g|
      ensures k in edom[e] <==> EdomRule(g, root, {}, edom, e, k)
    {
    }
  }

  /** Propagate both edges of a block. */
  lemma EdomBlock(g: Graph, lv: seq<nat>, root: nat, done: set<nat>, edom: EdgeSets, b: nat)
    requires EdomInv(g, lv, root, EdgesOf(done), edom) && b in Reach(g, lv, root) && b !in done
    requires forall x | x in done :: x < |g| && lv[x] >= lv[b]
    requires g[b].term.Br? ==> EdgeDown(g, lv, b, true) && EdgeDown(g, lv, b, false)
    ensures EdomInv(g, lv, root, EdgesOf(done + {b}), PropEdom(g, PropEdom(g, edom, Edge(b, true)), Edge(b, false)))
  {
    EdomStep(g, lv, root, EdgesOf(done), edom, Edge(b, true));
    EdomStep(g, lv, root, EdgesOf(done) + {Edge(b, true)}, PropEdom(g, edom, Edge(b, true)), Edge(b, false));
    EdgesOfAdd(done, b);
  }

  lemma EdgesOfAdd(done: set<nat>, b: nat)
    ensures EdgesOf(done + {b}) == EdgesOf(done) + {Edge(b, true)} + {Edge(b, false)}
  {
    var all := EdgesOf(done + {b});
    assert forall e: Edge :: e in EdgesOf(done) <==> e.src in done;
    assert forall e: Edge :: e in all <==> e.src in done + {b};
  }

  /** Compute, for every reachable edge, exactly the edges on every path that ends with it. */
  method FindEdom(g: Graph, ghost lv: seq<nat>, levels: seq<seq<nat>>, root: nat, rootLevel: nat)
    returns (edom: EdgeSets)
    requires LevelLists(g, lv, root, levels) && rootLevel == lv[root]
    ensures forall e: Edge | e.src < |g| :: e in edom
    ensures forall e: Edge, k: Edge | e.src in Reach(g, lv, root) && k.src < |g| ::
              k in edom[e] <==> EdgeDominates(g, root, k, e)
  {
    edom := StartEdom(g, lv, root, rootLevel);
    for i := rootLevel + 1 downto 0
      invariant EdomInv(g, lv, root, EdgesOf(Above(g, lv, root, i)), edom)
    {
      edom := EdomLevel(g, lv, levels, root, edom, i);
    }
    EdomDone(g, lv, root, edom);
  }

  /** When all blocks are visited the sets are exact. */
  lemma EdomDone(g: Graph, lv: seq<nat>, root: nat, edom: EdgeSets)
    requires Levelled(g, lv) && root < |g| && EdomInv(g, lv, root, EdgesOf(Above(g, lv, root, 0)), edom)
    ensures forall e: Edge | e.src < |g| :: e in edom
    ensures forall e: Edge, k: Edge | e.src in Reach(g, lv, root) && k.src < |g| ::
              k in edom[e] <==> EdgeDominates(g, root, k, e)
  {
    assert Above(g, lv, root, 0) == Reach(g, lv, root);
    forall e: Edge, k: Edge | e.src in Reach(g, lv, root) && k.src < |g|
      ensures k in edom[e] <==> EdgeDominates(g, root, k, e)
    {
      EdomExact(g, lv, root, edom, e, k);
    }
  }

  /** Every edge but those of the root may be dominated by any edge. */
  method StartEdom(g: Graph, ghost lv: seq<nat>, root: nat, ghost rootLevel: nat) returns (edom: EdgeSets)
    requires Levelled(g, lv) && root < |g| && rootLevel == lv[root]
    ensures EdomInv(g, lv, root, EdgesOf(Above(g, lv, root, rootLevel + 1)), edom)
  {
    assert Above(g, lv, root, rootLevel + 1) == {} && EdgesOf({}) == {};
    var all := EdgesOf(Blocks(|g|));
    edom := map e | e in all :: all;
    edom := edom[Edge(root, true) := {}][Edge(root, false) := {}];
    EdomInit(g, lv, root, all, edom);
  }

  /** Propagate along the edges of all blocks of level `i`. */
  method EdomLevel(g: Graph, ghost lv: seq<nat>, levels: seq<seq<nat>>, ghost root: nat, edom: EdgeSets, i: nat)
    returns (edom': EdgeSets)
    requires LevelLists(g, lv, root, levels) && i < |levels|
    requires EdomInv(g, lv, root, EdgesOf(Above(g, lv, root, i + 1)), edom)
    ensures EdomInv(g, lv, root, EdgesOf(Above(g, lv, root, i)), edom')
  {
    edom' := edom;
    VisitLevel(g, lv, root, levels, i);
    for j := 0 to |levels[i]|
      invariant EdomInv(g, lv, root, EdgesOf(Visited(g, lv, root, levels, i, j)), edom')
    {
      VisitNext(g, lv, root, levels, i, j);
      edom' := EdomVisit(g, lv, root, edom', levels[i][j], Visited(g, lv, root, levels, i, j));
    }
  }

  /** Propagate along both edges of one block. */
  method EdomVisit(g: Graph, ghost lv: seq<nat>, ghost root: nat, edom: EdgeSets, b: nat, ghost done: set<nat>)
    returns (edom': EdgeSets)
    requires EdomInv(g, lv, root, EdgesOf(done), edom) && b in Reach(g, lv, root) && b !in done
    requires forall x | x in done :: x < |g| && lv[x] >= lv[b]
    ensures EdomInv(g, lv, root, EdgesOf(done + {b}), edom')
  {
    assert g[b].term.Br? ==> EdgeDown(g, lv, b, true) && EdgeDown(g, lv, b, false);
    EdomBlock(g, lv, root, done, edom, b);
    edom' := PropEdom(g, edom, Edge(b, true));
    edom' := PropEdom(g, edom', Edge(b, false));
  }

  // Backward closure

  ghost predicate ClosureRule(g: Graph, done: set<nat>, clo: seq<set<nat>>, y: nat, a: nat)
    requires |clo| == |g|
  {
    || (y in done && a == y)
    || exists e :: ValidEdge(g, e) && e.src in done && Dst(g, e) == y && a in clo[e.src]
  }

  ghost predicate ClosureInv(g: Graph, lv: seq<nat>, root: nat, done: set<nat>, clo: seq<set<nat>>) {
    && Levelled(g, lv) && root < |g| && |clo| == |g|
    && forall y, a: nat | y in Reach(g, lv, root) :: a in clo[y] <==> ClosureRule(g, done, clo, y, a)
  }

  function PropagateClosure(g: Graph, clo: seq<set<nat>>, b: nat): (clo': seq<set<nat>>)
    requires |clo| == |g| && b < |g| && (g[b].term.Br? ==> g[b].term.jt < |g| && g[b].term.jf < |g|)
  {
    var clo1 := clo[b := clo[b] + {b}];
    if g[b].term.Ret? then clo1
    else
      var clo2 := clo1[g[b].term.jt := clo1[g[b].term.jt] + clo1[b]];
      clo2[g[b].term.jf := clo2[g[b].term.jf] + clo2[b]]
  }

  lemma ClosureStep(g: Graph, lv: seq<nat>, root: nat, done: set<nat>, clo: seq<set<nat>>, b: nat)
    requires ClosureInv(g, lv, root, done, clo) && b in Reach(g, lv, root) && b !in done
    requires forall x | x in done :: x < |g| && lv[x] >= lv[b]
    requires g[b].term.Br? ==> EdgeDown(g, lv, b, true) && EdgeDown(g, lv, b, false)
    ensures ClosureInv(g, lv, root, done + {b}, PropagateClosure(g, clo, b))
  {
    var clo' := PropagateClosure(g, clo, b);
    forall x | x in done ensures clo'[x] == clo[x] { }
    forall e | ValidEdge(g, e) && e.src in done + {b} ensures Dst(g, e) != e.src {
      assert EdgeDown(g, lv, e.src, e.dir);
    }
    forall y, a: nat | y in Reach(g, lv, root)
      ensures a in clo'[y] <==> ClosureRule(g, done + {b}, clo', y, a)
    {
      assert a in clo[y] <==> ClosureRule(g, done, clo, y, a);
      if g[b].term.Br? {
        assert ValidEdge(g, Edge(b, true)) && Dst(g, Edge(b, true)) == g[b].term.jt;
        assert ValidEdge(g, Edge(b, false)) && Dst(g, Edge(b, false)) == g[b].term.jf;
      }
      if a in clo[y] && !(y in done && a == y) {
        var e :| ValidEdge(g, e) && e.src in done && Dst(g, e) == y && a in clo[e.src];
        assert a in clo'[e.src];
      }
    }
  }

  /** Closure membership is reachability. */
  lemma {:induction false} ClosureExact(g: Graph, lv: seq<nat>, root: nat, clo: seq<set<nat>>, a: nat, b: nat)
    requires Levelled(g, lv) && root < |g| && ClosureInv(g, lv, root, Reach(g, lv, root), clo)
    requires b in Reach(g, lv, root)
    ensures a in clo[b] <==> Reaches(g, lv, root, a, b)
    decreases lv[root] - lv[b]
  {
    var all := Reach(g, lv, root);
    assert a in clo[b] <==> ClosureRule(g, all, clo, b, a);
    if a != b {
      if a in clo[b] {
        var e :| ValidEdge(g, e) && e.src in all && Dst(g, e) == b && a in clo[e.src];
        assert EdgeDown(g, lv, e.src, e.dir);
        ClosureExact(g, lv, root, clo, a, e.src);
        ReachClosed(g, lv, a, e);
      }
      if a in all && b in Reach(g, lv, a) {
        var es := ReachHasPath(g, lv, a, b);
        var e := es[|es| - 1];
        PathReaches(g, lv, a, es[..|es| - 1], e.src);
        assert EdgeDown(g, lv, e.src, e.dir);
        ReachTransitive(g, lv, root, a, e.src);
        ClosureExact(g, lv, root, clo, a, e.src);
        assert a in clo[e.src];
      }
    }
  }

  lemma {:induction false} ReachTransitive(g: Graph, lv: seq<nat>, root: nat, a: nat, b: nat)
    requires Levelled(g, lv) && root < |g| && a in Reach(g, lv, root) && b in Reach(g, lv, a)
    ensures b in Reach(g, lv, root)
    decreases lv[root]
  {
    if a != root {
      assert EdgeDown(g, lv, root, true) && EdgeDown(g, lv, root, false);
      if a in Reach(g, lv, g[root].term.jt) {
        ReachTransitive(g, lv, g[root].term.jt, a, b);
      } else {
        ReachTransitive(g, lv, g[root].term.jf, a, b);
      }
    }
  }

  /** Compute, for every reachable block, exactly the blocks that reach it. */
  method FindClosure(g: Graph, ghost lv: seq<nat>, levels: seq<seq<nat>>, root: nat, rootLevel: nat)
    returns (clo: seq<set<nat>>)
    requires LevelLists(g, lv, root, levels) && rootLevel == lv[root]
    ensures |clo| == |g|
    ensures forall a: nat, b | b in Reach(g, lv, root) ::
              a in clo[b] <==> Reaches(g, lv, root, a, b)
  {
    clo := seq(|g|, _ => {});
    assert Above(g, lv, root, rootLevel + 1) == {};
    for i := rootLevel + 1 downto 0
      invariant ClosureInv(g, lv, root, Above(g, lv, root, i), clo)
    {
      VisitLevel(g, lv, root, levels, i);
      for j := 0 to |levels[i]|
        invariant ClosureInv(g, lv, root, Visited(g, lv, root, levels, i, j), clo)
      {
        VisitNext(g, lv, root, levels, i, j);
        var b := levels[i][j];
        assert g[b].term.Br? ==> EdgeDown(g, lv, b, true) && EdgeDown(g, lv, b, false);
        ClosureStep(g, lv, root, Visited(g, lv, root, levels, i, j), clo, b);
        clo := PropagateClosure(g, clo, b);
      }
    }
    assert Above(g, lv, root, 0) == Reach(g, lv, root);
    forall a: nat, b | b in Reach(g, lv, root)
      ensures a in clo[b] <==> Reaches(g, lv, root, a, b)
    {
      ClosureExact(g, lv, root, clo, a, b);
    }
  }
}
