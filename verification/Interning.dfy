/** Merging equal blocks (eq_slist, eq_blk, mark_code, intern_blocks). */
module Interning {
  import opened Machine
  import opened Graph
  import opened Levels
  import opened Flat

  /** Same statements, deleted ones aside, and same end. */
  ghost predicate SameBlock(b: Block, c: Block) {
    b.term == c.term && Code(b.stmts) == Code(c.stmts)
  }

  /** Skip deleted statements. */
  method SkipNops(x: seq<Stmt>, i: nat) returns (j: nat)
    requires i <= |x|
    ensures i <= j <= |x| && Code(x[i..]) == Code(x[j..]) && (j == |x| || !x[j].Nop?)
  {
    j := i;
    while j < |x| && x[j].Nop?
      invariant i <= j <= |x| && Code(x[i..]) == Code(x[j..])
    {
      assert x[j..][1..] == x[j + 1..];
      j := j + 1;
    }
  }

  /** Compare two statement lists, ignoring deleted statements. */
  method EqSlist(x: seq<Stmt>, y: seq<Stmt>) returns (eq: bool)
    ensures eq <==> Code(x) == Code(y)
  {
    var i, j := 0, 0;
    assert x[0..] == x && y[0..] == y;
    while true
      invariant 0 <= i <= |x| && 0 <= j <= |y|
      invariant Code(x) == Code(y) <==> Code(x[i..]) == Code(y[j..])
      decreases |x| - i
    {
      i := SkipNops(x, i);
      j := SkipNops(y, j);
      CodeHead(x, i);
      CodeHead(y, j);
      if i == |x| { return j == |y|; }
      if j == |y| { return false; }
      ConsEqual(x[i], Code(x[i + 1..]), y[j], Code(y[j + 1..]));
      if x[i] != y[j] { return false; }
      i, j := i + 1, j + 1;
    }
  }

  lemma ConsEqual<T>(a: T, s: seq<T>, b: T, t: seq<T>)
    ensures [a] + s == [b] + t <==> a == b && s == t
  {
    if [a] + s == [b] + t {
      assert ([a] + s)[0] == ([b] + t)[0];
      assert ([a] + s)[1..] == s && ([b] + t)[1..] == t;
    }
  }

  lemma CodeHead(x: seq<Stmt>, i: nat)
    requires i <= |x|
    ensures i == |x| ==> Code(x[i..]) == []
    ensures i < |x| && !x[i].Nop? ==> Code(x[i..]) == [x[i]] + Code(x[i + 1..])
  {
    if i < |x| { assert x[i..][1..] == x[i + 1..]; }
  }

  method EqBlk(b: Block, c: Block) returns (eq: bool)
    ensures eq <==> SameBlock(b, c)
  {
    if b.term != c.term { return false; }
    eq := EqSlist(b.stmts, c.stmts);
  }

  lemma SameBlockSameRun(g: Graph, lv: seq<nat>, i: nat, j: nat, p: Packet, r: Regs)
    requires Levelled(g, lv) && i < |g| && j < |g| && SameBlock(g[i], g[j])
    ensures Run(g, lv, i, p, r) == Run(g, lv, j, p, r)
  {
    CodeSameEffect(g[i].stmts, p, r);
    CodeSameEffect(g[j].stmts, p, r);
  }

  lemma SameBlockSameLevel(g: Graph, lv: seq<nat>, i: nat, j: nat)
    requires ExactLevels(g, lv) && i < |g| && j < |g| && SameBlock(g[i], g[j])
    ensures lv[i] == lv[j]
  {
    assert lv[i] == HeightOver(g, lv, i) && lv[j] == HeightOver(g, lv, j);
  }

  /** Mark the blocks that are alive (make_marks). */
  method MakeMarks(g: Graph, ghost lv: seq<nat>, ghost stack: set<nat>, b: nat, marked: set<nat>)
    returns (marked': set<nat>)
    requires Levelled(g, lv) && b < |g| && StackAbove(lv, stack, b) && MarksClosed(g, marked, stack)
    ensures marked' == marked + Reach(g, lv, b) && MarksClosed(g, marked', stack)
    decreases lv[b]
  {
    marked' := marked;
    if b in marked {
      MarkedReach(g, lv, marked, stack, b);
    } else {
      marked' := marked' + {b};
      if g[b].term.Br? {
        assert EdgeDown(g, lv, b, true) && EdgeDown(g, lv, b, false);
        marked' := MakeMarks(g, lv, stack + {b}, g[b].term.jt, marked');
        marked' := MakeMarks(g, lv, stack + {b}, g[b].term.jf, marked');
      }
    }
  }

  // Linking equal blocks

  type Links = seq<Option<nat>>

  /** A link leads to an equal live block of higher index that itself has no link. */
  ghost predicate LinkOk(g: Graph, marked: set<nat>, link: Links, i: nat)
    requires |link| == |g| && i < |g|
  {
    && (link[i].Some? ==> i in marked && i < link[i].value < |g| && link[i].value in marked
                          && SameBlock(g[i], g[link[i].value]) && link[link[i].value].None?)
    && (i in marked && link[i].None? ==> forall j | i < j < |g| && j in marked :: !SameBlock(g[i], g[j]))
  }

  /** Find, for every live block, an equal live block of higher index. */
  method LinkBlocks(g: Graph, marked: set<nat>) returns (link: Links)
    ensures |link| == |g| && forall i | 0 <= i < |g| :: LinkOk(g, marked, link, i)
  {
    link := seq(|g|, _ => None);
    for i := |g| downto 0
      invariant |link| == |g| && forall k | 0 <= k < i :: link[k].None?
      invariant forall k | i <= k < |g| :: LinkOk(g, marked, link, k)
    {
      if i in marked {
        var j := FindEqual(g, marked, i);
        if j < |g| {
          var target := if link[j].Some? then link[j].value else j;
          assert LinkOk(g, marked, link, j);
          LinkFrame(g, marked, link, i, target, link[i := Some(target)]);
          link := link[i := Some(target)];
        }
      }
    }
  }

  /** Linking `i` does not disturb the links of higher blocks. */
  lemma LinkFrame(g: Graph, marked: set<nat>, link: Links, i: nat, target: nat, link': Links)
    requires |link| == |g| && i < |g| && link' == link[i := Some(target)]
    requires forall k | i < k < |g| :: LinkOk(g, marked, link, k)
    ensures forall k | i < k < |g| :: LinkOk(g, marked, link', k)
  {
    forall k | i < k < |g| ensures LinkOk(g, marked, link', k) {
      assert LinkOk(g, marked, link, k);
    }
  }

  /** The first live block above `i` that equals it, or the number of blocks. */
  method FindEqual(g: Graph, marked: set<nat>, i: nat) returns (j: nat)
    requires i < |g|
    ensures i < j <= |g| && (j < |g| ==> j in marked && SameBlock(g[i], g[j]))
    ensures forall k | i < k < j && k in marked :: !SameBlock(g[i], g[k])
  {
    j := i + 1;
    while j < |g|
      invariant i < j <= |g|
      invariant forall k | i < k < j && k in marked :: !SameBlock(g[i], g[k])
    {
      if j in marked {
        var eq := EqBlk(g[i], g[j]);
        if eq { return; }
      }
      j := j + 1;
    }
  }

  // Redirecting edges

  function Rep(link: Links, t: nat): nat
    requires t < |link|
  {
    if link[t].Some? then link[t].value else t
  }

  function Relink(b: Block, link: Links): Block
    requires b.term.Br? ==> b.term.jt < |link| && b.term.jf < |link|
  {
    if b.term.Ret? then b else b.(term := b.term.(jt := Rep(link, b.term.jt), jf := Rep(link, b.term.jf)))
  }

  ghost predicate Relinked(g: Graph, g': Graph, link: Links) {
    && |g'| == |g| == |link|
    && forall b | 0 <= b < |g| ::
      (g[b].term.Br? ==> g[b].term.jt < |g| && g[b].term.jf < |g|) && g'[b] == Relink(g[b], link)
  }

  lemma RelinkedLevels(g: Graph, g': Graph, lv: seq<nat>, marked: set<nat>, link: Links)
    requires ExactLevels(g, lv) && |link| == |g| && Relinked(g, g', link)
    requires forall i | 0 <= i < |g| :: LinkOk(g, marked, link, i)
    ensures ExactLevels(g', lv)
  {
    forall t | 0 <= t < |g| ensures Rep(link, t) < |g| && lv[Rep(link, t)] == lv[t] {
      assert LinkOk(g, marked, link, t);
      if link[t].Some? { SameBlockSameLevel(g, lv, t, link[t].value); }
    }
    forall b, d | 0 <= b < |g'| && g'[b].term.Br? ensures EdgeDown(g', lv, b, d) {
      assert EdgeDown(g, lv, b, d);
    }
    forall b | 0 <= b < |g'| ensures lv[b] == HeightOver(g', lv, b) {
      assert lv[b] == HeightOver(g, lv, b);
    }
  }

  /** Sending edges to equal blocks preserves every run, faults included. */
  lemma {:induction false} RelinkPreserves(g: Graph, g': Graph, lv: seq<nat>, marked: set<nat>, link: Links,
                                           b: nat, p: Packet, r: Regs)
    requires ExactLevels(g, lv) && ExactLevels(g', lv) && |link| == |g| && Relinked(g, g', link) && b < |g|
    requires forall i | 0 <= i < |g| :: LinkOk(g, marked, link, i)
    ensures Run(g', lv, b, p, r) == Run(g, lv, b, p, r)
    decreases lv[b]
  {
    assert g'[b] == Relink(g[b], link);
    var q := ExecAll(g[b].stmts, p, r);
    if q.Some? && g[b].term.Br? {
      var d := Holds(g[b].term.test, q.value);
      assert EdgeDown(g, lv, b, d) && EdgeDown(g', lv, b, d);
      var t := Succ(g[b], d);
      assert LinkOk(g, marked, link, t);
      RelinkPreserves(g, g', lv, marked, link, Rep(link, t), p, q.value);
      if link[t].Some? { SameBlockSameRun(g, lv, t, link[t].value, p, q.value); }
    }
  }

  // Termination

  ghost function Gap(n: nat, t: nat): nat { if t < n then n - t else 0 }

  /** How far the targets of all edges are from the end of the block array. */
  ghost function Slack(g: Graph, n: nat): nat {
    if g == [] then 0
    else Slack(g[1..], n) + if g[0].term.Br? then Gap(n, g[0].term.jt) + Gap(n, g[0].term.jf) else 0
  }

  ghost predicate Closer(b: Block, b': Block) {
    && b.term.Br? == b'.term.Br?
    && (b.term.Br? ==> b.term.jt <= b'.term.jt && b.term.jf <= b'.term.jf)
  }

  ghost predicate Moved(b: Block, b': Block, n: nat) {
    && b.term.Br? && b'.term.Br? && b'.term.jt < n && b'.term.jf < n
    && (b.term.jt < b'.term.jt || b.term.jf < b'.term.jf)
  }

  lemma {:induction false} SlackDrops(g: Graph, g': Graph, n: nat)
    requires |g| == |g'| && forall i | 0 <= i < |g| :: Closer(g[i], g'[i])
    ensures Slack(g', n) <= Slack(g, n)
    ensures (exists i :: 0 <= i < |g| && Moved(g[i], g'[i], n)) ==> Slack(g', n) < Slack(g, n)
  {
    if g != [] {
      assert Closer(g[0], g'[0]);
      forall i | 0 <= i < |g[1..]| ensures Closer(g[1..][i], g'[1..][i]) { assert Closer(g[i + 1], g'[i + 1]); }
      SlackDrops(g[1..], g'[1..], n);
      if i :| 0 <= i < |g| && Moved(g[i], g'[i], n) {
        if i > 0 { assert g[1..][i - 1] == g[i] && g'[1..][i - 1] == g'[i]; }
      }
    }
  }

  /** Send every edge to the representative of its target. */
  method RelinkAll(g: Graph, ghost lv: seq<nat>, ghost marked: set<nat>, link: Links) returns (g': Graph, done: bool)
    requires Levelled(g, lv) && |link| == |g| && forall i | 0 <= i < |g| :: LinkOk(g, marked, link, i)
    ensures Relinked(g, g', link) && Slack(g', |g|) <= Slack(g, |g|)
    ensures !done ==> Slack(g', |g|) < Slack(g, |g|)
    ensures done ==> g' == g
    ensures done <==> forall b | 0 <= b < |g| && g[b].term.Br? :: link[g[b].term.jt].None? && link[g[b].term.jf].None?
  {
    forall b | 0 <= b < |g| && g[b].term.Br? ensures g[b].term.jt < |g| && g[b].term.jf < |g| {
      assert EdgeDown(g, lv, b, true) && EdgeDown(g, lv, b, false);
    }
    g', done := [], true;
    for i := 0 to |g|
      invariant |g'| == i && forall b | 0 <= b < i :: g'[b] == Relink(g[b], link)
      invariant done <==> forall b | 0 <= b < i && g[b].term.Br? :: link[g[b].term.jt].None? && link[g[b].term.jf].None?
    {
      if g[i].term.Br? && (link[g[i].term.jt].Some? || link[g[i].term.jf].Some?) { done := false; }
      g' := g' + [Relink(g[i], link)];
    }
    forall t | 0 <= t < |g| ensures t <= Rep(link, t) < |g| && (link[t].Some? ==> t < Rep(link, t)) {
      assert LinkOk(g, marked, link, t);
    }
    forall i | 0 <= i < |g| ensures Closer(g[i], g'[i]) { }
    if !done {
      ghost var b :| 0 <= b < |g| && g[b].term.Br? && !(link[g[b].term.jt].None? && link[g[b].term.jf].None?);
      assert Moved(g[b], g'[b], |g|);
    }
    SlackDrops(g, g', |g|);
  }

  /** Distinct live blocks are different. */
  ghost predicate Interned(g: Graph, lv: seq<nat>, root: nat)
    requires Levelled(g, lv) && root < |g|
  {
    forall i, j | i in Reach(g, lv, root) && j in Reach(g, lv, root) && i != j :: !SameBlock(g[i], g[j])
  }

  lemma InternedWhenDone(g: Graph, lv: seq<nat>, root: nat, link: Links)
    requires ExactLevels(g, lv) && root < |g| && |link| == |g|
    requires forall i | 0 <= i < |g| :: LinkOk(g, Reach(g, lv, root), link, i)
    requires forall b | 0 <= b < |g| && g[b].term.Br? && g[b].term.jt < |g| && g[b].term.jf < |g| ::
               link[g[b].term.jt].None? && link[g[b].term.jf].None?
    ensures Interned(g, lv, root)
  {
    var live := Reach(g, lv, root);
    forall i, j | i in live && j in live && i < j ensures !SameBlock(g[i], g[j]) {
      assert LinkOk(g, live, link, i);
      if i == root {
        LowerThanRoot(g, lv, root, j);
        if SameBlock(g[i], g[j]) { SameBlockSameLevel(g, lv, i, j); }
      } else {
        var es := ReachHasPath(g, lv, root, i);
        var e := es[|es| - 1];
        assert EdgeDown(g, lv, e.src, true) && EdgeDown(g, lv, e.src, false);
      }
    }
  }

  lemma LowerThanRoot(g: Graph, lv: seq<nat>, root: nat, j: nat)
    requires Levelled(g, lv) && root < |g| && j in Reach(g, lv, root) && j != root
    ensures lv[j] < lv[root]
  {
    assert EdgeDown(g, lv, root, true) && EdgeDown(g, lv, root, false);
  }

  /** Merge equal blocks until no two live blocks are equal. */
  method InternBlocks(g: Graph, ghost lv: seq<nat>, root: nat) returns (g': Graph)
    requires ExactLevels(g, lv) && root < |g|
    ensures ExactLevels(g', lv) && |g'| == |g|
    ensures forall b, p, r | 0 <= b < |g| :: Run(g', lv, b, p, r) == Run(g, lv, b, p, r)
    ensures Interned(g', lv, root)
  {
    g' := g;
    var done := false;
    while !done
      invariant ExactLevels(g', lv) && |g'| == |g|
      invariant forall b, p, r | 0 <= b < |g| :: Run(g', lv, b, p, r) == Run(g, lv, b, p, r)
      invariant done ==> Interned(g', lv, root)
      decreases Slack(g', |g|), !done
    {
      ghost var g0 := g';
      var live := MakeMarks(g', lv, {}, root, {});
      assert live == Reach(g', lv, root);
      var link := LinkBlocks(g', live);
      g', done := RelinkAll(g', lv, live, link);
      RelinkedLevels(g0, g', lv, live, link);
      forall b, p, r | 0 <= b < |g| ensures Run(g', lv, b, p, r) == Run(g, lv, b, p, r) {
        RelinkPreserves(g0, g', lv, live, link, b, p, r);
      }
      if done { InternedWhenDone(g', lv, root, link); }
    }
  }
}
