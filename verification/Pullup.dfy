/** Moving a test up its chain (or_pullup, and_pullup). */
module Pullup {
  import opened Machine
  import opened Graph
  import opened Levels
  import opened Liveness
  import opened Dominance
  import opened Numbering
  import opened NumberingPass
  import opened Threading

  // Runs of self-contained blocks

  /** What a self-contained block does on `p`: fault, or decide its test. */
  ghost function Acts(b: Block, p: Packet): Option<bool> {
    var q := ExecAll(b.stmts, p, ZeroRegs());
    if q.None? then None else Some(b.term.Br? && Holds(b.term.test, q.value))
  }

  /** The outcome from block `x` when every block does what it does from zero registers. */
  ghost function Out(g: Graph, lv: seq<nat>, x: nat, p: Packet): Outcome
    requires Levelled(g, lv) && x < |g|
    decreases lv[x]
  {
    var act := Acts(g[x], p);
    if act.None? then Fault
    else match g[x].term
      case Ret(k) => Return(k)
      case Br(_, _, _) =>
        assert EdgeDown(g, lv, x, act.value);
        Out(g, lv, Succ(g[x], act.value), p)
  }

  lemma OutStep(g: Graph, lv: seq<nat>, x: nat, p: Packet)
    requires Levelled(g, lv) && x < |g| && g[x].term.Br?
    ensures Succ(g[x], true) < |g| && Succ(g[x], false) < |g|
    ensures var act := Acts(g[x], p);
            Out(g, lv, x, p) == if act.None? then Fault else Out(g, lv, Succ(g[x], act.value), p)
  {
    assert EdgeDown(g, lv, x, true) && EdgeDown(g, lv, x, false);
  }

  lemma {:induction false} OutIsRun(g: Graph, lv: seq<nat>, x: nat, p: Packet, r: Regs)
    requires Levelled(g, lv) && x < |g| && AllSelfContained(g)
    ensures Run(g, lv, x, p, r) == Out(g, lv, x, p)
    decreases lv[x]
  {
    assert SelfContained(g[x]);
    SelfContainedTest(g[x], p, r, ZeroRegs());
    var q := ExecAll(g[x].stmts, p, r);
    if q.Some? && g[x].term.Br? {
      var d := Holds(g[x].term.test, q.value);
      assert EdgeDown(g, lv, x, d);
      OutIsRun(g, lv, Succ(g[x], d), p, q.value);
    }
  }

  // Chains

  /** `xs` is a chain of tests: each continues, on the side other than `shared`, with the next, and on the side
      `shared` all go to `t`. */
  ghost predicate IsChain(g: Graph, xs: seq<nat>, shared: bool, t: nat) {
    && (forall i | 0 <= i < |xs| :: xs[i] < |g| && g[xs[i]].term.Br? && Succ(g[xs[i]], shared) == t)
    && (forall i | 0 <= i < |xs| - 1 :: Linked(g, xs, shared, i))
  }

  ghost predicate Linked(g: Graph, xs: seq<nat>, shared: bool, i: nat)
    requires i + 1 < |xs| && xs[i] < |g| && g[xs[i]].term.Br?
  {
    Succ(g[xs[i]], !shared) == xs[i + 1]
  }

  lemma {:induction false} ChainFalls(g: Graph, lv: seq<nat>, xs: seq<nat>, shared: bool, t: nat, i: nat, j: nat)
    requires Levelled(g, lv) && IsChain(g, xs, shared, t) && i <= j < |xs|
    ensures lv[xs[j]] <= lv[xs[i]] && (i < j ==> lv[xs[j]] < lv[xs[i]])
    ensures t < |g| && lv[t] < lv[xs[j]]
    decreases j - i
  {
    assert EdgeDown(g, lv, xs[j], shared);
    if i < j {
      assert EdgeDown(g, lv, xs[i], !shared);
      assert Linked(g, xs, shared, i);
      ChainFalls(g, lv, xs, shared, t, i + 1, j);
    }
  }

  lemma {:induction false} SuffixReach(g: Graph, lv: seq<nat>, root: nat, es: seq<Edge>, y: nat, e: Edge)
    requires Levelled(g, lv) && root < |g| && IsPath(g, root, es, y) && e in es
    ensures e.src < |g| && y in Reach(g, lv, e.src)
    decreases |es|
  {
    PathAbove(g, lv, root, es, y);
    var last := es[|es| - 1];
    assert ValidEdge(g, e);
    if e != last {
      assert es == es[..|es| - 1] + [last];
      SuffixReach(g, lv, root, es[..|es| - 1], last.src, e);
    }
    ReachClosed(g, lv, e.src, last);
  }

  /** An edge into a block dominated by `b`, other than `b` itself, comes from below `b`. */
  lemma DominatedEntry(g: Graph, lv: seq<nat>, root: nat, b: nat, e: Edge)
    requires Levelled(g, lv) && root < |g| && b < |g| && ValidEdge(g, e) && e.src in Reach(g, lv, root)
    requires Dominates(g, root, b, Dst(g, e)) && Dst(g, e) != b
    ensures e.src in Reach(g, lv, b)
  {
    var es := ReachHasPath(g, lv, root, e.src);
    PathSnoc(g, root, es, e);
    assert !Avoids(es + [e], Dst(g, e), b);
    var f :| f in es + [e] && f.src == b;
    if f in es { SuffixReach(g, lv, root, es, e.src, f); }
  }

  /** From a chain member at or above, the next member can be entered only from the one before it. */
  lemma {:induction false} EnteredBelow(g: Graph, lv: seq<nat>, xs: seq<nat>, shared: bool, t: nat, i: nat, k: nat,
                                        e: Edge)
    requires Levelled(g, lv) && IsChain(g, xs, shared, t) && i < k < |xs|
    requires ValidEdge(g, e) && e.src in Reach(g, lv, xs[i]) && Dst(g, e) == xs[k]
    ensures e == Edge(xs[k - 1], !shared)
    decreases k - i
  {
    ChainFalls(g, lv, xs, shared, t, i, k);
    ChainFalls(g, lv, xs, shared, t, i + 1, k);
    assert EdgeDown(g, lv, e.src, e.dir);
    assert EdgeDown(g, lv, xs[i], true) && EdgeDown(g, lv, xs[i], false);
    assert Succ(g[xs[i]], shared) == t && Linked(g, xs, shared, i);
    if e.src != xs[i] {
      assert e.src in Reach(g, lv, t) || e.src in Reach(g, lv, xs[i + 1]);
      assert e.src in Reach(g, lv, xs[i + 1]);
      assert i + 1 < k;
      EnteredBelow(g, lv, xs, shared, t, i + 1, k, e);
    }
  }

  /** Chain members dominated by the first block are entered only along the chain. */
  lemma EnteredAlongChain(g: Graph, lv: seq<nat>, root: nat, xs: seq<nat>, shared: bool, t: nat, k: nat, e: Edge)
    requires Levelled(g, lv) && root < |g| && IsChain(g, xs, shared, t) && 0 < k < |xs|
    requires Dominates(g, root, xs[0], xs[k])
    requires ValidEdge(g, e) && e.src in Reach(g, lv, root) && Dst(g, e) == xs[k]
    ensures e == Edge(xs[k - 1], !shared)
  {
    ChainFalls(g, lv, xs, shared, t, 0, k);
    DominatedEntry(g, lv, root, xs[0], e);
    EnteredBelow(g, lv, xs, shared, t, 0, k, e);
  }

  lemma {:induction false} ChainReached(g: Graph, lv: seq<nat>, root: nat, xs: seq<nat>, shared: bool, t: nat, k: nat)
    requires Levelled(g, lv) && root < |g| && IsChain(g, xs, shared, t) && k < |xs| && xs[0] in Reach(g, lv, root)
    ensures xs[k] in Reach(g, lv, root) && t in Reach(g, lv, root) && Succ(g[xs[k]], !shared) in Reach(g, lv, root)
    decreases k
  {
    if k > 0 {
      ChainReached(g, lv, root, xs, shared, t, k - 1);
      assert Linked(g, xs, shared, k - 1);
    }
    ReachClosed(g, lv, root, Edge(xs[k], shared));
    ReachClosed(g, lv, root, Edge(xs[k], !shared));
  }

  // The rewriting

  /** Where branches lead after the last block of `xs` is moved in front of `xs[j]`. */
  ghost function PulledSucc(g: Graph, xs: seq<nat>, j: nat, shared: bool, entry: set<Edge>, x: nat, d: bool): nat
    requires j + 1 < |xs| && x < |g| && g[x].term.Br? && xs[|xs| - 1] < |g| && g[xs[|xs| - 1]].term.Br?
  {
    var m := |xs| - 1;
    if x == xs[m] && d == !shared then xs[j]
    else if x == xs[m - 1] && d == !shared then Succ(g[xs[m]], !shared)
    else if Edge(x, d) in entry then xs[m]
    else Succ(g[x], d)
  }

  ghost predicate Pulled(g: Graph, g': Graph, xs: seq<nat>, j: nat, shared: bool, entry: set<Edge>) {
    && |g'| == |g| && j + 1 < |xs| && xs[|xs| - 1] < |g| && g[xs[|xs| - 1]].term.Br?
    && (forall x | 0 <= x < |g| :: SameButTargets(g[x], g'[x]))
    && (forall x, d | 0 <= x < |g| && g[x].term.Br? :: Succ(g'[x], d) == PulledSucc(g, xs, j, shared, entry, x, d))
  }

  /** A chain, a place in it other than its end, and edges into that place. */
  ghost predicate PullReady(g: Graph, lv: seq<nat>, xs: seq<nat>, j: nat, shared: bool, t: nat, entry: set<Edge>) {
    && Levelled(g, lv) && IsChain(g, xs, shared, t) && j + 1 < |xs|
    && (forall e | e in entry :: ValidEdge(g, e) && Dst(g, e) == xs[j])
  }

  // The rewritten graph has no cycle

  /** Levels of the rewritten graph: what is left of the chain sinks below the moved block, above every lower level. */
  ghost function PulledLevels(g: Graph, lv: seq<nat>, xs: seq<nat>, j: nat): seq<nat>
    requires |lv| == |g| && j < |xs| && xs[j] < |g| && xs[|xs| - 1] < |g|
  {
    seq(|g|, x requires 0 <= x < |g| => Rank(lv, xs, j, x) * (lv[xs[j]] + 2) + SubRank(lv, xs, j, x))
  }

  ghost function Rank(lv: seq<nat>, xs: seq<nat>, j: nat, x: nat): nat
    requires x < |lv| && j < |xs| && xs[|xs| - 1] < |lv|
  {
    if x in xs[j..] then lv[xs[|xs| - 1]] else lv[x]
  }

  ghost function SubRank(lv: seq<nat>, xs: seq<nat>, j: nat, x: nat): nat
    requires x < |lv| && j < |xs| && xs[j] < |lv|
  {
    if x == xs[|xs| - 1] then lv[xs[j]] + 1 else if x in xs[j..] then lv[x] else 0
  }

  lemma RankOrder(n: nat, a: nat, b: nat, a': nat, b': nat)
    requires b < n && (a < a' || (a == a' && b < b'))
    ensures a * n + b < a' * n + b'
  {
    if a < a' { RankStep(n, a, a'); }
  }

  lemma {:induction false} RankStep(n: nat, a: nat, a': nat)
    requires a < a'
    ensures a * n + n <= a' * n
    decreases a'
  {
    assert (a' - 1) * n + n == a' * n;
    if a < a' - 1 { RankStep(n, a, a' - 1); }
  }

  /** A block of the part being rearranged is one of its members. */
  lemma InPart(xs: seq<nat>, j: nat, x: nat) returns (k: nat)
    requires j <= |xs| && x in xs[j..]
    ensures j <= k < |xs| && xs[k] == x
  {
    var i :| 0 <= i < |xs[j..]| && xs[j..][i] == x;
    k := j + i;
  }

  lemma SubRankBound(g: Graph, lv: seq<nat>, xs: seq<nat>, j: nat, shared: bool, t: nat, x: nat)
    requires Levelled(g, lv) && IsChain(g, xs, shared, t) && j < |xs| && x < |g|
    ensures SubRank(lv, xs, j, x) < lv[xs[j]] + 2
    ensures lv[xs[|xs| - 1]] <= Rank(lv, xs, j, x) <= lv[x] || x !in xs[j..]
  {
    if x in xs[j..] {
      var k := InPart(xs, j, x);
      ChainFalls(g, lv, xs, shared, t, j, k);
      ChainFalls(g, lv, xs, shared, t, k, |xs| - 1);
    }
  }

  lemma PulledEdgeDown(g: Graph, g': Graph, lv: seq<nat>, xs: seq<nat>, j: nat, shared: bool, t: nat,
                       entry: set<Edge>, x: nat, d: bool)
    requires PullReady(g, lv, xs, j, shared, t, entry) && Pulled(g, g', xs, j, shared, entry) && x < |g|
    requires g[x].term.Br?
    ensures EdgeDown(g', PulledLevels(g, lv, xs, j), x, d)
  {
    var y := Succ(g'[x], d);
    assert SameButTargets(g[x], g'[x]);
    if x in xs[j..] {
      var k := InPart(xs, j, x);
      ChainEdgeRanks(g, g', lv, xs, j, shared, t, entry, k, d);
    } else {
      OtherEdgeRanks(g, g', lv, xs, j, shared, t, entry, x, d);
    }
    SubRankBound(g, lv, xs, j, shared, t, y);
    RankOrder(lv[xs[j]] + 2, Rank(lv, xs, j, y), SubRank(lv, xs, j, y), Rank(lv, xs, j, x), SubRank(lv, xs, j, x));
  }

  ghost predicate RankDown(lv: seq<nat>, xs: seq<nat>, j: nat, x: nat, y: nat)
    requires x < |lv| && y < |lv| && j < |xs| && xs[|xs| - 1] < |lv| && xs[j] < |lv|
  {
    || Rank(lv, xs, j, y) < Rank(lv, xs, j, x)
    || (Rank(lv, xs, j, y) == Rank(lv, xs, j, x) && SubRank(lv, xs, j, y) < SubRank(lv, xs, j, x))
  }

  lemma ChainEdgeRanks(g: Graph, g': Graph, lv: seq<nat>, xs: seq<nat>, j: nat, shared: bool, t: nat,
                       entry: set<Edge>, k: nat, d: bool)
    requires PullReady(g, lv, xs, j, shared, t, entry) && Pulled(g, g', xs, j, shared, entry) && j <= k < |xs|
    requires g'[xs[k]].term.Br?
    ensures Succ(g'[xs[k]], d) < |g| && RankDown(lv, xs, j, xs[k], Succ(g'[xs[k]], d))
  {
    var m := |xs| - 1;
    PulledChainAt(g, g', lv, xs, j, shared, t, entry, k);
    assert xs[k] == xs[j..][k - j] && xs[j] == xs[j..][0];
    BelowChain(g, lv, xs, j, shared, t);
    ChainFalls(g, lv, xs, shared, t, j, m);
    ChainFalls(g, lv, xs, shared, t, k, m);
    if d != shared && k + 1 < m {
      assert xs[k + 1] == xs[j..][k + 1 - j];
      ChainFalls(g, lv, xs, shared, t, k, k + 1);
      ChainFalls(g, lv, xs, shared, t, k + 1, m);
    }
  }

  lemma OtherEdgeRanks(g: Graph, g': Graph, lv: seq<nat>, xs: seq<nat>, j: nat, shared: bool, t: nat,
                       entry: set<Edge>, x: nat, d: bool)
    requires PullReady(g, lv, xs, j, shared, t, entry) && Pulled(g, g', xs, j, shared, entry)
    requires x < |g| && x !in xs[j..] && g[x].term.Br? && g'[x].term.Br?
    ensures Succ(g'[x], d) < |g| && RankDown(lv, xs, j, x, Succ(g'[x], d))
  {
    var m, y := |xs| - 1, Succ(g[x], d);
    assert xs[m] == xs[j..][m - j] && xs[m - 1] == xs[j..][m - 1 - j];
    assert EdgeDown(g, lv, x, d);
    assert Succ(g'[x], d) == PulledSucc(g, xs, j, shared, entry, x, d);
    ChainFalls(g, lv, xs, shared, t, j, m);
    SubRankBound(g, lv, xs, j, shared, t, y);
  }

  lemma PulledLevelled(g: Graph, g': Graph, lv: seq<nat>, xs: seq<nat>, j: nat, shared: bool, t: nat, entry: set<Edge>)
    requires PullReady(g, lv, xs, j, shared, t, entry) && Pulled(g, g', xs, j, shared, entry)
    ensures Levelled(g', PulledLevels(g, lv, xs, j))
  {
    forall x, d | 0 <= x < |g'| && g'[x].term.Br? ensures EdgeDown(g', PulledLevels(g, lv, xs, j), x, d) {
      assert SameButTargets(g[x], g'[x]);
      PulledEdgeDown(g, g', lv, xs, j, shared, t, entry, x, d);
    }
  }

  /** Where the blocks of the rearranged part lead: the moved block heads what remains of it. */
  lemma PulledChainAt(g: Graph, g': Graph, lv: seq<nat>, xs: seq<nat>, j: nat, shared: bool, t: nat,
                      entry: set<Edge>, k: nat)
    requires PullReady(g, lv, xs, j, shared, t, entry) && Pulled(g, g', xs, j, shared, entry) && j <= k < |xs|
    ensures SameButTargets(g[xs[k]], g'[xs[k]]) && Succ(g'[xs[k]], shared) == t
    ensures var m := |xs| - 1;
            Succ(g'[xs[k]], !shared) == if k == m then xs[j] else if k == m - 1 then Succ(g[xs[m]], !shared)
              else xs[k + 1]
  {
    var m := |xs| - 1;
    assert Succ(g'[xs[k]], shared) == PulledSucc(g, xs, j, shared, entry, xs[k], shared);
    assert Succ(g'[xs[k]], !shared) == PulledSucc(g, xs, j, shared, entry, xs[k], !shared);
    ChainFalls(g, lv, xs, shared, t, j, k);
    ChainFalls(g, lv, xs, shared, t, k, m);
    assert EdgeDown(g, lv, xs[k], shared) && EdgeDown(g, lv, xs[k], !shared);
    if k < m {
      assert Linked(g, xs, shared, k);
      ChainFalls(g, lv, xs, shared, t, k, m - 1);
    }
  }

  /** The shared target and the block past the chain lie below the whole chain. */
  lemma BelowChain(g: Graph, lv: seq<nat>, xs: seq<nat>, j: nat, shared: bool, t: nat)
    requires Levelled(g, lv) && IsChain(g, xs, shared, t) && j < |xs|
    ensures var m := |xs| - 1;
            var past := Succ(g[xs[m]], !shared);
            && t < |g| && past < |g| && lv[t] < lv[xs[m]] && lv[past] < lv[xs[m]] && t !in xs[j..] && past !in xs[j..]
  {
    var m := |xs| - 1;
    ChainFalls(g, lv, xs, shared, t, m, m);
    assert EdgeDown(g, lv, xs[m], !shared);
    forall y | y in xs[j..] ensures lv[y] >= lv[xs[m]] {
      var k := InPart(xs, j, y);
      ChainFalls(g, lv, xs, shared, t, k, m);
    }
  }

  // Meaning

  /** What the blocks `xs[i..hi]` do in turn: fault, take the shared side, or fall through. */
  ghost function ChainLeads(g: Graph, xs: seq<nat>, i: nat, hi: nat, shared: bool, p: Packet): Option<bool>
    requires hi <= |xs| && forall k | 0 <= k < |xs| :: xs[k] < |g|
    decreases hi - i
  {
    if i >= hi then Some(false)
    else
      var act := Acts(g[xs[i]], p);
      if act.None? then None else if act.value == shared then Some(true) else ChainLeads(g, xs, i + 1, hi, shared, p)
  }

  lemma LeadsOne(g: Graph, xs: seq<nat>, i: nat, shared: bool, p: Packet)
    requires i < |xs| && forall k | 0 <= k < |xs| :: xs[k] < |g|
    ensures var act := Acts(g[xs[i]], p);
            ChainLeads(g, xs, i, i + 1, shared, p) == if act.None? then None else Some(act.value == shared)
  {
    assert ChainLeads(g, xs, i + 1, i + 1, shared, p) == Some(false);
  }

  ghost function Then(a: Option<bool>, b: Option<bool>): Option<bool> { if a == Some(false) then b else a }

  lemma {:induction false} LeadsLast(g: Graph, xs: seq<nat>, i: nat, hi: nat, shared: bool, p: Packet)
    requires i <= hi < |xs| && forall k | 0 <= k < |xs| :: xs[k] < |g|
    ensures ChainLeads(g, xs, i, hi + 1, shared, p)
            == Then(ChainLeads(g, xs, i, hi, shared, p), ChainLeads(g, xs, hi, hi + 1, shared, p))
    decreases hi - i
  {
    if i < hi { LeadsLast(g, xs, i + 1, hi, shared, p); }
  }

  /** The outcome of a chain, from the outcomes of its shared target and of the block past it. */
  ghost function Via(a: Option<bool>, target: Outcome, past: Outcome): Outcome {
    if a.None? then Fault else if a.value then target else past
  }

  lemma {:induction false} ChainOut(g: Graph, lv: seq<nat>, xs: seq<nat>, shared: bool, t: nat, i: nat, p: Packet)
    requires Levelled(g, lv) && IsChain(g, xs, shared, t) && i < |xs|
    ensures var past := Succ(g[xs[|xs| - 1]], !shared);
            && t < |g| && past < |g|
            && Out(g, lv, xs[i], p) == Via(ChainLeads(g, xs, i, |xs|, shared, p), Out(g, lv, t, p), Out(g, lv, past, p))
    decreases |xs| - i
  {
    BelowChain(g, lv, xs, i, shared, t);
    assert EdgeDown(g, lv, xs[i], shared) && EdgeDown(g, lv, xs[i], !shared);
    assert Succ(g[xs[i]], shared) == t;
    if i < |xs| - 1 {
      assert Linked(g, xs, shared, i);
      ChainOut(g, lv, xs, shared, t, i + 1, p);
    }
  }

  /** Below the chain nothing changes. */
  lemma {:induction false} BelowSame(g: Graph, g': Graph, lv: seq<nat>, lv': seq<nat>, xs: seq<nat>, j: nat,
                                     shared: bool, t: nat, entry: set<Edge>, x: nat, p: Packet)
    requires PullReady(g, lv, xs, j, shared, t, entry) && Pulled(g, g', xs, j, shared, entry) && Levelled(g', lv')
    requires x < |g| && lv[x] < lv[xs[|xs| - 1]]
    ensures Out(g', lv', x, p) == Out(g, lv, x, p)
    decreases lv[x]
  {
    assert SameButTargets(g[x], g'[x]);
    var act := Acts(g[x], p);
    if act.Some? && g[x].term.Br? {
      var m, d := |xs| - 1, act.value;
      assert EdgeDown(g, lv, x, d) && EdgeDown(g', lv', x, d);
      ChainFalls(g, lv, xs, shared, t, j, m);
      ChainFalls(g, lv, xs, shared, t, m - 1, m);
      assert Succ(g'[x], d) == PulledSucc(g, xs, j, shared, entry, x, d);
      assert Edge(x, d) !in entry;
      BelowSame(g, g', lv, lv', xs, j, shared, t, entry, Succ(g[x], d), p);
    }
  }

  /** What remains of the chain, without the moved block. */
  lemma {:induction false} RemainderOut(g: Graph, g': Graph, lv: seq<nat>, lv': seq<nat>, xs: seq<nat>, j: nat,
                                        shared: bool, t: nat, entry: set<Edge>, k: nat, p: Packet)
    requires PullReady(g, lv, xs, j, shared, t, entry) && Pulled(g, g', xs, j, shared, entry) && Levelled(g', lv')
    requires j <= k < |xs| - 1
    ensures var m := |xs| - 1;
            var past := Succ(g[xs[m]], !shared);
            && t < |g| && past < |g|
            && Out(g', lv', xs[k], p) == Via(ChainLeads(g, xs, k, m, shared, p), Out(g, lv, t, p), Out(g, lv, past, p))
    decreases |xs| - k
  {
    var m := |xs| - 1;
    var past := Succ(g[xs[m]], !shared);
    BelowChain(g, lv, xs, j, shared, t);
    BelowSame(g, g', lv, lv', xs, j, shared, t, entry, t, p);
    PulledChainAt(g, g', lv, xs, j, shared, t, entry, k);
    OutStep(g', lv', xs[k], p);
    assert Acts(g'[xs[k]], p) == Acts(g[xs[k]], p);
    if k < m - 1 {
      RemainderOut(g, g', lv, lv', xs, j, shared, t, entry, k + 1, p);
    } else {
      BelowSame(g, g', lv, lv', xs, j, shared, t, entry, past, p);
    }
  }

  /** The moved block, and then what remains of the chain. */
  lemma MovedOut(g: Graph, g': Graph, lv: seq<nat>, lv': seq<nat>, xs: seq<nat>, j: nat,
                 shared: bool, t: nat, entry: set<Edge>, p: Packet)
    requires PullReady(g, lv, xs, j, shared, t, entry) && Pulled(g, g', xs, j, shared, entry) && Levelled(g', lv')
    ensures var m := |xs| - 1;
            var past := Succ(g[xs[m]], !shared);
            && t < |g| && past < |g|
            && Out(g', lv', xs[m], p)
                == Via(Then(ChainLeads(g, xs, m, m + 1, shared, p), ChainLeads(g, xs, j, m, shared, p)),
                                             Out(g, lv, t, p), Out(g, lv, past, p))
  {
    var m := |xs| - 1;
    BelowChain(g, lv, xs, j, shared, t);
    BelowSame(g, g', lv, lv', xs, j, shared, t, entry, t, p);
    PulledChainAt(g, g', lv, xs, j, shared, t, entry, m);
    OutStep(g', lv', xs[m], p);
    assert Acts(g'[xs[m]], p) == Acts(g[xs[m]], p);
    RemainderOut(g, g', lv, lv', xs, j, shared, t, entry, j, p);
    LeadsOne(g, xs, m, shared, p);
    ViaFirst(Acts(g[xs[m]], p), shared, ChainLeads(g, xs, m, m + 1, shared, p), ChainLeads(g, xs, j, m, shared, p),
             Out(g, lv, t, p), Out(g, lv, Succ(g[xs[m]], !shared), p), Out(g', lv', xs[m], p), Out(g', lv', xs[j], p));
  }

  lemma ViaFirst(act: Option<bool>, shared: bool, lead: Option<bool>, rest: Option<bool>, target: Outcome,
                 past: Outcome, out: Outcome, outRest: Outcome)
    requires lead == (if act.None? then None else Some(act.value == shared)) && outRest == Via(rest, target, past)
    requires out == if act.None? then Fault else if act.value == shared then target else outRest
    ensures out == Via(Then(lead, rest), target, past)
  {
  }

  /** The edge by which the run from `x` first enters the blocks `part`, if it does. */
  ghost function EntersBy(g: Graph, lv: seq<nat>, part: seq<nat>, x: nat, p: Packet): (e: Option<Edge>)
    requires Levelled(g, lv) && x < |g| && x !in part
    ensures e.Some? ==>
              ValidEdge(g, e.value) && e.value.src in Reach(g, lv, x) && e.value.src !in part && Dst(g, e.value) in part
    decreases lv[x]
  {
    var act := Acts(g[x], p);
    if act.None? || g[x].term.Ret? then None
    else
      assert EdgeDown(g, lv, x, act.value);
      var y := Succ(g[x], act.value);
      if y in part then Some(Edge(x, act.value)) else EntersBy(g, lv, part, y, p)
  }

  /** Until it enters the rearranged part, a run is as before. */
  lemma {:induction false} OutsideOut(g: Graph, g': Graph, lv: seq<nat>, lv': seq<nat>, xs: seq<nat>, j: nat,
                                      shared: bool, t: nat, entry: set<Edge>, x: nat, p: Packet)
    requires PullReady(g, lv, xs, j, shared, t, entry) && Pulled(g, g', xs, j, shared, entry) && Levelled(g', lv')
    requires x < |g| && x !in xs[j..]
    ensures var e := EntersBy(g, lv, xs[j..], x, p);
            if e.None? then Out(g', lv', x, p) == Out(g, lv, x, p)
            else
              && Dst(g, e.value) < |g| && Out(g, lv, x, p) == Out(g, lv, Dst(g, e.value), p)
              && Out(g', lv', x, p) == Out(g', lv', if e.value in entry then xs[|xs| - 1] else Dst(g, e.value), p)
    decreases lv[x]
  {
    assert SameButTargets(g[x], g'[x]);
    var act := Acts(g[x], p);
    if act.Some? && g[x].term.Br? {
      var m, d := |xs| - 1, act.value;
      var y := Succ(g[x], d);
      assert EdgeDown(g, lv, x, d) && EdgeDown(g', lv', x, d);
      assert Succ(g'[x], d) == PulledSucc(g, xs, j, shared, entry, x, d);
      assert xs[m] == xs[j..][m - j] && xs[m - 1] == xs[j..][m - 1 - j] && xs[j] == xs[j..][0];
      if y !in xs[j..] {
        assert Edge(x, d) !in entry;
        OutsideOut(g, g', lv, lv', xs, j, shared, t, entry, y, p);
      }
    }
  }

  /** Where `x` is in `xs`, counted from `i`. */
  ghost function Position(xs: seq<nat>, i: nat, x: nat): (k: nat)
    requires i <= |xs| && x in xs[i..]
    ensures i <= k < |xs| && xs[k] == x
    decreases |xs| - i
  {
    if xs[i] == x then i
    else
      assert xs[i..] == [xs[i]] + xs[i + 1..];
      Position(xs, i + 1, x)
  }

  /** The order of the moved block and the others matters: one of them takes the shared side, the other faults. */
  ghost predicate FaultMoved(g: Graph, xs: seq<nat>, j: nat, shared: bool, p: Packet)
    requires j < |xs| && forall k | 0 <= k < |xs| :: xs[k] < |g|
  {
    var m := |xs| - 1;
    var moved, rest := ChainLeads(g, xs, m, m + 1, shared, p), ChainLeads(g, xs, j, m, shared, p);
    (moved.None? && rest == Some(true)) || (moved == Some(true) && rest.None?)
  }

  /** A run that falls through one part of the chain, and then meets the other part in one of the two graphs only. */
  ghost predicate PartMissed(falls: Option<bool>, missed: Option<bool>, target: Outcome, past: Outcome) {
    falls == Some(false) && ((missed.None? && past.Return?) || (missed == Some(true) && target != past))
  }

  /** A run that enters the rearranged part by `e` ends differently. */
  ghost predicate DisturbedBy(g: Graph, lv: seq<nat>, xs: seq<nat>, j: nat, shared: bool, t: nat, entry: set<Edge>,
                              e: Edge, p: Packet)
    requires PullReady(g, lv, xs, j, shared, t, entry) && ValidEdge(g, e) && Dst(g, e) in xs[j..]
  {
    BelowChain(g, lv, xs, j, shared, t);
    var m, k := |xs| - 1, Position(xs, j, Dst(g, e));
    var target, past := Out(g, lv, t, p), Out(g, lv, Succ(g[xs[m]], !shared), p);
    if e in entry then target.Return? && FaultMoved(g, xs, j, shared, p)
    else if k == m
      then PartMissed(ChainLeads(g, xs, m, m + 1, shared, p), ChainLeads(g, xs, j, m, shared, p), target, past)
    else PartMissed(ChainLeads(g, xs, k, m, shared, p), ChainLeads(g, xs, m, m + 1, shared, p), target, past)
  }

  ghost predicate Disturbed(g: Graph, lv: seq<nat>, root: nat, xs: seq<nat>, j: nat, shared: bool, t: nat,
                            entry: set<Edge>, p: Packet)
    requires PullReady(g, lv, xs, j, shared, t, entry) && root < |g| && root !in xs[j..]
  {
    var e := EntersBy(g, lv, xs[j..], root, p);
    e.Some? && DisturbedBy(g, lv, xs, j, shared, t, entry, e.value, p)
  }

  /** Entered at its first block, the part runs with the moved block first instead of last. */
  lemma EntryExact(g: Graph, g': Graph, lv: seq<nat>, lv': seq<nat>, xs: seq<nat>, j: nat,
                   shared: bool, t: nat, entry: set<Edge>, p: Packet)
    requires PullReady(g, lv, xs, j, shared, t, entry) && Pulled(g, g', xs, j, shared, entry) && Levelled(g', lv')
    requires t < |g|
    ensures Out(g', lv', xs[|xs| - 1], p) == Out(g, lv, xs[j], p) <==>
              !(Out(g, lv, t, p).Return? && FaultMoved(g, xs, j, shared, p))
  {
    var m := |xs| - 1;
    MovedOut(g, g', lv, lv', xs, j, shared, t, entry, p);
    ChainOut(g, lv, xs, shared, t, j, p);
    LeadsLast(g, xs, j, m, shared, p);
    var moved, rest := ChainLeads(g, xs, m, m + 1, shared, p), ChainLeads(g, xs, j, m, shared, p);
    var target, past := Out(g, lv, t, p), Out(g, lv, Succ(g[xs[m]], !shared), p);
    assert Out(g', lv', xs[m], p) == Via(Then(moved, rest), target, past);
    assert Out(g, lv, xs[j], p) == Via(Then(rest, moved), target, past);
    assert FaultMoved(g, xs, j, shared, p) <==>
      (moved.None? && rest == Some(true)) || (moved == Some(true) && rest.None?);
    ViaOrder(moved, rest, target, past);
  }

  lemma ViaOrder(moved: Option<bool>, rest: Option<bool>, target: Outcome, past: Outcome)
    ensures Via(Then(moved, rest), target, past) == Via(Then(rest, moved), target, past) <==>
            !(target.Return? && ((moved.None? && rest == Some(true)) || (moved == Some(true) && rest.None?)))
  {
  }

  lemma ViaMissed(falls: Option<bool>, missed: Option<bool>, target: Outcome, past: Outcome)
    ensures Via(falls, target, past) == Via(Then(falls, missed), target, past) <==>
              !PartMissed(falls, missed, target, past)
  {
  }

  /** Entered elsewhere, it runs without the moved block, or with the others behind it. */
  lemma ElsewhereExact(g: Graph, g': Graph, lv: seq<nat>, lv': seq<nat>, xs: seq<nat>, j: nat,
                       shared: bool, t: nat, entry: set<Edge>, k: nat, p: Packet)
    requires PullReady(g, lv, xs, j, shared, t, entry) && Pulled(g, g', xs, j, shared, entry) && Levelled(g', lv')
    requires j <= k < |xs|
    requires t < |g| && Succ(g[xs[|xs| - 1]], !shared) < |g|
    ensures var m := |xs| - 1;
            var falls, missed := ChainLeads(g, xs, k, if k == m then m + 1 else m, shared, p),
                                 if k == m then ChainLeads(g, xs, j, m, shared, p)
                                   else ChainLeads(g, xs, m, m + 1, shared, p);
            Out(g', lv', xs[k], p) == Out(g, lv, xs[k], p) <==>
            !PartMissed(falls, missed, Out(g, lv, t, p), Out(g, lv, Succ(g[xs[m]], !shared), p))
  {
    var m := |xs| - 1;
    ChainOut(g, lv, xs, shared, t, k, p);
    LeadsLast(g, xs, k, m, shared, p);
    var target, past := Out(g, lv, t, p), Out(g, lv, Succ(g[xs[m]], !shared), p);
    if k < m {
      RemainderOut(g, g', lv, lv', xs, j, shared, t, entry, k, p);
      ViaMissed(ChainLeads(g, xs, k, m, shared, p), ChainLeads(g, xs, m, m + 1, shared, p), target, past);
    } else {
      MovedOut(g, g', lv, lv', xs, j, shared, t, entry, p);
      ViaMissed(ChainLeads(g, xs, m, m + 1, shared, p), ChainLeads(g, xs, j, m, shared, p), target, past);
    }
  }

  lemma DisturbedByExact(g: Graph, g': Graph, lv: seq<nat>, lv': seq<nat>, xs: seq<nat>, j: nat,
                         shared: bool, t: nat, entry: set<Edge>, e: Edge, p: Packet)
    requires PullReady(g, lv, xs, j, shared, t, entry) && Pulled(g, g', xs, j, shared, entry) && Levelled(g', lv')
    requires ValidEdge(g, e) && Dst(g, e) in xs[j..] && Dst(g, e) < |g|
    ensures Out(g', lv', if e in entry then xs[|xs| - 1] else Dst(g, e), p) == Out(g, lv, Dst(g, e), p)
            <==> !DisturbedBy(g, lv, xs, j, shared, t, entry, e, p)
  {
    BelowChain(g, lv, xs, j, shared, t);
    if e in entry {
      EntryExact(g, g', lv, lv', xs, j, shared, t, entry, p);
    } else {
      ElsewhereExact(g, g', lv, lv', xs, j, shared, t, entry, Position(xs, j, Dst(g, e)), p);
    }
  }

  /** A rearrangement: the last block of the chain `xs` moves in front of `xs[j]`, whose entries are `entry`. */
  datatype Move = Move(xs: seq<nat>, j: nat, shared: bool, t: nat, entry: set<Edge>)

  ghost predicate MoveReady(g: Graph, lv: seq<nat>, root: nat, mv: Move) {
    PullReady(g, lv, mv.xs, mv.j, mv.shared, mv.t, mv.entry) && root < |g| && root !in mv.xs[mv.j..]
  }

  /** The run of `p` ends as before, unless it is disturbed. */
  ghost predicate ExactOn(g: Graph, g': Graph, lv: seq<nat>, lv': seq<nat>, root: nat, mv: Move, p: Packet, r: Regs)
    requires MoveReady(g, lv, root, mv) && Levelled(g', lv') && |g| == |g'|
  {
    Run(g', lv', root, p, r) == Run(g, lv, root, p, r) <==>
      !Disturbed(g, lv, root, mv.xs, mv.j, mv.shared, mv.t, mv.entry, p)
  }

  /** Pulling a test up its chain changes the result of exactly the disturbed runs. */
  lemma PulledExact(g: Graph, g': Graph, lv: seq<nat>, lv': seq<nat>, root: nat, xs: seq<nat>, j: nat, shared: bool,
                    t: nat, entry: set<Edge>, p: Packet, r: Regs)
    requires PullReady(g, lv, xs, j, shared, t, entry) && Pulled(g, g', xs, j, shared, entry) && Levelled(g', lv')
    requires AllSelfContained(g) && root < |g| && root !in xs[j..]
    ensures Run(g', lv', root, p, r) == Run(g, lv, root, p, r) <==> !Disturbed(g, lv, root, xs, j, shared, t, entry, p)
  {
    PulledSelfContained(g, g');
    OutIsRun(g, lv, root, p, r);
    OutIsRun(g', lv', root, p, r);
    OutsideOut(g, g', lv, lv', xs, j, shared, t, entry, root, p);
    var e := EntersBy(g, lv, xs[j..], root, p);
    if e.Some? { DisturbedByExact(g, g', lv, lv', xs, j, shared, t, entry, e.value, p); }
  }

  /** Only branch targets change, so blocks stay self-contained. */
  lemma PulledSelfContained(g: Graph, g': Graph)
    requires |g'| == |g| && (forall x | 0 <= x < |g| :: SameButTargets(g[x], g'[x])) && AllSelfContained(g)
    ensures AllSelfContained(g')
  {
    forall x | 0 <= x < |g'| ensures SelfContained(g'[x]) {
      assert SameButTargets(g[x], g'[x]) && SelfContained(g[x]);
      assert TermUse(g'[x].term) == TermUse(g[x].term);
    }
  }

  // Chains that are entered at the top only

  /** The edges to redirect: all into `b` at the top of the chain, otherwise the one from the block before. */
  ghost function Entries(ins: seq<Edge>, ds: seq<nat>, shared: bool): set<Edge>
    requires ds != []
  {
    if |ds| == 1 then set e | e in ins else {Edge(ds[|ds| - 2], !shared)}
  }

  /** Every listed edge into a chain member but the first comes from the member before it. */
  ghost predicate EnteredAtTop(inEdges: seq<seq<Edge>>, xs: seq<nat>, shared: bool)
    requires forall k | 0 <= k < |xs| :: xs[k] < |inEdges|
  {
    forall k | 0 < k < |xs| :: EnteredFromPrevious(inEdges, xs, shared, k)
  }

  ghost predicate EnteredFromPrevious(inEdges: seq<seq<Edge>>, xs: seq<nat>, shared: bool, k: nat)
    requires 0 < k < |xs| && xs[k] < |inEdges|
  {
    forall e | e in inEdges[xs[k]] :: e == Edge(xs[k - 1], !shared)
  }

  /** No block of the rearranged part faults. */
  ghost predicate QuietPart(g: Graph, xs: seq<nat>, j: nat, p: Packet) {
    forall k | j <= k < |xs| && xs[k] < |g| :: Acts(g[xs[k]], p).Some?
  }

  lemma {:induction false} QuietLeads(g: Graph, xs: seq<nat>, j: nat, i: nat, hi: nat, shared: bool, p: Packet)
    requires j <= i && hi <= |xs| && (forall k | 0 <= k < |xs| :: xs[k] < |g|) && QuietPart(g, xs, j, p)
    ensures ChainLeads(g, xs, i, hi, shared, p).Some?
    decreases hi - i
  {
    if i < hi {
      assert Acts(g[xs[i]], p).Some?;
      QuietLeads(g, xs, j, i + 1, hi, shared, p);
    }
  }

  /** An edge from outside into the rearranged part leads to its first block. */
  lemma EntersFirst(g: Graph, from: set<nat>, inEdges: seq<seq<Edge>>, xs: seq<nat>, j: nat, shared: bool, e: Edge)
    requires j < |xs| && (forall k | 0 <= k < |xs| :: xs[k] < |inEdges|)
    requires EdgesFrom(g, from, inEdges) && EnteredAtTop(inEdges, xs, shared)
    requires ValidEdge(g, e) && e.src in from && e.src !in xs[j..] && Dst(g, e) in xs[j..]
    ensures e in inEdges[xs[j]] && (j > 0 ==> e == Edge(xs[j - 1], !shared))
  {
    var k := InPart(xs, j, Dst(g, e));
    assert e in inEdges[xs[k]];
    PartHas(xs, j, e.src);
    if k > 0 { assert EnteredFromPrevious(inEdges, xs, shared, k); }
  }

  lemma PartHas(xs: seq<nat>, j: nat, x: nat)
    requires j <= |xs| && x !in xs[j..]
    ensures forall k | j <= k < |xs| :: xs[k] != x
  {
    forall k | j <= k < |xs| ensures xs[k] != x { assert xs[k] == xs[j..][k - j]; }
  }

  /** Entered at the top only, a run is disturbed exactly if it meets the chain, the order of a fault and a taken branch
      is swapped, and the shared target returns. */
  lemma TopDisturbed(g: Graph, lv: seq<nat>, root: nat, from: set<nat>, inEdges: seq<seq<Edge>>, xs: seq<nat>, j: nat,
                     shared: bool, t: nat, entry: set<Edge>, p: Packet)
    requires PullReady(g, lv, xs, j, shared, t, entry) && root < |g| && root !in xs[j..] && t < |g|
    requires (forall k | 0 <= k < |xs| :: xs[k] < |inEdges|) && (forall e | e in inEdges[xs[j]] :: e in entry)
    requires EdgesFrom(g, from, inEdges) && Reach(g, lv, root) <= from && EnteredAtTop(inEdges, xs, shared)
    ensures Disturbed(g, lv, root, xs, j, shared, t, entry, p) <==>
              EntersBy(g, lv, xs[j..], root, p).Some? && Out(g, lv, t, p).Return? && FaultMoved(g, xs, j, shared, p)
  {
    var e := EntersBy(g, lv, xs[j..], root, p);
    if e.Some? { EntersFirst(g, from, inEdges, xs, j, shared, e.value); }
  }

  /** Moving a test up a chain that is entered at the top only: the result changes exactly on the runs that meet the
      chain where one test faults and the other would have ended the chain in a return. */
  lemma PulledAtTopExact(g: Graph, g': Graph, lv: seq<nat>, lv': seq<nat>, root: nat, from: set<nat>,
                         inEdges: seq<seq<Edge>>, xs: seq<nat>, j: nat, shared: bool, t: nat, entry: set<Edge>,
                         p: Packet, r: Regs)
    requires PullReady(g, lv, xs, j, shared, t, entry) && root < |g| && root !in xs[j..] && t < |g|
    requires (forall k | 0 <= k < |xs| :: xs[k] < |inEdges|) && (forall e | e in inEdges[xs[j]] :: e in entry)
    requires EdgesFrom(g, from, inEdges) && Reach(g, lv, root) <= from && EnteredAtTop(inEdges, xs, shared)
    requires AllSelfContained(g) && Pulled(g, g', xs, j, shared, entry) && Levelled(g', lv')
    ensures Run(g', lv', root, p, r) == Run(g, lv, root, p, r) <==>
              !(EntersBy(g, lv, xs[j..], root, p).Some? && Run(g, lv, t, p, r).Return?
                && FaultMoved(g, xs, j, shared, p))
    ensures QuietPart(g, xs, j, p) ==> Run(g', lv', root, p, r) == Run(g, lv, root, p, r)
  {
    PulledExact(g, g', lv, lv', root, xs, j, shared, t, entry, p, r);
    TopDisturbed(g, lv, root, from, inEdges, xs, j, shared, t, entry, p);
    OutIsRun(g, lv, t, p, r);
    if QuietPart(g, xs, j, p) { QuietUndisturbed(g, xs, j, shared, p); }
  }

  /** If no block of the rearranged part faults, no run is disturbed that enters it at the top. */
  lemma QuietUndisturbed(g: Graph, xs: seq<nat>, j: nat, shared: bool, p: Packet)
    requires j < |xs| && (forall k | 0 <= k < |xs| :: xs[k] < |g|) && QuietPart(g, xs, j, p)
    ensures !FaultMoved(g, xs, j, shared, p)
  {
    QuietLeads(g, xs, j, |xs| - 1, |xs|, shared, p);
    QuietLeads(g, xs, j, j, |xs| - 1, shared, p);
  }

  // Finding the chain

  /** Block `x` can belong to a chain that starts at `b`. */
  ghost predicate OnChain(g: Graph, dom: seq<set<nat>>, b: nat, shared: bool, x: nat)
    requires b < |g| && g[b].term.Br? && |dom| == |g| && x < |g|
  {
    g[x].term.Br? && Succ(g[x], shared) == Succ(g[b], shared) && b in dom[x]
  }

  /** The blocks from `x` along the chain up to the first whose accumulator number equals `val`, or, if `want` is
      false, differs from it; `None` if the chain ends before. */
  ghost function Scan(g: Graph, lv: seq<nat>, dom: seq<set<nat>>, vals: seq<Vals>, b: nat, shared: bool, val: nat,
                      want: bool, x: nat): Option<seq<nat>>
    requires Levelled(g, lv) && b < |g| && g[b].term.Br? && |dom| == |vals| == |g| && x < |g|
    decreases lv[x]
  {
    if !OnChain(g, dom, b, shared, x) then None
    else if (vals[x][A_ATOM] == val) == want then Some([x])
    else
      assert EdgeDown(g, lv, x, !shared);
      var rest := Scan(g, lv, dom, vals, b, shared, val, want, Succ(g[x], !shared));
      if rest.None? then None else Some([x] + rest.value)
  }

  lemma {:induction false} ScanIsChain(g: Graph, lv: seq<nat>, dom: seq<set<nat>>, vals: seq<Vals>, b: nat,
                                       shared: bool, val: nat, want: bool, x: nat)
    requires Levelled(g, lv) && b < |g| && g[b].term.Br? && |dom| == |vals| == |g| && x < |g|
    requires Scan(g, lv, dom, vals, b, shared, val, want, x).Some?
    ensures var xs := Scan(g, lv, dom, vals, b, shared, val, want, x).value;
            && xs != [] && xs[0] == x && IsChain(g, xs, shared, Succ(g[b], shared))
            && (forall k | 0 <= k < |xs| :: b in dom[xs[k]])
            && (vals[xs[|xs| - 1]][A_ATOM] == val) == want
    decreases lv[x]
  {
    if (vals[x][A_ATOM] == val) != want {
      assert EdgeDown(g, lv, x, !shared);
      ScanIsChain(g, lv, dom, vals, b, shared, val, want, Succ(g[x], !shared));
      ChainCons(g, x, Scan(g, lv, dom, vals, b, shared, val, want, Succ(g[x], !shared)).value, shared,
                Succ(g[b], shared));
    }
  }

  lemma ChainCons(g: Graph, x: nat, xs: seq<nat>, shared: bool, t: nat)
    requires IsChain(g, xs, shared, t) && xs != [] && x < |g| && g[x].term.Br? && Succ(g[x], shared) == t
    requires Succ(g[x], !shared) == xs[0]
    ensures IsChain(g, [x] + xs, shared, t)
  {
    var ys := [x] + xs;
    forall i | 0 <= i < |ys| - 1 ensures Linked(g, ys, shared, i) {
      if i > 0 { assert Linked(g, xs, shared, i - 1); }
    }
  }

  ghost function Prepend(xs: seq<nat>, o: Option<seq<nat>>): Option<seq<nat>> {
    if o.None? then None else Some(xs + o.value)
  }

  lemma PrependNone(o: Option<seq<nat>>)
    ensures Prepend([], o) == o
  {
    if o.Some? { assert [] + o.value == o.value; }
  }

  lemma PrependMore(xs: seq<nat>, x: nat, o: Option<seq<nat>>)
    ensures Prepend(xs, Prepend([x], o)) == Prepend(xs + [x], o)
  {
    if o.Some? { assert xs + ([x] + o.value) == xs + [x] + o.value; }
  }

  /** Walk the chain from `start`, which `before` precedes. */
  method ScanChain(g: Graph, ghost lv: seq<nat>, dom: seq<set<nat>>, vals: seq<Vals>, b: nat, shared: bool, val: nat,
                   want: bool, start: nat, before: Option<nat>)
    returns (found: bool, x: nat, prev: Option<nat>, ghost xs: seq<nat>)
    requires Levelled(g, lv) && b < |g| && g[b].term.Br? && |dom| == |vals| == |g| && start < |g|
    ensures found <==> Scan(g, lv, dom, vals, b, shared, val, want, start).Some?
    ensures found ==> Scan(g, lv, dom, vals, b, shared, val, want, start) == Some(xs) && xs != [] && x == xs[|xs| - 1]
    ensures found ==> prev == if |xs| == 1 then before else Some(xs[|xs| - 2])
  {
    x, prev, xs := start, before, [];
    PrependNone(Scan(g, lv, dom, vals, b, shared, val, want, start));
    while true
      invariant x < |g| && prev == if xs == [] then before else Some(xs[|xs| - 1])
      invariant Scan(g, lv, dom, vals, b, shared, val, want, start) ==
                Prepend(xs, Scan(g, lv, dom, vals, b, shared, val, want, x))
      decreases lv[x]
    {
      if g[x].term.Ret? || Succ(g[x], shared) != Succ(g[b], shared) || b !in dom[x] { return false, x, prev, xs; }
      if (vals[x][A_ATOM] == val) == want {
        xs := xs + [x];
        return true, x, prev, xs;
      }
      assert EdgeDown(g, lv, x, !shared);
      PrependMore(xs, x, Scan(g, lv, dom, vals, b, shared, val, want, Succ(g[x], !shared)));
      xs := xs + [x];
      prev := Some(x);
      x := Succ(g[x], !shared);
    }
  }

  // Redirecting the predecessors

  function CountFrom(es: seq<Edge>, x: nat): nat {
    if es == [] then 0 else (if es[0].src == x then 1 else 0) + CountFrom(es[1..], x)
  }

  lemma {:induction false} CountEdges(es: seq<Edge>, x: nat)
    requires NoDup(es)
    ensures CountFrom(es, x) == (if Edge(x, true) in es then 1 else 0) + (if Edge(x, false) in es then 1 else 0)
    decreases es
  {
    if es != [] {
      assert forall i, j | 0 <= i < j < |es[1..]| :: es[1..][i] == es[i + 1] && es[1..][j] == es[j + 1];
      CountEdges(es[1..], x);
      assert es == [es[0]] + es[1..];
      assert es[0] !in es[1..];
    }
  }

  lemma {:induction false} CountSnoc(es: seq<Edge>, e: Edge, x: nat)
    ensures CountFrom(es + [e], x) == CountFrom(es, x) + if e.src == x then 1 else 0
  {
    if es == [] {
      assert es + [e] == [e] && [e][1..] == [];
    } else {
      assert (es + [e])[1..] == es[1..] + [e];
      CountSnoc(es[1..], e, x);
    }
  }

  /** Block `x` after `n` of its listed edges: if both are listed, the first changes the true branch. */
  ghost predicate Redone(old_: Block, new_: Block, pull: nat, ins: seq<Edge>, n: nat, x: nat) {
    && SameButTargets(old_, new_)
    && (old_.term.Br? ==>
          && new_.term.jt == (if Edge(x, true) in ins && n >= 1 then pull else old_.term.jt)
          && new_.term.jf
              == (if Edge(x, false) in ins && n >= (if Edge(x, true) in ins then 2 else 1) then pull else old_.term.jf))
  }

  /** `ins` lists edges into `b`, once each, and with an edge also the other edge of its source, if that leads to
      `b`. */
  ghost predicate Complete(g: Graph, b: nat, ins: seq<Edge>) {
    && NoDup(ins)
    && (forall e | e in ins :: ValidEdge(g, e) && Dst(g, e) == b)
    && (forall e, d | e in ins && Succ(g[e.src], d) == b :: Edge(e.src, d) in ins)
  }

  lemma CountNext(ins: seq<Edge>, i: nat, x: nat)
    requires i < |ins| && NoDup(ins)
    ensures CountFrom(ins[..i + 1], x) == CountFrom(ins[..i], x) + if ins[i].src == x then 1 else 0
    ensures CountFrom(ins[..i + 1], x) <= (if Edge(x, true) in ins then 1 else 0)
            + (if Edge(x, false) in ins then 1 else 0)
  {
    assert ins[..i + 1] == ins[..i] + [ins[i]];
    CountSnoc(ins[..i], ins[i], x);
    CountEdges(ins[..i + 1], x);
  }

  /** Send one edge of `x` to `pull`: its true branch if that leads to `b`, otherwise the false one. */
  method RedirectOne(g: Graph, b: nat, pull: nat, x: nat, ghost g0: Graph, ghost ins: seq<Edge>, ghost n: nat)
    returns (g': Graph)
    requires |g| == |g0| && x < |g| && pull != b && Complete(g0, b, ins) && Redone(g0[x], g[x], pull, ins, n, x)
    requires (Edge(x, true) in ins || Edge(x, false) in ins)
    requires n + 1 <= (if Edge(x, true) in ins then 1 else 0) + (if Edge(x, false) in ins then 1 else 0)
    ensures |g'| == |g| && Redone(g0[x], g'[x], pull, ins, n + 1, x)
    ensures forall y | 0 <= y < |g| && y != x :: g'[y] == g[y]
  {
    assert ValidEdge(g0, Edge(x, true));
    assert Edge(x, true) in ins <==> Succ(g0[x], true) == b;
    assert Edge(x, false) in ins <==> Succ(g0[x], false) == b;
    if g[x].term.jt == b {
      g' := Redirect(g, Edge(x, true), pull);
      assert Succ(g'[x], true) == pull && Succ(g'[x], false) == Succ(g[x], false);
    } else {
      g' := Redirect(g, Edge(x, false), pull);
      assert Succ(g'[x], false) == pull && Succ(g'[x], true) == Succ(g[x], true);
    }
  }

  /** Send every listed edge to `pull`. */
  method RedirectAll(g: Graph, b: nat, pull: nat, ins: seq<Edge>) returns (g': Graph)
    requires pull != b && Complete(g, b, ins)
    ensures |g'| == |g|
    ensures forall x | 0 <= x < |g| :: SameButTargets(g[x], g'[x])
    ensures forall x, d | 0 <= x < |g| && g[x].term.Br? && g'[x].term.Br? ::
              Succ(g'[x], d) == if Edge(x, d) in ins then pull else Succ(g[x], d)
  {
    g' := g;
    for i := 0 to |ins|
      invariant |g'| == |g| && forall x | 0 <= x < |g| :: Redone(g[x], g'[x], pull, ins, CountFrom(ins[..i], x), x)
    {
      var e := ins[i];
      ghost var before := g';
      CountNext(ins, i, e.src);
      assert e in ins && e == Edge(e.src, e.dir);
      g' := RedirectOne(g', b, pull, e.src, g, ins, CountFrom(ins[..i], e.src));
      forall x | 0 <= x < |g| ensures Redone(g[x], g'[x], pull, ins, CountFrom(ins[..i + 1], x), x) {
        CountNext(ins, i, x);
      }
    }
    assert ins[..|ins|] == ins;
    forall x, d | 0 <= x < |g| && g[x].term.Br?
      ensures Succ(g'[x], d) == if Edge(x, d) in ins then pull else Succ(g[x], d)
    {
      CountEdges(ins, x);
      assert Redone(g[x], g'[x], pull, ins, CountFrom(ins, x), x);
    }
  }

  // or_pullup and and_pullup

  /** All predecessors leave the same number in the accumulator. */
  ghost predicate SameLoaded(ins: seq<Edge>, vals: seq<Vals>, val: nat) {
    forall i | 0 <= i < |ins| && ins[i].src < |vals| :: vals[ins[i].src][A_ATOM] == val
  }

  method CheckLoaded(ins: seq<Edge>, vals: seq<Vals>, val: nat) returns (same: bool)
    requires forall e | e in ins :: e.src < |vals|
    ensures same <==> SameLoaded(ins, vals, val)
  {
    for i := 0 to |ins|
      invariant SameLoaded(ins[..i], vals, val)
    {
      assert ins[i] in ins;
      if vals[ins[i].src][A_ATOM] != val { return false; }
      assert ins[..i + 1] == ins[..i] + [ins[i]];
    }
    assert ins[..|ins|] == ins;
    return true;
  }

  /** The two scans together make a chain that is ready to be rewritten, whatever `dom` holds. */
  lemma ScansReady(g: Graph, lv: seq<nat>, dom: seq<set<nat>>, vals: seq<Vals>, ins: seq<Edge>,
                   b: nat, shared: bool, val: nat, ds: seq<nat>, ss: seq<nat>)
    requires Levelled(g, lv) && b < |g| && g[b].term.Br? && |vals| == |dom| == |g|
    requires forall e | e in ins :: ValidEdge(g, e) && Dst(g, e) == b
    requires Scan(g, lv, dom, vals, b, shared, val, false, b) == Some(ds) && ds != []
    requires ds[|ds| - 1] < |g| && g[ds[|ds| - 1]].term.Br?
    requires Succ(g[ds[|ds| - 1]], !shared) < |g|
    requires Scan(g, lv, dom, vals, b, shared, val, true, Succ(g[ds[|ds| - 1]], !shared)) == Some(ss)
    ensures ds[0] == b && ss != []
    ensures PullReady(g, lv, ds + ss, |ds| - 1, shared, Succ(g[b], shared), Entries(ins, ds, shared))
    ensures forall k | 0 <= k < |ds| + |ss| :: (ds + ss)[k] < |g| && b in dom[(ds + ss)[k]]
  {
    var t := Succ(g[b], shared);
    var xs, j := ds + ss, |ds| - 1;
    ScanIsChain(g, lv, dom, vals, b, shared, val, false, b);
    ScanIsChain(g, lv, dom, vals, b, shared, val, true, Succ(g[ds[j]], !shared));
    JoinedChain(g, ds, ss, shared, t);
    forall k | 0 <= k < |xs| ensures xs[k] < |g| && b in dom[xs[k]] {
      if k < |ds| { assert xs[k] == ds[k]; } else { assert xs[k] == ss[k - |ds|]; }
    }
    assert xs[j] == ds[j];
    if j > 0 { assert Linked(g, ds, shared, j - 1); }
  }

  lemma JoinedChain(g: Graph, ds: seq<nat>, ss: seq<nat>, shared: bool, t: nat)
    requires IsChain(g, ds, shared, t) && IsChain(g, ss, shared, t) && ds != [] && ss != []
    requires Succ(g[ds[|ds| - 1]], !shared) == ss[0]
    ensures IsChain(g, ds + ss, shared, t)
  {
    var xs := ds + ss;
    forall i | 0 <= i < |xs| ensures xs[i] < |g| && g[xs[i]].term.Br? && Succ(g[xs[i]], shared) == t {
      assert xs[i] == if i < |ds| then ds[i] else ss[i - |ds|];
    }
    forall i | 0 <= i < |xs| - 1 ensures Linked(g, xs, shared, i) {
      assert xs[i] == if i < |ds| then ds[i] else ss[i - |ds|];
      assert xs[i + 1] == if i + 1 < |ds| then ds[i + 1] else ss[i + 1 - |ds|];
      if i + 1 < |ds| { assert Linked(g, ds, shared, i); }
      if i >= |ds| { assert Linked(g, ss, shared, i - |ds|); }
    }
  }

  /** The blocks around the moved part are distinct from the sources of its entries. */
  lemma MoveApart(g: Graph, lv: seq<nat>, xs: seq<nat>, j: nat, shared: bool, t: nat, entry: set<Edge>)
    requires PullReady(g, lv, xs, j, shared, t, entry)
    ensures var m := |xs| - 1;
            && xs[m] != xs[m - 1] && xs[m] != xs[j]
            && forall e | e in entry :: e.src != xs[m] && e.src != xs[m - 1]
  {
    var m := |xs| - 1;
    ChainFalls(g, lv, xs, shared, t, m - 1, m);
    ChainFalls(g, lv, xs, shared, t, j, m);
    ChainFalls(g, lv, xs, shared, t, j, m - 1);
    forall e | e in entry ensures e.src != xs[m] && e.src != xs[m - 1] { assert EdgeDown(g, lv, e.src, e.dir); }
  }

  /** Move the last block of the chain in front of `diff`. */
  method MoveUp(g: Graph, b: nat, shared: bool, ins: seq<Edge>, prev: Option<nat>, diff: nat, sprev: nat, pull: nat,
                ghost lv: seq<nat>, ghost ds: seq<nat>, ghost xs: seq<nat>)
    returns (g': Graph)
    requires ds != [] && |ds| < |xs| && b < |g| && g[b].term.Br?
    requires PullReady(g, lv, xs, |ds| - 1, shared, Succ(g[b], shared), Entries(ins, ds, shared))
    requires diff == ds[|ds| - 1] == xs[|ds| - 1] && pull == xs[|xs| - 1] && sprev == xs[|xs| - 2]
    requires prev == (if |ds| == 1 then None else Some(ds[|ds| - 2]))
    requires |ds| == 1 ==> diff == b && Complete(g, b, ins)
    ensures Pulled(g, g', xs, |ds| - 1, shared, Entries(ins, ds, shared))
  {
    ghost var entry := Entries(ins, ds, shared);
    MoveApart(g, lv, xs, |ds| - 1, shared, Succ(g[b], shared), entry);
    var g1 := Redirect(g, Edge(sprev, !shared), Succ(g[pull], !shared));
    var g2 := Redirect(g1, Edge(pull, !shared), diff);
    if prev.None? {
      assert Complete(g2, b, ins) by { CompleteFrame(g, g2, b, ins, pull, sprev); }
      g' := RedirectAll(g2, b, pull, ins);
    } else {
      assert Edge(prev.value, !shared) in entry;
      g' := Redirect(g2, Edge(prev.value, !shared), pull);
    }
    MovedIsPulled(g, g1, g2, g', xs, |ds| - 1, shared, entry);
  }

  lemma CompleteFrame(g: Graph, g': Graph, b: nat, ins: seq<Edge>, x: nat, y: nat)
    requires Complete(g, b, ins) && |g'| == |g| && (forall e | e in ins :: e.src != x && e.src != y)
    requires forall z | 0 <= z < |g| && z != x && z != y :: g'[z] == g[z]
    ensures Complete(g', b, ins)
  {
  }

  lemma MovedIsPulled(g: Graph, g1: Graph, g2: Graph, g': Graph, xs: seq<nat>, j: nat, shared: bool, entry: set<Edge>)
    requires j + 1 < |xs| && |g'| == |g|
    requires var m := |xs| - 1;
             && xs[m] < |g| && xs[m - 1] < |g| && g[xs[m]].term.Br? && g[xs[m - 1]].term.Br? && xs[m] != xs[m - 1]
             && (forall e | e in entry :: e.src != xs[m] && e.src != xs[m - 1])
             && g1 == Redirect(g, Edge(xs[m - 1], !shared), Succ(g[xs[m]], !shared))
             && g2 == Redirect(g1, Edge(xs[m], !shared), xs[j])
    requires forall x | 0 <= x < |g| :: SameButTargets(g2[x], g'[x])
    requires forall x, d | 0 <= x < |g| && g2[x].term.Br? && g'[x].term.Br? ::
               Succ(g'[x], d) == if Edge(x, d) in entry then xs[|xs| - 1] else Succ(g2[x], d)
    ensures Pulled(g, g', xs, j, shared, entry)
  {
    forall x | 0 <= x < |g| ensures SameButTargets(g[x], g'[x]) { assert SameButTargets(g2[x], g'[x]); }
    forall x, d | 0 <= x < |g| && g[x].term.Br? ensures Succ(g'[x], d) == PulledSucc(g, xs, j, shared, entry, x, d) {
      assert SameButTargets(g2[x], g'[x]);
      assert Succ(g'[x], d) == if Edge(x, d) in entry then xs[|xs| - 1] else Succ(g2[x], d);
    }
  }

  /** The part of the chain to move in front of, and the part up to the block to move, if the predecessors agree. */
  ghost function Movable(g: Graph, lv: seq<nat>, dom: seq<set<nat>>, vals: seq<Vals>, ins: seq<Edge>, b: nat,
                         shared: bool): (parts: Option<(seq<nat>, seq<nat>)>)
    requires Levelled(g, lv) && b < |g| && g[b].term.Br? && |dom| == |vals| == |g|
    requires ins != [] && ins[0].src < |g|
    ensures parts.Some? ==> parts.value.0 != []
  {
    var val := vals[ins[0].src][A_ATOM];
    var ds := Scan(g, lv, dom, vals, b, shared, val, false, b);
    if !SameLoaded(ins, vals, val) || ds.None? then None
    else
      ScanIsChain(g, lv, dom, vals, b, shared, val, false, b);
      var diff := ds.value[|ds.value| - 1];
      assert EdgeDown(g, lv, diff, !shared);
      var ss := Scan(g, lv, dom, vals, b, shared, val, true, Succ(g[diff], !shared));
      if ss.None? then None else Some((ds.value, ss.value))
  }

  lemma MovableReady(g: Graph, lv: seq<nat>, dom: seq<set<nat>>, vals: seq<Vals>, ins: seq<Edge>,
                     b: nat, shared: bool, ds: seq<nat>, ss: seq<nat>)
    requires Levelled(g, lv) && b < |g| && g[b].term.Br? && |vals| == |dom| == |g|
    requires ins != [] && ins[0].src < |g| && forall e | e in ins :: ValidEdge(g, e) && Dst(g, e) == b
    requires Movable(g, lv, dom, vals, ins, b, shared) == Some((ds, ss)) && ds != []
    ensures ds[0] == b && ss != []
    ensures PullReady(g, lv, ds + ss, |ds| - 1, shared, Succ(g[b], shared), Entries(ins, ds, shared))
    ensures forall k | 0 <= k < |ds| + |ss| :: (ds + ss)[k] < |g| && b in dom[(ds + ss)[k]]
  {
    var val := vals[ins[0].src][A_ATOM];
    ScanIsChain(g, lv, dom, vals, b, shared, val, false, b);
    assert EdgeDown(g, lv, ds[|ds| - 1], !shared);
    ScansReady(g, lv, dom, vals, ins, b, shared, val, ds, ss);
  }

  /** The sets are the dominators of the graph they are used with. */
  ghost predicate DomsExact(g: Graph, lv: seq<nat>, root: nat, dom: seq<set<nat>>)
    requires Levelled(g, lv) && root < |g|
  {
    |dom| == |g| && forall x, d | x in Reach(g, lv, root) && 0 <= d < |g| :: d in dom[x] <==> Dominates(g, root, d, x)
  }

  /** With dominators that are right for the graph, the chain found is entered at the top only. */
  lemma DominatedAtTop(g: Graph, lv: seq<nat>, root: nat, dom: seq<set<nat>>, vals: seq<Vals>, inEdges: seq<seq<Edge>>,
                       b: nat, shared: bool, ds: seq<nat>, ss: seq<nat>)
    requires Levelled(g, lv) && root < |g| && b < |g| && g[b].term.Br? && |vals| == |g| && DomsExact(g, lv, root, dom)
    requires EdgesFrom(g, Reach(g, lv, root), inEdges) && inEdges[b] != [] && inEdges[b][0].src < |g|
    requires Movable(g, lv, dom, vals, inEdges[b], b, shared) == Some((ds, ss)) && ds != []
    ensures (forall k | 0 <= k < |ds| + |ss| :: (ds + ss)[k] < |g|) && EnteredAtTop(inEdges, ds + ss, shared)
    ensures forall e | e in inEdges[(ds + ss)[|ds| - 1]] :: e in Entries(inEdges[b], ds, shared)
  {
    var xs, t := ds + ss, Succ(g[b], shared);
    MovableReady(g, lv, dom, vals, inEdges[b], b, shared, ds, ss);
    assert inEdges[b][0] in inEdges[b];
    ReachClosed(g, lv, root, inEdges[b][0]);
    forall k | 0 < k < |xs| ensures EnteredFromPrevious(inEdges, xs, shared, k) {
      ChainReached(g, lv, root, xs, shared, t, k);
      forall e | e in inEdges[xs[k]] ensures e == Edge(xs[k - 1], !shared) {
        EnteredAlongChain(g, lv, root, xs, shared, t, k, e);
      }
    }
    TopEntries(inEdges, b, shared, ds, ss);
  }

  /** The edges redirected are all that lead to the place where the block is moved. */
  lemma TopEntries(inEdges: seq<seq<Edge>>, b: nat, shared: bool, ds: seq<nat>, ss: seq<nat>)
    requires ds != [] && ds[0] == b && (forall k | 0 <= k < |ds| + |ss| :: (ds + ss)[k] < |inEdges|)
    requires EnteredAtTop(inEdges, ds + ss, shared)
    ensures b < |inEdges| && forall e | e in inEdges[(ds + ss)[|ds| - 1]] :: e in Entries(inEdges[b], ds, shared)
  {
    var xs, j := ds + ss, |ds| - 1;
    assert xs[0] == b && xs[j] == ds[j];
    if j > 0 {
      assert EnteredFromPrevious(inEdges, xs, shared, j);
      assert xs[j - 1] == ds[j - 1];
    }
  }

  /** Scan for the block to move in front of, and from there for the block to move. */
  method FindParts(g: Graph, b: nat, shared: bool, dom: seq<set<nat>>, vals: seq<Vals>, ins: seq<Edge>,
                   ghost lv: seq<nat>)
    returns (found: bool, prev: Option<nat>, diff: nat, sprev: nat, pull: nat, ghost ds: seq<nat>, ghost ss: seq<nat>)
    requires Levelled(g, lv) && b < |g| && g[b].term.Br? && |dom| == |vals| == |g| && ins != []
    requires forall e | e in ins :: e.src < |g|
    ensures ins[0] in ins && (found <==> Movable(g, lv, dom, vals, ins, b, shared).Some?)
    ensures found ==> Movable(g, lv, dom, vals, ins, b, shared) == Some((ds, ss)) && ds != [] && ss != []
    ensures found ==>
              prev == (if |ds| == 1 then None else Some(ds[|ds| - 2])) && diff == ds[|ds| - 1]
              && (|ds| == 1 ==> diff == b)
    ensures found ==> sprev == (ds + ss)[|ds| + |ss| - 2] && pull == (ds + ss)[|ds| + |ss| - 1]
  {
    found, prev, diff, sprev, pull, ds, ss := false, None, b, b, b, [], [];
    assert ins[0] in ins;
    var val := vals[ins[0].src][A_ATOM];
    var same := CheckLoaded(ins, vals, val);
    if !same { return; }
    found, diff, prev, ds := ScanChain(g, lv, dom, vals, b, shared, val, false, b, None);
    if !found { return; }
    ScanIsChain(g, lv, dom, vals, b, shared, val, false, b);
    assert EdgeDown(g, lv, diff, !shared);
    var before;
    found, pull, before, ss := ScanChain(g, lv, dom, vals, b, shared, val, true, Succ(g[diff], !shared), Some(diff));
    if found { sprev := before.value; }
  }

  /** or_pullup for `shared` true, and_pullup for `shared` false: find, along the chain that starts at `b`, the
      first test of another value than the predecessors left in the accumulator, and after it the first test of that
      value; move the latter in front of the former. `ds` and `ss` are the two parts of the chain. */
  method PullUp(g: Graph, root: nat, b: nat, shared: bool, dom: seq<set<nat>>, vals: seq<Vals>, inEdges: seq<seq<Edge>>,
                ghost lv: seq<nat>, ghost from: set<nat>)
    returns (g': Graph, changed: bool, ghost lv': seq<nat>, ghost mv: Move)
    requires Levelled(g, lv) && root < |g| && b < |g| && g[b].term.Br? && |vals| == |dom| == |g|
    requires EdgesFrom(g, from, inEdges) && forall x | x in from :: x < |g| && lv[x] <= lv[root]
    ensures Levelled(g', lv') && |g'| == |g|
    ensures !changed ==> g' == g && lv' == lv
    ensures changed <==> inEdges[b] != [] && Movable(g, lv, dom, vals, inEdges[b], b, shared).Some?
    ensures changed ==> mv == MoveOf(Movable(g, lv, dom, vals, inEdges[b], b, shared).value, g[b], shared, inEdges[b])
    ensures changed ==> PullDone(g, g', lv, lv', root, mv)
  {
    g', changed, lv', mv := g, false, lv, Move([], 0, shared, 0, {});
    var ins := inEdges[b];
    if ins == [] { return; }
    assert ins[0] in ins;
    var prev, diff, sprev, pull;
    ghost var ds, ss;
    changed, prev, diff, sprev, pull, ds, ss := FindParts(g, b, shared, dom, vals, ins, lv);
    if !changed { return; }
    mv := MoveOf((ds, ss), g[b], shared, ins);
    MovableReady(g, lv, dom, vals, ins, b, shared, ds, ss);
    ListedComplete(g, from, inEdges, b);
    g' := MoveUp(g, b, shared, ins, prev, diff, sprev, pull, lv, ds, mv.xs);
    lv' := PulledLevels(g, lv, mv.xs, mv.j);
    assert EdgeDown(g, lv, ins[0].src, ins[0].dir);
    MoveExact(g, g', lv, root, mv);
  }

  /** `g'` is `g` rearranged, and every run of self-contained blocks ends as before, unless it is disturbed. */
  ghost predicate PullDone(g: Graph, g': Graph, lv: seq<nat>, lv': seq<nat>, root: nat, mv: Move) {
    && MoveReady(g, lv, root, mv) && Pulled(g, g', mv.xs, mv.j, mv.shared, mv.entry) && Levelled(g', lv')
    && (AllSelfContained(g) ==> forall p, r :: ExactOn(g, g', lv, lv', root, mv, p, r))
  }

  /** What the scans found, as a rearrangement. */
  ghost function MoveOf(parts: (seq<nat>, seq<nat>), b: Block, shared: bool, ins: seq<Edge>): Move
    requires parts.0 != [] && b.term.Br?
  {
    Move(parts.0 + parts.1, |parts.0| - 1, shared, Succ(b, shared), Entries(ins, parts.0, shared))
  }

  lemma MoveExact(g: Graph, g': Graph, lv: seq<nat>, root: nat, mv: Move)
    requires PullReady(g, lv, mv.xs, mv.j, mv.shared, mv.t, mv.entry) && Pulled(g, g', mv.xs, mv.j, mv.shared, mv.entry)
    requires root < |g| && lv[mv.xs[0]] < lv[root]
    ensures PullDone(g, g', lv, PulledLevels(g, lv, mv.xs, mv.j), root, mv)
  {
    var lv' := PulledLevels(g, lv, mv.xs, mv.j);
    RootOutside(g, lv, root, mv.xs, mv.j, mv.shared, mv.t);
    PulledLevelled(g, g', lv, mv.xs, mv.j, mv.shared, mv.t, mv.entry);
    if AllSelfContained(g) {
      forall p, r ensures ExactOn(g, g', lv, lv', root, mv, p, r) {
        PulledExact(g, g', lv, lv', root, mv.xs, mv.j, mv.shared, mv.t, mv.entry, p, r);
      }
    }
  }

  lemma ListedComplete(g: Graph, from: set<nat>, inEdges: seq<seq<Edge>>, b: nat)
    requires b < |g| && EdgesFrom(g, from, inEdges)
    ensures Complete(g, b, inEdges[b])
  {
    forall e, d | e in inEdges[b] && Succ(g[e.src], d) == b ensures Edge(e.src, d) in inEdges[b] {
      assert ValidEdge(g, Edge(e.src, d));
    }
  }

  lemma RootOutside(g: Graph, lv: seq<nat>, root: nat, xs: seq<nat>, j: nat, shared: bool, t: nat)
    requires Levelled(g, lv) && root < |g| && IsChain(g, xs, shared, t) && j < |xs| && lv[xs[0]] < lv[root]
    ensures root !in xs[j..]
  {
    forall x | x in xs[j..] ensures x != root {
      var k := InPart(xs, j, x);
      ChainFalls(g, lv, xs, shared, t, 0, k);
    }
  }

  // A series of rearrangements

  /** Each graph of the series is the one before it, rearranged. */
  ghost predicate IsSeries(gs: seq<Graph>, lvs: seq<seq<nat>>, root: nat, mvs: seq<Move>) {
    && |gs| == |lvs| == |mvs| + 1 && Levelled(gs[0], lvs[0]) && root < |gs[0]|
    && forall k | 0 <= k < |mvs| :: PullDone(gs[k], gs[k + 1], lvs[k], lvs[k + 1], root, mvs[k])
  }

  /** A run that no rearrangement of the series disturbs ends as it did before the first. */
  lemma {:induction false} SeriesKeeps(gs: seq<Graph>, lvs: seq<seq<nat>>, root: nat, mvs: seq<Move>, n: nat, p: Packet,
                                       r: Regs)
    requires IsSeries(gs, lvs, root, mvs) && AllSelfContained(gs[0]) && n <= |mvs|
    requires forall k | 0 <= k < n ::
               PullDone(gs[k], gs[k + 1], lvs[k], lvs[k + 1], root, mvs[k]) && !Disturbs(gs[k], lvs[k], root, mvs[k], p)
    ensures Levelled(gs[n], lvs[n]) && root < |gs[n]| && AllSelfContained(gs[n])
    ensures Run(gs[n], lvs[n], root, p, r) == Run(gs[0], lvs[0], root, p, r)
  {
    if n > 0 {
      SeriesKeeps(gs, lvs, root, mvs, n - 1, p, r);
      assert PullDone(gs[n - 1], gs[n - 1 + 1], lvs[n - 1], lvs[n - 1 + 1], root, mvs[n - 1]);
      assert !Disturbs(gs[n - 1], lvs[n - 1], root, mvs[n - 1], p);
      assert ExactOn(gs[n - 1], gs[n], lvs[n - 1], lvs[n], root, mvs[n - 1], p, r);
      PulledSelfContained(gs[n - 1], gs[n]);
    }
  }

  ghost predicate Disturbs(g: Graph, lv: seq<nat>, root: nat, mv: Move, p: Packet)
    requires MoveReady(g, lv, root, mv)
  {
    Disturbed(g, lv, root, mv.xs, mv.j, mv.shared, mv.t, mv.entry, p)
  }

  /** `c` is in the rearranged part or the block after it. */
  ghost predicate InOrAfter(g: Graph, xs: seq<nat>, j: nat, shared: bool, c: nat)
    requires j <= |xs| && xs != [] && xs[|xs| - 1] < |g| && g[xs[|xs| - 1]].term.Br?
  {
    c in xs[j..] || c == Succ(g[xs[|xs| - 1]], !shared)
  }

  /** The lists of edges made before the first rearrangement stay right for every other block. */
  lemma ListsStay(g: Graph, g': Graph, lv: seq<nat>, lv': seq<nat>, root: nat, mv: Move, from: set<nat>,
                  inEdges: seq<seq<Edge>>, c: nat, e: Edge)
    requires PullDone(g, g', lv, lv', root, mv) && EdgesFrom(g, from, inEdges) && c < |g|
    requires !InOrAfter(g, mv.xs, mv.j, mv.shared, c)
    ensures e in inEdges[c] <==> ValidEdge(g', e) && e.src in from && Dst(g', e) == c
  {
    if e.src < |g| && g[e.src].term.Br? {
      assert Succ(g'[e.src], e.dir) == PulledSucc(g, mv.xs, mv.j, mv.shared, mv.entry, e.src, e.dir);
      assert SameButTargets(g[e.src], g'[e.src]);
      ChangedWithin(g, lv, mv.xs, mv.j, mv.shared, mv.t, mv.entry, e);
    } else if e.src < |g| {
      assert SameButTargets(g[e.src], g'[e.src]);
    }
  }

  /** An edge that is moved leads into the part, or to the block after it, before and after. */
  lemma ChangedWithin(g: Graph, lv: seq<nat>, xs: seq<nat>, j: nat, shared: bool, t: nat, entry: set<Edge>, e: Edge)
    requires PullReady(g, lv, xs, j, shared, t, entry) && ValidEdge(g, e) && xs[|xs| - 1] < |g|
    requires g[xs[|xs| - 1]].term.Br?
    ensures var y, y' := Dst(g, e), PulledSucc(g, xs, j, shared, entry, e.src, e.dir);
            y' == y || (InOrAfter(g, xs, j, shared, y) && InOrAfter(g, xs, j, shared, y'))
  {
    var m := |xs| - 1;
    assert xs[m] == xs[j..][m - j] && xs[j] == xs[j..][0];
    assert Linked(g, xs, shared, m - 1);
  }
}
