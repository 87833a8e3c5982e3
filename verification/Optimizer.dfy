/** Running the analyses and the passes that use them one after another (opt_init, opt_loop, bpf_optimize). */
module Optimizer {
  import opened Machine
  import opened Graph
  import opened Levels
  import opened Liveness
  import opened Dominance
  import opened DeadStores
  import opened ValueTable
  import opened Numbering
  import opened NumberingPass
  import opened Threading
  import opened Pullup
  import opened Peephole
  import opened BlockPass
  import opened Sweep
  import opened BranchPass
  import opened Interning
  import opened Flat
  import opened Lowering

  /** The number of statements that are not deleted. */
  method CountReal(ss: seq<Stmt>) returns (n: nat)
    ensures n == SLength(ss)
  {
    n := 0;
    for i := 0 to |ss|
      invariant n == SLength(ss[..i])
    {
      assert ss[..i + 1] == ss[..i] + [ss[i]];
      CodeAppend(ss[..i], ss[i]);
      if !ss[i].Nop? { n := n + 1; }
    }
    assert ss[..|ss|] == ss;
  }

  /** The number of value numbers to make room for. */
  method OptInit(g: Graph) returns (maxval: nat)
    ensures maxval == Maxval(g, |g|)
  {
    maxval := 0;
    for i := 0 to |g|
      invariant maxval == Maxval(g, i)
    {
      var n := CountReal(g[i].stmts);
      maxval := maxval + 3 * (n + 1);
    }
  }

  lemma PreservesTrans(g: Graph, g1: Graph, g2: Graph, lv: seq<nat>, lv1: seq<nat>, lv1': seq<nat>, lv2: seq<nat>,
                       root: nat)
    requires Levelled(g, lv) && Levelled(g1, lv1) && Levelled(g1, lv1') && Levelled(g2, lv2)
    requires root < |g| && root < |g1| && root < |g2|
    requires Preserves(g, g1, lv, lv1, root) && Preserves(g1, g2, lv1', lv2, root)
    ensures Preserves(g, g2, lv, lv2, root)
  {
    forall p, r | Run(g, lv, root, p, r).Return? ensures Run(g2, lv2, root, p, r) == Run(g, lv, root, p, r) {
      RunLevelIrrelevant(g1, lv1, lv1', root, p, r);
    }
  }

  /** The facts jump threading starts from, with numbers and edge sets that are right for the graph. */
  lemma NumberedBasis(es: seq<Expr>, g: Graph, lv: seq<nat>, root: nat, valIn: seq<Vals>, vals: seq<Vals>,
                      oval: seq<nat>, edom: EdgeSets)
    requires Levelled(g, lv) && root < |g| && AllSelfContained(g) && EdomExactFor(g, lv, root, edom)
    requires Numbered(es, g, g, lv, root, valIn, vals, oval, Reach(g, lv, root)) && NoDup(es)
    ensures Basis(true, g, g, lv, root, vals, oval, edom) && Current(true, g, g, g, lv, root)
  {
    CurrentStart(g, lv, root);
    forall c, k: Edge, p | c in Reach(g, lv, root) && k.src in Reach(g, lv, root)
      ensures FoldRight(g, g, root, vals, oval, c, k, p)
    {
      if FoldDir(g, vals, oval, c, k).Some? && Fine(g, p, c) && Taken(g, p, k) {
        NumberedExit(es, g, lv, root, valIn, vals, oval, c);
        NumberedExit(es, g, lv, root, valIn, vals, oval, k.src);
        FoldTaken(es, g, vals, oval, c, k, p);
      }
    }
    forall e: Edge, k: Edge | e.src in Reach(g, lv, root) && k.src < |g| && k in edom[e]
      ensures Passed(g, g, lv, root, k, e)
    {
      assert EdgeDominates(g, root, k, e);
    }
  }

  lemma FoldTaken(es: seq<Expr>, g: Graph, vals: seq<Vals>, oval: seq<nat>, c: nat, k: Edge, p: Packet)
    requires WellFounded(es) && NoDup(es) && |vals| == |oval| == |g| && Fine(g, p, c) && ValidEdge(g, k)
    requires Taken(g, p, k)
    requires ExitOk(es, g[c], vals[c], oval[c]) && ExitOk(es, g[k.src], vals[k.src], oval[k.src])
    requires FoldDir(g, vals, oval, c, k).Some?
    ensures Taken(g, p, Edge(c, FoldDir(g, vals, oval, c, k).value))
  {
    forall r ensures Holds(g[c].term.test, ExecAll(g[c].stmts, p, r).value) == FoldDir(g, vals, oval, c, k).value {
      FoldEdgeDecides(es, g, vals, oval, c, k, p, r);
    }
  }

  /** Number the blocks of a graph afresh. */
  method Number(g: Graph, ghost lv: seq<nat>, levels: seq<seq<nat>>, root: nat, rootLevel: nat, alter: bool)
    returns (ok: bool, g': Graph, vals: seq<Vals>, oval: seq<nat>, ghost valIn: seq<Vals>, ghost es: seq<Expr>)
    requires LevelLists(g, lv, root, levels) && rootLevel == lv[root] && root < |g|
    ensures ok ==> Numbered(es, g, g', lv, root, valIn, vals, oval, Reach(g, lv, root)) && NoDup(es)
    ensures !alter ==> ok && g' == g
    ensures !ok ==> exists x :: x in Reach(g, lv, root) && FaultsIfClosed(g[x])
  {
    var inEdges := FindInedges(g, g, lv, levels, root, rootLevel);
    var maxval := OptInit(g);
    MaxvalSuffices(g, |g|);
    var t := new Table(maxval);
    ok, g', vals, oval, valIn := NumberBlocks(t, g, lv, levels, root, rootLevel, inEdges, alter);
    es := t.exprs;
  }

  ghost predicate EdomExactFor(g: Graph, h: seq<nat>, root: nat, edom: EdgeSets)
    requires Levelled(g, h) && root < |g|
  {
    && (forall e: Edge | e.src < |g| :: e in edom)
    && (forall e: Edge, k: Edge | e.src in Reach(g, h, root) && k.src < |g| ::
        k in edom[e] <==> EdgeDominates(g, root, k, e))
  }

  /** Jump threading with numbers and edge dominators that are right for the graph. */
  method BranchRound(g: Graph, ghost lv: seq<nat>, root: nat) returns (g': Graph, ghost h: seq<nat>)
    requires Levelled(g, lv) && root < |g| && AllSelfContained(g)
    ensures SameCodes(g, g') && Levelled(g', h) && AllSelfContained(g') && Preserves(g, g', lv, h, root)
    ensures Levelled(g, h) && Reach(g', h, root) <= Reach(g, h, root)
  {
    var levels, rootLevel, dom, outUse, edom;
    levels, rootLevel, dom, outUse, edom, h := Explore(g, lv, root);
    var ok, g1, vals, oval;
    ghost var valIn, es;
    ok, g1, vals, oval, valIn, es := Number(g, h, levels, root, rootLevel, false);
    NumberedBasis(es, g, h, root, valIn, vals, oval, edom);
    g' := ThreadJumps(true, g, g, h, levels, root, rootLevel, vals, oval, outUse, edom);
    Relevelled(g, g', lv, h, root);
  }

  /** What a round finds out about the graph before it changes anything. */
  ghost predicate Explored(g: Graph, h: seq<nat>, root: nat, dom: seq<set<nat>>, outUse: seq<set<Atom>>,
                           edom: EdgeSets) {
    && Levelled(g, h) && root < |g| && DomsExact(g, h, root, dom)
    && |outUse| == |g| && (forall b | b in Reach(g, h, root) :: outUse[b] == OutUse(g, h, b))
    && EdomExactFor(g, h, root, edom)
  }

  /** `g1` is `g` after the sweep of a round over the branches, with the numbers the sweep has found. */
  ghost predicate SweptOnce(es: seq<Expr>, g: Graph, g1: Graph, h: seq<nat>, root: nat, valIn: seq<Vals>,
                            vals: seq<Vals>, oval0: seq<nat>, oval: seq<nat>) {
    && Levelled(g, h) && root < |g| && Numbered(es, g, g, h, root, valIn, vals, oval0, Reach(g, h, root)) && NoDup(es)
    && |g1| == |g| && Levelled(g1, h) && AllSelfContained(g1) && ReturnsEmpty(g1)
    && AllFinished(es, g, g, g1, h, valIn, vals, false, Reach(g, h, root))
    && |oval| == |g| && forall b | 0 <= b < |g| :: OperandOk(es, g1[b].term, vals[b], oval[b])
  }

  /** `g2` is `g1` with its jumps threaded, by what was found out about `g`. */
  ghost predicate ThreadedOnce(g: Graph, g1: Graph, g2: Graph, h: seq<nat>, root: nat, vals: seq<Vals>, oval: seq<nat>,
                               outUse: seq<set<Atom>>, edom: EdgeSets)
    requires Levelled(g, h) && root < |g|
  {
    && SameCodes(g1, g2) && Levelled(g2, h) && AllSelfContained(g2) && |g2| == |g|
    && Reach(g2, h, root) <= Reach(g, h, root)
    && AllSettled(g1, g2, h, vals, oval, outUse, edom, Reach(g, h, root))
  }

  /** What a round over the branches needs of its filter: every peephole rewriting is safe, no masked value is
      compared with 0, and blocks that compare the same value for equality all end in a subtraction or none does. */
  ghost predicate Threadable(g: Graph, h: seq<nat>, root: nat, vals: seq<Vals>)
    requires Levelled(g, h) && root < |g| && |vals| == |g|
  {
    (forall b | b in Reach(g, h, root) :: SafeEnd(g[b]) && !FoldsMask(g[b])) && AlikeEnds(g, vals, Reach(g, h, root))
  }

  /** The sweep of a round over the branches. */
  method SweepBranches(g: Graph, ghost h: seq<nat>, levels: seq<seq<nat>>, root: nat, rootLevel: nat,
                       outUse: seq<set<Atom>>)
    returns (g1: Graph, vals: seq<Vals>, oval: seq<nat>, ghost valIn: seq<Vals>, ghost es: seq<Expr>,
             ghost oval0: seq<nat>)
    requires LevelLists(g, h, root, levels) && rootLevel == h[root] && AllSelfContained(g) && ReturnsEmpty(g)
    requires |outUse| == |g| && forall b | b in Reach(g, h, root) :: outUse[b] == OutUse(g, h, b)
    ensures SweptOnce(es, g, g1, h, root, valIn, vals, oval0, oval)
  {
    var inEdges := FindInedges(g, g, h, levels, root, rootLevel);
    var maxval := OptInit(g);
    MaxvalSuffices(g, |g|);
    var t := new Table(maxval);
    var ok;
    ghost var g0;
    ok, g1, vals, oval, oval0, valIn, g0 := OptBlks(t, g, h, levels, root, rootLevel, inEdges, outUse, false);
    es := t.exprs;
    SweptAgain(es, g, g, g1, h, root, valIn, vals, oval0, false);
  }

  /** A round over the branches up to the pull-ups: the analyses, the sweep, and jump threading with the numbers and
      edge dominators found before the sweep. */
  method SweepAndThread(g: Graph, ghost lv: seq<nat>, root: nat)
    returns (levels: seq<seq<nat>>, rootLevel: nat, dom: seq<set<nat>>, outUse: seq<set<Atom>>, edom: EdgeSets,
             g1: Graph, vals: seq<Vals>, oval: seq<nat>, g2: Graph, ghost h: seq<nat>, ghost valIn: seq<Vals>,
             ghost es: seq<Expr>, ghost oval0: seq<nat>)
    requires Levelled(g, lv) && root < |g| && AllSelfContained(g) && ReturnsEmpty(g)
    ensures LevelLists(g, h, root, levels) && rootLevel == h[root] && Explored(g, h, root, dom, outUse, edom)
    ensures SweptOnce(es, g, g1, h, root, valIn, vals, oval0, oval)
    ensures ThreadedOnce(g, g1, g2, h, root, vals, oval, outUse, edom)
    ensures Threadable(g, h, root, vals) ==> Preserves(g, g2, lv, h, root)
  {
    levels, rootLevel, dom, outUse, edom, h := Explore(g, lv, root);
    g1, vals, oval, valIn, es, oval0 := SweepBranches(g, h, levels, root, rootLevel, outUse);
    ghost var sound := Threadable(g, h, root, vals);
    SweptReady(sound, es, g, g1, h, root, valIn, vals, oval0, oval, edom);
    g2 := ThreadJumps(sound, g, g1, h, levels, root, rootLevel, vals, oval, outUse, edom);
    CodesSelfContained(g1, g2);
    if sound { Relevelled(g, g2, lv, h, root); }
  }

  lemma SweptReady(sound: bool, es: seq<Expr>, g: Graph, g1: Graph, h: seq<nat>, root: nat, valIn: seq<Vals>,
                   vals: seq<Vals>, oval0: seq<nat>, oval: seq<nat>, edom: EdgeSets)
    requires AllSelfContained(g) && SweptOnce(es, g, g1, h, root, valIn, vals, oval0, oval)
    requires EdomExactFor(g, h, root, edom)
    requires sound ==> Threadable(g, h, root, vals)
    ensures Basis(sound, g, g1, h, root, vals, oval, edom) && Current(sound, g, g1, g1, h, root)
  {
    if sound {
      assert SweptFrom(es, g, g1, h, root, valIn, vals, oval0);
      SweptBasis(es, g, g1, h, root, valIn, vals, oval0, oval, edom);
    }
    SweptWithin(es, g, g1, h, root, valIn, vals);
  }

  /** The analyses that come before the sweep. */
  method Explore(g: Graph, ghost lv: seq<nat>, root: nat)
    returns (levels: seq<seq<nat>>, rootLevel: nat, dom: seq<set<nat>>, outUse: seq<set<Atom>>, edom: EdgeSets,
             ghost h: seq<nat>)
    requires Levelled(g, lv) && root < |g|
    ensures ExactLevels(g, h) && LevelLists(g, h, root, levels) && rootLevel == h[root]
    ensures Explored(g, h, root, dom, outUse, edom)
  {
    var lev := new Leveller(g);
    h := lev.FindLevels(lv, root);
    levels, rootLevel := lev.levels, lev.level[root];
    dom := FindDom(g, h, levels, root, rootLevel);
    var inUse;
    inUse, outUse := FindUd(g, h, levels, root, rootLevel);
    edom := FindEdom(g, h, levels, root, rootLevel);
    forall b | b in Reach(g, h, root) ensures outUse[b] == OutUse(g, h, b) {
      assert UdDone(g, h, b, inUse[b], outUse[b]);
    }
  }

  /** `g3` is `g2` after the pull-up of the chain at `b`: the move the scans find, if they find one. */
  ghost predicate PulledOnce(g2: Graph, g3: Graph, h: seq<nat>, h3: seq<nat>, root: nat, dom: seq<set<nat>>,
                             vals: seq<Vals>, inEdges: seq<seq<Edge>>, b: nat, shared: bool, changed: bool, mv: Move) {
    && Levelled(g2, h) && root < |g2| && b < |g2| == |dom| == |vals| == |inEdges| && g2[b].term.Br?
    && Levelled(g3, h3) && |g3| == |g2| && (inEdges[b] != [] ==> inEdges[b][0].src < |g2|)
    && (changed <==> inEdges[b] != [] && Movable(g2, h, dom, vals, inEdges[b], b, shared).Some?)
    && (if changed then mv == MoveOf(Movable(g2, h, dom, vals, inEdges[b], b, shared).value, g2[b], shared, inEdges[b])
                        && PullDone(g2, g3, h, h3, root, mv)
        else g3 == g2)
  }

  /** A round over the branches up to a pull-up: after jump threading the edges into each block are listed anew, and the
      chain that starts at `b` is examined with the dominators and numbers found before. */
  method ThreadAndPull(g: Graph, ghost lv: seq<nat>, root: nat, b: nat, shared: bool)
    returns (g1: Graph, g2: Graph, g3: Graph, changed: bool, dom: seq<set<nat>>, outUse: seq<set<Atom>>, edom: EdgeSets,
             vals: seq<Vals>, oval: seq<nat>,
             inEdges: seq<seq<Edge>>, ghost h: seq<nat>, ghost h3: seq<nat>, ghost mv: Move, ghost valIn: seq<Vals>,
             ghost es: seq<Expr>, ghost oval0: seq<nat>)
    requires Levelled(g, lv) && root < |g| && AllSelfContained(g) && ReturnsEmpty(g) && b < |g| && g[b].term.Br?
    ensures Explored(g, h, root, dom, outUse, edom) && SweptOnce(es, g, g1, h, root, valIn, vals, oval0, oval)
    ensures ThreadedOnce(g, g1, g2, h, root, vals, oval, outUse, edom)
    ensures Threadable(g, h, root, vals) ==> Preserves(g, g2, lv, h, root)
    ensures EdgesFrom(g2, Reach(g, h, root), inEdges)
    ensures PulledOnce(g2, g3, h, h3, root, dom, vals, inEdges, b, shared, changed, mv)
  {
    var levels, rootLevel;
    levels, rootLevel, dom, outUse, edom, g1, vals, oval, g2, h, valIn, es, oval0 := SweepAndThread(g, lv, root);
    StillBranches(es, g, g1, g2, h, root, valIn, vals, oval0, oval, b);
    inEdges := FindInedges(g2, g, h, levels, root, rootLevel);
    g3, changed, h3, mv := PullOnce(g2, root, b, shared, dom, vals, inEdges, h, Reach(g, h, root));
  }

  method PullOnce(g2: Graph, root: nat, b: nat, shared: bool, dom: seq<set<nat>>, vals: seq<Vals>,
                  inEdges: seq<seq<Edge>>, ghost h: seq<nat>, ghost from: set<nat>)
    returns (g3: Graph, changed: bool, ghost h3: seq<nat>, ghost mv: Move)
    requires Levelled(g2, h) && root < |g2| && b < |g2| && g2[b].term.Br? && |vals| == |dom| == |g2|
    requires EdgesFrom(g2, from, inEdges) && forall x | x in from :: x < |g2| && h[x] <= h[root]
    ensures PulledOnce(g2, g3, h, h3, root, dom, vals, inEdges, b, shared, changed, mv)
  {
    if inEdges[b] != [] { assert inEdges[b][0] in inEdges[b]; }
    g3, changed, h3, mv := PullUp(g2, root, b, shared, dom, vals, inEdges, h, from);
  }

  lemma StillBranches(es: seq<Expr>, g: Graph, g1: Graph, g2: Graph, h: seq<nat>, root: nat, valIn: seq<Vals>,
                      vals: seq<Vals>, oval0: seq<nat>, oval: seq<nat>, b: nat)
    requires SweptOnce(es, g, g1, h, root, valIn, vals, oval0, oval) && SameCodes(g1, g2) && b < |g| && g[b].term.Br?
    ensures g2[b].term.Br?
  {
    assert SameButTargets(g1[b], g2[b]);
    if b in Reach(g, h, root) {
      assert Finished(es, g, h, b, g[b], g1[b], valIn[b], vals[b], false);
    } else {
      assert g1[b] == g[b];
    }
  }

  /** One round over the statements: value numbers, with each statement rewritten. It fails only if some block
      faults on every packet. */
  method StmtRound(g: Graph, ghost lv: seq<nat>, root: nat) returns (ok: bool, g': Graph, ghost h: seq<nat>)
    requires Levelled(g, lv) && root < |g| && AllSelfContained(g)
    ensures ok ==> Levelled(g', h) && |g'| == |g| && Preserves(g, g', lv, h, root)
    ensures !ok ==> exists x :: x in Reach(g, lv, root) && AlwaysFaults(g[x])
  {
    var lev := new Leveller(g);
    h := lev.FindLevels(lv, root);
    var vals, oval;
    ghost var valIn, es;
    ok, g', vals, oval, valIn, es := Number(g, h, lev.levels, root, lev.level[root], true);
    if ok {
      SelfContainedKnown(g, h, root, valIn);
      RewritePreservesRoot(es, g, g', h, root, valIn, vals, oval);
      Relevelled(g, g', lv, h, root);
    } else {
      ghost var x :| x in Reach(g, h, root) && FaultsIfClosed(g[x]);
      assert SelfContained(g[x]);
      ReachLevelIrrelevant(g, lv, h, root);
      assert AlwaysFaults(g[x]);
    }
  }

  /** What a sweep has done: `gs` is `g` as opt_stmt leaves it, `g1` is `gs` after the special case, and `g'` is
      `g1` after the peephole rules and the removal of dead stores with the liveness of `g`. */
  ghost predicate SweepDone(es: seq<Expr>, g: Graph, gs: Graph, g1: Graph, g': Graph, h: seq<nat>, root: nat,
                            valIn: seq<Vals>, vals: seq<Vals>, oval: seq<nat>, doStmts: bool) {
    && SweptTo(es, g, gs, g', h, root, valIn, vals, oval, doStmts) && NoDup(es) && (!doStmts ==> gs == g)
    && Traced(es, g, gs, h, root, valIn, vals, Reach(g, h, root), doStmts)
    && TrimmedTo(g, gs, g1, h, root, valIn, vals, doStmts) && Levelled(g1, h)
  }

  /** Every block is finished as it would be with the liveness of the filter after its statements were rewritten, and no
      block reads an atom without a number. */
  ghost predicate Harmless(es: seq<Expr>, g: Graph, gs: Graph, g1: Graph, h: seq<nat>, root: nat, valIn: seq<Vals>,
                           vals: seq<Vals>, doStmts: bool)
    requires Levelled(g, h) && root < |g| && |gs| == |g1| == |valIn| == |vals| == |g| && Levelled(g1, h)
  {
    AllKnown(g, h, root, valIn) && AllUnharmed(es, g, gs, h, root, valIn, vals, OutUses(g1, h), doStmts)
  }

  /** Every block of the result computes what it reads, and the rewritings are safe. */
  ghost predicate ClosedAgain(g: Graph, gs: Graph, g': Graph, h: seq<nat>, root: nat, valIn: seq<Vals>)
    requires Levelled(g, h) && root < |g| && |gs| == |valIn| == |g|
  {
    AllKnown(g, h, root, valIn) && AllSelfContained(g')
    && forall b | b in Reach(g, h, root) :: SafeIn(gs[b], OutUse(g, h, b))
  }

  /** One sweep over the blocks as the source makes it: numbering, statement rewriting if `doStmts`, the special case,
      peephole rules and dead stores. */
  method SweepRound(g: Graph, ghost lv: seq<nat>, root: nat, doStmts: bool)
    returns (ok: bool, g': Graph, vals: seq<Vals>, ghost h: seq<nat>, ghost gs: Graph, ghost g1: Graph,
             ghost valIn: seq<Vals>,
             ghost es: seq<Expr>, ghost oval: seq<nat>)
    requires Levelled(g, lv) && root < |g| && ReturnsEmpty(g)
    ensures !doStmts ==> ok
    ensures ok ==> SweepDone(es, g, gs, g1, g', h, root, valIn, vals, oval, doStmts) && ReturnsEmpty(g')
    ensures ok && Harmless(es, g, gs, g1, h, root, valIn, vals, doStmts) ==> Preserves(g, g', lv, h, root)
    ensures ok && ClosedAgain(g, gs, g', h, root, valIn) ==> Preserves(g, g', lv, h, root)
    ensures ok && AllSelfContained(g) ==> AllKnown(g, h, root, valIn) && (!doStmts ==> AllSelfContained(g'))
    ensures !ok ==> exists x :: x in Reach(g, lv, root) && FaultsIfClosed(g[x])
  {
    var lev := new Leveller(g);
    h := lev.FindLevels(lv, root);
    var levels, rootLevel := lev.levels, lev.level[root];
    var inUse, outUse := FindUd(g, h, levels, root, rootLevel);
    forall b | b in Reach(g, h, root) ensures outUse[b] == OutUse(g, h, b) {
      assert UdDone(g, h, b, inUse[b], outUse[b]);
    }
    var inEdges := FindInedges(g, g, h, levels, root, rootLevel);
    var maxval := OptInit(g);
    MaxvalSuffices(g, |g|);
    var t := new Table(maxval);
    var o;
    ok, g', vals, o, oval, valIn, gs := OptBlks(t, g, h, levels, root, rootLevel, inEdges, outUse, doStmts);
    es := t.exprs;
    ReachLevelIrrelevant(g, lv, h, root);
    g1 := gs;
    if ok {
      g1 := Trimmed(g, gs, h, root, valIn, vals, doStmts);
      SweepEnds(es, g, gs, g1, g', lv, h, root, valIn, vals, oval, doStmts);
    }
  }

  ghost function Trimmed(g: Graph, gs: Graph, h: seq<nat>, root: nat, valIn: seq<Vals>, vals: seq<Vals>,
                         doStmts: bool): (g1: Graph)
    requires Levelled(g, h) && root < |g| && |gs| == |valIn| == |vals| == |g|
    ensures TrimmedTo(g, gs, g1, h, root, valIn, vals, doStmts)
  {
    seq(|g|, b requires 0 <= b < |g| =>
      if b in Reach(g, h, root) then Trim(gs[b], valIn[b], vals[b], OutUse(g, h, b), doStmts) else gs[b])
  }

  lemma SweepEnds(es: seq<Expr>, g: Graph, gs: Graph, g1: Graph, g': Graph, lv: seq<nat>, h: seq<nat>, root: nat,
                  valIn: seq<Vals>, vals: seq<Vals>, oval: seq<nat>, doStmts: bool)
    requires Levelled(g, lv) && ReturnsEmpty(g) && SweptTo(es, g, gs, g', h, root, valIn, vals, oval, doStmts)
    requires TrimmedTo(g, gs, g1, h, root, valIn, vals, doStmts)
    ensures Levelled(g1, h) && ReturnsEmpty(g')
    ensures Harmless(es, g, gs, g1, h, root, valIn, vals, doStmts) ==> Preserves(g, g', lv, h, root)
    ensures ClosedAgain(g, gs, g', h, root, valIn) ==> Preserves(g, g', lv, h, root)
    ensures AllSelfContained(g) ==> AllKnown(g, h, root, valIn) && (!doStmts ==> AllSelfContained(g'))
  {
    TrimmedLevelled(es, g, gs, g1, h, root, valIn, vals, oval, doStmts);
    SweptReturns(es, g, gs, g', h, root, valIn, vals, oval, doStmts);
    if Harmless(es, g, gs, g1, h, root, valIn, vals, doStmts) {
      SweepPreserves(es, g, gs, g1, g', h, root, valIn, vals, oval, doStmts);
      Relevelled(g, g', lv, h, root);
    }
    if ClosedAgain(g, gs, g', h, root, valIn) {
      ClosedPreserves(es, g, gs, g', h, root, valIn, vals, oval, doStmts);
      Relevelled(g, g', lv, h, root);
    }
    if AllSelfContained(g) {
      SelfContainedKnown(g, h, root, valIn);
      if !doStmts { SweptAgain(es, g, gs, g', h, root, valIn, vals, oval, doStmts); }
    }
  }

  lemma SweptReturns(es: seq<Expr>, g: Graph, gs: Graph, g': Graph, h: seq<nat>, root: nat, valIn: seq<Vals>,
                     vals: seq<Vals>, oval: seq<nat>, doStmts: bool)
    requires ReturnsEmpty(g) && SweptTo(es, g, gs, g', h, root, valIn, vals, oval, doStmts)
    ensures ReturnsEmpty(g')
  {
    forall b | 0 <= b < |g'| && g'[b].term.Ret? ensures g'[b].stmts == [] {
      if b in Reach(g, h, root) { assert Finished(es, g, h, b, gs[b], g'[b], valIn[b], vals[b], doStmts); }
    }
  }

  /** A block that faults on every packet, as one that divides by a constant zero does. */
  ghost predicate AlwaysFaults(b: Block) { forall p, r :: ExecAll(b.stmts, p, r).None? }

  lemma Relevelled(g: Graph, g': Graph, lv: seq<nat>, h: seq<nat>, root: nat)
    requires Levelled(g, lv) && Levelled(g, h) && Levelled(g', h) && root < |g| && root < |g'|
    requires Preserves(g, g', h, h, root)
    ensures Preserves(g, g', lv, h, root)
  {
    forall p, r | Run(g, lv, root, p, r).Return? ensures Run(g', h, root, p, r) == Run(g, lv, root, p, r) {
      RunLevelIrrelevant(g, lv, h, root, p, r);
    }
  }

  /** One round of dead-store removal. */
  method DeadRound(g: Graph, ghost lv: seq<nat>, root: nat) returns (g': Graph, ghost h: seq<nat>)
    requires Levelled(g, lv) && root < |g|
    ensures Levelled(g', h) && |g'| == |g| && Preserves(g, g', lv, h, root)
  {
    var lev := new Leveller(g);
    h := lev.FindLevels(lv, root);
    var inUse, outUse := FindUd(g, h, lev.levels, root, lev.level[root]);
    g' := OptDeadstoresAll(g, h, lev.levels, root, lev.level[root], outUse);
    Relevelled(g, g', lv, h, root);
  }

  /** Intern the blocks, after finding their levels. */
  method InternRound(g: Graph, ghost lv: seq<nat>, root: nat) returns (g': Graph, ghost h: seq<nat>)
    requires Levelled(g, lv) && root < |g|
    ensures Levelled(g', h) && |g'| == |g| && Preserves(g, g', lv, h, root)
  {
    var lev := new Leveller(g);
    h := lev.FindLevels(lv, root);
    g' := InternBlocks(g, h, root);
    Relevelled(g, g', lv, h, root);
  }

  /** The passes in turn: what the original filter returns without a fault, the optimized one returns. */
  method Optimize(g: Graph, ghost lv: seq<nat>, root: nat) returns (ok: bool, g': Graph, ghost h: seq<nat>)
    requires Levelled(g, lv) && root < |g| && AllSelfContained(g)
    ensures ok ==> Levelled(g', h) && |g'| == |g| && Preserves(g, g', lv, h, root)
    ensures !ok ==> exists x :: x in Reach(g, lv, root) && AlwaysFaults(g[x])
  {
    var g1, h1 := BranchRound(g, lv, root);
    var g2;
    ghost var h2;
    ok, g2, h2 := StmtRound(g1, h1, root);
    if !ok {
      ghost var x :| x in Reach(g1, h1, root) && AlwaysFaults(g1[x]);
      ReachLevelIrrelevant(g, lv, h1, root);
      assert SameButTargets(g[x], g1[x]) && AlwaysFaults(g[x]);
      return ok, g, lv;
    }
    var g3, h3 := DeadRound(g2, h2, root);
    g', h := InternRound(g3, h3, root);
    PreservesTrans(g, g1, g2, lv, h1, h1, h2, root);
    PreservesTrans(g, g2, g3, lv, h2, h2, h3, root);
    PreservesTrans(g, g3, g', lv, h3, h3, h, root);
  }
}
