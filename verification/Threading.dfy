/** Jump threading: sending a branch past a block whose test is already decided (use_conflict, fold_edge, opt_j). */
module Threading {
  import opened Machine
  import opened Graph
  import opened Levels
  import opened Liveness
  import opened Dominance
  import opened ValueTable
  import opened Numbering
  import opened NumberingPass

  // What the branch optimizer knows about the exits of blocks

  /** The exit numbers of a branching block denote the accumulator and the operand of its test, in every run. */
  ghost predicate ExitOk(es: seq<Expr>, b: Block, val: Vals, oval: nat)
    requires WellFounded(es)
  {
    && OperandOk(es, b.term, val, oval)
    && (b.term.Br? ==> forall p, r | ExecAll(b.stmts, p, r).Some? ::
          MatchesOn(es, val, TermUse(b.term), p, ExecAll(b.stmts, p, r).value))
  }

  /** Numbering a self-contained block gives such exit numbers, whatever reached the block. */
  lemma SelfContainedExit(es: seq<Expr>, b: Block, b': Block, val: Vals, val': Vals, oval: nat)
    requires BlockDone(es, b, b', val, val', oval) && SelfContained(b)
    ensures ExitOk(es, b, val', oval)
  {
    LiveOrDefined(b.stmts, TermUse(b.term));
    forall p, r | ExecAll(b.stmts, p, r).Some?
      ensures MatchesOn(es, val', TermUse(b.term), p, ExecAll(b.stmts, p, r).value)
    {
      assert MatchesOn(es, val, {}, p, r);
      assert MatchesOn(es, val', {} + DefsAll(b.stmts), p, ExecAll(b.stmts, p, r).value);
    }
  }

  lemma NumberedExit(es: seq<Expr>, g: Graph, lv: seq<nat>, root: nat, valIn: seq<Vals>, vals: seq<Vals>,
                     oval: seq<nat>, b: nat)
    requires Levelled(g, lv) && root < |g| && AllSelfContained(g) && b in Reach(g, lv, root)
    requires Numbered(es, g, g, lv, root, valIn, vals, oval, Reach(g, lv, root))
    ensures ExitOk(es, g[b], vals[b], oval[b])
  {
    assert SelfContained(g[b]);
    SelfContainedExit(es, g[b], g[b], valIn[b], vals[b], oval[b]);
  }

  /** The run of packet `p` takes edge `e` whenever it is at its source. */
  ghost predicate Taken(g: Graph, p: Packet, e: Edge)
    requires ValidEdge(g, e)
  {
    forall r ::
      ExecAll(g[e.src].stmts, p, r).Some? && Holds(g[e.src].term.test, ExecAll(g[e.src].stmts, p, r).value) == e.dir
  }

  // fold_edge

  /** Same comparison and same kind of operand. */
  predicate SameCode(t: Test, u: Test) {
    t.op == u.op && t.JmpK? == u.JmpK?
  }

  /** The way `child` goes that the test on edge `k` implies, if it implies one. */
  function FoldDir(g: Graph, vals: seq<Vals>, oval: seq<nat>, child: nat, k: Edge): Option<bool>
    requires |vals| == |oval| == |g| && child < |g| && k.src < |g|
  {
    if g[child].term.Ret? || g[k.src].term.Ret? then None
    else if !SameCode(g[child].term.test, g[k.src].term.test) then None
    else if vals[child][A_ATOM] != vals[k.src][A_ATOM] then None
    else if oval[child] == oval[k.src] then Some(k.dir)
    else if k.dir && g[child].term.test.JmpK? && g[child].term.test.op == Jeq then Some(false)
    else None
  }

  /** The successor of `child` that the test on edge `k` implies, if it implies one. */
  function FoldEdge(g: Graph, vals: seq<Vals>, oval: seq<nat>, child: nat, k: Edge): Option<nat>
    requires |vals| == |oval| == |g| && child < |g| && k.src < |g|
  {
    var d := FoldDir(g, vals, oval, child, k);
    if d.None? then None else Some(Succ(g[child], d.value))
  }

  /** The folded successor is the one the child takes on every run that came along the edge. */
  lemma FoldEdgeDecides(es: seq<Expr>, g: Graph, vals: seq<Vals>, oval: seq<nat>, child: nat, k: Edge, p: Packet,
                        r: Regs)
    requires WellFounded(es) && NoDup(es)
    requires |vals| == |oval| == |g| && child < |g| && ValidEdge(g, k) && Taken(g, p, k)
    requires ExitOk(es, g[child], vals[child], oval[child]) && ExitOk(es, g[k.src], vals[k.src], oval[k.src])
    requires FoldEdge(g, vals, oval, child, k).Some? && ExecAll(g[child].stmts, p, r).Some?
    ensures var q := ExecAll(g[child].stmts, p, r).value;
            && Holds(g[child].term.test, q) == FoldDir(g, vals, oval, child, k).value
            && Succ(g[child], Holds(g[child].term.test, q)) == FoldEdge(g, vals, oval, child, k).value
  {
    var q := ExecAll(g[child].stmts, p, r).value;
    var q1 := ExecAll(g[k.src].stmts, p, r).value;
    assert A_ATOM in TermUse(g[child].term) && A_ATOM in TermUse(g[k.src].term);
    assert Den(es, vals[child][A_ATOM], p) == Some(q[A_ATOM]);
    assert Den(es, vals[k.src][A_ATOM], p) == Some(q1[A_ATOM]);
    if g[child].term.test.JmpX? {
      assert X_ATOM in TermUse(g[child].term) && X_ATOM in TermUse(g[k.src].term);
      assert Den(es, vals[child][X_ATOM], p) == Some(q[X_ATOM]);
      assert Den(es, vals[k.src][X_ATOM], p) == Some(q1[X_ATOM]);
    }
  }

  /** Whether some atom used on exit from `succ` leaves `b` with another number than it leaves `succ`. */
  method UseConflict(vals: seq<Vals>, outUse: seq<set<Atom>>, b: nat, succ: nat) returns (conflict: bool)
    requires b < |vals| && succ < |vals| == |outUse|
    ensures conflict <==> exists a: Atom :: a in outUse[succ] && vals[b][a] != vals[succ][a]
  {
    for atom := 0 to 18
      invariant forall a: Atom | a < atom && a in outUse[succ] :: vals[b][a] == vals[succ][a]
    {
      if atom in outUse[succ] && vals[b][atom] != vals[succ][atom] { return true; }
    }
    return false;
  }

  // Redirecting one edge

  function Redirect(g: Graph, e: Edge, t: nat): (g': Graph)
    requires e.src < |g| && g[e.src].term.Br?
    ensures |g'| == |g| && forall x | 0 <= x < |g| :: x != e.src ==> g'[x] == g[x]
    ensures g'[e.src].stmts == g[e.src].stmts && g'[e.src].term.Br? && g'[e.src].term.test == g[e.src].term.test
    ensures forall d :: Succ(g'[e.src], d) == if d == e.dir then t else Succ(g[e.src], d)
  {
    var b := g[e.src];
    var term := if e.dir then b.term.(jt := t) else b.term.(jf := t);
    g[e.src := b.(term := term)]
  }

  lemma RedirectLevelled(g: Graph, lv: seq<nat>, e: Edge, t: nat)
    requires Levelled(g, lv) && ValidEdge(g, e) && t < |g| && lv[t] < lv[e.src]
    ensures Levelled(Redirect(g, e, t), lv)
  {
    forall b, d | 0 <= b < |g| && Redirect(g, e, t)[b].term.Br?
      ensures EdgeDown(Redirect(g, e, t), lv, b, d)
    {
      assert EdgeDown(g, lv, b, d);
    }
  }

  /** Runs below the changed block are unchanged. */
  lemma {:induction false} RunBelow(g: Graph, g': Graph, lv: seq<nat>, limit: nat, b: nat, p: Packet, r: Regs)
    requires Levelled(g, lv) && Levelled(g', lv) && b < |g| && lv[b] < limit
    requires forall x | 0 <= x < |g| && lv[x] < limit :: g'[x] == g[x]
    ensures Run(g', lv, b, p, r) == Run(g, lv, b, p, r)
    decreases lv[b]
  {
    var q := ExecAll(g[b].stmts, p, r);
    if q.Some? && g[b].term.Br? {
      var d := Holds(g[b].term.test, q.value);
      assert EdgeDown(g, lv, b, d) && EdgeDown(g', lv, b, d);
      RunBelow(g, g', lv, limit, Succ(g[b], d), p, q.value);
    }
  }

  /** With self-contained blocks the outcome from a block depends only on the packet. */
  lemma StateIrrelevant(g: Graph, lv: seq<nat>, b: nat, p: Packet, r: Regs, r': Regs)
    requires Levelled(g, lv) && b < |g| && AllSelfContained(g)
    ensures Run(g, lv, b, p, r) == Run(g, lv, b, p, r')
  {
    SelfContainedNothingLive(g, lv, b);
    InUseSound(g, lv, b, p, r, r');
  }

  // Which way a packet goes

  /** The block does not fault on the packet. */
  ghost predicate Fine(g: Graph, p: Packet, b: nat) { b < |g| && forall r :: ExecAll(g[b].stmts, p, r).Some? }

  /** The run of `p` comes to `x` along `path`. */
  ghost predicate Comes(g: Graph, root: nat, path: seq<Edge>, x: nat, p: Packet) {
    x < |g| && IsPath(g, root, path, x) && forall f | f in path :: ValidEdge(g, f) && Taken(g, p, f)
  }

  /** The run of `p` comes to `b`, which does not fault. */
  ghost predicate Visits(g: Graph, root: nat, p: Packet, b: nat) {
    Fine(g, p, b) && exists path :: Comes(g, root, path, b, p)
  }

  /** The run of `p` comes along `path` and takes edge `e`. */
  ghost predicate TakesPath(g: Graph, root: nat, path: seq<Edge>, e: Edge, p: Packet) {
    Comes(g, root, path, e.src, p) && ValidEdge(g, e) && Taken(g, p, e)
  }

  /** From block `s` the run of `p` goes to `t`. */
  ghost predicate Leads(g: Graph, p: Packet, s: nat, t: nat) {
    s < |g| && g[s].term.Br?
    && ((Taken(g, p, Edge(s, true)) && g[s].term.jt == t) || (Taken(g, p, Edge(s, false)) && g[s].term.jf == t))
  }

  /** The filter returns on the packet. */
  ghost predicate Answers(g: Graph, lv: seq<nat>, root: nat, p: Packet)
    requires Levelled(g, lv) && root < |g|
  {
    exists r :: Run(g, lv, root, p, r).Return?
  }

  lemma ComesOn(g: Graph, root: nat, path: seq<Edge>, e: Edge, p: Packet)
    requires root < |g| && TakesPath(g, root, path, e, p) && Dst(g, e) < |g|
    ensures Comes(g, root, path + [e], Dst(g, e), p)
  {
    PathSnoc(g, root, path, e);
  }

  /** The run passes the source of every edge of its path. */
  lemma {:induction false} ComesBefore(g: Graph, root: nat, path: seq<Edge>, x: nat, p: Packet, k: Edge)
      returns (pre: seq<Edge>)
    requires Comes(g, root, path, x, p) && k in path
    ensures Comes(g, root, pre, k.src, p)
    decreases |path|
  {
    var f := path[|path| - 1];
    pre := path[..|path| - 1];
    if f != k { pre := ComesBefore(g, root, pre, f.src, p, k); }
  }

  /** A self-contained block that does not fault on the packet goes one way on it. */
  lemma FineTakes(g: Graph, p: Packet, s: nat)
    requires Fine(g, p, s) && SelfContained(g[s]) && g[s].term.Br?
    ensures Taken(g, p, Edge(s, true)) || Taken(g, p, Edge(s, false))
  {
    var r0 := ZeroRegs();
    var d := Holds(g[s].term.test, ExecAll(g[s].stmts, p, r0).value);
    forall r ensures Holds(g[s].term.test, ExecAll(g[s].stmts, p, r).value) == d {
      SelfContainedTest(g[s], p, r0, r);
    }
    assert Taken(g, p, Edge(s, d));
  }

  /** A run that returns does not fault on its way. */
  lemma {:induction false} ComesReturns(g: Graph, lv: seq<nat>, root: nat, path: seq<Edge>, x: nat, p: Packet, r: Regs)
      returns (r': Regs)
    requires Levelled(g, lv) && root < |g| && Comes(g, root, path, x, p) && Run(g, lv, root, p, r).Return?
    ensures Run(g, lv, x, p, r').Return?
    decreases |path|
  {
    r' := r;
    if path != [] {
      var f := path[|path| - 1];
      r' := ComesReturns(g, lv, root, path[..|path| - 1], f.src, p, r);
      assert EdgeDown(g, lv, f.src, f.dir);
      r' := ExecAll(g[f.src].stmts, p, r').value;
    }
  }

  lemma ComesFine(g: Graph, lv: seq<nat>, root: nat, path: seq<Edge>, x: nat, p: Packet)
    requires Levelled(g, lv) && root < |g| && Comes(g, root, path, x, p) && Answers(g, lv, root, p)
    requires SelfContained(g[x])
    ensures Visits(g, root, p, x)
  {
    var r :| Run(g, lv, root, p, r).Return?;
    var r1 := ComesReturns(g, lv, root, path, x, p, r);
    forall r2 ensures ExecAll(g[x].stmts, p, r2).Some? { SelfContainedTest(g[x], p, r1, r2); }
  }

  /** On every packet that `orig` answers, edge `e` may lead to `t`: from its target the run goes there. */
  ghost predicate MayRedirect(orig: Graph, g: Graph, lv: seq<nat>, root: nat, e: Edge, t: nat)
    requires Levelled(orig, lv) && root < |orig| && ValidEdge(g, e)
  {
    forall p, path | Answers(orig, lv, root, p) && TakesPath(g, root, path, e, p) :: Leads(g, p, Dst(g, e), t)
  }

  /** If, on every run that takes edge `e`, the next block but one is `t`, the redirection is sound. */
  lemma {:induction false} RedirectPreserves(orig: Graph, g: Graph, lv: seq<nat>, root: nat, e: Edge, t: nat, p: Packet,
                                             path: seq<Edge>, x: nat, r: Regs, r': Regs)
    requires Levelled(orig, lv) && root < |orig| == |g| && Answers(orig, lv, root, p)
    requires Levelled(g, lv) && ValidEdge(g, e) && t < |g| && lv[t] < lv[e.src] && AllSelfContained(g)
    requires Dst(g, e) < |g| && Levelled(Redirect(g, e, t), lv) && MayRedirect(orig, g, lv, root, e, t)
    requires Comes(g, root, path, x, p) && Run(g, lv, x, p, r).Return?
    ensures Run(Redirect(g, e, t), lv, x, p, r') == Run(g, lv, x, p, r)
    decreases lv[x]
  {
    var g' := Redirect(g, e, t);
    SelfContainedTest(g[x], p, r, r');
    assert SelfContained(g[x]);
    if g[x].term.Br? {
      var q, q' := ExecAll(g[x].stmts, p, r).value, ExecAll(g[x].stmts, p, r').value;
      var f := Edge(x, Holds(g[x].term.test, q));
      forall r1
        ensures ExecAll(g[x].stmts, p, r1).Some? && Holds(g[x].term.test, ExecAll(g[x].stmts, p, r1).value) == f.dir
      {
        SelfContainedTest(g[x], p, r, r1);
      }
      assert Taken(g, p, f);
      assert EdgeDown(g, lv, x, f.dir) && EdgeDown(g', lv, x, f.dir);
      if f == e {
        assert TakesPath(g, root, path, e, p);
        LeadsOn(g, lv, p, Dst(g, e), t, q, q');
        RunBelow(g, g', lv, lv[e.src], t, p, q');
      } else {
        ComesOn(g, root, path, f, p);
        RedirectPreserves(orig, g, lv, root, e, t, p, path + [f], Dst(g, f), q, q');
      }
    }
  }

  lemma LeadsOn(g: Graph, lv: seq<nat>, p: Packet, s: nat, t: nat, r: Regs, r': Regs)
    requires Levelled(g, lv) && s < |g| && t < |g| && AllSelfContained(g) && Leads(g, p, s, t)
    ensures Run(g, lv, t, p, r') == Run(g, lv, s, p, r)
  {
    assert EdgeDown(g, lv, s, true) && EdgeDown(g, lv, s, false);
    StateIrrelevant(g, lv, t, p, r', ExecAll(g[s].stmts, p, r).value);
  }

  /** A path of the redirected graph visits only blocks that the run visited before. */
  lemma {:induction false} Unredirect(orig: Graph, g: Graph, lv: seq<nat>, root: nat, e: Edge, t: nat, p: Packet,
                                      path: seq<Edge>, x: nat)
    returns (path': seq<Edge>)
    requires Levelled(orig, lv) && root < |orig| == |g| && Answers(orig, lv, root, p) && Levelled(g, lv)
    requires ValidEdge(g, e) && t < |g| && Dst(g, e) < |g| && MayRedirect(orig, g, lv, root, e, t)
    requires Comes(Redirect(g, e, t), root, path, x, p)
    ensures Comes(g, root, path', x, p)
    decreases |path|
  {
    path' := [];
    if path != [] {
      var f := path[|path| - 1];
      assert Taken(Redirect(g, e, t), p, f);
      TakenCodes(Redirect(g, e, t), g, p, f);
      path' := Unredirect(orig, g, lv, root, e, t, p, path[..|path| - 1], f.src);
      if f == e {
        assert TakesPath(g, root, path', e, p);
        var s := Dst(g, e);
        assert Leads(g, p, s, t);
        var d := Taken(g, p, Edge(s, true)) && g[s].term.jt == t;
        ComesOn(g, root, path', e, p);
        ComesOn(g, root, path' + [e], Edge(s, d), p);
        path' := path' + [e] + [Edge(s, d)];
      } else {
        ComesOn(g, root, path', f, p);
        path' := path' + [f];
      }
    }
  }

  lemma TakenCodes(g: Graph, g': Graph, p: Packet, e: Edge)
    requires ValidEdge(g, e) && ValidEdge(g', e) && SameButTargets(g[e.src], g'[e.src])
    ensures Taken(g, p, e) <==> Taken(g', p, e)
  {
  }

  // Edge dominators during the pass

  /** The graphs agree on all blocks above a level. */
  ghost predicate SameAbove(g: Graph, g': Graph, lv: seq<nat>, level: nat) {
    |g| == |g'| == |lv| && forall x | 0 <= x < |g| && lv[x] > level :: g'[x] == g[x]
  }

  lemma {:induction false} PathSame(g: Graph, g': Graph, lv: seq<nat>, root: nat, es: seq<Edge>, b: nat)
    requires Levelled(g, lv) && Levelled(g', lv) && root < |g| && b < |g| && SameAbove(g, g', lv, lv[b])
    ensures IsPath(g, root, es, b) <==> IsPath(g', root, es, b)
    decreases |es|
  {
    if es != [] {
      var e := es[|es| - 1];
      if (ValidEdge(g, e) && Dst(g, e) == b) || (ValidEdge(g', e) && Dst(g', e) == b) {
        if ValidEdge(g, e) { assert EdgeDown(g, lv, e.src, e.dir); }
        if ValidEdge(g', e) { assert EdgeDown(g', lv, e.src, e.dir); }
        PathSame(g, g', lv, root, es[..|es| - 1], e.src);
      }
    }
  }

  /** Redirecting edges that leave lower or equal levels does not change any path to an edge's source,
      so edge dominators computed before the pass stay exact for the edge examined now. */
  lemma EdomStaysExact(g: Graph, g': Graph, lv: seq<nat>, root: nat, k: Edge, e: Edge)
    requires Levelled(g, lv) && Levelled(g', lv) && root < |g| && e.src < |g| && SameAbove(g, g', lv, lv[e.src])
    ensures EdgeDominates(g, root, k, e) <==> EdgeDominates(g', root, k, e)
  {
    forall es ensures IsPath(g, root, es, e.src) <==> IsPath(g', root, es, e.src) {
      PathSame(g, g', lv, root, es, e.src);
    }
  }

  // The pass

  /** If `k` decides `c`, then `c` goes that way on every packet on which the run takes `k`. */
  ghost predicate FoldRight(orig: Graph, g: Graph, root: nat, vals: seq<Vals>, oval: seq<nat>, c: nat, k: Edge,
                            p: Packet)
    requires |vals| == |oval| == |g| && c < |g| && k.src < |g|
  {
    var d := FoldDir(g, vals, oval, c, k);
    d.Some? && Visits(orig, root, p, c) && Visits(orig, root, p, k.src) && Taken(g, p, k) ==>
      Taken(g, p, Edge(c, d.value))
  }

  /** A run that `orig` answers takes `k` before it takes `e`, or `k` is `e`. */
  ghost predicate Passed(orig: Graph, g: Graph, lv: seq<nat>, root: nat, k: Edge, e: Edge)
    requires Levelled(orig, lv) && root < |orig|
  {
    forall p, path | Answers(orig, lv, root, p) && TakesPath(g, root, path, e, p) :: k in path + [e]
  }

  /** What holds of the graph `g0` that the pass starts from. The numbers and edge sets may have been found on another
      graph `orig`, with the same blocks in another form. Only if `sound` do they have to be right for `g0`. */
  ghost predicate Basis(sound: bool, orig: Graph, g0: Graph, lv: seq<nat>, root: nat, vals: seq<Vals>, oval: seq<nat>,
                        edom: EdgeSets) {
    && |orig| == |g0| == |vals| == |oval| && root < |g0| && Levelled(orig, lv) && Levelled(g0, lv)
    && (forall e: Edge | e.src < |g0| :: e in edom)
    && (sound ==> AllSelfContained(g0) && Right(orig, g0, lv, root, vals, oval, edom))
  }

  /** The numbers decide tests, and the edge sets tell which edges were taken, on every run that `orig` answers. */
  ghost predicate Right(orig: Graph, g0: Graph, lv: seq<nat>, root: nat, vals: seq<Vals>, oval: seq<nat>,
                        edom: EdgeSets)
    requires |orig| == |g0| == |vals| == |oval| && root < |g0| && Levelled(orig, lv)
    requires forall e: Edge | e.src < |g0| :: e in edom
  {
    && (forall p, b | b in Reach(orig, lv, root) && Visits(orig, root, p, b) :: Fine(g0, p, b))
    && (forall c, k: Edge, p | c in Reach(orig, lv, root) && k.src in Reach(orig, lv, root) ::
        FoldRight(orig, g0, root, vals, oval, c, k, p))
    && (forall e: Edge, k: Edge | e.src in Reach(orig, lv, root) && k.src < |g0| && k in edom[e] ::
        Passed(orig, g0, lv, root, k, e))
  }

  ghost predicate SameCodes(g: Graph, g': Graph) {
    |g'| == |g| && forall b | 0 <= b < |g| :: SameButTargets(g[b], g'[b])
  }

  /** The branches of reachable blocks lead to reachable blocks. */
  ghost predicate Within(g: Graph, blocks: set<nat>) {
    forall b, d | b in blocks && b < |g| && g[b].term.Br? :: Succ(g[b], d) in blocks
  }

  /** A run that `orig` answers visits only blocks that it visits in `orig`. */
  ghost predicate AllClean(orig: Graph, g: Graph, lv: seq<nat>, root: nat)
    requires Levelled(orig, lv) && root < |orig|
  {
    forall p, path, x | Answers(orig, lv, root, p) && Comes(g, root, path, x, p) :: Visits(orig, root, p, x)
  }

  /** What holds of the current graph `g` while the pass rewrites `g0`. */
  ghost predicate Current(sound: bool, orig: Graph, g0: Graph, g: Graph, lv: seq<nat>, root: nat)
    requires Levelled(orig, lv) && root < |orig|
  {
    && SameCodes(g0, g) && |g| == |orig| && Levelled(g, lv) && Within(g, Reach(orig, lv, root))
    && (sound ==> Preserves(orig, g, lv, lv, root) && AllClean(orig, g, lv, root))
  }

  lemma CodesSelfContained(g0: Graph, g: Graph)
    requires SameCodes(g0, g) && AllSelfContained(g0)
    ensures AllSelfContained(g)
  {
    forall b | 0 <= b < |g| ensures SelfContained(g[b]) {
      assert SameButTargets(g0[b], g[b]) && SelfContained(g0[b]);
      assert TermUse(g[b].term) == TermUse(g0[b].term);
    }
  }

  lemma RedirectCodes(g0: Graph, g: Graph, e: Edge, t: nat)
    requires SameCodes(g0, g) && ValidEdge(g, e)
    ensures SameCodes(g0, Redirect(g, e, t))
  {
    var g' := Redirect(g, e, t);
    forall b | 0 <= b < |g'| ensures SameButTargets(g0[b], g'[b]) { assert SameButTargets(g0[b], g[b]); }
  }

  lemma RedirectCurrent(sound: bool, orig: Graph, g0: Graph, g: Graph, lv: seq<nat>, root: nat, e: Edge, t: nat)
    requires Levelled(orig, lv) && root < |orig| && Current(sound, orig, g0, g, lv, root)
    requires ValidEdge(g, e) && t in Reach(orig, lv, root) && lv[t] < lv[e.src] && Dst(g, e) < |g|
    requires sound ==> AllSelfContained(g0) && MayRedirect(orig, g, lv, root, e, t)
    ensures Current(sound, orig, g0, Redirect(g, e, t), lv, root)
  {
    RedirectLevelled(g, lv, e, t);
    RedirectCodes(g0, g, e, t);
    if sound { RedirectSound(orig, g0, g, lv, root, e, t); }
  }

  lemma RedirectSound(orig: Graph, g0: Graph, g: Graph, lv: seq<nat>, root: nat, e: Edge, t: nat)
    requires Levelled(orig, lv) && root < |orig| && AllSelfContained(g0) && Current(true, orig, g0, g, lv, root)
    requires ValidEdge(g, e) && t < |g| && lv[t] < lv[e.src] && Dst(g, e) < |g|
    requires Levelled(Redirect(g, e, t), lv) && MayRedirect(orig, g, lv, root, e, t)
    ensures Preserves(orig, Redirect(g, e, t), lv, lv, root) && AllClean(orig, Redirect(g, e, t), lv, root)
  {
    var g' := Redirect(g, e, t);
    CodesSelfContained(g0, g);
    forall p, r | Run(orig, lv, root, p, r).Return?
      ensures Run(g', lv, root, p, r) == Run(orig, lv, root, p, r)
    {
      assert Comes(g, root, [], root, p);
      RedirectPreserves(orig, g, lv, root, e, t, p, [], root, r, r);
    }
    forall p, path, x | Answers(orig, lv, root, p) && Comes(g', root, path, x, p) ensures Visits(orig, root, p, x) {
      var path' := Unredirect(orig, g, lv, root, e, t, p, path, x);
    }
  }

  lemma TargetsWithin(sound: bool, orig: Graph, g0: Graph, g: Graph, lv: seq<nat>, root: nat, e: Edge)
    requires Levelled(orig, lv) && root < |orig| && Current(sound, orig, g0, g, lv, root) && ValidEdge(g, e)
    requires e.src in Reach(orig, lv, root)
    ensures Dst(g, e) in Reach(orig, lv, root) && Dst(g, e) < |g| && lv[Dst(g, e)] < lv[e.src]
  {
    assert Succ(g[e.src], e.dir) in Reach(orig, lv, root);
    assert EdgeDown(g, lv, e.src, e.dir);
  }

  /** A graph whose own runs are meant is a start. */
  lemma CurrentStart(g: Graph, lv: seq<nat>, root: nat)
    requires Levelled(g, lv) && root < |g| && AllSelfContained(g)
    ensures Current(true, g, g, g, lv, root)
  {
    forall b, d | b in Reach(g, lv, root) && g[b].term.Br? ensures Succ(g[b], d) in Reach(g, lv, root) {
      ReachClosed(g, lv, root, Edge(b, d));
    }
    forall p, path, x: nat | Answers(g, lv, root, p) && Comes(g, root, path, x, p) ensures Visits(g, root, p, x) {
      assert SelfContained(g[x]);
      ComesFine(g, lv, root, path, x, p);
    }
  }

  /** The block that an edge leads to does not fault on a run that takes the edge. */
  lemma TargetFine(orig: Graph, g0: Graph, g: Graph, lv: seq<nat>, root: nat, vals: seq<Vals>, oval: seq<nat>,
                   edom: EdgeSets, e: Edge, p: Packet, path: seq<Edge>)
    requires Basis(true, orig, g0, lv, root, vals, oval, edom) && Current(true, orig, g0, g, lv, root)
    requires Answers(orig, lv, root, p) && TakesPath(g, root, path, e, p) && Dst(g, e) in Reach(orig, lv, root)
    requires Dst(g, e) < |g|
    ensures Visits(orig, root, p, Dst(g, e)) && Fine(g, p, Dst(g, e))
  {
    ComesOn(g, root, path, e, p);
    assert Fine(g0, p, Dst(g, e));
    assert SameButTargets(g0[Dst(g, e)], g[Dst(g, e)]);
  }

  /** Skipping a block with equal successors. */
  lemma SkipCurrent(sound: bool, orig: Graph, g0: Graph, g: Graph, lv: seq<nat>, root: nat, vals: seq<Vals>,
                    oval: seq<nat>, edom: EdgeSets, e: Edge)
    requires Basis(sound, orig, g0, lv, root, vals, oval, edom) && Current(sound, orig, g0, g, lv, root)
    requires ValidEdge(g, e) && e.src in Reach(orig, lv, root)
    requires Dst(g, e) < |g| && g[Dst(g, e)].term.Br? && g[Dst(g, e)].term.jt == g[Dst(g, e)].term.jf
    ensures var t := g[Dst(g, e)].term.jt;
            t < |g| && lv[t] < lv[Dst(g, e)] && Current(sound, orig, g0, Redirect(g, e, t), lv, root)
  {
    var s := Dst(g, e);
    TargetsWithin(sound, orig, g0, g, lv, root, e);
    TargetsWithin(sound, orig, g0, g, lv, root, Edge(s, true));
    if sound {
      CodesSelfContained(g0, g);
      forall p, path | Answers(orig, lv, root, p) && TakesPath(g, root, path, e, p)
        ensures Leads(g, p, s, g[s].term.jt)
      {
        TargetFine(orig, g0, g, lv, root, vals, oval, edom, e, p, path);
        FineTakes(g, p, s);
      }
    }
    RedirectCurrent(sound, orig, g0, g, lv, root, e, g[s].term.jt);
  }

  /** Skipping a block decided by an edge that the run has taken. */
  lemma FoldCurrent(sound: bool, orig: Graph, g0: Graph, g: Graph, lv: seq<nat>, root: nat, vals: seq<Vals>,
                    oval: seq<nat>, edom: EdgeSets, e: Edge, k: Edge)
    requires Basis(sound, orig, g0, lv, root, vals, oval, edom) && Current(sound, orig, g0, g, lv, root)
    requires ValidEdge(g, e) && e.src in Reach(orig, lv, root)
    requires SameAbove(g0, g, lv, lv[e.src]) && e in edom && k in edom[e]
    requires Dst(g, e) < |g| && k.src < |g| && FoldEdge(g, vals, oval, Dst(g, e), k).Some?
    ensures var t := FoldEdge(g, vals, oval, Dst(g, e), k).value;
            t < |g| && lv[t] < lv[Dst(g, e)] && Current(sound, orig, g0, Redirect(g, e, t), lv, root)
  {
    var s := Dst(g, e);
    var t := FoldEdge(g, vals, oval, s, k).value;
    TargetsWithin(sound, orig, g0, g, lv, root, e);
    TargetsWithin(sound, orig, g0, g, lv, root, Edge(s, true));
    TargetsWithin(sound, orig, g0, g, lv, root, Edge(s, false));
    if sound {
      forall p, path | Answers(orig, lv, root, p) && TakesPath(g, root, path, e, p) ensures Leads(g, p, s, t) {
        FoldOnPath(orig, g0, g, lv, root, vals, oval, edom, e, k, p, path);
      }
    }
    RedirectCurrent(sound, orig, g0, g, lv, root, e, t);
  }

  /** The edges a run takes above the current level are those it takes in the graph the pass started from. */
  lemma PassedStays(orig: Graph, g0: Graph, g: Graph, lv: seq<nat>, root: nat, k: Edge, e: Edge, p: Packet,
                    path: seq<Edge>)
    requires Levelled(orig, lv) && root < |orig| == |g0| && Levelled(g0, lv) && Levelled(g, lv) && SameCodes(g0, g)
    requires Passed(orig, g0, lv, root, k, e) && Answers(orig, lv, root, p) && TakesPath(g, root, path, e, p)
    requires SameAbove(g0, g, lv, lv[e.src])
    ensures k in path + [e]
  {
    PathSame(g0, g, lv, root, path, e.src);
    forall f | f in path + [e] ensures ValidEdge(g0, f) && Taken(g0, p, f) {
      assert ValidEdge(g, f) && Taken(g, p, f);
      assert SameButTargets(g0[f.src], g[f.src]);
      TakenCodes(g0, g, p, f);
    }
    assert forall f | f in path :: f in path + [e];
    assert e in path + [e];
    assert TakesPath(g0, root, path, e, p);
  }

  /** A run that takes an edge comes through reachable blocks only. */
  lemma {:induction false} ComesWithin(orig: Graph, g: Graph, lv: seq<nat>, root: nat, path: seq<Edge>, x: nat,
                                       p: Packet)
    requires Levelled(orig, lv) && root < |orig| && Within(g, Reach(orig, lv, root)) && Comes(g, root, path, x, p)
    ensures x in Reach(orig, lv, root)
    decreases |path|
  {
    if path != [] {
      var f := path[|path| - 1];
      ComesWithin(orig, g, lv, root, path[..|path| - 1], f.src, p);
      assert Succ(g[f.src], f.dir) in Reach(orig, lv, root);
    }
  }

  lemma FoldOnPath(orig: Graph, g0: Graph, g: Graph, lv: seq<nat>, root: nat, vals: seq<Vals>, oval: seq<nat>,
                   edom: EdgeSets, e: Edge, k: Edge, p: Packet, path: seq<Edge>)
    requires Basis(true, orig, g0, lv, root, vals, oval, edom) && Current(true, orig, g0, g, lv, root)
    requires ValidEdge(g, e) && e.src in Reach(orig, lv, root)
    requires SameAbove(g0, g, lv, lv[e.src]) && e in edom && k in edom[e] && Dst(g, e) in Reach(orig, lv, root)
    requires Dst(g, e) < |g|
    requires k.src < |g| && FoldEdge(g, vals, oval, Dst(g, e), k).Some?
    requires Answers(orig, lv, root, p) && TakesPath(g, root, path, e, p)
    ensures Leads(g, p, Dst(g, e), FoldEdge(g, vals, oval, Dst(g, e), k).value)
  {
    var s := Dst(g, e);
    PassedStays(orig, g0, g, lv, root, k, e, p, path);
    TargetFine(orig, g0, g, lv, root, vals, oval, edom, e, p, path);
    PassedFine(orig, g, lv, root, k, e, p, path);
    assert SameButTargets(g0[s], g[s]) && SameButTargets(g0[k.src], g[k.src]);
    TakenCodes(g0, g, p, k);
    var d := FoldDir(g, vals, oval, s, k).value;
    assert FoldDir(g0, vals, oval, s, k) == Some(d);
    assert FoldRight(orig, g0, root, vals, oval, s, k, p);
    TakenCodes(g0, g, p, Edge(s, d));
  }

  /** The source of an edge that the run has taken did not fault. */
  lemma PassedFine(orig: Graph, g: Graph, lv: seq<nat>, root: nat, k: Edge, e: Edge, p: Packet, path: seq<Edge>)
    requires Levelled(orig, lv) && root < |orig| && Within(g, Reach(orig, lv, root)) && AllClean(orig, g, lv, root)
    requires Answers(orig, lv, root, p) && TakesPath(g, root, path, e, p) && k in path + [e]
    ensures ValidEdge(g, k) && Taken(g, p, k) && k.src in Reach(orig, lv, root) && Visits(orig, root, p, k.src)
  {
    var pre := path;
    if k != e { pre := ComesBefore(g, root, path, e.src, p, k); }
    ComesWithin(orig, g, lv, root, pre, k.src, p);
  }

  /** The edge numbered `i`: first the true edges of all blocks, then the false edges. */
  function EdgeNumbered(i: nat, n: nat): Edge
    requires i < 2 * n
  {
    if i < n then Edge(i, true) else Edge(i - n, false)
  }

  ghost predicate Conflict(vals: seq<Vals>, outUse: seq<set<Atom>>, b: nat, succ: nat)
    requires b < |vals| && succ < |vals| == |outUse|
  {
    exists a: Atom :: a in outUse[succ] && vals[b][a] != vals[succ][a]
  }

  /** No dominating edge decides the block that `e` leads to, or there is a data dependency. */
  ghost predicate Threaded(g: Graph, vals: seq<Vals>, oval: seq<nat>, outUse: seq<set<Atom>>, edom: EdgeSets, e: Edge)
    requires |vals| == |oval| == |outUse| == |g| && ValidEdge(g, e) && Dst(g, e) < |g| && e in edom
  {
    forall k | k in edom[e] && k.src < |g| ::
      var t := FoldEdge(g, vals, oval, Dst(g, e), k);
      t.Some? ==> t.value < |g| && Conflict(vals, outUse, e.src, t.value)
  }

  // How far an edge is promoted

  /** An edge that dominates `e` decides block `s` in favour of `t`, and there is no data dependency. */
  ghost predicate Decided(g: Graph, vals: seq<Vals>, oval: seq<nat>, outUse: seq<set<Atom>>, edom: EdgeSets, e: Edge,
                          s: nat, t: nat)
    requires |vals| == |oval| == |outUse| == |g| && e.src < |g| && s < |g| && t < |g| && e in edom
  {
    !Conflict(vals, outUse, e.src, t)
    && exists k :: k in edom[e] && k.src < |g| && FoldEdge(g, vals, oval, s, k) == Some(t)
  }

  /** The first target: past a block with equal successors, if there is no data dependency. */
  ghost function Start(g: Graph, vals: seq<Vals>, outUse: seq<set<Atom>>, e: Edge, s: nat): nat
    requires |vals| == |outUse| == |g| && e.src < |g| && s < |g|
    requires g[s].term.Br? ==> g[s].term.jt < |g|
  {
    if g[s].term.Br? && g[s].term.jt == g[s].term.jf && !Conflict(vals, outUse, e.src, g[s].term.jt) then g[s].term.jt
      else s
  }

  /** `ts` are blocks below the source of `e`, each decided in favour of the next. */
  ghost predicate Follows(g: Graph, lv: seq<nat>, vals: seq<Vals>, oval: seq<nat>, outUse: seq<set<Atom>>,
                          edom: EdgeSets, e: Edge, ts: seq<nat>)
    requires |lv| == |vals| == |oval| == |outUse| == |g| && e.src < |g| && e in edom
  {
    && ts != [] && (forall i | 0 <= i < |ts| :: ts[i] < |g| && lv[ts[i]] < lv[e.src])
    && forall i | 0 < i < |ts| :: DecidedAt(g, vals, oval, outUse, edom, e, ts, i)
  }

  ghost predicate DecidedAt(g: Graph, vals: seq<Vals>, oval: seq<nat>, outUse: seq<set<Atom>>, edom: EdgeSets,
                            e: Edge, ts: seq<nat>, i: nat)
    requires |vals| == |oval| == |outUse| == |g| && e.src < |g| && e in edom && 0 < i < |ts| && ts[i - 1] < |g|
    requires ts[i] < |g|
  {
    Decided(g, vals, oval, outUse, edom, e, ts[i - 1], ts[i])
  }

  /** Edge `e`, which led to `s`, leads as far as dominating edges decide. */
  ghost predicate Routed(g: Graph, lv: seq<nat>, vals: seq<Vals>, oval: seq<nat>, outUse: seq<set<Atom>>,
                         edom: EdgeSets, e: Edge, s: nat)
    requires |vals| == |oval| == |outUse| == |g| && Levelled(g, lv) && ValidEdge(g, e) && s < |g| && e in edom
  {
    assert g[s].term.Br? ==> EdgeDown(g, lv, s, true);
    assert EdgeDown(g, lv, e.src, e.dir);
    && (g[Dst(g, e)].term.Ret? || Threaded(g, vals, oval, outUse, edom, e))
    && exists ts ::
      Follows(g, lv, vals, oval, outUse, edom, e, ts) && ts[0] == Start(g, vals, outUse, e, s)
      && ts[|ts| - 1] == Dst(g, e)
  }

  ghost predicate SameBelow(g: Graph, g': Graph, lv: seq<nat>, level: nat) {
    |g| == |g'| == |lv| && forall x | 0 <= x < |g| && lv[x] < level :: g'[x] == g[x]
  }

  lemma DecidedStable(g: Graph, g': Graph, vals: seq<Vals>, oval: seq<nat>, outUse: seq<set<Atom>>, edom: EdgeSets,
                      e: Edge, s: nat, t: nat)
    requires |vals| == |oval| == |outUse| == |g| && e.src < |g| && s < |g| && t < |g| && e in edom
    requires SameCodes(g, g') && g'[s] == g[s]
    ensures Decided(g, vals, oval, outUse, edom, e, s, t) ==> Decided(g', vals, oval, outUse, edom, e, s, t)
  {
    if Decided(g, vals, oval, outUse, edom, e, s, t) {
      var k :| k in edom[e] && k.src < |g| && FoldEdge(g, vals, oval, s, k) == Some(t);
      assert SameButTargets(g[k.src], g'[k.src]);
      assert FoldEdge(g', vals, oval, s, k) == Some(t);
    }
  }

  lemma ThreadedStable(g: Graph, g': Graph, vals: seq<Vals>, oval: seq<nat>, outUse: seq<set<Atom>>, edom: EdgeSets,
                       e: Edge)
    requires |vals| == |oval| == |outUse| == |g| == |g'| && ValidEdge(g, e) && ValidEdge(g', e) && e in edom
    requires Dst(g', e) == Dst(g, e) < |g| && g'[Dst(g, e)] == g[Dst(g, e)] && SameCodes(g, g')
    ensures Threaded(g, vals, oval, outUse, edom, e) ==> Threaded(g', vals, oval, outUse, edom, e)
  {
    forall k | k in edom[e] && k.src < |g|
      ensures FoldEdge(g', vals, oval, Dst(g, e), k) == FoldEdge(g, vals, oval, Dst(g, e), k)
    {
      assert SameButTargets(g[k.src], g'[k.src]);
    }
  }

  lemma FollowsStable(g: Graph, g': Graph, lv: seq<nat>, vals: seq<Vals>, oval: seq<nat>, outUse: seq<set<Atom>>,
                      edom: EdgeSets, e: Edge, ts: seq<nat>)
    requires |lv| == |vals| == |oval| == |outUse| == |g| == |g'| && e.src < |g| && e in edom
    requires Follows(g, lv, vals, oval, outUse, edom, e, ts)
    requires SameCodes(g, g') && SameBelow(g, g', lv, lv[e.src])
    ensures Follows(g', lv, vals, oval, outUse, edom, e, ts)
  {
    forall i | 0 < i < |ts| ensures DecidedAt(g', vals, oval, outUse, edom, e, ts, i) {
      assert DecidedAt(g, vals, oval, outUse, edom, e, ts, i);
      DecidedStable(g, g', vals, oval, outUse, edom, e, ts[i - 1], ts[i]);
    }
  }

  /** What is settled of one edge stays so while blocks at or above its source change their targets. */
  lemma RoutedStable(g: Graph, g': Graph, lv: seq<nat>, vals: seq<Vals>, oval: seq<nat>, outUse: seq<set<Atom>>,
                     edom: EdgeSets, e: Edge, s: nat)
    requires |vals| == |oval| == |outUse| == |g| == |g'| && Levelled(g, lv) && Levelled(g', lv) && ValidEdge(g, e)
    requires e in edom
    requires s < |g| && lv[s] < lv[e.src] && Routed(g, lv, vals, oval, outUse, edom, e, s)
    requires ValidEdge(g', e) && Dst(g', e) == Dst(g, e)
    requires SameCodes(g, g') && SameBelow(g, g', lv, lv[e.src])
    ensures Routed(g', lv, vals, oval, outUse, edom, e, s)
  {
    assert g[s].term.Br? ==> EdgeDown(g, lv, s, true);
    assert EdgeDown(g, lv, e.src, e.dir);
    var ts :| Follows(g, lv, vals, oval, outUse, edom, e, ts) && ts[0] == Start(g, vals, outUse, e, s)
        && ts[|ts| - 1] == Dst(g, e);
    FollowsStable(g, g', lv, vals, oval, outUse, edom, e, ts);
    ThreadedStable(g, g', vals, oval, outUse, edom, e);
  }

  /** Look for a dominating edge that decides the target of `e`. */
  method FindFold(g: Graph, vals: seq<Vals>, oval: seq<nat>, outUse: seq<set<Atom>>, edom: EdgeSets, e: Edge)
    returns (target: Option<nat>, ghost k: Edge)
    requires |vals| == |oval| == |outUse| == |g| && ValidEdge(g, e) && Dst(g, e) < |g| && e in edom
    requires g[Dst(g, e)].term.Br? ==> g[Dst(g, e)].term.jt < |g| && g[Dst(g, e)].term.jf < |g|
    ensures target.Some? ==> k in edom[e] && k.src < |g| && FoldEdge(g, vals, oval, Dst(g, e), k) == target
                             && target.value < |g| && !Conflict(vals, outUse, e.src, target.value)
    ensures target.None? ==> Threaded(g, vals, oval, outUse, edom, e)
  {
    var s := Succ(g[e.src], e.dir);
    k := e;
    for i := 0 to 2 * |g|
      invariant forall j | 0 <= j < i && EdgeNumbered(j, |g|) in edom[e] ::
                  var t := FoldEdge(g, vals, oval, s, EdgeNumbered(j, |g|));
                  t.Some? ==> Conflict(vals, outUse, e.src, t.value)
    {
      var f := EdgeNumbered(i, |g|);
      if f in edom[e] {
        target := FoldEdge(g, vals, oval, s, f);
        if target.Some? {
          var conflict := UseConflict(vals, outUse, e.src, target.value);
          if !conflict { return target, f; }
        }
      }
    }
    target := None;
    forall f | f in edom[e] && f.src < |g|
      ensures var t := FoldEdge(g, vals, oval, s, f);
              t.Some? ==> t.value < |g| && Conflict(vals, outUse, e.src, t.value)
    {
      assert f == EdgeNumbered(if f.dir then f.src else |g| + f.src, |g|);
    }
  }

  /** If both branches of the target lead to one block, go there directly; not if an atom that block passes on
      differs. */
  method SkipCommon(ghost sound: bool, ghost orig: Graph, ghost g0: Graph, g: Graph, ghost lv: seq<nat>,
                    ghost root: nat, vals: seq<Vals>, oval: seq<nat>, outUse: seq<set<Atom>>, ghost edom: EdgeSets,
                    e: Edge)
    returns (g': Graph)
    requires Basis(sound, orig, g0, lv, root, vals, oval, edom) && Current(sound, orig, g0, g, lv, root)
    requires ValidEdge(g, e) && e.src in Reach(orig, lv, root)
    requires |outUse| == |g| && Dst(g, e) < |g|
    ensures Current(sound, orig, g0, g', lv, root) && OnlyEdge(g, g', e) && lv[Dst(g', e)] < lv[e.src]
    ensures (g[Dst(g, e)].term.Br? ==> g[Dst(g, e)].term.jt < |g|) && Dst(g', e) == Start(g, vals, outUse, e, Dst(g, e))
  {
    g' := g;
    var s := Succ(g[e.src], e.dir);
    assert EdgeDown(g, lv, e.src, e.dir);
    if g[s].term.Br? { assert EdgeDown(g, lv, s, true); }
    if g[s].term.Br? && g[s].term.jt == g[s].term.jf {
      var conflict := UseConflict(vals, outUse, e.src, g[s].term.jt);
      if !conflict {
        SkipCurrent(sound, orig, g0, g, lv, root, vals, oval, edom, e);
        g' := Redirect(g, e, g[s].term.jt);
      }
    }
  }

  /** Promote the target of an edge as far as dominating edges decide. */
  method OptJ(ghost sound: bool, ghost orig: Graph, ghost g0: Graph, g: Graph, ghost lv: seq<nat>, ghost root: nat,
              vals: seq<Vals>, oval: seq<nat>, outUse: seq<set<Atom>>, edom: EdgeSets, e: Edge) returns (g': Graph)
    requires Basis(sound, orig, g0, lv, root, vals, oval, edom) && Current(sound, orig, g0, g, lv, root)
    requires ValidEdge(g, e) && e.src in Reach(orig, lv, root)
    requires |outUse| == |g| && e in edom && SameAbove(g0, g, lv, lv[e.src])
    ensures Current(sound, orig, g0, g', lv, root) && OnlyEdge(g, g', e)
    ensures Dst(g, e) < |g| && lv[Dst(g, e)] < lv[e.src] && Routed(g', lv, vals, oval, outUse, edom, e, Dst(g, e))
  {
    var g1 := SkipCommon(sound, orig, g0, g, lv, root, vals, oval, outUse, edom, e);
    ghost var ts;
    g', ts := PromoteAll(sound, orig, g0, g1, lv, root, vals, oval, outUse, edom, e);
    assert EdgeDown(g, lv, e.src, e.dir) && Dst(g, e) != e.src;
    assert g[Dst(g, e)] == g1[Dst(g, e)] == g'[Dst(g, e)];
    assert Start(g', vals, outUse, e, Dst(g, e)) == Start(g, vals, outUse, e, Dst(g, e));
  }

  /** At most the target of edge `e` differs. */
  ghost predicate OnlyEdge(g: Graph, g': Graph, e: Edge) {
    && ValidEdge(g, e) && |g'| == |g|
    && (forall x | 0 <= x < |g| && x != e.src :: g'[x] == g[x])
    && ValidEdge(g', e) && Dst(g', e) < |g'|
    && SameButTargets(g[e.src], g'[e.src]) && Succ(g'[e.src], !e.dir) == Succ(g[e.src], !e.dir)
  }

  /** Edge `e` of `g` has been promoted along `ts`, and no further unless `more`. */
  ghost predicate Underway(g: Graph, g': Graph, lv: seq<nat>, vals: seq<Vals>, oval: seq<nat>, outUse: seq<set<Atom>>,
                           edom: EdgeSets, e: Edge, ts: seq<nat>, more: bool) {
    && OnlyEdge(g, g', e) && |lv| == |vals| == |oval| == |outUse| == |g| && e in edom
    && Follows(g', lv, vals, oval, outUse, edom, e, ts) && ts[0] == Dst(g, e) && ts[|ts| - 1] == Dst(g', e)
    && (more || g'[Dst(g', e)].term.Ret? || Threaded(g', vals, oval, outUse, edom, e))
  }

  /** Follow the decisions of dominating edges until none is left. */
  method PromoteAll(ghost sound: bool, ghost orig: Graph, ghost g0: Graph, g: Graph, ghost lv: seq<nat>,
                    ghost root: nat, vals: seq<Vals>, oval: seq<nat>, outUse: seq<set<Atom>>, edom: EdgeSets, e: Edge)
    returns (g': Graph, ghost ts: seq<nat>)
    requires Basis(sound, orig, g0, lv, root, vals, oval, edom) && Current(sound, orig, g0, g, lv, root)
    requires ValidEdge(g, e) && e.src in Reach(orig, lv, root)
    requires |outUse| == |g| && e in edom && SameAbove(g0, g, lv, lv[e.src])
    ensures Current(sound, orig, g0, g', lv, root) && Underway(g, g', lv, vals, oval, outUse, edom, e, ts, false)
  {
    TargetsWithin(sound, orig, g0, g, lv, root, e);
    g', ts := g, [Dst(g, e)];
    var more := g[Succ(g[e.src], e.dir)].term.Br?;
    while more
      invariant Current(sound, orig, g0, g', lv, root) && Underway(g, g', lv, vals, oval, outUse, edom, e, ts, more)
      decreases lv[ts[|ts| - 1]], more
    {
      g', more, ts := Promote(sound, orig, g0, g, g', lv, root, vals, oval, outUse, edom, e, ts);
    }
  }

  /** One search over the dominating edges, and the redirection it allows. */
  method Promote(ghost sound: bool, ghost orig: Graph, ghost g0: Graph, ghost g1: Graph, g: Graph, ghost lv: seq<nat>,
                 ghost root: nat, vals: seq<Vals>, oval: seq<nat>, outUse: seq<set<Atom>>, edom: EdgeSets, e: Edge,
                 ghost ts: seq<nat>)
    returns (g': Graph, more: bool, ghost ts': seq<nat>)
    requires Basis(sound, orig, g0, lv, root, vals, oval, edom) && Current(sound, orig, g0, g, lv, root)
    requires e.src in Reach(orig, lv, root)
    requires SameAbove(g0, g1, lv, lv[e.src]) && Underway(g1, g, lv, vals, oval, outUse, edom, e, ts, true)
    ensures Current(sound, orig, g0, g', lv, root) && Underway(g1, g', lv, vals, oval, outUse, edom, e, ts', more)
    ensures lv[ts'[|ts'| - 1]] <= lv[ts[|ts| - 1]] && (more ==> lv[ts'[|ts'| - 1]] < lv[ts[|ts| - 1]])
  {
    ghost var child := Dst(g, e);
    assert g[child].term.Br? ==> EdgeDown(g, lv, child, true) && EdgeDown(g, lv, child, false);
    ghost var k;
    var target;
    target, k := FindFold(g, vals, oval, outUse, edom, e);
    if target.None? { return g, false, ts; }
    AboveEdge(g0, g1, g, lv, e);
    FoldCurrent(sound, orig, g0, g, lv, root, vals, oval, edom, e, k);
    g' := Redirect(g, e, target.value);
    more := g'[target.value].term.Br?;
    ts' := ts + [target.value];
    UnderwayOn(g1, g, g', lv, vals, oval, outUse, edom, e, ts, k, target.value);
  }

  lemma UnderwayOn(g1: Graph, g: Graph, g': Graph, lv: seq<nat>, vals: seq<Vals>, oval: seq<nat>,
                   outUse: seq<set<Atom>>, edom: EdgeSets, e: Edge, ts: seq<nat>, k: Edge, t: nat)
    requires Underway(g1, g, lv, vals, oval, outUse, edom, e, ts, true) && t < |g| && lv[t] < lv[Dst(g, e)]
    requires k in edom[e] && k.src < |g| && FoldEdge(g, vals, oval, Dst(g, e), k) == Some(t)
    requires !Conflict(vals, outUse, e.src, t) && g' == Redirect(g, e, t)
    ensures Underway(g1, g', lv, vals, oval, outUse, edom, e, ts + [t], g'[t].term.Br?)
  {
    FollowsOn(g, g', lv, vals, oval, outUse, edom, e, ts, k, t);
  }

  lemma AboveEdge(g0: Graph, g1: Graph, g: Graph, lv: seq<nat>, e: Edge)
    requires OnlyEdge(g1, g, e) && e.src < |lv| && SameAbove(g0, g1, lv, lv[e.src])
    ensures SameAbove(g0, g, lv, lv[e.src])
  {
  }

  lemma FollowsOn(g: Graph, g': Graph, lv: seq<nat>, vals: seq<Vals>, oval: seq<nat>, outUse: seq<set<Atom>>,
                  edom: EdgeSets, e: Edge, ts: seq<nat>, k: Edge, t: nat)
    requires |lv| == |vals| == |oval| == |outUse| == |g| && e.src < |g| && e in edom && t < |g| && lv[t] < lv[e.src]
    requires Follows(g, lv, vals, oval, outUse, edom, e, ts) && g[e.src].term.Br? && g' == Redirect(g, e, t)
    requires k in edom[e] && k.src < |g| && FoldEdge(g, vals, oval, ts[|ts| - 1], k) == Some(t)
    requires !Conflict(vals, outUse, e.src, t)
    ensures Follows(g', lv, vals, oval, outUse, edom, e, ts + [t])
  {
    assert Decided(g, vals, oval, outUse, edom, e, ts[|ts| - 1], t);
    RedirectCodes(g, g, e, t);
    FollowsStable(g, g', lv, vals, oval, outUse, edom, e, ts);
    DecidedStable(g, g', vals, oval, outUse, edom, e, ts[|ts| - 1], t);
    FollowsNext(g', lv, vals, oval, outUse, edom, e, ts, t);
  }

  lemma FollowsNext(g: Graph, lv: seq<nat>, vals: seq<Vals>, oval: seq<nat>, outUse: seq<set<Atom>>, edom: EdgeSets,
                    e: Edge, ts: seq<nat>, t: nat)
    requires |lv| == |vals| == |oval| == |outUse| == |g| && e.src < |g| && e in edom && t < |g| && lv[t] < lv[e.src]
    requires Follows(g, lv, vals, oval, outUse, edom, e, ts) && Decided(g, vals, oval, outUse, edom, e, ts[|ts| - 1], t)
    ensures Follows(g, lv, vals, oval, outUse, edom, e, ts + [t])
  {
    var us := ts + [t];
    forall i | 0 < i < |us| ensures DecidedAt(g, vals, oval, outUse, edom, e, us, i) {
      if i < |ts| { assert DecidedAt(g, vals, oval, outUse, edom, e, ts, i); }
    }
  }

  /** The first `j` blocks of level `i` have been processed, and every level below. */
  ghost predicate SameAhead(g0: Graph, g: Graph, lv: seq<nat>, levels: seq<seq<nat>>, i: nat, j: nat) {
    && |g| == |g0| == |lv| && i < |levels| && j <= |levels[i]|
    && SameAbove(g0, g, lv, i)
    && forall m | j <= m < |levels[i]| :: levels[i][m] < |g| && g[levels[i][m]] == g0[levels[i][m]]
  }

  lemma LevelUntouched(orig: Graph, g0: Graph, g: Graph, lv: seq<nat>, levels: seq<seq<nat>>, root: nat, i: nat)
    requires LevelLists(orig, lv, root, levels) && i < |levels| && |g| == |g0| == |orig|
    requires forall x | 0 <= x < |g0| && lv[x] >= i :: g[x] == g0[x]
    ensures SameAhead(g0, g, lv, levels, i, 0)
  {
    forall m | 0 <= m < |levels[i]| ensures levels[i][m] < |g| && g[levels[i][m]] == g0[levels[i][m]] {
      var x := levels[i][m];
      assert x in levels[i];
      assert x in Reach(orig, lv, root) && lv[x] == i;
    }
  }

  lemma BlockProcessed(orig: Graph, g0: Graph, g: Graph, g': Graph, lv: seq<nat>, levels: seq<seq<nat>>, root: nat,
                       i: nat, j: nat)
    requires LevelLists(orig, lv, root, levels) && i < |levels| && j < |levels[i]| && SameAhead(g0, g, lv, levels, i, j)
    requires |g'| == |g| && forall x | 0 <= x < |g| && x != levels[i][j] :: g'[x] == g[x]
    ensures SameAhead(g0, g', lv, levels, i, j + 1)
  {
    assert NoDup(levels[i]) && levels[i][j] in levels[i];
  }

  /** Edge `e` of `g0` leads, in `g`, as far as dominating edges decide. */
  ghost predicate Settled(g0: Graph, g: Graph, lv: seq<nat>, vals: seq<Vals>, oval: seq<nat>, outUse: seq<set<Atom>>,
                          edom: EdgeSets, e: Edge) {
    && |vals| == |oval| == |outUse| == |g| && Levelled(g, lv) && ValidEdge(g, e) && e in edom
    && ValidEdge(g0, e) && Dst(g0, e) < |g| && lv[Dst(g0, e)] < lv[e.src]
    && Routed(g, lv, vals, oval, outUse, edom, e, Dst(g0, e))
  }

  ghost predicate AllSettled(g0: Graph, g: Graph, lv: seq<nat>, vals: seq<Vals>, oval: seq<nat>, outUse: seq<set<Atom>>,
                             edom: EdgeSets, done: set<nat>) {
    forall e: Edge | e.src in done && e.src < |g0| && g0[e.src].term.Br? ::
      Settled(g0, g, lv, vals, oval, outUse, edom, e)
  }

  /** The blocks processed when `j` blocks of level `i` are done, and all levels below it. */
  ghost function Processed(g: Graph, lv: seq<nat>, root: nat, levels: seq<seq<nat>>, i: nat, j: nat): set<nat>
    requires LevelLists(g, lv, root, levels) && i < |levels| && j <= |levels[i]|
  {
    (set x | x in Reach(g, lv, root) && lv[x] < i) + set x | x in levels[i][..j]
  }

  lemma ProcessedNext(g: Graph, lv: seq<nat>, root: nat, levels: seq<seq<nat>>, i: nat, j: nat)
    requires LevelLists(g, lv, root, levels) && i < |levels| && j < |levels[i]|
    ensures var b, done := levels[i][j], Processed(g, lv, root, levels, i, j);
            && Processed(g, lv, root, levels, i, j + 1) == done + {b} && b !in done
            && b in Reach(g, lv, root) && lv[b] == i && forall x | x in done :: x < |g| && lv[x] <= lv[b]
  {
    assert levels[i][..j + 1] == levels[i][..j] + [levels[i][j]];
    assert NoDup(levels[i]) && levels[i][j] in levels[i];
    forall x | x in levels[i][..j] ensures x in levels[i] { }
  }

  lemma ProcessedLevel(g: Graph, lv: seq<nat>, root: nat, levels: seq<seq<nat>>, i: nat)
    requires LevelLists(g, lv, root, levels) && i < |levels|
    ensures Processed(g, lv, root, levels, i, |levels[i]|) == set x | x in Reach(g, lv, root) && lv[x] < i + 1
    ensures Processed(g, lv, root, levels, i, 0) == set x | x in Reach(g, lv, root) && lv[x] < i
  {
    assert levels[i][..|levels[i]|] == levels[i];
    assert forall x | x in Reach(g, lv, root) && lv[x] == i :: x in levels[i];
    assert forall x | x in levels[i] :: x in Reach(g, lv, root) && lv[x] == i;
  }

  /** One block more: what was settled at or below its level stays so. */
  lemma SettledNext(g0: Graph, g: Graph, g1: Graph, g2: Graph, lv: seq<nat>, vals: seq<Vals>, oval: seq<nat>,
                    outUse: seq<set<Atom>>, edom: EdgeSets, done: set<nat>, b: nat)
    requires AllSettled(g0, g, lv, vals, oval, outUse, edom, done)
    requires b < |g0| == |g| && g[b] == g0[b] && g0[b].term.Br?
    requires Levelled(g, lv) && b !in done && forall x | x in done :: x < |g| && lv[x] <= lv[b]
    requires OnlyEdge(g, g1, Edge(b, true)) && OnlyEdge(g1, g2, Edge(b, false)) && Levelled(g1, lv) && Levelled(g2, lv)
    requires Settled(g, g1, lv, vals, oval, outUse, edom, Edge(b, true))
    requires Settled(g1, g2, lv, vals, oval, outUse, edom, Edge(b, false))
    ensures AllSettled(g0, g2, lv, vals, oval, outUse, edom, done + {b})
  {
    OnlyEdgeCodes(g, g1, Edge(b, true));
    OnlyEdgeCodes(g1, g2, Edge(b, false));
    RoutedStable(g1, g2, lv, vals, oval, outUse, edom, Edge(b, true), Dst(g, Edge(b, true)));
    forall e: Edge | e.src in done + {b} && e.src < |g0| && g0[e.src].term.Br?
      ensures Settled(g0, g2, lv, vals, oval, outUse, edom, e)
    {
      if e.src in done {
        assert Settled(g0, g, lv, vals, oval, outUse, edom, e);
        assert SameCodes(g, g2) by { CodesTrans(g, g1, g2); }
        RoutedStable(g, g2, lv, vals, oval, outUse, edom, e, Dst(g0, e));
      } else {
        assert e == Edge(b, true) || e == Edge(b, false);
      }
    }
  }

  lemma OnlyEdgeCodes(g: Graph, g': Graph, e: Edge)
    requires OnlyEdge(g, g', e)
    ensures SameCodes(g, g')
  {
  }

  lemma CodesTrans(g: Graph, g1: Graph, g2: Graph)
    requires SameCodes(g, g1) && SameCodes(g1, g2)
    ensures SameCodes(g, g2)
  {
    forall b | 0 <= b < |g| ensures SameButTargets(g[b], g2[b]) {
      assert SameButTargets(g[b], g1[b]) && SameButTargets(g1[b], g2[b]);
    }
  }

  /** Thread every edge, from the lowest branching level up to the root. The levels, numbers and edge sets are those
      of `orig`, whose runs are to be kept. */
  method ThreadJumps(ghost sound: bool, ghost orig: Graph, g: Graph, ghost lv: seq<nat>, levels: seq<seq<nat>>,
                     root: nat, rootLevel: nat, vals: seq<Vals>, oval: seq<nat>, outUse: seq<set<Atom>>, edom: EdgeSets)
    returns (g': Graph)
    requires LevelLists(orig, lv, root, levels) && rootLevel == lv[root]
    requires Basis(sound, orig, g, lv, root, vals, oval, edom) && Current(sound, orig, g, g, lv, root)
    requires |outUse| == |g|
    ensures SameCodes(g, g') && Levelled(g', lv)
    ensures sound ==> AllSelfContained(g') && Preserves(orig, g', lv, lv, root)
    ensures Reach(g', lv, root) <= Reach(orig, lv, root)
    ensures forall x | 0 <= x < |g| && x !in Reach(orig, lv, root) :: g'[x] == g[x]
    ensures AllSettled(g, g', lv, vals, oval, outUse, edom, Reach(orig, lv, root))
  {
    g' := g;
    assert AllSettled(g, g', lv, vals, oval, outUse, edom, set x | x in Reach(orig, lv, root) && lv[x] < 1) by {
      LeavesSettled(orig, g, lv, root);
    }
    for i := 1 to rootLevel + 1
      invariant Current(sound, orig, g, g', lv, root) && SameAtOrAbove(g, g', lv, i)
      invariant SameOutside(g, g', Reach(orig, lv, root))
      invariant AllSettled(g, g', lv, vals, oval, outUse, edom, set x | x in Reach(orig, lv, root) && lv[x] < i)
    {
      g' := ThreadLevel(sound, orig, g, g', lv, levels, root, vals, oval, outUse, edom, i);
    }
    assert (set x | x in Reach(orig, lv, root) && lv[x] < rootLevel + 1) == Reach(orig, lv, root);
    if sound { CodesSelfContained(g, g'); }
    WithinReach(g', lv, root, Reach(orig, lv, root));
  }

  ghost predicate SameAtOrAbove(g: Graph, g': Graph, lv: seq<nat>, level: nat) {
    |g| == |g'| == |lv| && forall x | 0 <= x < |g| && lv[x] >= level :: g'[x] == g[x]
  }

  ghost predicate SameOutside(g: Graph, g': Graph, blocks: set<nat>) {
    |g| == |g'| && forall x | 0 <= x < |g| && x !in blocks :: g'[x] == g[x]
  }

  lemma LeavesSettled(orig: Graph, g: Graph, lv: seq<nat>, root: nat)
    requires Levelled(orig, lv) && root < |orig| && Levelled(g, lv)
    ensures forall x | x in Reach(orig, lv, root) && lv[x] < 1 :: x < |g| && g[x].term.Ret?
  {
    forall x | x in Reach(orig, lv, root) && g[x].term.Br? ensures lv[x] >= 1 { assert EdgeDown(g, lv, x, true); }
  }

  lemma {:induction false} WithinReach(g: Graph, lv: seq<nat>, x: nat, blocks: set<nat>)
    requires Levelled(g, lv) && x < |g| && x in blocks && Within(g, blocks)
    ensures Reach(g, lv, x) <= blocks
    decreases lv[x]
  {
    if g[x].term.Br? {
      assert EdgeDown(g, lv, x, true) && EdgeDown(g, lv, x, false);
      assert Succ(g[x], true) in blocks && Succ(g[x], false) in blocks;
      WithinReach(g, lv, g[x].term.jt, blocks);
      WithinReach(g, lv, g[x].term.jf, blocks);
    }
  }

  /** Thread the edges of all blocks of level `i`. */
  method ThreadLevel(ghost sound: bool, ghost orig: Graph, ghost g0: Graph, g: Graph, ghost lv: seq<nat>,
                     levels: seq<seq<nat>>, ghost root: nat, vals: seq<Vals>, oval: seq<nat>, outUse: seq<set<Atom>>,
                     edom: EdgeSets, i: nat)
    returns (g': Graph)
    requires LevelLists(orig, lv, root, levels) && i < |levels|
    requires Basis(sound, orig, g0, lv, root, vals, oval, edom) && Current(sound, orig, g0, g, lv, root)
    requires |outUse| == |g|
    requires SameAtOrAbove(g0, g, lv, i) && SameOutside(g0, g, Reach(orig, lv, root))
    requires AllSettled(g0, g, lv, vals, oval, outUse, edom, set x | x in Reach(orig, lv, root) && lv[x] < i)
    ensures Current(sound, orig, g0, g', lv, root) && SameAtOrAbove(g0, g', lv, i + 1)
    ensures SameOutside(g0, g', Reach(orig, lv, root))
    ensures AllSettled(g0, g', lv, vals, oval, outUse, edom, set x | x in Reach(orig, lv, root) && lv[x] < i + 1)
  {
    g' := g;
    LevelUntouched(orig, g0, g', lv, levels, root, i);
    ProcessedLevel(orig, lv, root, levels, i);
    for j := 0 to |levels[i]|
      invariant Current(sound, orig, g0, g', lv, root) && SameAhead(g0, g', lv, levels, i, j)
      invariant SameOutside(g0, g', Reach(orig, lv, root))
      invariant AllSettled(g0, g', lv, vals, oval, outUse, edom, Processed(orig, lv, root, levels, i, j))
    {
      ghost var g1 := g';
      ProcessedNext(orig, lv, root, levels, i, j);
      g' := ThreadBlock(sound, orig, g0, g', lv, root, vals, oval, outUse, edom, levels[i][j],
                        Processed(orig, lv, root, levels, i, j));
      BlockProcessed(orig, g0, g1, g', lv, levels, root, i, j);
    }
  }

  /** Thread both edges of one block. */
  method ThreadBlock(ghost sound: bool, ghost orig: Graph, ghost g0: Graph, g: Graph, ghost lv: seq<nat>,
                     ghost root: nat, vals: seq<Vals>, oval: seq<nat>, outUse: seq<set<Atom>>, edom: EdgeSets, b: nat,
                     ghost done: set<nat>)
    returns (g': Graph)
    requires Basis(sound, orig, g0, lv, root, vals, oval, edom) && Current(sound, orig, g0, g, lv, root)
    requires |outUse| == |g|
    requires b in Reach(orig, lv, root) && SameAbove(g0, g, lv, lv[b]) && g[b] == g0[b]
    requires AllSettled(g0, g, lv, vals, oval, outUse, edom, done) && b !in done
    requires forall x | x in done :: x < |g| && lv[x] <= lv[b]
    ensures Current(sound, orig, g0, g', lv, root) && (forall x | 0 <= x < |g| && x != b :: g'[x] == g[x])
    ensures AllSettled(g0, g', lv, vals, oval, outUse, edom, done + {b})
  {
    g' := g;
    if g[b].term.Br? {
      var g1 := OptJ(sound, orig, g0, g, lv, root, vals, oval, outUse, edom, Edge(b, true));
      g' := OptJ(sound, orig, g0, g1, lv, root, vals, oval, outUse, edom, Edge(b, false));
      SettledNext(g0, g, g1, g', lv, vals, oval, outUse, edom, done, b);
    }
  }
}
