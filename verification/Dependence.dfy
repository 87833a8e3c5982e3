/** Jump threading one edge at a time, in a filter whose blocks may read what other blocks have set (use_conflict). */
module Dependence {
  import opened Machine
  import opened Graph
  import opened Levels
  import opened Liveness
  import opened Dominance
  import opened ValueTable
  import opened Numbering
  import opened NumberingPass
  import opened Threading

  /** A numbered filter that reads no atom without a number. */
  ghost predicate WellNumbered(es: seq<Expr>, g: Graph, lv: seq<nat>, root: nat, valIn: seq<Vals>, vals: seq<Vals>,
                               oval: seq<nat>) {
    && Levelled(g, lv) && root < |g| && NoDup(es)
    && Numbered(es, g, g, lv, root, valIn, vals, oval, Reach(g, lv, root)) && AllKnown(g, lv, root, valIn)
  }

  /** Every atom that is read from `t` on leaves `b` and `s` with the same number, and a known one. */
  ghost predicate Carried(g: Graph, lv: seq<nat>, vals: seq<Vals>, b: nat, s: nat, t: nat)
    requires Levelled(g, lv) && b < |vals| && s < |vals| && t < |g|
  {
    forall a: Atom | a in InUse(g, lv, t) :: vals[b][a] == vals[s][a] != 0
  }

  /** What use_conflict finds is enough, if the target computes all it reads itself and knows the numbers of what it
      passes on. */
  lemma NoConflictCarries(es: seq<Expr>, g: Graph, lv: seq<nat>, root: nat, valIn: seq<Vals>, vals: seq<Vals>,
                          oval: seq<nat>, outUse: seq<set<Atom>>, b: nat, e: Edge)
    requires WellNumbered(es, g, lv, root, valIn, vals, oval) && |outUse| == |g| && b < |g|
    requires ValidEdge(g, e) && e.src in Reach(g, lv, root) && Dst(g, e) in Reach(g, lv, root)
    requires outUse[Dst(g, e)] == OutUse(g, lv, Dst(g, e)) && !Conflict(vals, outUse, b, Dst(g, e))
    requires SelfContained(g[Dst(g, e)]) && forall a: Atom | a in OutUse(g, lv, Dst(g, e)) :: vals[Dst(g, e)][a] != 0
    ensures Carried(g, lv, vals, b, e.src, Dst(g, e))
  {
    var t := Dst(g, e);
    assert BlockDone(es, g[t], g[t], valIn[t], vals[t], oval[t]) && Joined(g, lv, root, valIn, vals, t);
    forall a: Atom | a in InUse(g, lv, t) ensures vals[b][a] == vals[e.src][a] != 0 {
      PassesThrough(g[t].stmts, TermUse(g[t].term), OutUse(g, lv, t), a);
      assert valIn[t][a] == vals[t][a];
    }
  }

  // The run that takes an edge

  /** The numbers at the end of a block on the way describe the state there. */
  lemma ExitMatches(es: seq<Expr>, g: Graph, lv: seq<nat>, root: nat, valIn: seq<Vals>, vals: seq<Vals>, oval: seq<nat>,
                    p: Packet, r: Regs, path: seq<Edge>, x: nat)
    requires WellNumbered(es, g, lv, root, valIn, vals, oval) && IsPath(g, root, path, x)
    requires forall f | f in path :: ValidEdge(g, f)
    requires StateAt(g, p, r, path).Some? && x < |g| && ExecAll(g[x].stmts, p, StateAt(g, p, r, path).value).Some?
    ensures x in Reach(g, lv, root)
    ensures Matches(es, vals[x], p, ExecAll(g[x].stmts, p, StateAt(g, p, r, path).value).value)
  {
    NumberingSound(es, g, g, lv, root, valIn, vals, oval, p, r, path, x);
    assert BlockDone(es, g[x], g[x], valIn[x], vals[x], oval[x]);
    MatchesFromOn(es, g[x].stmts, g[x].stmts, valIn[x], vals[x], p, StateAt(g, p, r, path).value);
  }

  /** Where the run took edge `k`, its test went the way of the edge. */
  lemma {:induction false} TookEdge(es: seq<Expr>, g: Graph, lv: seq<nat>, root: nat, valIn: seq<Vals>, vals: seq<Vals>,
                                    oval: seq<nat>, p: Packet, r: Regs, path: seq<Edge>, x: nat, k: Edge)
                                        returns (q: Regs)
    requires WellNumbered(es, g, lv, root, valIn, vals, oval) && IsPath(g, root, path, x)
    requires forall f | f in path :: ValidEdge(g, f)
    requires StateAt(g, p, r, path).Some? && k in path
    ensures ValidEdge(g, k) && k.src in Reach(g, lv, root) && Matches(es, vals[k.src], p, q)
    ensures Holds(g[k.src].term.test, q) == k.dir
    decreases |path|
  {
    var pre, f := path[..|path| - 1], path[|path| - 1];
    assert f in path && ValidEdge(g, f);
    if f == k {
      ExitMatches(es, g, lv, root, valIn, vals, oval, p, r, pre, k.src);
      q := StateAt(g, p, r, path).value;
    } else {
      q := TookEdge(es, g, lv, root, valIn, vals, oval, p, r, pre, f.src, k);
    }
  }

  /** The number of the accumulator at a block's end, and that of its test's operand, are known. */
  predicate KnownTest(b: Block, val: Vals) {
    b.term.Br? && val[A_ATOM] != 0 && (b.term.test.JmpX? ==> val[X_ATOM] != 0)
  }

  /** States that the numbers of two blocks describe are compared alike. */
  lemma NumbersDecide(es: seq<Expr>, g: Graph, vals: seq<Vals>, oval: seq<nat>, s: nat, k: Edge, p: Packet, q: Regs,
                      q1: Regs)
    requires WellFounded(es) && NoDup(es) && |vals| == |oval| == |g| && s < |g| && ValidEdge(g, k)
    requires FoldDir(g, vals, oval, s, k).Some? && KnownTest(g[s], vals[s]) && KnownTest(g[k.src], vals[k.src])
    requires OperandOk(es, g[s].term, vals[s], oval[s]) && OperandOk(es, g[k.src].term, vals[k.src], oval[k.src])
    requires Matches(es, vals[s], p, q) && Matches(es, vals[k.src], p, q1) && Holds(g[k.src].term.test, q1) == k.dir
    ensures Holds(g[s].term.test, q) == FoldDir(g, vals, oval, s, k).value
  {
    assert Den(es, vals[s][A_ATOM], p) == Some(q[A_ATOM]) && Den(es, vals[k.src][A_ATOM], p) == Some(q1[A_ATOM]);
    if g[s].term.test.JmpX? {
      assert Den(es, vals[s][X_ATOM], p) == Some(q[X_ATOM]) && Den(es, vals[k.src][X_ATOM], p) == Some(q1[X_ATOM]);
    }
  }

  /** On every run that takes edge `e`, its target goes to `t`. */
  ghost predicate GoesTo(g: Graph, root: nat, e: Edge, t: nat)
    requires ValidEdge(g, e)
  {
    forall p, r, path, q | ArrivesBy(g, root, path, e, p, r, q) :: LeadsFrom(g, Dst(g, e), p, q, t)
  }

  /** The run from the root comes along `path`, takes `e` and leaves its source in state `q`. */
  ghost predicate ArrivesBy(g: Graph, root: nat, path: seq<Edge>, e: Edge, p: Packet, r: Regs, q: Regs) {
    && ValidEdge(g, e) && IsPath(g, root, path, e.src) && (forall f | f in path + [e] :: ValidEdge(g, f))
    && StateAt(g, p, r, path + [e]) == Some(q)
  }

  /** From state `q` block `s` faults or goes to `t`. */
  ghost predicate LeadsFrom(g: Graph, s: nat, p: Packet, q: Regs, t: nat) {
    && s < |g| && g[s].term.Br?
    && (ExecAll(g[s].stmts, p, q).Some? ==> Succ(g[s], Holds(g[s].term.test, ExecAll(g[s].stmts, p, q).value)) == t)
  }

  /** A block with equal successors goes there. */
  lemma SkipGoes(g: Graph, root: nat, e: Edge)
    requires ValidEdge(g, e) && Dst(g, e) < |g| && g[Dst(g, e)].term.Br? && g[Dst(g, e)].term.jt == g[Dst(g, e)].term.jf
    ensures GoesTo(g, root, e, g[Dst(g, e)].term.jt)
  {
  }

  lemma StateSnoc(g: Graph, p: Packet, r: Regs, path: seq<Edge>, e: Edge)
    requires forall f | f in path + [e] :: ValidEdge(g, f)
    ensures (forall f | f in path :: ValidEdge(g, f)) && ValidEdge(g, e)
    ensures StateAt(g, p, r, path + [e]).Some? ==>
              && StateAt(g, p, r, path).Some?
              && ExecAll(g[e.src].stmts, p, StateAt(g, p, r, path).value) == StateAt(g, p, r, path + [e])
              && Holds(g[e.src].term.test, StateAt(g, p, r, path + [e]).value) == e.dir
  {
    assert (path + [e])[..|path|] == path && (path + [e])[|path|] == e;
    assert e in path + [e] && forall f | f in path :: f in path + [e];
  }

  /** A block decided by an edge that every run takes before goes that way. */
  lemma FoldGoes(es: seq<Expr>, g: Graph, lv: seq<nat>, root: nat, valIn: seq<Vals>, vals: seq<Vals>, oval: seq<nat>,
                 e: Edge, k: Edge)
    requires WellNumbered(es, g, lv, root, valIn, vals, oval) && ValidEdge(g, e) && e.src in Reach(g, lv, root)
    requires Dst(g, e) in Reach(g, lv, root)
    requires k.src in Reach(g, lv, root) && EdgeDominates(g, root, k, e) && FoldEdge(g, vals, oval, Dst(g, e), k).Some?
    requires KnownTest(g[Dst(g, e)], vals[Dst(g, e)]) && KnownTest(g[k.src], vals[k.src])
    ensures GoesTo(g, root, e, FoldEdge(g, vals, oval, Dst(g, e), k).value)
  {
    var s, t := Dst(g, e), FoldEdge(g, vals, oval, Dst(g, e), k).value;
    forall p, r, path, q | ArrivesBy(g, root, path, e, p, r, q) ensures LeadsFrom(g, s, p, q, t) {
      if ExecAll(g[s].stmts, p, q).Some? {
        FoldsHere(es, g, lv, root, valIn, vals, oval, e, k, p, r, path, q);
      }
    }
  }

  lemma FoldsHere(es: seq<Expr>, g: Graph, lv: seq<nat>, root: nat, valIn: seq<Vals>, vals: seq<Vals>, oval: seq<nat>,
                  e: Edge, k: Edge, p: Packet, r: Regs, path: seq<Edge>, q: Regs)
    requires WellNumbered(es, g, lv, root, valIn, vals, oval) && ValidEdge(g, e) && Dst(g, e) in Reach(g, lv, root)
    requires k.src in Reach(g, lv, root) && EdgeDominates(g, root, k, e) && FoldDir(g, vals, oval, Dst(g, e), k).Some?
    requires KnownTest(g[Dst(g, e)], vals[Dst(g, e)]) && KnownTest(g[k.src], vals[k.src])
    requires ArrivesBy(g, root, path, e, p, r, q) && ExecAll(g[Dst(g, e)].stmts, p, q).Some?
    ensures Holds(g[Dst(g, e)].term.test, ExecAll(g[Dst(g, e)].stmts, p, q).value)
            == FoldDir(g, vals, oval, Dst(g, e), k).value
  {
    var s := Dst(g, e);
    PathSnoc(g, root, path, e);
    assert k in path + [e];
    ExitMatches(es, g, lv, root, valIn, vals, oval, p, r, path + [e], s);
    var q1 := TookEdge(es, g, lv, root, valIn, vals, oval, p, r, path + [e], s, k);
    assert BlockDone(es, g[s], g[s], valIn[s], vals[s], oval[s])
        && BlockDone(es, g[k.src], g[k.src], valIn[k.src], vals[k.src], oval[k.src]);
    NumbersDecide(es, g, vals, oval, s, k, p, ExecAll(g[s].stmts, p, q).value, q1);
  }

  // The redirection

  /** From a state in which the run took the edge, the target of its target gives the same result. */
  lemma CarriedOn(es: seq<Expr>, g: Graph, lv: seq<nat>, root: nat, valIn: seq<Vals>, vals: seq<Vals>, oval: seq<nat>,
                  e: Edge, t: nat, p: Packet, r: Regs, path: seq<Edge>, q: Regs)
    requires WellNumbered(es, g, lv, root, valIn, vals, oval) && ValidEdge(g, e) && e.src in Reach(g, lv, root)
    requires Dst(g, e) < |g| && t < |g|
    requires GoesTo(g, root, e, t) && Carried(g, lv, vals, e.src, Dst(g, e), t)
    requires ArrivesBy(g, root, path, e, p, r, q) && Run(g, lv, Dst(g, e), p, q).Return?
    ensures Run(g, lv, t, p, q) == Run(g, lv, Dst(g, e), p, q)
  {
    var s := Dst(g, e);
    StateSnoc(g, p, r, path, e);
    ExitMatches(es, g, lv, root, valIn, vals, oval, p, r, path, e.src);
    PathSnoc(g, root, path, e);
    ExitMatches(es, g, lv, root, valIn, vals, oval, p, r, path + [e], s);
    assert LeadsFrom(g, s, p, q, t);
    var q2 := ExecAll(g[s].stmts, p, q).value;
    assert EdgeDown(g, lv, s, true) && EdgeDown(g, lv, s, false);
    forall a: Atom | a in InUse(g, lv, t) ensures q[a] == q2[a] {
      assert Den(es, vals[e.src][a], p) == Some(q[a]) && Den(es, vals[s][a], p) == Some(q2[a]);
    }
    InUseSound(g, lv, t, p, q, q2);
  }

  /** The run goes on by edge `f`. */
  lemma WalksOn(g: Graph, root: nat, p: Packet, r: Regs, path: seq<Edge>, f: Edge, q: Regs, q1: Regs)
    requires root < |g| && ValidEdge(g, f) && IsPath(g, root, path, f.src) && (forall e | e in path :: ValidEdge(g, e))
    requires StateAt(g, p, r, path) == Some(q)
    requires ExecAll(g[f.src].stmts, p, q) == Some(q1) && Holds(g[f.src].term.test, q1) == f.dir
    ensures (forall e | e in path + [f] :: ValidEdge(g, e)) && IsPath(g, root, path + [f], Dst(g, f))
    ensures StateAt(g, p, r, path + [f]) == Some(q1) && ArrivesBy(g, root, path, f, p, r, q1)
  {
    PathSnoc(g, root, path, f);
    assert (path + [f])[..|path|] == path && (path + [f])[|path|] == f;
  }

  lemma {:induction false} StepRuns(es: seq<Expr>, g: Graph, lv: seq<nat>, root: nat, valIn: seq<Vals>, vals: seq<Vals>,
                                    oval: seq<nat>, e: Edge, t: nat, p: Packet, r: Regs, path: seq<Edge>, x: nat,
                                    q: Regs)
    requires WellNumbered(es, g, lv, root, valIn, vals, oval) && ValidEdge(g, e) && e.src in Reach(g, lv, root)
    requires Dst(g, e) < |g|
    requires t < |g| && lv[t] < lv[e.src] && Levelled(Redirect(g, e, t), lv)
    requires GoesTo(g, root, e, t) && Carried(g, lv, vals, e.src, Dst(g, e), t)
    requires IsPath(g, root, path, x) && x < |g| && (forall f | f in path :: ValidEdge(g, f))
    requires StateAt(g, p, r, path) == Some(q)
    requires Run(g, lv, x, p, q).Return?
    ensures Run(Redirect(g, e, t), lv, x, p, q) == Run(g, lv, x, p, q)
    decreases lv[x]
  {
    var g' := Redirect(g, e, t);
    if g[x].term.Br? {
      var q1 := ExecAll(g[x].stmts, p, q).value;
      var f := Edge(x, Holds(g[x].term.test, q1));
      assert EdgeDown(g, lv, x, f.dir) && EdgeDown(g', lv, x, f.dir);
      WalksOn(g, root, p, r, path, f, q, q1);
      if f == e {
        CarriedOn(es, g, lv, root, valIn, vals, oval, e, t, p, r, path, q1);
        RunBelow(g, g', lv, lv[e.src], t, p, q1);
      } else {
        StepRuns(es, g, lv, root, valIn, vals, oval, e, t, p, r, path + [f], Dst(g, f), q1);
      }
    }
  }

  /** Promoting one edge past its target keeps the result of every run that does not fault, if every atom that is
      read from the new target on leaves the two blocks with the same known number. */
  lemma PromotePreserves(es: seq<Expr>, g: Graph, lv: seq<nat>, root: nat, valIn: seq<Vals>, vals: seq<Vals>,
                         oval: seq<nat>, e: Edge, t: nat)
    requires WellNumbered(es, g, lv, root, valIn, vals, oval) && ValidEdge(g, e) && e.src in Reach(g, lv, root)
    requires Dst(g, e) < |g|
    requires t < |g| && lv[t] < lv[e.src] && GoesTo(g, root, e, t) && Carried(g, lv, vals, e.src, Dst(g, e), t)
    ensures Levelled(Redirect(g, e, t), lv) && Preserves(g, Redirect(g, e, t), lv, lv, root)
  {
    RedirectLevelled(g, lv, e, t);
    forall p, r | Run(g, lv, root, p, r).Return?
      ensures Run(Redirect(g, e, t), lv, root, p, r) == Run(g, lv, root, p, r)
    {
      assert IsPath(g, root, [], root) && StateAt(g, p, r, []) == Some(r);
      StepRuns(es, g, lv, root, valIn, vals, oval, e, t, p, r, [], root, r);
    }
  }

  /** One step of opt_j in any numbered filter: past a block with equal successors, or past one that edge `k`
      decides. It keeps every result that is not a fault if use_conflict finds nothing, the new target computes all it
      reads itself, and the numbers it relies on are known. */
  lemma StepPreserves(es: seq<Expr>, g: Graph, lv: seq<nat>, root: nat, valIn: seq<Vals>, vals: seq<Vals>,
                      oval: seq<nat>, outUse: seq<set<Atom>>, e: Edge, k: Option<Edge>, t: nat)
    requires WellNumbered(es, g, lv, root, valIn, vals, oval) && ValidEdge(g, e) && e.src in Reach(g, lv, root)
    requires Dst(g, e) < |g| && g[Dst(g, e)].term.Br? && t < |g| == |outUse|
    requires k.None? ==> g[Dst(g, e)].term.jt == g[Dst(g, e)].term.jf == t
    requires k.Some? ==> k.value.src in Reach(g, lv, root) && EdgeDominates(g, root, k.value, e)
                         && FoldEdge(g, vals, oval, Dst(g, e), k.value) == Some(t)
                         && KnownTest(g[Dst(g, e)], vals[Dst(g, e)]) && KnownTest(g[k.value.src], vals[k.value.src])
    requires outUse[t] == OutUse(g, lv, t) && !Conflict(vals, outUse, e.src, t)
    requires SelfContained(g[t]) && forall a: Atom | a in OutUse(g, lv, t) :: vals[t][a] != 0
    ensures Levelled(Redirect(g, e, t), lv) && Preserves(g, Redirect(g, e, t), lv, lv, root)
  {
    var s := Dst(g, e);
    var f := Edge(s, k.Some? && FoldDir(g, vals, oval, s, k.value).value);
    ReachClosed(g, lv, root, e);
    ReachClosed(g, lv, root, f);
    assert EdgeDown(g, lv, e.src, e.dir) && EdgeDown(g, lv, s, f.dir);
    if k.Some? { FoldGoes(es, g, lv, root, valIn, vals, oval, e, k.value); } else { SkipGoes(g, root, e); }
    NoConflictCarries(es, g, lv, root, valIn, vals, oval, outUse, e.src, f);
    PromotePreserves(es, g, lv, root, valIn, vals, oval, e, t);
  }
}
