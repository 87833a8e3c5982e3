/** Inputs on which jump threading goes wrong because it relies on what held before the sweep of the same round. */
module ThreadLimits {
  import opened Machine
  import opened Graph
  import opened Levels
  import opened Liveness
  import opened Dominance
  import opened ValueTable
  import opened Numbering
  import opened NumberingPass
  import opened Threading
  import opened Peephole
  import opened BlockPass
  import opened BranchPass
  import opened Optimizer
  import opened PullLimits

  /** The block loads byte `k` and combines it with the constant `x`, and compares the result with `c`. */
  predicate TestsCombined(b: Block, k: Word, op: AluOp, x: Word, c: Word) {
    b.stmts == [LdAbs(B, k), AluK(op, x)] && b.term.Br? && b.term.test == JmpK(Jeq, c)
  }

  lemma CombinedSelfContained(b: Block, k: Word, op: AluOp, x: Word, c: Word)
    requires TestsCombined(b, k, op, x, c)
    ensures SelfContained(b) && Closing(b.stmts) == Some(AluK(op, x))
  {
    assert b.stmts[1..] == [AluK(op, x)] && [AluK(op, x)][1..] == [];
    assert LiveIn([AluK(op, x)], {A_ATOM}) == {A_ATOM};
    assert !b.stmts[0].Nop?;
    assert RealBefore(b.stmts, 1);
    assert EndsIn(b.stmts, 1);
    ClosingIs(b.stmts, 1);
  }

  /** The number is that of byte `k` combined with the constant `x`. */
  ghost predicate Combines(es: seq<Expr>, v: nat, k: Word, op: AluOp, x: Word) {
    && 1 <= v <= |es| && es[v - 1].VAluK? && es[v - 1].op == op
    && Loads(es, es[v - 1].a, k) && IsConst(es, es[v - 1].c, x)
  }

  lemma CombinesOnce(es: seq<Expr>, v: nat, w: nat, k: Word, op: AluOp, x: Word)
    requires NoDup(es) && Combines(es, v, k, op, x) && Combines(es, w, k, op, x)
    ensures v == w
  {
    assert es[v - 1] == es[w - 1];
  }

  lemma CombinedNumber(es: seq<Expr>, ss: seq<Stmt>, vs: seq<Vals>, k: Word, op: AluOp, x: Word)
    requires NamedAlong(es, ss, vs) && |ss| >= 2 && ss[0] == LdAbs(B, k) && ss[1] == AluK(op, x)
    ensures Combines(es, vs[2][A_ATOM], k, op, x)
  {
    assert Named(es, ss[0], vs[0], vs[1]) && Named(es, ss[1], vs[1], vs[2]);
  }

  lemma CombinedNumbered(es: seq<Expr>, b: Block, val0: Vals, val: Vals, k: Word, op: AluOp, x: Word, c: Word)
    requires NamedList(es, b.stmts, val0, val) && TestsCombined(b, k, op, x, c)
    ensures Combines(es, val[A_ATOM], k, op, x)
  {
    var vs :| NamedAlong(es, b.stmts, vs) && vs[0] == val0 && vs[|b.stmts|] == val;
    CombinedNumber(es, b.stmts, vs, k, op, x);
  }

  // A mask compared with 0: the branches change places, the edge dominators do not

  /** Bit 0 of byte 0 is clear, byte 1 is 6, and bit 0 of byte 0 is clear. */
  function Masked(): Graph {
    [ Block([LdAbs(B, 0), AluK(And, 1)], Br(JmpK(Jeq, 0), 1, 4)),
      Block([LdAbs(B, 1)], Br(JmpK(Jeq, 6), 2, 4)),
      Block([LdAbs(B, 0), AluK(And, 1)], Br(JmpK(Jeq, 0), 3, 4)),
      Block([], Ret(1)),
      Block([], Ret(0)) ]
  }

  lemma MaskedShape(g: Graph)
    requires g == Masked()
    ensures Levelled(g, [3, 2, 1, 0, 0]) && AllSelfContained(g) && ReturnsEmpty(g)
    ensures FoldsMask(g[0])
  {
    forall b, d | 0 <= b < 5 && g[b].term.Br? ensures EdgeDown(g, [3, 2, 1, 0, 0], b, d) { }
    CombinedSelfContained(g[0], 0, And, 1, 0);
    CombinedSelfContained(g[2], 0, And, 1, 0);
    TestsByteSelfContained(g[1], 1, Jeq, 6);
    TestsByteSelfContained(g[3], 0, Jeq, 0);
    TestsByteSelfContained(g[4], 0, Jeq, 0);
    forall b | 0 <= b < 5 ensures SelfContained(g[b]) { }
  }

  lemma MaskedReach(g: Graph, h: seq<nat>)
    requires g == Masked() && Levelled(g, h)
    ensures Reach(g, h, 0) == {0, 1, 2, 3, 4} && h[0] > h[1] > h[2]
  {
    assert Reach(g, h, 3) == {3} && Reach(g, h, 4) == {4};
    assert EdgeDown(g, h, 2, true) && EdgeDown(g, h, 2, false);
    assert Reach(g, h, 2) == {2, 3, 4};
    assert EdgeDown(g, h, 1, true) && EdgeDown(g, h, 1, false);
    assert Reach(g, h, 1) == {1, 2, 3, 4};
    assert EdgeDown(g, h, 0, true) && EdgeDown(g, h, 0, false);
  }

  /** How a masked comparison ends after the sweep: as a bit test, with its branches exchanged. */
  lemma MaskTurned(es: seq<Expr>, b: Block, b': Block, val: Vals)
    requires TestsCombined(b, 0, And, 1, 0) && EndKept(es, b, b', val, {}) && Combines(es, val[A_ATOM], 0, And, 1)
    ensures b'.term == Br(JmpK(Jset, 1), b.term.jf, b.term.jt)
  {
    CombinedSelfContained(b, 0, And, 1, 0);
  }

  ghost predicate MaskedSwept(g1: Graph, vals: seq<Vals>, oval: seq<nat>) {
    && |g1| == |vals| == |oval| == 5 && g1[0].term == Br(JmpK(Jset, 1), 4, 1) && g1[1] == Masked()[1]
    && g1[2].term == Br(JmpK(Jset, 1), 4, 3) && g1[3] == Masked()[3] && g1[4] == Masked()[4]
    && vals[0][A_ATOM] == vals[2][A_ATOM] && oval[0] == oval[2]
  }

  lemma MaskedBlocks(g: Graph)
    requires g == Masked()
    ensures TestsCombined(g[0], 0, And, 1, 0) && TestsCombined(g[2], 0, And, 1, 0) && PlainLoad(g[1]) && PlainLoad(g[3])
    ensures PlainLoad(g[4])
  {
    assert TestsByte(g[1], 1, Jeq, 6);
  }

  lemma MaskedSweeps(es: seq<Expr>, g: Graph, g1: Graph, h: seq<nat>, valIn: seq<Vals>, vals: seq<Vals>,
                     oval0: seq<nat>, oval: seq<nat>)
    requires g == Masked() && AllSelfContained(g) && SweptOnce(es, g, g1, h, 0, valIn, vals, oval0, oval)
    requires Reach(g, h, 0) == {0, 1, 2, 3, 4}
    ensures MaskedSwept(g1, vals, oval)
  {
    MaskedBlocks(g);
    MaskedSame(es, g, g1, h, valIn, vals, oval0, oval);
    OtherBlock(es, g, g1, h, valIn, vals, oval0, oval, 1);
    OtherBlock(es, g, g1, h, valIn, vals, oval0, oval, 3);
    OtherBlock(es, g, g1, h, valIn, vals, oval0, oval, 4);
  }

  lemma MaskedSame(es: seq<Expr>, g: Graph, g1: Graph, h: seq<nat>, valIn: seq<Vals>, vals: seq<Vals>, oval0: seq<nat>,
                   oval: seq<nat>)
    requires AllSelfContained(g) && SweptOnce(es, g, g1, h, 0, valIn, vals, oval0, oval) && 0 in Reach(g, h, 0)
    requires 2 in Reach(g, h, 0)
    requires TestsCombined(g[0], 0, And, 1, 0) && TestsCombined(g[2], 0, And, 1, 0)
    ensures g1[0].term == Br(JmpK(Jset, 1), g[0].term.jf, g[0].term.jt)
    ensures g1[2].term == Br(JmpK(Jset, 1), g[2].term.jf, g[2].term.jt)
    ensures vals[0][A_ATOM] == vals[2][A_ATOM] && oval[0] == oval[2]
  {
    MaskedBlock(es, g, g1, h, valIn, vals, oval0, oval, 0);
    MaskedBlock(es, g, g1, h, valIn, vals, oval0, oval, 2);
    CombinesOnce(es, vals[0][A_ATOM], vals[2][A_ATOM], 0, And, 1);
    assert OperandOk(es, g1[0].term, vals[0], oval[0]) && OperandOk(es, g1[2].term, vals[2], oval[2]);
  }

  lemma MaskedBlock(es: seq<Expr>, g: Graph, g1: Graph, h: seq<nat>, valIn: seq<Vals>, vals: seq<Vals>, oval0: seq<nat>,
                    oval: seq<nat>, b: nat)
    requires AllSelfContained(g) && SweptOnce(es, g, g1, h, 0, valIn, vals, oval0, oval) && b in Reach(g, h, 0)
    requires TestsCombined(g[b], 0, And, 1, 0)
    ensures Combines(es, vals[b][A_ATOM], 0, And, 1) && g1[b].term == Br(JmpK(Jset, 1), g[b].term.jf, g[b].term.jt)
  {
    assert Finished(es, g, h, b, g[b], g1[b], valIn[b], vals[b], false);
    NothingUsed(g, h, b);
    assert BlockDone(es, g[b], g[b], valIn[b], vals[b], oval0[b]);
    CombinedNumbered(es, g[b], valIn[b], vals[b], 0, And, 1, 0);
    MaskTurned(es, g[b], g1[b], vals[b]);
  }

  lemma OtherBlock(es: seq<Expr>, g: Graph, g1: Graph, h: seq<nat>, valIn: seq<Vals>, vals: seq<Vals>, oval0: seq<nat>,
                   oval: seq<nat>, b: nat)
    requires AllSelfContained(g) && SweptOnce(es, g, g1, h, 0, valIn, vals, oval0, oval) && b in Reach(g, h, 0)
    requires PlainLoad(g[b])
    ensures g1[b] == g[b]
  {
    assert Finished(es, g, h, b, g[b], g1[b], valIn[b], vals[b], false);
    NothingUsed(g, h, b);
    assert BlockDone(es, g[b], g[b], valIn[b], vals[b], oval0[b]);
    if g[b].term.Br? { PlainBlock(es, g[b], g1[b], valIn[b], vals[b], oval0[b]); }
  }

  /** An edge into a return stays. */
  lemma ReturnKept(g1: Graph, g2: Graph, h: seq<nat>, vals: seq<Vals>, oval: seq<nat>, outUse: seq<set<Atom>>,
                   edom: EdgeSets, e: Edge)
    requires SameCodes(g1, g2) && Settled(g1, g2, h, vals, oval, outUse, edom, e) && g1[Dst(g1, e)].term.Ret?
    ensures Dst(g2, e) == Dst(g1, e)
  {
    assert SameButTargets(g1[Dst(g1, e)], g2[Dst(g1, e)]);
    StaysAt(g2, h, vals, oval, outUse, edom, e, Dst(g1, e));
  }

  /** By the edge sets block 2 is decided by the true edge of block 0, which now leads elsewhere. */
  lemma MaskedThreads(g: Graph, g1: Graph, g2: Graph, h: seq<nat>, vals: seq<Vals>, oval: seq<nat>,
                      outUse: seq<set<Atom>>, edom: EdgeSets)
    requires g == Masked() && Levelled(g, h) && Reach(g, h, 0) == {0, 1, 2, 3, 4} && MaskedSwept(g1, vals, oval)
    requires EdomExactFor(g, h, 0, edom) && ThreadedOnce(g, g1, g2, h, 0, vals, oval, outUse, edom)
    requires |outUse| == 5 && outUse[4] == {}
    ensures g2[1].term.Br? && g2[1].term.jt == 4 && g2[1].term.jf == 4
  {
    var e := Edge(1, true);
    assert Settled(g1, g2, h, vals, oval, outUse, edom, e)
        && Settled(g1, g2, h, vals, oval, outUse, edom, Edge(1, false));
    assert Settled(g1, g2, h, vals, oval, outUse, edom, Edge(2, true));
    ReturnKept(g1, g2, h, vals, oval, outUse, edom, Edge(1, false));
    ReturnKept(g1, g2, h, vals, oval, outUse, edom, Edge(2, true));
    assert Settled(g1, g2, h, vals, oval, outUse, edom, Edge(2, false));
    ReturnKept(g1, g2, h, vals, oval, outUse, edom, Edge(2, false));
    assert SameButTargets(g1[0], g2[0]) && SameButTargets(g1[1], g2[1]) && SameButTargets(g1[2], g2[2])
        && SameButTargets(g1[4], g2[4]);
    FirstMask(g);
    assert Edge(0, true) in edom[e];
    forall f | f in edom[e] && f.src < 5
      ensures FoldEdge(g2, vals, oval, 2, f) in {None, Some(4)} && FoldEdge(g2, vals, oval, 4, f).None?
    {
      MaskedDominator(g, h, f, e);
    }
    MovesOn(g2, h, vals, oval, outUse, edom, e, 2, 4, Edge(0, true));
  }

  /** Every path to block 1 takes edge (0, true), and no other edge of block 0. */
  lemma FirstMask(g: Graph)
    requires g == Masked()
    ensures EdgeDominates(g, 0, Edge(0, true), Edge(1, true))
  {
    forall es | IsPath(g, 0, es, 1) ensures Edge(0, true) in es {
      assert es[|es| - 1] in es && es[|es| - 1] == Edge(0, true);
    }
  }

  lemma MaskedDominator(g: Graph, h: seq<nat>, f: Edge, e: Edge)
    requires g == Masked() && Levelled(g, h) && Reach(g, h, 0) == {0, 1, 2, 3, 4} && e == Edge(1, true) && f.src < 5
    requires EdgeDominates(g, 0, f, e)
    ensures f == e || f == Edge(0, true)
  {
    var es := [Edge(0, true)];
    assert IsPath(g, 0, es[..0], 0) && IsPath(g, 0, es, 1);
  }

  /** Block 0 leads to block 1 or to the rejecting return. */
  lemma MaskedFirst(g: Graph, g1: Graph, g2: Graph, h: seq<nat>, vals: seq<Vals>, oval: seq<nat>,
                    outUse: seq<set<Atom>>, edom: EdgeSets)
    requires g == Masked() && Levelled(g, h) && Reach(g, h, 0) == {0, 1, 2, 3, 4} && MaskedSwept(g1, vals, oval)
    requires EdomExactFor(g, h, 0, edom) && ThreadedOnce(g, g1, g2, h, 0, vals, oval, outUse, edom)
    requires |outUse| == 5 && g2[1].term.Br? && g2[1].term.jt == 4 && g2[1].term.jf == 4
    ensures g2[0].term.Br? && g2[0].term.jt == 4 && g2[0].term.jf in {1, 4}
  {
    var e := Edge(0, false);
    assert Settled(g1, g2, h, vals, oval, outUse, edom, e)
        && Settled(g1, g2, h, vals, oval, outUse, edom, Edge(0, true));
    ReturnKept(g1, g2, h, vals, oval, outUse, edom, Edge(0, true));
    assert SameButTargets(g1[0], g2[0]) && SameButTargets(g1[1], g2[1]) && SameButTargets(g1[4], g2[4]);
    forall k | k in edom[e] && k.src < 5
      ensures FoldEdge(g2, vals, oval, 1, k).None? && FoldEdge(g2, vals, oval, 4, k).None?
    {
      RootDominator(g, h, 0, edom, k, e);
    }
    SkipsAtMost(g2, h, vals, oval, outUse, edom, e, 1);
  }

  lemma RootDominator(g: Graph, h: seq<nat>, root: nat, edom: EdgeSets, k: Edge, e: Edge)
    requires Levelled(g, h) && root < |g| && EdomExactFor(g, h, root, edom) && e.src == root
    requires root in Reach(g, h, root) && k.src < |g| && k in edom[e]
    ensures k == e
  {
    assert EdgeDominates(g, root, k, e) && IsPath(g, root, [], root);
  }

  /** An edge that no dominating edge carries on goes past at most one block. */
  lemma SkipsAtMost(g: Graph, h: seq<nat>, vals: seq<Vals>, oval: seq<nat>, outUse: seq<set<Atom>>, edom: EdgeSets,
                    e: Edge, s: nat)
    requires |vals| == |oval| == |outUse| == |g| && Levelled(g, h) && ValidEdge(g, e) && s < |g| && e in edom
    requires Routed(g, h, vals, oval, outUse, edom, e, s) && g[s].term.Br? && g[s].term.jt < |g|
    requires forall k | k in edom[e] && k.src < |g| ::
             FoldEdge(g, vals, oval, s, k).None? && FoldEdge(g, vals, oval, g[s].term.jt, k).None?
    ensures Dst(g, e) in {s, g[s].term.jt}
  {
    var ts :| Follows(g, h, vals, oval, outUse, edom, e, ts) && ts[0] == Start(g, vals, outUse, e, s)
        && ts[|ts| - 1] == Dst(g, e);
    assert |ts| > 1 ==> DecidedAt(g, vals, oval, outUse, edom, e, ts, 1);
  }

  /** So the filter accepts nothing. */
  lemma MaskedRejects(g2: Graph, h: seq<nat>, p: Packet, r: Regs)
    requires |g2| == 5 && Levelled(g2, h) && g2[4] == Block([], Ret(0))
    requires g2[0].term.Br? && g2[0].term.jt == 4 && g2[0].term.jf in {1, 4} && g2[1].term.Br? && g2[1].term.jt == 4
    requires g2[1].term.jf == 4
    ensures Run(g2, h, 0, p, r).Verdict() == 0
  {
    assert EdgeDown(g2, h, 0, true) && EdgeDown(g2, h, 0, false) && EdgeDown(g2, h, 1, true)
        && EdgeDown(g2, h, 1, false);
    forall q ensures Run(g2, h, 4, p, q) == Return(0) { }
    forall q ensures Run(g2, h, 1, p, q).Verdict() == 0 { }
  }

  lemma MaskedAccepts(g: Graph, h: seq<nat>, p: Packet, r: Regs)
    requires g == Masked() && Levelled(g, h) && p == Packet([0, 6], 2)
    ensures Run(g, h, 0, p, r) == Return(1)
  {
    RunCombined(g, h, 0, 0, And, 1, 0, p, r);
    var r1: Regs := r[A_ATOM := 0][A_ATOM := 0];
    assert BitAnd(0, 1) == 0;
    RunByte(g, h, 1, 1, Jeq, 6, p, r1);
    RunCombined(g, h, 2, 0, And, 1, 0, p, r1[A_ATOM := 6]);
  }

  /** One step of a run through a block that combines a byte with a constant. */
  lemma RunCombined(g: Graph, lv: seq<nat>, x: nat, k: Word, op: AluOp, c: Word, v: Word, p: Packet, r: Regs)
    requires Levelled(g, lv) && x < |g| && TestsCombined(g[x], k, op, c, v) && k < |p.bytes|
    requires Alu(op, ByteAt(p, k), c).Some?
    ensures var r1: Regs := r[A_ATOM := ByteAt(p, k)][A_ATOM := Alu(op, ByteAt(p, k), c).value];
            && ExecAll(g[x].stmts, p, r) == Some(r1)
            && Succ(g[x], r1[A_ATOM] == v) < |g|
            && Run(g, lv, x, p, r) == Run(g, lv, Succ(g[x], r1[A_ATOM] == v), p, r1)
  {
    var r1: Regs := r[A_ATOM := ByteAt(p, k)];
    assert g[x].stmts[1..] == [AluK(op, c)];
    ExecOne(AluK(op, c), p, r1);
    assert EdgeDown(g, lv, x, true) && EdgeDown(g, lv, x, false);
  }

  /** A round over the branches makes a filter reject every packet that accepted some: merging a mask into a
      comparison with 0 exchanges the branches of a block, and the edge dominators found before still say which branch
      led on. */
  method MaskRejectsAll() returns (g2: Graph, ghost h: seq<nat>)
    ensures Levelled(Masked(), h) && Levelled(g2, h) && |g2| == 5
    ensures forall r :: Run(Masked(), h, 0, Packet([0, 6], 2), r) == Return(1)
    ensures forall p, r :: Run(g2, h, 0, p, r).Verdict() == 0
  {
    var g := Masked();
    MaskedShape(g);
    var levels, rootLevel, dom, outUse, edom, g1, vals, oval;
    ghost var valIn, es, oval0;
    levels, rootLevel, dom, outUse, edom, g1, vals, oval, g2, h, valIn, es,
        oval0 := SweepAndThread(g, [3, 2, 1, 0, 0], 0);
    MaskedReach(g, h);
    MaskedSweeps(es, g, g1, h, valIn, vals, oval0, oval);
    NothingUsed(g, h, 4);
    MaskedThreads(g, g1, g2, h, vals, oval, outUse, edom);
    MaskedFirst(g, g1, g2, h, vals, oval, outUse, edom);
    assert SameButTargets(g1[4], g2[4]);
    forall r ensures Run(g, h, 0, Packet([0, 6], 2), r) == Return(1) { MaskedAccepts(g, h, Packet([0, 6], 2), r); }
    forall p, r ensures Run(g2, h, 0, p, r).Verdict() == 0 { MaskedRejects(g2, h, p, r); }
  }

  // A subtraction merged in one block and not in another

  /** Byte 0 less 2 is 3, and byte 0 less 2, moved to the index register and back, is 5. */
  function Merged(): Graph {
    [ Block([LdAbs(B, 0), AluK(Sub, 2)], Br(JmpK(Jeq, 3), 1, 3)),
      Block([LdAbs(B, 0), AluK(Sub, 2), Tax, Txa], Br(JmpK(Jeq, 5), 2, 3)),
      Block([], Ret(1)),
      Block([], Ret(0)) ]
  }

  /** The block of `Merged` that ends in a move. */
  predicate MovesBack(b: Block) {
    b.stmts == [LdAbs(B, 0), AluK(Sub, 2), Tax, Txa] && b.term.Br? && b.term.test == JmpK(Jeq, 5)
  }

  lemma MovedSelfContained(b: Block)
    requires MovesBack(b)
    ensures SelfContained(b) && Closing(b.stmts).None?
  {
    var ss := b.stmts;
    assert ss[1..] == [AluK(Sub, 2), Tax, Txa] && ss[1..][1..] == [Tax, Txa] && ss[1..][1..][1..] == [Txa]
        && ss[1..][1..][1..][1..] == [];
    assert LiveIn([Txa], {A_ATOM}) == {X_ATOM};
    assert LiveIn([Tax, Txa], {A_ATOM}) == {A_ATOM};
    assert LiveIn([AluK(Sub, 2), Tax, Txa], {A_ATOM}) == {A_ATOM};
    forall i: nat ensures !EndsIn(ss, i) {
      assert LastReal(ss, i) ==> i == 3;
    }
  }

  lemma MovedNumbered(es: seq<Expr>, b: Block, val0: Vals, val: Vals)
    requires NamedList(es, b.stmts, val0, val) && MovesBack(b)
    ensures Combines(es, val[A_ATOM], 0, Sub, 2)
  {
    var vs :| NamedAlong(es, b.stmts, vs) && vs[0] == val0 && vs[|b.stmts|] == val;
    CombinedNumber(es, b.stmts, vs, 0, Sub, 2);
    assert Named(es, b.stmts[2], vs[2], vs[3]) && Named(es, b.stmts[3], vs[3], vs[4]);
  }

  lemma MergedShape(g: Graph)
    requires g == Merged()
    ensures Levelled(g, [2, 1, 0, 0]) && AllSelfContained(g) && ReturnsEmpty(g)
    ensures TestsCombined(g[0], 0, Sub, 2, 3) && MovesBack(g[1]) && FoldsSub(g[0]) && !FoldsSub(g[1])
  {
    forall b, d | 0 <= b < 4 && g[b].term.Br? ensures EdgeDown(g, [2, 1, 0, 0], b, d) { }
    CombinedSelfContained(g[0], 0, Sub, 2, 3);
    MovedSelfContained(g[1]);
    TestsByteSelfContained(g[2], 0, Jeq, 0);
    TestsByteSelfContained(g[3], 0, Jeq, 0);
    forall b | 0 <= b < 4 ensures SelfContained(g[b]) { }
  }

  lemma MergedReach(g: Graph, h: seq<nat>)
    requires g == Merged() && Levelled(g, h)
    ensures Reach(g, h, 0) == {0, 1, 2, 3}
  {
    assert Reach(g, h, 2) == {2} && Reach(g, h, 3) == {3};
    assert EdgeDown(g, h, 1, true) && EdgeDown(g, h, 1, false);
    assert Reach(g, h, 1) == {1, 2, 3};
    assert EdgeDown(g, h, 0, true) && EdgeDown(g, h, 0, false);
  }

  ghost predicate MergedSwept(g1: Graph, vals: seq<Vals>, oval: seq<nat>) {
    && |g1| == |vals| == |oval| == 4 && g1[0].term == Br(JmpK(Jeq, 5), 1, 3) && g1[1].term == Br(JmpK(Jeq, 5), 2, 3)
    && g1[2] == Merged()[2] && g1[3] == Merged()[3]
    && vals[0][A_ATOM] == vals[1][A_ATOM] && oval[0] == oval[1]
  }

  lemma MergedSweeps(es: seq<Expr>, g: Graph, g1: Graph, h: seq<nat>, valIn: seq<Vals>, vals: seq<Vals>,
                     oval0: seq<nat>, oval: seq<nat>)
    requires g == Merged() && AllSelfContained(g) && SweptOnce(es, g, g1, h, 0, valIn, vals, oval0, oval)
    requires Reach(g, h, 0) == {0, 1, 2, 3}
    requires TestsCombined(g[0], 0, Sub, 2, 3) && MovesBack(g[1])
    ensures MergedSwept(g1, vals, oval)
  {
    MergedBlocks(es, g, g1, h, valIn, vals, oval0, oval);
    OtherBlock(es, g, g1, h, valIn, vals, oval0, oval, 2);
    OtherBlock(es, g, g1, h, valIn, vals, oval0, oval, 3);
  }

  lemma MergedBlocks(es: seq<Expr>, g: Graph, g1: Graph, h: seq<nat>, valIn: seq<Vals>, vals: seq<Vals>,
                     oval0: seq<nat>, oval: seq<nat>)
    requires AllSelfContained(g) && SweptOnce(es, g, g1, h, 0, valIn, vals, oval0, oval) && 0 in Reach(g, h, 0)
    requires 1 in Reach(g, h, 0)
    requires TestsCombined(g[0], 0, Sub, 2, 3) && MovesBack(g[1])
    ensures g1[0].term == g[0].term.(test := JmpK(Jeq, 5)) && g1[1].term == g[1].term
    ensures vals[0][A_ATOM] == vals[1][A_ATOM] && oval[0] == oval[1]
  {
    MergedBlock(es, g, g1, h, valIn, vals, oval0, oval);
    MovedBlock(es, g, g1, h, valIn, vals, oval0, oval);
    CombinesOnce(es, vals[0][A_ATOM], vals[1][A_ATOM], 0, Sub, 2);
    assert OperandOk(es, g1[0].term, vals[0], oval[0]) && OperandOk(es, g1[1].term, vals[1], oval[1]);
  }

  lemma MergedBlock(es: seq<Expr>, g: Graph, g1: Graph, h: seq<nat>, valIn: seq<Vals>, vals: seq<Vals>, oval0: seq<nat>,
                    oval: seq<nat>)
    requires AllSelfContained(g) && SweptOnce(es, g, g1, h, 0, valIn, vals, oval0, oval) && 0 in Reach(g, h, 0)
    requires TestsCombined(g[0], 0, Sub, 2, 3)
    ensures g1[0].term == g[0].term.(test := JmpK(Jeq, 5)) && Combines(es, vals[0][A_ATOM], 0, Sub, 2)
  {
    assert Finished(es, g, h, 0, g[0], g1[0], valIn[0], vals[0], false);
    NothingUsed(g, h, 0);
    assert BlockDone(es, g[0], g[0], valIn[0], vals[0], oval0[0]);
    CombinedNumbered(es, g[0], valIn[0], vals[0], 0, Sub, 2, 3);
    SubMerged(es, g[0], g1[0], vals[0]);
  }

  lemma SubMerged(es: seq<Expr>, b: Block, b': Block, val: Vals)
    requires TestsCombined(b, 0, Sub, 2, 3) && EndKept(es, b, b', val, {}) && Combines(es, val[A_ATOM], 0, Sub, 2)
    ensures b'.term == b.term.(test := JmpK(Jeq, 5))
  {
    CombinedSelfContained(b, 0, Sub, 2, 3);
  }

  lemma MovedBlock(es: seq<Expr>, g: Graph, g1: Graph, h: seq<nat>, valIn: seq<Vals>, vals: seq<Vals>, oval0: seq<nat>,
                   oval: seq<nat>)
    requires AllSelfContained(g) && SweptOnce(es, g, g1, h, 0, valIn, vals, oval0, oval) && 1 in Reach(g, h, 0)
    requires MovesBack(g[1])
    ensures g1[1].term == g[1].term && Combines(es, vals[1][A_ATOM], 0, Sub, 2)
  {
    assert Finished(es, g, h, 1, g[1], g1[1], valIn[1], vals[1], false);
    NothingUsed(g, h, 1);
    assert BlockDone(es, g[1], g[1], valIn[1], vals[1], oval0[1]);
    MovedNumbered(es, g[1], valIn[1], vals[1]);
    MovedSelfContained(g[1]);
  }

  /** By the numbers both blocks compare the same value with 5, so block 1 is skipped. */
  lemma MergedThreads(g: Graph, g1: Graph, g2: Graph, h: seq<nat>, vals: seq<Vals>, oval: seq<nat>,
                      outUse: seq<set<Atom>>, edom: EdgeSets)
    requires g == Merged() && Levelled(g, h) && Reach(g, h, 0) == {0, 1, 2, 3} && MergedSwept(g1, vals, oval)
    requires EdomExactFor(g, h, 0, edom) && ThreadedOnce(g, g1, g2, h, 0, vals, oval, outUse, edom)
    requires |outUse| == 4 && outUse[2] == {}
    ensures g2[0].term.Br? && g2[0].term.jt == 2 && g2[2] == Block([], Ret(1))
  {
    var e := Edge(0, true);
    assert Settled(g1, g2, h, vals, oval, outUse, edom, e)
        && Settled(g1, g2, h, vals, oval, outUse, edom, Edge(1, true));
    assert Settled(g1, g2, h, vals, oval, outUse, edom, Edge(1, false));
    ReturnKept(g1, g2, h, vals, oval, outUse, edom, Edge(1, true));
    ReturnKept(g1, g2, h, vals, oval, outUse, edom, Edge(1, false));
    assert SameButTargets(g1[0], g2[0]) && SameButTargets(g1[1], g2[1]) && SameButTargets(g1[2], g2[2]);
    forall f | f in edom[e] && f.src < 4
      ensures FoldEdge(g2, vals, oval, 1, f) in {None, Some(2)} && FoldEdge(g2, vals, oval, 2, f).None?
    {
      RootDominator(g, h, 0, edom, f, e);
    }
    assert EdgeDominates(g, 0, e, e);
    MovesOn(g2, h, vals, oval, outUse, edom, e, 1, 2, e);
  }

  lemma MergedRejects(g: Graph, h: seq<nat>, p: Packet, r: Regs)
    requires g == Merged() && Levelled(g, h) && p == Packet([5], 1)
    ensures Run(g, h, 0, p, r) == Return(0)
  {
    RunCombined(g, h, 0, 0, Sub, 2, 3, p, r);
    MovedRuns(g[1], p, r[A_ATOM := 5][A_ATOM := 3]);
    assert EdgeDown(g, h, 1, true) && EdgeDown(g, h, 1, false);
  }

  lemma MovedRuns(b: Block, p: Packet, r: Regs)
    requires MovesBack(b) && p == Packet([5], 1)
    ensures ExecAll(b.stmts, p, r).Some? && ExecAll(b.stmts, p, r).value[A_ATOM] == 3
  {
    var r1: Regs, r2: Regs, r3: Regs := r[A_ATOM := 5], r[A_ATOM := 5][A_ATOM := 3],
        r[A_ATOM := 5][A_ATOM := 3][X_ATOM := 3];
    assert b.stmts == [LdAbs(B, 0)] + ([AluK(Sub, 2)] + ([Tax] + [Txa]));
    assert Exec(LdAbs(B, 0), p, r) == Some(r1) && Exec(AluK(Sub, 2), p, r1) == Some(r2) && Exec(Tax, p, r2) == Some(r3);
    ExecCons(LdAbs(B, 0), [AluK(Sub, 2)] + ([Tax] + [Txa]), p, r);
    ExecCons(AluK(Sub, 2), [Tax] + [Txa], p, r1);
    ExecCons(Tax, [Txa], p, r2);
    ExecOne(Txa, p, r3);
  }

  lemma MergedTaken(g: Graph, h: seq<nat>, p: Packet)
    requires g == Merged() && Levelled(g, h) && p == Packet([5], 1)
    ensures Taken(g, p, Edge(0, true))
  {
    forall r ensures ExecAll(g[0].stmts, p, r).Some? && Holds(g[0].term.test, ExecAll(g[0].stmts, p, r).value) {
      RunCombined(g, h, 0, 0, Sub, 2, 3, p, r);
    }
  }

  /** The branch that the run takes at the root, it takes after the sweep. */
  lemma RootWay(es: seq<Expr>, g: Graph, g1: Graph, h: seq<nat>, valIn: seq<Vals>, vals: seq<Vals>, oval0: seq<nat>,
                p: Packet)
    requires SweptFrom(es, g, g1, h, 0, valIn, vals, oval0) && 0 in Reach(g, h, 0) && g[0].term.Br?
    requires Taken(g, p, Edge(0, true))
    requires g1[0].term.Br? && !Turned(g[0].term, g1[0].term)
    ensures Taken(g1, p, Edge(0, true))
  {
    assert Comes(g, 0, [], 0, p);
    SweptWay(es, g, g1, h, 0, valIn, vals, oval0, 0, p, true);
  }

  lemma MergedSafe(g: Graph)
    requires g == Merged() && Closing(g[0].stmts) == Some(AluK(Sub, 2)) && Closing(g[1].stmts).None?
    ensures forall b | 0 <= b < 4 :: SafeEnd(g[b])
  {
  }

  /** A round over the branches makes a filter accept a packet it rejected: a subtraction is merged into the test of one
      block and not of another, and the numbers found before still say that they compare the same value. */
  method MergeConfusesTests() returns (g2: Graph, ghost h: seq<nat>)
    ensures Levelled(Merged(), h) && Levelled(g2, h) && |g2| == 4
    ensures forall r :: Run(Merged(), h, 0, Packet([5], 1), r) == Return(0)
    ensures forall r :: Run(g2, h, 0, Packet([5], 1), r) == Return(1)
  {
    var g := Merged();
    MergedShape(g);
    var levels, rootLevel, dom, outUse, edom, g1, vals, oval;
    ghost var valIn, es, oval0;
    levels, rootLevel, dom, outUse, edom, g1, vals, oval, g2, h, valIn, es, oval0 := SweepAndThread(g, [2, 1, 0, 0], 0);
    MergedReach(g, h);
    MergedSweeps(es, g, g1, h, valIn, vals, oval0, oval);
    NothingUsed(g, h, 2);
    MergedThreads(g, g1, g2, h, vals, oval, outUse, edom);
    MergedEnds(es, g, g1, g2, h, valIn, vals, oval0);
  }

  lemma MergedEnds(es: seq<Expr>, g: Graph, g1: Graph, g2: Graph, h: seq<nat>, valIn: seq<Vals>, vals: seq<Vals>,
                   oval0: seq<nat>)
    requires g == Merged() && Levelled(g, h) && Reach(g, h, 0) == {0, 1, 2, 3} && SameCodes(g1, g2) && Levelled(g2, h)
    requires |g2| == 4
    requires AllSelfContained(g) && AllSelfContained(g1) && Numbered(es, g, g, h, 0, valIn, vals, oval0, Reach(g, h, 0))
    requires |g1| == 4 && Levelled(g1, h) && AllFinished(es, g, g, g1, h, valIn, vals, false, Reach(g, h, 0))
    requires g1[0].term == Br(JmpK(Jeq, 5), 1, 3) && g2[0].term.Br? && g2[0].term.jt == 2 && g2[2] == Block([], Ret(1))
    ensures forall r :: Run(g, h, 0, Packet([5], 1), r) == Return(0)
    ensures forall r :: Run(g2, h, 0, Packet([5], 1), r) == Return(1)
  {
    var p := Packet([5], 1);
    CombinedSelfContained(g[0], 0, Sub, 2, 3);
    MovedSelfContained(g[1]);
    MergedSafe(g);
    MergedTaken(g, h, p);
    RootWay(es, g, g1, h, valIn, vals, oval0, p);
    assert SameButTargets(g1[0], g2[0]);
    TakenCodes(g1, g2, p, Edge(0, true));
    forall r ensures Run(g, h, 0, p, r) == Return(0) && Run(g2, h, 0, p, r) == Return(1) {
      MergedRejects(g, h, p, r);
      assert EdgeDown(g2, h, 0, true);
    }
  }
}
