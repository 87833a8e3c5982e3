/** Where pulling a test up changes what a filter returns: two filters taken through the branch optimizer. */
module PullLimits {
  import opened Machine
  import opened Graph
  import opened Levels
  import opened Liveness
  import opened Dominance
  import opened ValueTable
  import opened Numbering
  import opened NumberingPass
  import opened Threading
  import opened Pullup
  import opened Peephole
  import opened BlockPass
  import opened Optimizer

  // What the analyses find in filters whose blocks load one byte each

  ghost predicate Loads(es: seq<Expr>, v: nat, k: Word) { 1 <= v <= |es| && es[v - 1] == VAbs(B, k) }

  /** The block tests byte `k` against `c`. */
  predicate TestsByte(b: Block, k: Word, op: JmpOp, c: Word) {
    b.stmts == [LdAbs(B, k)] && b.term.Br? && b.term.test == JmpK(op, c)
  }

  lemma TestsByteSelfContained(b: Block, k: Word, op: JmpOp, c: Word)
    requires TestsByte(b, k, op, c) || (b.stmts == [] && b.term.Ret?)
    ensures SelfContained(b)
  {
    if b.term.Br? {
      assert LiveIn([LdAbs(B, k)][1..], {A_ATOM}) == {A_ATOM};
      assert LiveIn([LdAbs(B, k)], {A_ATOM}) == {};
    }
  }

  /** The numbers at the end of a block that tests a byte are those of the byte and of the constant. */
  ghost predicate ByteNumbers(es: seq<Expr>, b: Block, val: Vals, oval: nat) {
    forall k, op, c | TestsByte(b, k, op, c) :: Loads(es, val[A_ATOM], k) && IsConst(es, oval, c)
  }

  lemma BytesNumbered(es: seq<Expr>, g: Graph, h: seq<nat>, root: nat, valIn: seq<Vals>, vals: seq<Vals>,
                      oval0: seq<nat>, oval: seq<nat>)
    requires Levelled(g, h) && root < |g| && Numbered(es, g, g, h, root, valIn, vals, oval0, Reach(g, h, root))
    requires |oval| == |g| && forall b | 0 <= b < |g| :: OperandOk(es, g[b].term, vals[b], oval[b])
    ensures forall b | b in Reach(g, h, root) :: ByteNumbers(es, g[b], vals[b], oval[b])
  {
    forall b | b in Reach(g, h, root) ensures ByteNumbers(es, g[b], vals[b], oval[b]) {
      assert BlockDone(es, g[b], g[b], valIn[b], vals[b], oval0[b]);
      ByteNumbered(es, g[b], valIn[b], vals[b], oval[b]);
    }
  }

  /** The block tests a byte, in a way that the sweep leaves alone, or returns. */
  ghost predicate PlainLoad(b: Block) {
    || (b.term.Ret? && b.stmts == [])
    || exists k: Word, op, c: Word :: TestsByte(b, k, op, c) && (op == Jset ==> 0 < c < MAX_WORD)
  }

  /** The sweep leaves a filter alone that only tests bytes. */
  lemma PlainStays(es: seq<Expr>, g: Graph, g1: Graph, h: seq<nat>, root: nat, valIn: seq<Vals>, vals: seq<Vals>,
                   oval0: seq<nat>, oval: seq<nat>)
    requires AllSelfContained(g) && SweptOnce(es, g, g1, h, root, valIn, vals, oval0, oval)
    requires forall b | 0 <= b < |g| :: PlainLoad(g[b])
    ensures g1 == g
  {
    forall b | 0 <= b < |g| ensures g1[b] == g[b] {
      if b in Reach(g, h, root) {
        assert Finished(es, g, h, b, g[b], g1[b], valIn[b], vals[b], false);
        NothingUsed(g, h, b);
        assert BlockDone(es, g[b], g[b], valIn[b], vals[b], oval0[b]);
        if g[b].term.Br? { PlainBlock(es, g[b], g1[b], valIn[b], vals[b], oval0[b]); }
      }
    }
  }

  lemma PlainBlock(es: seq<Expr>, b: Block, b': Block, val0: Vals, val: Vals, oval0: nat)
    requires b.term.Br? && PlainLoad(b) && EndKept(es, b, b', val, {}) && NamedList(es, b.stmts, val0, val)
    requires OperandOk(es, b.term, val, oval0)
    ensures b' == b
  {
    var k: Word, op, c: Word :| TestsByte(b, k, op, c) && (op == Jset ==> 0 < c < MAX_WORD);
    ByteNumbered(es, b, val0, val, oval0);
    assert Closing(b.stmts).None?;
    assert ConstIn(es, val[A_ATOM]).None?;
  }

  lemma ByteNumbered(es: seq<Expr>, b: Block, valIn: Vals, val: Vals, oval: nat)
    requires NamedList(es, b.stmts, valIn, val) && OperandOk(es, b.term, val, oval)
    ensures ByteNumbers(es, b, val, oval)
  {
    var vs :| NamedAlong(es, b.stmts, vs) && vs[0] == valIn && vs[|b.stmts|] == val;
    if |b.stmts| == 1 { assert Named(es, b.stmts[0], vs[0], vs[1]); }
  }

  lemma NothingPassedOn(g: Graph, h: seq<nat>, root: nat, outUse: seq<set<Atom>>, vals: seq<Vals>, b: nat, s: nat)
    requires Levelled(g, h) && root < |g| && AllSelfContained(g) && |outUse| == |vals| == |g|
    requires b < |g| && s in Reach(g, h, root) && outUse[s] == OutUse(g, h, s)
    ensures !Conflict(vals, outUse, b, s)
  {
    NothingUsed(g, h, s);
  }

  /** An edge that dominates `e` leaves the same block or a higher one. */
  lemma DominatorAbove(g: Graph, h: seq<nat>, root: nat, k: Edge, e: Edge)
    requires Levelled(g, h) && root < |g| && e.src in Reach(g, h, root) && k.src < |g| && EdgeDominates(g, root, k, e)
    ensures k == e || h[k.src] > h[e.src]
  {
    var es := ReachHasPath(g, h, root, e.src);
    PathAbove(g, h, root, es, e.src);
  }

  /** An edge whose target no dominating edge decides keeps its target. */
  lemma StaysAt(g: Graph, h: seq<nat>, vals: seq<Vals>, oval: seq<nat>, outUse: seq<set<Atom>>, edom: EdgeSets, e: Edge,
                s: nat)
    requires |vals| == |oval| == |outUse| == |g| && Levelled(g, h) && ValidEdge(g, e) && s < |g| && e in edom
    requires Routed(g, h, vals, oval, outUse, edom, e, s) && (g[s].term.Br? ==> g[s].term.jt != g[s].term.jf)
    requires forall k | k in edom[e] && k.src < |g| :: FoldEdge(g, vals, oval, s, k).None?
    ensures Dst(g, e) == s
  {
    assert g[s].term.Br? ==> EdgeDown(g, h, s, true);
    var ts :| Follows(g, h, vals, oval, outUse, edom, e, ts) && ts[0] == Start(g, vals, outUse, e, s)
        && ts[|ts| - 1] == Dst(g, e);
    assert |ts| > 1 ==> DecidedAt(g, vals, oval, outUse, edom, e, ts, 1);
  }

  /** An edge whose target one dominating edge decides, in favour of a block that none decides. */
  lemma MovesOn(g: Graph, h: seq<nat>, vals: seq<Vals>, oval: seq<nat>, outUse: seq<set<Atom>>, edom: EdgeSets, e: Edge,
                s: nat, t: nat, k: Edge)
    requires |vals| == |oval| == |outUse| == |g| && Levelled(g, h) && ValidEdge(g, e) && s < |g| && t < |g| && e in edom
    requires Routed(g, h, vals, oval, outUse, edom, e, s) && g[s].term.Br? && g[s].term.jt != g[s].term.jf
    requires k in edom[e] && k.src < |g| && FoldEdge(g, vals, oval, s, k) == Some(t)
    requires !Conflict(vals, outUse, e.src, t)
    requires forall f | f in edom[e] && f.src < |g| ::
               FoldEdge(g, vals, oval, s, f) in {None, Some(t)} && FoldEdge(g, vals, oval, t, f).None?
    ensures Dst(g, e) == t
  {
    assert EdgeDown(g, h, s, true) && EdgeDown(g, h, e.src, e.dir);
    var ts :| Follows(g, h, vals, oval, outUse, edom, e, ts) && ts[0] == Start(g, vals, outUse, e, s)
        && ts[|ts| - 1] == Dst(g, e);
    assert |ts| > 1 ==> DecidedAt(g, vals, oval, outUse, edom, e, ts, 1);
    assert |ts| > 2 ==> DecidedAt(g, vals, oval, outUse, edom, e, ts, 2);
  }

  lemma EdgeKeeps(g: Graph, g1: Graph, h: seq<nat>, vals: seq<Vals>, oval: seq<nat>, outUse: seq<set<Atom>>,
                  edom: EdgeSets, e: Edge)
    requires SameCodes(g, g1) && Settled(g, g1, h, vals, oval, outUse, edom, e)
    requires g1[Dst(g, e)].term.Br? ==> g1[Dst(g, e)].term.jt != g1[Dst(g, e)].term.jf
    requires forall k | k in edom[e] && k.src < |g| :: FoldEdge(g, vals, oval, Dst(g, e), k).None?
    ensures Dst(g1, e) == Dst(g, e)
  {
    forall k | k in edom[e] && k.src < |g1| ensures FoldEdge(g1, vals, oval, Dst(g, e), k).None? {
      assert SameButTargets(g[k.src], g1[k.src]) && SameButTargets(g[Dst(g, e)], g1[Dst(g, e)]);
    }
    StaysAt(g1, h, vals, oval, outUse, edom, e, Dst(g, e));
  }

  lemma LoadStaysPut(g: Graph, g1: Graph, b: nat)
    requires SameCodes(g, g1) && b < |g|
    requires g[b].term.Br? ==>
               ValidEdge(g1, Edge(b, true)) && Dst(g1, Edge(b, true)) == g[b].term.jt
               && Dst(g1, Edge(b, false)) == g[b].term.jf
    ensures g1[b] == g[b]
  {
    assert SameButTargets(g[b], g1[b]);
  }

  /** A block none of whose branches is decided keeps its branches. */
  lemma BlockStays(g: Graph, g1: Graph, h: seq<nat>, root: nat, vals: seq<Vals>, oval: seq<nat>, outUse: seq<set<Atom>>,
                   edom: EdgeSets, b: nat)
    requires Levelled(g, h) && root < |g| && b in Reach(g, h, root) && g[b].term.Br? && |vals| == |oval| == |g|
    requires EdomExactFor(g, h, root, edom) && SameCodes(g, g1)
    requires AllSettled(g, g1, h, vals, oval, outUse, edom, Reach(g, h, root))
    requires forall d :: Succ(g[b], d) < |g| && Apart(g1[Succ(g[b], d)])
    requires forall d, k: Edge | k.src < |g| && EdgeDominates(g, root, k, Edge(b, d)) ::
             FoldEdge(g, vals, oval, Succ(g[b], d), k).None?
    ensures g1[b] == g[b]
  {
    forall d ensures ValidEdge(g1, Edge(b, d)) && Dst(g1, Edge(b, d)) == Succ(g[b], d) {
      var e := Edge(b, d);
      assert Settled(g, g1, h, vals, oval, outUse, edom, e);
      EdgeKeeps(g, g1, h, vals, oval, outUse, edom, e);
    }
    LoadStaysPut(g, g1, b);
  }

  /** The block does not lead to one block by both its branches. */
  predicate Apart(b: Block) { b.term.Br? ==> b.term.jt != b.term.jf }

  lemma OneListed(es: seq<Edge>, e: Edge)
    requires NoDup(es) && forall f :: f in es <==> f == e
    ensures es == [e]
  {
    assert e in es;
    forall i | 0 <= i < |es| ensures i == 0 && es[i] == e { assert es[i] in es && es[0] in es; }
    assert es[|es| - 1] == e;
  }

  lemma LoadOne(k: Word, p: Packet, r: Regs)
    ensures ExecAll([LdAbs(B, k)], p, r) == if k < |p.bytes| then Some(r[A_ATOM := ByteAt(p, k)]) else None
  {
    ExecOne(LdAbs(B, k), p, r);
  }

  /** One step of a run through a block that tests a byte. */
  lemma RunByte(g: Graph, lv: seq<nat>, x: nat, k: Word, op: JmpOp, c: Word, p: Packet, r: Regs)
    requires Levelled(g, lv) && x < |g| && TestsByte(g[x], k, op, c) && k < |p.bytes|
    ensures var d := Holds(JmpK(op, c), r[A_ATOM := ByteAt(p, k)]);
            && Succ(g[x], d) < |g|
            && Run(g, lv, x, p, r) == Run(g, lv, Succ(g[x], d), p, r[A_ATOM := ByteAt(p, k)])
  {
    LoadOne(k, p, r);
    assert EdgeDown(g, lv, x, Holds(JmpK(op, c), r[A_ATOM := ByteAt(p, k)]));
  }

  // A fault moved behind a branch

  /** Test byte 0, then byte 1, then byte 0 again: the last test is pulled up before the second. */
  function Before(): Graph {
    [ Block([LdAbs(B, 0)], Br(JmpK(Jset, 1), 1, 4)),
      Block([LdAbs(B, 1)], Br(JmpK(Jeq, 5), 3, 2)),
      Block([LdAbs(B, 0)], Br(JmpK(Jeq, 9), 3, 4)),
      Block([], Ret(1)),
      Block([], Ret(0)) ]
  }

  function After(): Graph {
    [ Block([LdAbs(B, 0)], Br(JmpK(Jset, 1), 2, 4)),
      Block([LdAbs(B, 1)], Br(JmpK(Jeq, 5), 3, 4)),
      Block([LdAbs(B, 0)], Br(JmpK(Jeq, 9), 3, 1)),
      Block([], Ret(1)),
      Block([], Ret(0)) ]
  }

  lemma BeforeShape(g: Graph)
    requires g == Before()
    ensures Levelled(g, [3, 2, 1, 0, 0]) && AllSelfContained(g) && ReturnsEmpty(g)
    ensures forall b | 0 <= b < |g| :: PlainLoad(g[b])
  {
    assert TestsByte(g[0], 0, Jset, 1) && TestsByte(g[1], 1, Jeq, 5) && TestsByte(g[2], 0, Jeq, 9);
    forall b, d | 0 <= b < 5 && g[b].term.Br? ensures EdgeDown(g, [3, 2, 1, 0, 0], b, d) { }
    forall b | 0 <= b < 5 ensures SelfContained(g[b]) {
      if b < 3 { TestsByteSelfContained(g[b], g[b].stmts[0].k, g[b].term.test.op, g[b].term.test.k); }
      else { TestsByteSelfContained(g[b], 0, Jeq, 0); }
    }
  }

  lemma BeforeReach(g: Graph, h: seq<nat>)
    requires g == Before() && Levelled(g, h)
    ensures Reach(g, h, 0) == {0, 1, 2, 3, 4}
  {
    assert Reach(g, h, 3) == {3} && Reach(g, h, 4) == {4};
    assert EdgeDown(g, h, 2, true) && EdgeDown(g, h, 2, false);
    assert Reach(g, h, 2) == {2, 3, 4};
    assert EdgeDown(g, h, 1, true) && EdgeDown(g, h, 1, false);
    assert Reach(g, h, 1) == {1, 2, 3, 4};
    assert EdgeDown(g, h, 0, true) && EdgeDown(g, h, 0, false);
  }

  ghost predicate BeforeNumbers(vals: seq<Vals>) {
    |vals| == 5 && vals[0][A_ATOM] == vals[2][A_ATOM] != vals[1][A_ATOM]
  }

  /** No two tests compare the same byte in the same way. */
  lemma BeforeUndecided(g: Graph, h: seq<nat>, vals: seq<Vals>, oval: seq<nat>, e: Edge, k: Edge)
    requires g == Before() && Levelled(g, h) && BeforeNumbers(vals) && |oval| == 5
    requires ValidEdge(g, e) && e.src in Reach(g, h, 0) && k.src < 5 && EdgeDominates(g, 0, k, e) && Dst(g, e) < 5
    ensures FoldEdge(g, vals, oval, Dst(g, e), k).None?
  {
    DominatorAbove(g, h, 0, k, e);
    assert EdgeDown(g, h, e.src, e.dir);
  }

  /** Jump threading changes nothing. */
  lemma BeforeThreaded(g: Graph, g1: Graph, h: seq<nat>, vals: seq<Vals>, oval: seq<nat>, outUse: seq<set<Atom>>,
                       edom: EdgeSets)
    requires g == Before() && Levelled(g, h) && BeforeNumbers(vals) && |oval| == 5 && Reach(g, h, 0) == {0, 1, 2, 3, 4}
    requires EdomExactFor(g, h, 0, edom) && SameCodes(g, g1)
    requires AllSettled(g, g1, h, vals, oval, outUse, edom, Reach(g, h, 0))
    ensures g1 == g
  {
    LoadStaysPut(g, g1, 3);
    LoadStaysPut(g, g1, 4);
    BeforeBlock(g, g1, h, vals, oval, outUse, edom, 2);
    BeforeBlock(g, g1, h, vals, oval, outUse, edom, 1);
    BeforeBlock(g, g1, h, vals, oval, outUse, edom, 0);
  }

  lemma BeforeBlock(g: Graph, g1: Graph, h: seq<nat>, vals: seq<Vals>, oval: seq<nat>, outUse: seq<set<Atom>>,
                    edom: EdgeSets, b: nat)
    requires g == Before() && Levelled(g, h) && BeforeNumbers(vals) && |oval| == 5 && b in Reach(g, h, 0) && b < 3
    requires EdomExactFor(g, h, 0, edom) && SameCodes(g, g1)
    requires AllSettled(g, g1, h, vals, oval, outUse, edom, Reach(g, h, 0))
    requires forall d :: Succ(g[b], d) < 5 && Apart(g1[Succ(g[b], d)])
    ensures g1[b] == g[b]
  {
    forall d, k: Edge | k.src < |g| && EdgeDominates(g, 0, k, Edge(b, d))
      ensures FoldEdge(g, vals, oval, Succ(g[b], d), k).None?
    {
      BeforeUndecided(g, h, vals, oval, Edge(b, d), k);
    }
    BlockStays(g, g1, h, 0, vals, oval, outUse, edom, b);
  }

  lemma BeforeNumbered(g: Graph, vals: seq<Vals>, oval: seq<nat>, es: seq<Expr>)
    requires g == Before() && |vals| == |oval| == 5 && NoDup(es)
    requires forall b | 0 <= b < 5 :: ByteNumbers(es, g[b], vals[b], oval[b])
    ensures BeforeNumbers(vals)
  {
    assert TestsByte(g[0], 0, Jset, 1) && TestsByte(g[1], 1, Jeq, 5) && TestsByte(g[2], 0, Jeq, 9);
    assert ByteNumbers(es, g[0], vals[0], oval[0]) && ByteNumbers(es, g[1], vals[1], oval[1])
        && ByteNumbers(es, g[2], vals[2], oval[2]);
  }

  lemma BeforeDominated(g: Graph, h: seq<nat>, dom: seq<set<nat>>)
    requires g == Before() && Levelled(g, h) && Reach(g, h, 0) == {0, 1, 2, 3, 4} && DomsExact(g, h, 0, dom)
    ensures 1 in dom[1] && 1 in dom[2]
  {
    OnlyWay(g, 0, 1, 2, false);
    assert Dominates(g, 0, 1, 1);
  }

  /** If only `b` leads to `c`, then `b` dominates `c`, and so does what dominates `b`. */
  lemma OnlyWay(g: Graph, root: nat, b: nat, c: nat, d: bool)
    requires c != root && forall e | ValidEdge(g, e) && Dst(g, e) == c :: e == Edge(b, d)
    ensures Dominates(g, root, b, c) && forall a | Dominates(g, root, a, b) :: Dominates(g, root, a, c)
  {
    forall es | IsPath(g, root, es, c)
      ensures !Avoids(es, c, b) && forall a | Dominates(g, root, a, b) :: !Avoids(es, c, a)
    {
      var e := es[|es| - 1];
      assert e in es && e == Edge(b, d) && IsPath(g, root, es[..|es| - 1], b);
      forall a | Dominates(g, root, a, b) ensures !Avoids(es, c, a) {
        assert !Avoids(es[..|es| - 1], b, a);
        assert forall f | f in es[..|es| - 1] :: f in es;
      }
    }
  }

  /** The code makes this move: block 2, which tests byte 0 again, is found behind block 1. */
  lemma BeforeMovable(g: Graph, h: seq<nat>, dom: seq<set<nat>>, vals: seq<Vals>, ins: seq<Edge>)
    requires g == Before() && Levelled(g, h) && BeforeNumbers(vals) && |dom| == 5 && 1 in dom[1] && 1 in dom[2]
    requires ins == [Edge(0, true)]
    ensures Movable(g, h, dom, vals, ins, 1, true) == Some(([1], [2]))
  {
    var val := vals[0][A_ATOM];
    assert Scan(g, h, dom, vals, 1, true, val, false, 1) == Some([1]);
    assert Scan(g, h, dom, vals, 1, true, val, true, 2) == Some([2]);
  }

  lemma BeforePulled(g: Graph, g2: Graph)
    requires g == Before() && Pulled(g, g2, [1, 2], 0, true, {Edge(0, true)})
    ensures g2 == After()
  {
    forall x | 0 <= x < 5 ensures g2[x] == After()[x] {
      assert SameButTargets(g[x], g2[x]);
      if g[x].term.Br? {
        assert Succ(g2[x], true) == PulledSucc(g, [1, 2], 0, true, {Edge(0, true)}, x, true);
        assert Succ(g2[x], false) == PulledSucc(g, [1, 2], 0, true, {Edge(0, true)}, x, false);
      }
    }
  }

  lemma BeforeRejects(g: Graph, h: seq<nat>, r: Regs)
    requires g == Before() && Levelled(g, h)
    ensures Run(g, h, 0, Packet([9], 1), r) == Fault
  {
    var p := Packet([9], 1);
    RunByte(g, h, 0, 0, Jset, 1, p, r);
    assert BitAnd(9, 1) == 1;
    LoadOne(1, p, r[A_ATOM := 9]);
  }

  lemma AfterAccepts(g: Graph, h: seq<nat>, r: Regs)
    requires g == After() && Levelled(g, h)
    ensures Run(g, h, 0, Packet([9], 1), r) == Return(1)
  {
    var p := Packet([9], 1);
    var r1 := r[A_ATOM := 9];
    RunByte(g, h, 0, 0, Jset, 1, p, r);
    assert BitAnd(9, 1) == 1;
    RunByte(g, h, 2, 0, Jeq, 9, p, r1);
  }

  lemma BeforeInEdges(g: Graph, inEdges: seq<seq<Edge>>)
    requires g == Before() && EdgesFrom(g, {0, 1, 2, 3, 4}, inEdges)
    ensures inEdges[1] == [Edge(0, true)]
  {
    OneListed(inEdges[1], Edge(0, true));
  }

  lemma BeforeAnalysed(g: Graph, h: seq<nat>, dom: seq<set<nat>>, vals: seq<Vals>, oval: seq<nat>, es: seq<Expr>)
    requires g == Before() && Levelled(g, h) && DomsExact(g, h, 0, dom) && |vals| == |oval| == 5 && NoDup(es)
    requires forall b | b in Reach(g, h, 0) :: ByteNumbers(es, g[b], vals[b], oval[b])
    ensures Reach(g, h, 0) == {0, 1, 2, 3, 4} && BeforeNumbers(vals) && |oval| == |dom| == 5 && 1 in dom[1]
    ensures 1 in dom[2]
  {
    BeforeReach(g, h);
    BeforeNumbered(g, vals, oval, es);
    BeforeDominated(g, h, dom);
  }

  /** The code makes this move and no other change. */
  lemma BeforeBecomesAfter(g: Graph, g1: Graph, g2: Graph, h: seq<nat>, dom: seq<set<nat>>, outUse: seq<set<Atom>>,
                           edom: EdgeSets, vals: seq<Vals>, oval: seq<nat>, inEdges: seq<seq<Edge>>)
    requires g == Before() && Levelled(g, h) && Reach(g, h, 0) == {0, 1, 2, 3, 4} && EdomExactFor(g, h, 0, edom)
    requires BeforeNumbers(vals) && |oval| == |dom| == 5 && 1 in dom[1] && 1 in dom[2]
    requires SameCodes(g, g1) && AllSettled(g, g1, h, vals, oval, outUse, edom, Reach(g, h, 0))
    requires EdgesFrom(g1, Reach(g, h, 0), inEdges)
    ensures g1 == g && inEdges[1] == [Edge(0, true)]
    ensures Movable(g1, h, dom, vals, inEdges[1], 1, true) == Some(([1], [2]))
    ensures Pulled(g1, g2, [1] + [2], 0, true, Entries(inEdges[1], [1], true)) ==> g2 == After()
  {
    BeforeThreaded(g, g1, h, vals, oval, outUse, edom);
    BeforeInEdges(g1, inEdges);
    BeforeMovable(g1, h, dom, vals, inEdges[1]);
    assert [1] + [2] == [1, 2] && Entries(inEdges[1], [1], true) == {Edge(0, true)};
    if Pulled(g1, g2, [1] + [2], 0, true, Entries(inEdges[1], [1], true)) { BeforePulled(g1, g2); }
  }

  /** The branch optimizer, with its own dominators and value numbers, makes a filter accept a packet that is too short
      for a test the filter started with. */
  method PullupHidesFault() returns (g: Graph, ghost h: seq<nat>)
    ensures g == After() && Levelled(Before(), h) && Levelled(g, [3, 1, 2, 0, 0])
    ensures forall r :: Run(Before(), h, 0, Packet([9], 1), r).Verdict() == 0
    ensures forall r :: Run(g, [3, 1, 2, 0, 0], 0, Packet([9], 1), r).Verdict() == 1
  {
    var g0 := Before();
    BeforeShape(g0);
    var g1, gs, changed, dom, outUse, edom, vals, oval, inEdges;
    ghost var h2, mv, valIn, es, oval0;
    gs, g1, g, changed, dom, outUse, edom, vals, oval, inEdges, h, h2, mv, valIn, es,
        oval0 := ThreadAndPull(g0, [3, 2, 1, 0, 0], 0, 1, true);
    PlainStays(es, g0, gs, h, 0, valIn, vals, oval0, oval);
    BytesNumbered(es, g0, h, 0, valIn, vals, oval0, oval);
    BeforeAnalysed(g0, h, dom, vals, oval, es);
    BeforeBecomesAfter(g0, g1, g, h, dom, outUse, edom, vals, oval, inEdges);
    AfterShape(g);
    forall r ensures Run(g0, h, 0, Packet([9], 1), r).Verdict() == 0 { BeforeRejects(g0, h, r); }
    forall r ensures Run(g, [3, 1, 2, 0, 0], 0, Packet([9], 1), r).Verdict() == 1 {
      AfterAccepts(g, [3, 1, 2, 0, 0], r);
    }
  }

  lemma AfterShape(g: Graph)
    requires g == After()
    ensures Levelled(g, [3, 1, 2, 0, 0])
  {
    forall b, d | 0 <= b < 5 && g[b].term.Br? ensures EdgeDown(g, [3, 1, 2, 0, 0], b, d) { }
  }

  // Dominators from before jump threading

  /** The shape of a filter `not (byte 0 = 1 and byte 5 = 7) and (byte 0 = 2 or byte 1 = 9 or byte 0 > 0)`. */
  function Stale(): Graph {
    [ Block([LdAbs(B, 0)], Br(JmpK(Jeq, 1), 1, 2)),
      Block([LdAbs(B, 5)], Br(JmpK(Jeq, 7), 6, 2)),
      Block([LdAbs(B, 0)], Br(JmpK(Jeq, 2), 5, 3)),
      Block([LdAbs(B, 1)], Br(JmpK(Jeq, 9), 5, 4)),
      Block([LdAbs(B, 0)], Br(JmpK(Jgt, 0), 5, 6)),
      Block([], Ret(1)),
      Block([], Ret(0)) ]
  }

  /** After jump threading: if byte 0 is 1 it is not 2, so block 1 goes past block 2. */
  function StaleThreaded(): Graph { Stale()[1 := Block([LdAbs(B, 5)], Br(JmpK(Jeq, 7), 6, 3))] }

  /** After the pull-up: block 4 stands in front of block 3, but block 1 still goes to block 3. */
  function StalePulled(): Graph {
    [ Block([LdAbs(B, 0)], Br(JmpK(Jeq, 1), 1, 2)),
      Block([LdAbs(B, 5)], Br(JmpK(Jeq, 7), 6, 3)),
      Block([LdAbs(B, 0)], Br(JmpK(Jeq, 2), 5, 4)),
      Block([LdAbs(B, 1)], Br(JmpK(Jeq, 9), 5, 6)),
      Block([LdAbs(B, 0)], Br(JmpK(Jgt, 0), 5, 3)),
      Block([], Ret(1)),
      Block([], Ret(0)) ]
  }

  lemma StaleLevelled(g: Graph)
    requires g == Stale()
    ensures Levelled(g, [5, 4, 3, 2, 1, 0, 0]) && AllSelfContained(g) && ReturnsEmpty(g)
    ensures forall b | 0 <= b < |g| :: PlainLoad(g[b])
  {
    assert TestsByte(g[0], 0, Jeq, 1) && TestsByte(g[1], 5, Jeq, 7) && TestsByte(g[2], 0, Jeq, 2);
    assert TestsByte(g[3], 1, Jeq, 9) && TestsByte(g[4], 0, Jgt, 0);
    forall b, d | 0 <= b < 7 && g[b].term.Br? ensures EdgeDown(g, [5, 4, 3, 2, 1, 0, 0], b, d) { }
    forall b | 0 <= b < 7 ensures SelfContained(g[b]) {
      if b < 5 { TestsByteSelfContained(g[b], g[b].stmts[0].k, g[b].term.test.op, g[b].term.test.k); }
      else { TestsByteSelfContained(g[b], 0, Jeq, 0); }
    }
  }

  lemma StaleReach(g: Graph, h: seq<nat>)
    requires g == Stale() && Levelled(g, h)
    ensures Reach(g, h, 0) == {0, 1, 2, 3, 4, 5, 6}
  {
    assert EdgeDown(g, h, 4, true) && EdgeDown(g, h, 3, false) && EdgeDown(g, h, 2, false) && EdgeDown(g, h, 1, false)
        && EdgeDown(g, h, 0, true);
    assert EdgeDown(g, h, 4, false) && EdgeDown(g, h, 3, true) && EdgeDown(g, h, 2, true) && EdgeDown(g, h, 1, true)
        && EdgeDown(g, h, 0, false);
    assert Reach(g, h, 5) == {5} && Reach(g, h, 6) == {6};
    assert Reach(g, h, 4) == {4, 5, 6};
    assert Reach(g, h, 3) == {3, 4, 5, 6};
    assert Reach(g, h, 2) == {2, 3, 4, 5, 6};
    assert Reach(g, h, 1) == {1, 2, 3, 4, 5, 6};
  }

  /** Blocks 0, 2 and 4 load the same byte; blocks 0 and 2 compare it with different constants. */
  ghost predicate StaleNumbers(vals: seq<Vals>, oval: seq<nat>) {
    && |vals| == |oval| == 7 && vals[0][A_ATOM] == vals[2][A_ATOM] == vals[4][A_ATOM]
    && vals[1][A_ATOM] != vals[0][A_ATOM] && vals[3][A_ATOM] != vals[0][A_ATOM] && vals[1][A_ATOM] != vals[3][A_ATOM]
    && oval[0] != oval[2]
  }

  lemma StaleNumbered(g: Graph, vals: seq<Vals>, oval: seq<nat>, es: seq<Expr>)
    requires g == Stale() && |vals| == |oval| == 7 && NoDup(es)
    requires forall b | 0 <= b < 7 :: ByteNumbers(es, g[b], vals[b], oval[b])
    ensures StaleNumbers(vals, oval)
  {
    assert TestsByte(g[0], 0, Jeq, 1) && TestsByte(g[1], 5, Jeq, 7) && TestsByte(g[2], 0, Jeq, 2);
    assert TestsByte(g[3], 1, Jeq, 9) && TestsByte(g[4], 0, Jgt, 0);
    assert ByteNumbers(es, g[0], vals[0], oval[0]) && ByteNumbers(es, g[1], vals[1], oval[1])
        && ByteNumbers(es, g[2], vals[2], oval[2]);
    assert ByteNumbers(es, g[3], vals[3], oval[3]) && ByteNumbers(es, g[4], vals[4], oval[4]);
  }

  /** In the original filter block 2 is on the only way to blocks 3 and 4. */
  lemma StaleDominated(g: Graph, h: seq<nat>, dom: seq<set<nat>>)
    requires g == Stale() && Levelled(g, h) && Reach(g, h, 0) == {0, 1, 2, 3, 4, 5, 6} && DomsExact(g, h, 0, dom)
    ensures 2 in dom[2] && 2 in dom[3] && 2 in dom[4]
  {
    assert Dominates(g, 0, 2, 2);
    OnlyWay(g, 0, 2, 3, false);
    OnlyWay(g, 0, 3, 4, false);
  }

  lemma StaleOrder(g: Graph, h: seq<nat>)
    requires g == Stale() && Levelled(g, h)
    ensures h[0] > h[1] > h[2] > h[3] > h[4] > h[5] && h[4] > h[6]
  {
    assert EdgeDown(g, h, 4, true) && EdgeDown(g, h, 4, false) && EdgeDown(g, h, 3, false) && EdgeDown(g, h, 2, false);
    assert EdgeDown(g, h, 1, false) && EdgeDown(g, h, 0, true);
  }

  /** No edge but (0, true) decides a block, and that only block 2 for the false edge of block 1. */
  lemma StaleUndecided(g: Graph, h: seq<nat>, vals: seq<Vals>, oval: seq<nat>, e: Edge, s: nat, k: Edge)
    requires g == Stale() && Levelled(g, h) && StaleNumbers(vals, oval) && ValidEdge(g, e) && e.src in Reach(g, h, 0)
    requires k.src < 7 && EdgeDominates(g, 0, k, e) && (s == Dst(g, e) || (e == Edge(1, false) && s == 3))
    requires e == Edge(1, false) && s == 2 ==> k.src != 0
    ensures s < 7 && FoldEdge(g, vals, oval, s, k).None?
  {
    DominatorAbove(g, h, 0, k, e);
    StaleOrder(g, h);
  }

  lemma StaleBlock(g: Graph, g1: Graph, h: seq<nat>, vals: seq<Vals>, oval: seq<nat>, outUse: seq<set<Atom>>,
                   edom: EdgeSets, b: nat)
    requires g == Stale() && Levelled(g, h) && StaleNumbers(vals, oval) && b in Reach(g, h, 0) && b < 5 && b != 1
    requires EdomExactFor(g, h, 0, edom) && SameCodes(g, g1)
    requires AllSettled(g, g1, h, vals, oval, outUse, edom, Reach(g, h, 0))
    requires forall d :: Succ(g[b], d) < 7 && Apart(g1[Succ(g[b], d)])
    ensures g1[b] == g[b]
  {
    forall d, k: Edge | k.src < |g| && EdgeDominates(g, 0, k, Edge(b, d))
      ensures FoldEdge(g, vals, oval, Succ(g[b], d), k).None?
    {
      StaleUndecided(g, h, vals, oval, Edge(b, d), Succ(g[b], d), k);
    }
    BlockStays(g, g1, h, 0, vals, oval, outUse, edom, b);
  }

  /** The false edge of block 1 goes to block 3. */
  lemma StaleMoves(g: Graph, g1: Graph, h: seq<nat>, vals: seq<Vals>, oval: seq<nat>, outUse: seq<set<Atom>>,
                   edom: EdgeSets)
    requires g == Stale() && Levelled(g, h) && StaleNumbers(vals, oval) && 1 in Reach(g, h, 0)
    requires EdomExactFor(g, h, 0, edom) && SameCodes(g, g1)
    requires Settled(g, g1, h, vals, oval, outUse, edom, Edge(1, false))
    requires g1[2] == g[2] && g1[3] == g[3] && !Conflict(vals, outUse, 1, 3)
    ensures Dst(g1, Edge(1, false)) == 3
  {
    var e := Edge(1, false);
    FirstEdge(g);
    forall k | k in edom[e] && k.src < |g1|
      ensures FoldEdge(g1, vals, oval, 2, k) in {None, Some(3)} && FoldEdge(g1, vals, oval, 3, k).None?
    {
      assert SameButTargets(g[k.src], g1[k.src]);
      if k.src != 0 { StaleUndecided(g, h, vals, oval, e, 2, k); }
      StaleUndecided(g, h, vals, oval, e, 3, k);
    }
    assert SameButTargets(g[0], g1[0]);
    assert Edge(0, true) in edom[e];
    assert FoldEdge(g1, vals, oval, 2, Edge(0, true)) == Some(3);
    MovesOn(g1, h, vals, oval, outUse, edom, e, 2, 3, Edge(0, true));
  }

  /** Every path to block 1 takes edge (0, true). */
  lemma FirstEdge(g: Graph)
    requires g == Stale()
    ensures EdgeDominates(g, 0, Edge(0, true), Edge(1, false))
  {
    forall es | IsPath(g, 0, es, 1) ensures Edge(0, true) in es {
      assert es[|es| - 1] in es && es[|es| - 1] == Edge(0, true);
    }
  }

  lemma StaleThreads(g: Graph, g1: Graph, h: seq<nat>, vals: seq<Vals>, oval: seq<nat>, outUse: seq<set<Atom>>,
                     edom: EdgeSets)
    requires g == Stale() && Levelled(g, h) && StaleNumbers(vals, oval) && Reach(g, h, 0) == {0, 1, 2, 3, 4, 5, 6}
    requires EdomExactFor(g, h, 0, edom) && SameCodes(g, g1)
    requires AllSettled(g, g1, h, vals, oval, outUse, edom, Reach(g, h, 0))
    requires |outUse| == 7 && !Conflict(vals, outUse, 1, 3)
    ensures g1 == StaleThreaded()
  {
    LoadStaysPut(g, g1, 5);
    LoadStaysPut(g, g1, 6);
    StaleBlock(g, g1, h, vals, oval, outUse, edom, 4);
    StaleBlock(g, g1, h, vals, oval, outUse, edom, 3);
    StaleBlock(g, g1, h, vals, oval, outUse, edom, 2);
    StaleBlockOne(g, g1, h, vals, oval, outUse, edom);
    StaleBlock(g, g1, h, vals, oval, outUse, edom, 0);
  }

  lemma StaleBlockOne(g: Graph, g1: Graph, h: seq<nat>, vals: seq<Vals>, oval: seq<nat>, outUse: seq<set<Atom>>,
                      edom: EdgeSets)
    requires g == Stale() && Levelled(g, h) && StaleNumbers(vals, oval) && Reach(g, h, 0) == {0, 1, 2, 3, 4, 5, 6}
    requires EdomExactFor(g, h, 0, edom) && SameCodes(g, g1)
    requires AllSettled(g, g1, h, vals, oval, outUse, edom, Reach(g, h, 0))
    requires |outUse| == 7 && !Conflict(vals, outUse, 1, 3) && g1[2] == g[2] && g1[3] == g[3] && g1[6] == g[6]
    ensures g1[1] == StaleThreaded()[1]
  {
    assert Settled(g, g1, h, vals, oval, outUse, edom, Edge(1, false));
    StaleMoves(g, g1, h, vals, oval, outUse, edom);
    assert Settled(g, g1, h, vals, oval, outUse, edom, Edge(1, true));
    forall k | k in edom[Edge(1, true)] && k.src < |g| ensures FoldEdge(g, vals, oval, 6, k).None? { }
    EdgeKeeps(g, g1, h, vals, oval, outUse, edom, Edge(1, true));
    assert SameButTargets(g[1], g1[1]);
  }

  lemma StaleInEdges(g: Graph, inEdges: seq<seq<Edge>>)
    requires g == StaleThreaded() && EdgesFrom(g, {0, 1, 2, 3, 4, 5, 6}, inEdges)
    ensures inEdges[2] == [Edge(0, false)] && Edge(1, false) in inEdges[3]
  {
    OneListed(inEdges[2], Edge(0, false));
  }

  /** With the old dominators the scan runs through blocks 2, 3 and 4. */
  lemma StaleMovable(g: Graph, h: seq<nat>, dom: seq<set<nat>>, vals: seq<Vals>, oval: seq<nat>, ins: seq<Edge>)
    requires g == StaleThreaded() && Levelled(g, h) && StaleNumbers(vals, oval) && |dom| == 7 && 2 in dom[2]
    requires 2 in dom[3] && 2 in dom[4]
    requires ins == [Edge(0, false)]
    ensures Movable(g, h, dom, vals, ins, 2, true) == Some(([2, 3], [4]))
  {
    var val := vals[0][A_ATOM];
    assert Scan(g, h, dom, vals, 2, true, val, false, 3) == Some([3]);
    assert [2] + [3] == [2, 3];
    assert Scan(g, h, dom, vals, 2, true, val, false, 2) == Some([2, 3]);
    assert Scan(g, h, dom, vals, 2, true, val, true, 4) == Some([4]);
  }

  /** The chains that start lower down, which come first, offer nothing to move. */
  lemma StaleNothingBefore(g: Graph, h: seq<nat>, dom: seq<set<nat>>, vals: seq<Vals>, oval: seq<nat>,
                           inEdges: seq<seq<Edge>>, shared: bool)
    requires g == StaleThreaded() && Levelled(g, h) && StaleNumbers(vals, oval) && |dom| == 7
    requires EdgesFrom(g, {0, 1, 2, 3, 4, 5, 6}, inEdges)
    ensures NothingToMove(g, h, dom, vals, inEdges, 3, shared) && NothingToMove(g, h, dom, vals, inEdges, 4, shared)
  {
    assert Edge(2, false) in inEdges[3] && Edge(1, false) in inEdges[3];
    OneListed(inEdges[4], Edge(3, false));
  }

  ghost predicate NothingToMove(g: Graph, h: seq<nat>, dom: seq<set<nat>>, vals: seq<Vals>, inEdges: seq<seq<Edge>>,
                                b: nat, shared: bool) {
    && Levelled(g, h) && b < |g| == |inEdges| == |dom| == |vals| && g[b].term.Br? && inEdges[b] != []
    && inEdges[b][0].src < |g|
    && Movable(g, h, dom, vals, inEdges[b], b, shared).None?
  }

  lemma StalePulls(g: Graph, g2: Graph)
    requires g == StaleThreaded() && Pulled(g, g2, [2, 3, 4], 1, true, {Edge(2, false)})
    ensures g2 == StalePulled()
  {
    forall x | 0 <= x < 7 ensures g2[x] == StalePulled()[x] {
      assert SameButTargets(g[x], g2[x]);
      if g[x].term.Br? {
        assert Succ(g2[x], true) == PulledSucc(g, [2, 3, 4], 1, true, {Edge(2, false)}, x, true);
        assert Succ(g2[x], false) == PulledSucc(g, [2, 3, 4], 1, true, {Edge(2, false)}, x, false);
      }
    }
  }

  lemma StaleAnalysed(g: Graph, h: seq<nat>, dom: seq<set<nat>>, outUse: seq<set<Atom>>, vals: seq<Vals>,
                      oval: seq<nat>, es: seq<Expr>)
    requires g == Stale() && AllSelfContained(g) && Levelled(g, h) && DomsExact(g, h, 0, dom)
    requires |vals| == |oval| == |outUse| == 7 && NoDup(es)
    requires forall b | b in Reach(g, h, 0) :: ByteNumbers(es, g[b], vals[b], oval[b]) && outUse[b] == OutUse(g, h, b)
    ensures Reach(g, h, 0) == {0, 1, 2, 3, 4, 5, 6} && StaleNumbers(vals, oval)
    ensures |dom| == 7 && 2 in dom[2] && 2 in dom[3] && 2 in dom[4] && !Conflict(vals, outUse, 1, 3)
  {
    StaleReach(g, h);
    StaleNumbered(g, vals, oval, es);
    StaleDominated(g, h, dom);
    NothingPassedOn(g, h, 0, outUse, vals, 1, 3);
  }

  lemma StaleBecomesPulled(g: Graph, g1: Graph, g2: Graph, h: seq<nat>, dom: seq<set<nat>>, outUse: seq<set<Atom>>,
                           edom: EdgeSets, vals: seq<Vals>, oval: seq<nat>, inEdges: seq<seq<Edge>>)
    requires g == Stale() && Levelled(g, h) && Reach(g, h, 0) == {0, 1, 2, 3, 4, 5, 6} && EdomExactFor(g, h, 0, edom)
    requires StaleNumbers(vals, oval) && |dom| == |outUse| == 7 && 2 in dom[2] && 2 in dom[3] && 2 in dom[4]
    requires !Conflict(vals, outUse, 1, 3) && Levelled(g1, h)
    requires SameCodes(g, g1) && AllSettled(g, g1, h, vals, oval, outUse, edom, Reach(g, h, 0))
    requires EdgesFrom(g1, Reach(g, h, 0), inEdges)
    ensures g1 == StaleThreaded() && inEdges[2] == [Edge(0, false)] && Edge(1, false) in inEdges[3]
    ensures Movable(g1, h, dom, vals, inEdges[2], 2, true) == Some(([2, 3], [4]))
    ensures Pulled(g1, g2, [2, 3] + [4], 1, true, Entries(inEdges[2], [2, 3], true)) ==> g2 == StalePulled()
  {
    StaleThreads(g, g1, h, vals, oval, outUse, edom);
    StaleInEdges(g1, inEdges);
    StaleMovable(g1, h, dom, vals, oval, inEdges[2]);
    assert [2, 3] + [4] == [2, 3, 4] && Entries(inEdges[2], [2, 3], true) == {Edge(2, false)};
    if Pulled(g1, g2, [2, 3] + [4], 1, true, Entries(inEdges[2], [2, 3], true)) { StalePulls(g1, g2); }
  }

  lemma StaleAccepts(g: Graph, h: seq<nat>, p: Packet, r: Regs)
    requires g == StaleThreaded() && Levelled(g, h) && p == Packet([1, 0, 0, 0, 0, 0], 6)
    ensures Run(g, h, 0, p, r) == Return(1)
  {
    var r1, r0 := r[A_ATOM := 1], r[A_ATOM := 1][A_ATOM := 0];
    RunByte(g, h, 0, 0, Jeq, 1, p, r);
    RunByte(g, h, 1, 5, Jeq, 7, p, r1);
    RunByte(g, h, 3, 1, Jeq, 9, p, r0);
    RunByte(g, h, 4, 0, Jgt, 0, p, r0[A_ATOM := 0]);
  }

  lemma StalePulledRejects(g: Graph, h: seq<nat>, p: Packet, r: Regs)
    requires g == StalePulled() && Levelled(g, h) && p == Packet([1, 0, 0, 0, 0, 0], 6)
    ensures Run(g, h, 0, p, r) == Return(0)
  {
    var r1, r0 := r[A_ATOM := 1], r[A_ATOM := 1][A_ATOM := 0];
    RunByte(g, h, 0, 0, Jeq, 1, p, r);
    RunByte(g, h, 1, 5, Jeq, 7, p, r1);
    RunByte(g, h, 3, 1, Jeq, 9, p, r0);
  }

  lemma StaleFilterAccepts(g: Graph, h: seq<nat>, p: Packet, r: Regs)
    requires g == Stale() && Levelled(g, h) && p == Packet([1, 0, 0, 0, 0, 0], 6)
    ensures Run(g, h, 0, p, r) == Return(1)
  {
    var r1, r0 := r[A_ATOM := 1], r[A_ATOM := 1][A_ATOM := 0];
    RunByte(g, h, 0, 0, Jeq, 1, p, r);
    RunByte(g, h, 1, 5, Jeq, 7, p, r1);
    RunByte(g, h, 2, 0, Jeq, 2, p, r0);
    RunByte(g, h, 3, 1, Jeq, 9, p, r0[A_ATOM := 1]);
    RunByte(g, h, 4, 0, Jgt, 0, p, r0[A_ATOM := 1][A_ATOM := 0]);
  }

  /** The branch optimizer uses the dominators of the graph it was given on the graph it has threaded. On this filter,
      whose packet has no load out of range, that turns an accepted packet into a rejected one. */
  method PullupWithStaleDominators()
    returns (g: Graph, dom: seq<set<nat>>, vals: seq<Vals>, inEdges: seq<seq<Edge>>, ghost h: seq<nat>,
             ghost h2: seq<nat>)
    ensures g == StalePulled() && Levelled(Stale(), h) && Levelled(StaleThreaded(), h) && Levelled(g, h2)
    ensures EdgesFrom(StaleThreaded(), Reach(Stale(), h, 0), inEdges) && !EnteredAtTop(inEdges, [2, 3, 4], true)
    ensures DomsExact(Stale(), h, 0, dom)
    ensures forall b, shared | b in {3, 4} :: NothingToMove(StaleThreaded(), h, dom, vals, inEdges, b, shared)
    ensures forall r :: Run(Stale(), h, 0, Packet([1, 0, 0, 0, 0, 0], 6), r) == Return(1)
    ensures forall r :: Run(StaleThreaded(), h, 0, Packet([1, 0, 0, 0, 0, 0], 6), r) == Return(1)
    ensures forall r :: Run(g, h2, 0, Packet([1, 0, 0, 0, 0, 0], 6), r) == Return(0)
  {
    var g0 := Stale();
    StaleLevelled(g0);
    var g1, gs, changed, outUse, edom, oval;
    ghost var mv, valIn, es, oval0;
    gs, g1, g, changed, dom, outUse, edom, vals, oval, inEdges, h, h2, mv, valIn, es,
        oval0 := ThreadAndPull(g0, [5, 4, 3, 2, 1, 0, 0], 0, 2, true);
    PlainStays(es, g0, gs, h, 0, valIn, vals, oval0, oval);
    BytesNumbered(es, g0, h, 0, valIn, vals, oval0, oval);
    StaleAnalysed(g0, h, dom, outUse, vals, oval, es);
    StaleBecomesPulled(g0, g1, g, h, dom, outUse, edom, vals, oval, inEdges);
    assert !EnteredFromPrevious(inEdges, [2, 3, 4], true, 1);
    StaleNothingBefore(g1, h, dom, vals, oval, inEdges, true);
    StaleNothingBefore(g1, h, dom, vals, oval, inEdges, false);
    ghost var p := Packet([1, 0, 0, 0, 0, 0], 6);
    forall r
      ensures Run(g0, h, 0, p, r) == Return(1) && Run(g1, h, 0, p, r) == Return(1) && Run(g, h2, 0, p, r) == Return(0)
    {
      StaleFilterAccepts(g0, h, p, r);
      StaleAccepts(g1, h, p, r);
      StalePulledRejects(g, h2, p, r);
    }
  }
}
