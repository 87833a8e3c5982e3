/** Jump threading after the sweep over the blocks, with the numbers and edge dominators found before it (opt_blks). */
module BranchPass {
  import opened Machine
  import opened Graph
  import opened Levels
  import opened Liveness
  import opened Dominance
  import opened ValueTable
  import opened Numbering
  import opened NumberingPass
  import opened Threading
  import opened Peephole
  import opened BlockPass
  import opened Sweep

  // How the sweep changes a test

  predicate IsSub(s: Stmt) { s == AluX(Sub) || (s.AluK? && s.op == Sub) }

  /** The comparison at the end of the block is merged with the subtraction before it. */
  ghost predicate FoldsSub(b: Block) {
    && b.term.Br? && b.term.test.JmpK? && b.term.test.op == Jeq
    && Closing(b.stmts).Some? && IsSub(Closing(b.stmts).value)
  }

  /** The comparison at the end of the block is merged with the mask before it, and its branches change places. */
  ghost predicate FoldsMask(b: Block) {
    && b.term.Br? && b.term.test == JmpK(Jeq, 0)
    && Closing(b.stmts).Some? && Closing(b.stmts).value.AluK? && Closing(b.stmts).value.op == And
  }

  /** Blocks that compare the same value for equality all end in a subtraction, or none does. */
  ghost predicate AlikeEnds(g: Graph, vals: seq<Vals>, blocks: set<nat>)
    requires |vals| == |g|
  {
    forall b, c | b in blocks && c in blocks && b < |g| && c < |g| && TestsEqual(g[b]) && TestsEqual(g[c]) ::
      vals[b][A_ATOM] == vals[c][A_ATOM] ==> FoldsSub(g[b]) == FoldsSub(g[c])
  }

  ghost predicate TestsEqual(b: Block) { b.term.Br? && b.term.test.op == Jeq }

  /** Only merging with a mask turns a test round. */
  lemma NotTurned(b: Block, constX: Option<Word>, constA: Option<Word>)
    requires b.term.Br? && !FoldsMask(b)
    ensures !Turned(b.term, PeepTerm(b, {}, constX, constA))
  {
  }

  // What the numbers still say

  /** The constant that was compared with the difference numbered `n`, if the difference's minuend is compared with
      `m`. */
  ghost function Unfolded(es: seq<Expr>, n: nat, m: Word): Word {
    if !(1 <= n <= |es|) then m
    else
      match es[n - 1]
      case VAluK(_, _, c) => if Constant(es, c) then Wrap(m - es[c - 1].k) else m
      case VAluX(_, _, x) => if Constant(es, x) then Wrap(m - es[x - 1].k) else m
      case _ => m
  }

  /** Whether a test holds, by the number its block leaves in the accumulator and the number of the test's operand. */
  ghost predicate Reading(es: seq<Expr>, n: nat, folds: bool, op: JmpOp, isK: bool, oval: nat, p: Packet)
    requires WellFounded(es) && Den(es, n, p).Some? && (!folds ==> Den(es, oval, p).Some?)
    requires isK ==> Constant(es, oval)
  {
    var v := Den(es, n, p).value;
    if !folds then Compare(op, v, Den(es, oval, p).value)
    else if isK then v == Unfolded(es, n, es[oval - 1].k)
    else v == 0
  }

  /** The number of the accumulator is that of a difference, as the subtraction makes it. */
  ghost predicate SubNamed(es: seq<Expr>, s: Stmt, val: Vals) {
    var n := val[A_ATOM];
    && 1 <= n <= |es|
    && (s.AluK? ==> es[n - 1].VAluK? && IsConst(es, es[n - 1].c, s.k))
    && (s.AluX? ==> es[n - 1].VAluX? && es[n - 1].x == val[X_ATOM])
  }

  /** The number of the accumulator names the subtraction that ends the block. */
  lemma ClosingNamed(es: seq<Expr>, ss: seq<Stmt>, val0: Vals, val: Vals)
    requires NamedList(es, ss, val0, val) && Closing(ss).Some? && IsSub(Closing(ss).value)
    ensures SubNamed(es, Closing(ss).value, val)
  {
    var vs :| NamedAlong(es, ss, vs) && vs[0] == val0 && vs[|ss|] == val;
    var i: nat :| EndsIn(ss, i);
    ClosingIs(ss, i);
    assert Named(es, ss[i], vs[i], vs[i + 1]);
    NopsKeepNumbers(es, ss, vs, i + 1, |ss|);
  }

  lemma SubRight(v: Word, k: Word, x: Word)
    ensures v == k <==> v == Wrap(Wrap(k + x) - x)
  {
  }

  lemma UnfoldedDiffers(es: seq<Expr>, n: nat, m: Word, m': Word)
    requires m != m'
    ensures Unfolded(es, n, m) != Unfolded(es, n, m')
  {
  }

  /** What the numbers of a block say about the test it ended with, in terms of the test it ends with after the
      sweep. */
  lemma ReadTruth(es: seq<Expr>, b: Block, val0: Vals, val: Vals, oval0: nat, t: Term, oval: nat, p: Packet, r: Regs)
    requires WellFounded(es) && NamedList(es, b.stmts, val0, val) && ExitOk(es, b, val, oval0) && b.term.Br?
    requires !FoldsMask(b)
    requires t == PeepTerm(b, {}, ConstIn(es, val[X_ATOM]), ConstIn(es, val[A_ATOM])) && OperandOk(es, t, val, oval)
    requires ExecAll(b.stmts, p, r).Some?
    ensures Den(es, val[A_ATOM], p).Some? && (t.test.JmpK? ==> Constant(es, oval))
    ensures !FoldsSub(b) ==> Den(es, oval, p).Some?
    ensures Holds(b.term.test, ExecAll(b.stmts, p, r).value)
            == Reading(es, val[A_ATOM], FoldsSub(b), t.test.op, t.test.JmpK?, oval, p)
  {
    var q := ExecAll(b.stmts, p, r).value;
    assert MatchesOn(es, val, TermUse(b.term), p, q) && A_ATOM in TermUse(b.term);
    if FoldsSub(b) {
      ClosingNamed(es, b.stmts, val0, val);
      FoldedTruth(es, b.term, Closing(b.stmts).value, val, t, oval, q[A_ATOM]);
    } else {
      assert b.stmts != [] ==> MergedTerm(b.term, Closing(b.stmts), false, ConstIn(es, val[X_ATOM])) == b.term;
      PlainTruth(es, b.term, val, t, oval, p, q);
    }
  }

  /** A test that is merged with a subtraction. */
  lemma FoldedTruth(es: seq<Expr>, t0: Term, s: Stmt, val: Vals, t: Term, oval: nat, v: Word)
    requires t0.Br? && t0.test.JmpK? && t0.test.op == Jeq && IsSub(s) && SubNamed(es, s, val)
    requires var constX := ConstIn(es, val[X_ATOM]);
             t == FoldA(FoldX(FoldJset(MergedTerm(t0, Some(s), false, constX)), constX), ConstIn(es, val[A_ATOM]))
    requires OperandOk(es, t, val, oval)
    ensures t.test.op == Jeq && (t.test.JmpK? ==> Constant(es, oval))
    ensures v == t0.test.k <==> if t.test.JmpK? then v == Unfolded(es, val[A_ATOM], es[oval - 1].k) else v == 0
  {
    if s.AluK? {
      SubRight(v, t0.test.k, s.k);
    } else if Constant(es, val[X_ATOM]) {
      SubRight(v, t0.test.k, es[val[X_ATOM] - 1].k);
    }
  }

  /** A test that stays as it is, but for a known X. */
  lemma PlainTruth(es: seq<Expr>, t0: Term, val: Vals, t: Term, oval: nat, p: Packet, q: Regs)
    requires WellFounded(es) && t0.Br? && MatchesOn(es, val, TermUse(t0), p, q)
    requires t == t0 || t == FoldA(FoldX(FoldJset(t0), ConstIn(es, val[X_ATOM])), ConstIn(es, val[A_ATOM]))
    requires OperandOk(es, t, val, oval)
    ensures Den(es, val[A_ATOM], p) == Some(q[A_ATOM]) && (t.test.JmpK? ==> Constant(es, oval))
    ensures Den(es, oval, p).Some?
    ensures Holds(t0.test, q) == Compare(t.test.op, q[A_ATOM], Den(es, oval, p).value)
  {
    assert A_ATOM in TermUse(t0) && (t0.test.JmpX? ==> X_ATOM in TermUse(t0));
    assert t0.test.JmpX? ==> Den(es, val[X_ATOM], p) == Some(q[X_ATOM]);
  }

  /** Two tests that the numbers compare alike. */
  lemma ReadingDecides(es: seq<Expr>, n: nat, folds: bool, op: JmpOp, isK: bool, o: nat, o': nat, p: Packet)
    requires WellFounded(es) && NoDup(es) && Den(es, n, p).Some?
    requires !folds ==> Den(es, o, p).Some? && Den(es, o', p).Some?
    requires isK ==> Constant(es, o) && Constant(es, o')
    ensures o == o' ==> Reading(es, n, folds, op, isK, o, p) == Reading(es, n, folds, op, isK, o', p)
    ensures o != o' && op == Jeq && isK && Reading(es, n, folds, op, isK, o, p) ==>
              !Reading(es, n, folds, op, isK, o', p)
  {
    if o != o' && isK {
      assert es[o - 1] != es[o' - 1];
      UnfoldedDiffers(es, n, es[o - 1].k, es[o' - 1].k);
    }
  }

  // The runs of the swept graph

  /** The graph after a sweep over the branches only, all of whose rewritings are safe. */
  ghost predicate SweptFrom(es: seq<Expr>, g: Graph, g': Graph, lv: seq<nat>, root: nat, valIn: seq<Vals>,
                            vals: seq<Vals>, oval0: seq<nat>) {
    && Levelled(g, lv) && root < |g| && AllSelfContained(g) && AllSelfContained(g')
    && Numbered(es, g, g, lv, root, valIn, vals, oval0, Reach(g, lv, root))
    && |g'| == |g| && Levelled(g', lv) && AllFinished(es, g, g, g', lv, valIn, vals, false, Reach(g, lv, root))
    && forall b | b in Reach(g, lv, root) :: SafeEnd(g[b])
  }

  lemma {:induction false} ComesState(g: Graph, root: nat, path: seq<Edge>, x: nat, p: Packet, r: Regs)
    requires Comes(g, root, path, x, p)
    ensures (forall e | e in path :: ValidEdge(g, e)) && StateAt(g, p, r, path).Some?
    decreases |path|
  {
    if path != [] {
      var f := path[|path| - 1];
      ComesState(g, root, path[..|path| - 1], f.src, p, r);
      assert Taken(g, p, f);
    }
  }

  /** A state in which the run of `p` may come to the block: the rewritten block does the same from it. */
  lemma VisitedKept(es: seq<Expr>, g: Graph, g': Graph, lv: seq<nat>, root: nat, valIn: seq<Vals>, vals: seq<Vals>,
                    oval0: seq<nat>, b: nat, p: Packet) returns (r: Regs)
    requires SweptFrom(es, g, g', lv, root, valIn, vals, oval0) && b in Reach(g, lv, root) && Visits(g, root, p, b)
    ensures g'[b].term.Br? == g[b].term.Br? && KeptOn(g[b], g'[b], {}, p, r, false)
  {
    var path :| Comes(g, root, path, b, p);
    ComesState(g, root, path, b, p, ZeroRegs());
    r := StateAt(g, p, ZeroRegs(), path).value;
    SelfContainedKnown(g, lv, root, valIn);
    NumberingSound(es, g, g, lv, root, valIn, vals, oval0, p, ZeroRegs(), path, b);
    NothingUsed(g, lv, b);
    assert Finished(es, g, lv, b, g[b], g'[b], valIn[b], vals[b], false) && SafeEnd(g[b]);
    assert KeptOn(g[b], g'[b], {}, p, r, Hit(g[b], valIn[b], vals[b], {}, false, p, r));
  }

  /** On a packet whose run visits the block, the rewritten block does not fault. */
  lemma SweptFine(es: seq<Expr>, g: Graph, g': Graph, lv: seq<nat>, root: nat, valIn: seq<Vals>, vals: seq<Vals>,
                  oval0: seq<nat>, b: nat, p: Packet)
    requires SweptFrom(es, g, g', lv, root, valIn, vals, oval0) && b in Reach(g, lv, root) && Visits(g, root, p, b)
    ensures Fine(g', p, b)
  {
    var r := VisitedKept(es, g, g', lv, root, valIn, vals, oval0, b, p);
    assert SelfContained(g'[b]);
    forall r' ensures ExecAll(g'[b].stmts, p, r').Some? { SelfContainedTest(g'[b], p, r, r'); }
  }

  /** And it goes to the same successor, by the same branch unless its test is turned round. */
  lemma SweptWay(es: seq<Expr>, g: Graph, g': Graph, lv: seq<nat>, root: nat, valIn: seq<Vals>, vals: seq<Vals>,
                 oval0: seq<nat>, b: nat, p: Packet, d: bool)
    requires SweptFrom(es, g, g', lv, root, valIn, vals, oval0) && b in Reach(g, lv, root) && Visits(g, root, p, b)
    requires g[b].term.Br? && Taken(g, p, Edge(b, d))
    ensures g'[b].term.Br?
    ensures var d' := d != Turned(g[b].term, g'[b].term); Taken(g', p, Edge(b, d')) && Succ(g'[b], d') == Succ(g[b], d)
  {
    var r := VisitedKept(es, g, g', lv, root, valIn, vals, oval0, b, p);
    assert SelfContained(g'[b]);
    forall r'
      ensures ExecAll(g'[b].stmts, p, r').Some?
      ensures Holds(g'[b].term.test, ExecAll(g'[b].stmts, p, r').value) == (d != Turned(g[b].term, g'[b].term))
    {
      SelfContainedTest(g'[b], p, r, r');
    }
  }

  /** How the block ends, when nothing is used after it. */
  lemma SweptEnd(es: seq<Expr>, g: Graph, g': Graph, lv: seq<nat>, root: nat, valIn: seq<Vals>, vals: seq<Vals>,
                 oval0: seq<nat>, b: nat)
    requires SweptFrom(es, g, g', lv, root, valIn, vals, oval0) && b in Reach(g, lv, root) && g[b].term.Br?
    ensures g'[b].term == PeepTerm(g[b], {}, ConstIn(es, vals[b][X_ATOM]), ConstIn(es, vals[b][A_ATOM]))
    ensures g'[b].term.Br? && (!FoldsMask(g[b]) ==> !Turned(g[b].term, g'[b].term))
  {
    NothingUsed(g, lv, b);
    assert Finished(es, g, lv, b, g[b], g'[b], valIn[b], vals[b], false);
    if !FoldsMask(g[b]) { NotTurned(g[b], ConstIn(es, vals[b][X_ATOM]), ConstIn(es, vals[b][A_ATOM])); }
  }

  /** Where the run of `p` in `g` comes, an edge that it takes in `g'` it takes in `g`. */
  ghost predicate SameWay(g: Graph, g': Graph, lv: seq<nat>, root: nat, p: Packet)
    requires Levelled(g, lv) && root < |g|
  {
    forall f: Edge | f.src in Reach(g, lv, root) && Visits(g, root, p, f.src) && ValidEdge(g', f) && Taken(g', p, f) ::
      ValidEdge(g, f) && Taken(g, p, f) && Dst(g', f) == Dst(g, f)
  }

  /** The way a packet takes through the one graph, it takes through the other. */
  lemma {:induction false} SamePath(g: Graph, g': Graph, lv: seq<nat>, root: nat, path: seq<Edge>, x: nat, p: Packet)
    requires Levelled(g, lv) && root < |g| == |g'| && AllSelfContained(g) && Answers(g, lv, root, p)
    requires SameWay(g, g', lv, root, p)
    requires Comes(g', root, path, x, p)
    ensures Comes(g, root, path, x, p) && x in Reach(g, lv, root) && Visits(g, root, p, x)
    decreases |path|
  {
    if path != [] {
      var pre, f := path[..|path| - 1], path[|path| - 1];
      SamePath(g, g', lv, root, pre, f.src, p);
      assert ValidEdge(g, f) && Taken(g, p, f);
      ComesOn(g, root, pre, f, p);
      assert path == pre + [f];
      ReachClosed(g, lv, root, f);
    }
    ComesThere(g, lv, root, path, x, p);
  }

  lemma ComesThere(g: Graph, lv: seq<nat>, root: nat, path: seq<Edge>, x: nat, p: Packet)
    requires Levelled(g, lv) && root < |g| && AllSelfContained(g) && Comes(g, root, path, x, p)
    requires Answers(g, lv, root, p)
    ensures Visits(g, root, p, x)
  {
    assert SelfContained(g[x]);
    ComesFine(g, lv, root, path, x, p);
  }

  /** The way a packet takes through the swept graph, it takes through the original. */
  lemma SweptPath(es: seq<Expr>, g: Graph, g': Graph, lv: seq<nat>, root: nat, valIn: seq<Vals>, vals: seq<Vals>,
                  oval0: seq<nat>, path: seq<Edge>, x: nat, p: Packet)
    requires SweptFrom(es, g, g', lv, root, valIn, vals, oval0)
    requires forall b | b in Reach(g, lv, root) :: !FoldsMask(g[b])
    requires Answers(g, lv, root, p) && Comes(g', root, path, x, p)
    ensures Comes(g, root, path, x, p) && x in Reach(g, lv, root) && Visits(g, root, p, x)
  {
    forall f: Edge | f.src in Reach(g, lv, root) && Visits(g, root, p, f.src) && ValidEdge(g', f) && Taken(g', p, f)
      ensures ValidEdge(g, f) && Taken(g, p, f) && Dst(g', f) == Dst(g, f)
    {
      SweptEdge(es, g, g', lv, root, valIn, vals, oval0, f, p);
    }
    SamePath(g, g', lv, root, path, x, p);
  }

  lemma SweptEdge(es: seq<Expr>, g: Graph, g': Graph, lv: seq<nat>, root: nat, valIn: seq<Vals>, vals: seq<Vals>,
                  oval0: seq<nat>, f: Edge, p: Packet)
    requires SweptFrom(es, g, g', lv, root, valIn, vals, oval0) && f.src in Reach(g, lv, root)
    requires Visits(g, root, p, f.src)
    requires ValidEdge(g', f) && Taken(g', p, f) && !FoldsMask(g[f.src])
    ensures ValidEdge(g, f) && Taken(g, p, f) && Dst(g', f) == Dst(g, f) < |g|
  {
    assert Finished(es, g, lv, f.src, g[f.src], g'[f.src], valIn[f.src], vals[f.src], false);
    assert SelfContained(g[f.src]);
    SweptEnd(es, g, g', lv, root, valIn, vals, oval0, f.src);
    FineTakes(g, p, f.src);
    var d := if Taken(g, p, Edge(f.src, true)) then true else false;
    SweptWay(es, g, g', lv, root, valIn, vals, oval0, f.src, p, d);
    TakenOnce(g', p, f.src, d, f.dir);
    assert EdgeDown(g, lv, f.src, d);
  }

  lemma TakenOnce(g: Graph, p: Packet, b: nat, d: bool, d': bool)
    requires ValidEdge(g, Edge(b, d)) && Taken(g, p, Edge(b, d)) && Taken(g, p, Edge(b, d'))
    ensures d == d'
  {
    var r := ZeroRegs();
    assert ExecAll(g[b].stmts, p, r).Some?;
  }

  // What fold_edge decides

  /** The numbers decide a block's test as the run does, if no test was turned round and equal values are compared
      alike. */
  lemma SweptFolds(es: seq<Expr>, g: Graph, g': Graph, lv: seq<nat>, root: nat, valIn: seq<Vals>, vals: seq<Vals>,
                   oval0: seq<nat>, oval: seq<nat>, c: nat, k: Edge, p: Packet)
    requires SweptFrom(es, g, g', lv, root, valIn, vals, oval0) && NoDup(es) && |oval| == |g|
    requires forall b | 0 <= b < |g| :: OperandOk(es, g'[b].term, vals[b], oval[b])
    requires (forall b | b in Reach(g, lv, root) :: !FoldsMask(g[b])) && AlikeEnds(g, vals, Reach(g, lv, root))
    requires c in Reach(g, lv, root) && k.src in Reach(g, lv, root)
    ensures FoldRight(g, g', root, vals, oval, c, k, p)
  {
    var d := FoldDir(g', vals, oval, c, k);
    if d.Some? && Visits(g, root, p, c) && Visits(g, root, p, k.src) && Taken(g', p, k) {
      assert Finished(es, g, lv, c, g[c], g'[c], valIn[c], vals[c], false);
      assert Finished(es, g, lv, k.src, g[k.src], g'[k.src], valIn[k.src], vals[k.src], false);
      SweptEdge(es, g, g', lv, root, valIn, vals, oval0, k, p);
      ReadAt(es, g, g', lv, root, valIn, vals, oval0, oval, c, p);
      ReadAt(es, g, g', lv, root, valIn, vals, oval0, oval, k.src, p);
      SameFolds(es, g, g', lv, root, valIn, vals, oval0, c, k);
      ReadingDecides(es, vals[c][A_ATOM], FoldsSub(g[c]), g'[c].term.test.op, g'[c].term.test.JmpK?, oval[k.src],
                     oval[c], p);
      TruthTaken(es, g, g', lv, root, valIn, vals, oval0, c, p, d.value);
    }
  }

  /** What a block's test gives on the packet. */
  ghost function TruthOf(b: Block, p: Packet): bool
    requires b.term.Br? && ExecAll(b.stmts, p, ZeroRegs()).Some?
  {
    Holds(b.term.test, ExecAll(b.stmts, p, ZeroRegs()).value)
  }

  lemma ReadAt(es: seq<Expr>, g: Graph, g': Graph, lv: seq<nat>, root: nat, valIn: seq<Vals>, vals: seq<Vals>,
               oval0: seq<nat>, oval: seq<nat>, b: nat, p: Packet)
    requires SweptFrom(es, g, g', lv, root, valIn, vals, oval0) && |oval| == |g|
    requires b in Reach(g, lv, root) && g[b].term.Br? && !FoldsMask(g[b]) && Fine(g, p, b)
    requires OperandOk(es, g'[b].term, vals[b], oval[b])
    ensures g'[b].term.Br? && Den(es, vals[b][A_ATOM], p).Some? && (g'[b].term.test.JmpK? ==> Constant(es, oval[b]))
    ensures !FoldsSub(g[b]) ==> Den(es, oval[b], p).Some?
    ensures TruthOf(g[b], p)
            == Reading(es, vals[b][A_ATOM], FoldsSub(g[b]), g'[b].term.test.op, g'[b].term.test.JmpK?, oval[b], p)
  {
    SweptEnd(es, g, g', lv, root, valIn, vals, oval0, b);
    NumberedExit(es, g, lv, root, valIn, vals, oval0, b);
    assert BlockDone(es, g[b], g[b], valIn[b], vals[b], oval0[b]);
    ReadTruth(es, g[b], valIn[b], vals[b], oval0[b], g'[b].term, oval[b], p, ZeroRegs());
  }

  lemma SameFolds(es: seq<Expr>, g: Graph, g': Graph, lv: seq<nat>, root: nat, valIn: seq<Vals>, vals: seq<Vals>,
                  oval0: seq<nat>, c: nat, k: Edge)
    requires SweptFrom(es, g, g', lv, root, valIn, vals, oval0) && AlikeEnds(g, vals, Reach(g, lv, root))
    requires c in Reach(g, lv, root) && k.src in Reach(g, lv, root) && g[c].term.Br? && g[k.src].term.Br?
    requires !FoldsMask(g[c]) && !FoldsMask(g[k.src])
    requires vals[c][A_ATOM] == vals[k.src][A_ATOM] && g'[c].term.Br? && g'[k.src].term.Br?
    requires g'[c].term.test.op == g'[k.src].term.test.op
    ensures FoldsSub(g[c]) == FoldsSub(g[k.src])
  {
    SweptEnd(es, g, g', lv, root, valIn, vals, oval0, c);
    SweptEnd(es, g, g', lv, root, valIn, vals, oval0, k.src);
  }

  lemma TruthTaken(es: seq<Expr>, g: Graph, g': Graph, lv: seq<nat>, root: nat, valIn: seq<Vals>, vals: seq<Vals>,
                   oval0: seq<nat>, b: nat, p: Packet, d: bool)
    requires SweptFrom(es, g, g', lv, root, valIn, vals, oval0) && b in Reach(g, lv, root) && g[b].term.Br?
    requires !FoldsMask(g[b])
    requires Visits(g, root, p, b) && TruthOf(g[b], p) == d
    ensures g'[b].term.Br? && Taken(g', p, Edge(b, d))
  {
    assert SelfContained(g[b]);
    FineTakes(g, p, b);
    SweptEnd(es, g, g', lv, root, valIn, vals, oval0, b);
    SweptWay(es, g, g', lv, root, valIn, vals, oval0, b, p, d);
  }

  // Blocks as the code generator makes them

  /** A comparison for equality is with a constant, of something that the last statement loads or computes. */
  ghost predicate EndsPlainly(b: Block) {
    TestsEqual(b) ==> b.term.test.JmpK? && b.stmts != [] && Makes(b.stmts[|b.stmts| - 1])
  }

  /** The statement leaves something in the accumulator that it does not copy from another place. */
  predicate Makes(s: Stmt) { AtomDef(s) == Some(A_ATOM) && !IsMove(s) }

  ghost predicate IsDifference(es: seq<Expr>, n: nat) {
    1 <= n <= |es| && (es[n - 1].VAluK? || es[n - 1].VAluX?) && es[n - 1].op == Sub
  }

  /** What such a statement makes has a number that tells subtraction from everything else. */
  lemma MadeNumber(es: seq<Expr>, ss: seq<Stmt>, val0: Vals, val: Vals)
    requires NamedList(es, ss, val0, val) && ss != [] && Makes(ss[|ss| - 1])
    ensures IsSub(ss[|ss| - 1]) <==> IsDifference(es, val[A_ATOM])
  {
    var vs :| NamedAlong(es, ss, vs) && vs[0] == val0 && vs[|ss|] == val;
    assert Named(es, ss[|ss| - 1], vs[|ss| - 1], vs[|ss| - 1 + 1]);
  }

  /** In a self-contained block arithmetic cannot come first. */
  lemma {:induction false} RealBeforeAlu(ss: seq<Stmt>, live: set<Atom>)
    requires ss != [] && IsAlu(ss[|ss| - 1]) && LiveIn(ss, live) == {}
    ensures RealBefore(ss, |ss| - 1)
  {
    if ss[0].Nop? {
      assert |ss| > 1;
      RealBeforeAlu(ss[1..], live);
      var k :| 0 <= k < |ss| - 2 && !ss[1..][k].Nop?;
      assert !ss[k + 1].Nop?;
    } else {
      assert |ss| == 1 ==> A_ATOM in LiveIn(ss, live);
    }
  }

  lemma PlainFolds(b: Block)
    requires EndsPlainly(b) && TestsEqual(b) && SelfContained(b)
    ensures FoldsSub(b) <==> IsSub(b.stmts[|b.stmts| - 1])
  {
    var last := |b.stmts| - 1;
    assert LastReal(b.stmts, last);
    forall i: nat | EndsIn(b.stmts, i) ensures i == last { assert LastReal(b.stmts, i); }
    if IsSub(b.stmts[last]) {
      RealBeforeAlu(b.stmts, TermUse(b.term));
      ClosingIs(b.stmts, last);
    }
  }

  /** Blocks that end plainly and compare the same value all end in a subtraction, or none does. */
  lemma PlainEndsAlike(es: seq<Expr>, g: Graph, lv: seq<nat>, root: nat, valIn: seq<Vals>, vals: seq<Vals>,
                       oval: seq<nat>)
    requires Levelled(g, lv) && root < |g| && AllSelfContained(g)
    requires Numbered(es, g, g, lv, root, valIn, vals, oval, Reach(g, lv, root))
    requires forall b | b in Reach(g, lv, root) :: EndsPlainly(g[b])
    ensures AlikeEnds(g, vals, Reach(g, lv, root))
  {
    forall b | b in Reach(g, lv, root) && TestsEqual(g[b])
      ensures FoldsSub(g[b]) <==> IsDifference(es, vals[b][A_ATOM])
    {
      assert EndsPlainly(g[b]) && SelfContained(g[b]);
      assert BlockDone(es, g[b], g[b], valIn[b], vals[b], oval[b]);
      PlainNumber(es, g[b], valIn[b], vals[b]);
    }
  }

  lemma PlainNumber(es: seq<Expr>, b: Block, val0: Vals, val: Vals)
    requires EndsPlainly(b) && TestsEqual(b) && SelfContained(b) && NamedList(es, b.stmts, val0, val)
    ensures FoldsSub(b) <==> IsDifference(es, val[A_ATOM])
  {
    MadeNumber(es, b.stmts, val0, val);
    PlainFolds(b);
  }

  // The start of jump threading

  /** Numbers and edge dominators found before the sweep are right for the swept graph, if no test was turned round and
      equal values are compared alike. */
  lemma SweptBasis(es: seq<Expr>, g: Graph, g': Graph, lv: seq<nat>, root: nat, valIn: seq<Vals>, vals: seq<Vals>,
                   oval0: seq<nat>, oval: seq<nat>, edom: EdgeSets)
    requires SweptFrom(es, g, g', lv, root, valIn, vals, oval0) && NoDup(es) && |oval| == |g|
    requires forall b | 0 <= b < |g| :: OperandOk(es, g'[b].term, vals[b], oval[b])
    requires (forall b | b in Reach(g, lv, root) :: !FoldsMask(g[b])) && AlikeEnds(g, vals, Reach(g, lv, root))
    requires forall e: Edge | e.src < |g| :: e in edom
    requires forall e: Edge, k: Edge | e.src in Reach(g, lv, root) && k.src < |g| && k in edom[e] ::
             EdgeDominates(g, root, k, e)
    ensures Basis(true, g, g', lv, root, vals, oval, edom) && Current(true, g, g', g', lv, root)
  {
    forall p, b | b in Reach(g, lv, root) && Visits(g, root, p, b) ensures Fine(g', p, b) {
      SweptFine(es, g, g', lv, root, valIn, vals, oval0, b, p);
    }
    forall c, k: Edge, p | c in Reach(g, lv, root) && k.src in Reach(g, lv, root)
      ensures FoldRight(g, g', root, vals, oval, c, k, p)
    {
      SweptFolds(es, g, g', lv, root, valIn, vals, oval0, oval, c, k, p);
    }
    forall e: Edge, k: Edge | e.src in Reach(g, lv, root) && k.src < |g| && k in edom[e]
      ensures Passed(g, g', lv, root, k, e)
    {
      forall p, path | Answers(g, lv, root, p) && TakesPath(g', root, path, e, p) ensures k in path + [e] {
        SweptPath(es, g, g', lv, root, valIn, vals, oval0, path, e.src, p);
        assert EdgeDominates(g, root, k, e);
      }
    }
    SweptCurrent(es, g, g', lv, root, valIn, vals, oval0);
  }

  lemma SweptCurrent(es: seq<Expr>, g: Graph, g': Graph, lv: seq<nat>, root: nat, valIn: seq<Vals>, vals: seq<Vals>,
                     oval0: seq<nat>)
    requires SweptFrom(es, g, g', lv, root, valIn, vals, oval0)
    requires forall b | b in Reach(g, lv, root) :: !FoldsMask(g[b])
    ensures Current(true, g, g', g', lv, root)
  {
    SelfContainedKnown(g, lv, root, valIn);
    forall b | b in Reach(g, lv, root) ensures SafeIn(g[b], OutUse(g, lv, b)) {
      NothingUsed(g, lv, b);
      assert SafeEnd(g[b]);
    }
    ClosedPreserves(es, g, g, g', lv, root, valIn, vals, oval0, false);
    SweptWithin(es, g, g', lv, root, valIn, vals);
    forall p, path, x: nat | Answers(g, lv, root, p) && Comes(g', root, path, x, p) ensures Visits(g, root, p, x) {
      SweptPath(es, g, g', lv, root, valIn, vals, oval0, path, x, p);
    }
  }

  lemma SweptWithin(es: seq<Expr>, g: Graph, g': Graph, lv: seq<nat>, root: nat, valIn: seq<Vals>, vals: seq<Vals>)
    requires Levelled(g, lv) && root < |g| && WellFounded(es) && |g'| == |valIn| == |vals| == |g|
    requires AllFinished(es, g, g, g', lv, valIn, vals, false, Reach(g, lv, root))
    ensures Within(g', Reach(g, lv, root))
  {
    forall b, d | b in Reach(g, lv, root) && g'[b].term.Br? ensures Succ(g'[b], d) in Reach(g, lv, root) {
      assert Finished(es, g, lv, b, g[b], g'[b], valIn[b], vals[b], false);
      ReachClosed(g, lv, root, Edge(b, true));
      ReachClosed(g, lv, root, Edge(b, false));
      assert Succ(g'[b], d) in {g'[b].term.jt, g'[b].term.jf};
    }
  }
}
