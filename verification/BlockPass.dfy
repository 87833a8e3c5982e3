/** One block of the optimizer's sweep: its statements, the special case, peephole rules and dead stores (opt_blk). */
module BlockPass {
  import opened Machine
  import opened Graph
  import opened Levels
  import opened Liveness
  import opened Dominance
  import opened DeadStores
  import opened ValueTable
  import opened Numbering
  import opened NumberingPass
  import opened Threading
  import opened Peephole

  // The constants opt_peep relies on

  lemma {:induction false} NopsKeepNumbers(es: seq<Expr>, ss: seq<Stmt>, vs: seq<Vals>, i: nat, j: nat)
    requires NamedAlong(es, ss, vs) && NopsBetween(ss, i, j)
    ensures vs[j] == vs[i]
    decreases j - i
  {
    if i < j {
      assert Named(es, ss[j - 1], vs[j - 1], vs[j - 1 + 1]);
      NopsKeepNumbers(es, ss, vs, i, j - 1);
    }
  }

  /** Only a load of a constant gives the accumulator the number of a constant: after arithmetic it has none. */
  lemma AluNotConstant(es: seq<Expr>, ss: seq<Stmt>, val: Vals, val': Vals)
    requires NamedList(es, ss, val, val') && EndsInAlu(ss)
    ensures !Constant(es, val'[A_ATOM])
  {
    var vs :| NamedAlong(es, ss, vs) && vs[0] == val && vs[|ss|] == val';
    var i: nat :| LastReal(ss, i) && IsAlu(ss[i]);
    assert Named(es, ss[i], vs[i], vs[i + 1]);
    NopsKeepNumbers(es, ss, vs, i + 1, |ss|);
  }

  /** On a run that leaves the numbered values, both blocks leave `outUse` alike and go to the same successor, unless
      the all-ones rule is at fault. */
  ghost predicate PeepedOn(es: seq<Expr>, b: Block, b': Block, val: Vals, outUse: set<Atom>, p: Packet, r: Regs)
    requires b.term.Br? && b'.term.Br? && WellFounded(es)
  {
    var q, q' := ExecAll(b.stmts, p, r), ExecAll(b'.stmts, p, r);
    q.Some? && Matches(es, val, p, q.value) ==>
      && q'.Some? && Agree(outUse, q.value, q'.value)
      && (Target(b'.term, q'.value) == Target(b.term, q.value) <==> !AllOnesHit(b, outUse, q.value))
      && Holds(b'.term.test, q'.value) == (Holds(b.term.test, q.value) != Turned(b.term, b'.term))
  }

  /** The peephole rules, with the constants that the block's own exit numbers give. */
  method OptPeep(t: Table, b: Block, outUse: set<Atom>, val: Vals, ghost val0: Vals) returns (b': Block)
    requires t.Valid() && InTable(t.exprs, val) && b.term.Br? && NamedList(t.exprs, b.stmts, val0, val)
    ensures b' == PeepedBlock(b, outUse, ConstIn(t.exprs, val[X_ATOM]), ConstIn(t.exprs, val[A_ATOM]))
    ensures PeepOk(b, b', outUse, ConstIn(t.exprs, val[X_ATOM]), ConstIn(t.exprs, val[A_ATOM]))
    ensures SafeX(b, outUse) ==> forall p, r :: PeepedOn(t.exprs, b, b', val, outUse, p, r)
  {
    var constX := t.ConstantOf(val[X_ATOM]);
    var constA := t.ConstantOf(val[A_ATOM]);
    if EndsInAlu(b.stmts) { AluNotConstant(t.exprs, b.stmts, val0, val); }
    b' := PeepBlock(b, outUse, constX, constA);
    if SafeX(b, outUse) {
      forall p, r ensures PeepedOn(t.exprs, b, b', val, outUse, p, r) {
        assert SameBlockOn(b, b', outUse, constX, constA, p, r);
      }
    }
  }

  /** The blocks the code generator makes are safe to rewrite. */
  lemma ProperSafe(b: Block, outUse: set<Atom>)
    requires Proper(b) && b.term.Br?
    ensures SafeX(b, outUse)
  {
    assert NoLocalUse(b.stmts, Kept(b, outUse));
  }

  // The whole block

  /** The block's effect is kept, for a state from which it does not fault; `hit` says where the successor differs. */
  ghost predicate KeptOn(b: Block, b': Block, outUse: set<Atom>, p: Packet, r: Regs, hit: bool)
    requires b.term.Br? == b'.term.Br?
  {
    var q, q' := ExecAll(b.stmts, p, r), ExecAll(b'.stmts, p, r);
    q.Some? ==>
      && q'.Some? && Agree(outUse, q.value, q'.value)
      && (b.term.Br? ==> (Target(b'.term, q'.value) == Target(b.term, q.value) <==> !hit)
                         && Holds(b'.term.test, q'.value) == (Holds(b.term.test, q.value) != Turned(b.term, b'.term)))
      && (b.term.Ret? ==> b'.term == b.term)
  }

  /** All statements of the block are dropped: it is a return, or it leaves A and X as they were and nothing else is
      used. */
  ghost predicate Dropped(b: Block, val: Vals, val': Vals, outUse: set<Atom>, doStmts: bool) {
    doStmts && (b.term.Ret?
                || (outUse == {} && val[A_ATOM] != 0 && val'[A_ATOM] == val[A_ATOM] && val[X_ATOM] != 0
                    && val'[X_ATOM] == val[X_ATOM]))
  }

  /** The all-ones rule is at fault on the run, with `b1` the block as opt_stmt leaves it. */
  ghost predicate Hit(b1: Block, val: Vals, val': Vals, outUse: set<Atom>, doStmts: bool, p: Packet, r: Regs) {
    && b1.term.Br? && !Dropped(b1, val, val', outUse, doStmts)
    && ExecAll(b1.stmts, p, r).Some? && AllOnesHit(b1, outUse, ExecAll(b1.stmts, p, r).value)
  }

  lemma DroppedKept(es: seq<Expr>, b: Block, ss1: seq<Stmt>, val: Vals, val': Vals, outUse: set<Atom>, p: Packet,
                    r: Regs)
    requires ListOk(es, b.stmts, ss1, val, val') && KnownList(b.stmts, val) && Matches(es, val, p, r)
    requires Dropped(b, val, val', outUse, true) && (b.term.Ret? ==> b.stmts == [])
    ensures KeptOn(b, Block([], b.term), outUse, p, r, false)
  {
    if ExecAll(b.stmts, p, r).Some? && b.term.Br? {
      var q := ExecAll(b.stmts, p, r).value;
      MatchesFromOn(es, b.stmts, ss1, val, val', p, r);
      assert Den(es, val[A_ATOM], p) == Some(r[A_ATOM]) && Den(es, val[X_ATOM], p) == Some(r[X_ATOM]);
      assert Den(es, val'[A_ATOM], p) == Some(q[A_ATOM]) && Den(es, val'[X_ATOM], p) == Some(q[X_ATOM]);
    }
  }

  lemma RewrittenKept(es: seq<Expr>, b: Block, b1: Block, b2: Block, b3: Block, val: Vals, val': Vals,
                      outUse: set<Atom>, p: Packet, r: Regs)
    requires ListOk(es, b.stmts, b1.stmts, val, val') && KnownList(b.stmts, val) && Matches(es, val, p, r)
    requires b.term.Br? && b1.term == b.term && b2.term.Br? && PeepedOn(es, b1, b2, val', outUse, p, r)
    requires b3.term == b2.term && Swept(b2.stmts, b3.stmts, TermUse(b2.term) + outUse)
    ensures KeptOn(b, b3, outUse, p, r, ExecAll(b1.stmts, p, r).Some?
                   && AllOnesHit(b1, outUse, ExecAll(b1.stmts, p, r).value))
  {
    if ExecAll(b.stmts, p, r).Some? {
      assert ExecAll(b1.stmts, p, r) == ExecAll(b.stmts, p, r);
      MatchesFromOn(es, b.stmts, b1.stmts, val, val', p, r);
      SweptSound(b2.stmts, b3.stmts, TermUse(b2.term) + outUse, p, r, r);
      var q2, q3 := ExecAll(b2.stmts, p, r).value, ExecAll(b3.stmts, p, r).value;
      assert A_ATOM in TermUse(b2.term);
      assert Target(b3.term, q3) == Target(b2.term, q2);
    }
  }

  /** What is promised of one optimized block, in every state that its entry numbers describe. */
  ghost predicate BlockKept(es: seq<Expr>, b: Block, b1: Block, b': Block, val: Vals, val': Vals, outUse: set<Atom>,
                            doStmts: bool)
    requires b.term.Br? == b'.term.Br? && WellFounded(es)
  {
    KnownList(b.stmts, val) && (b.term.Br? && b1.term.Br? ==> SafeX(b1, outUse)) ==>
      forall p, r | Matches(es, val, p, r) :: KeptOn(b, b', outUse, p, r, Hit(b1, val, val', outUse, doStmts, p, r))
  }

  lemma BlockKeptGrows(es: seq<Expr>, es': seq<Expr>, b: Block, b1: Block, b': Block, val: Vals, val': Vals,
                       outUse: set<Atom>, doStmts: bool)
    requires b.term.Br? == b'.term.Br? && Grown(es, es') && InTable(es, val)
    requires BlockKept(es, b, b1, b', val, val', outUse, doStmts)
    ensures BlockKept(es', b, b1, b', val, val', outUse, doStmts)
  {
    forall p, r | Matches(es', val, p, r) ensures Matches(es, val, p, r) { MatchesStable(es, es', val, p, r); }
  }

  /** What opt_blk does to a branching block after its statements: the peephole rules and the removal of dead stores. */
  ghost function Rest(b: Block, outUse: set<Atom>, constX: Option<Word>, constA: Option<Word>): (b': Block)
    requires b.term.Br?
    ensures b'.term.Br?
  {
    var b2 := PeepedBlock(b, outUse, constX, constA);
    Block(SweptList(b2.stmts, TermUse(b2.term) + outUse), b2.term)
  }

  /** The block after the special case. */
  ghost function Trim(b: Block, val: Vals, val': Vals, outUse: set<Atom>, doStmts: bool): Block {
    if Dropped(b, val, val', outUse, doStmts) then Block([], b.term) else b
  }

  /** The block that opt_blk makes of `b`, which its statements have been rewritten to. */
  ghost function FinishedAs(es: seq<Expr>, b: Block, val: Vals, val': Vals, outUse: set<Atom>, doStmts: bool): Block {
    var b1 := Trim(b, val, val', outUse, doStmts);
    if b1.term.Br? then Rest(b1, outUse, ConstIn(es, val'[X_ATOM]), ConstIn(es, val'[A_ATOM])) else b1
  }

  /** A block without statements stays one. */
  lemma RestEmpty(b: Block, outUse: set<Atom>, constX: Option<Word>, constA: Option<Word>)
    requires b.term.Br? && b.stmts == []
    ensures Rest(b, outUse, constX, constA) == b
  {
  }

  /** The rest of opt_blk needs no atom that the block did not need, beside those used after it. */
  lemma RestNeeds(b: Block, outUse: set<Atom>, constX: Option<Word>, constA: Option<Word>, more: set<Atom>)
    requires b.term.Br? && (constA.Some? ==> !EndsInAlu(b.stmts)) && more <= outUse
    ensures var b' := Rest(b, outUse, constX, constA);
            LiveIn(b'.stmts, TermUse(b'.term) + more) <= LiveIn(b.stmts, TermUse(b.term) + more)
  {
    var b2 := PeepedBlock(b, outUse, constX, constA);
    PeepedRight(b, outUse, constX, constA);
    SweptReads(b2.stmts, SweptList(b2.stmts, TermUse(b2.term) + outUse), TermUse(b2.term) + outUse,
               TermUse(b2.term) + more);
  }

  /** It keeps what is used after the block, and the successor unless the all-ones rule is at fault. */
  lemma RestKept(b: Block, outUse: set<Atom>, constX: Option<Word>, constA: Option<Word>, p: Packet, r: Regs)
    requires b.term.Br? && (constA.Some? ==> !EndsInAlu(b.stmts)) && SafeX(b, outUse)
    requires ExecAll(b.stmts, p, r).Some? && ConstsRight(ExecAll(b.stmts, p, r).value, constX, constA)
    ensures KeptOn(b, Rest(b, outUse, constX, constA), outUse, p, r,
                   AllOnesHit(b, outUse, ExecAll(b.stmts, p, r).value))
  {
    var b2, b' := PeepedBlock(b, outUse, constX, constA), Rest(b, outUse, constX, constA);
    PeepedRight(b, outUse, constX, constA);
    assert SameBlockOn(b, b2, outUse, constX, constA, p, r);
    SweptSound(b2.stmts, b'.stmts, TermUse(b2.term) + outUse, p, r, r);
    var q2, q' := ExecAll(b2.stmts, p, r).value, ExecAll(b'.stmts, p, r).value;
    assert A_ATOM in TermUse(b2.term);
    assert Holds(b'.term.test, q') == Holds(b2.term.test, q2);
  }

  /** How a block ends when only branches are optimized, and that it still computes all it reads. */
  ghost predicate EndKept(es: seq<Expr>, b: Block, b': Block, val': Vals, outUse: set<Atom>) {
    b.term.Br? ==>
      && b'.term == PeepTerm(b, outUse, ConstIn(es, val'[X_ATOM]), ConstIn(es, val'[A_ATOM]))
      && (SelfContained(b) && outUse == {} ==> SelfContained(b'))
      && (LoadsOnly(b.stmts) ==> b'.stmts == b.stmts)
  }

  /** The list is one load, of what its block compares. */
  predicate LoadsOnly(ss: seq<Stmt>) { |ss| == 1 && AtomDef(ss[0]) == Some(A_ATOM) && !IsAlu(ss[0]) }

  lemma LoadStays(b: Block, outUse: set<Atom>, constX: Option<Word>, constA: Option<Word>)
    requires b.term.Br? && LoadsOnly(b.stmts)
    ensures Rest(b, outUse, constX, constA).stmts == b.stmts
  {
    var b2 := PeepedBlock(b, outUse, constX, constA);
    assert NextReal(b.stmts, 0) == 0 && NextReal(b.stmts, 1) == 1;
    assert PeepFrom(b.stmts, 0, X_ATOM in outUse) == (b.stmts, 0);
    assert b2.stmts == b.stmts && b.stmts[1..] == [] && A_ATOM in TermUse(b2.term);
    assert Swept(b.stmts, b.stmts, TermUse(b2.term) + outUse);
  }

  lemma RestEnds(es: seq<Expr>, b: Block, val0: Vals, val': Vals, outUse: set<Atom>)
    requires b.term.Br? && NamedList(es, b.stmts, val0, val')
    ensures EndKept(es, b, Rest(b, outUse, ConstIn(es, val'[X_ATOM]), ConstIn(es, val'[A_ATOM])), val', outUse)
  {
    var constX, constA := ConstIn(es, val'[X_ATOM]), ConstIn(es, val'[A_ATOM]);
    if EndsInAlu(b.stmts) { AluNotConstant(es, b.stmts, val0, val'); }
    PeepedRight(b, outUse, constX, constA);
    if SelfContained(b) && outUse == {} {
      var b' := Rest(b, outUse, constX, constA);
      assert TermUse(b'.term) + {} == TermUse(b'.term) && TermUse(b.term) + {} == TermUse(b.term);
      RestNeeds(b, outUse, constX, constA, {});
    }
    if LoadsOnly(b.stmts) { LoadStays(b, outUse, constX, constA); }
  }

  /** Rewrite a numbered block by the special case, or by the peephole rules and the removal of dead stores. */
  method FinishBlk(t: Table, b: Block, b1: Block, val: Vals, val': Vals, outUse: set<Atom>, doStmts: bool)
    returns (b': Block)
    requires t.Valid() && ListOk(t.exprs, b.stmts, b1.stmts, val, val') && b1.term == b.term
    requires (b.term.Ret? ==> b.stmts == []) && (!doStmts ==> b1 == b)
    ensures b'.term.Br? == b.term.Br? && (b.term.Br? ==> {b'.term.jt, b'.term.jf} <= {b.term.jt, b.term.jf})
    ensures b.term.Ret? ==> b' == b
    ensures BlockKept(t.exprs, b, b1, b', val, val', outUse, doStmts)
    ensures !doStmts ==> EndKept(t.exprs, b, b', val', outUse)
    ensures b' == FinishedAs(t.exprs, b1, val, val', outUse, doStmts)
  {
    if doStmts && (b.term.Ret? || (outUse == {} && val[A_ATOM] != 0 && val'[A_ATOM] == val[A_ATOM]
                                   && val[X_ATOM] != 0 && val'[X_ATOM] == val[X_ATOM])) {
      b' := Block([], b.term);
      if b.term.Br? {
        RestEmpty(b', outUse, ConstIn(t.exprs, val'[X_ATOM]), ConstIn(t.exprs, val'[A_ATOM]));
      }
      forall p, r | KnownList(b.stmts, val) && Matches(t.exprs, val, p, r) ensures KeptOn(b, b', outUse, p, r, false) {
        DroppedKept(t.exprs, b, b1.stmts, val, val', outUse, p, r);
      }
    } else if b.term.Br? {
      var b2 := OptPeep(t, b1, outUse, val', val);
      b' := OptDeadstores(b2, outUse);
      if !doStmts { RestEnds(t.exprs, b1, val, val', outUse); }
      if SafeX(b1, outUse) && KnownList(b.stmts, val) {
        forall p, r | Matches(t.exprs, val, p, r)
          ensures KeptOn(b, b', outUse, p, r, Hit(b1, val, val', outUse, doStmts, p, r))
        {
          assert PeepedOn(t.exprs, b1, b2, val', outUse, p, r);
          RewrittenKept(t.exprs, b, b1, b2, b', val, val', outUse, p, r);
        }
      }
    } else {
      b' := b1;
    }
  }

  /** Number and rewrite one block (opt_blk); `b1` is the block as opt_stmt leaves it. */
  method OptBlk(t: Table, b: Block, val: Vals, outUse: set<Atom>, doStmts: bool)
    returns (ok: bool, b': Block, val': Vals, oval: nat, ghost b1: Block)
    requires t.Valid() && InTable(t.exprs, val) && t.curval + 2 * SLength(b.stmts) + 1 < |t.vmap|
    requires b.term.Ret? ==> b.stmts == []
    modifies t
    ensures t.Valid() && |t.vmap| == old(|t.vmap|) && Grown(old(t.exprs), t.exprs)
    ensures |t.exprs| <= |old(t.exprs)| + 2 * SLength(b.stmts) + 1
    ensures ok ==> b1.term == b.term && ListOk(t.exprs, b.stmts, b1.stmts, val, val') && (!doStmts ==> b1 == b)
    ensures ok ==> b'.term.Br? == b.term.Br? && (b.term.Br? ==> {b'.term.jt, b'.term.jf} <= {b.term.jt, b.term.jf})
    ensures ok ==> BlockKept(t.exprs, b, b1, b', val, val', outUse, doStmts) && OperandOk(t.exprs, b'.term, val', oval)
    ensures ok ==> b' == FinishedAs(t.exprs, b1, val, val', outUse, doStmts)
    ensures ok && doStmts ==> FormedList(t.exprs, b.stmts, b1.stmts, val, val')
    ensures !ok ==>
              doStmts && forall p, r | MatchesOn(old(t.exprs), val, LiveIn(b.stmts, {}), p, r) ::
                ExecAll(b.stmts, p, r).None?
  {
    var ss;
    ok, ss, val' := OptStmts(t, b.stmts, val, doStmts);
    b', oval, b1 := b, 0, b;
    if !ok { return; }
    b1 := Block(ss, b.term);
    b' := FinishBlk(t, b, Block(ss, b.term), val, val', outUse, doStmts);
    ghost var es := t.exprs;
    oval := OperandNumber(t, b'.term, val');
    ListOkGrows(es, t.exprs, b.stmts, ss, val, val');
    BlockKeptGrows(es, t.exprs, b, b1, b', val, val', outUse, doStmts);
    ConstsStay(es, t.exprs, val');
    if doStmts { FormedGrows(es, t.exprs, b.stmts, ss, val, val'); }
  }

  lemma ConstsStay(es: seq<Expr>, es': seq<Expr>, val: Vals)
    requires es <= es' && InTable(es, val)
    ensures forall a: Atom :: ConstIn(es', val[a]) == ConstIn(es, val[a])
  {
  }

  // The block in its filter

  lemma ReplacedLevelled(g: Graph, lv: seq<nat>, b: nat, b': Block)
    requires Levelled(g, lv) && b < |g| && b'.term.Br? == g[b].term.Br?
    requires g[b].term.Br? ==> {b'.term.jt, b'.term.jf} <= {g[b].term.jt, g[b].term.jf}
    ensures Levelled(g[b := b'], lv)
  {
    var g' := g[b := b'];
    forall x, d | 0 <= x < |g'| && g'[x].term.Br? ensures EdgeDown(g', lv, x, d) {
      if x == b {
        assert Succ(b', d) in {b'.term.jt, b'.term.jf};
        assert EdgeDown(g, lv, b, true) && EdgeDown(g, lv, b, false);
      } else {
        assert EdgeDown(g, lv, x, d);
      }
    }
  }

  /** At the replaced block the run goes on to the same result. */
  lemma ReplacedAt(g: Graph, lv: seq<nat>, b: nat, b': Block, p: Packet, r: Regs)
    requires Levelled(g, lv) && b < |g| && b'.term.Br? == g[b].term.Br? && Levelled(g[b := b'], lv)
    requires KeptOn(g[b], b', OutUse(g, lv, b), p, r, false) && Run(g, lv, b, p, r).Return?
    ensures Run(g[b := b'], lv, b, p, r) == Run(g, lv, b, p, r)
  {
    var g' := g[b := b'];
    var q, q' := ExecAll(g[b].stmts, p, r).value, ExecAll(b'.stmts, p, r).value;
    if g[b].term.Br? {
      var y := Target(g[b].term, q);
      assert EdgeDown(g, lv, b, true) && EdgeDown(g, lv, b, false);
      assert EdgeDown(g', lv, b, true) && EdgeDown(g', lv, b, false);
      InUseSound(g, lv, y, p, q, q');
      RunBelow(g, g', lv, lv[b], y, p, q');
    }
  }

  /** Where the numbers of the filter describe the states, from any block on the way. */
  lemma {:induction false} ReplacedRuns(es: seq<Expr>, g: Graph, lv: seq<nat>, root: nat, valIn: seq<Vals>,
                                        vals: seq<Vals>, oval: seq<nat>, b: nat, b': Block, x: nat, p: Packet, r: Regs)
    requires Levelled(g, lv) && root < |g| && Numbered(es, g, g, lv, root, valIn, vals, oval, Reach(g, lv, root))
    requires AllKnown(g, lv, root, valIn)
    requires b < |g| && b'.term.Br? == g[b].term.Br? && Levelled(g[b := b'], lv)
    requires forall p, r | Matches(es, valIn[b], p, r) :: KeptOn(g[b], b', OutUse(g, lv, b), p, r, false)
    requires x in Reach(g, lv, root) && Matches(es, valIn[x], p, r) && Run(g, lv, x, p, r).Return?
    ensures Run(g[b := b'], lv, x, p, r) == Run(g, lv, x, p, r)
    decreases lv[x]
  {
    if x == b {
      ReplacedAt(g, lv, b, b', p, r);
    } else if g[x].term.Br? {
      var q := ExecAll(g[x].stmts, p, r).value;
      var e := Edge(x, Holds(g[x].term.test, q));
      assert EdgeDown(g, lv, x, e.dir);
      ReachClosed(g, lv, root, e);
      assert BlockDone(es, g[x], g[x], valIn[x], vals[x], oval[x]);
      MatchesFromOn(es, g[x].stmts, g[x].stmts, valIn[x], vals[x], p, r);
      assert Joined(g, lv, root, valIn, vals, Dst(g, e));
      ReplacedRuns(es, g, lv, root, valIn, vals, oval, b, b', Dst(g, e), p, q);
    }
  }

  /** Optimize one block of a numbered filter. The filter keeps its result on every run that does not fault, if no
      read of X in the block sees the rewriting of an indexed access and the block has no all-ones test. */
  method OptBlkIn(t: Table, g: Graph, b: nat, val: Vals, outUse: set<Atom>, doStmts: bool, ghost es: seq<Expr>,
                  ghost lv: seq<nat>, ghost root: nat, ghost valIn: seq<Vals>, ghost vals: seq<Vals>,
                  ghost oval: seq<nat>)
    returns (ok: bool, g': Graph, ghost b1: Block, ghost val': Vals)
    requires Levelled(g, lv) && root < |g| && Numbered(es, g, g, lv, root, valIn, vals, oval, Reach(g, lv, root))
    requires AllKnown(g, lv, root, valIn)
    requires b in Reach(g, lv, root) && val == valIn[b] && outUse == OutUse(g, lv, b)
    requires g[b].term.Ret? ==> g[b].stmts == []
    requires t.Valid() && Grown(es, t.exprs) && t.curval + 2 * SLength(g[b].stmts) + 1 < |t.vmap|
    modifies t
    ensures t.Valid() && (ok ==> ListOk(t.exprs, g[b].stmts, b1.stmts, val, val'))
    ensures ok ==>
              b1.term == g[b].term
              && if doStmts then FormedList(t.exprs, g[b].stmts, b1.stmts, val, val') else b1 == g[b]
    ensures ok ==> g' == g[b := FinishedAs(t.exprs, b1, val, val', outUse, doStmts)] && Levelled(g', lv)
    ensures ok && (g[b].term.Br? ==> SafeX(b1, outUse) && !AllOnes(b1, outUse)) ==> Preserves(g, g', lv, lv, root)
  {
    assert BlockDone(es, g[b], g[b], valIn[b], vals[b], oval[b]);
    assert InTable(t.exprs, val);
    var b', v, o;
    ok, b', v, o, b1 := OptBlk(t, g[b], val, outUse, doStmts);
    val' := v;
    g' := g[b := b'];
    if ok {
      ReplacedLevelled(g, lv, b, b');
      if g[b].term.Br? ==> SafeX(b1, outUse) && !AllOnes(b1, outUse) {
        KeptEverywhere(es, t.exprs, g[b], b1, b', val, val', outUse, doStmts);
        ReplacePreserves(es, g, lv, root, valIn, vals, oval, b, b');
      }
    }
  }

  lemma KeptEverywhere(es: seq<Expr>, es': seq<Expr>, b: Block, b1: Block, b': Block, val: Vals, val': Vals,
                       outUse: set<Atom>, doStmts: bool)
    requires b.term.Br? == b'.term.Br? && b1.term == b.term && Grown(es, es') && InTable(es, val)
    requires BlockKept(es', b, b1, b', val, val', outUse, doStmts) && KnownList(b.stmts, val)
    requires b.term.Br? ==> SafeX(b1, outUse) && !AllOnes(b1, outUse)
    ensures forall p, r | Matches(es, val, p, r) :: KeptOn(b, b', outUse, p, r, false)
  {
    forall p, r | Matches(es, val, p, r) ensures KeptOn(b, b', outUse, p, r, false) {
      MatchesStable(es, es', val, p, r);
      assert KeptOn(b, b', outUse, p, r, Hit(b1, val, val', outUse, doStmts, p, r));
    }
  }

  lemma ReplacePreserves(es: seq<Expr>, g: Graph, lv: seq<nat>, root: nat, valIn: seq<Vals>, vals: seq<Vals>,
                         oval: seq<nat>, b: nat, b': Block)
    requires Levelled(g, lv) && root < |g| && Numbered(es, g, g, lv, root, valIn, vals, oval, Reach(g, lv, root))
    requires AllKnown(g, lv, root, valIn)
    requires b < |g| && b'.term.Br? == g[b].term.Br? && Levelled(g[b := b'], lv)
    requires forall p, r | Matches(es, valIn[b], p, r) :: KeptOn(g[b], b', OutUse(g, lv, b), p, r, false)
    ensures Preserves(g, g[b := b'], lv, lv, root)
  {
    assert Joined(g, lv, root, valIn, vals, root);
    forall p, r | Run(g, lv, root, p, r).Return? ensures Run(g[b := b'], lv, root, p, r) == Run(g, lv, root, p, r) {
      ReplacedRuns(es, g, lv, root, valIn, vals, oval, b, b', root, p, r);
    }
  }

  // All blocks

  /** Block `b` has been optimized, as `b1` after opt_stmt and `b'` in the end. */
  ghost predicate Finished(es: seq<Expr>, g: Graph, lv: seq<nat>, b: nat, b1: Block, b': Block, val: Vals, val': Vals,
                           doStmts: bool)
    requires Levelled(g, lv) && b < |g| && WellFounded(es)
  {
    && b1.term == g[b].term && b'.term.Br? == g[b].term.Br?
    && (if g[b].term.Br? then {b'.term.jt, b'.term.jf} <= {g[b].term.jt, g[b].term.jf} else b' == g[b])
    && BlockKept(es, g[b], b1, b', val, val', OutUse(g, lv, b), doStmts)
    && (!doStmts ==> EndKept(es, g[b], b', val', OutUse(g, lv, b)))
    && b' == FinishedAs(es, b1, val, val', OutUse(g, lv, b), doStmts)
  }

  lemma FinishedGrows(es: seq<Expr>, es': seq<Expr>, g: Graph, g1: Graph, g': Graph, lv: seq<nat>, valIn: seq<Vals>,
                      vals: seq<Vals>, doStmts: bool, done: set<nat>)
    requires Levelled(g, lv) && |g1| == |g'| == |valIn| == |vals| == |g| && Grown(es, es')
    requires forall b | b in done :: b < |g| && InTable(es, valIn[b]) && InTable(es, vals[b])
    requires AllFinished(es, g, g1, g', lv, valIn, vals, doStmts, done)
    ensures AllFinished(es', g, g1, g', lv, valIn, vals, doStmts, done)
  {
    forall b | b in done ensures Finished(es', g, lv, b, g1[b], g'[b], valIn[b], vals[b], doStmts) {
      assert Finished(es, g, lv, b, g1[b], g'[b], valIn[b], vals[b], doStmts);
      BlockKeptGrows(es, es', g[b], g1[b], g'[b], valIn[b], vals[b], OutUse(g, lv, b), doStmts);
      ConstsStay(es, es', vals[b]);
    }
  }

  ghost predicate AllFinished(es: seq<Expr>, g: Graph, g1: Graph, g': Graph, lv: seq<nat>, valIn: seq<Vals>,
                              vals: seq<Vals>, doStmts: bool, done: set<nat>)
    requires Levelled(g, lv) && WellFounded(es) && |g1| == |g'| == |valIn| == |vals| == |g|
  {
    forall b | 0 <= b < |g| :: if b in done then Finished(es, g, lv, b, g1[b], g'[b], valIn[b], vals[b], doStmts)
      else g'[b] == g1[b]
  }

  /** The numbers at the entry of the next block describe the registers the run brings there. */
  lemma MatchesNext(es: seq<Expr>, g: Graph, g1: Graph, lv: seq<nat>, root: nat, valIn: seq<Vals>, vals: seq<Vals>,
                    oval: seq<nat>, e: Edge, p: Packet, r: Regs)
    requires Levelled(g, lv) && root < |g| && Numbered(es, g, g1, lv, root, valIn, vals, oval, Reach(g, lv, root))
    requires AllKnown(g, lv, root, valIn)
    requires ValidEdge(g, e) && e.src in Reach(g, lv, root) && Dst(g, e) in Reach(g, lv, root)
    requires Matches(es, valIn[e.src], p, r) && ExecAll(g[e.src].stmts, p, r).Some?
    ensures Matches(es, valIn[Dst(g, e)], p, ExecAll(g[e.src].stmts, p, r).value)
  {
    var x := e.src;
    assert BlockDone(es, g[x], g1[x], valIn[x], vals[x], oval[x]);
    MatchesFromOn(es, g[x].stmts, g1[x].stmts, valIn[x], vals[x], p, r);
    assert Joined(g, lv, root, valIn, vals, Dst(g, e));
  }

  lemma FinishedLevelled(es: seq<Expr>, g: Graph, g1: Graph, g': Graph, lv: seq<nat>, root: nat, valIn: seq<Vals>,
                         vals: seq<Vals>, oval: seq<nat>, doStmts: bool, done: set<nat>)
    requires Levelled(g, lv) && root < |g| && Numbered(es, g, g1, lv, root, valIn, vals, oval, Reach(g, lv, root))
    requires |g'| == |g| && AllFinished(es, g, g1, g', lv, valIn, vals, doStmts, done)
    ensures Levelled(g', lv)
  {
    NumberedLevelled(es, g, g1, lv, root, valIn, vals, oval, Reach(g, lv, root));
    forall x, d | 0 <= x < |g'| && g'[x].term.Br? ensures EdgeDown(g', lv, x, d) {
      if x in done {
        assert Finished(es, g, lv, x, g1[x], g'[x], valIn[x], vals[x], doStmts);
        assert Succ(g'[x], d) in {g'[x].term.jt, g'[x].term.jf};
        assert EdgeDown(g, lv, x, true) && EdgeDown(g, lv, x, false);
      } else {
        assert EdgeDown(g1, lv, x, d);
      }
    }
  }

  /** Number all blocks, rewrite each by the special case or by the peephole rules and the removal of dead stores, and
      number the operands of the tests they then end with. */
  method OptBlks(t: Table, g: Graph, ghost lv: seq<nat>, levels: seq<seq<nat>>, root: nat, rootLevel: nat,
                 inEdges: seq<seq<Edge>>, outUse: seq<set<Atom>>, doStmts: bool)
    returns (ok: bool, g': Graph, vals: seq<Vals>, oval: seq<nat>, ghost oval0: seq<nat>, ghost valIn: seq<Vals>,
             ghost g1: Graph)
    requires LevelLists(g, lv, root, levels) && rootLevel == lv[root] && EdgesFrom(g, Reach(g, lv, root), inEdges)
    requires SweepReady(g, lv, root, outUse)
    requires t.Valid() && t.exprs == [] && |t.vmap| == Maxval(g, |g|)
    modifies t
    ensures t.Valid() && (!doStmts ==> ok && g1 == g)
    ensures ok ==>
              Numbered(t.exprs, g, g1, lv, root, valIn, vals, oval0, Reach(g, lv, root)) && |g'| == |g|
              && Levelled(g', lv)
    ensures ok ==> AllFinished(t.exprs, g, g1, g', lv, valIn, vals, doStmts, Reach(g, lv, root))
    ensures ok ==> Traced(t.exprs, g, g1, lv, root, valIn, vals, Reach(g, lv, root), doStmts)
    ensures ok ==> |oval| == |g| && forall b | 0 <= b < |g| :: OperandOk(t.exprs, g'[b].term, vals[b], oval[b])
    ensures !ok ==> exists x :: x in Reach(g, lv, root) && FaultsIfClosed(g[x])
  {
    var h, entry;
    ok, h, vals, oval, entry := NumberBlocks(t, g, lv, levels, root, rootLevel, inEdges, doStmts);
    g', oval0, valIn, g1 := h, oval, entry, h;
    if ok {
      g' := FinishAll(t, g, h, lv, levels, root, rootLevel, entry, vals, oval0, outUse, doStmts);
      FinishedLevelled(t.exprs, g, h, g', lv, root, entry, vals, oval0, doStmts, Reach(g, lv, root));
      ghost var es := t.exprs;
      EntriesInTable(es, g, h, lv, root, entry, vals, oval0);
      oval := OperandNumbers(t, g', vals);
      NumberedGrows(es, t.exprs, g, h, lv, root, entry, vals, oval0, Reach(g, lv, root));
      TracedGrows(es, t.exprs, g, h, lv, root, entry, vals, Reach(g, lv, root), doStmts);
      FinishedGrows(es, t.exprs, g, h, g', lv, entry, vals, doStmts, Reach(g, lv, root));
    }
  }

  lemma EntriesInTable(es: seq<Expr>, g: Graph, g1: Graph, lv: seq<nat>, root: nat, valIn: seq<Vals>, vals: seq<Vals>,
                       oval: seq<nat>)
    requires Levelled(g, lv) && root < |g| && Numbered(es, g, g1, lv, root, valIn, vals, oval, Reach(g, lv, root))
    ensures forall b | b in Reach(g, lv, root) :: b < |g| && InTable(es, valIn[b]) && InTable(es, vals[b])
  {
    forall b | b in Reach(g, lv, root) ensures InTable(es, valIn[b]) {
      assert BlockDone(es, g[b], g1[b], valIn[b], vals[b], oval[b]);
    }
  }

  /** What is used on exit from every reachable block, and that returns are empty. */
  ghost predicate SweepReady(g: Graph, lv: seq<nat>, root: nat, outUse: seq<set<Atom>>)
    requires Levelled(g, lv) && root < |g|
  {
    |outUse| == |g|
    && forall b | b in Reach(g, lv, root) :: outUse[b] == OutUse(g, lv, b) && (g[b].term.Ret? ==> g[b].stmts == [])
  }

  /** Finish every numbered block. */
  method FinishAll(t: Table, g: Graph, g1: Graph, ghost lv: seq<nat>, levels: seq<seq<nat>>, root: nat, rootLevel: nat,
                   valIn: seq<Vals>, vals: seq<Vals>, ghost oval: seq<nat>, outUse: seq<set<Atom>>, doStmts: bool)
                       returns (g': Graph)
    requires LevelLists(g, lv, root, levels) && rootLevel == lv[root] && SweepReady(g, lv, root, outUse)
    requires !doStmts ==> g1 == g
    requires t.Valid() && Numbered(t.exprs, g, g1, lv, root, valIn, vals, oval, Reach(g, lv, root))
    ensures |g'| == |g| && AllFinished(t.exprs, g, g1, g', lv, valIn, vals, doStmts, Reach(g, lv, root))
  {
    g' := g1;
    assert Above(g, lv, root, rootLevel + 1) == {};
    for i := rootLevel + 1 downto 0
      invariant |g'| == |g| && AllFinished(t.exprs, g, g1, g', lv, valIn, vals, doStmts, Above(g, lv, root, i))
    {
      g' := FinishLevel(t, g, g1, g', lv, levels, root, i, valIn, vals, oval, outUse, doStmts);
    }
    assert Above(g, lv, root, 0) == Reach(g, lv, root);
  }

  method FinishLevel(t: Table, g: Graph, g1: Graph, g2: Graph, ghost lv: seq<nat>, levels: seq<seq<nat>>,
                     ghost root: nat, i: nat, valIn: seq<Vals>, vals: seq<Vals>, ghost oval: seq<nat>,
                     outUse: seq<set<Atom>>, doStmts: bool)
    returns (g': Graph)
    requires LevelLists(g, lv, root, levels) && i < |levels| && SweepReady(g, lv, root, outUse)
    requires !doStmts ==> g1 == g
    requires t.Valid() && Numbered(t.exprs, g, g1, lv, root, valIn, vals, oval, Reach(g, lv, root))
    requires |g2| == |g| && AllFinished(t.exprs, g, g1, g2, lv, valIn, vals, doStmts, Above(g, lv, root, i + 1))
    ensures |g'| == |g| && AllFinished(t.exprs, g, g1, g', lv, valIn, vals, doStmts, Above(g, lv, root, i))
  {
    g' := g2;
    VisitLevel(g, lv, root, levels, i);
    for j := 0 to |levels[i]|
      invariant |g'| == |g|
      invariant AllFinished(t.exprs, g, g1, g', lv, valIn, vals, doStmts, Visited(g, lv, root, levels, i, j))
    {
      VisitNext(g, lv, root, levels, i, j);
      var b := levels[i][j];
      var b' := FinishNext(t, g, g1, lv, root, valIn, vals, oval, b, outUse[b], doStmts);
      FinishedNext(t.exprs, g, g1, g', lv, valIn, vals, doStmts, Visited(g, lv, root, levels, i, j), b, b');
      g' := g'[b := b'];
    }
  }

  lemma FinishedNext(es: seq<Expr>, g: Graph, g1: Graph, g': Graph, lv: seq<nat>, valIn: seq<Vals>, vals: seq<Vals>,
                     doStmts: bool, done: set<nat>, b: nat, b': Block)
    requires Levelled(g, lv) && WellFounded(es) && |g1| == |g'| == |valIn| == |vals| == |g| && b < |g|
    requires AllFinished(es, g, g1, g', lv, valIn, vals, doStmts, done)
    requires Finished(es, g, lv, b, g1[b], b', valIn[b], vals[b], doStmts)
    ensures AllFinished(es, g, g1, g'[b := b'], lv, valIn, vals, doStmts, done + {b})
  {
  }

  method FinishNext(t: Table, g: Graph, g1: Graph, ghost lv: seq<nat>, ghost root: nat, valIn: seq<Vals>,
                    vals: seq<Vals>, ghost oval: seq<nat>, b: nat, outUse: set<Atom>, doStmts: bool)
    returns (b': Block)
    requires Levelled(g, lv) && root < |g| && t.Valid()
    requires Numbered(t.exprs, g, g1, lv, root, valIn, vals, oval, Reach(g, lv, root))
    requires b in Reach(g, lv, root) && outUse == OutUse(g, lv, b) && (g[b].term.Ret? ==> g[b].stmts == [])
    requires !doStmts ==> g1 == g
    ensures Finished(t.exprs, g, lv, b, g1[b], b', valIn[b], vals[b], doStmts)
  {
    assert BlockDone(t.exprs, g[b], g1[b], valIn[b], vals[b], oval[b]);
    b' := FinishBlk(t, g[b], g1[b], valIn[b], vals[b], outUse, doStmts);
  }

  // Self-contained blocks

  lemma SelfContainedKnown(g: Graph, lv: seq<nat>, root: nat, valIn: seq<Vals>)
    requires Levelled(g, lv) && root < |g| && |valIn| == |g| && AllSelfContained(g)
    ensures AllKnown(g, lv, root, valIn)
  {
    forall b | b in Reach(g, lv, root) ensures KnownList(g[b].stmts, valIn[b]) {
      assert SelfContained(g[b]);
      LiveInGrows(g[b].stmts, {}, TermUse(g[b].term));
    }
  }

  lemma NothingUsed(g: Graph, h: seq<nat>, b: nat)
    requires Levelled(g, h) && b < |g| && AllSelfContained(g)
    ensures OutUse(g, h, b) == {}
  {
    if g[b].term.Br? {
      assert EdgeDown(g, h, b, true) && EdgeDown(g, h, b, false);
      SelfContainedNothingLive(g, h, g[b].term.jt);
      SelfContainedNothingLive(g, h, g[b].term.jf);
    }
  }

  /** Return blocks have no statements. */
  ghost predicate ReturnsEmpty(g: Graph) { forall b | 0 <= b < |g| && g[b].term.Ret? :: g[b].stmts == [] }

  /** The peephole rules are safe for the block, whose successors read `outUse`: it does not use the index of an
      access twice, nor test all bits at once. */
  ghost predicate SafeIn(b: Block, outUse: set<Atom>) { b.term.Br? ==> SafeX(b, outUse) && !AllOnes(b, outUse) }

  ghost predicate SafeEnd(b: Block) { SafeIn(b, {}) }

  /** Without rewriting of statements a self-contained block stays one. */
  lemma StaysSelfContained(es: seq<Expr>, g: Graph, h: seq<nat>, b: nat, b1: Block, b': Block, val: Vals, val': Vals,
                           doStmts: bool)
    requires Levelled(g, h) && b < |g| && AllSelfContained(g) && WellFounded(es)
    requires Finished(es, g, h, b, b1, b', val, val', doStmts)
    requires doStmts ==> SelfContained(b')
    ensures SelfContained(b')
  {
    assert SelfContained(g[b]);
    NothingUsed(g, h, b);
  }

  /** The swept graph is fit for another sweep. */
  lemma SweptAgain(es: seq<Expr>, g: Graph, g1: Graph, g': Graph, h: seq<nat>, root: nat, valIn: seq<Vals>,
                   vals: seq<Vals>, oval: seq<nat>, doStmts: bool)
    requires Levelled(g, h) && root < |g| && Numbered(es, g, g1, h, root, valIn, vals, oval, Reach(g, h, root))
    requires |g'| == |g| && AllFinished(es, g, g1, g', h, valIn, vals, doStmts, Reach(g, h, root))
    requires AllSelfContained(g) && ReturnsEmpty(g)
    requires doStmts ==> forall b | b in Reach(g, h, root) :: SelfContained(g'[b])
    ensures AllSelfContained(g') && ReturnsEmpty(g')
  {
    forall b | 0 <= b < |g'| ensures SelfContained(g'[b]) && (g'[b].term.Ret? ==> g'[b].stmts == []) {
      assert SelfContained(g[b]);
      if b in Reach(g, h, root) {
        assert Finished(es, g, h, b, g1[b], g'[b], valIn[b], vals[b], doStmts);
        StaysSelfContained(es, g, h, b, g1[b], g'[b], valIn[b], vals[b], doStmts);
      }
    }
  }
}
