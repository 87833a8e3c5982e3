/** A sweep over all blocks with the liveness found before it (opt_blks): when the rest of opt_blk deletes nothing
    that the rewritten statements have come to need. */
module Sweep {
  import opened Machine
  import opened Graph
  import opened Levels
  import opened Liveness
  import opened Dominance
  import opened DeadStores
  import opened ValueTable
  import opened Numbering
  import opened NumberingPass
  import opened Peephole
  import opened BlockPass

  /** What the block reads first, if `used` is read after it. */
  ghost function Needs(b: Block, used: set<Atom>): set<Atom> { LiveIn(b.stmts, TermUse(b.term) + used) }

  /** `used` says of each of the blocks at least what is read after it. */
  ghost predicate Covers(g: Graph, used: seq<set<Atom>>, blocks: set<nat>) {
    |used| == |g| &&
    forall x, d | x in blocks && x < |g| && g[x].term.Br? :: CoversEdge(g, used, x, d)
  }

  ghost predicate CoversEdge(g: Graph, used: seq<set<Atom>>, x: nat, d: bool)
    requires |used| == |g| && x < |g| && g[x].term.Br?
  {
    var y := Succ(g[x], d);
    y < |g| && Needs(g[y], used[y]) <= used[x]
  }

  /** Block `b`, as its statements were rewritten, is finished with the old liveness `outUse` as it would be if also
      `used` was known to be read after it; no statement dropped by the special case sets an atom of `used`. */
  ghost predicate Unharmed(es: seq<Expr>, b: Block, val: Vals, val': Vals, outUse: set<Atom>, used: set<Atom>,
                           doStmts: bool) {
    var b1 := Trim(b, val, val', outUse, doStmts);
    && (Dropped(b, val, val', outUse, doStmts) ==>
        forall a | a in used && a != A_ATOM && a != X_ATOM :: a !in DefsAll(b.stmts))
    && (b.term.Br? ==>
          && SafeX(b1, outUse + used) && !AllOnes(b1, outUse + used)
          && Rest(b1, outUse, ConstIn(es, val'[X_ATOM]), ConstIn(es, val'[A_ATOM]))
             == Rest(b1, outUse + used, ConstIn(es, val'[X_ATOM]), ConstIn(es, val'[A_ATOM])))
  }

  /** It is finished so if the rest of opt_blk leaves the atoms of `used` alone: it merges no indexed access if X is
      among them, no arithmetic if the accumulator is, and deletes no statement that sets one of them. */
  lemma AtomsLeft(b: Block, outUse: set<Atom>, used: set<Atom>, constX: Option<Word>, constA: Option<Word>)
    requires b.term.Br?
    requires b.stmts != [] && X_ATOM in used - outUse ==> PeepFrom(b.stmts, 0, false) == PeepFrom(b.stmts, 0, true)
    requires b.stmts != [] && A_ATOM in used - outUse ==>
               var (ss, last) := PeepFrom(b.stmts, 0, X_ATOM in outUse); !Merging(b.term, ss[last], false, constX)
    requires var b2 := PeepedBlock(b, outUse, constX, constA);
             forall j | 0 <= j < |b2.stmts| && Dead(b2.stmts, j, TermUse(b2.term) + outUse) ::
               AtomDef(b2.stmts[j]).value !in used
    ensures Rest(b, outUse, constX, constA) == Rest(b, outUse + used, constX, constA)
  {
    var b2 := PeepedBlock(b, outUse, constX, constA);
    assert PeepedBlock(b, outUse + used, constX, constA) == b2;
    var live := TermUse(b2.term) + outUse;
    forall j | 0 <= j < |b2.stmts| ensures Dead(b2.stmts, j, live) <==> Dead(b2.stmts, j, live + used) {
      LiveInGrows(b2.stmts[j + 1..], live, live + used);
      if Dead(b2.stmts, j, live) && AtomDef(b2.stmts[j]).value in LiveIn(b2.stmts[j + 1..], live + used) {
        PassesThrough(b2.stmts[j + 1..], live, used, AtomDef(b2.stmts[j]).value);
      }
    }
    assert live + used == TermUse(b2.term) + (outUse + used);
    assert Swept(b2.stmts, SweptList(b2.stmts, live), live + used);
  }

  // One block

  /** A list leaves alone what it does not set. */
  lemma {:induction false} LeavesAlone(ss: seq<Stmt>, p: Packet, r: Regs, a: Atom)
    requires ExecAll(ss, p, r).Some? && a !in DefsAll(ss)
    ensures ExecAll(ss, p, r).value[a] == r[a]
  {
    if ss != [] {
      ExecUsesAndDefs(ss[0], p, r, r);
      LeavesAlone(ss[1..], p, Exec(ss[0], p, r).value, a);
    }
  }

  /** What is known of a rewritten block's run: `bs` is `b` with its statements rewritten. */
  ghost predicate Rewritten(es: seq<Expr>, b: Block, bs: Block, val: Vals, val': Vals, p: Packet, r: Regs) {
    && ListOk(es, b.stmts, bs.stmts, val, val') && bs.term == b.term && KnownList(b.stmts, val)
    && Matches(es, val, p, r)
    && ExecAll(b.stmts, p, r).Some?
  }

  /** The trimmed block leaves `used`, A and X as the block does. */
  lemma TrimmedEnd(es: seq<Expr>, b: Block, bs: Block, val: Vals, val': Vals, outUse: set<Atom>, used: set<Atom>,
                   doStmts: bool, p: Packet, r: Regs)
    requires Rewritten(es, b, bs, val, val', p, r) && Unharmed(es, bs, val, val', outUse, used, doStmts) && b.term.Br?
    ensures var t := Trim(bs, val, val', outUse, doStmts);
            && ExecAll(t.stmts, p, r).Some?
            && Agree(used + {A_ATOM, X_ATOM}, ExecAll(b.stmts, p, r).value, ExecAll(t.stmts, p, r).value)
  {
    assert ExecAll(bs.stmts, p, r) == ExecAll(b.stmts, p, r);
    if Dropped(bs, val, val', outUse, doStmts) {
      var q := ExecAll(b.stmts, p, r).value;
      MatchesFromOn(es, b.stmts, bs.stmts, val, val', p, r);
      assert Den(es, val[A_ATOM], p) == Some(r[A_ATOM]) && Den(es, val[X_ATOM], p) == Some(r[X_ATOM]);
      assert Den(es, val'[A_ATOM], p) == Some(q[A_ATOM]) && Den(es, val'[X_ATOM], p) == Some(q[X_ATOM]);
      forall a: Atom | a in used && a != A_ATOM && a != X_ATOM ensures q[a] == r[a] { LeavesAlone(bs.stmts, p, r, a); }
    }
  }

  /** The constants known from the numbers hold. */
  lemma ConstsHold(es: seq<Expr>, b: Block, bs: Block, val: Vals, val': Vals, p: Packet, r: Regs, q1: Regs)
    requires Rewritten(es, b, bs, val, val', p, r) && Agree({A_ATOM, X_ATOM}, ExecAll(b.stmts, p, r).value, q1)
    ensures ConstsRight(q1, ConstIn(es, val'[X_ATOM]), ConstIn(es, val'[A_ATOM]))
  {
    MatchesFromOn(es, b.stmts, bs.stmts, val, val', p, r);
    var q := ExecAll(b.stmts, p, r).value;
    assert val'[A_ATOM] != 0 ==> Den(es, val'[A_ATOM], p) == Some(q[A_ATOM]);
    assert val'[X_ATOM] != 0 ==> Den(es, val'[X_ATOM], p) == Some(q[X_ATOM]);
  }

  lemma TrimmedNotConstant(es: seq<Expr>, b: Block, bs: Block, val: Vals, val': Vals, outUse: set<Atom>, doStmts: bool)
    requires ListOk(es, b.stmts, bs.stmts, val, val')
    ensures ConstIn(es, val'[A_ATOM]).Some? ==> !EndsInAlu(Trim(bs, val, val', outUse, doStmts).stmts)
  {
    if EndsInAlu(bs.stmts) { AluNotConstant(es, bs.stmts, val, val'); }
  }

  /** From `r` and `r'` the blocks leave `used` alike and go the same way. */
  ghost predicate InStepOn(b: Block, b': Block, used: set<Atom>, p: Packet, r: Regs, r': Regs)
    requires ExecAll(b.stmts, p, r).Some?
  {
    var q, q' := ExecAll(b.stmts, p, r).value, ExecAll(b'.stmts, p, r');
    && q'.Some? && Agree(used, q, q'.value) && b'.term.Br? == b.term.Br?
    && (b.term.Br? ==> Target(b'.term, q'.value) == Target(b.term, q))
    && (b.term.Ret? ==> b'.term == b.term)
  }

  /** The finished block, from a state that agrees on what it reads, leaves `used` as the block does and goes the
      same way. */
  lemma FinishedStep(es: seq<Expr>, b: Block, bs: Block, b': Block, val: Vals, val': Vals, outUse: set<Atom>,
                     used: set<Atom>, doStmts: bool, p: Packet, r: Regs, r': Regs)
    requires Rewritten(es, b, bs, val, val', p, r) && Unharmed(es, bs, val, val', outUse, used, doStmts) && b.term.Br?
    requires b' == FinishedAs(es, bs, val, val', outUse, doStmts) && Agree(Needs(b', used), r, r')
    ensures b'.term.Br? && InStepOn(b, b', used, p, r, r')
  {
    var t := Trim(bs, val, val', outUse, doStmts);
    var constX, constA := ConstIn(es, val'[X_ATOM]), ConstIn(es, val'[A_ATOM]);
    TrimmedEnd(es, b, bs, val, val', outUse, used, doStmts, p, r);
    var q, q1 := ExecAll(b.stmts, p, r).value, ExecAll(t.stmts, p, r).value;
    ConstsHold(es, b, bs, val, val', p, r, q1);
    TrimmedNotConstant(es, b, bs, val, val', outUse, doStmts);
    RestKept(t, outUse + used, constX, constA, p, r);
    assert KeptOn(t, b', outUse + used, p, r, false);
    LiveInSound(b'.stmts, TermUse(b'.term) + used, p, r, r');
    assert A_ATOM in TermUse(b'.term);
    assert Target(t.term, q1) == Target(b.term, q);
  }

  // The whole filter

  /** The numbered filter, with `gs` as opt_stmt leaves it, and what the sweep has made of it. */
  ghost predicate SweptTo(es: seq<Expr>, g: Graph, gs: Graph, g': Graph, lv: seq<nat>, root: nat, valIn: seq<Vals>,
                          vals: seq<Vals>, oval: seq<nat>, doStmts: bool) {
    && Levelled(g, lv) && root < |g| && |g'| == |g| && Levelled(g', lv)
    && Numbered(es, g, gs, lv, root, valIn, vals, oval, Reach(g, lv, root))
    && AllFinished(es, g, gs, g', lv, valIn, vals, doStmts, Reach(g, lv, root))
  }

  ghost predicate AllUnharmed(es: seq<Expr>, g: Graph, gs: Graph, lv: seq<nat>, root: nat, valIn: seq<Vals>,
                              vals: seq<Vals>, used: seq<set<Atom>>, doStmts: bool)
    requires Levelled(g, lv) && root < |g| && |gs| == |valIn| == |vals| == |used| == |g|
  {
    forall b | b in Reach(g, lv, root) :: Unharmed(es, gs[b], valIn[b], vals[b], OutUse(g, lv, b), used[b], doStmts)
  }

  lemma {:induction false} UnharmedRuns(es: seq<Expr>, g: Graph, gs: Graph, g': Graph, lv: seq<nat>, root: nat,
                                        valIn: seq<Vals>, vals: seq<Vals>, oval: seq<nat>, used: seq<set<Atom>>,
                                        doStmts: bool, x: nat, p: Packet, r: Regs, r': Regs)
    requires SweptTo(es, g, gs, g', lv, root, valIn, vals, oval, doStmts) && AllKnown(g, lv, root, valIn)
    requires Covers(g', used, Reach(g, lv, root)) && AllUnharmed(es, g, gs, lv, root, valIn, vals, used, doStmts)
    requires x in Reach(g, lv, root) && Matches(es, valIn[x], p, r) && Agree(Needs(g'[x], used[x]), r, r')
    requires Run(g, lv, x, p, r).Return?
    ensures Run(g', lv, x, p, r') == Run(g, lv, x, p, r)
    decreases lv[x]
  {
    assert Finished(es, g, lv, x, gs[x], g'[x], valIn[x], vals[x], doStmts);
    if g[x].term.Br? {
      assert BlockDone(es, g[x], gs[x], valIn[x], vals[x], oval[x]);
      assert Unharmed(es, gs[x], valIn[x], vals[x], OutUse(g, lv, x), used[x], doStmts);
      FinishedStep(es, g[x], gs[x], g'[x], valIn[x], vals[x], OutUse(g, lv, x), used[x], doStmts, p, r, r');
      var q, q' := ExecAll(g[x].stmts, p, r).value, ExecAll(g'[x].stmts, p, r').value;
      var e, d := Edge(x, Holds(g[x].term.test, q)), Holds(g'[x].term.test, q');
      assert EdgeDown(g, lv, x, e.dir) && EdgeDown(g', lv, x, d);
      ReachClosed(g, lv, root, e);
      MatchesNext(es, g, gs, lv, root, valIn, vals, oval, e, p, r);
      assert CoversEdge(g', used, x, d);
      UnharmedRuns(es, g, gs, g', lv, root, valIn, vals, oval, used, doStmts, Dst(g, e), p, q, q');
    } else {
      LiveInSound(g[x].stmts, TermUse(g[x].term) + used[x], p, r, r');
    }
  }

  /** A sweep keeps the result of every run that does not fault, if every block is finished as it would be if what
      is read after it in the swept filter was known. */
  lemma UnharmedPreserves(es: seq<Expr>, g: Graph, gs: Graph, g': Graph, lv: seq<nat>, root: nat, valIn: seq<Vals>,
                          vals: seq<Vals>, oval: seq<nat>, used: seq<set<Atom>>, doStmts: bool)
    requires SweptTo(es, g, gs, g', lv, root, valIn, vals, oval, doStmts) && AllKnown(g, lv, root, valIn)
    requires Covers(g', used, Reach(g, lv, root)) && AllUnharmed(es, g, gs, lv, root, valIn, vals, used, doStmts)
    ensures Preserves(g, g', lv, lv, root)
  {
    assert Joined(g, lv, root, valIn, vals, root);
    forall p, r | Run(g, lv, root, p, r).Return? ensures Run(g', lv, root, p, r) == Run(g, lv, root, p, r) {
      UnharmedRuns(es, g, gs, g', lv, root, valIn, vals, oval, used, doStmts, root, p, r, r);
    }
  }

  // The liveness of the rewritten filter

  /** The filter after opt_stmt and the special case, before the rest of opt_blk. */
  ghost predicate TrimmedTo(g: Graph, gs: Graph, g1: Graph, lv: seq<nat>, root: nat, valIn: seq<Vals>, vals: seq<Vals>,
                            doStmts: bool)
    requires Levelled(g, lv) && root < |g| && |gs| == |valIn| == |vals| == |g|
  {
    && |g1| == |g|
    && (forall b | b in Reach(g, lv, root) :: g1[b] == Trim(gs[b], valIn[b], vals[b], OutUse(g, lv, b), doStmts))
    && (forall b | 0 <= b < |g| && b !in Reach(g, lv, root) :: g1[b] == gs[b])
  }

  /** Trimming keeps the branches. */
  lemma TrimmedLevelled(es: seq<Expr>, g: Graph, gs: Graph, g1: Graph, lv: seq<nat>, root: nat, valIn: seq<Vals>,
                        vals: seq<Vals>, oval: seq<nat>, doStmts: bool)
    requires Levelled(g, lv) && root < |g| && Numbered(es, g, gs, lv, root, valIn, vals, oval, Reach(g, lv, root))
    requires TrimmedTo(g, gs, g1, lv, root, valIn, vals, doStmts)
    ensures Levelled(g1, lv) && forall b | 0 <= b < |g| :: g1[b].term == g[b].term
  {
    forall b | 0 <= b < |g| ensures g1[b].term == g[b].term {
      if b in Reach(g, lv, root) { assert BlockDone(es, g[b], gs[b], valIn[b], vals[b], oval[b]); }
    }
    forall b, d | 0 <= b < |g1| && g1[b].term.Br? ensures EdgeDown(g1, lv, b, d) { assert EdgeDown(g, lv, b, d); }
  }

  /** What is read after each block of a filter. */
  ghost function OutUses(g: Graph, lv: seq<nat>): (used: seq<set<Atom>>)
    requires Levelled(g, lv)
    ensures |used| == |g| && forall b | 0 <= b < |g| :: used[b] == OutUse(g, lv, b)
  {
    seq(|g|, b requires 0 <= b < |g| => OutUse(g, lv, b))
  }

  /** If every block is finished as it would be with the liveness of the rewritten filter `g1`, that liveness covers the
      swept filter: the rest of opt_blk makes no block read more. */
  lemma RewrittenCovers(es: seq<Expr>, g: Graph, gs: Graph, g1: Graph, g': Graph, lv: seq<nat>, root: nat,
                        valIn: seq<Vals>, vals: seq<Vals>, oval: seq<nat>, doStmts: bool)
    requires SweptTo(es, g, gs, g', lv, root, valIn, vals, oval, doStmts) && Levelled(g1, lv)
    requires TrimmedTo(g, gs, g1, lv, root, valIn, vals, doStmts)
    requires AllUnharmed(es, g, gs, lv, root, valIn, vals, OutUses(g1, lv), doStmts)
    ensures Covers(g', OutUses(g1, lv), Reach(g, lv, root))
  {
    TrimmedLevelled(es, g, gs, g1, lv, root, valIn, vals, oval, doStmts);
    var used := OutUses(g1, lv);
    forall x, d | x in Reach(g, lv, root) && g'[x].term.Br? ensures CoversEdge(g', used, x, d) {
      assert Finished(es, g, lv, x, gs[x], g'[x], valIn[x], vals[x], doStmts);
      assert Succ(g'[x], d) in {g'[x].term.jt, g'[x].term.jf};
      assert Succ(g'[x], d) in {g[x].term.jt, g[x].term.jf};
      RewrittenEdge(es, g, gs, g1, g', lv, root, valIn, vals, oval, doStmts, x, Succ(g'[x], d) == g[x].term.jt);
    }
  }

  lemma RewrittenEdge(es: seq<Expr>, g: Graph, gs: Graph, g1: Graph, g': Graph, lv: seq<nat>, root: nat,
                      valIn: seq<Vals>, vals: seq<Vals>, oval: seq<nat>, doStmts: bool, x: nat, d: bool)
    requires SweptTo(es, g, gs, g', lv, root, valIn, vals, oval, doStmts) && Levelled(g1, lv)
    requires TrimmedTo(g, gs, g1, lv, root, valIn, vals, doStmts)
    requires AllUnharmed(es, g, gs, lv, root, valIn, vals, OutUses(g1, lv), doStmts)
    requires x in Reach(g, lv, root) && g[x].term.Br? && g1[x].term == g[x].term
    ensures var y := Succ(g[x], d); y < |g| && Needs(g'[y], OutUse(g1, lv, y)) <= OutUse(g1, lv, x)
  {
    var y := Succ(g[x], d);
    assert EdgeDown(g, lv, x, d) && EdgeDown(g1, lv, x, true) && EdgeDown(g1, lv, x, false);
    ReachClosed(g, lv, root, Edge(x, d));
    assert InUse(g1, lv, y) <= OutUse(g1, lv, x);
    assert Finished(es, g, lv, y, gs[y], g'[y], valIn[y], vals[y], doStmts);
    assert BlockDone(es, g[y], gs[y], valIn[y], vals[y], oval[y]);
    assert Unharmed(es, gs[y], valIn[y], vals[y], OutUse(g, lv, y), OutUse(g1, lv, y), doStmts);
    FinishedNeeds(es, g[y], gs[y], valIn[y], vals[y], OutUse(g, lv, y), OutUse(g1, lv, y), doStmts);
  }

  /** The finished block reads no more than the trimmed one. */
  lemma FinishedNeeds(es: seq<Expr>, b: Block, bs: Block, val: Vals, val': Vals, outUse: set<Atom>, used: set<Atom>,
                      doStmts: bool)
    requires ListOk(es, b.stmts, bs.stmts, val, val') && Unharmed(es, bs, val, val', outUse, used, doStmts)
    ensures Needs(FinishedAs(es, bs, val, val', outUse, doStmts), used) <= Needs(Trim(bs, val, val', outUse, doStmts),
            used)
  {
    var t := Trim(bs, val, val', outUse, doStmts);
    if bs.term.Br? {
      TrimmedNotConstant(es, b, bs, val, val', outUse, doStmts);
      RestNeeds(t, outUse + used, ConstIn(es, val'[X_ATOM]), ConstIn(es, val'[A_ATOM]), used);
    }
  }

  /** A sweep keeps the result of every run that does not fault, if every block is finished as it would be with the
      liveness of the filter after its statements were rewritten. */
  lemma SweepPreserves(es: seq<Expr>, g: Graph, gs: Graph, g1: Graph, g': Graph, lv: seq<nat>, root: nat,
                       valIn: seq<Vals>, vals: seq<Vals>, oval: seq<nat>, doStmts: bool)
    requires SweptTo(es, g, gs, g', lv, root, valIn, vals, oval, doStmts) && AllKnown(g, lv, root, valIn)
    requires TrimmedTo(g, gs, g1, lv, root, valIn, vals, doStmts) && Levelled(g1, lv)
    requires AllUnharmed(es, g, gs, lv, root, valIn, vals, OutUses(g1, lv), doStmts)
    ensures Preserves(g, g', lv, lv, root)
  {
    RewrittenCovers(es, g, gs, g1, g', lv, root, valIn, vals, oval, doStmts);
    UnharmedPreserves(es, g, gs, g', lv, root, valIn, vals, oval, OutUses(g1, lv), doStmts);
  }

  // Filters whose blocks are self-contained again

  /** If every block computes what it reads, nothing is read after any block. */
  lemma NothingCovers(g: Graph, lv: seq<nat>, blocks: set<nat>)
    requires Levelled(g, lv) && AllSelfContained(g)
    ensures Covers(g, seq(|g|, _ => {}), blocks)
  {
    var used: seq<set<Atom>> := seq(|g|, _ => {});
    forall x, d | x in blocks && x < |g| && g[x].term.Br? ensures CoversEdge(g, used, x, d) {
      assert EdgeDown(g, lv, x, d);
      var y := Succ(g[x], d);
      assert SelfContained(g[y]) && TermUse(g[y].term) + used[y] == TermUse(g[y].term);
    }
  }

  /** So a sweep whose result is self-contained keeps every result that is not a fault, if its rewritings are safe. */
  lemma ClosedPreserves(es: seq<Expr>, g: Graph, gs: Graph, g': Graph, lv: seq<nat>, root: nat, valIn: seq<Vals>,
                        vals: seq<Vals>, oval: seq<nat>, doStmts: bool)
    requires SweptTo(es, g, gs, g', lv, root, valIn, vals, oval, doStmts) && AllKnown(g, lv, root, valIn)
    requires AllSelfContained(g') && forall b | b in Reach(g, lv, root) :: SafeIn(gs[b], OutUse(g, lv, b))
    ensures Preserves(g, g', lv, lv, root)
  {
    var used: seq<set<Atom>> := seq(|g|, _ => {});
    NothingCovers(g', lv, Reach(g, lv, root));
    forall b | b in Reach(g, lv, root)
      ensures Unharmed(es, gs[b], valIn[b], vals[b], OutUse(g, lv, b), used[b], doStmts)
    {
      assert SafeIn(gs[b], OutUse(g, lv, b)) && OutUse(g, lv, b) + {} == OutUse(g, lv, b);
    }
    UnharmedPreserves(es, g, gs, g', lv, root, valIn, vals, oval, used, doStmts);
  }
}
