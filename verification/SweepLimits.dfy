/** A filter that one sweep with statement rewriting changes: a store that the numbers make redundant in one block
    and the liveness found before makes dead in another. */
module SweepLimits {
  import opened Machine
  import opened Graph
  import opened Levels
  import opened Liveness
  import opened Dominance
  import opened DeadStores
  import opened ValueTable
  import opened Numbering
  import opened NumberingPass
  import opened Peephole
  import opened BlockPass
  import opened Sweep
  import opened Optimizer

  /** Block 0 loads byte 0 and stores it; so does block 1, and then compares byte 1 with the stored word. */
  function First(s: Stmt): seq<Stmt> { [LdAbs(B, 0), s] }

  function Second(load: Stmt, s: Stmt): seq<Stmt> { [load, s, LdAbs(B, 1), Tax, LdMem(0)] }

  lemma IsSecond(ss: seq<Stmt>, load: Stmt, s: Stmt)
    ensures ss == Second(load, s) <==>
              |ss| == 5 && ss[0] == load && ss[1] == s && ss[2] == LdAbs(B, 1) && ss[3] == Tax && ss[4] == LdMem(0)
  {
  }

  function Storing(first: seq<Stmt>, second: seq<Stmt>): Graph {
    [Block(first, Br(JmpK(Jgt, 0), 1, 3)), Block(second, Br(JmpX(Jeq), 2, 3)), Block([], Ret(1)), Block([], Ret(0))]
  }

  function Original(): Graph { Storing(First(St(0)), Second(LdAbs(B, 0), St(0))) }

  /** Both stores are gone. */
  function Unstored(): Graph { Storing(First(Nop), Second(Nop, Nop)) }

  // The shape of the filter

  lemma OriginalLevelled(g: Graph)
    requires g == Original()
    ensures Levelled(g, [2, 1, 0, 0])
  {
    forall b, d | 0 <= b < 4 && g[b].term.Br? ensures EdgeDown(g, [2, 1, 0, 0], b, d) { }
  }

  lemma SecondReads(ss: seq<Stmt>)
    requires ss == Second(LdAbs(B, 0), St(0))
    ensures LiveIn(ss, {A_ATOM, X_ATOM}) == {}
  {
    var live := {A_ATOM, X_ATOM};
    assert ss[4..][1..] == [] && ss[3..][1..] == ss[4..] && ss[2..][1..] == ss[3..] && ss[1..][1..] == ss[2..];
    assert LiveIn(ss[4..], live) == {0, X_ATOM};
    assert LiveIn(ss[3..], live) == {0, A_ATOM};
    assert LiveIn(ss[2..], live) == {0};
    assert LiveIn(ss[1..], live) == {A_ATOM};
  }

  lemma FirstReads(ss: seq<Stmt>)
    requires ss == First(St(0))
    ensures LiveIn(ss, {A_ATOM}) == {}
  {
    assert ss[1..][1..] == [];
    assert LiveIn(ss[1..], {A_ATOM}) == {A_ATOM};
  }

  lemma OriginalReads(g: Graph, lv: seq<nat>)
    requires g == Original() && Levelled(g, lv)
    ensures AllSelfContained(g) && OutUse(g, lv, 0) == {} && OutUse(g, lv, 1) == {}
  {
    FirstReads(g[0].stmts);
    SecondReads(g[1].stmts);
    NothingUsed(g, lv, 0);
    NothingUsed(g, lv, 1);
  }

  lemma OriginalReach(g: Graph, lv: seq<nat>)
    requires g == Original() && Levelled(g, lv)
    ensures forall b: nat | b < 4 :: b in Reach(g, lv, 0)
  {
    ReachClosed(g, lv, 0, Edge(0, true));
    ReachClosed(g, lv, 0, Edge(1, true));
    ReachClosed(g, lv, 0, Edge(1, false));
  }

  // What opt_stmt makes of it

  /** `v` is the number of byte `k`. */
  ghost predicate IsByte(es: seq<Expr>, v: nat, k: Word) { 1 <= v <= |es| && es[v - 1] == VAbs(B, k) }

  lemma SameNumber(es: seq<Expr>, v: nat, w: nat, k: Word)
    requires NoDup(es) && IsByte(es, v, k) && IsByte(es, w, k)
    ensures v == w
  {
  }

  /** From no numbers at all, block 0 stays as it is, and leaves A and the word with the number of byte 0. */
  lemma FirstFormed(es: seq<Expr>, ss: seq<Stmt>, ss': seq<Stmt>, val: Vals, val': Vals)
    requires ss == First(St(0)) && FormedList(es, ss, ss', val, val') && forall a: Atom :: val[a] == 0
    ensures ss' == ss && val'[0] == val'[A_ATOM] && val'[X_ATOM] == 0
    ensures IsByte(es, val'[A_ATOM], 0)
  {
    var vs :| FormedAlong(es, ss, ss', vs) && vs[0] == val && vs[|ss|] == val';
    assert FormedAt(es, ss, ss', vs, 0) && FormedAt(es, ss, ss', vs, 1);
  }

  /** A load of a byte that A is known to hold is dropped. */
  lemma LoadDropped(es: seq<Expr>, k: Word, s': Stmt, val: Vals, val': Vals)
    requires NoDup(es) && IsByte(es, val[A_ATOM], k)
    requires Formed(es, LdAbs(B, k), s', val, val', true)
    ensures s' == Nop && val' == val
  {
    SameNumber(es, val'[A_ATOM], val[A_ATOM], k);
    assert val' == val;
  }

  /** A load of another byte is not. */
  lemma LoadKept(es: seq<Expr>, j: Word, k: Word, s': Stmt, val: Vals, val': Vals)
    requires IsByte(es, val[A_ATOM], j) && j != k && Formed(es, LdAbs(B, k), s', val, val', true)
    ensures s' == LdAbs(B, k) && IsByte(es, val'[A_ATOM], k) && val' == val[A_ATOM := val'[A_ATOM]]
  {
  }

  /** A move is dropped exactly if both atoms have the same number. */
  lemma MoveFormed(es: seq<Expr>, s: Stmt, s': Stmt, val: Vals, val': Vals)
    requires s == St(0) || s == Tax || (s == LdMem(0) && !Constant(es, val[0]))
    requires Formed(es, s, s', val, val', true)
    ensures val' == val[AtomDef(s).value := val[Source(s)]]
    ensures s' == if val[AtomDef(s).value] == val[Source(s)] then Nop else s
  {
  }

  /** By those numbers block 1 neither loads byte 0 nor stores it again. */
  lemma SecondSteps(es: seq<Expr>, ss: seq<Stmt>, ss': seq<Stmt>, vs: seq<Vals>)
    requires |ss| == |ss'| == 5 && |vs| == 6 && NoDup(es)
    requires ss[0] == LdAbs(B, 0) && ss[1] == St(0) && ss[2] == LdAbs(B, 1) && ss[3] == Tax && ss[4] == LdMem(0)
    requires FormedAt(es, ss, ss', vs, 0) && FormedAt(es, ss, ss', vs, 1) && FormedAt(es, ss, ss', vs, 2)
    requires FormedAt(es, ss, ss', vs, 3) && FormedAt(es, ss, ss', vs, 4)
    requires vs[0][0] == vs[0][A_ATOM] && vs[0][X_ATOM] == 0 && IsByte(es, vs[0][A_ATOM], 0)
    ensures ss'[0] == Nop && ss'[1] == Nop && ss'[2] == LdAbs(B, 1) && ss'[3] == Tax && ss'[4] == LdMem(0)
    ensures IsByte(es, vs[5][X_ATOM], 1) && vs[5][A_ATOM] == vs[0][A_ATOM]
  {
    LoadDropped(es, 0, ss'[0], vs[0], vs[1]);
    MoveFormed(es, St(0), ss'[1], vs[1], vs[2]);
    LoadKept(es, 0, 1, ss'[2], vs[2], vs[3]);
    MoveFormed(es, Tax, ss'[3], vs[3], vs[4]);
    MoveFormed(es, LdMem(0), ss'[4], vs[4], vs[5]);
  }

  lemma SecondFormed(es: seq<Expr>, ss: seq<Stmt>, ss': seq<Stmt>, val: Vals, val': Vals)
    requires ss == Second(LdAbs(B, 0), St(0)) && FormedList(es, ss, ss', val, val') && NoDup(es)
    requires val[0] == val[A_ATOM] && val[X_ATOM] == 0 && IsByte(es, val[A_ATOM], 0)
    ensures ss' == Second(Nop, Nop)
    ensures IsByte(es, val'[X_ATOM], 1) && val'[A_ATOM] == val[A_ATOM]
  {
    var vs :| FormedAlong(es, ss, ss', vs) && vs[0] == val && vs[|ss|] == val';
    SecondSteps(es, ss, ss', vs);
    IsSecond(ss', Nop, Nop);
  }

  /** Block 0 is the only predecessor of block 1. */
  lemma SecondInherits(g: Graph, lv: seq<nat>, valIn: seq<Vals>, vals: seq<Vals>)
    requires g == Original() && Levelled(g, lv) && |valIn| == |vals| == |g| && Inherits(g, lv, 0, valIn, vals, 1)
    ensures valIn[1] == vals[0]
  {
    OriginalReach(g, lv);
    var e := Edge(0, true);
    assert IsPred(g, lv, 0, 1, e);
    forall a: Atom ensures valIn[1][a] == vals[0][a] { assert AllLeave(g, lv, 0, vals, 1, a, vals[e.src][a]); }
  }

  // What the rest of opt_blk makes of it

  lemma FirstRest(b: Block, b': Block)
    requires b == Original()[0] && b' == Rest(b, {}, None, None)
    ensures b' == Unstored()[0]
  {
    var ss := b.stmts;
    assert NextReal(ss, 2) == 2 && NextReal(ss, 1) == 1 && NextReal(ss, 0) == 0;
    assert PeepFrom(ss, 1, false) == (ss, 1);
    assert PeepFrom(ss, 0, false) == (ss, 1);
    assert PeepedBlock(b, {}, None, None) == b;
    assert ss[2..] == [] && ss[1..] == [St(0)];
    assert LiveIn([St(0)][1..], {A_ATOM}) == {A_ATOM};
    assert TermUse(b.term) + {} == {A_ATOM};
    assert A_ATOM in LiveIn(ss[1..], {A_ATOM});
    assert Swept(ss, First(Nop), {A_ATOM});
  }

  lemma SecondPeeped(ss: seq<Stmt>)
    requires ss == Second(Nop, Nop)
    ensures PeepFrom(ss, 0, false) == (ss, 4)
  {
    assert NextReal(ss, 5) == 5 && NextReal(ss, 4) == 4 && NextReal(ss, 3) == 3 && NextReal(ss, 2) == 2;
    assert NextReal(ss, 1) == 2 && NextReal(ss, 0) == 2;
    assert PeepFrom(ss, 4, false) == (ss, 4);
    assert PeepFrom(ss, 3, false) == (ss, 4);
  }

  /** Nothing in block 1 is dead. */
  lemma SecondLive(ss: seq<Stmt>)
    requires ss == Second(Nop, Nop)
    ensures Swept(ss, ss, {A_ATOM, X_ATOM})
  {
    var live := {A_ATOM, X_ATOM};
    assert ss[5..] == [] && ss[4..] == [LdMem(0)] && ss[3..] == [Tax, LdMem(0)];
    assert LiveIn([LdMem(0)][1..], live) == live && [Tax, LdMem(0)][1..] == [LdMem(0)];
    assert X_ATOM in LiveIn(ss[4..], live) && A_ATOM in LiveIn(ss[3..], live) && A_ATOM in LiveIn(ss[5..], live);
    forall j | 0 <= j < 5 ensures !Dead(ss, j, live) { }
  }

  lemma SecondRest(b: Block, b': Block)
    requires b == Unstored()[1] && b' == Rest(b, {}, None, None)
    ensures b' == b
  {
    SecondPeeped(b.stmts);
    assert PeepedBlock(b, {}, None, None) == b;
    assert TermUse(b.term) + {} == {A_ATOM, X_ATOM};
    SecondLive(b.stmts);
  }

  /** What a sweep with statement rewriting has done to each block. */
  ghost predicate SweptEach(es: seq<Expr>, g: Graph, gs: Graph, g': Graph, h: seq<nat>, valIn: seq<Vals>,
                            vals: seq<Vals>) {
    && Levelled(g, h) && 0 < |g| && |gs| == |g'| == |valIn| == |vals| == |g| && NoDup(es)
    && (forall a: Atom :: valIn[0][a] == 0)
    && forall b | b in Reach(g, h, 0) :: b < |g| && SweptAt(es, g, gs, g', h, valIn, vals, b)
  }

  ghost predicate SweptAt(es: seq<Expr>, g: Graph, gs: Graph, g': Graph, h: seq<nat>, valIn: seq<Vals>, vals: seq<Vals>,
                          b: nat)
    requires Levelled(g, h) && b < |g| && |gs| == |g'| == |valIn| == |vals| == |g|
  {
    && gs[b].term == g[b].term && Inherits(g, h, 0, valIn, vals, b)
    && FormedList(es, g[b].stmts, gs[b].stmts, valIn[b], vals[b])
    && (if g[b].term.Ret? then g'[b] == g[b]
        else g'[b] == FinishedAs(es, gs[b], valIn[b], vals[b], OutUse(g, h, b), true))
  }

  lemma SweepUnfolds(es: seq<Expr>, g: Graph, gs: Graph, g1: Graph, g': Graph, h: seq<nat>, valIn: seq<Vals>,
                     vals: seq<Vals>, oval: seq<nat>)
    requires SweepDone(es, g, gs, g1, g', h, 0, valIn, vals, oval, true)
    ensures SweptEach(es, g, gs, g', h, valIn, vals)
  {
    assert Joined(g, h, 0, valIn, vals, 0);
    forall b | b in Reach(g, h, 0) ensures b < |g| && SweptAt(es, g, gs, g', h, valIn, vals, b) {
      assert Finished(es, g, h, b, gs[b], g'[b], valIn[b], vals[b], true);
    }
  }

  /** Block 0 loses its store as dead. */
  lemma FirstSwept(es: seq<Expr>, b: Block, bs: Block, b': Block, val: Vals, val': Vals, outUse: set<Atom>)
    requires b == Original()[0] && bs.term == b.term && FormedList(es, b.stmts, bs.stmts, val, val')
    requires (forall a: Atom :: val[a] == 0) && b' == FinishedAs(es, bs, val, val', outUse, true) && outUse == {}
    ensures b' == Unstored()[0] && val'[0] == val'[A_ATOM] && val'[X_ATOM] == 0
    ensures IsByte(es, val'[A_ATOM], 0)
  {
    FirstFormed(es, b.stmts, bs.stmts, val, val');
    FirstRest(bs, b');
  }

  /** Block 1 loses its store as redundant. */
  lemma SecondSwept(es: seq<Expr>, b: Block, bs: Block, b': Block, val: Vals, val': Vals, outUse: set<Atom>)
    requires b == Original()[1] && bs.term == b.term && FormedList(es, b.stmts, bs.stmts, val, val') && NoDup(es)
    requires val[0] == val[A_ATOM] && val[X_ATOM] == 0 && IsByte(es, val[A_ATOM], 0)
    requires b' == FinishedAs(es, bs, val, val', outUse, true) && outUse == {}
    ensures b' == Unstored()[1]
  {
    SecondFormed(es, b.stmts, bs.stmts, val, val');
    SecondRest(bs, b');
  }

  /** What a sweep with statement rewriting makes of the filter. */
  lemma StoresDeleted(es: seq<Expr>, g: Graph, gs: Graph, g': Graph, h: seq<nat>, valIn: seq<Vals>, vals: seq<Vals>)
    requires g == Original() && SweptEach(es, g, gs, g', h, valIn, vals)
    ensures g'[0] == Unstored()[0] && g'[1] == Unstored()[1]
  {
    OriginalReach(g, h);
    OriginalReads(g, h);
    assert SweptAt(es, g, gs, g', h, valIn, vals, 0);
    FirstSwept(es, g[0], gs[0], g'[0], valIn[0], vals[0], OutUse(g, h, 0));
    assert SweptAt(es, g, gs, g', h, valIn, vals, 1);
    SecondInherits(g, h, valIn, vals);
    SecondSwept(es, g[1], gs[1], g'[1], valIn[1], vals[1], OutUse(g, h, 1));
  }

  lemma ReturnsStay(es: seq<Expr>, g: Graph, gs: Graph, g': Graph, h: seq<nat>, valIn: seq<Vals>, vals: seq<Vals>)
    requires g == Original() && SweptEach(es, g, gs, g', h, valIn, vals)
    ensures g'[2] == g[2] && g'[3] == g[3]
  {
    OriginalReach(g, h);
    assert SweptAt(es, g, gs, g', h, valIn, vals, 2) && SweptAt(es, g, gs, g', h, valIn, vals, 3);
  }

  lemma IsUnstored(g: Graph)
    requires |g| == 4 && g[0] == Unstored()[0] && g[1] == Unstored()[1] && g[2] == Original()[2]
    requires g[3] == Original()[3]
    ensures g == Unstored()
  {
  }

  lemma BecomesUnstored(es: seq<Expr>, g: Graph, gs: Graph, g1: Graph, g': Graph, h: seq<nat>, valIn: seq<Vals>,
                        vals: seq<Vals>, oval: seq<nat>)
    requires g == Original() && SweepDone(es, g, gs, g1, g', h, 0, valIn, vals, oval, true)
    ensures g' == Unstored()
  {
    SweepUnfolds(es, g, gs, g1, g', h, valIn, vals, oval);
    StoresDeleted(es, g, gs, g', h, valIn, vals);
    ReturnsStay(es, g, gs, g', h, valIn, vals);
    IsUnstored(g');
  }

  // Runs

  /** What block 1 compares, with the store and without it. */
  lemma SecondRuns(load: Stmt, s: Stmt, p: Packet, r: Regs)
    requires (load == LdAbs(B, 0) && s == St(0)) || (load == s == Nop)
    requires |p.bytes| >= 2
    ensures var q := ExecAll(Second(load, s), p, r);
            && q.Some? && q.value[X_ATOM] == ByteAt(p, 1)
            && q.value[A_ATOM] == if s == Nop then r[0] else ByteAt(p, 0)
  {
    var r1: Regs := if s == Nop then r else r[A_ATOM := ByteAt(p, 0)];
    var r2: Regs := if s == Nop then r1 else r1[0 := ByteAt(p, 0)];
    var r3 := r2[A_ATOM := ByteAt(p, 1)];
    assert Second(load, s) == [load] + ([s] + ([LdAbs(B, 1)] + ([Tax] + ([LdMem(0)] + []))));
    ExecCons(load, [s] + ([LdAbs(B, 1)] + ([Tax] + ([LdMem(0)] + []))), p, r);
    ExecCons(s, [LdAbs(B, 1)] + ([Tax] + ([LdMem(0)] + [])), p, r1);
    ExecCons(LdAbs(B, 1), [Tax] + ([LdMem(0)] + []), p, r2);
    ExecCons(Tax, [LdMem(0)] + [], p, r3);
    ExecCons(LdMem(0), [], p, r3[X_ATOM := r3[A_ATOM]]);
  }

  lemma FirstRuns(s: Stmt, p: Packet, r: Regs)
    requires (s == St(0) || s == Nop) && |p.bytes| >= 1
    ensures var q := ExecAll(First(s), p, r);
            q.Some? && q.value[A_ATOM] == ByteAt(p, 0) && (s == Nop ==> q.value[0] == r[0])
  {
    assert First(s) == [LdAbs(B, 0)] + ([s] + []);
    ExecCons(LdAbs(B, 0), [s] + [], p, r);
    ExecCons(s, [], p, r[A_ATOM := ByteAt(p, 0)]);
  }

  lemma StoringRuns(g: Graph, lv: seq<nat>, load: Stmt, s: Stmt, p: Packet, r: Regs)
    requires (load == LdAbs(B, 0) && s == St(0)) || (load == s == Nop)
    requires g == Storing(First(s), Second(load, s)) && Levelled(g, lv) && |p.bytes| >= 2
    ensures Run(g, lv, 0, p, r) == if ByteAt(p, 0) > 0 && ByteAt(p, 1) == (if s == Nop then r[0] else ByteAt(p, 0))
            then Return(1) else Return(0)
  {
    FirstRuns(s, p, r);
    var q := ExecAll(First(s), p, r).value;
    SecondRuns(load, s, p, q);
    var q1 := ExecAll(g[1].stmts, p, q).value;
    assert Run(g, lv, 2, p, q1) == Return(1) && Run(g, lv, 3, p, q1) == Return(0) && Run(g, lv, 3, p, q) == Return(0);
  }

  /** No block of the filter faults on a packet of two bytes. */
  lemma NothingFaults(g: Graph, lv: seq<nat>)
    requires g == Original() && Levelled(g, lv) && AllSelfContained(g)
    ensures forall x | x in Reach(g, lv, 0) :: !FaultsIfClosed(g[x])
  {
    var p, r := Packet([7, 7], 2), ZeroRegs();
    FirstRuns(St(0), p, r);
    SecondRuns(LdAbs(B, 0), St(0), p, r);
    forall x | x in Reach(g, lv, 0) ensures !FaultsIfClosed(g[x]) {
      assert SelfContained(g[x]) && ExecAll(g[x].stmts, p, r).Some?;
    }
  }

  lemma OriginalReady(g: Graph, lv: seq<nat>)
    requires g == Original() && lv == [2, 1, 0, 0]
    ensures Levelled(g, lv) && AllSelfContained(g) && ReturnsEmpty(g)
    ensures forall x | x in Reach(g, lv, 0) :: !FaultsIfClosed(g[x])
  {
    OriginalLevelled(g);
    OriginalReads(g, lv);
    NothingFaults(g, lv);
  }

  /** The filter accepts a packet exactly if byte 0 is not 0 and byte 1 equals byte 0, or, if not `stored`, what the
      word holds before it runs. */
  ghost predicate Accepts(g: Graph, h: seq<nat>, stored: bool)
    requires Levelled(g, h) && 0 < |g|
  {
    forall p: Packet, r: Regs | |p.bytes| >= 2 ::
      Run(g, h, 0, p, r) == Return(1) <==> ByteAt(p, 0) > 0 && ByteAt(p, 1) == if stored then ByteAt(p, 0) else r[0]
  }

  lemma StoringAccepts(g: Graph, h: seq<nat>, load: Stmt, s: Stmt)
    requires (load == LdAbs(B, 0) && s == St(0)) || (load == s == Nop)
    requires g == Storing(First(s), Second(load, s)) && Levelled(g, h)
    ensures Accepts(g, h, s == St(0))
    ensures forall r: Regs | r[0] == 0 :: Run(g, h, 0, Packet([7, 7], 2), r) == if s == St(0) then Return(1)
            else Return(0)
  {
    forall p: Packet, r: Regs | |p.bytes| >= 2
      ensures Run(g, h, 0, p, r) == Return(1) <==>
                ByteAt(p, 0) > 0 && ByteAt(p, 1) == if s == St(0) then ByteAt(p, 0) else r[0]
    {
      StoringRuns(g, h, load, s, p, r);
    }
    forall r: Regs | r[0] == 0
      ensures Run(g, h, 0, Packet([7, 7], 2), r) == if s == St(0) then Return(1) else Return(0)
    {
      StoringRuns(g, h, load, s, Packet([7, 7], 2), r);
    }
  }

  /** The sweep of opt_blks with statement rewriting deletes both stores: the second by the numbers that block 0
      leaves, the first by the liveness from before. What is left compares byte 1 with whatever the word held before it
      ran. */
  method StoreDeletedTwice() returns (ok: bool, g': Graph, ghost h: seq<nat>)
    ensures ok && g' == Unstored() && Levelled(Original(), h) && Levelled(g', h)
    ensures AllSelfContained(Original()) && ReturnsEmpty(Original())
    ensures Accepts(Original(), h, true) && Accepts(g', h, false)
    ensures forall r: Regs | r[0] == 0 ::
              Run(Original(), h, 0, Packet([7, 7], 2), r) == Return(1)
              && Run(g', h, 0, Packet([7, 7], 2), r) == Return(0)
  {
    var g := Original();
    OriginalReady(g, [2, 1, 0, 0]);
    var vals;
    ghost var gs, g1, valIn, es, oval;
    ok, g', vals, h, gs, g1, valIn, es, oval := SweepRound(g, [2, 1, 0, 0], 0, true);
    BecomesUnstored(es, g, gs, g1, g', h, valIn, vals, oval);
    StoringAccepts(g, h, LdAbs(B, 0), St(0));
    StoringAccepts(g', h, Nop, Nop);
  }
}
