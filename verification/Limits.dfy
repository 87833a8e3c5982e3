/** Where a rewriting needs its hypothesis: inputs on which it changes the result without it. */
module Limits {
  import opened Machine
  import opened Graph
  import opened Levels
  import opened Liveness
  import opened DeadStores
  import opened ValueTable
  import opened Numbering
  import opened NumberingPass
  import opened Threading
  import opened Peephole

  // Number 0

  /** vstore drops a move between atoms of equal number. On every state the numbers describe that is right exactly
      when the number is not 0, the number of an unknown value. */
  lemma DropMoveIff(es: seq<Expr>, s: Stmt, val: Vals, p: Packet, r: Regs)
    requires WellFounded(es) && IsMove(s) && val[AtomDef(s).value] == val[Source(s)] && Matches(es, val, p, r)
    ensures VStore(s, val, AtomDef(s).value, val[Source(s)], true).0 == Nop
    ensures (forall r' | Matches(es, val, p, r') :: Exec(s, p, r') == Some(r')) <==> val[Source(s)] != 0
  {
    var d, a := AtomDef(s).value, Source(s);
    if val[a] == 0 {
      var r' := r[d := 0][a := 1];
      assert Matches(es, val, p, r');
      assert Exec(s, p, r').value[d] == 1 != r'[d];
    } else {
      forall r' | Matches(es, val, p, r') ensures Exec(s, p, r') == Some(r') {
        assert Den(es, val[a], p) == Some(r'[a]) && Den(es, val[d], p) == Some(r'[d]);
        assert Exec(s, p, r') == Some(r'[d := r'[a]]) && r'[d := r'[a]] == r';
      }
    }
  }

  // Indexed access

  /** An access to the third byte behind a header of variable length, followed by a read of X. */
  predicate IsIndexed(ss: seq<Stmt>) {
    |ss| == 6 && ss[0] == LdImm(2) && ss[1] == LdxMsh(0) && ss[2] == AluX(Add) && ss[3] == Tax && ss[4] == LdInd(B, 0)
    && ss[5] == Txa
  }

  /** The list reads nothing that was set before it. */
  lemma IndexedLive(ss: seq<Stmt>)
    requires IsIndexed(ss)
    ensures LiveIn(ss, {A_ATOM}) == {}
  {
    assert ss[6..] == [] && ss[0..] == ss;
    LiveHead(ss, 5, {A_ATOM});
    LiveHead(ss, 4, {A_ATOM});
    LiveHead(ss, 3, {A_ATOM});
    LiveHead(ss, 2, {A_ATOM});
    LiveHead(ss, 1, {A_ATOM});
    LiveHead(ss, 0, {A_ATOM});
  }

  lemma TxaLast(ss: seq<Stmt>, p: Packet, r: Regs)
    requires |ss| == 6 && ss[5] == Txa
    ensures ExecAll(ss[5..], p, r) == Some(r[A_ATOM := r[X_ATOM]])
  {
    assert ss[5..] == [Txa];
    ExecOne(Txa, p, r);
  }

  lemma IndexedRun(ss: seq<Stmt>, p: Packet, r: Regs, x: Word)
    requires IsIndexed(ss) && LoadMsh(p, 0) == Some(x) && x + 2 < |p.bytes|
    ensures ExecAll(ss, p, r).Some? && ExecAll(ss, p, r).value[A_ATOM] == x + 2
  {
    assert ss[0..] == ss;
    GroupRun(ss, 0, 1, 2, 3, 4, p, r);
    LoadThenRun(ss, 4, x + 2, p, r[A_ATOM := x + 2]);
    TxaLast(ss, p, r[A_ATOM := x + 2][X_ATOM := x + 2][A_ATOM := Load(p, B, x + 2).value]);
  }

  lemma GroupedIndexedRun(ss: seq<Stmt>, ss': seq<Stmt>, p: Packet, r: Regs, x: Word)
    requires IsIndexed(ss) && ss' == Grouped(ss, 0, 2, 3, 4) && LoadMsh(p, 0) == Some(x) && x + 2 < |p.bytes|
    ensures ExecAll(ss', p, r).Some? && ExecAll(ss', p, r).value[A_ATOM] == x
  {
    assert ss'[0..] == ss' && ss'[4] == LdInd(B, 2);
    GroupedRun(ss, ss', 0, 1, 2, 3, 4, p, r);
    LoadThenRun(ss', 4, x, p, r);
    TxaLast(ss', p, r[X_ATOM := x][A_ATOM := Load(p, B, x + 2).value]);
  }

  /** opt_peep checks only that X is not used after the block; a use inside the block sees the change, on every packet
      long enough for the access. */
  lemma GroupChangesX(ss: seq<Stmt>, ss': seq<Stmt>, p: Packet, r: Regs, x: Word)
    requires IsIndexed(ss) && ss' == Grouped(ss, 0, 2, 3, 4) && LoadMsh(p, 0) == Some(x) && x + 2 < |p.bytes|
    ensures Group(ss, 0, 1, 2, 3, 4) && SelfContained(Block(ss, Br(JmpK(Jeq, 0), 0, 0)))
    ensures ExecAll(ss, p, r).Some? && ExecAll(ss, p, r).value[A_ATOM] == x + 2
    ensures ExecAll(ss', p, r).Some? && ExecAll(ss', p, r).value[A_ATOM] == x
  {
    IndexedLive(ss);
    IndexedRun(ss, p, r, x);
    GroupedIndexedRun(ss, ss', p, r, x);
  }

  // Skipping a block whose result is read

  /** Block 1 stores byte 1 and repeats the test of block 0; block 2 reads what is stored. The true branch of block 0
      leads to block `t`. */
  function Skipping(t: nat): Graph {
    [ Block([LdAbs(B, 0)], Br(JmpK(Jeq, 1), t, 4)),
      Block([LdAbs(B, 1), St(0), LdAbs(B, 0)], Br(JmpK(Jeq, 1), 2, 4)),
      Block([LdMem(0)], Br(JmpK(Jeq, 5), 3, 4)),
      Block([], Ret(1)),
      Block([], Ret(0)) ]
  }

  /** Block 0 decides block 1, and no atom that leaves block 2 differs: fold_edge and use_conflict let block 1 be
      skipped. */
  lemma SkipAllowed(g: Graph, vals: seq<Vals>, oval: seq<nat>, outUse: seq<set<Atom>>)
    requires g == Skipping(1) && |vals| == |oval| == |outUse| == 5 && vals[0][A_ATOM] == vals[1][A_ATOM]
    requires oval[0] == oval[1] && outUse[2] == {}
    ensures FoldEdge(g, vals, oval, 1, Edge(0, true)) == Some(2) && !Conflict(vals, outUse, 0, 2)
    ensures Redirect(g, Edge(0, true), 2) == Skipping(2)
  {
  }

  lemma SkippingLevelled(g: Graph, t: nat)
    requires g == Skipping(t) && 1 <= t <= 2
    ensures Levelled(g, [3, 2, 1, 0, 0])
  {
    forall b, d | 0 <= b < 5 && g[b].term.Br? ensures EdgeDown(g, [3, 2, 1, 0, 0], b, d) { }
  }

  lemma LastBlock(g: Graph, t: nat, p: Packet, r: Regs)
    requires g == Skipping(t) && Levelled(g, [3, 2, 1, 0, 0])
    ensures Run(g, [3, 2, 1, 0, 0], 2, p, r) == Return(if r[0] == 5 then 1 else 0)
  {
    ExecOne(LdMem(0), p, r);
  }

  lemma MiddleRuns(p: Packet, r: Regs)
    requires |p.bytes| >= 2
    ensures ExecAll([LdAbs(B, 1), St(0), LdAbs(B, 0)], p, r) == Some(r[A_ATOM := ByteAt(p, 0)][0 := ByteAt(p, 1)])
  {
    var r1 := r[A_ATOM := ByteAt(p, 1)];
    var r2 := r1[0 := ByteAt(p, 1)];
    assert [LdAbs(B, 1), St(0), LdAbs(B, 0)] == [LdAbs(B, 1)] + ([St(0)] + ([LdAbs(B, 0)] + []));
    ExecCons(LdAbs(B, 1), [St(0)] + ([LdAbs(B, 0)] + []), p, r);
    ExecCons(St(0), [LdAbs(B, 0)] + [], p, r1);
    ExecCons(LdAbs(B, 0), [], p, r2);
    assert r2[A_ATOM := ByteAt(p, 0)] == r[A_ATOM := ByteAt(p, 0)][0 := ByteAt(p, 1)];
  }

  /** The skipped store is missed by block 2. With self-contained blocks there is no such read. */
  lemma SkipMissesStore(p: Packet, r: Regs)
    requires |p.bytes| >= 2 && ByteAt(p, 0) == 1
    ensures Levelled(Skipping(1), [3, 2, 1, 0, 0]) && Levelled(Skipping(2), [3, 2, 1, 0, 0])
    ensures Run(Skipping(1), [3, 2, 1, 0, 0], 0, p, r) == Return(if ByteAt(p, 1) == 5 then 1 else 0)
    ensures Run(Skipping(2), [3, 2, 1, 0, 0], 0, p, r) == Return(if r[0] == 5 then 1 else 0)
  {
    SkippingLevelled(Skipping(1), 1);
    SkippingLevelled(Skipping(2), 2);
    FullRun(Skipping(1), p, r);
    ShortRun(Skipping(2), p, r);
  }

  lemma FullRun(g: Graph, p: Packet, r: Regs)
    requires g == Skipping(1) && Levelled(g, [3, 2, 1, 0, 0]) && |p.bytes| >= 2 && ByteAt(p, 0) == 1
    ensures Run(g, [3, 2, 1, 0, 0], 0, p, r) == Return(if ByteAt(p, 1) == 5 then 1 else 0)
  {
    var r1: Regs := r[A_ATOM := 1];
    ExecOne(LdAbs(B, 0), p, r);
    MiddleRuns(p, r1);
    var r2: Regs := r1[A_ATOM := ByteAt(p, 0)][0 := ByteAt(p, 1)];
    LastBlock(g, 1, p, r2);
    assert Run(g, [3, 2, 1, 0, 0], 1, p, r1) == Run(g, [3, 2, 1, 0, 0], 2, p, r2);
  }

  lemma ShortRun(g: Graph, p: Packet, r: Regs)
    requires g == Skipping(2) && Levelled(g, [3, 2, 1, 0, 0]) && |p.bytes| >= 2 && ByteAt(p, 0) == 1
    ensures Run(g, [3, 2, 1, 0, 0], 0, p, r) == Return(if r[0] == 5 then 1 else 0)
  {
    ExecOne(LdAbs(B, 0), p, r);
    LastBlock(g, 2, p, r[A_ATOM := 1]);
  }
}
