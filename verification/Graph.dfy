/** Control-flow graphs of basic blocks and their runs. */
module Graph {
  import opened Machine

  /** How a block ends: a constant return, or a test with two successors. */
  datatype Term = Ret(k: Word) | Br(test: Test, jt: nat, jf: nat)

  datatype Block = Block(stmts: seq<Stmt>, term: Term)

  /** Blocks are named by their index, as in the optimizer's block array. */
  type Graph = seq<Block>

  function Succ(b: Block, dir: bool): nat
    requires b.term.Br?
  {
    if dir then b.term.jt else b.term.jf
  }

  /** Same statements and same ending, apart from the targets of a branch. */
  ghost predicate SameButTargets(b: Block, b': Block) {
    && b'.stmts == b.stmts && b'.term.Br? == b.term.Br?
    && if b.term.Br? then b'.term.test == b.term.test else b' == b
  }

  /** Every branch goes to a block of a strictly lower level, so there is no cycle. */
  ghost predicate Levelled(g: Graph, lv: seq<nat>) {
    && |lv| == |g|
    && forall b, d | 0 <= b < |g| && g[b].term.Br? :: EdgeDown(g, lv, b, d)
  }

  ghost predicate EdgeDown(g: Graph, lv: seq<nat>, b: nat, d: bool)
    requires |lv| == |g| && b < |g| && g[b].term.Br?
  {
    Succ(g[b], d) < |g| && lv[Succ(g[b], d)] < lv[b]
  }

  /** Run from block `b` to a return or a fault. */
  ghost function Run(g: Graph, lv: seq<nat>, b: nat, p: Packet, r: Regs): Outcome
    requires Levelled(g, lv) && b < |g|
    decreases lv[b]
  {
    var r1 := ExecAll(g[b].stmts, p, r);
    if r1.None? then Fault
    else match g[b].term
      case Ret(k) => Return(k)
      case Br(t, _, _) =>
        var d := Holds(t, r1.value);
        assert EdgeDown(g, lv, b, d);
        Run(g, lv, Succ(g[b], d), p, r1.value)
  }

  /** The levelling does not influence the run. */
  lemma {:induction false} RunLevelIrrelevant(g: Graph, lv: seq<nat>, lv': seq<nat>, b: nat, p: Packet, r: Regs)
    requires Levelled(g, lv) && Levelled(g, lv') && b < |g|
    ensures Run(g, lv, b, p, r) == Run(g, lv', b, p, r)
    decreases lv[b]
  {
    var r1 := ExecAll(g[b].stmts, p, r);
    if r1.Some? && g[b].term.Br? {
      var d := Holds(g[b].term.test, r1.value);
      assert EdgeDown(g, lv, b, d) && EdgeDown(g, lv', b, d);
      RunLevelIrrelevant(g, lv, lv', Succ(g[b], d), p, r1.value);
    }
  }

  /** `g'` returns what `g` returns, from `b`, whenever `g` does not fault. */
  ghost predicate Preserves(g: Graph, g': Graph, lv: seq<nat>, lv': seq<nat>, b: nat)
    requires Levelled(g, lv) && Levelled(g', lv') && b < |g| && b < |g'|
  {
    forall p, r :: Run(g, lv, b, p, r).Return? ==> Run(g', lv', b, p, r) == Run(g, lv, b, p, r)
  }
}
