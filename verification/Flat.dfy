/** Flat filter programs: the instruction array, the interpreter's jumps and the validator (bpf_filter,
    bpf_validate). */
module Flat {
  import opened Machine
  import opened Graph
  import opened Levels

  /** An instruction. Branch displacements count from the next instruction and fit in a byte. */
  datatype Insn =
    | IStmt(s: Stmt)
    | IRet(k: Word)
    | IBranch(test: Test, jt: Byte, jf: Byte)
    | IJump(disp: nat)

  /** Every jump stays inside the program. */
  predicate JumpOk(f: seq<Insn>, i: nat) {
    i < |f| &&
    match f[i]
    case IStmt(_) => i + 1 < |f|
    case IRet(_) => true
    case IBranch(_, jt, jf) => i + 1 + jt < |f| && i + 1 + jf < |f|
    case IJump(k) => i + 1 + k < |f|
  }

  ghost predicate WellFormed(f: seq<Insn>) {
    f != [] && forall i | 0 <= i < |f| :: JumpOk(f, i)
  }

  /** The validator's answer for a program without memory references out of range. */
  ghost predicate Validates(f: seq<Insn>) {
    && |f| >= 1
    && (forall i | 0 <= i < |f| :: f[i].IBranch? || f[i].IJump? ==> JumpOk(f, i))
    && (forall i | 0 <= i < |f| :: !(f[i].IStmt? && f[i].s.AluK? && f[i].s.op == Div && f[i].s.k == 0))
    && f[|f| - 1].IRet?
  }

  /** The validator accepts exactly the well-formed programs that end in a return and do not divide by constant zero. */
  lemma ValidatesIff(f: seq<Insn>)
    ensures Validates(f) <==>
              && WellFormed(f)
              && f[|f| - 1].IRet?
              && (forall i | 0 <= i < |f| :: f[i] != IStmt(AluK(Div, 0)))
  {
    if Validates(f) {
      forall i | 0 <= i < |f| ensures JumpOk(f, i) { }
    }
  }

  /** Run from instruction `pc`. */
  function RunFlat(f: seq<Insn>, pc: nat, p: Packet, r: Regs): Outcome
    requires WellFormed(f) && pc < |f|
    decreases |f| - pc
  {
    assert JumpOk(f, pc);
    match f[pc]
    case IStmt(s) =>
      var q := Exec(s, p, r);
      if q.None? then Fault else RunFlat(f, pc + 1, p, q.value)
    case IRet(k) => Return(k)
    case IBranch(t, jt, jf) => RunFlat(f, pc + 1 + if Holds(t, r) then jt else jf, p, r)
    case IJump(k) => RunFlat(f, pc + 1 + k, p, r)
  }

  lemma {:induction false} CodeSameEffect(ss: seq<Stmt>, p: Packet, r: Regs)
    ensures ExecAll(Code(ss), p, r) == ExecAll(ss, p, r)
  {
    if ss != [] {
      if ss[0].Nop? {
        assert Code(ss) == Code(ss[1..]);
        CodeSameEffect(ss[1..], p, r);
      } else {
        assert Code(ss)[1..] == Code(ss[1..]);
        var q := Exec(ss[0], p, r);
        if q.Some? { CodeSameEffect(ss[1..], p, q.value); }
      }
    }
  }

  // A block laid out in the array

  /** A displacement from the instruction after `pos` leads to `target`, directly or over one long jump. */
  ghost predicate JumpsTo(f: seq<Insn>, pos: nat, disp: nat, target: nat) {
    var at := pos + 1 + disp;
    || at == target
    || (at < |f| && f[at].IJump? && at + 1 + f[at].disp == target)
  }

  /** The code of block `b` stands at `offset[b]`. */
  ghost predicate Placed(g: Graph, f: seq<Insn>, offset: seq<nat>, b: nat)
    requires |offset| == |g| && b < |g|
    requires g[b].term.Br? ==> g[b].term.jt < |g| && g[b].term.jf < |g|
  {
    var c, at := Code(g[b].stmts), offset[b];
    var pos := at + |c|;
    && pos < |f|
    && (forall i | 0 <= i < |c| :: f[at + i] == IStmt(c[i]))
    && match g[b].term
       case Ret(k) => f[pos] == IRet(k)
       case Br(t, jt, jf) =>
         && f[pos].IBranch? && f[pos].test == t
         && JumpsTo(f, pos, f[pos].jt, offset[jt]) && JumpsTo(f, pos, f[pos].jf, offset[jf])
  }

  /** Straight-line code in the array does what the statement list does. */
  lemma {:induction false} RunStmts(f: seq<Insn>, at: nat, c: seq<Stmt>, p: Packet, r: Regs)
    requires WellFormed(f) && at + |c| < |f| && forall i | 0 <= i < |c| :: f[at + i] == IStmt(c[i])
    ensures RunFlat(f, at, p, r) ==
            if ExecAll(c, p, r).None? then Fault else RunFlat(f, at + |c|, p, ExecAll(c, p, r).value)
    decreases |c|
  {
    if c != [] {
      assert f[at + 0] == IStmt(c[0]);
      var q := Exec(c[0], p, r);
      if q.Some? {
        forall i | 0 <= i < |c[1..]| ensures f[at + 1 + i] == IStmt(c[1..][i]) {
          assert f[at + (i + 1)] == IStmt(c[i + 1]);
        }
        RunStmts(f, at + 1, c[1..], p, q.value);
      }
    }
  }

  lemma RunRouted(f: seq<Insn>, pos: nat, disp: nat, target: nat, p: Packet, r: Regs)
    requires WellFormed(f) && JumpsTo(f, pos, disp, target) && pos + 1 + disp < |f|
    ensures target < |f| && RunFlat(f, pos + 1 + disp, p, r) == RunFlat(f, target, p, r)
  {
    assert JumpOk(f, pos + 1 + disp);
  }

  /** Lowering preserves meaning: a laid-out graph runs as the graph does. */
  lemma {:induction false} LayoutPreserves(g: Graph, lv: seq<nat>, root: nat, f: seq<Insn>, offset: seq<nat>, b: nat,
                                           p: Packet, r: Regs)
    requires Levelled(g, lv) && root < |g| && |offset| == |g| && WellFormed(f) && b in Reach(g, lv, root)
    requires forall x | x in Reach(g, lv, root) ::
               (g[x].term.Br? ==> g[x].term.jt < |g| && g[x].term.jf < |g|) && Placed(g, f, offset, x)
    ensures offset[b] < |f| && RunFlat(f, offset[b], p, r) == Run(g, lv, b, p, r)
    decreases lv[b]
  {
    assert Placed(g, f, offset, b);
    BlockRuns(g, f, offset, b, p, r);
    var q := ExecAll(g[b].stmts, p, r);
    if q.Some? && g[b].term.Br? {
      var d := Holds(g[b].term.test, q.value);
      assert EdgeDown(g, lv, b, d);
      ReachClosed(g, lv, root, Edge(b, d));
      LayoutPreserves(g, lv, root, f, offset, Succ(g[b], d), p, q.value);
    }
  }

  /** The code of one block runs as the block does, and goes on where its successor stands. */
  lemma BlockRuns(g: Graph, f: seq<Insn>, offset: seq<nat>, b: nat, p: Packet, r: Regs)
    requires |offset| == |g| && b < |g| && WellFormed(f) && (g[b].term.Br? ==> g[b].term.jt < |g| && g[b].term.jf < |g|)
    requires Placed(g, f, offset, b)
    ensures offset[b] < |f|
    ensures var q := ExecAll(g[b].stmts, p, r);
            if q.None? then RunFlat(f, offset[b], p, r) == Fault
            else match g[b].term
              case Ret(k) => RunFlat(f, offset[b], p, r) == Return(k)
              case Br(t, _, _) =>
                var at := offset[Succ(g[b], Holds(t, q.value))];
                at < |f| && RunFlat(f, offset[b], p, r) == RunFlat(f, at, p, q.value)
  {
    var c := Code(g[b].stmts);
    var pos := offset[b] + |c|;
    RunStmts(f, offset[b], c, p, r);
    CodeSameEffect(g[b].stmts, p, r);
    var q := ExecAll(g[b].stmts, p, r);
    if q.Some? && g[b].term.Br? {
      var d := Holds(g[b].term.test, q.value);
      assert JumpOk(f, pos);
      RunRouted(f, pos, if d then f[pos].jt else f[pos].jf, offset[Succ(g[b], d)], p, q.value);
    }
  }
}
