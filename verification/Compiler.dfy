/** From a filter expression to a program, without and with optimization (pcap_compile). */
module Compiler {
  import opened Machine
  import opened Graph
  import opened Levels
  import opened Composition
  import opened FilterGraph
  import opened Arithmetic
  import opened Relation
  import opened Flat
  import opened Lowering
  import opened Liveness
  import opened Peephole
  import opened BlockPass
  import opened BranchPass
  import opened Optimizer
  import opened Rounds

  /** Boolean combinations of comparisons. */
  datatype FilterExpr =
    | Rel(op: JmpOp, left: ArithExpr, right: ArithExpr, reversed: bool)
    | Both(a: FilterExpr, b: FilterExpr)
    | Either(a: FilterExpr, b: FilterExpr)
    | Not(a: FilterExpr)

  /** What the expression says about a packet: short-circuit evaluation over 32-bit values; `None` is a fault. */
  ghost function Meaning(f: FilterExpr, p: Packet): Option<bool> {
    match f
    case Rel(op, e0, e1, reversed) => RelationMeans(op, reversed, e0, e1, p, ZeroRegs())
    case Both(a, b) => AndThen(Meaning(a, p), Meaning(b, p))
    case Either(a, b) => OrElse(Meaning(a, p), Meaning(b, p))
    case Not(a) => Negated(Meaning(a, p))
  }

  /** Every access has a legal size, and every comparison fits in the 16 scratch registers. */
  predicate Fits(f: FilterExpr) {
    match f
    case Rel(_, e0, e1, _) => SizesOk(e0) && SizesOk(e1) && Max(Need(e0), 1 + Need(e1)) <= 16
    case Both(a, b) => Fits(a) && Fits(b)
    case Either(a, b) => Fits(a) && Fits(b)
    case Not(a) => Fits(a)
  }

  /** Every protocol check that is made computes what it reads, as all the code generator's tests do. */
  ghost predicate ChecksOk(f: FilterExpr) {
    match f
    case Rel(_, e0, e1, _) => AllClosed(MadeChecks(e0)) && AllClosed(MadeChecks(e1))
    case Both(a, b) => ChecksOk(a) && ChecksOk(b)
    case Either(a, b) => ChecksOk(a) && ChecksOk(b)
    case Not(a) => ChecksOk(a)
  }

  /** A test that the expression's code makes: that of a comparison, or one of the protocol checks before it. */
  ghost predicate ExprHasTest(f: FilterExpr, ss: seq<Stmt>, t: Test) {
    match f
    case Rel(op, e0, e1, _) => RelationHasTest(op, e0, e1, ss, t)
    case Both(a, b) => ExprHasTest(a, ss, t) || ExprHasTest(b, ss, t)
    case Either(a, b) => ExprHasTest(a, ss, t) || ExprHasTest(b, ss, t)
    case Not(a) => ExprHasTest(a, ss, t)
  }

  ghost predicate AlwaysNone(ss: seq<Stmt>) { forall p, r :: ExecAll(ss, p, r).None? }

  /** Some check that is made before the expression is evaluated faults on every packet. */
  ghost predicate CheckFaults(e: ArithExpr) { exists ss, t :: CheckTest(e, ss, t) && AlwaysNone(ss) }

  /** Some comparison of the expression has no value on any packet, or one of its protocol checks faults on every
      packet. */
  ghost predicate HasFault(f: FilterExpr) {
    match f
    case Rel(op, e0, e1, _) => (forall p :: Compared(op, false, e0, e1, p).None?) || CheckFaults(e0) || CheckFaults(e1)
    case Both(a, b) => HasFault(a) || HasFault(b)
    case Either(a, b) => HasFault(a) || HasFault(b)
    case Not(a) => HasFault(a)
  }

  lemma {:induction false} FaultFrom(f: FilterExpr, ss: seq<Stmt>, t: Test)
    requires ExprHasTest(f, ss, t) && AlwaysNone(ss)
    ensures HasFault(f)
  {
    match f
    case Rel(op, e0, e1, _) =>
      if ComparisonTest(op, e0, e1, ss, t) {
        forall p ensures Compared(op, false, e0, e1, p).None? {
          assert ExecAll(ss, p, ZeroRegs()).None?;
          assert Conclusion(Eval(Check(ss, t), p, ZeroRegs())) == Compared(op, false, e0, e1, p);
        }
      }
    case Both(a, b) => if ExprHasTest(a, ss, t) { FaultFrom(a, ss, t); } else { FaultFrom(b, ss, t); }
    case Either(a, b) => if ExprHasTest(a, ss, t) { FaultFrom(a, ss, t); } else { FaultFrom(b, ss, t); }
    case Not(a) => FaultFrom(a, ss, t);
  }

  lemma RelationSays(c: Cond, op: JmpOp, e0: ArithExpr, e1: ArithExpr, reversed: bool, p: Packet)
    requires Closed(c) && forall p, r :: Conclusion(Eval(c, p, r)) == RelationMeans(op, reversed, e0, e1, p, r)
    ensures Says(c, p, RelationMeans(op, reversed, e0, e1, p, ZeroRegs()))
  {
    forall r ensures Conclusion(Eval(c, p, r)) == RelationMeans(op, reversed, e0, e1, p, ZeroRegs()) {
      ClosedConcludes(c, p, r, ZeroRegs());
      assert Conclusion(Eval(c, p, ZeroRegs())) == RelationMeans(op, reversed, e0, e1, p, ZeroRegs());
    }
  }

  /** Turn the expression into a condition, comparison by comparison; no register stays taken. */
  method Build(regs: Allocator, f: FilterExpr) returns (c: Option<Cond>)
    requires regs.Valid() && Busy(regs.Regused()) == 0 && ChecksOk(f)
    modifies regs`curreg, regs.regused
    ensures regs.Valid() && (c.Some? <==> Fits(f))
    ensures c.Some? ==>
              regs.Regused() == old(regs.Regused()) && Closed(c.value) && forall p :: Says(c.value, p, Meaning(f, p))
    ensures c.Some? ==> forall ss, t | HasTest(c.value, ss, t) :: ExprHasTest(f, ss, t)
    decreases f
  {
    match f
    case Rel(op, e0, e1, reversed) =>
      c := CompileRelation(regs, op, e0, e1, reversed);
      if c.None? { return; }
      forall p ensures Says(c.value, p, Meaning(f, p)) { RelationSays(c.value, op, e0, e1, reversed, p); }
    case Not(a) =>
      c := Build(regs, a);
      if c.None? { return; }
      forall p ensures Says(Inv(c.value), p, Meaning(f, p)) { SaysInv(c.value, p, Meaning(a, p)); }
      c := Some(Inv(c.value));
    case Both(a, b) =>
      var ca := Build(regs, a);
      if ca.None? { return None; }
      var cb := Build(regs, b);
      if cb.None? { return None; }
      c := Some(Conj(ca.value, cb.value));
      forall p ensures Says(c.value, p, Meaning(f, p)) {
        SaysConj(ca.value, cb.value, p, Meaning(a, p), Meaning(b, p));
      }
    case Either(a, b) =>
      var ca := Build(regs, a);
      if ca.None? { return None; }
      var cb := Build(regs, b);
      if cb.None? { return None; }
      c := Some(Disj(ca.value, cb.value));
      forall p ensures Says(c.value, p, Meaning(f, p)) {
        SaysDisj(ca.value, cb.value, p, Meaning(a, p), Meaning(b, p));
      }
  }

  /** The outcome for a packet: `snaplen` if the expression holds of it, or if there is no expression; 0 if it does not
      hold; a fault, which also rejects, if it has no value. */
  ghost function Answered(f: Option<FilterExpr>, snaplen: Word, p: Packet): Outcome {
    if f.None? then Return(snaplen)
    else
      var v := Meaning(f.value, p);
      if v.None? then Fault else if v.value then Return(snaplen) else Return(0)
  }

  /** Compile an expression, or the empty one. It fails exactly for a zero snapshot length or an expression that
      does not fit. */
  method CompileProgram(f: Option<FilterExpr>, snaplen: Word) returns (ok: bool, fp: array<Insn>)
    requires f.Some? ==> ChecksOk(f.value)
    ensures fresh(fp)
    ensures ok <==> snaplen != 0 && (f.Some? ==> Fits(f.value))
    ensures ok ==> WellFormed(fp[..]) && Validates(fp[..])
    ensures ok ==> forall p, r :: RunFlat(fp[..], 0, p, r) == Answered(f, snaplen, p)
  {
    ok, fp := false, new Insn[0];
    if snaplen == 0 { return; }
    var g, root;
    ghost var lv;
    g, root, lv, ok := CompileGraph(f, snaplen);
    if ok {
      fp := Emit(g, root, lv);
      forall x | x in Reach(g, lv, root) ensures AluK(Div, 0) !in g[x].stmts { assert Proper(g[x]); }
    }
  }

  method Emit(g: Graph, root: nat, ghost lv: seq<nat>) returns (fp: array<Insn>)
    requires Levelled(g, lv) && root < |g|
    ensures fresh(fp) && WellFormed(fp[..]) && fp[..][fp.Length - 1].IRet?
    ensures forall p, r :: RunFlat(fp[..], 0, p, r) == Run(g, lv, root, p, r)
    ensures Validates(fp[..]) <==> !Lowering.ReachesStmt(g, lv, root, AluK(Div, 0))
  {
    var fl;
    ghost var tries;
    fp, fl, tries := IcodeToFcode(g, lv, root);
  }

  /** Every block makes a test of the expression, or is a mere return. */
  ghost predicate BlocksOf(g: Graph, f: Option<FilterExpr>) {
    forall x | 0 <= x < |g| ::
      if g[x].term.Ret? then g[x].stmts == [] else f.Some? && ExprHasTest(f.value, g[x].stmts, g[x].term.test)
  }

  /** The graph of the expression, before optimization. */
  ghost predicate GraphOf(g: Graph, lv: seq<nat>, root: nat, f: Option<FilterExpr>, snaplen: Word) {
    && Levelled(g, lv) && root < |g| && AllProper(g) && BlocksOf(g, f)
    && forall p, r :: Run(g, lv, root, p, r) == Answered(f, snaplen, p)
  }

  /** The graph of an expression; without one, a single block that accepts. */
  method CompileGraph(f: Option<FilterExpr>, snaplen: Word) returns (g: Graph, root: nat, ghost lv: seq<nat>, ok: bool)
    requires f.Some? ==> ChecksOk(f.value)
    ensures ok <==> (f.Some? ==> Fits(f.value))
    ensures ok ==> GraphOf(g, lv, root, f, snaplen)
  {
    g, root, lv, ok := [Block([], Ret(snaplen))], 0, [0], true;
    if f.None? { return; }
    var regs := new Allocator();
    NoneBusy(regs.Regused());
    var c := Build(regs, f.value);
    ok := c.Some?;
    if !ok { return; }
    g, root, lv := CompileFilter(c.value, snaplen);
    MadeProper(g, c.value);
    forall p, r ensures Run(g, lv, root, p, r) == Answered(f, snaplen, p) {
      assert Says(c.value, p, Meaning(f.value, p));
      assert Conclusion(Eval(c.value, p, r)) == Meaning(f.value, p);
    }
  }

  lemma {:induction false} NoneBusy(s: seq<bool>)
    requires forall i | 0 <= i < |s| :: !s[i]
    ensures Busy(s) == 0
    decreases s
  {
    if s != [] { NoneBusy(s[1..]); }
  }

  /** Compile and optimize. The program does what the optimized graph `opt` does, which returns what the graph `g0`
      of the expression returns; so on every packet for which the expression has a value, the program answers as it
      says. It validates exactly if no reachable block of `opt` divides by a constant zero. For a nonzero snapshot
      length and an expression that fits, optimization fails only if a comparison or a check of the expression faults on
      every packet. */
  method CompileOptimized(f: Option<FilterExpr>, snaplen: Word)
    returns (ok: bool, fp: array<Insn>, ghost g0: Graph, ghost lv0: seq<nat>, ghost opt: Graph, ghost h: seq<nat>,
             ghost root: nat)
    requires f.Some? ==> ChecksOk(f.value)
    ensures fresh(fp)
    ensures ok ==> snaplen != 0 && (f.Some? ==> Fits(f.value))
    ensures ok ==> WellFormed(fp[..]) && fp[..][fp.Length - 1].IRet?
    ensures ok ==>
              GraphOf(g0, lv0, root, f, snaplen) && Levelled(opt, h) && root < |opt| && Preserves(g0, opt, lv0, h, root)
    ensures ok ==> forall p, r :: RunFlat(fp[..], 0, p, r) == Run(opt, h, root, p, r)
    ensures ok ==> forall p, r | Answered(f, snaplen, p).Return? :: RunFlat(fp[..], 0, p, r) == Answered(f, snaplen, p)
    ensures ok ==> (Validates(fp[..]) <==> !Lowering.ReachesStmt(opt, h, root, AluK(Div, 0)))
    ensures !ok && snaplen != 0 && (f.Some? ==> Fits(f.value)) ==>
              && GraphOf(g0, lv0, root, f, snaplen) && (exists x :: x in Reach(g0, lv0, root) && AlwaysFaults(g0[x]))
              && f.Some? && HasFault(f.value)
  {
    ok, fp, g0, lv0, opt, h, root := false, new Insn[0], [], [], [], [], 0;
    if snaplen == 0 { return; }
    var graph, b, graph';
    graph, b, lv0, ok := CompileGraph(f, snaplen);
    if !ok { return; }
    g0, root := graph, b;
    ProperSelfContained(graph);
    ok, graph', h := Optimize(graph, lv0, b);
    if ok {
      fp := Emit(graph', b, h);
      opt := graph';
    } else {
      ghost var x :| x in Reach(graph, lv0, b) && AlwaysFaults(graph[x]);
      BlockFaults(graph, f, x);
    }
  }

  lemma BlockFaults(g: Graph, f: Option<FilterExpr>, x: nat)
    requires BlocksOf(g, f) && x < |g| && AlwaysFaults(g[x])
    ensures f.Some? && HasFault(f.value)
  {
    assert ExecAll(g[x].stmts, Packet([], 0), ZeroRegs()).None?;
    assert AlwaysNone(g[x].stmts);
    FaultFrom(f.value, g[x].stmts, g[x].term.test);
  }

  // Rounds over the branches

  /** Comparisons are those of the grammar, and the protocol checks end as the code generator's tests do. */
  ghost predicate ChecksPlain(f: FilterExpr) {
    match f
    case Rel(op, e0, e1, _) => op != Jset && PlainChecks(e0) && PlainChecks(e1)
    case Both(a, b) => ChecksPlain(a) && ChecksPlain(b)
    case Either(a, b) => ChecksPlain(a) && ChecksPlain(b)
    case Not(a) => ChecksPlain(a)
  }

  ghost predicate PlainChecks(e: ArithExpr) { forall ss, t | CheckTest(e, ss, t) :: PlainTest(ss, t) }

  /** A check that compares a loaded field with a constant, or tests bits of it that are not all, is as asked. */
  lemma LoadCheckPlain(size: Size, k: Word, op: JmpOp, v: Word, ss: seq<Stmt>, t: Test)
    requires op == Jset ==> v != MAX_WORD
    ensures Closed(Check([LdAbs(size, k)], JmpK(op, v)))
    ensures HasTest(Check([LdAbs(size, k)], JmpK(op, v)), ss, t) ==> PlainTest(ss, t)
  {
    var load := [LdAbs(size, k)];
    assert load[1..] == [] && LiveIn(load, {A_ATOM}) == {};
  }

  lemma {:induction false} PlainTests(f: FilterExpr, ss: seq<Stmt>, t: Test)
    requires ChecksPlain(f) && ExprHasTest(f, ss, t)
    ensures PlainTest(ss, t)
  {
    match f
    case Rel(op, e0, e1, _) =>
    case Both(a, b) => if ExprHasTest(a, ss, t) { PlainTests(a, ss, t); } else { PlainTests(b, ss, t); }
    case Either(a, b) => if ExprHasTest(a, ss, t) { PlainTests(a, ss, t); } else { PlainTests(b, ss, t); }
    case Not(a) => PlainTests(a, ss, t);
  }

  /** The graph of an expression is fit for a round over the branches. */
  lemma GraphFit(g: Graph, lv: seq<nat>, root: nat, f: Option<FilterExpr>)
    requires Levelled(g, lv) && root < |g| && AllProper(g) && BlocksOf(g, f) && (f.Some? ==> ChecksPlain(f.value))
    ensures AllSelfContained(g) && ReturnsEmpty(g) && FitForRound(g, lv, root)
  {
    ProperSelfContained(g);
    forall x | x in Reach(g, lv, root) ensures Plain(g[x]) {
      if g[x].term.Br? {
        assert Proper(g[x]);
        PlainTests(f.value, g[x].stmts, g[x].term.test);
      }
    }
  }

  /** Compile with `n` rounds over the branches up to the pull-ups. The program does what the graph `opt` does after
      these rounds, which returns what the graph `g0` of the expression returns; so on every packet for which the
      expression has a value the program answers as it says. After one round nothing is left to merge. */
  method CompileRounds(f: Option<FilterExpr>, snaplen: Word, n: nat)
    returns (ok: bool, fp: array<Insn>, ghost g0: Graph, ghost lv0: seq<nat>, ghost opt: Graph, ghost h: seq<nat>,
             ghost root: nat)
    requires f.Some? ==> ChecksOk(f.value) && ChecksPlain(f.value)
    ensures fresh(fp)
    ensures ok <==> snaplen != 0 && (f.Some? ==> Fits(f.value))
    ensures ok ==> WellFormed(fp[..]) && fp[..][fp.Length - 1].IRet?
    ensures ok ==> GraphOf(g0, lv0, root, f, snaplen) && Levelled(opt, h) && root < |opt|
    ensures ok ==> Preserves(g0, opt, lv0, h, root)
    ensures ok && n > 0 ==> forall b | b in Reach(opt, h, root) :: FullyMerged(opt[b])
    ensures ok ==> forall p, r :: RunFlat(fp[..], 0, p, r) == Run(opt, h, root, p, r)
    ensures ok ==> forall p, r | Answered(f, snaplen, p).Return? :: RunFlat(fp[..], 0, p, r) == Answered(f, snaplen, p)
  {
    ok, fp, g0, lv0, opt, h, root := false, new Insn[0], [], [], [], [], 0;
    if snaplen == 0 { return; }
    var graph, b, graph';
    graph, b, lv0, ok := CompileGraph(f, snaplen);
    if ok {
      g0, root := graph, b;
      GraphFit(graph, lv0, b, f);
      graph', h := ManyRounds(graph, lv0, b, n);
      fp := Emit(graph', b, h);
      opt := graph';
    }
  }
}
