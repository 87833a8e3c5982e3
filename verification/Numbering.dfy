/** Symbolic evaluation and rewriting of one statement (vstore, fold_op, opt_stmt). */
module Numbering {
  import opened Machine
  import opened Liveness
  import opened ValueTable

  /** The value number of each atom; 0 means unknown. */
  type Vals = s: seq<nat> | |s| == 18 witness seq(18, _ => 0)

  // When numbers describe a state

  ghost predicate InTable(es: seq<Expr>, val: Vals) {
    forall a: Atom :: val[a] <= |es|
  }

  /** Every atom in `atoms` has a known number and holds the value that number denotes. */
  ghost predicate MatchesOn(es: seq<Expr>, val: Vals, atoms: set<Atom>, p: Packet, r: Regs)
    requires WellFounded(es)
  {
    forall a: Atom | a in atoms :: Den(es, val[a], p) == Some(r[a])
  }

  /** Every atom with a known number holds the value that number denotes. */
  ghost predicate Matches(es: seq<Expr>, val: Vals, p: Packet, r: Regs)
    requires WellFounded(es)
  {
    forall a: Atom | val[a] != 0 :: Den(es, val[a], p) == Some(r[a])
  }

  /** The statement reads no atom numbered 0. */
  ghost predicate Known(s: Stmt, val: Vals) {
    forall a: Atom | a in AtomUse(s) :: val[a] != 0
  }

  // What is promised of one symbolic step

  /** The table grew, and old numbers kept their meaning. */
  ghost predicate Grown(es: seq<Expr>, es': seq<Expr>) {
    es <= es' && WellFounded(es) && WellFounded(es')
  }

  /** Numbers stay right: what matched before the original statement matches after it, and so does what it writes. */
  ghost predicate NumbersRight(es: seq<Expr>, es': seq<Expr>, s: Stmt, val: Vals, val': Vals)
    requires WellFounded(es) && WellFounded(es')
  {
    forall atoms: set<Atom>, p, r |
      AtomUse(s) <= atoms && MatchesOn(es, val, atoms, p, r) && Exec(s, p, r).Some? ::
      MatchesOn(es', val', atoms + Defs(s), p, Exec(s, p, r).value)
  }

  /** `s'` does exactly what `s` does in every state the numbers describe in which `s` does not fault. */
  ghost predicate SameEffect(es: seq<Expr>, s: Stmt, s': Stmt, val: Vals)
    requires WellFounded(es)
  {
    forall p, r | Matches(es, val, p, r) && Known(s, val) && Exec(s, p, r).Some? ::
      Exec(s', p, r) == Exec(s, p, r)
  }

  ghost predicate StepOk(es: seq<Expr>, es': seq<Expr>, s: Stmt, s': Stmt, val: Vals, val': Vals) {
    && Grown(es, es') && InTable(es', val')
    && NumbersRight(es, es', s, val, val')
    && SameEffect(es, s, s', val)
    && (forall a: Atom | a !in Defs(s) :: val'[a] == val[a])
    && (Known(s, val) ==> forall a: Atom | a in Defs(s) :: val'[a] != 0)
  }

  /** Number `v` denotes what statement `s` writes. */
  ghost predicate Denotes(es: seq<Expr>, s: Stmt, val: Vals, v: nat)
    requires WellFounded(es) && AtomDef(s).Some?
  {
    forall p, r | MatchesOn(es, val, AtomUse(s), p, r) && Exec(s, p, r).Some? ::
      Den(es, v, p) == Some(Exec(s, p, r).value[AtomDef(s).value])
  }

  lemma MatchesStable(es: seq<Expr>, es': seq<Expr>, val: Vals, p: Packet, r: Regs)
    requires Grown(es, es') && InTable(es, val)
    ensures Matches(es, val, p, r) <==> Matches(es', val, p, r)
    ensures forall atoms :: MatchesOn(es, val, atoms, p, r) <==> MatchesOn(es', val, atoms, p, r)
  {
    forall a: Atom ensures Den(es, val[a], p) == Den(es', val[a], p) { DenStable(es, es', val[a], p); }
  }

  // vstore

  function VStore(s: Stmt, val: Vals, d: Atom, newval: nat, alter: bool): (Stmt, Vals) {
    if alter && val[d] == newval then (Nop, val) else (s, val[d := newval])
  }

  /** Recording a number that denotes what the statement writes is sound, and so is dropping the
      statement when its target already has that number. */
  lemma VStoreOk(es: seq<Expr>, es': seq<Expr>, s: Stmt, s1: Stmt, val: Vals, v: nat, alter: bool)
    requires Grown(es, es') && InTable(es, val) && v <= |es'| && (Known(s, val) ==> v != 0)
    requires AtomDef(s).Some? && Denotes(es', s, val, v) && SameEffect(es, s, s1, val)
    ensures var (s', val') := VStore(s1, val, AtomDef(s).value, v, alter);
            StepOk(es, es', s, s', val, val')
  {
    var (s', val') := VStore(s1, val, AtomDef(s).value, v, alter);
    RecordRight(es, es', s, val, val', v);
    forall p, r | s' != s1 && Matches(es, val, p, r) && Known(s, val) && Exec(s, p, r).Some?
      ensures Exec(s', p, r) == Exec(s, p, r)
    {
      MatchesStable(es, es', val, p, r);
      DropRedundant(es', s, val, v, p, r);
    }
  }

  lemma RecordRight(es: seq<Expr>, es': seq<Expr>, s: Stmt, val: Vals, val': Vals, v: nat)
    requires Grown(es, es') && InTable(es, val)
    requires AtomDef(s).Some? && Denotes(es', s, val, v) && val' == val[AtomDef(s).value := v]
    ensures NumbersRight(es, es', s, val, val')
  {
    forall atoms: set<Atom>, p, r | AtomUse(s) <= atoms && MatchesOn(es, val, atoms, p, r) && Exec(s, p, r).Some?
      ensures MatchesOn(es', val', atoms + Defs(s), p, Exec(s, p, r).value)
    {
      MatchesStable(es, es', val, p, r);
      ExecUsesAndDefs(s, p, r, r);
    }
  }

  /** A statement that writes what its target already holds does nothing. */
  lemma DropRedundant(es: seq<Expr>, s: Stmt, val: Vals, v: nat, p: Packet, r: Regs)
    requires WellFounded(es) && AtomDef(s).Some? && Denotes(es, s, val, v) && val[AtomDef(s).value] == v
    requires Matches(es, val, p, r) && Known(s, val) && Exec(s, p, r).Some?
    ensures Exec(s, p, r) == Some(r)
  {
    assert MatchesOn(es, val, AtomUse(s), p, r);
    var d := AtomDef(s).value;
    assert Den(es, v, p) == Some(Exec(s, p, r).value[d]);
    ExecUsesAndDefs(s, p, r, r);
    assert v != 0;
    assert Exec(s, p, r).value == r;
  }

  // Values of statements

  /** The value that a computing statement writes; `c` is the number of its constant operand. */
  function ValueOf(s: Stmt, val: Vals, c: nat): Expr
    requires !s.Nop? && !s.LdMem? && !s.LdxMem? && !s.St? && !s.Stx? && !s.Tax? && !s.Txa?
  {
    match s
    case LdAbs(size, k) => VAbs(size, k)
    case LdInd(size, k) => VInd(size, k, val[X_ATOM])
    case LdLen => VLen
    case LdImm(k) => VImm(k)
    case LdxImm(k) => VImm(k)
    case LdxMsh(k) => VMsh(k)
    case AluK(op, k) => VAluK(op, val[A_ATOM], c)
    case AluX(op) => VAluX(op, val[A_ATOM], val[X_ATOM])
    case Neg => VNeg(val[A_ATOM])
  }

  lemma ValueDenotes(es: seq<Expr>, s: Stmt, val: Vals, c: nat, v: nat)
    requires WellFounded(es) && 1 <= v <= |es|
    requires !s.Nop? && !s.LdMem? && !s.LdxMem? && !s.St? && !s.Stx? && !s.Tax? && !s.Txa?
    requires es[v - 1] == ValueOf(s, val, c)
    requires s.AluK? ==> 1 <= c <= |es| && es[c - 1] == VImm(s.k)
    ensures Denotes(es, s, val, v)
  {
  }

  /** The atom a move copies. */
  function Source(s: Stmt): Atom
    requires s.LdMem? || s.LdxMem? || s.St? || s.Stx? || s.Tax? || s.Txa?
  {
    match s
    case LdMem(m) => m
    case LdxMem(m) => m
    case St(_) => A_ATOM
    case Tax => A_ATOM
    case _ => X_ATOM
  }

  lemma MoveDenotes(es: seq<Expr>, s: Stmt, val: Vals)
    requires WellFounded(es) && (s.LdMem? || s.LdxMem? || s.St? || s.Stx? || s.Tax? || s.Txa?)
    ensures Denotes(es, s, val, val[Source(s)])
  {
  }

  /** `s1` is another way to write the value with number `v`. */
  ghost predicate Writes(es: seq<Expr>, s1: Stmt, d: Atom, val: Vals, v: nat)
    requires WellFounded(es)
  {
    forall p, r | Matches(es, val, p, r) && Den(es, v, p).Some? ::
      Exec(s1, p, r) == Some(r[d := Den(es, v, p).value])
  }

  lemma WritesSame(es: seq<Expr>, es': seq<Expr>, s: Stmt, s1: Stmt, val: Vals, v: nat)
    requires Grown(es, es') && InTable(es, val)
    requires AtomDef(s).Some? && Denotes(es', s, val, v) && Writes(es', s1, AtomDef(s).value, val, v)
    ensures SameEffect(es, s, s1, val)
  {
    forall p, r | Matches(es, val, p, r) && Known(s, val) && Exec(s, p, r).Some?
      ensures Exec(s1, p, r) == Exec(s, p, r)
    {
      MatchesStable(es, es', val, p, r);
      assert MatchesOn(es', val, AtomUse(s), p, r);
      ExecUsesAndDefs(s, p, r, r);
      assert Exec(s, p, r).value == r[AtomDef(s).value := Den(es', v, p).value];
    }
  }

  // Constants

  ghost predicate IsConst(es: seq<Expr>, v: nat, k: Word) {
    1 <= v <= |es| && es[v - 1] == VImm(k)
  }

  lemma ImmWrites(es: seq<Expr>, val: Vals, v: nat, k: Word)
    requires WellFounded(es) && IsConst(es, v, k)
    ensures Writes(es, LdImm(k), A_ATOM, val, v) && Writes(es, LdxImm(k), X_ATOM, val, v)
  {
  }

  lemma MoveWrites(es: seq<Expr>, val: Vals)
    requires WellFounded(es)
    ensures Writes(es, Txa, A_ATOM, val, val[X_ATOM])
  {
  }

  /** An indexed load at a known index is an absolute load. */
  lemma IndexedDenotes(es: seq<Expr>, size: Size, k: Word, val: Vals, kx: Word, v: nat)
    requires WellFounded(es) && IsConst(es, val[X_ATOM], kx)
    requires 1 <= v <= |es| && es[v - 1] == VAbs(size, Wrap(k + kx))
    ensures Denotes(es, LdInd(size, k), val, v)
    ensures SameEffect(es, LdInd(size, k), LdAbs(size, Wrap(k + kx)), val)
  {
  }

  /** Negating or combining known constants gives a known constant. */
  lemma FoldDenotes(es: seq<Expr>, s: Stmt, val: Vals, ka: Word, kb: Word, v: nat)
    requires WellFounded(es) && IsConst(es, val[A_ATOM], ka)
    requires s.AluX? ==> IsConst(es, val[X_ATOM], kb)
    requires s.AluK? ==> kb == s.k
    requires s == Neg || s.AluK? || s.AluX?
    requires var k := if s == Neg then Some(Negate(ka)) else Alu(s.op, ka, kb);
             k.Some? && IsConst(es, v, k.value)
    ensures Denotes(es, s, val, v)
  {
  }

  /** Folding a division by zero: the original always faults. */
  lemma FoldFaults(es: seq<Expr>, s: Stmt, val: Vals, ka: Word, kb: Word, p: Packet, r: Regs)
    requires WellFounded(es) && IsConst(es, val[A_ATOM], ka)
    requires s.AluX? ==> IsConst(es, val[X_ATOM], kb)
    requires s.AluK? ==> kb == s.k
    requires (s.AluK? || s.AluX?) && Alu(s.op, ka, kb).None? && MatchesOn(es, val, AtomUse(s), p, r)
    ensures Exec(s, p, r).None?
  {
  }

  /** A register operand with a known value becomes a constant operand. */
  lemma ConstOperand(es: seq<Expr>, op: AluOp, val: Vals, kx: Word, c: nat, v: nat)
    requires WellFounded(es) && IsConst(es, val[X_ATOM], kx) && IsConst(es, c, kx)
    requires 1 <= v <= |es| && es[v - 1] == VAluK(op, val[A_ATOM], c)
    ensures Denotes(es, AluX(op), val, v)
    ensures SameEffect(es, AluX(op), AluK(op, kx), val)
  {
  }

  /** Operations with a zero constant: the accumulator keeps its value, or becomes zero. */
  lemma ZeroOperand(es: seq<Expr>, op: AluOp, val: Vals)
    requires WellFounded(es)
    ensures op in {Add, Lsh, Rsh, Or} ==>
              Denotes(es, AluK(op, 0), val, val[A_ATOM]) && SameEffect(es, AluK(op, 0), Nop, val)
    ensures forall v | op in {Mul, And} && IsConst(es, v, 0) :: Denotes(es, AluK(op, 0), val, v)
  {
    AluRightZero(op);
    assert forall r: Regs :: r[A_ATOM := r[A_ATOM]] == r;
  }

  lemma AluRightZero(op: AluOp)
    ensures forall a: Word :: Alu(op, a, 0) ==
              match op
              case Add => Some(a) case Sub => Some(a) case Or => Some(a) case Lsh => Some(a) case Rsh => Some(a)
              case Mul => Some(0) case And => Some(0) case Div => None
  {
    forall a: Word ensures op.Mul? ==> Wrap(a * 0) == 0 { }
  }

  /** Operations on a zero accumulator. */
  lemma AluLeftZero(op: AluOp, b: Word)
    ensures op in {Add, Or} ==> Alu(op, 0, b) == Some(b)
    ensures op in {Mul, Div, And, Lsh, Rsh} && Alu(op, 0, b).Some? ==> Alu(op, 0, b) == Some(0)
  {
    ShiftZero(b);
    if op.Mul? { assert 0 * b == 0; }
    if op.Div? && b != 0 { assert Quotient(0, b) == 0; }
  }

  lemma {:induction false} ShiftZero(n: nat)
    ensures ShiftLeft(0, n) == 0 && ShiftRight(0, n) == 0
  {
    if n != 0 { ShiftZero(n - 1); }
  }

  lemma ZeroAccumulator(es: seq<Expr>, op: AluOp, val: Vals)
    requires WellFounded(es) && IsConst(es, val[A_ATOM], 0)
    ensures op in {Add, Or} ==> Denotes(es, AluX(op), val, val[X_ATOM])
    ensures forall v | op in {Mul, Div, And, Lsh, Rsh} && IsConst(es, v, 0) :: Denotes(es, AluX(op), val, v)
  {
    forall b: Word { AluLeftZero(op, b); }
  }

  // opt_stmt

  /** An upper bound on the numbers one statement can take. */
  function NumbersFor(s: Stmt): nat { if s.Nop? then 0 else 2 }

  ghost predicate Constant(es: seq<Expr>, v: nat) { 1 <= v <= |es| && es[v - 1].VImm? }

  /** The constant that a number stands for, if it stands for one. */
  ghost function ConstIn(es: seq<Expr>, v: nat): Option<Word> { if Constant(es, v) then Some(es[v - 1].k) else None }

  predicate IsMove(s: Stmt) { s.LdMem? || s.LdxMem? || s.St? || s.Stx? || s.Tax? || s.Txa? }

  /** `v` is the number of what the statement writes, by its own form and the numbers of its operands. */
  ghost predicate Names(es: seq<Expr>, s: Stmt, val: Vals, v: nat)
    requires !s.Nop?
  {
    if IsMove(s) then v == val[Source(s)]
    else if s.AluK? then
      && 1 <= v <= |es| && es[v - 1].VAluK? && es[v - 1].op == s.op && es[v - 1].a == val[A_ATOM]
      && IsConst(es, es[v - 1].c, s.k)
    else 1 <= v <= |es| && es[v - 1] == ValueOf(s, val, 0)
  }

  /** The numbers after a statement follow from its form and the numbers before it. */
  ghost predicate Named(es: seq<Expr>, s: Stmt, val: Vals, val': Vals) {
    if s.Nop? then val' == val
    else Names(es, s, val, val'[AtomDef(s).value]) && forall a: Atom | a != AtomDef(s).value :: val'[a] == val[a]
  }

  /** A load, or a move of something that is not known to be a constant. */
  ghost predicate Simple(es: seq<Expr>, s: Stmt, val: Vals) {
    || s.Nop? || s.LdAbs? || s.LdLen? || s.LdImm? || s.LdxImm? || s.LdxMsh?
    || (IsMove(s) && (s.LdMem? || s.LdxMem? ==> !Constant(es, val[Source(s)])))
  }

  /** A simple statement gives its target the number of what it writes, and is dropped exactly if that changes
      nothing. */
  ghost predicate Formed(es: seq<Expr>, s: Stmt, s': Stmt, val: Vals, val': Vals, alter: bool) {
    Simple(es, s, val) ==> Named(es, s, val, val') && s' == if alter && val' == val then Nop else s
  }

  /** Nothing is left to fold: no operand of the statement is a known constant that could be merged into it,
      and no load or move writes a number that its target already has. */
  ghost predicate Reduced(es: seq<Expr>, s: Stmt, s': Stmt, val: Vals, val': Vals) {
    && (match s'
        case LdInd(_, _) => !Constant(es, val[X_ATOM])
        case LdMem(m) => !Constant(es, val[m])
        case LdxMem(m) => !Constant(es, val[m])
        case Neg => !Constant(es, val[A_ATOM])
        case AluK(op, k) => !Constant(es, val[A_ATOM]) && (k == 0 && s.AluK? ==> op in {Sub, Div})
        case AluX(op) => !Constant(es, val[X_ATOM]) && (IsConst(es, val[A_ATOM], 0) ==> op == Sub)
        case _ => true)
    && (s' != Nop && !s.AluK? && !s.AluX? && !s.Neg? ==> val' != val)
  }

  /** Result of a symbolic step: no error, or a constant division by zero on every run on which the operands have
      their numbers' values. */
  ghost predicate Stepped(es: seq<Expr>, es': seq<Expr>, s: Stmt, s': Stmt, val: Vals, val': Vals, alter: bool,
                          ok: bool) {
    && Grown(es, es') && |es'| <= |es| + NumbersFor(s)
    && (ok ==> StepOk(es, es', s, s', val, val') && Named(es', s', val, val') && Formed(es', s, s', val, val', alter))
    && (!ok ==> forall p, r | MatchesOn(es, val, AtomUse(s), p, r) :: Exec(s, p, r).None?)
    && (if alter then ok ==> Reduced(es', s, s', val, val') else ok && s' == s)
  }

  /** Indexed loads. */
  method OptInd(t: Table, s: Stmt, val: Vals, alter: bool) returns (s': Stmt, val': Vals)
    requires t.Valid() && InTable(t.exprs, val) && t.curval + 2 < |t.vmap| && s.LdInd?
    modifies t
    ensures t.Valid() && |t.vmap| == old(|t.vmap|)
    ensures Stepped(old(t.exprs), t.exprs, s, s', val, val', alter, true)
  {
    s' := s;
    var v := val[X_ATOM];
    var kx := t.ConstantOf(v);
    if alter && kx.Some? {
      s' := LdAbs(s.size, Wrap(s.k + kx.value));
      v := t.F(VAbs(s'.size, s'.k));
      AbsStep(old(t.exprs), t.exprs, s, s', val, kx.value, v);
    } else {
      v := t.F(VInd(s.size, s.k, v));
      IndStep(old(t.exprs), t.exprs, s, val, v, alter);
    }
    var (s1, val1) := VStore(s', val, A_ATOM, v, alter);
    s', val' := s1, val1;
  }

  lemma AbsStep(es: seq<Expr>, es': seq<Expr>, s: Stmt, s1: Stmt, val: Vals, kx: Word, v: nat)
    requires Grown(es, es') && InTable(es, val) && |es'| <= |es| + 2 && s.LdInd? && IsConst(es, val[X_ATOM], kx)
    requires s1 == LdAbs(s.size, Wrap(s.k + kx)) && 1 <= v <= |es'| && es'[v - 1] == VAbs(s1.size, s1.k)
    ensures var (s', val') := VStore(s1, val, A_ATOM, v, true);
            Stepped(es, es', s, s', val, val', true, true)
  {
    IndexedDenotes(es', s.size, s.k, val, kx, v);
    SameEffectStable(es, es', s, s1, val);
    VStoreOk(es, es', s, s1, val, v, true);
  }

  lemma IndStep(es: seq<Expr>, es': seq<Expr>, s: Stmt, val: Vals, v: nat, alter: bool)
    requires Grown(es, es') && InTable(es, val) && |es'| <= |es| + 2 && s.LdInd?
    requires alter ==> !Constant(es, val[X_ATOM])
    requires 1 <= v <= |es'| && es'[v - 1] == VInd(s.size, s.k, val[X_ATOM])
    ensures var (s', val') := VStore(s, val, A_ATOM, v, alter);
            Stepped(es, es', s, s', val, val', alter, true)
  {
    ValueDenotes(es', s, val, 0, v);
    VStoreOk(es, es', s, s, val, v, alter);
  }

  lemma SameEffectStable(es: seq<Expr>, es': seq<Expr>, s: Stmt, s': Stmt, val: Vals)
    requires Grown(es, es') && InTable(es, val)
    ensures SameEffect(es, s, s', val) <==> SameEffect(es', s, s', val)
  {
    forall p, r ensures Matches(es, val, p, r) <==> Matches(es', val, p, r) { MatchesStable(es, es', val, p, r); }
  }

  /** Plain loads: the value does not depend on any atom. */
  method OptLoad(t: Table, s: Stmt, val: Vals, alter: bool) returns (s': Stmt, val': Vals)
    requires t.Valid() && InTable(t.exprs, val) && t.curval + 2 < |t.vmap|
    requires s.LdAbs? || s.LdLen? || s.LdImm? || s.LdxImm? || s.LdxMsh?
    modifies t
    ensures t.Valid() && |t.vmap| == old(|t.vmap|)
    ensures Stepped(old(t.exprs), t.exprs, s, s', val, val', alter, true)
  {
    var v := t.F(ValueOf(s, val, 0));
    ValueDenotes(t.exprs, s, val, 0, v);
    VStoreOk(old(t.exprs), t.exprs, s, s, val, v, alter);
    var (s1, val1) := VStore(s, val, AtomDef(s).value, v, alter);
    s', val' := s1, val1;
  }

  /** Moves between registers and memory; a memory load of a known constant becomes immediate. */
  method OptMove(t: Table, s: Stmt, val: Vals, alter: bool) returns (s': Stmt, val': Vals)
    requires t.Valid() && InTable(t.exprs, val)
    requires s.LdMem? || s.LdxMem? || s.St? || s.Stx? || s.Tax? || s.Txa?
    ensures Stepped(t.exprs, t.exprs, s, s', val, val', alter, true)
  {
    s' := s;
    var v := val[Source(s)];
    if s.LdMem? || s.LdxMem? {
      var k := t.ConstantOf(v);
      if alter && k.Some? { s' := if s.LdMem? then LdImm(k.value) else LdxImm(k.value); }
    }
    MoveStep(t.exprs, s, s', val, alter);
    var (s1, val1) := VStore(s', val, AtomDef(s).value, v, alter);
    s', val' := s1, val1;
  }

  lemma MoveStep(es: seq<Expr>, s: Stmt, s1: Stmt, val: Vals, alter: bool)
    requires WellFounded(es) && InTable(es, val) && IsMove(s)
    requires if alter && (s.LdMem? || s.LdxMem?) && Constant(es, val[Source(s)])
             then s1 == if s.LdMem? then LdImm(es[val[Source(s)] - 1].k) else LdxImm(es[val[Source(s)] - 1].k)
               else s1 == s
    ensures var (s', val') := VStore(s1, val, AtomDef(s).value, val[Source(s)], alter);
            Stepped(es, es, s, s', val, val', alter, true)
  {
    var v := val[Source(s)];
    MoveDenotes(es, s, val);
    if s1 != s {
      ImmWrites(es, val, v, es[v - 1].k);
      WritesSame(es, es, s, s1, val, v);
    }
    VStoreOk(es, es, s, s1, val, v, alter);
  }

  method OptNeg(t: Table, s: Stmt, val: Vals, alter: bool) returns (s': Stmt, val': Vals)
    requires t.Valid() && InTable(t.exprs, val) && t.curval + 2 < |t.vmap| && s == Neg
    modifies t
    ensures t.Valid() && |t.vmap| == old(|t.vmap|)
    ensures Stepped(old(t.exprs), t.exprs, s, s', val, val', alter, true)
  {
    s' := s;
    var ka := t.ConstantOf(val[A_ATOM]);
    var v;
    if alter && ka.Some? {
      s' := LdImm(Negate(ka.value));
      v := t.F(VImm(s'.k));
      FoldDenotes(t.exprs, s, val, ka.value, 0, v);
      ImmWrites(t.exprs, val, v, s'.k);
      WritesSame(old(t.exprs), t.exprs, s, s', val, v);
    } else {
      v := t.F(VNeg(val[A_ATOM]));
      ValueDenotes(t.exprs, s, val, 0, v);
    }
    VStoreOk(old(t.exprs), t.exprs, s, s', val, v, false);
    val' := val[A_ATOM := v];
  }

  /** Replace an operation on two known constants by its result (fold_op and the new number). */
  method FoldOp(t: Table, ghost es: seq<Expr>, s: Stmt, val: Vals, ka: Word, kb: Word)
    returns (ok: bool, s': Stmt, val': Vals)
    requires t.Valid() && Grown(es, t.exprs) && InTable(es, val) && t.curval + 1 < |t.vmap| && |t.exprs| <= |es| + 1
    requires (s.AluK? && kb == s.k) || (s.AluX? && IsConst(es, val[X_ATOM], kb))
    requires IsConst(es, val[A_ATOM], ka)
    modifies t
    ensures t.Valid() && |t.vmap| == old(|t.vmap|)
    ensures Stepped(es, t.exprs, s, s', val, val', true, ok)
    ensures ok <==> !(s.op == Div && kb == 0)
  {
    s', val' := s, val;
    var k := Alu(s.op, ka, kb);
    ok := k.Some?;
    if !ok {
      forall p, r | MatchesOn(es, val, AtomUse(s), p, r) ensures Exec(s, p, r).None? {
        FoldFaults(es, s, val, ka, kb, p, r);
      }
      return;
    }
    s' := LdImm(k.value);
    var v := t.F(VImm(k.value));
    FoldStep(es, t.exprs, s, val, ka, kb, k.value, v);
    val' := val[A_ATOM := v];
  }

  lemma FoldStep(es: seq<Expr>, es': seq<Expr>, s: Stmt, val: Vals, ka: Word, kb: Word, k: Word, v: nat)
    requires Grown(es, es') && InTable(es, val) && |es'| <= |es| + 2 && IsConst(es, val[A_ATOM], ka)
    requires (s.AluK? && kb == s.k) || (s.AluX? && IsConst(es, val[X_ATOM], kb))
    requires Alu(s.op, ka, kb) == Some(k) && IsConst(es', v, k)
    ensures Stepped(es, es', s, LdImm(k), val, val[A_ATOM := v], true, true)
  {
    FoldDenotes(es', s, val, ka, kb, v);
    ImmWrites(es', val, v, k);
    WritesSame(es, es', s, LdImm(k), val, v);
    VStoreOk(es, es', s, LdImm(k), val, v, false);
  }

  /** Arithmetic with a zero operand that keeps the accumulator or clears it. */
  method OptAluZero(t: Table, s: Stmt, val: Vals) returns (s': Stmt, val': Vals)
    requires t.Valid() && InTable(t.exprs, val) && t.curval + 2 < |t.vmap|
    requires s.AluK? && s.k == 0 && s.op in {Add, Lsh, Rsh, Or, Mul, And}
    modifies t
    ensures t.Valid() && |t.vmap| == old(|t.vmap|)
    ensures Stepped(old(t.exprs), t.exprs, s, s', val, val', true, true)
  {
    ghost var es := t.exprs;
    var v := val[A_ATOM];
    if s.op in {Add, Lsh, Rsh, Or} {
      s' := Nop;
      ZeroOperand(es, s.op, val);
    } else {
      s' := LdImm(0);
      v := t.F(VImm(0));
      ZeroOperand(t.exprs, s.op, val);
      ImmWrites(t.exprs, val, v, 0);
      WritesSame(es, t.exprs, s, s', val, v);
    }
    VStoreOk(es, t.exprs, s, s', val, v, false);
    val' := val[A_ATOM := v];
  }

  /** Number an arithmetic statement without changing it. */
  method NumberAlu(t: Table, s: Stmt, val: Vals) returns (val': Vals)
    requires t.Valid() && InTable(t.exprs, val) && t.curval + 2 < |t.vmap| && (s.AluK? || s.AluX?)
    modifies t
    ensures t.Valid() && |t.vmap| == old(|t.vmap|) && |t.exprs| <= |old(t.exprs)| + 2
    ensures StepOk(old(t.exprs), t.exprs, s, s, val, val') && Named(t.exprs, s, val, val')
  {
    var c := 0;
    if s.AluK? { c := t.F(VImm(s.k)); }
    var v := t.F(ValueOf(s, val, c));
    ValueDenotes(t.exprs, s, val, c, v);
    VStoreOk(old(t.exprs), t.exprs, s, s, val, v, false);
    val' := val[A_ATOM := v];
  }

  /** Arithmetic with a constant operand. */
  method OptAluK(t: Table, s: Stmt, val: Vals, alter: bool) returns (ok: bool, s': Stmt, val': Vals)
    requires t.Valid() && InTable(t.exprs, val) && t.curval + 2 < |t.vmap| && s.AluK?
    modifies t
    ensures t.Valid() && |t.vmap| == old(|t.vmap|)
    ensures Stepped(old(t.exprs), t.exprs, s, s', val, val', alter, ok)
  {
    ok, s' := true, s;
    if alter && s.k == 0 && !s.op.Sub? && !s.op.Div? {
      s', val' := OptAluZero(t, s, val);
      return;
    }
    var ka := t.ConstantOf(val[A_ATOM]);
    if alter && ka.Some? {
      ghost var es := t.exprs;
      var k := t.F(VImm(s.k));
      ok, s', val' := FoldOp(t, es, s, val, ka.value, s.k);
      return;
    }
    val' := NumberAlu(t, s, val);
  }

  /** Arithmetic with an index register of known value. */
  method OptAluConstX(t: Table, s: Stmt, val: Vals, kx: Word) returns (s': Stmt, val': Vals)
    requires t.Valid() && InTable(t.exprs, val) && t.curval + 2 < |t.vmap| && s.AluX?
    requires IsConst(t.exprs, val[X_ATOM], kx) && !Constant(t.exprs, val[A_ATOM])
    modifies t
    ensures t.Valid() && |t.vmap| == old(|t.vmap|)
    ensures Stepped(old(t.exprs), t.exprs, s, s', val, val', true, true)
  {
    s' := AluK(s.op, kx);
    var c := t.F(VImm(s'.k));
    var v := t.F(VAluK(s'.op, val[A_ATOM], c));
    ConstOperand(t.exprs, s.op, val, kx, c, v);
    SameEffectStable(old(t.exprs), t.exprs, s, s', val);
    VStoreOk(old(t.exprs), t.exprs, s, s', val, v, false);
    val' := val[A_ATOM := v];
  }

  /** Arithmetic on an accumulator known to be zero. */
  method OptAluZeroA(t: Table, s: Stmt, val: Vals) returns (s': Stmt, val': Vals)
    requires t.Valid() && InTable(t.exprs, val) && t.curval + 2 < |t.vmap| && s.AluX? && !s.op.Sub?
    requires IsConst(t.exprs, val[A_ATOM], 0)
    modifies t
    ensures t.Valid() && |t.vmap| == old(|t.vmap|)
    ensures Stepped(old(t.exprs), t.exprs, s, s', val, val', true, true)
  {
    ghost var es := t.exprs;
    var v := val[X_ATOM];
    if s.op.Add? || s.op.Or? {
      s' := Txa;
      ZeroAccumulator(es, s.op, val);
      MoveWrites(es, val);
    } else {
      s' := LdImm(0);
      v := t.F(VImm(0));
      ZeroAccumulator(t.exprs, s.op, val);
      ImmWrites(t.exprs, val, v, 0);
    }
    WritesSame(es, t.exprs, s, s', val, v);
    VStoreOk(es, t.exprs, s, s', val, v, true);
    var (s1, val1) := VStore(s', val, A_ATOM, v, true);
    s', val' := s1, val1;
  }

  /** Arithmetic with the index register as operand. */
  method OptAluX(t: Table, s: Stmt, val: Vals, alter: bool) returns (ok: bool, s': Stmt, val': Vals)
    requires t.Valid() && InTable(t.exprs, val) && t.curval + 2 < |t.vmap| && s.AluX?
    modifies t
    ensures t.Valid() && |t.vmap| == old(|t.vmap|)
    ensures Stepped(old(t.exprs), t.exprs, s, s', val, val', alter, ok)
  {
    ok, s' := true, s;
    var ka := t.ConstantOf(val[A_ATOM]);
    var kx := t.ConstantOf(val[X_ATOM]);
    if alter && kx.Some? {
      if ka.Some? {
        ok, s', val' := FoldOp(t, t.exprs, s, val, ka.value, kx.value);
      } else {
        s', val' := OptAluConstX(t, s, val, kx.value);
      }
    } else if alter && ka == Some(0) && !s.op.Sub? {
      s', val' := OptAluZeroA(t, s, val);
    } else {
      val' := NumberAlu(t, s, val);
    }
  }

  /** Evaluate one statement symbolically and, if `alter`, rewrite it. */
  method OptStmt(t: Table, s: Stmt, val: Vals, alter: bool) returns (ok: bool, s': Stmt, val': Vals)
    requires t.Valid() && InTable(t.exprs, val) && t.curval + NumbersFor(s) < |t.vmap|
    modifies t
    ensures t.Valid() && |t.vmap| == old(|t.vmap|)
    ensures Stepped(old(t.exprs), t.exprs, s, s', val, val', alter, ok)
  {
    ok := true;
    match s
    case Nop =>
      s', val' := s, val;
      NopStep(t.exprs, val);
    case LdInd(_, _) => s', val' := OptInd(t, s, val, alter);
    case LdAbs(_, _) => s', val' := OptLoad(t, s, val, alter);
    case LdLen => s', val' := OptLoad(t, s, val, alter);
    case LdImm(_) => s', val' := OptLoad(t, s, val, alter);
    case LdxImm(_) => s', val' := OptLoad(t, s, val, alter);
    case LdxMsh(_) => s', val' := OptLoad(t, s, val, alter);
    case Neg => s', val' := OptNeg(t, s, val, alter);
    case AluK(_, _) => ok, s', val' := OptAluK(t, s, val, alter);
    case AluX(_) => ok, s', val' := OptAluX(t, s, val, alter);
    case _ => s', val' := OptMove(t, s, val, alter);
  }

  lemma NopStep(es: seq<Expr>, val: Vals)
    requires WellFounded(es) && InTable(es, val)
    ensures StepOk(es, es, Nop, Nop, val, val)
  {
    forall atoms: set<Atom>, p, r | MatchesOn(es, val, atoms, p, r)
      ensures MatchesOn(es, val, atoms + Defs(Nop), p, Exec(Nop, p, r).value)
    {
      assert atoms + Defs(Nop) == atoms;
    }
  }
}
