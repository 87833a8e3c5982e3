/** Compiling arithmetic expressions into statements over scratch registers (alloc_reg, free_reg, gen_loadi,
    gen_loadlen, gen_load, gen_neg, gen_arth, gen_relation). */
module Arithmetic {
  import opened Machine
  import opened Composition
  import opened Liveness

  // Expressions and their values

  /** The header an accessor indexes: at a fixed offset, without or with a protocol check, or behind the IPv4
      header found there, with the checks gen_load attaches. */
  datatype Header =
    | Link(off: Word)
    | Net(off: Word, proto: Cond)
    | Tran(off: Word, ip: Cond, proto: Cond, frag: Cond)

  datatype ArithExpr =
    | Imm(k: Word)
    | Len
    | Access(header: Header, size: int, idx: ArithExpr)
    | Minus(inner: ArithExpr)
    | Bin(op: AluOp, left: ArithExpr, right: ArithExpr)

  function SizeOf(n: int): Option<Size> {
    if n == 1 then Some(B) else if n == 2 then Some(H) else if n == 4 then Some(W) else None
  }

  /** The 32-bit value of an expression; `None` when a load is out of range or a divisor is zero. */
  function Value(e: ArithExpr, p: Packet): Option<Word> {
    match e
    case Imm(k) => Some(k)
    case Len => Some(p.wirelen)
    case Minus(a) => var v := Value(a, p); if v.None? then None else Some(Negate(v.value))
    case Bin(op, a, b) =>
      var va, vb := Value(a, p), Value(b, p);
      if va.None? || vb.None? then None else Alu(op, va.value, vb.value)
    case Access(h, size, a) =>
      var v, sz := Value(a, p), SizeOf(size);
      if v.None? || HeaderStart(h, p).None? || sz.None? then None else LoadFrom(h, sz.value, p, v.value)
  }

  /** Where the accessed header starts. */
  function HeaderStart(h: Header, p: Packet): Option<nat> {
    if h.Tran? then
      var n := LoadMsh(p, h.off); if n.None? then None else Some(h.off + n.value)
    else Some(h.off)
  }

  /** The item at index `i` of a header, its address taken modulo 2^32. */
  function LoadFrom(h: Header, sz: Size, p: Packet, i: Word): Option<Word>
    requires HeaderStart(h, p).Some?
  {
    Load(p, sz, Wrap(HeaderStart(h, p).value + i))
  }

  predicate SizesOk(e: ArithExpr) {
    match e
    case Imm(_) => true
    case Len => true
    case Minus(a) => SizesOk(a)
    case Bin(_, a, b) => SizesOk(a) && SizesOk(b)
    case Access(_, size, a) => SizeOf(size).Some? && SizesOk(a)
  }

  /** How many registers an expression occupies at once while it is compiled. */
  function Need(e: ArithExpr): nat {
    match e
    case Imm(_) => 1
    case Len => 1
    case Minus(a) => Need(a)
    case Bin(_, a, b) => Max(Need(a), 1 + Need(b))
    case Access(_, _, a) => Max(Need(a), 2)
  }

  // The register table

  type RegTable = s: seq<bool> | |s| == 16 witness seq(16, _ => false)

  function Busy(s: seq<bool>): nat { if s == [] then 0 else (if s[0] then 1 else 0) + Busy(s[1..]) }

  lemma {:induction false} BusyUpdate(s: seq<bool>, i: nat, v: bool)
    requires i < |s|
    ensures Busy(s[i := v]) == Busy(s) - (if s[i] then 1 else 0) + (if v then 1 else 0)
    decreases s
  {
    if i == 0 {
      assert s[i := v][1..] == s[1..];
    } else {
      assert s[i := v][1..] == s[1..][i - 1 := v];
      BusyUpdate(s[1..], i - 1, v);
    }
  }

  /** The table is full exactly when every register is busy. */
  lemma {:induction false} BusyFull(s: seq<bool>)
    ensures Busy(s) <= |s| && (Busy(s) == |s| <==> forall i | 0 <= i < |s| :: s[i])
    decreases s
  {
    if s != [] {
      BusyFull(s[1..]);
      assert forall i | 0 <= i < |s[1..]| :: s[1..][i] == s[i + 1];
      if forall i | 0 <= i < |s[1..]| :: s[1..][i] {
        forall i | 0 < i < |s| ensures s[i] { assert s[i] == s[1..][i - 1]; }
      }
    }
  }

  /** Registers `cur`, `cur + 1`, ... around the table, `n` of them, are busy. */
  ghost predicate BusyRun(s: RegTable, start: nat, n: nat) { forall j | 0 <= j < n :: s[Around(start, j)] }

  function Around(start: nat, j: nat): Reg { (start + j) % 16 }

  lemma AroundAll(s: RegTable, start: nat)
    requires start < 16 && BusyRun(s, start, 16)
    ensures forall i | 0 <= i < 16 :: s[i]
  {
    forall i | 0 <= i < 16 ensures s[i] {
      var j := if i >= start then i - start else i + 16 - start;
      assert Around(start, j) == i;
    }
  }

  class Allocator {
    var regused: array<bool>
    var curreg: Reg

    ghost predicate Valid() reads this, regused { regused.Length == 16 }

    ghost function Regused(): (s: RegTable)
      reads this, regused
      requires Valid()
    {
      regused[..]
    }

    constructor ()
      ensures Valid() && fresh(regused) && forall m: Reg :: !Regused()[m]
    {
      curreg := 0;
      regused := new bool[16](_ => false);
    }

    /** The next free register; an error if there is none. */
    method AllocReg() returns (r: Option<Reg>)
      requires Valid()
      modifies this`curreg, regused
      ensures Valid()
      ensures r.Some? <==> Busy(old(Regused())) < 16
      ensures r.Some? ==> !old(Regused())[r.value] && Regused() == old(Regused())[r.value := true]
      ensures r.None? ==> Regused() == old(Regused())
    {
      var n := 16;
      ghost var start: nat := curreg;
      BusyFull(regused[..]);
      while n > 0
        invariant 0 <= n <= 16 && curreg == Around(start, 16 - n)
        invariant regused[..] == old(regused[..]) && BusyRun(regused[..], start, 16 - n)
      {
        if regused[curreg] {
          curreg := (curreg + 1) % 16;
        } else {
          regused[curreg] := true;
          return Some(curreg);
        }
        n := n - 1;
      }
      AroundAll(regused[..], start);
      r := None;
    }

    method FreeReg(n: Reg)
      requires Valid()
      modifies regused
      ensures Valid() && Regused() == old(Regused())[n := false]
    {
      regused[n] := false;
    }

    method GenLoadi(k: Word) returns (a: Option<Arth>)
      requires Valid()
      modifies this`curreg, regused
      ensures Valid() && ReadyIfAny(a, Imm(k), old(Regused()), Regused())
    {
      var reg := AllocReg();
      if reg.None? { return None; }
      a := Some(Arth([LdImm(k), St(reg.value)], reg.value, None));
      ImmComputes(k, reg.value, old(Regused()));
      PairNoInputs(LdImm(k), reg.value);
      BusyUpdate(old(Regused()), reg.value, true);
    }

    method GenLoadlen() returns (a: Option<Arth>)
      requires Valid()
      modifies this`curreg, regused
      ensures Valid() && ReadyIfAny(a, Len, old(Regused()), Regused())
    {
      var reg := AllocReg();
      if reg.None? { return None; }
      a := Some(Arth([LdLen, St(reg.value)], reg.value, None));
      LenComputes(reg.value, old(Regused()));
      PairNoInputs(LdLen, reg.value);
      BusyUpdate(old(Regused()), reg.value, true);
    }

    /** Load an item at an index; the register for the item is taken before the index's is given back. */
    method GenLoad(h: Header, size: int, a: Arth, ghost e: ArithExpr, ghost busy: RegTable) returns (a': Option<Arth>)
      requires Valid() && Ready(a, e, busy, Regused())
      modifies this`curreg, regused
      ensures Valid()
      ensures a'.Some? <==> SizeOf(size).Some? && Busy(busy) + 2 <= 16
      ensures a'.Some? ==> Ready(a'.value, Access(h, size, e), busy, Regused())
    {
      var reg := AllocReg();
      BusyUpdate(busy, a.regno, true);
      if reg.None? { return None; }
      FreeReg(a.regno);
      if SizeOf(size).None? { return None; }
      var sz := SizeOf(size).value;
      var code;
      if h.Tran? {
        code := a.s + [LdxMsh(h.off), LdMem(a.regno), AluX(Add), Tax, LdInd(sz, h.off)];
      } else {
        code := a.s + [LdxMem(a.regno), LdInd(sz, h.off)];
      }
      code := code + [St(reg.value)];
      assert code == a.s + AccessTail(h, sz, a.regno, reg.value);
      AccessComputes(h, size, e, a.s, a.regno, reg.value, busy);
      AccessNoInputs(h, sz, a.s, a.regno, reg.value);
      a' := Some(Arth(code, reg.value, LoadGuard(h, a.b)));
    }

    method GenNeg(a: Arth, ghost e: ArithExpr, ghost busy: RegTable) returns (a': Arth)
      requires Valid() && Ready(a, e, busy, Regused())
      ensures Ready(a', Minus(e), busy, Regused())
    {
      a' := Arth(a.s + [LdMem(a.regno)] + [Neg] + [St(a.regno)], a.regno, a.b);
      assert a'.s == a.s + MinusTail(a.regno);
      MinusComputes(e, a.s, a.regno, busy);
      MinusNoInputs(a.s, a.regno);
    }

    /** Both operands' registers are given back before the result's is taken. */
    method GenArth(op: AluOp, a0: Arth, a1: Arth, ghost e0: ArithExpr, ghost e1: ArithExpr, ghost busy: RegTable)
      returns (a: Option<Arth>)
      requires Valid() && Ready(a0, e0, busy, busy[a0.regno := true])
      requires Ready(a1, e1, busy[a0.regno := true], Regused())
      modifies this`curreg, regused
      ensures Valid() && a.Some? && Ready(a.value, Bin(op, e0, e1), busy, Regused())
    {
      var code := a0.s + a1.s + [LdxMem(a1.regno), LdMem(a0.regno), AluX(op)];
      FreeReg(a0.regno);
      FreeReg(a1.regno);
      assert Regused() == busy;
      assert Busy(busy) < 16 by { BusyFull(busy); }
      var reg := AllocReg();
      code := code + [St(reg.value)];
      assert code == a0.s + a1.s + BinTail(op, a0.regno, a1.regno, reg.value);
      BinComputes(op, e0, e1, a0.s, a1.s, a0.regno, a1.regno, reg.value, busy);
      BinNoInputs(op, a0.s, a1.s, a0.regno, a1.regno, reg.value);
      a := Some(Arth(code, reg.value, a0.b));
    }

    /** Compile an expression, operands from left to right. */
    method Compile(e: ArithExpr) returns (a: Option<Arth>)
      requires Valid()
      modifies this`curreg, regused
      ensures Valid() && ReadyIfAny(a, e, old(Regused()), Regused())
      decreases e
    {
      ghost var busy := Regused();
      match e
      case Imm(k) => a := GenLoadi(k);
      case Len => a := GenLoadlen();
      case Minus(e0) =>
        a := Compile(e0);
        if a.None? { return; }
        var a' := GenNeg(a.value, e0, busy);
        a := Some(a');
      case Access(h, size, e0) =>
        a := Compile(e0);
        if a.None? { return; }
        a := GenLoad(h, size, a.value, e0, busy);
      case Bin(op, e0, e1) =>
        var a0 := Compile(e0);
        if a0.None? { return None; }
        BusyUpdate(busy, a0.value.regno, true);
        var a1 := Compile(e1);
        if a1.None? { return None; }
        a := GenArth(op, a0.value, a1.value, e0, e1, busy);
    }
  }

  // Compiled expressions

  /** Statements, the register that then holds the value, and the protocol check to make first. */
  datatype Arth = Arth(s: seq<Stmt>, regno: Reg, b: Option<Cond>)

  /** One run of compiled code: it faults exactly when the expression has no value, leaves the value in `reg`,
      and changes no register busy beforehand. */
  ghost predicate Delivers(q: Option<Regs>, v: Option<Word>, r: Regs, reg: Reg, busy: RegTable) {
    && (q.None? <==> v.None?)
    && (q.Some? ==> q.value[reg] == v.value && forall m: Reg | busy[m] :: q.value[m] == r[m])
  }

  ghost predicate Computes(ss: seq<Stmt>, reg: Reg, e: ArithExpr, busy: RegTable) {
    forall p, r :: Delivers(ExecAll(ss, p, r), Value(e, p), r, reg, busy)
  }

  /** `a` is compiled code for `e`, and its register is the only one taken. */
  ghost predicate Ready(a: Arth, e: ArithExpr, busy: RegTable, busy': RegTable) {
    && !busy[a.regno] && busy' == busy[a.regno := true]
    && Computes(a.s, a.regno, e, busy) && NoInputs(a.s, a.regno) && Tidy(a.s) && a.b == Guard(e)
  }

  /** The code reads nothing it has not computed itself. */
  ghost predicate NoInputs(ss: seq<Stmt>, reg: Reg) {
    forall live: set<Atom> :: LiveIn(ss, live) <= live - {reg}
  }

  /** X is not used again after an access, unless what follows uses it, and there is no constant division by zero. */
  ghost predicate Tidy(ss: seq<Stmt>) {
    AluK(Div, 0) !in ss && forall live: set<Atom> | X_ATOM !in live :: NoLocalUse(ss, live)
  }

  lemma NoLocalConcat(ss: seq<Stmt>, tt: seq<Stmt>, live: set<Atom>)
    requires Tidy(ss) && NoLocalUse(tt, live) && X_ATOM !in LiveIn(tt, live)
    ensures NoLocalUse(ss + tt, live)
  {
    var uu := ss + tt;
    assert NoLocalUse(ss, LiveIn(tt, live));
    forall i | 0 <= i < |uu| && uu[i].LdInd? ensures X_ATOM !in LiveIn(uu[i + 1..], live) {
      if i < |ss| { UseInFirst(ss, tt, live, i); } else { UseInSecond(ss, tt, live, i); }
    }
  }

  lemma UseInFirst(ss: seq<Stmt>, tt: seq<Stmt>, live: set<Atom>, i: nat)
    requires i < |ss| && ss[i].LdInd? && NoLocalUse(ss, LiveIn(tt, live))
    ensures X_ATOM !in LiveIn((ss + tt)[i + 1..], live)
  {
    assert (ss + tt)[i + 1..] == ss[i + 1..] + tt;
    LiveInConcat(ss[i + 1..], tt, live);
  }

  lemma UseInSecond(ss: seq<Stmt>, tt: seq<Stmt>, live: set<Atom>, i: nat)
    requires |ss| <= i < |ss + tt| && (ss + tt)[i].LdInd? && NoLocalUse(tt, live)
    ensures X_ATOM !in LiveIn((ss + tt)[i + 1..], live)
  {
    assert (ss + tt)[i] == tt[i - |ss|] && (ss + tt)[i + 1..] == tt[i - |ss| + 1..];
  }

  lemma NoLocalCons(s: Stmt, rest: seq<Stmt>, live: set<Atom>)
    requires NoLocalUse(rest, live) && (s.LdInd? ==> X_ATOM !in LiveIn(rest, live))
    ensures NoLocalUse([s] + rest, live)
  {
    var uu := [s] + rest;
    forall i | 0 <= i < |uu| && uu[i].LdInd? ensures X_ATOM !in LiveIn(uu[i + 1..], live) {
      assert uu[i + 1..] == rest[i..];
      if i > 0 { assert uu[i] == rest[i - 1]; } else { assert rest[0..] == rest; }
    }
  }

  lemma TidyThen(ss: seq<Stmt>, tail: seq<Stmt>)
    requires Tidy(ss) && Tidy(tail) && forall live: set<Atom> | X_ATOM !in live :: X_ATOM !in LiveIn(tail, live)
    ensures Tidy(ss + tail)
  {
    forall live: set<Atom> | X_ATOM !in live ensures NoLocalUse(ss + tail, live) { NoLocalConcat(ss, tail, live); }
  }

  lemma LiveInCons(s: Stmt, rest: seq<Stmt>, live: set<Atom>)
    ensures LiveIn([s] + rest, live) == AtomUse(s) + (LiveIn(rest, live) - Defs(s))
  {
    assert ([s] + rest)[1..] == rest;
  }

  /** A list that stores into `reg`, after reading at most the results of `s0` and `s1`. */
  lemma NoInputsThen(s0: seq<Stmt>, r0: Reg, tail: seq<Stmt>, reg: Reg)
    requires NoInputs(s0, r0) && forall live: set<Atom> :: LiveIn(tail, live) <= live - {reg} + {r0}
    ensures NoInputs(s0 + tail, reg)
  {
    forall live: set<Atom> ensures LiveIn(s0 + tail, live) <= live - {reg} {
      LiveInConcat(s0, tail, live);
      assert LiveIn(tail, live) <= live - {reg} + {r0};
      assert LiveIn(s0, LiveIn(tail, live)) <= LiveIn(tail, live) - {r0};
    }
  }

  /** The outcome of compiling `e` in a register table. */
  ghost predicate ReadyIfAny(a: Option<Arth>, e: ArithExpr, busy: RegTable, busy': RegTable) {
    && (a.Some? <==> SizesOk(e) && Busy(busy) + Need(e) <= 16)
    && (a.Some? ==> Ready(a.value, e, busy, busy'))
  }

  /** The check attached to an expression. An arithmetic operator keeps only its left operand's. */
  function Guard(e: ArithExpr): Option<Cond> {
    match e
    case Imm(_) => None
    case Len => None
    case Minus(a) => Guard(a)
    case Bin(_, a, _) => Guard(a)
    case Access(h, _, a) => LoadGuard(h, Guard(a))
  }

  /** The check after an access whose index carries the check `g`. */
  function LoadGuard(h: Header, g: Option<Cond>): Option<Cond> {
    match h
    case Link(_) => g
    case Net(_, proto) => Some(Behind(g, proto))
    case Tran(_, ip, proto, frag) => Some(Conj(ip, Behind(g, Conj(proto, frag))))
  }

  function Behind(g: Option<Cond>, c: Cond): Cond { if g.None? then c else Conj(g.value, c) }

  lemma ImmComputes(k: Word, reg: Reg, busy: RegTable)
    requires !busy[reg]
    ensures Computes([LdImm(k), St(reg)], reg, Imm(k), busy) && Guard(Imm(k)) == None
  {
    forall p, r: Regs ensures Delivers(ExecAll([LdImm(k), St(reg)], p, r), Value(Imm(k), p), r, reg, busy) {
      assert [LdImm(k), St(reg)] == [LdImm(k)] + ([St(reg)] + []);
      ExecCons(LdImm(k), [St(reg)] + [], p, r);
      ExecCons(St(reg), [], p, r[A_ATOM := k]);
    }
  }

  lemma LenComputes(reg: Reg, busy: RegTable)
    requires !busy[reg]
    ensures Computes([LdLen, St(reg)], reg, Len, busy) && Guard(Len) == None
  {
    forall p, r: Regs ensures Delivers(ExecAll([LdLen, St(reg)], p, r), Value(Len, p), r, reg, busy) {
      assert [LdLen, St(reg)] == [LdLen] + ([St(reg)] + []);
      ExecCons(LdLen, [St(reg)] + [], p, r);
      ExecCons(St(reg), [], p, r[A_ATOM := p.wirelen]);
    }
  }

  function MinusTail(reg: Reg): seq<Stmt> { [LdMem(reg)] + ([Neg] + ([St(reg)] + [])) }

  lemma MinusComputes(a: ArithExpr, ss: seq<Stmt>, reg: Reg, busy: RegTable)
    requires !busy[reg] && Computes(ss, reg, a, busy)
    ensures Computes(ss + MinusTail(reg), reg, Minus(a), busy)
  {
    forall p, r ensures Delivers(ExecAll(ss + MinusTail(reg), p, r), Value(Minus(a), p), r, reg, busy) {
      ExecAppend(ss, MinusTail(reg), p, r);
      assert Delivers(ExecAll(ss, p, r), Value(a, p), r, reg, busy);
      if Value(a, p).Some? {
        var q := ExecAll(ss, p, r).value;
        var q1 := q[A_ATOM := q[reg]];
        ExecCons(LdMem(reg), [Neg] + ([St(reg)] + []), p, q);
        ExecCons(Neg, [St(reg)] + [], p, q1);
        ExecCons(St(reg), [], p, q1[A_ATOM := Negate(q1[A_ATOM])]);
      }
    }
  }

  function BinTail(op: AluOp, r0: Reg, r1: Reg, reg: Reg): seq<Stmt> {
    [LdxMem(r1)] + ([LdMem(r0)] + ([AluX(op)] + ([St(reg)] + [])))
  }

  /** The left value survives the right operand, whose code leaves busy registers alone. */
  lemma BinComputes(op: AluOp, a: ArithExpr, b: ArithExpr, s0: seq<Stmt>, s1: seq<Stmt>, r0: Reg, r1: Reg, reg: Reg,
                    busy: RegTable)
    requires !busy[r0] && Computes(s0, r0, a, busy)
    requires !busy[r1] && r1 != r0 && Computes(s1, r1, b, busy[r0 := true])
    requires !busy[reg]
    ensures Computes(s0 + s1 + BinTail(op, r0, r1, reg), reg, Bin(op, a, b), busy)
  {
    forall p, r
      ensures Delivers(ExecAll(s0 + s1 + BinTail(op, r0, r1, reg), p, r), Value(Bin(op, a, b), p), r, reg, busy)
    {
      ExecAppend(s0 + s1, BinTail(op, r0, r1, reg), p, r);
      ExecAppend(s0, s1, p, r);
      assert Delivers(ExecAll(s0, p, r), Value(a, p), r, r0, busy);
      if Value(a, p).Some? {
        var q0 := ExecAll(s0, p, r).value;
        assert Delivers(ExecAll(s1, p, q0), Value(b, p), q0, r1, busy[r0 := true]);
        if Value(b, p).Some? {
          BinTailRun(op, r0, r1, reg, p, ExecAll(s1, p, q0).value);
        }
      }
    }
  }

  lemma BinTailRun(op: AluOp, r0: Reg, r1: Reg, reg: Reg, p: Packet, q: Regs)
    ensures Stores(q, ExecAll(BinTail(op, r0, r1, reg), p, q), Alu(op, q[r0], q[r1]), reg)
  {
    var q1 := q[X_ATOM := q[r1]];
    var q2 := q1[A_ATOM := q1[r0]];
    ExecCons(LdxMem(r1), [LdMem(r0)] + ([AluX(op)] + ([St(reg)] + [])), p, q);
    ExecCons(LdMem(r0), [AluX(op)] + ([St(reg)] + []), p, q1);
    ExecCons(AluX(op), [St(reg)] + [], p, q2);
    var v := Alu(op, q[r0], q[r1]);
    if v.Some? { ExecCons(St(reg), [], p, q2[A_ATOM := v.value]); }
  }

  /** The code gen_load appends to find and load the item. */
  function AccessTail(h: Header, sz: Size, r0: Reg, reg: Reg): seq<Stmt> {
    if h.Tran? then [LdxMsh(h.off)] + SumTail(sz, h.off, r0, reg)
    else [LdxMem(r0)] + ([LdInd(sz, h.off)] + ([St(reg)] + []))
  }

  lemma WrapTwice(a: int, b: int)
    ensures Wrap(Wrap(a) + b) == Wrap(a + b)
  {
  }

  /** A run of statements that ends by storing the loaded item, or faults with the load. */
  ghost predicate Stores(q: Regs, q': Option<Regs>, v: Option<Word>, reg: Reg) {
    && (q'.None? <==> v.None?)
    && (q'.Some? ==> q'.value[reg] == v.value && forall m: Reg | m != reg :: q'.value[m] == q[m])
  }

  lemma PlainTailRun(h: Header, sz: Size, r0: Reg, reg: Reg, p: Packet, q: Regs)
    requires !h.Tran?
    ensures Stores(q, ExecAll(AccessTail(h, sz, r0, reg), p, q), LoadFrom(h, sz, p, q[r0]), reg)
  {
    ExecCons(LdxMem(r0), [LdInd(sz, h.off)] + ([St(reg)] + []), p, q);
    var q1 := q[X_ATOM := q[r0]];
    LoadTailRun(sz, h.off, reg, p, q1);
    assert Wrap(q1[X_ATOM] + h.off) == Wrap(HeaderStart(h, p).value + q[r0]);
  }

  lemma TranTailRun(h: Header, sz: Size, r0: Reg, reg: Reg, p: Packet, q: Regs)
    requires h.Tran? && LoadMsh(p, h.off).Some?
    ensures Stores(q, ExecAll(AccessTail(h, sz, r0, reg), p, q), LoadFrom(h, sz, p, q[r0]), reg)
  {
    ExecCons(LdxMsh(h.off), SumTail(sz, h.off, r0, reg), p, q);
    SumTailRun(sz, h.off, r0, reg, p, q[X_ATOM := LoadMsh(p, h.off).value]);
  }

  lemma TranTailFaults(h: Header, sz: Size, r0: Reg, reg: Reg, p: Packet, q: Regs)
    requires h.Tran? && LoadMsh(p, h.off).None?
    ensures ExecAll(AccessTail(h, sz, r0, reg), p, q).None?
  {
    ExecCons(LdxMsh(h.off), SumTail(sz, h.off, r0, reg), p, q);
  }

  /** After the index is in `r0`: the item is loaded from where the header starts plus the index. */
  lemma AccessTailRun(h: Header, sz: Size, r0: Reg, reg: Reg, p: Packet, q: Regs)
    ensures HeaderStart(h, p).None? ==> ExecAll(AccessTail(h, sz, r0, reg), p, q).None?
    ensures HeaderStart(h, p).Some? ==>
              Stores(q, ExecAll(AccessTail(h, sz, r0, reg), p, q), LoadFrom(h, sz, p, q[r0]), reg)
  {
    if !h.Tran? {
      PlainTailRun(h, sz, r0, reg, p, q);
    } else if LoadMsh(p, h.off).Some? {
      TranTailRun(h, sz, r0, reg, p, q);
    } else {
      TranTailFaults(h, sz, r0, reg, p, q);
    }
  }

  /** Add the index to X and load from there. */
  function SumTail(sz: Size, off: Word, r0: Reg, reg: Reg): seq<Stmt> {
    [LdMem(r0)] + ([AluX(Add)] + ([Tax] + ([LdInd(sz, off)] + ([St(reg)] + []))))
  }

  lemma SumTailRun(sz: Size, off: Word, r0: Reg, reg: Reg, p: Packet, q: Regs)
    ensures Stores(q, ExecAll(SumTail(sz, off, r0, reg), p, q), Load(p, sz, Wrap(off + q[X_ATOM] + q[r0])), reg)
  {
    var rest := [LdInd(sz, off)] + ([St(reg)] + []);
    var q1 := q[A_ATOM := q[r0]];
    var q2 := q1[A_ATOM := Wrap(q1[A_ATOM] + q1[X_ATOM])];
    ExecCons(LdMem(r0), [AluX(Add)] + ([Tax] + rest), p, q);
    ExecCons(AluX(Add), [Tax] + rest, p, q1);
    ExecCons(Tax, rest, p, q2);
    LoadTailRun(sz, off, reg, p, q2[X_ATOM := q2[A_ATOM]]);
    var i: int, x: int := q[r0], q[X_ATOM];
    WrapTwice(i + x, off);
  }

  lemma LoadTailRun(sz: Size, off: Word, reg: Reg, p: Packet, q: Regs)
    ensures Stores(q, ExecAll([LdInd(sz, off)] + ([St(reg)] + []), p, q), Load(p, sz, Wrap(q[X_ATOM] + off)), reg)
  {
    var v := Load(p, sz, Wrap(q[X_ATOM] + off));
    ExecCons(LdInd(sz, off), [St(reg)] + [], p, q);
    if v.Some? { ExecCons(St(reg), [], p, q[A_ATOM := v.value]); }
  }

  lemma AccessComputes(h: Header, size: int, a: ArithExpr, ss: seq<Stmt>, r0: Reg, reg: Reg, busy: RegTable)
    requires !busy[r0] && Computes(ss, r0, a, busy) && !busy[reg] && SizeOf(size).Some?
    ensures Computes(ss + AccessTail(h, SizeOf(size).value, r0, reg), reg, Access(h, size, a), busy)
  {
    var tail := AccessTail(h, SizeOf(size).value, r0, reg);
    forall p, r ensures Delivers(ExecAll(ss + tail, p, r), Value(Access(h, size, a), p), r, reg, busy) {
      ExecAppend(ss, tail, p, r);
      assert Delivers(ExecAll(ss, p, r), Value(a, p), r, r0, busy);
      if Value(a, p).Some? { AccessTailRun(h, SizeOf(size).value, r0, reg, p, ExecAll(ss, p, r).value); }
    }
  }

  // Nothing is read before it is computed

  lemma PairNoInputs(s: Stmt, reg: Reg)
    requires AtomUse(s) == {} && AtomDef(s) == Some(A_ATOM)
    ensures NoInputs([s, St(reg)], reg) && (!s.LdInd? ==> Tidy([s, St(reg)]))
  {
    forall live: set<Atom> ensures LiveIn([s, St(reg)], live) <= live - {reg} {
      assert [s, St(reg)] == [s] + ([St(reg)] + []);
      LiveInCons(s, [St(reg)] + [], live);
      LiveInCons(St(reg), [], live);
    }
  }

  lemma MinusNoInputs(ss: seq<Stmt>, reg: Reg)
    requires NoInputs(ss, reg)
    requires Tidy(ss)
    ensures NoInputs(ss + MinusTail(reg), reg) && Tidy(ss + MinusTail(reg))
  {
    forall live: set<Atom> ensures LiveIn(MinusTail(reg), live) <= live - {reg} + {reg} {
      LiveInCons(LdMem(reg), [Neg] + ([St(reg)] + []), live);
      LiveInCons(Neg, [St(reg)] + [], live);
      LiveInCons(St(reg), [], live);
    }
    NoInputsThen(ss, reg, MinusTail(reg), reg);
    assert forall i | 0 <= i < |MinusTail(reg)| :: !MinusTail(reg)[i].LdInd?;
    TidyThen(ss, MinusTail(reg));
  }

  lemma BinNoInputs(op: AluOp, s0: seq<Stmt>, s1: seq<Stmt>, r0: Reg, r1: Reg, reg: Reg)
    requires NoInputs(s0, r0) && NoInputs(s1, r1) && Tidy(s0) && Tidy(s1)
    ensures NoInputs(s0 + s1 + BinTail(op, r0, r1, reg), reg) && Tidy(s0 + s1 + BinTail(op, r0, r1, reg))
  {
    var tail := BinTail(op, r0, r1, reg);
    forall live: set<Atom> ensures LiveIn(s1 + tail, live) <= live - {reg} + {r0} {
      LiveInConcat(s1, tail, live);
      BinTailLive(op, r0, r1, reg, live);
      assert LiveIn(s1, LiveIn(tail, live)) <= LiveIn(tail, live) - {r1};
    }
    NoInputsThen(s0, r0, s1 + tail, reg);
    assert s0 + s1 + tail == s0 + (s1 + tail);
    BinTidy(op, s0, s1, r0, r1, reg);
  }

  lemma BinTidy(op: AluOp, s0: seq<Stmt>, s1: seq<Stmt>, r0: Reg, r1: Reg, reg: Reg)
    requires NoInputs(s1, r1) && Tidy(s0) && Tidy(s1)
    ensures Tidy(s0 + s1 + BinTail(op, r0, r1, reg))
  {
    var tail := BinTail(op, r0, r1, reg);
    forall live: set<Atom> | X_ATOM !in live ensures NoLocalUse(s0 + s1 + tail, live) {
      BinTailLive(op, r0, r1, reg, live);
      assert forall i | 0 <= i < |tail| :: !tail[i].LdInd?;
      NoLocalConcat(s1, tail, live);
      LiveInConcat(s1, tail, live);
      NoLocalConcat(s0, s1 + tail, live);
      assert s0 + s1 + tail == s0 + (s1 + tail);
    }
  }

  lemma BinTailLive(op: AluOp, r0: Reg, r1: Reg, reg: Reg, live: set<Atom>)
    ensures LiveIn(BinTail(op, r0, r1, reg), live) <= live - {reg, X_ATOM} + {r0, r1}
  {
    LiveInCons(LdxMem(r1), [LdMem(r0)] + ([AluX(op)] + ([St(reg)] + [])), live);
    LiveInCons(LdMem(r0), [AluX(op)] + ([St(reg)] + []), live);
    LiveInCons(AluX(op), [St(reg)] + [], live);
    LiveInCons(St(reg), [], live);
  }

  lemma AccessNoInputs(h: Header, sz: Size, ss: seq<Stmt>, r0: Reg, reg: Reg)
    requires NoInputs(ss, r0) && Tidy(ss)
    ensures NoInputs(ss + AccessTail(h, sz, r0, reg), reg) && Tidy(ss + AccessTail(h, sz, r0, reg))
  {
    forall live: set<Atom> ensures LiveIn(AccessTail(h, sz, r0, reg), live) <= live - {reg, X_ATOM} + {r0} {
      if h.Tran? { SumTailLive(h, sz, r0, reg, live); } else { PlainTailLive(h, sz, r0, reg, live); }
    }
    NoInputsThen(ss, r0, AccessTail(h, sz, r0, reg), reg);
    AccessTidy(h, sz, r0, reg);
    TidyThen(ss, AccessTail(h, sz, r0, reg));
  }

  lemma LoadTailLive(sz: Size, off: Word, reg: Reg, live: set<Atom>)
    ensures LiveIn([LdInd(sz, off)] + ([St(reg)] + []), live) == {X_ATOM} + (live - {reg, A_ATOM})
  {
    LiveInCons(LdInd(sz, off), [St(reg)] + [], live);
    LiveInCons(St(reg), [], live);
  }

  lemma PlainTailLive(h: Header, sz: Size, r0: Reg, reg: Reg, live: set<Atom>)
    requires !h.Tran?
    ensures LiveIn(AccessTail(h, sz, r0, reg), live) <= live - {reg, X_ATOM} + {r0}
  {
    LoadTailLive(sz, h.off, reg, live);
    LiveInCons(LdxMem(r0), [LdInd(sz, h.off)] + ([St(reg)] + []), live);
  }

  lemma SumTailLive(h: Header, sz: Size, r0: Reg, reg: Reg, live: set<Atom>)
    requires h.Tran?
    ensures LiveIn(AccessTail(h, sz, r0, reg), live) <= live - {reg, X_ATOM} + {r0}
  {
    var rest := [LdInd(sz, h.off)] + ([St(reg)] + []);
    LoadTailLive(sz, h.off, reg, live);
    LiveInCons(Tax, rest, live);
    LiveInCons(AluX(Add), [Tax] + rest, live);
    LiveInCons(LdMem(r0), [AluX(Add)] + ([Tax] + rest), live);
    LiveInCons(LdxMsh(h.off), SumTail(sz, h.off, r0, reg), live);
  }

  lemma AccessTidy(h: Header, sz: Size, r0: Reg, reg: Reg)
    ensures Tidy(AccessTail(h, sz, r0, reg))
  {
    var rest := [LdInd(sz, h.off)] + ([St(reg)] + []);
    forall live: set<Atom> | X_ATOM !in live ensures NoLocalUse(AccessTail(h, sz, r0, reg), live) {
      NoLocalCons(St(reg), [], live);
      LiveInCons(St(reg), [], live);
      NoLocalCons(LdInd(sz, h.off), [St(reg)] + [], live);
      if h.Tran? {
        NoLocalCons(Tax, rest, live);
        NoLocalCons(AluX(Add), [Tax] + rest, live);
        NoLocalCons(LdMem(r0), [AluX(Add)] + ([Tax] + rest), live);
        NoLocalCons(LdxMsh(h.off), SumTail(sz, h.off, r0, reg), live);
      } else {
        NoLocalCons(LdxMem(r0), rest, live);
      }
    }
  }
}
