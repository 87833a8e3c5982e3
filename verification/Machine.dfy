/** The BPF virtual machine: 32-bit words, statements, tests and their meaning. */
module Machine {
  function Max(a: nat, b: nat): nat { if a >= b then a else b }

  ghost predicate NoDup<T>(s: seq<T>) {
    forall i, j | 0 <= i < j < |s| :: s[i] != s[j]
  }

  /** An unsigned 32-bit machine word. */
  type Word = x: int | 0 <= x < 0x1_0000_0000

  type Byte = x: int | 0 <= x < 256

  /** Index of a scratch memory word. */
  type Reg = k: int | 0 <= k < 16

  /** Everything a statement can read or write: scratch words, then A, then X. */
  const A_ATOM := 16
  const X_ATOM := 17
  type Atom = a: int | 0 <= a < 18

  /** A register file, indexed by atom. */
  type Regs = s: seq<Word> | |s| == 18 witness seq(18, _ => 0)

  datatype Option<+T> = None | Some(value: T)

  datatype Size = W | H | B
  datatype AluOp = Add | Sub | Mul | Div | Or | And | Lsh | Rsh
  datatype JmpOp = Jeq | Jgt | Jge | Jset

  /** A side-effect statement. `Nop` is a deleted statement. */
  datatype Stmt =
    | Nop
    | LdAbs(size: Size, k: Word)
    | LdInd(size: Size, k: Word)
    | LdLen
    | LdImm(k: Word)
    | LdMem(m: Reg)
    | LdxImm(k: Word)
    | LdxMem(m: Reg)
    | LdxMsh(k: Word)
    | St(m: Reg)
    | Stx(m: Reg)
    | AluK(op: AluOp, k: Word)
    | AluX(op: AluOp)
    | Neg
    | Tax
    | Txa

  /** The comparison that ends a block. */
  datatype Test = JmpK(op: JmpOp, k: Word) | JmpX(op: JmpOp)

  /** The captured bytes and the length of the packet on the wire. */
  datatype Packet = Packet(bytes: seq<Byte>, wirelen: Word)

  // Arithmetic

  function Wrap(x: int): Word { x % 0x1_0000_0000 }

  function Negate(x: int): Word { Wrap(-x) }

  /** Bitwise and. */
  function BitAnd(a: nat, b: nat): (r: nat)
    ensures r <= a && r <= b
  {
    if a == 0 || b == 0 then 0
    else 2 * BitAnd(a / 2, b / 2) + if a % 2 == 1 && b % 2 == 1 then 1 else 0
  }

  /** Bitwise or. */
  function BitOr(a: nat, b: nat): nat {
    if a == 0 then b else if b == 0 then a
    else 2 * BitOr(a / 2, b / 2) + if a % 2 == 1 || b % 2 == 1 then 1 else 0
  }

  function Pow2(n: nat): (r: nat)
    ensures r >= 1
  {
    if n == 0 then 1 else 2 * Pow2(n - 1)
  }

  lemma {:induction false} OrBelow(a: nat, b: nat, n: nat)
    requires a < Pow2(n) && b < Pow2(n)
    ensures BitOr(a, b) < Pow2(n)
    decreases n
  {
    if a != 0 && b != 0 { OrBelow(a / 2, b / 2, n - 1); }
  }

  function OrWord(a: Word, b: Word): Word {
    OrFits(a, b);
    BitOr(a, b)
  }

  lemma OrFits(a: Word, b: Word)
    ensures BitOr(a, b) < 0x1_0000_0000
  {
    assert Pow2(8) == 0x100;
    assert Pow2(16) == 0x1_0000;
    assert Pow2(24) == 0x100_0000;
    assert Pow2(32) == 0x1_0000_0000;
    OrBelow(a, b, 32);
  }

  function ShiftLeft(a: Word, n: nat): Word
    decreases n
  {
    if n == 0 then a else ShiftLeft(Wrap(2 * a), n - 1)
  }

  function ShiftRight(a: Word, n: nat): Word
    decreases n
  {
    if n == 0 then a else ShiftRight(a / 2, n - 1)
  }

  /** The quotient rounded down, by repeated subtraction. */
  function Quotient(a: Word, b: Word): (q: Word)
    requires b != 0
    ensures q <= a
    decreases a
  {
    if a < b then 0 else 1 + Quotient(a - b, b)
  }

  /** Arithmetic; `None` is a division by zero, which ends the filter. */
  function Alu(op: AluOp, a: Word, b: Word): Option<Word> {
    match op
    case Add => Some(Wrap(a + b))
    case Sub => Some(Wrap(a - b))
    case Mul => Some(Wrap(a * b))
    case Div => if b == 0 then None else Some(Quotient(a, b))
    case Or => Some(OrWord(a, b))
    case And => Some(BitAnd(a, b))
    case Lsh => Some(ShiftLeft(a, b))
    case Rsh => Some(ShiftRight(a, b))
  }

  // Packet access

  function Width(size: Size): nat { match size case W => 4 case H => 2 case B => 1 }

  function Octet(s: seq<Byte>, i: nat): (v: int)
    requires i < |s|
    ensures 0 <= v < 256
  {
    s[i]
  }

  function ByteAt(p: Packet, i: nat): int
    requires i < |p.bytes|
  {
    Octet(p.bytes, i)
  }

  /** Big-endian load; `None` is a load outside the captured bytes. */
  function Load(p: Packet, size: Size, at: Word): Option<Word> {
    if at + Width(size) > |p.bytes| then None
    else match size
      case B => Some(ByteAt(p, at))
      case H => Some(ByteAt(p, at) * 0x100 + ByteAt(p, at + 1))
      case W => Some(ByteAt(p, at) * 0x100_0000 + ByteAt(p, at + 1) * 0x1_0000
                     + ByteAt(p, at + 2) * 0x100 + ByteAt(p, at + 3))
  }

  /** The 4*([k]&0xf) addressing mode: an IPv4 header length. */
  function LoadMsh(p: Packet, at: Word): Option<Word> {
    if at >= |p.bytes| then None else Some(ByteAt(p, at) % 16 * 4)
  }

  // Statements

  function Put(r: Regs, a: Atom, v: Option<Word>): Option<Regs> {
    if v.None? then None else Some(r[a := v.value])
  }

  /** One statement; `None` means the filter stops and rejects. */
  function Exec(s: Stmt, p: Packet, r: Regs): Option<Regs> {
    match s
    case Nop => Some(r)
    case LdAbs(size, k) => Put(r, A_ATOM, Load(p, size, k))
    case LdInd(size, k) => Put(r, A_ATOM, Load(p, size, Wrap(r[X_ATOM] + k)))
    case LdLen => Put(r, A_ATOM, Some(p.wirelen))
    case LdImm(k) => Put(r, A_ATOM, Some(k))
    case LdMem(m) => Put(r, A_ATOM, Some(r[m]))
    case LdxImm(k) => Put(r, X_ATOM, Some(k))
    case LdxMem(m) => Put(r, X_ATOM, Some(r[m]))
    case LdxMsh(k) => Put(r, X_ATOM, LoadMsh(p, k))
    case St(m) => Put(r, m, Some(r[A_ATOM]))
    case Stx(m) => Put(r, m, Some(r[X_ATOM]))
    case AluK(op, k) => Put(r, A_ATOM, Alu(op, r[A_ATOM], k))
    case AluX(op) => Put(r, A_ATOM, Alu(op, r[A_ATOM], r[X_ATOM]))
    case Neg => Put(r, A_ATOM, Some(Negate(r[A_ATOM])))
    case Tax => Put(r, X_ATOM, Some(r[A_ATOM]))
    case Txa => Put(r, A_ATOM, Some(r[X_ATOM]))
  }

  function ExecAll(ss: seq<Stmt>, p: Packet, r: Regs): Option<Regs> {
    if ss == [] then Some(r)
    else
      var r1 := Exec(ss[0], p, r);
      if r1.None? then None else ExecAll(ss[1..], p, r1.value)
  }

  lemma {:induction false} ExecAppend(ss: seq<Stmt>, tt: seq<Stmt>, p: Packet, r: Regs)
    ensures ExecAll(ss + tt, p, r) ==
            if ExecAll(ss, p, r).None? then None else ExecAll(tt, p, ExecAll(ss, p, r).value)
  {
    if ss == [] {
      assert ss + tt == tt;
    } else {
      assert (ss + tt)[1..] == ss[1..] + tt;
      var r1 := Exec(ss[0], p, r);
      if r1.Some? { ExecAppend(ss[1..], tt, p, r1.value); }
    }
  }

  lemma ExecOne(s: Stmt, p: Packet, r: Regs)
    ensures ExecAll([s], p, r) == Exec(s, p, r)
  {
  }

  lemma ExecCons(s: Stmt, rest: seq<Stmt>, p: Packet, r: Regs)
    ensures ExecAll([s] + rest, p, r) == if Exec(s, p, r).None? then None else ExecAll(rest, p, Exec(s, p, r).value)
  {
    assert ([s] + rest)[1..] == rest;
  }

  function ZeroRegs(): Regs { seq(18, _ => 0) }

  /** The statements that are emitted: all but the deleted ones. */
  function Code(ss: seq<Stmt>): seq<Stmt> {
    if ss == [] then [] else (if ss[0].Nop? then [] else [ss[0]]) + Code(ss[1..])
  }

  lemma {:induction false} CodeAppend(ss: seq<Stmt>, s: Stmt)
    ensures Code(ss + [s]) == Code(ss) + if s.Nop? then [] else [s]
  {
    if ss == [] {
      assert ss + [s] == [s] && [s][1..] == [];
    } else {
      assert (ss + [s])[1..] == ss[1..] + [s];
      CodeAppend(ss[1..], s);
    }
  }

  lemma {:induction false} CodePrefix(ss: seq<Stmt>, k: nat)
    requires k <= |ss|
    ensures |Code(ss[..k])| <= |Code(ss)|
  {
    if k > 0 {
      assert ss[..k][1..] == ss[1..][..k - 1];
      CodePrefix(ss[1..], k - 1);
    }
  }

  /** The number of statements that are not deleted (slength). */
  function SLength(ss: seq<Stmt>): (n: nat)
    ensures n == |Code(ss)|
  {
    if ss == [] then 0 else (if ss[0].Nop? then 0 else 1) + SLength(ss[1..])
  }

  // Tests

  function Compare(op: JmpOp, a: Word, b: Word): bool {
    match op
    case Jeq => a == b
    case Jgt => a > b
    case Jge => a >= b
    case Jset => BitAnd(a, b) != 0
  }

  function Holds(t: Test, r: Regs): bool {
    match t
    case JmpK(op, k) => Compare(op, r[A_ATOM], k)
    case JmpX(op) => Compare(op, r[A_ATOM], r[X_ATOM])
  }

  /** What a filter run gives. A fault makes the filter return 0. */
  datatype Outcome = Return(v: Word) | Fault {
    function Verdict(): Word { if Return? then v else 0 }
  }
}
