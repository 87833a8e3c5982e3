/** The hashed table of value numbers (init_val, F). */
module ValueTable {
  import opened Machine

  /** A value: an operation on constants and on earlier value numbers. */
  datatype Expr =
    | VAbs(size: Size, k: Word)
    | VInd(size: Size, k: Word, x: nat)
    | VLen
    | VImm(k: Word)
    | VMsh(k: Word)
    | VNeg(a: nat)
    | VAluK(op: AluOp, a: nat, c: nat)
    | VAluX(op: AluOp, a: nat, x: nat)

  // Opcode encodings

  const LD := 0x00
  const LDX := 0x01
  const ALU := 0x04
  const IMM := 0x00
  const ABS := 0x20
  const IND := 0x40
  const LEN := 0x80
  const MSH := 0xa0
  const SRC_X := 0x08
  const NEG := 0x80

  function SizeBits(s: Size): nat { match s case W => 0x00 case H => 0x08 case B => 0x10 }

  function OpBits(op: AluOp): nat {
    match op
    case Add => 0x00 case Sub => 0x10 case Mul => 0x20 case Div => 0x30
    case Or => 0x40 case And => 0x50 case Lsh => 0x60 case Rsh => 0x70
  }

  /** The addressing mode and the class of an opcode. */
  function Mode(code: nat): nat { (code / 0x20 % 8) * 0x20 }
  function Class(code: nat): nat { code % 8 }

  /** A table key: an opcode and two operands. */
  datatype Key = Key(code: nat, v0: nat, v1: nat)

  function KeyOf(e: Expr): Key {
    match e
    case VAbs(size, k) => Key(LD + ABS + SizeBits(size), k, 0)
    case VInd(size, k, x) => Key(LD + IND + SizeBits(size), k, x)
    case VLen => Key(LD + LEN, 0, 0)
    case VImm(k) => Key(LD + IMM, k, 0)
    case VMsh(k) => Key(LDX + MSH + SizeBits(B), k, 0)
    case VNeg(a) => Key(ALU + NEG, a, 0)
    case VAluK(op, a, c) => Key(ALU + OpBits(op), a, c)
    case VAluX(op, a, x) => Key(ALU + SRC_X + OpBits(op), a, x)
  }

  /** Distinct values have distinct keys, and exactly the load-immediate keys look constant. */
  lemma KeyInjective(e: Expr, f: Expr)
    ensures KeyOf(e) == KeyOf(f) <==> e == f
    ensures Mode(KeyOf(e).code) == IMM && Class(KeyOf(e).code) in {LD, LDX} <==> e.VImm?
  {
  }

  function BitXor(a: nat, b: nat): nat {
    if a == 0 then b else if b == 0 then a
    else 2 * BitXor(a / 2, b / 2) + if a % 2 != b % 2 then 1 else 0
  }

  const MODULUS := 213

  function Hash(k: Key): (h: nat)
    ensures h < MODULUS
  {
    BitXor(BitXor(k.code, Wrap(k.v0 * 16)), Wrap(k.v1 * 256)) % MODULUS
  }

  // What a number denotes

  /** A value refers only to numbers up to `n`. */
  predicate RefersUpTo(e: Expr, n: nat) {
    match e
    case VInd(_, _, x) => x <= n
    case VNeg(a) => a <= n
    case VAluK(_, a, c) => a <= n && c <= n
    case VAluX(_, a, x) => a <= n && x <= n
    case _ => true
  }

  /** Values refer only to numbers given out before them. */
  ghost predicate WellFounded(es: seq<Expr>) {
    forall i | 0 <= i < |es| :: RefersUpTo(es[i], i)
  }

  /** The value of number `v` on packet `p`. Number 0 is the unknown value. */
  ghost function Den(es: seq<Expr>, v: nat, p: Packet): Option<Word>
    requires WellFounded(es)
    decreases v
  {
    if v == 0 || v > |es| then None
    else
      assert RefersUpTo(es[v - 1], v - 1);
      match es[v - 1]
      case VAbs(size, k) => Load(p, size, k)
      case VInd(size, k, x) =>
        var dx := Den(es, x, p);
        if dx.None? then None else Load(p, size, Wrap(dx.value + k))
      case VLen => Some(p.wirelen)
      case VImm(k) => Some(k)
      case VMsh(k) => LoadMsh(p, k)
      case VNeg(a) =>
        var da := Den(es, a, p);
        if da.None? then None else Some(Negate(da.value))
      case VAluK(op, a, c) =>
        var da, dc := Den(es, a, p), Den(es, c, p);
        if da.None? || dc.None? then None else Alu(op, da.value, dc.value)
      case VAluX(op, a, x) =>
        var da, dx := Den(es, a, p), Den(es, x, p);
        if da.None? || dx.None? then None else Alu(op, da.value, dx.value)
  }

  /** A number keeps its meaning when the table grows. */
  lemma {:induction false} DenStable(es: seq<Expr>, es': seq<Expr>, v: nat, p: Packet)
    requires WellFounded(es) && WellFounded(es') && es <= es' && v <= |es|
    ensures Den(es, v, p) == Den(es', v, p)
    decreases v
  {
    if v != 0 {
      assert es[v - 1] == es'[v - 1];
      forall w | 0 <= w < v ensures Den(es, w, p) == Den(es', w, p) {
        DenStable(es, es', w, p);
      }
      assert RefersUpTo(es[v - 1], v - 1);
    }
  }

  // The table

  datatype Node = Node(key: Key, val: nat)
  datatype VmapInfo = VmapInfo(isConst: bool, constVal: Word)

  /** The number `v` is in the bucket of its key. */
  ghost predicate Listed(hashtbl: seq<seq<Node>>, exprs: seq<Expr>, v: nat)
    requires |hashtbl| == MODULUS && 1 <= v <= |exprs|
  {
    var key := KeyOf(exprs[v - 1]);
    Node(key, v) in hashtbl[Hash(key)]
  }

  ghost predicate NodeOk(exprs: seq<Expr>, n: Node) {
    1 <= n.val <= |exprs| && n.key == KeyOf(exprs[n.val - 1])
  }

  ghost predicate ConstOk(vmap: seq<VmapInfo>, exprs: seq<Expr>, v: nat)
    requires v < |vmap|
  {
    && (vmap[v].isConst <==> 1 <= v <= |exprs| && exprs[v - 1].VImm?)
    && (vmap[v].isConst ==> exprs[v - 1] == VImm(vmap[v].constVal))
  }

  /** The hash buckets hold exactly the numbered values. */
  ghost predicate TableOk(hashtbl: seq<seq<Node>>, exprs: seq<Expr>) {
    && |hashtbl| == MODULUS
    && (forall v | 1 <= v <= |exprs| :: Listed(hashtbl, exprs, v))
    && (forall h, n | 0 <= h < |hashtbl| && n in hashtbl[h] :: NodeOk(exprs, n))
  }

  lemma TableGrows(hashtbl: seq<seq<Node>>, exprs: seq<Expr>, e: Expr)
    requires TableOk(hashtbl, exprs)
    ensures var h := Hash(KeyOf(e));
            TableOk(hashtbl[h := [Node(KeyOf(e), |exprs| + 1)] + hashtbl[h]], exprs + [e])
  {
    var h := Hash(KeyOf(e));
    var n := Node(KeyOf(e), |exprs| + 1);
    var hashtbl' := hashtbl[h := [n] + hashtbl[h]];
    forall v | 1 <= v <= |exprs + [e]| ensures Listed(hashtbl', exprs + [e], v) {
      if v <= |exprs| { assert Listed(hashtbl, exprs, v); }
    }
    forall i, m | 0 <= i < |hashtbl'| && m in hashtbl'[i] ensures NodeOk(exprs + [e], m) {
      if m != n { assert m in hashtbl[i] && NodeOk(exprs, m); }
    }
  }

  /** Exactly the new number of an immediate load is marked constant. */
  lemma ConstsGrow(vmap: seq<VmapInfo>, vmap': seq<VmapInfo>, exprs: seq<Expr>, e: Expr)
    requires |exprs| + 1 < |vmap| && forall v | 0 <= v < |vmap| :: ConstOk(vmap, exprs, v)
    requires vmap' == if e.VImm? then vmap[|exprs| + 1 := VmapInfo(true, e.k)] else vmap
    ensures forall v | 0 <= v < |vmap'| :: ConstOk(vmap', exprs + [e], v)
  {
    forall v | 0 <= v < |vmap'| ensures ConstOk(vmap', exprs + [e], v) { assert ConstOk(vmap, exprs, v); }
  }

  lemma ListedKey(hashtbl: seq<seq<Node>>, exprs: seq<Expr>, e: Expr)
    requires TableOk(hashtbl, exprs)
    ensures e in exprs ==> exists n :: n in hashtbl[Hash(KeyOf(e))] && n.key == KeyOf(e)
  {
    if e in exprs {
      var i :| 0 <= i < |exprs| && exprs[i] == e;
      assert Listed(hashtbl, exprs, i + 1);
    }
  }

  class Table {
    var hashtbl: seq<seq<Node>>
    var curval: nat
    var vmap: seq<VmapInfo>
    /** `exprs[v - 1]` is the value with number `v`. */
    ghost var exprs: seq<Expr>

    ghost predicate Valid()
      reads this
    {
      && curval == |exprs| && curval < |vmap|
      && TableOk(hashtbl, exprs) && WellFounded(exprs) && NoDup(exprs)
      && (forall v | 0 <= v < |vmap| :: ConstOk(vmap, exprs, v))
    }

    /** An empty table for at most `maxval - 1` numbers. */
    constructor (maxval: nat)
      requires maxval > 0
      ensures Valid() && exprs == [] && |vmap| == maxval
    {
      hashtbl := seq(MODULUS, _ => []);
      curval := 0;
      vmap := seq(maxval, _ => VmapInfo(false, 0));
      exprs := [];
    }

    /** Search a key's bucket. */
    method Find(e: Expr, key: Key) returns (val: nat)
      requires Valid() && key == KeyOf(e)
      ensures val == 0 <==> e !in exprs
      ensures val != 0 ==> val <= |exprs| && exprs[val - 1] == e
    {
      var bucket := hashtbl[Hash(key)];
      for i := 0 to |bucket|
        invariant forall m | 0 <= m < i :: bucket[m].key != key
      {
        if bucket[i].key == key {
          assert bucket[i] in bucket && NodeOk(exprs, bucket[i]);
          KeyInjective(e, exprs[bucket[i].val - 1]);
          return bucket[i].val;
        }
      }
      ListedKey(hashtbl, exprs, e);
      return 0;
    }

    /** The number of a value: the old one if the table has it, else the next one. */
    method F(e: Expr) returns (val: nat)
      requires Valid() && curval + 1 < |vmap|
      requires RefersUpTo(e, curval)
      modifies this
      ensures Valid() && |vmap| == old(|vmap|)
      ensures 1 <= val <= |exprs| && exprs[val - 1] == e
      ensures exprs == if e in old(exprs) then old(exprs) else old(exprs) + [e]
    {
      var key := KeyOf(e);
      val := Find(e, key);
      if val == 0 { val := Insert(e, key); }
    }

    /** Give a value that is not in the table the next number. */
    method Insert(e: Expr, key: Key) returns (val: nat)
      requires Valid() && curval + 1 < |vmap| && RefersUpTo(e, curval) && e !in exprs && key == KeyOf(e)
      modifies this
      ensures Valid() && |vmap| == old(|vmap|) && exprs == old(exprs) + [e] && val == |exprs|
    {
      curval := curval + 1;
      val := curval;
      if Mode(key.code) == IMM && Class(key.code) in {LD, LDX} {
        vmap := vmap[val := VmapInfo(true, key.v0)];
      }
      hashtbl := hashtbl[Hash(key) := [Node(key, val)] + hashtbl[Hash(key)]];
      exprs := exprs + [e];
      KeyInjective(e, e);
      TableGrows(old(hashtbl), old(exprs), e);
      ConstsGrow(old(vmap), vmap, old(exprs), e);
    }

    /** Whether a number stands for a constant, and which. */
    method ConstantOf(v: nat) returns (k: Option<Word>)
      requires Valid() && v <= curval
      ensures k.Some? <==> v != 0 && exprs[v - 1].VImm?
      ensures k.Some? ==> exprs[v - 1] == VImm(k.value)
    {
      assert ConstOk(vmap, exprs, v);
      k := if vmap[v].isConst then Some(vmap[v].constVal) else None;
    }
  }
}
