/** Byte-string comparisons and the 802.11 source-address filter (gen_bcmp, gen_wlanhostop). */
module Wlan {
  import opened Machine
  import opened Graph
  import opened Composition
  import opened Backpatching
  import opened FilterGraph
  import opened Relation

  /** A test of one loaded value. */
  function LoadTest(size: Size, at: Word, op: JmpOp, k: Word): Cond { Check([LdAbs(size, at)], JmpK(op, k)) }

  lemma SaysLoad(size: Size, at: Word, op: JmpOp, k: Word, p: Packet)
    ensures var x := Load(p, size, at);
            Says(LoadTest(size, at, op, k), p, if x.None? then None else Some(Compare(op, x.value, k)))
  {
    var x := Load(p, size, at);
    forall r
      ensures Conclusion(Eval(LoadTest(size, at, op, k), p, r)) == if x.None? then None
              else Some(Compare(op, x.value, k))
    {
      LoadRun(size, at, p, r);
    }
  }

  lemma LoadRun(size: Size, at: Word, p: Packet, r: Regs)
    ensures ExecAll([LdAbs(size, at)], p, r) == Put(r, A_ATOM, Load(p, size, at))
  {
    assert [LdAbs(size, at)][1..] == [];
  }

  // Byte strings

  /** Whether the bytes of `v` from `lo` on are in the packet at `off`; `None` if the packet is too short. */
  function Match(p: Packet, off: nat, v: seq<Byte>, lo: nat): Option<bool> {
    if off + |v| > |p.bytes| then None else Some(forall i | lo <= i < |v| :: p.bytes[off + i] == v[i])
  }

  /** The big-endian value of the `Width(size)` bytes at `i`. */
  function Chunk(v: seq<Byte>, i: nat, size: Size): Word
    requires i + Width(size) <= |v|
  {
    match size
    case B => Octet(v, i)
    case H => Octet(v, i) * 0x100 + Octet(v, i + 1)
    case W => Octet(v, i) * 0x100_0000 + Octet(v, i + 1) * 0x1_0000 + Octet(v, i + 2) * 0x100 + Octet(v, i + 3)
  }

  /** Two chunks are equal exactly when their bytes are. */
  lemma ChunkEqual(p: Packet, off: nat, v: seq<Byte>, i: nat, size: Size)
    requires i + Width(size) <= |v| && off + |v| <= |p.bytes| && off + |v| < 0x1_0000_0000
    ensures Load(p, size, off + i).Some?
    ensures Load(p, size, off + i).value == Chunk(v, i, size) <==>
            forall j | i <= j < i + Width(size) :: p.bytes[off + j] == v[j]
  {
    match size
    case B => OneByte(p, off, v, i);
    case H => TwoBytes(p, off, v, i);
    case W => FourBytes(p, off, v, i);
  }

  lemma OneByte(p: Packet, off: nat, v: seq<Byte>, i: nat)
    requires i + 1 <= |v| && off + |v| <= |p.bytes|
    ensures ByteAt(p, off + i) == Octet(v, i) <==> forall j | i <= j < i + 1 :: p.bytes[off + j] == v[j]
  {
  }

  lemma TwoBytes(p: Packet, off: nat, v: seq<Byte>, i: nat)
    requires i + 2 <= |v| && off + |v| <= |p.bytes|
    ensures ByteAt(p, off + i) * 0x100 + ByteAt(p, off + i + 1) == Octet(v, i) * 0x100 + Octet(v, i + 1) <==>
            forall j | i <= j < i + 2 :: p.bytes[off + j] == v[j]
  {
    assert (forall j | i <= j < i + 2 :: p.bytes[off + j] == v[j]) <==>
           p.bytes[off + i] == v[i] && p.bytes[off + (i + 1)] == v[i + 1];
  }

  lemma FourBytes(p: Packet, off: nat, v: seq<Byte>, i: nat)
    requires i + 4 <= |v| && off + |v| <= |p.bytes|
    ensures var x := ByteAt(p, off + i) * 0x100_0000 + ByteAt(p, off + i + 1) * 0x1_0000
                     + ByteAt(p, off + i + 2) * 0x100 + ByteAt(p, off + i + 3);
            var y := Octet(v, i) * 0x100_0000 + Octet(v, i + 1) * 0x1_0000 + Octet(v, i + 2) * 0x100 + Octet(v, i + 3);
            x == y <==> forall j | i <= j < i + 4 :: p.bytes[off + j] == v[j]
  {
    TwoBytes(p, off, v, i);
    TwoBytes(p, off, v, i + 2);
    assert (forall j | i <= j < i + 4 :: p.bytes[off + j] == v[j]) <==>
           (forall j | i <= j < i + 2 :: p.bytes[off + j] == v[j]) &&
           (forall j | i + 2 <= j < i + 4 :: p.bytes[off + j] == v[j]);
  }

  /** `c` compares the bytes of `v` from `lo` on with the packet at `off`. */
  ghost predicate Compares(c: Cond, off: nat, v: seq<Byte>, lo: nat) {
    forall p :: Says(c, p, Match(p, off, v, lo))
  }

  /** Adding the chunk before `lo` to a comparison. */
  lemma ComparesMore(c: Cond, off: nat, v: seq<Byte>, lo: nat, size: Size)
    requires Width(size) <= lo <= |v| && off + |v| < 0x1_0000_0000
    requires lo < |v| ==> Compares(c, off, v, lo)
    ensures var i := lo - Width(size);
            var test := LoadTest(size, off + i, Jeq, Chunk(v, i, size));
            Compares(if lo == |v| then test else Conj(c, test), off, v, i)
  {
    var i := lo - Width(size);
    var test := LoadTest(size, off + i, Jeq, Chunk(v, i, size));
    forall p ensures Says(if lo == |v| then test else Conj(c, test), p, Match(p, off, v, i)) {
      SaysLoad(size, off + i, Jeq, Chunk(v, i, size), p);
      var x := Load(p, size, off + i);
      var w := if x.None? then None else Some(Compare(Jeq, x.value, Chunk(v, i, size)));
      if lo < |v| { SaysConj(c, test, p, Match(p, off, v, lo), w); }
      if off + |v| <= |p.bytes| { ChunkEqual(p, off, v, i, size); }
    }
  }

  /** A comparison under construction over the blocks added to `base`; nothing is built yet while `lo` is at the end. */
  ghost predicate Partial(base: Pool, pool: Pool, b: Option<nat>, fr: Frag, c: Cond, off: nat, v: seq<Byte>, lo: nat) {
    && |base| <= |pool| && pool[..|base|] == base && (b.None? <==> lo == |v|)
    && (b.None? ==> |pool| == |base|)
    && (b.Some? ==> && fr.top == b.value && OwnsExactly(fr.own, |base|, |pool|)
                    && Means(pool, fr, c) && Compares(c, off, v, lo))
  }

  /** Test one more chunk, after those behind it. */
  method AddChunk(gen: Generator, b: Option<nat>, off: nat, v: seq<Byte>, lo: nat, size: Size,
                  ghost base: Pool, ghost fr: Frag, ghost c: Cond)
    returns (b': Option<nat>, ghost fr': Frag, ghost c': Cond)
    requires Width(size) <= lo <= |v| && off + |v| < 0x1_0000_0000 && Partial(base, gen.pool, b, fr, c, off, v, lo)
    modifies gen
    ensures Partial(base, gen.pool, b', fr', c', off, v, lo - Width(size))
  {
    var i := lo - Width(size);
    ghost var pool := gen.pool;
    ComparesMore(c, off, v, lo, size);
    var tmp, f1 := gen.NewTest([LdAbs(size, off + i)], JmpK(Jeq, Chunk(v, i, size)));
    ghost var test := LoadTest(size, off + i, Jeq, Chunk(v, i, size));
    if b.Some? {
      MeansFrame(pool, gen.pool, fr, c);
      fr' := gen.GenAnd(b.value, tmp, fr, f1, c, test);
      c' := Conj(c, test);
    } else {
      fr', c' := f1, test;
    }
    b' := Some(tmp);
  }

  /** Compare a byte string, in chunks of four, two and one byte, starting at its end. */
  method GenBcmp(gen: Generator, off: nat, v: seq<Byte>) returns (b: Option<nat>, ghost fr: Frag, ghost c: Cond)
    requires off + |v| < 0x1_0000_0000
    modifies gen
    ensures Partial(old(gen.pool), gen.pool, b, fr, c, off, v, 0)
  {
    var size := |v|;
    b, fr, c := None, Frag(0, [], [], {}, map[], 0), Check([], JmpK(Jeq, 0));
    while size >= 4
      invariant 0 <= size <= |v| && Partial(old(gen.pool), gen.pool, b, fr, c, off, v, size)
    {
      b, fr, c := AddChunk(gen, b, off, v, size, W, old(gen.pool), fr, c);
      size := size - 4;
    }
    while size >= 2
      invariant 0 <= size <= |v| && size < 4 && Partial(old(gen.pool), gen.pool, b, fr, c, off, v, size)
    {
      b, fr, c := AddChunk(gen, b, off, v, size, H, old(gen.pool), fr, c);
      size := size - 2;
    }
    if size > 0 {
      b, fr, c := AddChunk(gen, b, off, v, size, B, old(gen.pool), fr, c);
    }
  }

  // 802.11 frames

  /** Frame types, from bits 2 and 3 of the first byte of the frame control field. */
  datatype FrameType = Management | Control | Data | Reserved

  function TypeOf(fc: int): FrameType
    requires 0 <= fc < 256
  {
    if fc / 4 % 4 == 0 then Management else if fc / 4 % 4 == 1 then Control else if fc / 4 % 4 == 2 then Data
      else Reserved
  }

  /** Where the source address of a data frame is, from the To DS and From DS bits. */
  function DataSource(flags: int): nat
    requires 0 <= flags < 256
  {
    var toDs, fromDs := flags % 2 == 1, flags / 2 % 2 == 1;
    if !fromDs then 10 else if !toDs then 16 else 24
  }

  /** The source address of the frame at `off`, if the frame has one and it was captured. */
  function SourceAddress(p: Packet, off: nat): Option<seq<Byte>> {
    if off + 2 > |p.bytes| then None
    else
      var t := TypeOf(ByteAt(p, off));
      var at := off + if t == Data then DataSource(ByteAt(p, off + 1)) else 10;
      if (t == Management || t == Data) && at + 6 <= |p.bytes| then Some(p.bytes[at..at + 6]) else None
  }

  /** The conclusion of the source-address test on every frame, complete or cut short. */
  function SourceMatch(p: Packet, off: nat, v: seq<Byte>): Option<bool> {
    if off >= |p.bytes| then None
    else match TypeOf(ByteAt(p, off))
      case Control => Some(false)
      case Reserved => Some(false)
      case Management => Match(p, off + 10, v, 0)
      case Data => if off + 1 >= |p.bytes| then None else Match(p, off + DataSource(ByteAt(p, off + 1)), v, 0)
  }

  /** The test holds exactly on frames whose source address is `v`. */
  lemma SourceMatchIff(p: Packet, off: nat, v: seq<Byte>)
    requires |v| == 6
    ensures SourceMatch(p, off, v) == Some(true) <==> SourceAddress(p, off) == Some(v)
  {
    if off + 2 <= |p.bytes| {
      var t := TypeOf(ByteAt(p, off));
      var at := off + if t == Data then DataSource(ByteAt(p, off + 1)) else 10;
      if at + 6 <= |p.bytes| {
        var field := p.bytes[at..at + 6];
        assert forall i | 0 <= i < 6 :: field[i] == p.bytes[at + i];
        assert Match(p, at, v, 0) == Some(true) <==> field == v;
      }
    }
  }

  predicate Bit(x: nat, k: nat) { if k == 0 then x % 2 == 1 else Bit(x / 2, k - 1) }

  lemma {:induction false} BitSet(x: nat, k: nat)
    ensures BitAnd(x, Pow2(k)) != 0 <==> Bit(x, k)
    decreases k
  {
    if k == 0 {
      assert BitAnd(x / 2, 0) == 0;
    } else {
      BitSet(x / 2, k - 1);
      assert Pow2(k) / 2 == Pow2(k - 1) && Pow2(k) % 2 == 0;
    }
  }

  lemma FrameBits(x: nat)
    ensures BitAnd(x, 1) != 0 <==> x % 2 == 1
    ensures BitAnd(x, 2) != 0 <==> x / 2 % 2 == 1
    ensures BitAnd(x, 4) != 0 <==> x / 4 % 2 == 1
    ensures BitAnd(x, 8) != 0 <==> x / 8 % 2 == 1
  {
    BitSet(x, 0);
    BitSet(x, 1);
    BitSet(x, 2);
    BitSet(x, 3);
    assert Pow2(1) == 2 && Pow2(2) == 4 && Pow2(3) == 8;
    assert x / 2 / 2 == x / 4 && x / 2 / 2 / 2 == x / 8;
  }

  // The filter

  function BitTest(at: Word, mask: Word): Cond { LoadTest(B, at, Jset, mask) }

  /** What a test of a frame control bit concludes. */
  function BitAt(p: Packet, at: nat, div: nat): Option<bool>
    requires div > 0
  {
    if at >= |p.bytes| then None else Some(ByteAt(p, at) / div % 2 == 1)
  }

  lemma SaysBit(at: Word, mask: Word, p: Packet)
    requires mask == 1 || mask == 2 || mask == 4 || mask == 8
    ensures Says(BitTest(at, mask), p, BitAt(p, at, mask))
  {
    SaysLoad(B, at, Jset, mask, p);
    if at < |p.bytes| { FrameBits(ByteAt(p, at)); }
  }

  /** The condition gen_wlanhostop builds for a source address, around four byte comparisons. */
  function SourceCond(off: nat, c24: Cond, c16: Cond, c10: Cond, m10: Cond): Cond
    requires off + 1 < 0x1_0000_0000
  {
    Conj(Inv(BitTest(off, 4)),
      Disj(Conj(Inv(BitTest(off, 8)), m10),
        Conj(BitTest(off, 8), FromCond(off, c24, c16, c10))))
  }

  function FromCond(off: nat, c24: Cond, c16: Cond, c10: Cond): Cond
    requires off + 1 < 0x1_0000_0000
  {
    Disj(Conj(Inv(BitTest(off + 1, 2)), c10),
      Conj(BitTest(off + 1, 2), ToCond(off, c24, c16)))
  }

  function ToCond(off: nat, c24: Cond, c16: Cond): Cond
    requires off + 1 < 0x1_0000_0000
  {
    Disj(Conj(Inv(BitTest(off + 1, 1)), c16), Conj(BitTest(off + 1, 1), c24))
  }

  /** Testing a bit both ways selects one of two conditions. */
  lemma SaysSelect(at: Word, mask: Word, clear: Cond, set_: Cond, p: Packet, v: Option<bool>, w: Option<bool>)
    requires mask == 1 || mask == 2 || mask == 4 || mask == 8
    requires Says(clear, p, v) && Says(set_, p, w)
    ensures var b := BitAt(p, at, mask);
            Says(Disj(Conj(Inv(BitTest(at, mask)), clear), Conj(BitTest(at, mask), set_)), p,
                 if b.None? then None else if b.value then w else v)
  {
    var b := BitAt(p, at, mask);
    var t := BitTest(at, mask);
    SaysBit(at, mask, p);
    SaysInv(t, p, b);
    SaysConj(Inv(t), clear, p, Negated(b), v);
    SaysConj(t, set_, p, b, w);
    SaysDisj(Conj(Inv(t), clear), Conj(t, set_), p, AndThen(Negated(b), v), AndThen(b, w));
  }

  lemma SourceSays(off: nat, v: seq<Byte>, c24: Cond, c16: Cond, c10: Cond, m10: Cond, p: Packet)
    requires off + 24 + |v| < 0x1_0000_0000
    requires Compares(c24, off + 24, v, 0) && Compares(c16, off + 16, v, 0)
    requires Compares(c10, off + 10, v, 0) && Compares(m10, off + 10, v, 0)
    ensures Says(SourceCond(off, c24, c16, c10, m10), p, SourceMatch(p, off, v))
  {
    var to, from, kind, low := BitAt(p, off + 1, 1), BitAt(p, off + 1, 2), BitAt(p, off, 8), BitAt(p, off, 4);
    var w24, w16, w10 := Match(p, off + 24, v, 0), Match(p, off + 16, v, 0), Match(p, off + 10, v, 0);
    var x := if to.None? then None else if to.value then w24 else w16;
    SaysSelect(off + 1, 1, c16, c24, p, w16, w24);
    var y := if from.None? then None else if from.value then x else w10;
    SaysSelect(off + 1, 2, c10, ToCond(off, c24, c16), p, w10, x);
    var z := if kind.None? then None else if kind.value then y else w10;
    SaysSelect(off, 8, m10, FromCond(off, c24, c16, c10), p, w10, y);
    SaysBit(off, 4, p);
    SaysInv(BitTest(off, 4), p, low);
    SaysConj(Inv(BitTest(off, 4)),
             Disj(Conj(Inv(BitTest(off, 8)), m10), Conj(BitTest(off, 8), FromCond(off, c24, c16, c10))), p,
                 Negated(low), z);
    SourceCases(off, v, p, z);
  }

  /** The four bits decide as the frame format does. */
  lemma SourceCases(off: nat, v: seq<Byte>, p: Packet, z: Option<bool>)
    requires var to, from, kind := BitAt(p, off + 1, 1), BitAt(p, off + 1, 2), BitAt(p, off, 8);
             var w24, w16, w10 := Match(p, off + 24, v, 0), Match(p, off + 16, v, 0), Match(p, off + 10, v, 0);
             var x := if to.None? then None else if to.value then w24 else w16;
             var y := if from.None? then None else if from.value then x else w10;
             z == if kind.None? then None else if kind.value then y else w10
    ensures AndThen(Negated(BitAt(p, off, 4)), z) == SourceMatch(p, off, v)
  {
    if off < |p.bytes| {
      var fc := ByteAt(p, off);
      assert fc / 4 % 4 == 2 * (fc / 8 % 2) + fc / 4 % 2;
    }
  }

  /** Fragment `fr` with top `b` is all that was added to `base`, and it means `c`. */
  ghost predicate Built(base: Pool, pool: Pool, b: nat, fr: Frag, c: Cond) {
    && |base| <= |pool| && pool[..|base|] == base
    && fr.top == b && OwnsExactly(fr.own, |base|, |pool|) && Means(pool, fr, c)
  }

  function Sense(t: Cond, negate: bool): Cond { if negate then Inv(t) else t }

  /** A block that tests a bit of the frame control field, possibly for being clear. */
  method GenBitTest(gen: Generator, at: Word, mask: Word, negate: bool) returns (b: nat, ghost fr: Frag)
    modifies gen
    ensures Built(old(gen.pool), gen.pool, b, fr, Sense(BitTest(at, mask), negate))
  {
    b, fr := gen.NewTest([LdAbs(B, at)], JmpK(Jset, mask));
    if negate { fr := gen.GenNot(b, fr, BitTest(at, mask)); }
  }

  /** Test a bit before the condition built so far. */
  method AndBitTest(gen: Generator, at: Word, mask: Word, negate: bool, b0: nat, ghost base: Pool, ghost f0: Frag,
                    ghost c0: Cond)
    returns (ghost fr: Frag)
    requires Built(base, gen.pool, b0, f0, c0)
    modifies gen
    ensures Built(base, gen.pool, b0, fr, Conj(Sense(BitTest(at, mask), negate), c0))
  {
    ghost var pool := gen.pool;
    var b1, f1 := GenBitTest(gen, at, mask, negate);
    MeansFrame(pool, gen.pool, f0, c0);
    fr := gen.GenAnd(b1, b0, f1, f0, Sense(BitTest(at, mask), negate), c0);
  }

  /** Test a bit, then compare an address at `off`. */
  method GenTestedCompare(gen: Generator, at: Word, mask: Word, negate: bool, off: nat, v: seq<Byte>)
    returns (b: nat, ghost fr: Frag, ghost cmp: Cond)
    requires v != [] && off + |v| < 0x1_0000_0000
    modifies gen
    ensures Built(old(gen.pool), gen.pool, b, fr, Conj(Sense(BitTest(at, mask), negate), cmp))
    ensures Compares(cmp, off, v, 0)
  {
    ghost var base := gen.pool;
    var b1, f1 := GenBitTest(gen, at, mask, negate);
    ghost var pool := gen.pool;
    var b0;
    ghost var f0;
    b0, f0, cmp := GenBcmp(gen, off, v);
    MeansFrame(pool, gen.pool, f1, Sense(BitTest(at, mask), negate));
    fr := gen.GenAnd(b1, b0.value, f1, f0, Sense(BitTest(at, mask), negate), cmp);
    b := b0.value;
  }

  /** Give an alternative, for the bit being clear, before the condition built so far. */
  method OrTestedCompare(gen: Generator, at: Word, mask: Word, off: nat, v: seq<Byte>,
                         b0: nat, ghost base: Pool, ghost f0: Frag, ghost c0: Cond)
    returns (ghost fr: Frag, ghost cmp: Cond)
    requires Built(base, gen.pool, b0, f0, c0) && v != [] && off + |v| < 0x1_0000_0000
    modifies gen
    ensures Built(base, gen.pool, b0, fr, Disj(Conj(Inv(BitTest(at, mask)), cmp), c0)) && Compares(cmp, off, v, 0)
  {
    ghost var pool := gen.pool;
    var b1;
    ghost var f1;
    b1, f1, cmp := GenTestedCompare(gen, at, mask, true, off, v);
    MeansFrame(pool, gen.pool, f0, c0);
    fr := gen.GenOr(b1, b0, f1, f0, Conj(Inv(BitTest(at, mask)), cmp), c0);
  }

  /** The source-address test of an 802.11 frame whose header starts at `off`. */
  method GenWlanSource(gen: Generator, off: nat, eaddr: seq<Byte>) returns (b0: nat, ghost fr: Frag, ghost c: Cond)
    requires |eaddr| == 6 && off + 30 < 0x1_0000_0000
    modifies gen
    ensures Built(old(gen.pool), gen.pool, b0, fr, c)
    ensures forall p :: Says(c, p, SourceMatch(p, off, eaddr))
  {
    ghost var base := gen.pool;
    ghost var c24, c16, c10, m10;
    b0, fr, c24 := GenTestedCompare(gen, off + 1, 0x01, false, off + 24, eaddr);
    c := Conj(BitTest(off + 1, 1), c24);
    fr, c16 := OrTestedCompare(gen, off + 1, 0x01, off + 16, eaddr, b0, base, fr, c);
    c := ToCond(off, c24, c16);
    fr := AndBitTest(gen, off + 1, 0x02, false, b0, base, fr, c);
    c := Conj(BitTest(off + 1, 2), c);
    fr, c10 := OrTestedCompare(gen, off + 1, 0x02, off + 10, eaddr, b0, base, fr, c);
    c := FromCond(off, c24, c16, c10);
    fr := AndBitTest(gen, off, 0x08, false, b0, base, fr, c);
    c := Conj(BitTest(off, 8), c);
    fr, m10 := OrTestedCompare(gen, off, 0x08, off + 10, eaddr, b0, base, fr, c);
    c := Disj(Conj(Inv(BitTest(off, 8)), m10), c);
    fr := AndBitTest(gen, off, 0x04, true, b0, base, fr, c);
    c := SourceCond(off, c24, c16, c10, m10);
    forall p ensures Says(c, p, SourceMatch(p, off, eaddr)) { SourceSays(off, eaddr, c24, c16, c10, m10, p); }
  }

  /** The whole filter: it returns the snapshot length exactly on frames whose source address is `eaddr`. */
  method WlanSourceFilter(off: nat, eaddr: seq<Byte>, snaplen: Word) returns (g: Graph, root: nat, ghost lv: seq<nat>)
    requires |eaddr| == 6 && off + 30 < 0x1_0000_0000
    ensures Levelled(g, lv) && root < |g|
    ensures forall p, r :: Run(g, lv, root, p, r).Verdict() == if SourceAddress(p, off) == Some(eaddr) then snaplen
            else 0
  {
    var gen := new Generator();
    var b, fr, c := GenWlanSource(gen, off, eaddr);
    g, root, lv := FinishParse(gen, b, snaplen, fr, c);
    forall p, r
      ensures Run(g, lv, root, p, r).Verdict() == if SourceAddress(p, off) == Some(eaddr) then snaplen else 0
    {
      assert Says(c, p, SourceMatch(p, off, eaddr));
      assert Conclusion(Eval(c, p, r)) == SourceMatch(p, off, eaddr);
      SourceMatchIff(p, off, eaddr);
    }
  }
}
