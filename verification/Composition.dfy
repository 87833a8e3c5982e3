/** Building boolean combinations of tests by backpatching (new_block, backpatch, merge, gen_and, gen_or, gen_not). */
module Composition {
  import opened Machine
  import opened Graph
  import opened Liveness

  // Conditions and their short-circuit meaning

  datatype Cond =
    | Check(stmts: seq<Stmt>, test: Test)
    | Conj(left: Cond, right: Cond)
    | Disj(left: Cond, right: Cond)
    | Inv(inner: Cond)

  datatype Verdict = Faulted | Decided(holds: bool, regs: Regs)

  /** Evaluate left to right; the right operand only if the left one does not decide. */
  ghost function Eval(c: Cond, p: Packet, r: Regs): Verdict {
    match c
    case Check(ss, t) =>
      var q := ExecAll(ss, p, r);
      if q.None? then Faulted else Decided(Holds(t, q.value), q.value)
    case Conj(a, b) =>
      var va := Eval(a, p, r);
      if va.Decided? && va.holds then Eval(b, p, va.regs) else va
    case Disj(a, b) =>
      var va := Eval(a, p, r);
      if va.Decided? && !va.holds then Eval(b, p, va.regs) else va
    case Inv(a) =>
      var va := Eval(a, p, r);
      if va.Decided? then va.(holds := !va.holds) else va
  }

  /** Every test of the condition computes what it reads, and is otherwise as the code generator makes it. */
  ghost predicate Closed(c: Cond) {
    match c
    case Check(ss, t) => ClosedTest(ss, t)
    case Conj(a, b) => Closed(a) && Closed(b)
    case Disj(a, b) => Closed(a) && Closed(b)
    case Inv(a) => Closed(a)
  }

  ghost predicate ClosedTest(ss: seq<Stmt>, t: Test) { Proper(Block(ss, Br(t, 0, 0))) }

  /** The condition contains this test. */
  predicate HasTest(c: Cond, ss: seq<Stmt>, t: Test) {
    match c
    case Check(ss', t') => ss' == ss && t' == t
    case Conj(a, b) => HasTest(a, ss, t) || HasTest(b, ss, t)
    case Disj(a, b) => HasTest(a, ss, t) || HasTest(b, ss, t)
    case Inv(a) => HasTest(a, ss, t)
  }

  lemma {:induction false} ClosedTests(c: Cond, ss: seq<Stmt>, t: Test)
    requires Closed(c) && HasTest(c, ss, t)
    ensures ClosedTest(ss, t)
  {
    match c
    case Check(_, _) =>
    case Conj(a, b) => if HasTest(a, ss, t) { ClosedTests(a, ss, t); } else { ClosedTests(b, ss, t); }
    case Disj(a, b) => if HasTest(a, ss, t) { ClosedTests(a, ss, t); } else { ClosedTests(b, ss, t); }
    case Inv(a) => ClosedTests(a, ss, t);
  }

  /** Such a condition concludes the same whatever the registers hold. */
  lemma {:induction false} ClosedConcludes(c: Cond, p: Packet, r: Regs, r': Regs)
    requires Closed(c)
    ensures Eval(c, p, r).Faulted? == Eval(c, p, r').Faulted?
    ensures Eval(c, p, r).Decided? ==> Eval(c, p, r).holds == Eval(c, p, r').holds
  {
    match c
    case Check(ss, t) => SelfContainedTest(Block(ss, Br(t, 0, 0)), p, r, r');
    case Inv(a) => ClosedConcludes(a, p, r, r');
    case Conj(a, b) =>
      ClosedConcludes(a, p, r, r');
      var v, v' := Eval(a, p, r), Eval(a, p, r');
      if v.Decided? && v.holds { ClosedConcludes(b, p, v.regs, v'.regs); }
    case Disj(a, b) =>
      ClosedConcludes(a, p, r, r');
      var v, v' := Eval(a, p, r), Eval(a, p, r');
      if v.Decided? && !v.holds { ClosedConcludes(b, p, v.regs, v'.regs); }
  }

  // Blocks under construction

  datatype Kind = KTest(test: Test) | KRet(k: Word)

  /** A block whose branch fields may be unresolved; an unresolved field links to the next block of an exit list,
      and `sense` tells which field is the link: the true one when it is false. */
  datatype GBlock = GBlock(stmts: seq<Stmt>, kind: Kind, jt: Option<nat>, jf: Option<nat>, sense: bool, head: nat)

  type Pool = seq<GBlock>

  function Field(b: GBlock, d: bool): Option<nat> { if d then b.jt else b.jf }

  function SetField(b: GBlock, d: bool, v: Option<nat>): GBlock { if d then b.(jt := v) else b.(jf := v) }

  /** The list link of a block. */
  function Link(b: GBlock): Option<nat> { Field(b, !b.sense) }

  function SetLink(b: GBlock, v: Option<nat>): GBlock { SetField(b, !b.sense, v) }

  function Flip(b: GBlock): GBlock { b.(sense := !b.sense) }

  /** `xs` is the exit list that starts with `start`. */
  ghost predicate Chain(pool: Pool, start: Option<nat>, xs: seq<nat>)
    decreases xs
  {
    if xs == [] then start.None?
    else start == Some(xs[0]) && xs[0] < |pool| && Chain(pool, Link(pool[xs[0]]), xs[1..])
  }

  lemma {:induction false} ChainFrame(pool: Pool, pool': Pool, start: Option<nat>, xs: seq<nat>)
    requires Chain(pool, start, xs)
    requires forall x | x in xs :: x < |pool| && x < |pool'| ==> Link(pool'[x]) == Link(pool[x])
    requires |pool| <= |pool'|
    ensures Chain(pool', start, xs)
    decreases xs
  {
    if xs != [] {
      assert xs[0] in xs;
      ChainFrame(pool, pool', Link(pool[xs[0]]), xs[1..]);
    }
  }

  /** Joining two lists: the link of the last block of the first leads to the second. */
  lemma {:induction false} ChainJoin(pool: Pool, pool': Pool, start: Option<nat>, xs: seq<nat>, ys: seq<nat>,
                                     mid: Option<nat>)
    requires xs != [] && Chain(pool, start, xs) && Chain(pool', mid, ys) && |pool| <= |pool'|
    requires forall i, j | 0 <= i < j < |xs| :: xs[i] != xs[j]
    requires forall i | 0 <= i < |xs| - 1 :: xs[i] < |pool| && Link(pool'[xs[i]]) == Link(pool[xs[i]])
    requires xs[|xs| - 1] < |pool| && Link(pool'[xs[|xs| - 1]]) == mid
    ensures Chain(pool', start, xs + ys)
    decreases xs
  {
    assert (xs + ys)[0] == xs[0] && (xs + ys)[1..] == xs[1..] + ys;
    if |xs| > 1 {
      assert xs[0] < |pool| && Link(pool'[xs[0]]) == Link(pool[xs[0]]);
      forall i | 0 <= i < |xs[1..]| - 1
        ensures xs[1..][i] < |pool| && Link(pool'[xs[1..][i]]) == Link(pool[xs[1..][i]])
      {
        assert xs[1..][i] == xs[i + 1];
      }
      ChainJoin(pool, pool', Link(pool[xs[0]]), xs[1..], ys, mid);
    } else {
      assert xs[1..] + ys == ys;
    }
  }

  // Fragments

  /** A partly built condition: its last block `top`, the other blocks `ts` and `fs` of its true and false exit
      lists, the blocks it owns, and a rank that falls along resolved branches. */
  datatype Frag = Frag(top: nat, ts: seq<nat>, fs: seq<nat>, own: set<nat>, rank: map<nat, nat>, hi: nat)

  /** Whether leaving `x` in direction `d` leaves the fragment, and with which verdict. */
  ghost function Exit(pool: Pool, fr: Frag, x: nat, d: bool): Option<bool>
    requires x < |pool|
  {
    if x == fr.top then Some(d == !pool[x].sense)
    else if d == !pool[x].sense && x in fr.ts then Some(true)
    else if d == !pool[x].sense && x in fr.fs then Some(false)
    else None
  }

  /** A resolved branch stays inside the fragment and goes down in rank. */
  ghost predicate Resolved(pool: Pool, fr: Frag, x: nat, d: bool)
    requires x < |pool| && x in fr.rank
  {
    var t := Field(pool[x], d);
    t.Some? && t.value in fr.own && t.value in fr.rank && fr.rank[t.value] < fr.rank[x]
  }

  ghost predicate BlockOk(pool: Pool, fr: Frag, x: nat) {
    && x < |pool| && x in fr.rank && fr.rank[x] < fr.hi && pool[x].kind.KTest?
    && forall d | Exit(pool, fr, x, d).None? :: Resolved(pool, fr, x, d)
  }

  ghost predicate ListsOk(pool: Pool, fr: Frag)
    requires fr.top < |pool|
  {
    && Chain(pool, Link(pool[fr.top]), fr.ts) && Chain(pool, Field(pool[fr.top], pool[fr.top].sense), fr.fs)
    && (forall x | x in fr.ts :: x in fr.own && x != fr.top && x !in fr.fs)
    && (forall x | x in fr.fs :: x in fr.own && x != fr.top)
    && (forall i, j | 0 <= i < j < |fr.ts| :: fr.ts[i] != fr.ts[j])
    && (forall i, j | 0 <= i < j < |fr.fs| :: fr.fs[i] != fr.fs[j])
  }

  ghost predicate WellBuilt(pool: Pool, fr: Frag) {
    && fr.top in fr.own && (forall x | x in fr.own :: BlockOk(pool, fr, x))
    && ListsOk(pool, fr) && pool[fr.top].head in fr.own
  }

  /** Run inside the fragment from block `x` until an exit. */
  ghost function RunFrag(pool: Pool, fr: Frag, x: nat, p: Packet, r: Regs): Verdict
    requires WellBuilt(pool, fr) && x in fr.own
    decreases if x in fr.rank then fr.rank[x] else 0
  {
    assert BlockOk(pool, fr, x);
    var q := ExecAll(pool[x].stmts, p, r);
    if q.None? then Faulted
    else
      var d := Holds(pool[x].kind.test, q.value);
      var e := Exit(pool, fr, x, d);
      if e.Some? then Decided(e.value, q.value)
      else
        assert Resolved(pool, fr, x, d);
        RunFrag(pool, fr, Field(pool[x], d).value, p, q.value)
  }

  /** The fragment decides as the condition does. */
  ghost predicate Means(pool: Pool, fr: Frag, c: Cond) {
    && WellBuilt(pool, fr)
    && forall p, r :: RunFrag(pool, fr, pool[fr.top].head, p, r) == Eval(c, p, r)
  }

  /** Blocks that agree on everything but their head run alike. */
  ghost predicate SameRunning(b: GBlock, b': GBlock) {
    b'.stmts == b.stmts && b'.kind == b.kind && b'.jt == b.jt && b'.jf == b.jf && b'.sense == b.sense
  }

  lemma {:induction false} RunFragFrame(pool: Pool, pool': Pool, fr: Frag, x: nat, p: Packet, r: Regs)
    requires WellBuilt(pool, fr) && WellBuilt(pool', fr) && x in fr.own
    requires forall y | y in fr.own :: y < |pool| && y < |pool'| && SameRunning(pool[y], pool'[y])
    ensures RunFrag(pool', fr, x, p, r) == RunFrag(pool, fr, x, p, r)
    decreases if x in fr.rank then fr.rank[x] else 0
  {
    assert BlockOk(pool, fr, x) && BlockOk(pool', fr, x);
    var q := ExecAll(pool[x].stmts, p, r);
    if q.Some? {
      var d := Holds(pool[x].kind.test, q.value);
      if Exit(pool, fr, x, d).None? {
        assert Resolved(pool, fr, x, d);
        RunFragFrame(pool, pool', fr, Field(pool[x], d).value, p, q.value);
      }
    }
  }

  /** A fragment keeps its meaning while other blocks change. */
  lemma MeansFrame(pool: Pool, pool': Pool, fr: Frag, c: Cond)
    requires Means(pool, fr, c) && |pool| <= |pool'|
    requires forall y | y in fr.own && y < |pool| :: pool'[y] == pool[y]
    ensures Means(pool', fr, c)
  {
    forall x | x in fr.own ensures BlockOk(pool', fr, x) {
      assert BlockOk(pool, fr, x);
      forall d | Exit(pool', fr, x, d).None? ensures Resolved(pool', fr, x, d) { assert Resolved(pool, fr, x, d); }
    }
    ChainFrame(pool, pool', Link(pool[fr.top]), fr.ts);
    ChainFrame(pool, pool', Field(pool[fr.top], pool[fr.top].sense), fr.fs);
    assert WellBuilt(pool', fr);
    forall p, r ensures RunFrag(pool', fr, pool'[fr.top].head, p, r) == Eval(c, p, r) {
      RunFragFrame(pool, pool', fr, pool[fr.top].head, p, r);
    }
  }

  // Negation

  ghost function Swap(fr: Frag): Frag { fr.(ts := fr.fs, fs := fr.ts) }

  lemma {:induction false} RunSwap(pool: Pool, pool': Pool, fr: Frag, x: nat, p: Packet, r: Regs)
    requires WellBuilt(pool, fr) && WellBuilt(pool', Swap(fr)) && x in fr.own
    requires fr.top < |pool| && pool' == pool[fr.top := Flip(pool[fr.top])]
    ensures var v := RunFrag(pool, fr, x, p, r);
            RunFrag(pool', Swap(fr), x, p, r) == if v.Decided? then v.(holds := !v.holds) else v
    decreases if x in fr.rank then fr.rank[x] else 0
  {
    assert BlockOk(pool, fr, x) && BlockOk(pool', Swap(fr), x);
    var q := ExecAll(pool[x].stmts, p, r);
    if q.Some? {
      var d := Holds(pool[x].kind.test, q.value);
      if Exit(pool, fr, x, d).None? {
        assert Resolved(pool, fr, x, d);
        RunSwap(pool, pool', fr, Field(pool[x], d).value, p, q.value);
      }
    }
  }

  /** Flipping the sense of the last block swaps the exit lists, and so negates the condition. */
  lemma NotMeans(pool: Pool, fr: Frag, c: Cond)
    requires Means(pool, fr, c)
    ensures fr.top < |pool| && Means(pool[fr.top := Flip(pool[fr.top])], Swap(fr), Inv(c))
  {
    assert BlockOk(pool, fr, fr.top);
    var pool' := pool[fr.top := Flip(pool[fr.top])];
    forall x | x in fr.own ensures BlockOk(pool', Swap(fr), x) {
      assert BlockOk(pool, fr, x);
      forall d | Exit(pool', Swap(fr), x, d).None? ensures Resolved(pool', Swap(fr), x, d) {
        assert Resolved(pool, fr, x, d);
      }
    }
    ChainFrame(pool, pool', Link(pool[fr.top]), fr.ts);
    ChainFrame(pool, pool', Field(pool[fr.top], pool[fr.top].sense), fr.fs);
    assert WellBuilt(pool', Swap(fr));
    forall p, r ensures RunFrag(pool', Swap(fr), pool'[fr.top].head, p, r) == Eval(Inv(c), p, r) {
      RunSwap(pool, pool', fr, pool[fr.top].head, p, r);
    }
  }

  // Conjunction

  /** The combined fragment: the left one's true exits have become branches, its false exits are appended. */
  ghost function JoinedFrag(f0: Frag, f1: Frag): Frag {
    Frag(f1.top, f1.ts, f1.fs + [f0.top] + f0.fs, f0.own + f1.own,
         map x | x in f0.rank.Keys + f1.rank.Keys ::
           if x in f0.own && x in f0.rank then f0.rank[x] + f1.hi else if x in f1.rank then f1.rank[x] else 0,
         f0.hi + f1.hi)
  }

  /** The last block of the right fragment's false list. */
  ghost function LastFalse(f1: Frag): nat { if f1.fs == [] then f1.top else f1.fs[|f1.fs| - 1] }

  /** The effect of gen_and on one block. */
  ghost function AndBlock(pool: Pool, f0: Frag, f1: Frag, i: nat): GBlock
    requires i < |pool| && f0.top < |pool| && f1.top < |pool|
  {
    var b := pool[i];
    if i == f0.top then Flip(SetLink(b, Some(pool[f1.top].head)))
    else if i in f0.ts then SetLink(b, Some(pool[f1.top].head))
    else if i == f1.top then
      var b' := b.(head := pool[f0.top].head);
      if f1.fs == [] then SetField(b', b.sense, Some(f0.top)) else b'
    else if i == LastFalse(f1) then SetLink(b, Some(f0.top))
    else b
  }

  ghost predicate Anded(pool: Pool, pool': Pool, f0: Frag, f1: Frag) {
    && f0.top < |pool| && f1.top < |pool| && |pool'| == |pool|
    && forall i | 0 <= i < |pool| :: pool'[i] == AndBlock(pool, f0, f1, i)
  }

  lemma AndRightBlocks(pool: Pool, pool': Pool, f0: Frag, f1: Frag, x: nat)
    requires WellBuilt(pool, f0) && WellBuilt(pool, f1) && f0.own !! f1.own && Anded(pool, pool', f0, f1) && x in f1.own
    ensures BlockOk(pool', JoinedFrag(f0, f1), x)
    ensures forall d :: Exit(pool', JoinedFrag(f0, f1), x, d) == Exit(pool, f1, x, d)
    ensures forall d | Exit(pool, f1, x, d).None? :: Field(pool'[x], d) == Field(pool[x], d)
    ensures pool'[x].stmts == pool[x].stmts && pool'[x].kind == pool[x].kind
  {
    assert BlockOk(pool, f1, x) && BlockOk(pool, f0, f0.top);
    assert pool'[x] == AndBlock(pool, f0, f1, x);
    assert x !in f0.ts && x !in f0.fs && x != f0.top;
    forall d
      ensures Exit(pool', JoinedFrag(f0, f1), x, d) == Exit(pool, f1, x, d)
      ensures Exit(pool, f1, x, d).None? ==> Resolved(pool', JoinedFrag(f0, f1), x, d)
      ensures Exit(pool, f1, x, d).None? ==> Field(pool'[x], d) == Field(pool[x], d)
    {
      if Exit(pool, f1, x, d).None? {
        assert Resolved(pool, f1, x, d);
        var t := Field(pool[x], d).value;
        assert BlockOk(pool, f1, t);
      }
    }
  }

  lemma AndLeftBlocks(pool: Pool, pool': Pool, f0: Frag, f1: Frag, x: nat)
    requires WellBuilt(pool, f0) && WellBuilt(pool, f1) && f0.own !! f1.own && Anded(pool, pool', f0, f1) && x in f0.own
    ensures BlockOk(pool', JoinedFrag(f0, f1), x)
    ensures forall d :: Exit(pool', JoinedFrag(f0, f1), x, d) ==
                        if Exit(pool, f0, x, d) == Some(true) then None else Exit(pool, f0, x, d)
    ensures forall d | Exit(pool, f0, x, d).None? :: Field(pool'[x], d) == Field(pool[x], d)
    ensures forall d | Exit(pool, f0, x, d) == Some(true) :: Field(pool'[x], d) == Some(pool[f1.top].head)
    ensures pool'[x].stmts == pool[x].stmts && pool'[x].kind == pool[x].kind
  {
    assert BlockOk(pool, f0, x) && BlockOk(pool, f1, pool[f1.top].head);
    assert pool'[x] == AndBlock(pool, f0, f1, x);
    assert x !in f1.ts && x !in f1.fs && x != f1.top;
    forall d
      ensures Exit(pool', JoinedFrag(f0, f1), x, d) == if Exit(pool, f0, x, d) == Some(true) then None
              else Exit(pool, f0, x, d)
      ensures Exit(pool', JoinedFrag(f0, f1), x, d).None? ==> Resolved(pool', JoinedFrag(f0, f1), x, d)
      ensures Exit(pool, f0, x, d).None? ==> Field(pool'[x], d) == Field(pool[x], d)
      ensures Exit(pool, f0, x, d) == Some(true) ==> Field(pool'[x], d) == Some(pool[f1.top].head)
    {
      if Exit(pool, f0, x, d).None? {
        assert Resolved(pool, f0, x, d);
        var t := Field(pool[x], d).value;
        assert BlockOk(pool, f0, t);
      }
    }
  }

  lemma AndLists(pool: Pool, pool': Pool, f0: Frag, f1: Frag)
    requires WellBuilt(pool, f0) && WellBuilt(pool, f1) && f0.own !! f1.own && Anded(pool, pool', f0, f1)
    ensures ListsOk(pool', JoinedFrag(f0, f1))
  {
    assert BlockOk(pool, f0, f0.top) && BlockOk(pool, f1, f1.top);
    AndOtherChains(pool, pool', f0, f1);
    assert f1.fs + [f0.top] + f0.fs == f1.fs + ([f0.top] + f0.fs);
    AndFalseChain(pool, pool', f0, f1, [f0.top] + f0.fs);
    JoinedNoDup(f0, f1);
  }

  /** The right operand's true list and the left operand's false list stay as they are. */
  lemma AndOtherChains(pool: Pool, pool': Pool, f0: Frag, f1: Frag)
    requires WellBuilt(pool, f0) && WellBuilt(pool, f1) && f0.own !! f1.own && Anded(pool, pool', f0, f1)
    ensures Chain(pool', Link(pool'[f1.top]), f1.ts) && Chain(pool', Some(f0.top), [f0.top] + f0.fs)
  {
    assert BlockOk(pool, f0, f0.top) && BlockOk(pool, f1, f1.top);
    assert pool'[f0.top] == AndBlock(pool, f0, f1, f0.top) && pool'[f1.top] == AndBlock(pool, f0, f1, f1.top);
    forall x | x in f1.ts || x in f0.fs ensures x < |pool| && pool'[x] == pool[x] {
      if x in f1.ts { assert BlockOk(pool, f1, x); } else { assert BlockOk(pool, f0, x); }
      assert pool'[x] == AndBlock(pool, f0, f1, x);
    }
    ChainFrame(pool, pool', Link(pool[f1.top]), f1.ts);
    ChainFrame(pool, pool', Field(pool[f0.top], pool[f0.top].sense), f0.fs);
    assert ([f0.top] + f0.fs)[1..] == f0.fs;
  }

  lemma AndFalseChain(pool: Pool, pool': Pool, f0: Frag, f1: Frag, tail: seq<nat>)
    requires WellBuilt(pool, f0) && WellBuilt(pool, f1) && f0.own !! f1.own && Anded(pool, pool', f0, f1)
    requires Chain(pool', Some(f0.top), tail)
    ensures Chain(pool', Field(pool'[f1.top], pool'[f1.top].sense), f1.fs + tail)
  {
    assert pool'[f1.top] == AndBlock(pool, f0, f1, f1.top);
    if f1.fs == [] {
      assert f1.fs + tail == tail;
    } else {
      forall i | 0 <= i < |f1.fs|
        ensures f1.fs[i] < |pool|
        ensures Link(pool'[f1.fs[i]]) == if i < |f1.fs| - 1 then Link(pool[f1.fs[i]]) else Some(f0.top)
      {
        assert f1.fs[i] in f1.fs;
        assert BlockOk(pool, f1, f1.fs[i]);
        assert pool'[f1.fs[i]] == AndBlock(pool, f0, f1, f1.fs[i]);
      }
      ChainJoin(pool, pool', Field(pool[f1.top], pool[f1.top].sense), f1.fs, tail, Some(f0.top));
    }
  }

  lemma JoinedNoDup(f0: Frag, f1: Frag)
    requires f0.own !! f1.own && f0.top in f0.own
    requires (forall x | x in f0.fs :: x in f0.own && x != f0.top) && (forall x | x in f1.fs :: x in f1.own)
    requires forall i, j | 0 <= i < j < |f0.fs| :: f0.fs[i] != f0.fs[j]
    requires forall i, j | 0 <= i < j < |f1.fs| :: f1.fs[i] != f1.fs[j]
    ensures var fs := f1.fs + [f0.top] + f0.fs; forall i, j | 0 <= i < j < |fs| :: fs[i] != fs[j]
  {
    var fs := f1.fs + [f0.top] + f0.fs;
    forall i, j | 0 <= i < j < |fs| ensures fs[i] != fs[j] {
      if i < |f1.fs| { assert fs[i] in f1.fs; }
      if j < |f1.fs| { assert fs[j] in f1.fs; }
      if j > |f1.fs| { assert fs[j] == f0.fs[j - |f1.fs| - 1] && fs[j] in f0.fs; }
      if i > |f1.fs| { assert fs[i] == f0.fs[i - |f1.fs| - 1]; }
    }
  }

  lemma AndWellBuilt(pool: Pool, pool': Pool, f0: Frag, f1: Frag)
    requires WellBuilt(pool, f0) && WellBuilt(pool, f1) && f0.own !! f1.own && Anded(pool, pool', f0, f1)
    ensures WellBuilt(pool', JoinedFrag(f0, f1)) && pool'[f1.top].head == pool[f0.top].head
  {
    forall x | x in f0.own + f1.own ensures BlockOk(pool', JoinedFrag(f0, f1), x) {
      if x in f0.own { AndLeftBlocks(pool, pool', f0, f1, x); } else { AndRightBlocks(pool, pool', f0, f1, x); }
    }
    AndLists(pool, pool', f0, f1);
    assert pool'[f1.top] == AndBlock(pool, f0, f1, f1.top);
  }

  /** Inside the right operand the combined fragment runs as before. */
  lemma {:induction false} RunRight(pool: Pool, pool': Pool, f0: Frag, f1: Frag, x: nat, p: Packet, r: Regs)
    requires WellBuilt(pool, f0) && WellBuilt(pool, f1) && f0.own !! f1.own && Anded(pool, pool', f0, f1)
    requires WellBuilt(pool', JoinedFrag(f0, f1)) && x in f1.own
    ensures RunFrag(pool', JoinedFrag(f0, f1), x, p, r) == RunFrag(pool, f1, x, p, r)
    decreases if x in f1.rank then f1.rank[x] else 0
  {
    assert BlockOk(pool, f1, x);
    AndRightBlocks(pool, pool', f0, f1, x);
    var q := ExecAll(pool[x].stmts, p, r);
    if q.Some? {
      var d := Holds(pool[x].kind.test, q.value);
      if Exit(pool, f1, x, d).None? {
        assert Resolved(pool, f1, x, d);
        RunRight(pool, pool', f0, f1, Field(pool[x], d).value, p, q.value);
      }
    }
  }

  /** Inside the left operand a true exit continues with the right operand. */
  lemma {:induction false} RunLeft(pool: Pool, pool': Pool, f0: Frag, f1: Frag, x: nat, p: Packet, r: Regs)
    requires WellBuilt(pool, f0) && WellBuilt(pool, f1) && f0.own !! f1.own && Anded(pool, pool', f0, f1)
    requires WellBuilt(pool', JoinedFrag(f0, f1)) && x in f0.own
    ensures var v := RunFrag(pool, f0, x, p, r);
            RunFrag(pool', JoinedFrag(f0, f1), x, p, r) ==
            if v.Decided? && v.holds then RunFrag(pool, f1, pool[f1.top].head, p, v.regs) else v
    decreases if x in f0.rank then f0.rank[x] else 0
  {
    assert BlockOk(pool, f0, x);
    AndLeftBlocks(pool, pool', f0, f1, x);
    var q := ExecAll(pool[x].stmts, p, r);
    if q.Some? {
      var d := Holds(pool[x].kind.test, q.value);
      var e := Exit(pool, f0, x, d);
      if e.None? {
        assert Resolved(pool, f0, x, d);
        RunLeft(pool, pool', f0, f1, Field(pool[x], d).value, p, q.value);
      } else if e.value {
        RunRight(pool, pool', f0, f1, pool[f1.top].head, p, q.value);
      }
    }
  }

  /** gen_and builds the short-circuit conjunction. */
  lemma AndMeans(pool: Pool, pool': Pool, f0: Frag, f1: Frag, c0: Cond, c1: Cond)
    requires Means(pool, f0, c0) && Means(pool, f1, c1) && f0.own !! f1.own && Anded(pool, pool', f0, f1)
    ensures Means(pool', JoinedFrag(f0, f1), Conj(c0, c1))
  {
    AndWellBuilt(pool, pool', f0, f1);
    forall p, r ensures RunFrag(pool', JoinedFrag(f0, f1), pool'[f1.top].head, p, r) == Eval(Conj(c0, c1), p, r) {
      RunLeft(pool, pool', f0, f1, pool[f0.top].head, p, r);
      var v := Eval(c0, p, r);
      if v.Decided? && v.holds {
        assert RunFrag(pool, f1, pool[f1.top].head, p, v.regs) == Eval(c1, p, v.regs);
      }
    }
  }

  // Disjunction

  ghost function FlipAt(pool: Pool, b: nat): Pool
    requires b < |pool|
  {
    pool[b := Flip(pool[b])]
  }

  /** gen_or does to the exit lists what gen_and does to the swapped ones. */
  lemma OrMeans(pool: Pool, pool': Pool, f0: Frag, f1: Frag, c0: Cond, c1: Cond)
    requires Means(pool, f0, c0) && Means(pool, f1, c1) && f0.own !! f1.own
    requires f0.top < |pool| && f1.top < |pool| && |pool'| == |pool|
    requires Anded(FlipAt(FlipAt(pool, f0.top), f1.top), FlipAt(pool', f1.top), Swap(f0), Swap(f1))
    ensures Means(pool', Swap(JoinedFrag(Swap(f0), Swap(f1))), Disj(c0, c1))
  {
    var fr, poolC := JoinedFrag(Swap(f0), Swap(f1)), FlipAt(pool', f1.top);
    OrFlipped(pool, poolC, f0, f1, c0, c1);
    NotMeans(poolC, fr, Conj(Inv(c0), Inv(c1)));
    assert FlipAt(poolC, f1.top) == pool';
    MeansDisj(pool', Swap(fr), c0, c1);
  }

  lemma OrFlipped(pool: Pool, poolC: Pool, f0: Frag, f1: Frag, c0: Cond, c1: Cond)
    requires Means(pool, f0, c0) && Means(pool, f1, c1) && f0.own !! f1.own && f0.top < |pool| && f1.top < |pool|
    requires Anded(FlipAt(FlipAt(pool, f0.top), f1.top), poolC, Swap(f0), Swap(f1))
    ensures Means(poolC, JoinedFrag(Swap(f0), Swap(f1)), Conj(Inv(c0), Inv(c1)))
  {
    SwapBoth(pool, f0, f1, c0, c1);
    AndMeans(FlipAt(FlipAt(pool, f0.top), f1.top), poolC, Swap(f0), Swap(f1), Inv(c0), Inv(c1));
  }

  lemma SwapBoth(pool: Pool, f0: Frag, f1: Frag, c0: Cond, c1: Cond)
    requires Means(pool, f0, c0) && Means(pool, f1, c1) && f0.own !! f1.own && f0.top < |pool| && f1.top < |pool|
    ensures Means(FlipAt(FlipAt(pool, f0.top), f1.top), Swap(f0), Inv(c0))
    ensures Means(FlipAt(FlipAt(pool, f0.top), f1.top), Swap(f1), Inv(c1))
  {
    assert f0.top in f0.own && f1.top in f1.own;
    var poolA := FlipAt(pool, f0.top);
    NotMeans(pool, f0, c0);
    MeansFrame(pool, poolA, f1, c1);
    NotMeans(poolA, f1, c1);
    MeansFrame(poolA, FlipAt(poolA, f1.top), Swap(f0), Inv(c0));
  }

  lemma MeansDisj(pool: Pool, fr: Frag, c0: Cond, c1: Cond)
    requires Means(pool, fr, Inv(Conj(Inv(c0), Inv(c1))))
    ensures Means(pool, fr, Disj(c0, c1))
  {
    forall p, r ensures RunFrag(pool, fr, pool[fr.top].head, p, r) == Eval(Disj(c0, c1), p, r) {
      DeMorgan(c0, c1, p, r);
    }
  }

  lemma DeMorgan(c0: Cond, c1: Cond, p: Packet, r: Regs)
    ensures Eval(Inv(Conj(Inv(c0), Inv(c1))), p, r) == Eval(Disj(c0, c1), p, r)
  {
    var v := Eval(c0, p, r);
    assert Eval(Inv(c0), p, r) == if v.Decided? then v.(holds := !v.holds) else v;
    if v.Decided? && !v.holds {
      var w := Eval(c1, p, v.regs);
      assert Eval(Inv(c1), p, v.regs) == if w.Decided? then w.(holds := !w.holds) else w;
    }
  }
}
