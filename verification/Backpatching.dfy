/** The code generator's block pool and the in-place construction of conditions (backpatch, merge, gen_and,
    gen_or, gen_not, finish_parse). */
module Backpatching {
  import opened Machine
  import opened Graph
  import opened Composition
  import opened Liveness

  /** The pool after resolving the links of all blocks in `xs` to `target`. */
  ghost predicate Patched(pool: Pool, pool': Pool, xs: seq<nat>, target: nat) {
    && |pool'| == |pool|
    && forall i | 0 <= i < |pool| :: pool'[i] == if i in xs then SetLink(pool[i], Some(target)) else pool[i]
  }

  lemma TopChain(pool: Pool, b: nat, xs: seq<nat>)
    requires b < |pool| && Chain(pool, Link(pool[b]), xs)
    ensures Chain(pool, Some(b), [b] + xs)
  {
    assert ([b] + xs)[1..] == xs;
  }

  lemma TopDistinct(b: nat, xs: seq<nat>)
    requires NoDup(xs) && b !in xs
    ensures NoDup([b] + xs)
  {
  }

  lemma PatchNext(pool: Pool, before: Pool, after: Pool, xs: seq<nat>, k: nat, target: nat)
    requires k < |xs| && NoDup(xs) && Patched(pool, before, xs[..k], target)
    requires xs[k] < |pool| && after == before[xs[k] := SetLink(before[xs[k]], Some(target))]
    ensures Patched(pool, after, xs[..k + 1], target) && xs[k..][1..] == xs[k + 1..]
    ensures xs[k] !in xs[k + 1..]
  {
    assert xs[..k + 1] == xs[..k] + [xs[k]];
    assert xs[k] !in xs[..k];
  }

  /** `own` is exactly the blocks numbered from `lo` up to `hi`. */
  ghost predicate OwnsExactly(own: set<nat>, lo: nat, hi: nat) { forall x: nat :: x in own <==> lo <= x < hi }

  /** Linking blocks together does not change what they test. */
  ghost predicate SameTests(pool: Pool, pool': Pool) {
    |pool'| == |pool| && forall i | 0 <= i < |pool| :: pool'[i].stmts == pool[i].stmts && pool'[i].kind == pool[i].kind
  }

  ghost predicate TestOf(b: GBlock, c: Cond) { b.kind.KTest? && HasTest(c, b.stmts, b.kind.test) }

  /** The blocks from `lo` on make the tests of the condition, and no others. */
  ghost predicate TestsOf(pool: Pool, lo: nat, c: Cond) { forall i | lo <= i < |pool| :: TestOf(pool[i], c) }

  lemma OrSameTests(pool: Pool, pool': Pool, f0: Frag, f1: Frag)
    requires f0.top < |pool| && f1.top < |pool| == |pool'|
    requires Anded(FlipAt(FlipAt(pool, f0.top), f1.top), FlipAt(pool', f1.top), Swap(f0), Swap(f1))
    ensures SameTests(pool, pool')
  {
    var flipped, flipped' := FlipAt(FlipAt(pool, f0.top), f1.top), FlipAt(pool', f1.top);
    AndedSameTests(flipped, flipped', Swap(f0), Swap(f1));
    forall i | 0 <= i < |pool| ensures pool'[i].stmts == pool[i].stmts && pool'[i].kind == pool[i].kind {
      assert flipped'[i].stmts == flipped[i].stmts && flipped'[i].kind == flipped[i].kind;
    }
  }

  lemma AndedSameTests(pool: Pool, pool': Pool, f0: Frag, f1: Frag)
    requires Anded(pool, pool', f0, f1)
    ensures SameTests(pool, pool')
  {
    forall i | 0 <= i < |pool| ensures pool'[i].stmts == pool[i].stmts && pool'[i].kind == pool[i].kind {
      assert pool'[i] == AndBlock(pool, f0, f1, i);
    }
  }

  class Generator {
    var pool: Pool

    constructor ()
      ensures pool == []
    {
      pool := [];
    }

    /** A test on its own. */
    method NewTest(stmts: seq<Stmt>, test: Test) returns (b: nat, ghost fr: Frag)
      modifies this
      ensures b == |old(pool)| && |pool| == b + 1 && pool[..b] == old(pool)
      ensures fr.top == b && fr.own == {b} && Means(pool, fr, Check(stmts, test))
      ensures pool[b].stmts == stmts && pool[b].kind == KTest(test)
    {
      b := |pool|;
      pool := pool + [GBlock(stmts, KTest(test), None, None, false, b)];
      fr := Frag(b, [], [], {b}, map[b := 0], 1);
    }

    /** A return block on its own. */
    method NewRet(k: Word) returns (b: nat)
      modifies this
      ensures b == |old(pool)| && pool == old(pool) + [GBlock([], KRet(k), None, None, false, b)]
    {
      b := |pool|;
      pool := pool + [GBlock([], KRet(k), None, None, false, b)];
    }

    /** Resolve the links of an exit list to `target`. */
    method Backpatch(list: Option<nat>, target: nat, ghost xs: seq<nat>)
      requires Chain(pool, list, xs) && NoDup(xs)
      modifies this
      ensures Patched(old(pool), pool, xs, target)
    {
      var cur := list;
      ghost var k := 0;
      while cur.Some?
        invariant 0 <= k <= |xs| && Chain(pool, cur, xs[k..]) && Patched(old(pool), pool, xs[..k], target)
        decreases |xs| - k
      {
        var b := cur.value;
        var next := Link(pool[b]);
        ghost var before := pool;
        pool := pool[b := SetLink(pool[b], Some(target))];
        PatchNext(old(pool), before, pool, xs, k, target);
        ChainFrame(before, pool, next, xs[k + 1..]);
        k := k + 1;
        cur := next;
      }
      assert xs[..k] == xs;
    }

    /** Append the list of `b1` to the list of `b0`. */
    method Merge(b0: nat, b1: nat, ghost xs: seq<nat>)
      requires xs != [] && Chain(pool, Some(b0), xs)
      modifies this
      ensures xs[|xs| - 1] < |old(pool)|
      ensures pool == old(pool)[xs[|xs| - 1] := SetLink(old(pool)[xs[|xs| - 1]], Some(b1))]
    {
      var last := b0;
      ghost var todo := xs;
      while Link(pool[last]).Some?
        invariant pool == old(pool) && todo != [] && Chain(pool, Some(last), todo) && todo[|todo| - 1] == xs[|xs| - 1]
        decreases todo
      {
        last := Link(pool[last]).value;
        todo := todo[1..];
      }
      assert Chain(pool, Link(pool[last]), todo[1..]);
      assert todo == [last];
      pool := pool[last := SetLink(pool[last], Some(b1))];
    }

    method GenNot(b: nat, ghost fr: Frag, ghost c: Cond) returns (ghost fr': Frag)
      requires Means(pool, fr, c) && fr.top == b
      modifies this
      ensures fr'.top == b && fr'.own == fr.own && Means(pool, fr', Inv(c)) && SameTests(old(pool), pool)
      ensures |pool| == |old(pool)| && forall i | 0 <= i < |pool| && i !in fr.own :: pool[i] == old(pool)[i]
    {
      NotMeans(pool, fr, c);
      fr' := Swap(fr);
      assert b in fr.own;
      pool := pool[b := Flip(pool[b])];
    }

    /** The link surgery of gen_and. */
    method JoinForAnd(b0: nat, b1: nat, ghost f0: Frag, ghost f1: Frag)
      requires WellBuilt(pool, f0) && WellBuilt(pool, f1) && f0.own !! f1.own && f0.top == b0 && f1.top == b1
      modifies this
      ensures Anded(old(pool), pool, f0, f1)
    {
      ghost var xs, ys := [b0] + f0.ts, [b1] + f1.fs;
      TrueListReady(pool, f0);
      Backpatch(Some(b0), pool[b1].head, xs);
      ghost var patched := pool;
      pool := pool[b0 := Flip(pool[b0])];
      pool := pool[b1 := Flip(pool[b1])];
      AndFalseList(old(pool), patched, pool, f0, f1);
      Merge(b1, b0, ys);
      ghost var merged := pool;
      pool := pool[b1 := Flip(pool[b1])];
      pool := pool[b1 := pool[b1].(head := pool[b0].head)];
      JoinedForAnd(old(pool), patched, merged, pool, f0, f1);
    }

    method GenAnd(b0: nat, b1: nat, ghost f0: Frag, ghost f1: Frag, ghost c0: Cond, ghost c1: Cond)
      returns (ghost fr: Frag)
      requires Means(pool, f0, c0) && Means(pool, f1, c1) && f0.own !! f1.own && f0.top == b0 && f1.top == b1
      modifies this
      ensures fr.top == b1 && fr.own == f0.own + f1.own && Means(pool, fr, Conj(c0, c1)) && SameTests(old(pool), pool)
      ensures |pool| == |old(pool)| && forall i | 0 <= i < |pool| && i !in fr.own :: pool[i] == old(pool)[i]
    {
      JoinForAnd(b0, b1, f0, f1);
      fr := JoinedFrag(f0, f1);
      AndMeans(old(pool), pool, f0, f1, c0, c1);
      AndFrame(old(pool), pool, f0, f1);
      AndedSameTests(old(pool), pool, f0, f1);
    }

    /** The link surgery of gen_or. */
    method JoinForOr(b0: nat, b1: nat, ghost f0: Frag, ghost f1: Frag, ghost c0: Cond, ghost c1: Cond)
      requires Means(pool, f0, c0) && Means(pool, f1, c1) && f0.own !! f1.own && f0.top == b0 && f1.top == b1
      modifies this
      ensures |pool| == |old(pool)|
      ensures Anded(FlipAt(FlipAt(old(pool), b0), b1), FlipAt(pool, b1), Swap(f0), Swap(f1))
    {
      FalseListReady(pool, f0, c0);
      pool := pool[b0 := Flip(pool[b0])];
      Backpatch(Some(b0), pool[b1].head, [b0] + f0.fs);
      ghost var patched := pool;
      pool := pool[b0 := Flip(pool[b0])];
      OrTrueList(old(pool), patched, f0, f1, c0, c1);
      Merge(b1, b0, [b1] + f1.ts);
      ghost var merged := pool;
      pool := pool[b1 := pool[b1].(head := pool[b0].head)];
      JoinedForOr(old(pool), patched, merged, pool, f0, f1, c0, c1);
    }

    method GenOr(b0: nat, b1: nat, ghost f0: Frag, ghost f1: Frag, ghost c0: Cond, ghost c1: Cond)
      returns (ghost fr: Frag)
      requires Means(pool, f0, c0) && Means(pool, f1, c1) && f0.own !! f1.own && f0.top == b0 && f1.top == b1
      modifies this
      ensures fr.top == b1 && fr.own == f0.own + f1.own && Means(pool, fr, Disj(c0, c1)) && SameTests(old(pool), pool)
      ensures |pool| == |old(pool)| && forall i | 0 <= i < |pool| && i !in fr.own :: pool[i] == old(pool)[i]
    {
      JoinForOr(b0, b1, f0, f1, c0, c1);
      fr := Swap(JoinedFrag(Swap(f0), Swap(f1)));
      OrMeans(old(pool), pool, f0, f1, c0, c1);
      OrFrame(old(pool), pool, f0, f1, c0, c1);
      OrSameTests(old(pool), pool, f0, f1);
    }

    /** Build a whole condition out of new blocks. */
    method Compile(c: Cond) returns (b: nat, ghost fr: Frag)
      modifies this
      ensures |old(pool)| <= |pool| && pool[..|old(pool)|] == old(pool)
      ensures fr.top == b && OwnsExactly(fr.own, |old(pool)|, |pool|) && Means(pool, fr, c)
      ensures TestsOf(pool, |old(pool)|, c)
      decreases c, 1
    {
      match c
      case Check(ss, t) =>
        b, fr := NewTest(ss, t);
      case Inv(a) =>
        var b0, f0 := Compile(a);
        fr := GenNot(b0, f0, a);
        b := b0;
      case Conj(_, _) =>
        b, fr := CompileJoined(c);
      case Disj(_, _) =>
        b, fr := CompileJoined(c);
    }

    method CompileJoined(c: Cond) returns (b: nat, ghost fr: Frag)
      requires c.Conj? || c.Disj?
      modifies this
      ensures |old(pool)| <= |pool| && pool[..|old(pool)|] == old(pool)
      ensures fr.top == b && OwnsExactly(fr.own, |old(pool)|, |pool|) && Means(pool, fr, c)
      ensures TestsOf(pool, |old(pool)|, c)
      decreases c, 0, 1
    {
      var b0, b1, f0, f1 := CompileBoth(c);
      b := b1;
      if c.Conj? {
        fr := GenAnd(b0, b1, f0, f1, c.left, c.right);
      } else {
        fr := GenOr(b0, b1, f0, f1, c.left, c.right);
      }
    }

    method CompileBoth(c: Cond) returns (b0: nat, b1: nat, ghost f0: Frag, ghost f1: Frag)
      requires c.Conj? || c.Disj?
      modifies this
      ensures |old(pool)| <= |pool| && pool[..|old(pool)|] == old(pool)
      ensures f0.top == b0 && f1.top == b1 && f0.own !! f1.own && OwnsExactly(f0.own + f1.own, |old(pool)|, |pool|)
      ensures Means(pool, f0, c.left) && Means(pool, f1, c.right)
      ensures TestsOf(pool, |old(pool)|, c)
      decreases c, 0, 0
    {
      b0, f0 := Compile(c.left);
      ghost var middle := pool;
      b1, f1 := Compile(c.right);
      MeansFrame(middle, pool, f0, c.left);
      forall i | |old(pool)| <= i < |pool| ensures TestOf(pool[i], c) {
        if i < |middle| {
          assert pool[i] == middle[i] && TestOf(middle[i], c.left); } else { assert TestOf(pool[i], c.right);
        }
      }
    }
  }

  lemma TrueListReady(pool: Pool, fr: Frag)
    requires WellBuilt(pool, fr)
    ensures Chain(pool, Some(fr.top), [fr.top] + fr.ts) && NoDup([fr.top] + fr.ts)
  {
    assert BlockOk(pool, fr, fr.top);
    TopChain(pool, fr.top, fr.ts);
    TopDistinct(fr.top, fr.ts);
  }

  /** With its sense flipped, the last block of the right operand links to the false list. */
  lemma AndFalseList(pool: Pool, patched: Pool, flipped: Pool, f0: Frag, f1: Frag)
    requires WellBuilt(pool, f0) && WellBuilt(pool, f1) && f0.own !! f1.own
    requires f0.top < |pool| && f1.top < |pool| && Patched(pool, patched, [f0.top] + f0.ts, pool[f1.top].head)
    requires flipped == FlipAt(FlipAt(patched, f0.top), f1.top)
    ensures Chain(flipped, Some(f1.top), [f1.top] + f1.fs)
  {
    assert f1.top in f1.own && f1.top !in [f0.top] + f0.ts;
    assert Link(flipped[f1.top]) == Field(pool[f1.top], pool[f1.top].sense);
    forall x | x in f1.fs ensures x < |pool| && Link(flipped[x]) == Link(pool[x]) {
      assert BlockOk(pool, f1, x);
      assert x !in [f0.top] + f0.ts;
    }
    ChainFrame(pool, flipped, Field(pool[f1.top], pool[f1.top].sense), f1.fs);
    TopChain(flipped, f1.top, f1.fs);
  }

  lemma JoinedForAnd(pool: Pool, patched: Pool, merged: Pool, pool': Pool, f0: Frag, f1: Frag)
    requires WellBuilt(pool, f0) && WellBuilt(pool, f1) && f0.own !! f1.own
    requires f0.top < |pool| && f1.top < |pool| && Patched(pool, patched, [f0.top] + f0.ts, pool[f1.top].head)
    requires var flipped := FlipAt(FlipAt(patched, f0.top), f1.top);
             LastFalse(f1) < |pool| && merged == flipped[LastFalse(f1) := SetLink(flipped[LastFalse(f1)], Some(f0.top))]
    requires pool' == merged[f1.top := Flip(merged[f1.top]).(head := merged[f0.top].head)]
    ensures Anded(pool, pool', f0, f1)
  {
    assert f1.top in f1.own && f0.top in f0.own;
    assert LastFalse(f1) in f1.own by { assert f1.fs != [] ==> LastFalse(f1) in f1.fs; }
    assert pool[f0.top].head == merged[f0.top].head;
    forall i | 0 <= i < |pool| ensures pool'[i] == AndBlock(pool, f0, f1, i) {
      assert patched[i] == if i == f0.top || i in f0.ts then SetLink(pool[i], Some(pool[f1.top].head)) else pool[i];
    }
  }

  lemma OrFrame(pool: Pool, pool': Pool, f0: Frag, f1: Frag, c0: Cond, c1: Cond)
    requires Means(pool, f0, c0) && Means(pool, f1, c1) && f0.own !! f1.own
    requires f0.top < |pool| && f1.top < |pool| == |pool'|
    requires Anded(FlipAt(FlipAt(pool, f0.top), f1.top), FlipAt(pool', f1.top), Swap(f0), Swap(f1))
    ensures forall i | 0 <= i < |pool| && i !in f0.own + f1.own :: pool'[i] == pool[i]
  {
    var flipped, flipped' := FlipAt(FlipAt(pool, f0.top), f1.top), FlipAt(pool', f1.top);
    assert f0.top in f0.own && f1.top in f1.own;
    SwapBoth(pool, f0, f1, c0, c1);
    AndFrame(flipped, flipped', Swap(f0), Swap(f1));
    forall i | 0 <= i < |pool| && i !in f0.own + f1.own ensures pool'[i] == pool[i] {
      assert flipped'[i] == flipped[i];
    }
  }

  lemma OrPatched(pool: Pool, patched: Pool, f0: Frag, f1: Frag)
    requires WellBuilt(pool, f0) && WellBuilt(pool, f1) && f0.own !! f1.own && f0.top < |pool| && f1.top < |pool|
    requires Patched(FlipAt(pool, f0.top), patched, [f0.top] + f0.fs, pool[f1.top].head)
    ensures Patched(FlipAt(FlipAt(pool, f0.top), f1.top), FlipAt(patched, f1.top), [f0.top] + f0.fs, pool[f1.top].head)
  {
    assert f1.top in f1.own && f0.top in f0.own;
    assert f1.top !in [f0.top] + f0.fs;
  }

  lemma FalseListReady(pool: Pool, fr: Frag, c: Cond)
    requires Means(pool, fr, c) && fr.top < |pool|
    ensures Chain(FlipAt(pool, fr.top), Some(fr.top), [fr.top] + fr.fs) && NoDup([fr.top] + fr.fs)
  {
    NotMeans(pool, fr, c);
    TrueListReady(FlipAt(pool, fr.top), Swap(fr));
  }

  /** Seen with both senses flipped, gen_or has the operands of gen_and. */
  lemma OrSwapped(pool: Pool, patched: Pool, f0: Frag, f1: Frag, c0: Cond, c1: Cond)
    requires Means(pool, f0, c0) && Means(pool, f1, c1) && f0.own !! f1.own && f0.top < |pool| && f1.top < |pool|
    requires Patched(FlipAt(pool, f0.top), patched, [f0.top] + f0.fs, pool[f1.top].head)
    ensures WellBuilt(FlipAt(FlipAt(pool, f0.top), f1.top), Swap(f0))
    ensures WellBuilt(FlipAt(FlipAt(pool, f0.top), f1.top), Swap(f1))
    ensures Patched(FlipAt(FlipAt(pool, f0.top), f1.top), FlipAt(patched, f1.top), [f0.top] + f0.fs, pool[f1.top].head)
    ensures FlipAt(patched, f0.top) == FlipAt(FlipAt(FlipAt(patched, f1.top), f0.top), f1.top)
  {
    SwapBoth(pool, f0, f1, c0, c1);
    OrPatched(pool, patched, f0, f1);
  }

  lemma OrTrueList(pool: Pool, patched: Pool, f0: Frag, f1: Frag, c0: Cond, c1: Cond)
    requires Means(pool, f0, c0) && Means(pool, f1, c1) && f0.own !! f1.own && f0.top < |pool| && f1.top < |pool|
    requires Patched(FlipAt(pool, f0.top), patched, [f0.top] + f0.fs, pool[f1.top].head)
    ensures Chain(FlipAt(patched, f0.top), Some(f1.top), [f1.top] + f1.ts)
  {
    OrSwapped(pool, patched, f0, f1, c0, c1);
    var patched' := FlipAt(patched, f1.top);
    AndFalseList(FlipAt(FlipAt(pool, f0.top), f1.top), patched', FlipAt(patched, f0.top), Swap(f0), Swap(f1));
  }

  lemma JoinedForOr(pool: Pool, patched: Pool, merged: Pool, pool': Pool, f0: Frag, f1: Frag, c0: Cond, c1: Cond)
    requires Means(pool, f0, c0) && Means(pool, f1, c1) && f0.own !! f1.own && f0.top < |pool| && f1.top < |pool|
    requires Patched(FlipAt(pool, f0.top), patched, [f0.top] + f0.fs, pool[f1.top].head)
    requires var flipped, last := FlipAt(patched, f0.top), LastFalse(Swap(f1));
             last < |pool| && merged == flipped[last := SetLink(flipped[last], Some(f0.top))]
    requires pool' == merged[f1.top := merged[f1.top].(head := merged[f0.top].head)]
    ensures Anded(FlipAt(FlipAt(pool, f0.top), f1.top), FlipAt(pool', f1.top), Swap(f0), Swap(f1))
  {
    OrSwapped(pool, patched, f0, f1, c0, c1);
    var patched' := FlipAt(patched, f1.top);
    JoinedForAnd(FlipAt(FlipAt(pool, f0.top), f1.top), patched', merged, FlipAt(pool', f1.top), Swap(f0), Swap(f1));
  }

  lemma AndFrame(pool: Pool, pool': Pool, f0: Frag, f1: Frag)
    requires WellBuilt(pool, f0) && WellBuilt(pool, f1) && Anded(pool, pool', f0, f1)
    ensures forall i | 0 <= i < |pool| && i !in f0.own + f1.own :: pool'[i] == pool[i]
  {
    forall i | 0 <= i < |pool| && i !in f0.own + f1.own ensures pool'[i] == pool[i] {
      assert pool'[i] == AndBlock(pool, f0, f1, i);
    }
  }
}
