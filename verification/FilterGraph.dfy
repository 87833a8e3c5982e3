/** Finishing a condition into a filter graph (finish_parse, gen_retblk). */
module FilterGraph {
  import opened Machine
  import opened Graph
  import opened Composition
  import opened Backpatching
  import opened Liveness

  /** What the filter answers: the snapshot length if the condition holds, otherwise 0. */
  ghost function Answer(v: Verdict, snaplen: Word): Outcome {
    if v.Faulted? then Fault else if v.holds then Return(snaplen) else Return(0)
  }

  function RetBlock(k: Word, b: nat): GBlock { GBlock([], KRet(k), None, None, false, b) }

  /** The finished form of a block: its open exits lead to the return blocks `n` and `n + 1`. */
  ghost function FinishBlock(pool: Pool, fr: Frag, x: nat, n: nat): GBlock
    requires x < |pool|
  {
    var b := pool[x];
    if x == fr.top then Flip(SetField(SetLink(b, Some(n)), b.sense, Some(n + 1)))
    else if x in fr.ts then SetLink(b, Some(n))
    else if x in fr.fs then SetLink(b, Some(n + 1))
    else b
  }

  ghost predicate ParseFinished(pool: Pool, pool': Pool, fr: Frag, snaplen: Word) {
    && |pool'| == |pool| + 2
    && (forall i | 0 <= i < |pool| :: pool'[i] == FinishBlock(pool, fr, i, |pool|))
    && pool'[|pool|] == RetBlock(snaplen, |pool|) && pool'[|pool| + 1] == RetBlock(0, |pool| + 1)
  }

  /** The first half: true exits resolved, sense flipped, second return block added. */
  ghost predicate HalfFinished(pool: Pool, pool': Pool, fr: Frag, snaplen: Word) {
    && fr.top < |pool| && |pool'| == |pool| + 2
    && (forall i | 0 <= i < |pool| ::
          pool'[i] == if i == fr.top then Flip(SetLink(pool[i], Some(|pool|)))
                      else if i in fr.ts then SetLink(pool[i], Some(|pool|)) else pool[i])
    && pool'[|pool|] == RetBlock(snaplen, |pool|) && pool'[|pool| + 1] == RetBlock(0, |pool| + 1)
  }

  lemma TrueListExtended(pool: Pool, b: GBlock, fr: Frag)
    requires WellBuilt(pool, fr)
    ensures Chain(pool + [b], Some(fr.top), [fr.top] + fr.ts) && NoDup([fr.top] + fr.ts)
  {
    TrueListReady(pool, fr);
    ChainFrame(pool, pool + [b], Some(fr.top), [fr.top] + fr.ts);
  }

  lemma HalfReady(pool: Pool, patched: Pool, half: Pool, fr: Frag, snaplen: Word)
    requires WellBuilt(pool, fr) && Patched(pool + [RetBlock(snaplen, |pool|)], patched, [fr.top] + fr.ts, |pool|)
    requires fr.top < |pool| && half == FlipAt(patched, fr.top) + [RetBlock(0, |pool| + 1)]
    ensures HalfFinished(pool, half, fr, snaplen)
  {
    forall x | x in fr.ts ensures x < |pool| { assert BlockOk(pool, fr, x); }
    assert |pool| !in [fr.top] + fr.ts;
    forall i | 0 <= i < |pool|
      ensures patched[i] == if i == fr.top || i in fr.ts then SetLink(pool[i], Some(|pool|)) else pool[i]
    {
    }
  }

  lemma FalseListLeft(pool: Pool, pool': Pool, fr: Frag, snaplen: Word)
    requires WellBuilt(pool, fr) && HalfFinished(pool, pool', fr, snaplen)
    ensures Chain(pool', Some(fr.top), [fr.top] + fr.fs) && NoDup([fr.top] + fr.fs)
  {
    forall x | x in fr.fs ensures x < |pool| && Link(pool'[x]) == Link(pool[x]) { assert BlockOk(pool, fr, x); }
    ChainFrame(pool, pool', Field(pool[fr.top], pool[fr.top].sense), fr.fs);
    TopChain(pool', fr.top, fr.fs);
    TopDistinct(fr.top, fr.fs);
  }

  lemma HalfThenFinished(pool: Pool, half: Pool, pool': Pool, fr: Frag, snaplen: Word)
    requires WellBuilt(pool, fr) && HalfFinished(pool, half, fr, snaplen)
    requires Patched(half, pool', [fr.top] + fr.fs, |pool| + 1)
    ensures ParseFinished(pool, pool', fr, snaplen)
  {
    forall x | x in fr.fs ensures x < |pool| { assert BlockOk(pool, fr, x); }
    forall i | 0 <= i < |pool'|
      ensures pool'[i] == if i == fr.top || i in fr.fs then SetLink(half[i], Some(|pool| + 1)) else half[i]
    {
    }
  }

  /** The finished pool as a graph; a block still open would be a return of 0, and none is. */
  function ToGraph(pool: Pool): Graph {
    seq(|pool|, i requires 0 <= i < |pool| => ToBlock(pool[i]))
  }

  function ToBlock(b: GBlock): Block {
    match b.kind
    case KRet(k) => Block(b.stmts, Ret(k))
    case KTest(t) =>
      if b.jt.Some? && b.jf.Some? then Block(b.stmts, Br(t, b.jt.value, b.jf.value)) else Block(b.stmts, Ret(0))
  }

  ghost function Levels(fr: Frag, n: nat): seq<nat> {
    seq(n + 2, i requires 0 <= i < n + 2 => if i < n && i in fr.rank then fr.rank[i] + 1 else 0)
  }

  /** Where each branch of a finished block leads. */
  lemma FinishedBranch(pool: Pool, pool': Pool, fr: Frag, snaplen: Word, x: nat, d: bool)
    requires WellBuilt(pool, fr) && OwnsExactly(fr.own, 0, |pool|) && ParseFinished(pool, pool', fr, snaplen)
    requires x < |pool|
    ensures x in fr.rank && pool[x].kind.KTest? && pool'[x].stmts == pool[x].stmts && pool'[x].kind == pool[x].kind
    ensures var e := Exit(pool, fr, x, d);
            Field(pool'[x], d) == if e.None? then Field(pool[x], d) else if e.value then Some(|pool|)
              else Some(|pool| + 1)
    ensures Exit(pool, fr, x, d).None? ==> Resolved(pool, fr, x, d)
  {
    assert x in fr.own;
    assert BlockOk(pool, fr, x);
    assert pool'[x] == FinishBlock(pool, fr, x, |pool|);
  }

  lemma ParseLevelled(pool: Pool, pool': Pool, fr: Frag, snaplen: Word)
    requires WellBuilt(pool, fr) && OwnsExactly(fr.own, 0, |pool|) && ParseFinished(pool, pool', fr, snaplen)
    ensures Levelled(ToGraph(pool'), Levels(fr, |pool|))
    ensures forall x | 0 <= x < |pool| :: ToGraph(pool')[x].term.Br?
  {
    var g, lv := ToGraph(pool'), Levels(fr, |pool|);
    forall x | 0 <= x < |pool| ensures x in fr.rank && g[x].term.Br? {
      assert x in fr.own;
      assert BlockOk(pool, fr, x);
      FinishedBranch(pool, pool', fr, snaplen, x, true);
      FinishedBranch(pool, pool', fr, snaplen, x, false);
    }
    forall x, d | 0 <= x < |g| && g[x].term.Br? ensures EdgeDown(g, lv, x, d) {
      FinishedBranch(pool, pool', fr, snaplen, x, d);
    }
  }

  lemma {:induction false} FinishedRun(pool: Pool, pool': Pool, fr: Frag, snaplen: Word, x: nat, p: Packet, r: Regs)
    requires WellBuilt(pool, fr) && OwnsExactly(fr.own, 0, |pool|) && ParseFinished(pool, pool', fr, snaplen)
    requires x in fr.own && Levelled(ToGraph(pool'), Levels(fr, |pool|))
    ensures Run(ToGraph(pool'), Levels(fr, |pool|), x, p, r) == Answer(RunFrag(pool, fr, x, p, r), snaplen)
    decreases if x in fr.rank then fr.rank[x] else 0
  {
    var g, lv := ToGraph(pool'), Levels(fr, |pool|);
    assert BlockOk(pool, fr, x);
    FinishedBranch(pool, pool', fr, snaplen, x, true);
    FinishedBranch(pool, pool', fr, snaplen, x, false);
    var q := ExecAll(pool[x].stmts, p, r);
    if q.Some? {
      var d := Holds(pool[x].kind.test, q.value);
      assert EdgeDown(g, lv, x, d);
      var e := Exit(pool, fr, x, d);
      if e.None? {
        assert Resolved(pool, fr, x, d);
        FinishedRun(pool, pool', fr, snaplen, Field(pool[x], d).value, p, q.value);
      } else {
        ReturnRun(g, lv, Succ(g[x], d), p, q.value);
      }
    }
  }

  lemma ReturnRun(g: Graph, lv: seq<nat>, b: nat, p: Packet, r: Regs)
    requires Levelled(g, lv) && b < |g| && g[b].term.Ret? && g[b].stmts == []
    ensures Run(g, lv, b, p, r) == Return(g[b].term.k)
  {
  }

  /** Every block of the graph makes a test of the condition, or is a mere return. */
  ghost predicate MadeFrom(g: Graph, c: Cond) {
    forall x | 0 <= x < |g| :: if g[x].term.Ret? then g[x].stmts == [] else HasTest(c, g[x].stmts, g[x].term.test)
  }

  lemma FinishedTests(pool: Pool, pool': Pool, fr: Frag, snaplen: Word, c: Cond)
    requires ParseFinished(pool, pool', fr, snaplen) && TestsOf(pool, 0, c)
    requires forall x | 0 <= x < |pool| :: ToGraph(pool')[x].term.Br?
    ensures MadeFrom(ToGraph(pool'), c)
  {
    var g := ToGraph(pool');
    forall x | 0 <= x < |g|
      ensures if g[x].term.Ret? then g[x].stmts == [] else HasTest(c, g[x].stmts, g[x].term.test)
    {
      if x < |pool| {
        assert TestOf(pool[x], c);
        assert pool'[x] == FinishBlock(pool, fr, x, |pool|);
      }
    }
  }

  /** A graph made from tests that compute what they read has proper blocks. */
  lemma MadeProper(g: Graph, c: Cond)
    requires MadeFrom(g, c) && Closed(c)
    ensures AllProper(g)
  {
    forall x | 0 <= x < |g| ensures Proper(g[x]) {
      if g[x].term.Br? {
        ClosedTests(c, g[x].stmts, g[x].term.test);
        ClosedAnyTarget(g[x].stmts, g[x].term.test, g[x].term);
      }
    }
  }

  lemma ClosedAnyTarget(ss: seq<Stmt>, t: Test, term: Term)
    requires ClosedTest(ss, t) && term.Br? && term.test == t
    ensures Proper(Block(ss, term))
  {
    assert TermUse(term) == TermUse(Br(t, 0, 0));
  }

  /** Resolve the true exits to a return of `snaplen`, the false exits to a return of 0. */
  method FinishParse(gen: Generator, b: nat, snaplen: Word, ghost fr: Frag, ghost c: Cond)
    returns (g: Graph, root: nat, ghost lv: seq<nat>)
    requires Means(gen.pool, fr, c) && fr.top == b && OwnsExactly(fr.own, 0, |gen.pool|)
    modifies gen
    ensures Levelled(g, lv) && root < |g|
    ensures forall p, r :: Run(g, lv, root, p, r) == Answer(Eval(c, p, r), snaplen)
    ensures old(TestsOf(gen.pool, 0, c)) ==> MadeFrom(g, c)
  {
    ghost var pool := gen.pool;
    Resolve(gen, b, snaplen, fr);
    g, root, lv := ToGraph(gen.pool), gen.pool[b].head, Levels(fr, |pool|);
    ParseLevelled(pool, gen.pool, fr, snaplen);
    if TestsOf(pool, 0, c) { FinishedTests(pool, gen.pool, fr, snaplen, c); }
    assert gen.pool[b] == FinishBlock(pool, fr, b, |pool|);
    forall p, r ensures Run(g, lv, root, p, r) == Answer(Eval(c, p, r), snaplen) {
      FinishedRun(pool, gen.pool, fr, snaplen, root, p, r);
    }
  }

  method Resolve(gen: Generator, b: nat, snaplen: Word, ghost fr: Frag)
    requires WellBuilt(gen.pool, fr) && fr.top == b
    modifies gen
    ensures ParseFinished(old(gen.pool), gen.pool, fr, snaplen)
  {
    ghost var pool := gen.pool;
    var yes := gen.NewRet(snaplen);
    TrueListExtended(pool, RetBlock(snaplen, yes), fr);
    gen.Backpatch(Some(b), yes, [b] + fr.ts);
    ghost var patched := gen.pool;
    gen.pool := gen.pool[b := Flip(gen.pool[b])];
    var no := gen.NewRet(0);
    ghost var half := gen.pool;
    HalfReady(pool, patched, half, fr, snaplen);
    FalseListLeft(pool, half, fr, snaplen);
    gen.Backpatch(Some(b), no, [b] + fr.fs);
    HalfThenFinished(pool, half, gen.pool, fr, snaplen);
  }

  /** From an expression to a graph: the filter answers as the short-circuit evaluation does. */
  method CompileFilter(c: Cond, snaplen: Word) returns (g: Graph, root: nat, ghost lv: seq<nat>)
    ensures Levelled(g, lv) && root < |g|
    ensures forall p, r :: Run(g, lv, root, p, r) == Answer(Eval(c, p, r), snaplen)
    ensures MadeFrom(g, c)
  {
    var gen := new Generator();
    var b, fr := gen.Compile(c);
    g, root, lv := FinishParse(gen, b, snaplen, fr, c);
  }
}
