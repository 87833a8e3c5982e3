/** Any number of rounds over the branches: what one round needs of a filter holds again after it (opt_loop). */
module Rounds {
  import opened Machine
  import opened Graph
  import opened Levels
  import opened Liveness
  import opened Dominance
  import opened DeadStores
  import opened ValueTable
  import opened Numbering
  import opened NumberingPass
  import opened Threading
  import opened Peephole
  import opened BlockPass
  import opened BranchPass
  import opened Optimizer

  // The index of an access is not used again

  /** X is not read between an indexed access and the next statement that sets it, nor by the block's own test. */
  ghost predicate Local(b: Block) { NoLocalUse(b.stmts, TermUse(b.term)) }

  /** After an indexed access the rewritten list reads no atom first that the list did not. */
  ghost predicate LessAfterAccess(ss: seq<Stmt>, ss': seq<Stmt>) {
    |ss'| == |ss| &&
    forall i | 0 <= i < |ss| && ss'[i].LdInd? :: ss[i].LdInd? && ReadsLess(ss[i + 1..], ss'[i + 1..])
  }

  lemma LessTrans(ss: seq<Stmt>, ss1: seq<Stmt>, ss2: seq<Stmt>)
    requires LessAfterAccess(ss, ss1) && LessAfterAccess(ss1, ss2)
    ensures LessAfterAccess(ss, ss2)
  {
    forall i | 0 <= i < |ss| && ss2[i].LdInd? ensures ss[i].LdInd? && ReadsLess(ss[i + 1..], ss2[i + 1..]) {
      ReadsTrans(ss[i + 1..], ss1[i + 1..], ss2[i + 1..]);
    }
  }

  /** A rewriting of statements `s` to `hi` that has no access but at its end. */
  lemma LessByRule(ss: seq<Stmt>, ss': seq<Stmt>, s: nat, hi: nat)
    requires s <= hi < |ss| == |ss'| && (forall j | 0 <= j < s || hi < j < |ss| :: ss'[j] == ss[j])
    requires ReadsLess(ss[s..], ss'[s..])
    requires (forall j | s <= j < hi :: !ss'[j].LdInd?) && (ss'[hi].LdInd? ==> ss[hi].LdInd?)
    ensures LessAfterAccess(ss, ss')
  {
    forall i | 0 <= i < |ss| && ss'[i].LdInd? ensures ss[i].LdInd? && ReadsLess(ss[i + 1..], ss'[i + 1..]) {
      if i < s { ReadsWiden(ss, ss', s, i + 1); } else { assert ss'[i + 1..] == ss[i + 1..]; }
    }
  }

  lemma PairLess(ss: seq<Stmt>, s: nat, next: nat, xUsed: bool)
    requires Adjacent(ss, s, next)
    ensures LessAfterAccess(ss, PeepPair(ss, s, next, xUsed))
  {
    var ss' := PeepPair(ss, s, next, xUsed);
    if ss[s].St? && ss[next].LdxMem? && ss[s].m == ss[next].m {
      StoreLoadReads(ss, s, next);
      LessByRule(ss, ss', s, next);
    } else if ss[s].LdImm? && ss[next] == Tax {
      ImmTaxReads(ss, s, next);
      LessByRule(ss, ss', s, next);
    } else if ss[s].LdImm? && !xUsed && GroupAt(ss, s, next).Some? {
      var (add, tax, ild) := GroupAt(ss, s, next).value;
      GroupReads(ss, s, next, add, tax, ild);
      GroupedBetween(ss, ss', s, next, add, tax, ild);
      LessByRule(ss, ss', s, ild);
    }
  }

  lemma GroupedBetween(ss: seq<Stmt>, ss': seq<Stmt>, s: nat, next: nat, add: nat, tax: nat, ild: nat)
    requires Group(ss, s, next, add, tax, ild) && ss' == Grouped(ss, s, add, tax, ild)
    ensures s < ild && (forall j | 0 <= j < s || ild < j < |ss| :: ss'[j] == ss[j])
    ensures forall j | s <= j < ild :: !ss'[j].LdInd?
  {
    assert s < next <= add < tax < ild;
    forall j | s <= j < ild ensures !ss'[j].LdInd? { assert ss[j].Nop? || j == s || j == next || j == add || j == tax; }
  }

  lemma {:induction false} PeepLess(ss: seq<Stmt>, s: nat, xUsed: bool)
    requires s < |ss|
    ensures LessAfterAccess(ss, PeepFrom(ss, s, xUsed).0)
    decreases |ss| - s
  {
    var at := NextReal(ss, s);
    if at < |ss| && NextReal(ss, at + 1) < |ss| {
      var next := NextReal(ss, at + 1);
      PairLess(ss, at, next, xUsed);
      PeepLess(PeepPair(ss, at, next, xUsed), next, xUsed);
      LessTrans(ss, PeepPair(ss, at, next, xUsed), PeepFrom(PeepPair(ss, at, next, xUsed), next, xUsed).0);
    }
  }

  /** Merging arithmetic into the test, for the statements after an access. */
  lemma MergeLess(ss: seq<Stmt>, last: nat, t: Term, t': Term, i: nat)
    requires last < |ss| && NopsBetween(ss, last + 1, |ss|) && t.Br? && t.test.JmpK? && IsAlu(ss[last])
    requires t'.Br? && (t'.test.JmpX? ==> ss[last].AluX?) && i <= last
    ensures LiveIn(ss[last := Nop][i..], TermUse(t')) <= LiveIn(ss[i..], TermUse(t))
  {
    MergeReads(ss[i..], last - i, t, t');
    assert ss[last := Nop][i..] == ss[i..][last - i := Nop];
    assert TermUse(t') + {} == TermUse(t') && TermUse(t) + {} == TermUse(t);
    assert LiveIn(ss[i..][last - i := Nop], TermUse(t') + {}) <= LiveIn(ss[i..], TermUse(t) + {});
  }

  lemma LessLocal(ss: seq<Stmt>, ss': seq<Stmt>, live: set<Atom>)
    requires LessAfterAccess(ss, ss') && NoLocalUse(ss, live)
    ensures NoLocalUse(ss', live)
  {
    forall i | 0 <= i < |ss'| && ss'[i].LdInd? ensures X_ATOM !in LiveIn(ss'[i + 1..], live) {
      assert ReadsLess(ss[i + 1..], ss'[i + 1..]);
      assert LiveIn(ss'[i + 1..], live) <= LiveIn(ss[i + 1..], live);
    }
  }

  lemma MergeLocal(ss: seq<Stmt>, last: nat, t: Term, constX: Option<Word>)
    requires t.Br? && LastOk(ss, last) && NoLocalUse(ss, TermUse(t))
    ensures NoLocalUse(MergedList(ss, last, t, false, constX), TermUse(MergedTerm(t, AluOnly(ss[last]), false, constX)))
  {
    var ss', t' := MergedList(ss, last, t, false, constX), MergedTerm(t, AluOnly(ss[last]), false, constX);
    if Merging(t, ss[last], false, constX) {
      forall i | 0 <= i < |ss'| && ss'[i].LdInd? ensures X_ATOM !in LiveIn(ss'[i + 1..], TermUse(t')) {
        MergeLess(ss, last, t, t', i + 1);
      }
    }
  }

  lemma LocalShrinks(ss: seq<Stmt>, live: set<Atom>, less: set<Atom>)
    requires NoLocalUse(ss, live) && less <= live
    ensures NoLocalUse(ss, less)
  {
    forall i | 0 <= i < |ss| && ss[i].LdInd? ensures X_ATOM !in LiveIn(ss[i + 1..], less) {
      LiveInGrows(ss[i + 1..], less, live);
    }
  }

  lemma PeepedLocal(b: Block, constX: Option<Word>, constA: Option<Word>)
    requires b.term.Br? && Local(b)
    ensures Local(PeepedBlock(b, {}, constX, constA))
  {
    if b.stmts != [] {
      var b' := PeepedBlock(b, {}, constX, constA);
      var (ss, last) := PeepFrom(b.stmts, 0, false);
      PeepLess(b.stmts, 0, false);
      LessLocal(b.stmts, ss, TermUse(b.term));
      PeepListRight(b.stmts, false, {});
      MergeLocal(ss, last, b.term, constX);
      var t := MergedTerm(b.term, AluOnly(ss[last]), false, constX);
      FoldedTest(t, constX, constA);
      LocalShrinks(b'.stmts, TermUse(t), TermUse(b'.term));
    }
  }

  lemma SweptFurther(ss: seq<Stmt>, ss': seq<Stmt>, live: set<Atom>, k: nat)
    requires Swept(ss, ss', live) && k <= |ss|
    ensures Swept(ss[k..], ss'[k..], live)
  {
    forall j | 0 <= j < |ss| - k ensures ss'[k..][j] == if Dead(ss[k..], j, live) then Nop else ss[k..][j] {
      assert ss[k..][j + 1..] == ss[k + j + 1..];
      assert ss'[k + j] == if Dead(ss, k + j, live) then Nop else ss[k + j];
    }
  }

  /** The block without its dead statements, if nothing is used after it. */
  ghost function Cleaned(b: Block): Block { Block(SweptList(b.stmts, TermUse(b.term) + {}), b.term) }

  lemma RestCleans(b: Block, constX: Option<Word>, constA: Option<Word>)
    requires b.term.Br?
    ensures Rest(b, {}, constX, constA) == Cleaned(PeepedBlock(b, {}, constX, constA))
  {
  }

  lemma CleanedLocal(b: Block)
    requires Local(b)
    ensures Local(Cleaned(b))
  {
    var ss, live := Cleaned(b).stmts, TermUse(b.term);
    assert live + {} == live;
    forall i | 0 <= i < |ss| && ss[i].LdInd? ensures X_ATOM !in LiveIn(ss[i + 1..], live) {
      SweptFurther(b.stmts, ss, live, i + 1);
      SweptReads(b.stmts[i + 1..], ss[i + 1..], live, live);
    }
  }

  lemma RestLocal(b: Block, constX: Option<Word>, constA: Option<Word>)
    requires b.term.Br? && Local(b)
    ensures Local(Rest(b, {}, constX, constA))
  {
    PeepedLocal(b, constX, constA);
    CleanedLocal(PeepedBlock(b, {}, constX, constA));
    RestCleans(b, constX, constA);
  }

  // Which is what the peephole rules ask for

  lemma {:induction false} ReadUnset(ss: seq<Stmt>, j: nat, live: set<Atom>, a: Atom)
    requires j < |ss| && a in AtomUse(ss[j]) && a !in DefsAll(ss)
    ensures a in LiveIn(ss, live)
  {
    if j > 0 { ReadUnset(ss[1..], j - 1, live, a); }
  }

  /** A list that does not read X first does not do so if more is read after it, unless X is and the list leaves it. */
  lemma StillUnread(ss: seq<Stmt>, live: set<Atom>, keep: set<Atom>, j: nat)
    requires X_ATOM !in LiveIn(ss, live) && (X_ATOM in keep - live ==> j < |ss| && ss[j] == AluX(Sub))
    ensures X_ATOM !in LiveIn(ss, keep)
  {
    LiveInGrows(ss, keep, live + keep);
    if X_ATOM in LiveIn(ss, live + keep) {
      PassesThrough(ss, live, keep, X_ATOM);
      LiveOrDefined(ss, live);
      ReadUnset(ss, j, live, X_ATOM);
    }
  }

  lemma LocalSafe(b: Block)
    requires b.term.Br? && Local(b)
    ensures SafeX(b, {})
  {
    var ss, live, keep := b.stmts, TermUse(b.term), Kept(b, {});
    var j: nat := 0;
    if EndsInSubX(ss) { j :| LastReal(ss, j) && ss[j] == AluX(Sub); }
    forall i | 0 <= i < |ss| && ss[i].LdInd? ensures X_ATOM !in LiveIn(ss[i + 1..], keep) {
      assert X_ATOM in keep - live ==> i < j && ss[i + 1..][j - i - 1] == AluX(Sub);
      StillUnread(ss[i + 1..], live, keep, if i < j then j - i - 1 else 0);
    }
  }

  // How blocks end

  predicate IsMask(s: Stmt) { s.AluK? && s.op == And }

  /** A test as the code generator makes it: bits are tested with a constant that is not all ones; a comparison for
      equality is with a constant, of something that the last statement loads or computes. That is no mask compared with
      0, and a subtraction only from a scratch register, of a constant or, compared with 0, of X. */
  ghost predicate PlainTest(ss: seq<Stmt>, t: Test) {
    && (t.op == Jset ==> t.JmpK? && t.k != MAX_WORD)
    && (t.op == Jeq ==>
          && t.JmpK? && ss != [] && Makes(ss[|ss| - 1]) && (IsMask(ss[|ss| - 1]) ==> t.k != 0)
          && (IsSub(ss[|ss| - 1]) ==> |ss| >= 2 && ss[|ss| - 2].LdMem? && (ss[|ss| - 1] == AluX(Sub) ==> t.k == 0)))
  }

  /** A test with which nothing can be merged: before a comparison for equality the accumulator is set, not by a
      subtraction, and by a mask only if the comparison is with a constant other than 0. */
  ghost predicate MergedTest(ss: seq<Stmt>, t: Test) {
    && (t.op == Jset ==> t.JmpK? && t.k != MAX_WORD)
    && (t.op == Jeq ==> exists i: nat :: LastReal(ss, i) && SetsPlainly(ss[i], t))
  }

  ghost predicate SetsPlainly(s: Stmt, t: Test) {
    AtomDef(s) == Some(A_ATOM) && !IsSub(s) && (IsMask(s) ==> t.JmpK? && t.k != 0)
  }

  ghost predicate Plain(b: Block) { b.term.Br? ==> Local(b) && PlainTest(b.stmts, b.term.test) }

  ghost predicate FullyMerged(b: Block) { b.term.Br? ==> Local(b) && MergedTest(b.stmts, b.term.test) }

  lemma OneLast(ss: seq<Stmt>, i: nat, j: nat)
    requires LastReal(ss, i) && LastReal(ss, j)
    ensures i == j
  {
  }

  lemma NothingFolds(b: Block)
    requires b.term.Br? ==> MergedTest(b.stmts, b.term.test)
    ensures !FoldsMask(b) && !FoldsSub(b) && (b.term.Br? ==> !AllOnes(b, {}))
  {
    if TestsEqual(b) {
      var i: nat :| LastReal(b.stmts, i) && SetsPlainly(b.stmts[i], b.term.test);
      forall j: nat | EndsIn(b.stmts, j) ensures j == i { OneLast(b.stmts, i, j); }
    }
  }

  /** With a merged test nothing goes wrong in a round over the branches. */
  lemma FullyMergedSafe(b: Block)
    requires FullyMerged(b)
    ensures SafeEnd(b) && !FoldsMask(b) && !FoldsSub(b)
  {
    NothingFolds(b);
    if b.term.Br? { LocalSafe(b); }
  }

  lemma PlainFoldsNoMask(b: Block)
    requires b.term.Br? && PlainTest(b.stmts, b.term.test)
    ensures !FoldsMask(b) && EndsPlainly(b) && !AllOnes(b, {})
  {
    if TestsEqual(b) {
      assert LastReal(b.stmts, |b.stmts| - 1);
      forall j: nat | EndsIn(b.stmts, j) ensures j == |b.stmts| - 1 { OneLast(b.stmts, |b.stmts| - 1, j); }
    }
  }

  lemma PlainSafe(b: Block)
    requires Plain(b)
    ensures SafeEnd(b) && !FoldsMask(b) && EndsPlainly(b)
  {
    if b.term.Br? {
      PlainFoldsNoMask(b);
      LocalSafe(b);
    }
  }

  /** The last statement of a rewritten list. */
  lemma LastStill(ss: seq<Stmt>, ss': seq<Stmt>, i: nat)
    requires Tame(ss, ss') && LastReal(ss, i)
    ensures LastReal(ss', i) && LastAlike(ss[i], ss'[i])
  {
    forall k | i < k < |ss'| ensures ss'[k].Nop? { assert TameAt(ss[k], ss'[k]); }
  }

  /** A statement that sets what the test reads is not dead if none follows. */
  lemma LastLive(ss: seq<Stmt>, ss': seq<Stmt>, live: set<Atom>, i: nat)
    requires Swept(ss, ss', live) && LastReal(ss, i) && AtomDef(ss[i]).Some? && AtomDef(ss[i]).value in live
    ensures LastReal(ss', i) && ss'[i] == ss[i]
  {
    LiveSkip(ss, i + 1, |ss|, live);
    assert ss[|ss|..] == [];
    forall k | i < k < |ss'| ensures ss'[k].Nop? { assert ss'[k] == if Dead(ss, k, live) then Nop else ss[k]; }
    assert ss'[i] == if Dead(ss, i, live) then Nop else ss[i];
  }

  /** So a merged test is still one after the removal of dead stores. */
  lemma CleanedMerged(b: Block, i: nat)
    requires b.term.Br? && Local(b) && (b.term.test.op == Jset ==> b.term.test.JmpK? && b.term.test.k != MAX_WORD)
    requires b.term.test.op == Jeq ==> LastReal(b.stmts, i) && SetsPlainly(b.stmts[i], b.term.test)
    ensures FullyMerged(Cleaned(b))
  {
    CleanedLocal(b);
    if b.term.test.op == Jeq { LastLive(b.stmts, Cleaned(b).stmts, TermUse(b.term) + {}, i); }
  }

  lemma FoldedTest(t: Term, constX: Option<Word>, constA: Option<Word>)
    requires t.Br?
    ensures FoldA(FoldX(FoldJset(t), constX), constA).test == FoldX(t, constX).test
  {
  }

  /** Where there is nothing to merge, the peephole rules leave the test as it is, but for a known X. */
  lemma NothingMerged(b: Block, constX: Option<Word>, constA: Option<Word>)
    requires b.term.Br? && MergedTest(b.stmts, b.term.test) && b.stmts != []
    ensures var b', ss := PeepedBlock(b, {}, constX, constA), PeepFrom(b.stmts, 0, false).0;
            b'.stmts == ss && Tame(b.stmts, ss) && b'.term.test == FoldX(b.term, constX).test
  {
    var (ss, last) := PeepFrom(b.stmts, 0, false);
    PeepListRight(b.stmts, false, {});
    ClosingIn(b, {});
    NothingFolds(b);
    Unmergeable(b.term, Closing(b.stmts), ss[last], constX);
    FoldedTest(b.term, constX, constA);
  }

  lemma Unmergeable(t: Term, closing: Option<Stmt>, s: Stmt, constX: Option<Word>)
    requires t.Br? && closing == AluOnly(s)
    requires t.test.JmpK? && t.test.op == Jeq && closing.Some? ==> !IsSub(s) && (t.test.k == 0 ==> !IsMask(s))
    ensures !Merging(t, s, false, constX) && MergedTerm(t, AluOnly(s), false, constX) == t
  {
  }

  /** A test with nothing to merge stays one. */
  lemma MergedStays(b: Block, constX: Option<Word>, constA: Option<Word>)
    requires b.term.Br? && FullyMerged(b)
    ensures FullyMerged(Rest(b, {}, constX, constA))
  {
    PeepedLocal(b, constX, constA);
    RestCleans(b, constX, constA);
    var b2 := PeepedBlock(b, {}, constX, constA);
    var i: nat := 0;
    if TestsEqual(b) {
      i :| LastReal(b.stmts, i) && SetsPlainly(b.stmts[i], b.term.test);
    }
    if b.stmts != [] {
      NothingMerged(b, constX, constA);
      if TestsEqual(b) { LastStill(b.stmts, b2.stmts, i); }
    }
    CleanedMerged(b2, i);
  }

  lemma SubMergeable(t: Term, s: Stmt, constX: Option<Word>, constA: Option<Word>)
    requires t.Br? && t.test.JmpK? && t.test.op == Jeq && IsSub(s) && (s == AluX(Sub) ==> t.test.k == 0)
    ensures Merging(t, s, false, constX)
    ensures FoldA(FoldX(FoldJset(MergedTerm(t, AluOnly(s), false, constX)), constX), constA).test.op == Jeq
  {
  }

  lemma SubMergedIn(ss: seq<Stmt>, last: nat, t: Term, constX: Option<Word>, constA: Option<Word>)
    requires 1 <= last == |ss| - 1 && IsSub(ss[last]) && ss[last - 1].LdMem?
    requires t.Br? && t.test.JmpK? && t.test.op == Jeq && (ss[last] == AluX(Sub) ==> t.test.k == 0)
    ensures var ss' := MergedList(ss, last, t, false, constX);
            var t' := FoldA(FoldX(FoldJset(MergedTerm(t, AluOnly(ss[last]), false, constX)), constX), constA);
            LastReal(ss', last - 1) && SetsPlainly(ss'[last - 1], t'.test) && t'.test.op == Jeq
  {
    SubMergeable(t, ss[last], constX, constA);
  }

  /** A subtraction from a scratch register is merged with the comparison after it, and the load before it stays. */
  lemma SubtractionMerged(b: Block, constX: Option<Word>, constA: Option<Word>)
    requires TestsEqual(b) && PlainTest(b.stmts, b.term.test) && IsSub(b.stmts[|b.stmts| - 1])
    ensures var b', n := PeepedBlock(b, {}, constX, constA), |b.stmts|;
            LastReal(b'.stmts, n - 2) && SetsPlainly(b'.stmts[n - 2], b'.term.test) && b'.term.test.op == Jeq
  {
    var n := |b.stmts|;
    assert !b.stmts[n - 2].Nop? && RealBefore(b.stmts, n - 1) && EndsIn(b.stmts, n - 1);
    SubStays(b.stmts);
    var r := PeepFrom(b.stmts, 0, false);
    SubMergedIn(r.0, r.1, b.term, constX, constA);
  }

  /** The pair rules leave a subtraction at the end and the load before it. */
  lemma SubStays(ss: seq<Stmt>)
    requires |ss| >= 2 && EndsIn(ss, |ss| - 1) && ss[|ss| - 2].LdMem?
    ensures var (ss', last) := PeepFrom(ss, 0, false);
            last == |ss| - 1 && ss'[last] == ss[last] && ss'[|ss| - 2].LdMem?
  {
    PeepListRight(ss, false, {});
    var r := PeepFrom(ss, 0, false);
    SubStaysIn(ss, r.0, r.1, {}, NoLocalUse(ss, {}));
  }

  lemma SubStaysIn(ss: seq<Stmt>, ss': seq<Stmt>, last: nat, keep: set<Atom>, safe: bool)
    requires |ss| >= 2 && EndsIn(ss, |ss| - 1) && ss[|ss| - 2].LdMem? && Peeped(ss, ss', last, keep, safe)
    ensures last == |ss| - 1 && ss'[last] == ss[last] && ss'[|ss| - 2].LdMem?
  {
    LastKept(ss, ss', |ss| - 1);
    assert TameAt(ss[|ss| - 2], ss'[|ss| - 2]);
  }

  /** Block `b2` with the statement `i` before its comparison, ready for the removal of dead stores. */
  ghost predicate EndsMerged(b2: Block, i: nat) {
    && b2.term.Br? && Local(b2) && b2.term.test.op == Jeq
    && LastReal(b2.stmts, i) && SetsPlainly(b2.stmts[i], b2.term.test)
  }

  lemma SubPeeped(b: Block, constX: Option<Word>, constA: Option<Word>) returns (b2: Block, i: nat)
    requires b.term.Br? && Plain(b) && TestsEqual(b) && IsSub(b.stmts[|b.stmts| - 1])
    ensures b2 == PeepedBlock(b, {}, constX, constA) && EndsMerged(b2, i)
  {
    b2, i := PeepedBlock(b, {}, constX, constA), |b.stmts| - 2;
    PeepedLocal(b, constX, constA);
    SubtractionMerged(b, constX, constA);
  }

  lemma SubMerges(b: Block, constX: Option<Word>, constA: Option<Word>)
    requires b.term.Br? && Plain(b) && TestsEqual(b) && IsSub(b.stmts[|b.stmts| - 1])
    ensures FullyMerged(Rest(b, {}, constX, constA))
  {
    var b2, i := SubPeeped(b, constX, constA);
    CleanedMerged(b2, i);
    RestCleans(b, constX, constA);
  }

  /** After one round nothing is left to merge. */
  lemma PlainMerges(b: Block, constX: Option<Word>, constA: Option<Word>)
    requires b.term.Br? && Plain(b)
    ensures FullyMerged(Rest(b, {}, constX, constA))
  {
    if TestsEqual(b) && IsSub(b.stmts[|b.stmts| - 1]) {
      SubMerges(b, constX, constA);
    } else {
      assert TestsEqual(b) ==> LastReal(b.stmts, |b.stmts| - 1) && SetsPlainly(b.stmts[|b.stmts| - 1], b.term.test);
      MergedStays(b, constX, constA);
    }
  }

  // Rounds

  /** What a round needs: all tests as the code generator makes them, or nothing left to merge. */
  ghost predicate FitForRound(g: Graph, h: seq<nat>, root: nat)
    requires Levelled(g, h) && root < |g|
  {
    || (forall b | b in Reach(g, h, root) :: Plain(g[b]))
    || (forall b | b in Reach(g, h, root) :: FullyMerged(g[b]))
  }

  /** What a round finds out: the table, the numbers before and after each block and of the operands of its test before
      and after the sweep, dominators, liveness and edge dominators. */
  datatype Findings = Findings(es: seq<Expr>, valIn: seq<Vals>, vals: seq<Vals>, oval0: seq<nat>, oval: seq<nat>,
                               dom: seq<set<nat>>, outUse: seq<set<Atom>>, edom: EdgeSets)

  /** The analyses of `g` are exact; `g1` is `g` swept, and `g2` is `g1` with its jumps threaded by them. */
  ghost predicate RoundDone(g: Graph, g1: Graph, g2: Graph, h: seq<nat>, root: nat, made: Findings) {
    && Explored(g, h, root, made.dom, made.outUse, made.edom)
    && SweptOnce(made.es, g, g1, h, root, made.valIn, made.vals, made.oval0, made.oval)
    && ThreadedOnce(g, g1, g2, h, root, made.vals, made.oval, made.outUse, made.edom)
  }

  lemma FitThreadable(es: seq<Expr>, g: Graph, h: seq<nat>, root: nat, valIn: seq<Vals>, vals: seq<Vals>,
                      oval: seq<nat>)
    requires Levelled(g, h) && root < |g| && AllSelfContained(g) && FitForRound(g, h, root)
    requires Numbered(es, g, g, h, root, valIn, vals, oval, Reach(g, h, root))
    ensures Threadable(g, h, root, vals)
  {
    if forall b | b in Reach(g, h, root) :: FullyMerged(g[b]) {
      forall b | b in Reach(g, h, root) ensures SafeEnd(g[b]) && !FoldsMask(g[b]) && !FoldsSub(g[b]) {
        FullyMergedSafe(g[b]);
      }
    } else {
      forall b | b in Reach(g, h, root) ensures SafeEnd(g[b]) && !FoldsMask(g[b]) && EndsPlainly(g[b]) {
        PlainSafe(g[b]);
      }
      PlainEndsAlike(es, g, h, root, valIn, vals, oval);
    }
  }

  lemma SameTargetsMerged(b: Block, b': Block)
    requires SameButTargets(b, b') && FullyMerged(b)
    ensures FullyMerged(b')
  {
    assert b.term.Br? ==> TermUse(b'.term) == TermUse(b.term);
  }

  lemma SweptMerged(es: seq<Expr>, g: Graph, g1: Graph, h: seq<nat>, root: nat, valIn: seq<Vals>, vals: seq<Vals>,
                    b: nat)
    requires Levelled(g, h) && root < |g| && AllSelfContained(g) && WellFounded(es) && |g1| == |valIn| == |vals| == |g|
    requires AllFinished(es, g, g, g1, h, valIn, vals, false, Reach(g, h, root)) && b in Reach(g, h, root)
    requires Plain(g[b]) || FullyMerged(g[b])
    ensures FullyMerged(g1[b])
  {
    assert Finished(es, g, h, b, g[b], g1[b], valIn[b], vals[b], false);
    if g[b].term.Br? {
      NothingUsed(g, h, b);
      if FullyMerged(g[b]) { MergedStays(g[b], ConstIn(es, vals[b][X_ATOM]), ConstIn(es, vals[b][A_ATOM])); }
      else { PlainMerges(g[b], ConstIn(es, vals[b][X_ATOM]), ConstIn(es, vals[b][A_ATOM])); }
    }
  }

  lemma RoundMerged(es: seq<Expr>, g: Graph, g1: Graph, g2: Graph, h: seq<nat>, root: nat, valIn: seq<Vals>,
                    vals: seq<Vals>, oval0: seq<nat>, oval: seq<nat>, outUse: seq<set<Atom>>, edom: EdgeSets)
    requires Levelled(g, h) && root < |g| && AllSelfContained(g) && FitForRound(g, h, root)
    requires SweptOnce(es, g, g1, h, root, valIn, vals, oval0, oval)
    requires ThreadedOnce(g, g1, g2, h, root, vals, oval, outUse, edom)
    ensures Levelled(g2, h) && AllSelfContained(g2) && ReturnsEmpty(g2)
    ensures forall b | b in Reach(g2, h, root) :: FullyMerged(g2[b])
  {
    forall b | b in Reach(g2, h, root) ensures FullyMerged(g2[b]) {
      SweptMerged(es, g, g1, h, root, valIn, vals, b);
      assert SameButTargets(g1[b], g2[b]);
      SameTargetsMerged(g1[b], g2[b]);
    }
    forall b | 0 <= b < |g2| && g2[b].term.Ret? ensures g2[b].stmts == [] { assert SameButTargets(g1[b], g2[b]); }
  }

  /** A round over the branches, up to the pull-ups, of a filter fit for it: it keeps every result that is not a fault,
      and leaves a filter fit for the next round. `g1` is the filter between the sweep and the threading. */
  method Round(g: Graph, ghost lv: seq<nat>, root: nat)
    returns (g': Graph, ghost h: seq<nat>, ghost g1: Graph, ghost made: Findings)
    requires Levelled(g, lv) && root < |g| && AllSelfContained(g) && ReturnsEmpty(g) && FitForRound(g, lv, root)
    ensures RoundDone(g, g1, g', h, root, made)
    ensures Levelled(g', h) && |g'| == |g| && AllSelfContained(g') && ReturnsEmpty(g') && Preserves(g, g', lv, h, root)
    ensures forall b | b in Reach(g', h, root) :: FullyMerged(g'[b])
  {
    var levels, rootLevel, dom, outUse, edom, swept, vals, oval;
    ghost var valIn, es, oval0;
    levels, rootLevel, dom, outUse, edom, swept, vals, oval, g', h, valIn, es, oval0 := SweepAndThread(g, lv, root);
    g1, made := swept, Findings(es, valIn, vals, oval0, oval, dom, outUse, edom);
    ReachLevelIrrelevant(g, lv, h, root);
    FitThreadable(es, g, h, root, valIn, vals, oval0);
    RoundMerged(es, g, g1, g', h, root, valIn, vals, oval0, oval, outUse, edom);
  }

  /** Any number of such rounds. */
  method ManyRounds(g: Graph, ghost lv: seq<nat>, root: nat, n: nat) returns (g': Graph, ghost h: seq<nat>)
    requires Levelled(g, lv) && root < |g| && AllSelfContained(g) && ReturnsEmpty(g) && FitForRound(g, lv, root)
    ensures Levelled(g', h) && |g'| == |g| && AllSelfContained(g') && ReturnsEmpty(g') && Preserves(g, g', lv, h, root)
    ensures n > 0 ==> forall b | b in Reach(g', h, root) :: FullyMerged(g'[b])
  {
    g', h := g, lv;
    for i := 0 to n
      invariant Levelled(g', h) && |g'| == |g| && AllSelfContained(g') && ReturnsEmpty(g')
      invariant Preserves(g, g', lv, h, root)
      invariant FitForRound(g', h, root) && (i > 0 ==> forall b | b in Reach(g', h, root) :: FullyMerged(g'[b]))
    {
      var g2;
      ghost var h2, g1, made;
      g2, h2, g1, made := Round(g', h, root);
      PreservesTrans(g, g', g2, lv, h, h, h2, root);
      g', h := g2, h2;
    }
  }
}
