/** From the block graph to the instruction array (count_stmts, convert_code_r, icode_to_fcode). */
module Lowering {
  import opened Machine
  import opened Graph
  import opened Levels
  import opened Flat
  import opened Layout

  // The code of one block

  /** From the branch of `b` to its successor in direction `d`, counted from the next instruction. */
  function Off(g: Graph, offset: seq<nat>, b: nat, d: bool): int
    requires |offset| == |g| && b < |g| && g[b].term.Br? && Succ(g[b], d) < |g|
  {
    offset[Succ(g[b], d)] - (offset[b] + |Code(g[b].stmts)|) - 1
  }

  /** Targets lie behind the block's code, and a branch without a long jump fits in a byte. */
  ghost predicate JumpsFit(g: Graph, fl: Flags, offset: seq<nat>, b: nat) {
    && FlagsFor(g, fl) && |offset| == |g| && b < |g|
    && match g[b].term
       case Ret(_) => !fl.jt[b] && !fl.jf[b]
       case Br(_, jt, jf) =>
         && jt < |g| && OneIf(fl.jt[b]) + OneIf(fl.jf[b]) <= Off(g, offset, b, true)
         && jf < |g| && OneIf(fl.jt[b]) + OneIf(fl.jf[b]) <= Off(g, offset, b, false)
         && (!fl.jt[b] ==> Off(g, offset, b, true) < 256)
         && (!fl.jf[b] ==> Off(g, offset, b, false) < 256)
  }

  /** The return or the branch, then one jump per flag. */
  ghost function TermCode(g: Graph, fl: Flags, offset: seq<nat>, b: nat): (c: seq<Insn>)
    requires JumpsFit(g, fl, offset, b)
    ensures |c| == 1 + OneIf(fl.jt[b]) + OneIf(fl.jf[b])
  {
    match g[b].term
    case Ret(k) => [IRet(k)]
    case Br(t, _, _) =>
      var offT, offF := Off(g, offset, b, true), Off(g, offset, b, false);
      [IBranch(t, if fl.jt[b] then 0 else offT, if fl.jf[b] then OneIf(fl.jt[b]) else offF)]
      + (if fl.jt[b] then [IJump(offT - 1)] else [])
      + (if fl.jf[b] then [IJump(offF - 1 - OneIf(fl.jt[b]))] else [])
  }

  ghost function StmtCode(c: seq<Stmt>): (f: seq<Insn>)
    ensures |f| == |c| && forall i | 0 <= i < |c| :: f[i] == IStmt(c[i])
  {
    seq(|c|, i requires 0 <= i < |c| => IStmt(c[i]))
  }

  ghost function BlockCode(g: Graph, fl: Flags, offset: seq<nat>, b: nat): (c: seq<Insn>)
    requires JumpsFit(g, fl, offset, b)
    ensures |c| == BlockSize(g, fl, b)
  {
    StmtCode(Code(g[b].stmts)) + TermCode(g, fl, offset, b)
  }

  /** `f` with the instructions `c` written at index `at`. */
  ghost function Splice(f: seq<Insn>, at: nat, c: seq<Insn>): (f': seq<Insn>)
    requires at + |c| <= |f|
    ensures |f'| == |f|
  {
    f[..at] + c + f[at + |c|..]
  }

  /** Two writes, one behind the other. */
  lemma SpliceTwo(f: seq<Insn>, f1: seq<Insn>, f2: seq<Insn>, at: nat, c: seq<Insn>, d: seq<Insn>)
    requires at + |c| + |d| <= |f| && f1 == Splice(f, at, c) && f2 == Splice(f1, at + |c|, d)
    ensures f2 == Splice(f, at, c + d)
  {
  }

  lemma SpliceOne(f: seq<Insn>, at: nat, c: seq<Insn>, i: Insn)
    requires at + |c| < |f|
    ensures Splice(f, at, c)[at + |c| := i] == Splice(f, at, c + [i])
  {
  }

  lemma SpliceTail(f: seq<Insn>, at: nat, c: seq<Insn>)
    requires at + |c| <= |f|
    ensures Splice(f, at, c)[at..] == c + f[at + |c|..]
  {
  }

  // The emitted part of the program

  ghost predicate AllFit(g: Graph, fl: Flags, offset: seq<nat>, order: seq<nat>) {
    forall x | x in order :: JumpsFit(g, fl, offset, x)
  }

  /** The code of the blocks of `order`; each block stands in front of those emitted before it. */
  ghost function Image(g: Graph, fl: Flags, offset: seq<nat>, order: seq<nat>): seq<Insn>
    requires AllFit(g, fl, offset, order)
  {
    if order == [] then []
    else BlockCode(g, fl, offset, order[|order| - 1]) + Image(g, fl, offset, order[..|order| - 1])
  }

  lemma ImageSnoc(g: Graph, fl: Flags, offset: seq<nat>, order: seq<nat>, b: nat)
    requires AllFit(g, fl, offset, order) && JumpsFit(g, fl, offset, b)
    ensures AllFit(g, fl, offset, order + [b])
    ensures Image(g, fl, offset, order + [b]) == BlockCode(g, fl, offset, b) + Image(g, fl, offset, order)
  {
    assert (order + [b])[..|order|] == order;
  }

  lemma {:induction false} ImageLength(g: Graph, fl: Flags, offset: seq<nat>, order: seq<nat>)
    requires AllFit(g, fl, offset, order) && FlagsFor(g, fl) && InGraph(g, order)
    ensures |Image(g, fl, offset, order)| == Total(g, fl, order)
  {
    if order != [] { ImageLength(g, fl, offset, order[..|order| - 1]); }
  }

  /** The code of a block depends only on its own offset and those of its successors. */
  lemma BlockFrame(g: Graph, fl: Flags, offset: seq<nat>, offset': seq<nat>, order: seq<nat>, x: nat)
    requires Topological(g, order) && x in order && JumpsFit(g, fl, offset, x) && |offset'| == |offset|
    requires forall y | y in order :: y < |offset| && offset'[y] == offset[y]
    ensures JumpsFit(g, fl, offset', x) && BlockCode(g, fl, offset', x) == BlockCode(g, fl, offset, x)
  {
    if g[x].term.Br? {
      SuccessorPlaced(g, order, x, true);
      SuccessorPlaced(g, order, x, false);
      assert Off(g, offset', x, true) == Off(g, offset, x, true)
          && Off(g, offset', x, false) == Off(g, offset, x, false);
    }
  }

  lemma {:induction false} ImageFrame(g: Graph, fl: Flags, offset: seq<nat>, offset': seq<nat>, order: seq<nat>, k: nat)
    requires Topological(g, order) && k <= |order| && AllFit(g, fl, offset, order[..k]) && |offset'| == |offset|
    requires forall x | x in order :: x < |offset| && offset'[x] == offset[x]
    ensures AllFit(g, fl, offset', order[..k]) && Image(g, fl, offset', order[..k]) == Image(g, fl, offset, order[..k])
  {
    if k != 0 {
      assert order[..k] == order[..k - 1] + [order[k - 1]];
      ImageFrame(g, fl, offset, offset', order, k - 1);
      BlockFrame(g, fl, offset, offset', order, order[k - 1]);
      ImageSnoc(g, fl, offset, order[..k - 1], order[k - 1]);
      ImageSnoc(g, fl, offset', order[..k - 1], order[k - 1]);
    }
  }

  lemma TopologicalPrefix(g: Graph, order: seq<nat>, n: nat)
    requires Topological(g, order) && n <= |order|
    ensures Topological(g, order[..n])
  {
    forall i | 0 <= i < n ensures SuccsBefore(g, order[..n], i) {
      assert SuccsBefore(g, order, i);
      assert order[..n][..i] == order[..i];
    }
  }

  /** Where the blocks of `order` stand in a program of `n` instructions that will hold all of `full`. */
  ghost predicate OffsetsOk(g: Graph, fl: Flags, full: seq<nat>, order: seq<nat>, offset: seq<nat>, n: nat)
    requires FlagsFor(g, fl) && Topological(g, full)
  {
    && order <= full && |offset| == |g| && n == Total(g, fl, full)
    && forall x | x in order :: x in full && x < |g| && offset[x] + FromEnd(g, fl, full, x) == n
  }

  /** The blocks of `order` are emitted and fill the end of the program. */
  ghost predicate Emitted(g: Graph, fl: Flags, full: seq<nat>, order: seq<nat>, offset: seq<nat>, f: seq<Insn>,
                          ftail: nat)
    requires FlagsFor(g, fl) && Topological(g, full)
  {
    && OffsetsOk(g, fl, full, order, offset, |f|)
    && AllFit(g, fl, offset, order)
    && ftail <= |f| && f[ftail..] == Image(g, fl, offset, order)
  }

  lemma PrefixPlace(g: Graph, full: seq<nat>, order: seq<nat>, i: nat)
    requires Topological(g, full) && order <= full && i < |order|
    ensures order[i] in full && Place(full, order[i]) == i && full[..i + 1] == order[..i + 1]
  {
    assert order[i] == full[i];
    PlaceUnique(full, i);
  }

  /** Room for the next block, and where it will stand. */
  lemma NextOffset(g: Graph, fl: Flags, full: seq<nat>, order: seq<nat>, b: nat)
    requires FlagsFor(g, fl) && Topological(g, full) && order + [b] <= full
    ensures b < |g| && b in full && Topological(g, order) && b !in order
    ensures FromEnd(g, fl, full, b) == Total(g, fl, order) + BlockSize(g, fl, b) <= Total(g, fl, full)
  {
    var i := |order|;
    assert full[i] == (order + [b])[i] == b;
    PrefixPlace(g, full, order + [b], i);
    assert (order + [b])[..i + 1] == order + [b];
    assert full[..i] == order;
    TopologicalPrefix(g, full, i);
    TotalSnoc(g, fl, order, b);
    TotalPrefix(g, fl, full, i);
  }

  lemma EmittedTail(g: Graph, fl: Flags, full: seq<nat>, order: seq<nat>, offset: seq<nat>, f: seq<Insn>, ftail: nat)
    requires FlagsFor(g, fl) && Topological(g, full) && Emitted(g, fl, full, order, offset, f, ftail)
    requires Topological(g, order)
    ensures ftail + Total(g, fl, order) == |f|
  {
    ImageLength(g, fl, offset, order);
  }

  lemma OffsetsNext(g: Graph, fl: Flags, full: seq<nat>, order: seq<nat>, offset: seq<nat>, n: nat, b: nat, at: nat)
    requires FlagsFor(g, fl) && Topological(g, full) && OffsetsOk(g, fl, full, order, offset, n)
    requires order + [b] <= full && b < |g| && InGraph(g, order) && at + BlockSize(g, fl, b) + Total(g, fl, order) == n
    ensures OffsetsOk(g, fl, full, order + [b], offset[b := at], n)
  {
    NextOffset(g, fl, full, order, b);
  }

  /** Writing a block's code in front of the emitted part extends it. */
  lemma EmitNext(g: Graph, fl: Flags, full: seq<nat>, order: seq<nat>, offset: seq<nat>, f: seq<Insn>, ftail: nat,
                 b: nat, at: nat, f': seq<Insn>)
    requires FlagsFor(g, fl) && Topological(g, full) && Emitted(g, fl, full, order, offset, f, ftail)
    requires order + [b] <= full && b < |g|
    requires at + BlockSize(g, fl, b) == ftail && JumpsFit(g, fl, offset[b := at], b)
    requires |f'| == |f| && f'[at..] == BlockCode(g, fl, offset[b := at], b) + f[ftail..]
    ensures Emitted(g, fl, full, order + [b], offset[b := at], f', at)
  {
    NextOffset(g, fl, full, order, b);
    EmittedTail(g, fl, full, order, offset, f, ftail);
    OffsetsNext(g, fl, full, order, offset, |f|, b, at);
    assert order[..|order|] == order;
    ImageFrame(g, fl, offset, offset[b := at], order, |order|);
    ImageSnoc(g, fl, offset[b := at], order, b);
  }

  lemma EmitSplice(g: Graph, fl: Flags, full: seq<nat>, order: seq<nat>, offset: seq<nat>, f: seq<Insn>, ftail: nat,
                   b: nat, at: nat)
    requires FlagsFor(g, fl) && Topological(g, full) && Emitted(g, fl, full, order, offset, f, ftail)
    requires order + [b] <= full && b < |g|
    requires at + BlockSize(g, fl, b) == ftail && JumpsFit(g, fl, offset[b := at], b)
    ensures Emitted(g, fl, full, order + [b], offset[b := at], Splice(f, at, BlockCode(g, fl, offset[b := at], b)), at)
  {
    SpliceTail(f, at, BlockCode(g, fl, offset[b := at], b));
    EmitNext(g, fl, full, order, offset, f, ftail, b, at, Splice(f, at, BlockCode(g, fl, offset[b := at], b)));
  }

  /** Successors of the next block stand behind it, and a reserved long jump is needed. */
  lemma BranchRoom(g: Graph, fl: Flags, full: seq<nat>, order: seq<nat>, offset: seq<nat>, f: seq<Insn>, ftail: nat,
                   b: nat, d: bool)
    requires FlagsFor(g, fl) && Topological(g, full) && Emitted(g, fl, full, order, offset, f, ftail)
    requires order + [b] <= full && FlagsNeeded(g, fl, full)
    requires b < |g| && g[b].term.Br? && Succ(g[b], d) in order
    ensures b in full && BlockSize(g, fl, b) <= ftail && Succ(g[b], d) < |g| && Succ(g[b], d) != b
    ensures var at := ftail - BlockSize(g, fl, b);
            var off := Off(g, offset[b := at], b, d);
            && off >= OneIf(fl.jt[b]) + OneIf(fl.jf[b])
            && (Far(g, fl, full, b, d) <==> off >= 256)
            && ((if d then fl.jt[b] else fl.jf[b]) ==> off >= 256)
  {
    NextOffset(g, fl, full, order, b);
    EmittedTail(g, fl, full, order, offset, f, ftail);
    var i :| 0 <= i < |order| && order[i] == Succ(g[b], d);
    PrefixPlace(g, full, order, i);
    TotalPrefix(g, fl, order, i);
  }

  // The finished program

  /** The instructions `c` stand at index `pos` of `f`. */
  ghost predicate At(f: seq<Insn>, pos: nat, c: seq<Insn>) {
    pos + |c| <= |f| && forall i | 0 <= i < |c| :: f[pos + i] == c[i]
  }

  lemma AtAppend(s: seq<Insn>, t: seq<Insn>, pos: nat, c: seq<Insn>)
    ensures At(s + t, 0, s)
    ensures At(t, pos, c) ==> At(s + t, |s| + pos, c)
  {
    if At(t, pos, c) {
      forall i | 0 <= i < |c| ensures (s + t)[|s| + pos + i] == c[i] { assert t[pos + i] == c[i]; }
    }
  }

  lemma AtSplit(f: seq<Insn>, pos: nat, s: seq<Insn>, t: seq<Insn>)
    requires At(f, pos, s + t)
    ensures At(f, pos, s) && At(f, pos + |s|, t)
  {
    forall i | 0 <= i < |s| ensures f[pos + i] == s[i] { assert f[pos + i] == (s + t)[i]; }
    forall i | 0 <= i < |t| ensures f[pos + |s| + i] == t[i] { assert f[pos + (|s| + i)] == (s + t)[|s| + i]; }
  }

  /** The code of the `i`th block within the code of all blocks. */
  lemma {:induction false} ImageAt(g: Graph, fl: Flags, offset: seq<nat>, order: seq<nat>, i: nat, at: nat)
    requires FlagsFor(g, fl) && InGraph(g, order) && AllFit(g, fl, offset, order) && i < |order|
    requires at + Total(g, fl, order[..i + 1]) == Total(g, fl, order)
    ensures JumpsFit(g, fl, offset, order[i]) && At(Image(g, fl, offset, order), at, BlockCode(g, fl, offset, order[i]))
    decreases |order|
  {
    var pre := order[..|order| - 1];
    assert order[i] in order;
    if i < |pre| {
      var at' := ImageBefore(g, fl, offset, order, i, at);
      ImageAt(g, fl, offset, pre, i, at');
      ImageStep(g, fl, offset, order, at', BlockCode(g, fl, offset, order[i]));
    } else {
      ImageHead(g, fl, offset, order);
      assert order[..i + 1] == order && at == 0;
    }
  }

  /** Where the block stands without the last block converted. */
  lemma ImageBefore(g: Graph, fl: Flags, offset: seq<nat>, order: seq<nat>, i: nat, at: nat) returns (at': nat)
    requires FlagsFor(g, fl) && InGraph(g, order) && AllFit(g, fl, offset, order) && i + 1 < |order|
    requires at + Total(g, fl, order[..i + 1]) == Total(g, fl, order)
    ensures var pre := order[..|order| - 1];
            && InGraph(g, pre) && AllFit(g, fl, offset, pre) && pre[i] == order[i]
            && at' + Total(g, fl, pre[..i + 1]) == Total(g, fl, pre) && at == at' + BlockSize(g, fl, order[|order| - 1])
  {
    var pre := order[..|order| - 1];
    assert pre[..i + 1] == order[..i + 1];
    TotalPrefix(g, fl, pre, i);
    at' := at - BlockSize(g, fl, order[|order| - 1]);
  }

  lemma ImageStep(g: Graph, fl: Flags, offset: seq<nat>, order: seq<nat>, pos: nat, c: seq<Insn>)
    requires FlagsFor(g, fl) && InGraph(g, order) && AllFit(g, fl, offset, order) && order != []
    requires At(Image(g, fl, offset, order[..|order| - 1]), pos, c)
    ensures At(Image(g, fl, offset, order), BlockSize(g, fl, order[|order| - 1]) + pos, c)
  {
    var pre, b := order[..|order| - 1], order[|order| - 1];
    assert b in order;
    AtAppend(BlockCode(g, fl, offset, b), Image(g, fl, offset, pre), pos, c);
  }

  /** The code of the last block converted comes first. */
  lemma ImageHead(g: Graph, fl: Flags, offset: seq<nat>, order: seq<nat>)
    requires FlagsFor(g, fl) && InGraph(g, order) && AllFit(g, fl, offset, order) && order != []
    ensures var b := order[|order| - 1];
            JumpsFit(g, fl, offset, b) && At(Image(g, fl, offset, order), 0, BlockCode(g, fl, offset, b))
  {
    var pre, b := order[..|order| - 1], order[|order| - 1];
    assert b in order;
    AtAppend(BlockCode(g, fl, offset, b), Image(g, fl, offset, pre), 0, []);
  }

  /** Each block's code stands at its offset. */
  lemma BlockAt(g: Graph, fl: Flags, full: seq<nat>, offset: seq<nat>, f: seq<Insn>, x: nat)
    requires FlagsFor(g, fl) && Topological(g, full) && Emitted(g, fl, full, full, offset, f, 0) && x in full
    ensures JumpsFit(g, fl, offset, x) && At(f, offset[x], BlockCode(g, fl, offset, x))
  {
    EmittedTail(g, fl, full, full, offset, f, 0);
    assert f[0..] == f;
    ImageAt(g, fl, offset, full, Place(full, x), offset[x]);
  }

  /** The end of a block routes both branches to their targets, in range. */
  lemma TermCells(g: Graph, fl: Flags, offset: seq<nat>, f: seq<Insn>, x: nat, pos: nat)
    requires JumpsFit(g, fl, offset, x) && At(f, pos, TermCode(g, fl, offset, x))
    requires pos == offset[x] + |Code(g[x].stmts)|
    requires g[x].term.Br? ==> offset[g[x].term.jt] < |f| && offset[g[x].term.jf] < |f|
    ensures forall i | pos <= i < offset[x] + BlockSize(g, fl, x) :: JumpOk(f, i)
    ensures match g[x].term
            case Ret(k) => f[pos] == IRet(k)
            case Br(t, jt, jf) =>
              && f[pos].IBranch? && f[pos].test == t
              && JumpsTo(f, pos, f[pos].jt, offset[jt]) && JumpsTo(f, pos, f[pos].jf, offset[jf])
  {
    var code := TermCode(g, fl, offset, x);
    assert f[pos + 0] == code[0];
    if g[x].term.Br? {
      if fl.jt[x] { assert f[pos + 1] == code[1]; }
      if fl.jf[x] { assert f[pos + (1 + OneIf(fl.jt[x]))] == code[1 + OneIf(fl.jt[x])]; }
    }
  }

  lemma BlockPlaced(g: Graph, fl: Flags, offset: seq<nat>, f: seq<Insn>, x: nat)
    requires JumpsFit(g, fl, offset, x) && At(f, offset[x], BlockCode(g, fl, offset, x))
    requires g[x].term.Br? ==> offset[g[x].term.jt] < |f| && offset[g[x].term.jf] < |f|
    ensures Placed(g, f, offset, x)
    ensures forall i | offset[x] <= i < offset[x] + BlockSize(g, fl, x) :: JumpOk(f, i)
  {
    var at, c := offset[x], Code(g[x].stmts);
    AtSplit(f, at, StmtCode(c), TermCode(g, fl, offset, x));
    TermCells(g, fl, offset, f, x, at + |c|);
    forall i | at <= i < at + |c| ensures JumpOk(f, i) { assert f[at + (i - at)] == StmtCode(c)[i - at]; }
    forall i | 0 <= i < |c| ensures f[at + i] == IStmt(c[i]) { assert f[at + i] == StmtCode(c)[i]; }
  }

  /** Every cell of the finished program belongs to a block. */
  lemma {:induction false} CellOwner(g: Graph, fl: Flags, full: seq<nat>, order: seq<nat>, offset: seq<nat>, n: nat,
                                     i: nat) returns (x: nat)
    requires FlagsFor(g, fl) && Topological(g, full) && OffsetsOk(g, fl, full, order, offset, n) && InGraph(g, order)
    requires n - Total(g, fl, order) <= i < n
    ensures x in order && x < |g| && offset[x] <= i < offset[x] + BlockSize(g, fl, x)
    decreases |order|
  {
    var pre, b := order[..|order| - 1], order[|order| - 1];
    PrefixPlace(g, full, order, |order| - 1);
    assert order[..|order|] == order;
    assert b in order;
    if i < n - Total(g, fl, pre) {
      x := b;
    } else {
      assert OffsetsOk(g, fl, full, pre, offset, n);
      x := CellOwner(g, fl, full, pre, offset, n, i);
    }
  }

  lemma OffsetInside(g: Graph, fl: Flags, full: seq<nat>, offset: seq<nat>, n: nat, x: nat)
    requires FlagsFor(g, fl) && Topological(g, full) && OffsetsOk(g, fl, full, full, offset, n) && x in full
    ensures x < |g| && offset[x] < n
  {
    TotalPrefix(g, fl, full, Place(full, x));
  }

  /** The finished program is well-formed and holds every block. */
  lemma EmittedWellFormed(g: Graph, fl: Flags, full: seq<nat>, offset: seq<nat>, f: seq<Insn>)
    requires FlagsFor(g, fl) && Topological(g, full) && Emitted(g, fl, full, full, offset, f, 0) && full != []
    ensures WellFormed(f)
    ensures forall x | x in full :: JumpsFit(g, fl, offset, x) && Placed(g, f, offset, x)
  {
    EmittedTail(g, fl, full, full, offset, f, 0);
    TotalPrefix(g, fl, full, 0);
    forall x | x in full
      ensures JumpsFit(g, fl, offset, x) && Placed(g, f, offset, x)
      ensures forall i | offset[x] <= i < offset[x] + BlockSize(g, fl, x) :: JumpOk(f, i)
    {
      FinishedBlock(g, fl, full, offset, f, x);
    }
    forall i | 0 <= i < |f| ensures JumpOk(f, i) {
      var x := CellOwner(g, fl, full, full, offset, |f|, i);
    }
  }

  lemma FinishedBlock(g: Graph, fl: Flags, full: seq<nat>, offset: seq<nat>, f: seq<Insn>, x: nat)
    requires FlagsFor(g, fl) && Topological(g, full) && Emitted(g, fl, full, full, offset, f, 0) && x in full
    ensures JumpsFit(g, fl, offset, x) && Placed(g, f, offset, x)
    ensures forall i | offset[x] <= i < offset[x] + BlockSize(g, fl, x) :: JumpOk(f, i)
  {
    BlockAt(g, fl, full, offset, f, x);
    if g[x].term.Br? {
      SuccessorPlaced(g, full, x, true);
      SuccessorPlaced(g, full, x, false);
      OffsetInside(g, fl, full, offset, |f|, g[x].term.jt);
      OffsetInside(g, fl, full, offset, |f|, g[x].term.jf);
    }
    BlockPlaced(g, fl, offset, f, x);
  }

  // The emitter

  lemma MarksNext(marked: set<nat>, order: seq<nat>, stack: set<nat>, b: nat)
    requires marked == Elements(order) + (stack + {b}) && stack + {b} !! Elements(order) && b !in stack
    ensures marked == Elements(order + [b]) + stack && stack !! Elements(order + [b])
  {
    assert Elements(order + [b]) == Elements(order) + {b};
  }

  /** One statement more is written behind the others, unless it is deleted. */
  lemma StmtNext(f: seq<Insn>, dst: nat, ss: seq<Stmt>, k: nat)
    requires k < |ss| && dst + |Code(ss[..k + 1])| <= |f|
    ensures |Code(ss[..k + 1])| == |Code(ss[..k])| + if ss[k].Nop? then 0 else 1
    ensures var at := Splice(f, dst, StmtCode(Code(ss[..k])));
            Splice(f, dst, StmtCode(Code(ss[..k + 1]))) == if ss[k].Nop? then at
              else at[dst + |Code(ss[..k])| := IStmt(ss[k])]
  {
    assert ss[..k + 1] == ss[..k] + [ss[k]];
    CodeAppend(ss[..k], ss[k]);
    if !ss[k].Nop? {
      assert StmtCode(Code(ss[..k + 1])) == StmtCode(Code(ss[..k])) + [IStmt(ss[k])];
      SpliceOne(f, dst, StmtCode(Code(ss[..k])), IStmt(ss[k]));
    }
  }

  /** The state of code emission: the program is filled from its end. */
  class Emitter {
    const g: Graph
    var fl: Flags
    var marked: set<nat>
    var offset: seq<nat>
    var fp: array<Insn>
    var ftail: nat
    ghost var order: seq<nat>

    constructor (g: Graph)
      ensures this.g == g && FlagsFor(g, fl) && |offset| == |g| && fresh(fp)
      ensures forall b | 0 <= b < |g| :: !fl.jt[b] && !fl.jf[b]
    {
      this.g := g;
      fl := Flags(seq(|g|, _ => false), seq(|g|, _ => false));
      marked, offset, ftail, order := {}, seq(|g|, _ => 0), 0, [];
      fp := new Insn[0];
    }

    /** The reserved long jumps are all needed in the final layout. */
    ghost predicate Planned(full: seq<nat>)
      reads this
    {
      FlagsFor(g, fl) && Topological(g, full) && FlagsNeeded(g, fl, full)
    }

    ghost predicate Valid(stack: set<nat>, full: seq<nat>)
      requires Planned(full)
      reads this, fp
    {
      && marked == Elements(order) + stack && stack !! Elements(order)
      && Emitted(g, fl, full, order, offset, fp[..], ftail)
    }

    /** The number of instructions of the unmarked blocks below `b`. */
    method CountStmts(ghost lv: seq<nat>, ghost stack: set<nat>, b: nat) returns (n: nat)
      requires Levelled(g, lv) && FlagsFor(g, fl) && b < |g| && StackAbove(lv, stack, b)
      requires MarksClosed(g, marked, stack)
      modifies this`marked
      ensures MarksClosed(g, marked, stack) && marked == old(marked) + Reach(g, lv, b)
      ensures n == SetTotal(g, fl, marked, |g|) - SetTotal(g, fl, old(marked), |g|)
      decreases lv[b]
    {
      if b in marked {
        MarkedReach(g, lv, marked, stack, b);
        assert marked == marked + Reach(g, lv, b);
        return 0;
      }
      SetTotalAdd(g, fl, marked, b, |g|);
      marked := marked + {b};
      n := 0;
      if g[b].term.Br? {
        assert EdgeDown(g, lv, b, true) && EdgeDown(g, lv, b, false);
        var nt := CountStmts(lv, stack + {b}, g[b].term.jt);
        var nf := CountStmts(lv, stack + {b}, g[b].term.jf);
        n := nt + nf;
      }
      n := SLength(g[b].stmts) + n + 1 + OneIf(fl.jt[b]) + OneIf(fl.jf[b]);
    }

    /** Write the statements of a block at `dst`. */
    method EmitStmts(dst: nat, ss: seq<Stmt>) returns (next: nat)
      requires dst + |Code(ss)| <= fp.Length
      modifies fp
      ensures next == dst + |Code(ss)| && fp[..] == Splice(old(fp[..]), dst, StmtCode(Code(ss)))
    {
      next := dst;
      for k := 0 to |ss|
        invariant next == dst + |Code(ss[..k])| <= dst + |Code(ss)|
        invariant fp[..] == Splice(old(fp[..]), dst, StmtCode(Code(ss[..k])))
      {
        CodePrefix(ss, k + 1);
        StmtNext(old(fp[..]), dst, ss, k);
        if !ss[k].Nop? {
          fp[next] := IStmt(ss[k]);
          next := next + 1;
        }
      }
      assert ss[..|ss|] == ss;
    }

    /** Write the end of block `b` at `dst`: a return, or a branch with its long jumps. Fail, marking the branch,
        if a displacement is too large and no long jump was reserved for it. */
    method EmitTerm(dst: nat, b: nat) returns (ok: bool, ghost d: bool)
      requires CanWrite(g, fl, offset, b, fp.Length) && dst == offset[b] + |Code(g[b].stmts)|
      modifies fp, this`fl
      ensures ok ==> fl == old(fl) && JumpsFit(g, fl, offset, b)
      ensures ok ==> fp[..] == Splice(old(fp[..]), dst, TermCode(g, fl, offset, b))
      ensures !ok ==> g[b].term.Br? && fl == SetFlag(old(fl), b, d) && Off(g, offset, b, d) >= 256
      ensures !ok ==> if d then !old(fl).jt[b] else !old(fl).jf[b]
    {
      ok, d := true, true;
      match g[b].term
      case Ret(k) => fp[dst] := IRet(k);
      case Br(t, jt, jf) =>
        var extrajmps := 0;
        var dispT, dispF;
        var off := offset[jt] - (offset[b] + SLength(g[b].stmts)) - 1;
        if off >= 256 {
          if !fl.jt[b] {
            fl := SetFlag(fl, b, true);
            return false, true;
          }
          dispT := extrajmps;
          extrajmps := extrajmps + 1;
          fp[dst + extrajmps] := IJump(off - extrajmps);
        } else {
          dispT := off;
        }
        off := offset[jf] - (offset[b] + SLength(g[b].stmts)) - 1;
        if off >= 256 {
          if !fl.jf[b] {
            fl := SetFlag(fl, b, false);
            return false, false;
          }
          dispF := extrajmps;
          extrajmps := extrajmps + 1;
          fp[dst + extrajmps] := IJump(off - extrajmps);
        } else {
          dispF := off;
        }
        fp[dst] := IBranch(t, dispT, dispF);
    }

    /** Write block `b` at its offset. */
    method PutBlock(b: nat) returns (ok: bool, ghost d: bool)
      requires CanWrite(g, fl, offset, b, fp.Length)
      modifies this`fl, fp
      ensures ok ==> fl == old(fl) && JumpsFit(g, fl, offset, b)
      ensures ok ==> fp[..] == Splice(old(fp[..]), offset[b], BlockCode(g, fl, offset, b))
      ensures !ok ==> g[b].term.Br? && fl == SetFlag(old(fl), b, d) && Off(g, offset, b, d) >= 256
      ensures !ok ==> if d then !old(fl).jt[b] else !old(fl).jf[b]
    {
      ghost var f0, c := fp[..], StmtCode(Code(g[b].stmts));
      var dst := EmitStmts(offset[b], g[b].stmts);
      ghost var f1 := fp[..];
      ok, d := EmitTerm(dst, b);
      if ok {
        SpliceTwo(f0, f1, fp[..], offset[b], c, TermCode(g, fl, offset, b));
      }
    }

    /** Reserve room for block `b` in front of what is already emitted, and write it there. */
    method WriteBlock(ghost full: seq<nat>, b: nat) returns (ok: bool, ghost d: bool)
      requires FlagsFor(g, fl) && Topological(g, full) && Emitted(g, fl, full, order, offset, fp[..], ftail)
      requires FlagsNeeded(g, fl, full)
      requires b < |g| && order + [b] <= full && (g[b].term.Br? ==> g[b].term.jt in order && g[b].term.jf in order)
      modifies this`fl, this`offset, this`ftail, fp
      ensures ok ==> fl == old(fl) && ftail + BlockSize(g, fl, b) == old(ftail) && offset == old(offset)[b := ftail]
      ensures ok ==> JumpsFit(g, fl, offset, b) && fp[..] == Splice(old(fp[..]), ftail, BlockCode(g, fl, offset, b))
      ensures !ok ==> Failed(g, old(fl), fl, full, b, d)
    {
      RoomFor(g, fl, full, order, offset, fp[..], ftail, b);
      ftail := ftail - (SLength(g[b].stmts) + 1 + OneIf(fl.jt[b]) + OneIf(fl.jf[b]));
      offset := offset[b := ftail];
      ok, d := PutBlock(b);
    }

    /** Put block `b` in front of what is already emitted. */
    method EmitBlock(ghost stack: set<nat>, ghost full: seq<nat>, b: nat) returns (ok: bool, ghost d: bool)
      requires Planned(full) && Valid(stack + {b}, full) && b < |g| && b !in stack && order + [b] <= full
      requires g[b].term.Br? ==> g[b].term.jt in order && g[b].term.jf in order
      modifies this`fl, this`offset, this`ftail, this`order, fp
      ensures ok ==> fl == old(fl) && order == old(order) + [b] && Valid(stack, full)
      ensures !ok ==> Failed(g, old(fl), fl, full, b, d)
    {
      ok, d := WriteBlock(full, b);
      if ok {
        EmitSplice(g, fl, full, order, old(offset), old(fp[..]), old(ftail), b, ftail);
        assert Emitted(g, fl, full, order + [b], offset, fp[..], ftail);
        MarksNext(marked, order, stack, b);
        order := order + [b];
      }
    }

    /** Emit the unmarked blocks below `b`, and `b` after them. Fail with one more flag set if a branch does not
        reach. */
    method ConvertCodeR(ghost lv: seq<nat>, ghost stack: set<nat>, ghost full: seq<nat>, b: nat)
      returns (ok: bool, ghost x: nat, ghost d: bool)
      requires Levelled(g, lv) && Planned(full) && Valid(stack, full) && b < |g| && StackAbove(lv, stack, b)
      requires Order(g, lv, b, order) <= full
      modifies this`fl, this`marked, this`offset, this`ftail, this`order, fp
      ensures ok ==> fl == old(fl) && order == Order(g, lv, b, old(order)) && Valid(stack, full)
      ensures !ok ==> Failed(g, old(fl), fl, full, x, d)
      decreases lv[b], 1
    {
      if b in marked { return true, b, true; }
      marked := marked + {b};
      if g[b].term.Br? {
        TopologicalPrefix(g, full, |order|);
        assert full[..|order|] == order;
        OrderSteps(g, lv, b, order, full);
        ok, x, d := ConvertSuccessors(lv, stack + {b}, full, b);
        if !ok { return; }
      }
      x := b;
      ok, d := EmitBlock(stack, full, b);
    }

    /** Emit the successors of `b`, the false branch first. */
    method ConvertSuccessors(ghost lv: seq<nat>, ghost stack: set<nat>, ghost full: seq<nat>, b: nat)
      returns (ok: bool, ghost x: nat, ghost d: bool)
      requires Levelled(g, lv) && Planned(full) && Valid(stack, full) && b < |g| && g[b].term.Br?
      requires forall s | s in stack :: s < |g| && lv[s] >= lv[b]
      requires EdgeDown(g, lv, b, true) && EdgeDown(g, lv, b, false)
      requires Order(g, lv, g[b].term.jf, order) <= full
      requires Order(g, lv, g[b].term.jt, Order(g, lv, g[b].term.jf, order)) <= full
      modifies this`fl, this`marked, this`offset, this`ftail, this`order, fp
      ensures ok ==> fl == old(fl) && Valid(stack, full)
      ensures ok ==> order == Order(g, lv, g[b].term.jt, Order(g, lv, g[b].term.jf, old(order)))
      ensures !ok ==> Failed(g, old(fl), fl, full, x, d)
      decreases lv[b], 0
    {
      ok, x, d := ConvertCodeR(lv, stack, full, g[b].term.jf);
      if !ok { return; }
      ok, x, d := ConvertCodeR(lv, stack, full, g[b].term.jt);
    }

    /** Allocate a zeroed program of `n` instructions, with nothing emitted yet. */
    method Allocate(n: nat, ghost full: seq<nat>)
      requires Planned(full) && n == Total(g, fl, full)
      modifies this`marked, this`offset, this`fp, this`ftail, this`order
      ensures fresh(fp) && order == [] && Planned(full) && Valid({}, full)
    {
      fp := new Insn[n](_ => IStmt(LdImm(0)));
      ftail, marked, order, offset := n, {}, [], seq(|g|, _ => 0);
      assert Elements(order) == {} && fp[..][n..] == [];
    }

    /** One attempt with the current flags: count, allocate, convert. */
    method Attempt(ghost lv: seq<nat>, ghost full: seq<nat>, root: nat) returns (ok: bool, ghost x: nat, ghost d: bool)
      requires Levelled(g, lv) && root < |g| && full == Order(g, lv, root, []) && Planned(full)
      modifies this
      ensures ok ==> fl == old(fl) && fresh(fp) && Emitted(g, fl, full, full, offset, fp[..], 0)
      ensures !ok ==> Failed(g, old(fl), fl, full, x, d)
    {
      marked := {};
      var n := CountStmts(lv, {}, root);
      CountedAll(g, lv, fl, root, marked);
      Allocate(n, full);
      ok, x, d := ConvertCodeR(lv, {}, full, root);
      if ok { EmittedTail(g, fl, full, full, offset, fp[..], ftail); }
    }
  }

  lemma CountedAll(g: Graph, lv: seq<nat>, fl: Flags, root: nat, marked: set<nat>)
    requires Levelled(g, lv) && root < |g| && FlagsFor(g, fl) && marked == {} + Reach(g, lv, root)
    ensures Topological(g, Order(g, lv, root, []))
    ensures SetTotal(g, fl, marked, |g|) - SetTotal(g, fl, {}, |g|) == Total(g, fl, Order(g, lv, root, []))
  {
    OrderTopological(g, lv, root, []);
    assert Elements([]) == {};
    TotalIsSetTotal(g, fl, Order(g, lv, root, []));
    SetTotalEmpty(g, fl, |g|);
  }

  /** A failed attempt: one branch that does not fit in a byte has been marked. */
  ghost predicate Failed(g: Graph, fl: Flags, fl': Flags, full: seq<nat>, x: nat, d: bool) {
    && FlagsFor(g, fl) && Topological(g, full)
    && x in full && x < |g| && g[x].term.Br?
    && fl' == SetFlag(fl, x, d) && Far(g, fl, full, x, d)
    && (if d then !fl.jt[x] else !fl.jf[x])
  }

  /** The stages of visiting a branching block. */
  lemma OrderSteps(g: Graph, lv: seq<nat>, b: nat, seen: seq<nat>, full: seq<nat>)
    requires Levelled(g, lv) && b < |g| && g[b].term.Br? && b !in seen && Topological(g, seen)
    requires Order(g, lv, b, seen) <= full
    ensures EdgeDown(g, lv, b, true) && EdgeDown(g, lv, b, false)
    ensures var s1 := Order(g, lv, g[b].term.jf, seen);
            var s2 := Order(g, lv, g[b].term.jt, s1);
            && s1 <= full && s2 <= full && s2 + [b] <= full && g[b].term.jf in s2 && g[b].term.jt in s2 && b !in s1
            && b !in s2
  {
    assert EdgeDown(g, lv, b, true) && EdgeDown(g, lv, b, false);
    var s1 := Order(g, lv, g[b].term.jf, seen);
    OrderTopological(g, lv, g[b].term.jf, seen);
    OrderTopological(g, lv, g[b].term.jt, s1);
    VisitsBranch(g, lv, b, seen, s1, Order(g, lv, g[b].term.jt, s1));
  }

  /** What is needed to write block `b` at its offset. */
  ghost predicate CanWrite(g: Graph, fl: Flags, offset: seq<nat>, b: nat, n: nat) {
    && FlagsFor(g, fl) && |offset| == |g| && b < |g| && offset[b] + BlockSize(g, fl, b) <= n
    && match g[b].term
       case Ret(_) => !fl.jt[b] && !fl.jf[b]
       case Br(_, jt, jf) =>
         && jt < |g| && Off(g, offset, b, true) >= OneIf(fl.jt[b]) + OneIf(fl.jf[b])
         && jf < |g| && Off(g, offset, b, false) >= OneIf(fl.jt[b]) + OneIf(fl.jf[b])
         && (fl.jt[b] ==> Off(g, offset, b, true) >= 256)
         && (fl.jf[b] ==> Off(g, offset, b, false) >= 256)
  }

  lemma RoomFor(g: Graph, fl: Flags, full: seq<nat>, order: seq<nat>, offset: seq<nat>, f: seq<Insn>, ftail: nat,
                b: nat)
    requires FlagsFor(g, fl) && Topological(g, full) && Emitted(g, fl, full, order, offset, f, ftail)
    requires order + [b] <= full && FlagsNeeded(g, fl, full)
    requires b < |g| && (g[b].term.Br? ==> g[b].term.jt in order && g[b].term.jf in order)
    ensures b in full && BlockSize(g, fl, b) <= ftail
    ensures CanWrite(g, fl, offset[b := ftail - BlockSize(g, fl, b)], b, |f|)
    ensures g[b].term.Br? ==>
              forall d | Off(g, offset[b := ftail - BlockSize(g, fl, b)], b, d) >= 256 :: Far(g, fl, full, b, d)
  {
    NextOffset(g, fl, full, order, b);
    EmittedTail(g, fl, full, order, offset, f, ftail);
    if g[b].term.Br? {
      BranchRoom(g, fl, full, order, offset, f, ftail, b, true);
      BranchRoom(g, fl, full, order, offset, f, ftail, b, false);
    }
  }

  // The whole conversion

  /** A branch of a finished program has a long jump exactly when its target is out of a byte's reach. */
  ghost predicate JumpsExact(g: Graph, fl: Flags, order: seq<nat>)
    requires FlagsFor(g, fl) && Topological(g, order)
  {
    forall b | b in order && b < |g| && g[b].term.Br? ::
      (fl.jt[b] <==> Far(g, fl, order, b, true)) && (fl.jf[b] <==> Far(g, fl, order, b, false))
  }

  lemma FinishedJumps(g: Graph, fl: Flags, full: seq<nat>, offset: seq<nat>, f: seq<Insn>)
    requires FlagsFor(g, fl) && Topological(g, full) && Emitted(g, fl, full, full, offset, f, 0)
    requires FlagsNeeded(g, fl, full)
    ensures JumpsExact(g, fl, full)
  {
    forall b | b in full && b < |g| && g[b].term.Br?
      ensures (fl.jt[b] <==> Far(g, fl, full, b, true)) && (fl.jf[b] <==> Far(g, fl, full, b, false))
    {
      assert JumpsFit(g, fl, offset, b);
      SuccessorPlaced(g, full, b, true);
      SuccessorPlaced(g, full, b, false);
    }
  }

  /** The root is converted last, so its code comes first. */
  lemma RootFirst(g: Graph, lv: seq<nat>, root: nat, fl: Flags, full: seq<nat>, offset: seq<nat>, f: seq<Insn>)
    requires Levelled(g, lv) && root < |g| && full == Order(g, lv, root, [])
    requires FlagsFor(g, fl) && Topological(g, full) && Emitted(g, fl, full, full, offset, f, 0)
    ensures full != [] && offset[root] == 0
  {
    assert full[|full| - 1] == root;
    PrefixPlace(g, full, full, |full| - 1);
    assert full[..|full|] == full;
    EmittedTail(g, fl, full, full, offset, f, 0);
    assert root in full;
  }

  /** A leaf is converted first, so its return comes last. */
  lemma LeafLast(g: Graph, fl: Flags, full: seq<nat>, offset: seq<nat>, f: seq<Insn>)
    requires full != [] && FlagsFor(g, fl) && Topological(g, full) && Emitted(g, fl, full, full, offset, f, 0)
    ensures f != [] && f[|f| - 1].IRet?
  {
    var leaf := full[0];
    assert leaf in full && g[leaf].term.Ret? by { assert SuccsBefore(g, full, 0); }
    PrefixPlace(g, full, full, 0);
    assert full[..1] == [leaf] && [leaf][..0] == [];
    EmittedTail(g, fl, full, full, offset, f, 0);
    assert Total(g, fl, [leaf][..0]) == 0;
    BlockAt(g, fl, full, offset, f, leaf);
    EndsInReturn(g, fl, offset, f, leaf);
  }

  lemma EndsInReturn(g: Graph, fl: Flags, offset: seq<nat>, f: seq<Insn>, leaf: nat)
    requires JumpsFit(g, fl, offset, leaf) && g[leaf].term.Ret? && At(f, offset[leaf], BlockCode(g, fl, offset, leaf))
    requires offset[leaf] + BlockSize(g, fl, leaf) == |f|
    ensures f != [] && f[|f| - 1].IRet?
  {
    var code := BlockCode(g, fl, offset, leaf);
    assert code[|code| - 1] == IRet(g[leaf].term.k);
    assert f[offset[leaf] + (|code| - 1)] == code[|code| - 1];
  }

  lemma FinishedEnds(g: Graph, lv: seq<nat>, root: nat, fl: Flags, full: seq<nat>, offset: seq<nat>, f: seq<Insn>)
    requires Levelled(g, lv) && root < |g| && full == Order(g, lv, root, [])
    requires FlagsFor(g, fl) && Topological(g, full) && Emitted(g, fl, full, full, offset, f, 0)
    ensures full != [] && offset[root] == 0 && f != [] && f[|f| - 1].IRet?
  {
    RootFirst(g, lv, root, fl, full, offset, f);
    LeafLast(g, fl, full, offset, f);
  }

  /** The finished program runs as the graph does, on every packet and from every register file. */
  lemma FinishedPreserves(g: Graph, lv: seq<nat>, root: nat, fl: Flags, full: seq<nat>, offset: seq<nat>, f: seq<Insn>)
    requires Levelled(g, lv) && root < |g| && full == Order(g, lv, root, [])
    requires FlagsFor(g, fl) && Topological(g, full) && Emitted(g, fl, full, full, offset, f, 0)
    ensures WellFormed(f)
    ensures forall p, r :: RunFlat(f, 0, p, r) == Run(g, lv, root, p, r)
  {
    FinishedEnds(g, lv, root, fl, full, offset, f);
    EmittedWellFormed(g, fl, full, offset, f);
    OrderTopological(g, lv, root, []);
    forall p, r ensures RunFlat(f, 0, p, r) == Run(g, lv, root, p, r) {
      forall x | x in Reach(g, lv, root) ensures JumpsFit(g, fl, offset, x) && Placed(g, f, offset, x) {
        assert x in Elements(full);
      }
      LayoutPreserves(g, lv, root, f, offset, root, p, r);
    }
  }

  // Which statements are emitted

  lemma {:induction false} CodeMembers(ss: seq<Stmt>, s: Stmt)
    requires !s.Nop?
    ensures s in Code(ss) <==> s in ss
  {
    if ss != [] {
      CodeMembers(ss[1..], s);
      assert ss == [ss[0]] + ss[1..];
    }
  }

  lemma BlockStmts(g: Graph, fl: Flags, offset: seq<nat>, b: nat, s: Stmt)
    requires JumpsFit(g, fl, offset, b) && !s.Nop?
    ensures IStmt(s) in BlockCode(g, fl, offset, b) <==> s in g[b].stmts
  {
    var c := Code(g[b].stmts);
    CodeMembers(g[b].stmts, s);
    assert IStmt(s) !in TermCode(g, fl, offset, b);
    if s in c {
      var i :| 0 <= i < |c| && c[i] == s;
      assert StmtCode(c)[i] == IStmt(s);
    }
  }

  lemma {:induction false} ImageStmts(g: Graph, fl: Flags, offset: seq<nat>, order: seq<nat>, s: Stmt)
    requires AllFit(g, fl, offset, order) && !s.Nop?
    ensures IStmt(s) in Image(g, fl, offset, order) <==> exists x :: x in order && x < |g| && s in g[x].stmts
  {
    if order != [] {
      var b, rest := order[|order| - 1], order[..|order| - 1];
      assert order == rest + [b];
      BlockStmts(g, fl, offset, b, s);
      ImageStmts(g, fl, offset, rest, s);
    }
  }

  /** Some reachable block has the statement. */
  ghost predicate ReachesStmt(g: Graph, lv: seq<nat>, root: nat, s: Stmt)
    requires Levelled(g, lv) && root < |g|
  {
    exists x :: x in Reach(g, lv, root) && s in g[x].stmts
  }

  /** The program has exactly the statements of the reachable blocks, and the validator accepts it exactly if none of
      them divides by a constant zero. */
  lemma FinishedValidates(g: Graph, lv: seq<nat>, root: nat, fl: Flags, full: seq<nat>, offset: seq<nat>, f: seq<Insn>)
    requires Levelled(g, lv) && root < |g| && full == Order(g, lv, root, [])
    requires FlagsFor(g, fl) && Topological(g, full) && Emitted(g, fl, full, full, offset, f, 0)
    ensures forall s: Stmt | !s.Nop? :: IStmt(s) in f <==> ReachesStmt(g, lv, root, s)
    ensures Validates(f) <==> !ReachesStmt(g, lv, root, AluK(Div, 0))
  {
    OrderTopological(g, lv, root, []);
    assert f == f[0..] == Image(g, fl, offset, full);
    forall s: Stmt | !s.Nop? ensures IStmt(s) in f <==> ReachesStmt(g, lv, root, s) {
      ImageStmts(g, fl, offset, full, s);
      assert forall x :: x in full <==> x in Elements(full);
    }
    FinishedPreserves(g, lv, root, fl, full, offset, f);
    FinishedEnds(g, lv, root, fl, full, offset, f);
    ValidatesIff(f);
    assert IStmt(AluK(Div, 0)) in f <==> ReachesStmt(g, lv, root, AluK(Div, 0));
  }

  /** Convert the graph to a filter program. A failed attempt sets one more flag, so at most two attempts
      per block fail. */
  method IcodeToFcode(g: Graph, ghost lv: seq<nat>, root: nat) returns (fp: array<Insn>, fl: Flags, ghost tries: nat)
    requires Levelled(g, lv) && root < |g|
    ensures tries <= 2 * |g| + 1
    ensures fresh(fp) && FlagsFor(g, fl)
    ensures WellFormed(fp[..]) && fp[..][fp.Length - 1].IRet?
    ensures forall p, r :: RunFlat(fp[..], 0, p, r) == Run(g, lv, root, p, r)
    ensures Validates(fp[..]) <==> !ReachesStmt(g, lv, root, AluK(Div, 0))
    ensures var order := Order(g, lv, root, []);
            Topological(g, order) && fp.Length == Total(g, fl, order) && JumpsExact(g, fl, order)
  {
    ghost var full := Order(g, lv, root, []);
    ghost var offset;
    fp, fl, offset, tries := EmitAll(g, lv, root);
    FinishedProgram(g, lv, root, fl, full, offset, fp[..]);
  }

  lemma FinishedProgram(g: Graph, lv: seq<nat>, root: nat, fl: Flags, full: seq<nat>, offset: seq<nat>, f: seq<Insn>)
    requires Levelled(g, lv) && root < |g| && full == Order(g, lv, root, [])
    requires FlagsFor(g, fl) && Topological(g, full) && Emitted(g, fl, full, full, offset, f, 0)
    requires FlagsNeeded(g, fl, full)
    ensures WellFormed(f) && f[|f| - 1].IRet? && (forall p, r :: RunFlat(f, 0, p, r) == Run(g, lv, root, p, r))
    ensures Validates(f) <==> !ReachesStmt(g, lv, root, AluK(Div, 0))
    ensures |f| == Total(g, fl, full) && JumpsExact(g, fl, full)
  {
    FinishedPreserves(g, lv, root, fl, full, offset, f);
    FinishedEnds(g, lv, root, fl, full, offset, f);
    FinishedJumps(g, fl, full, offset, f);
    FinishedValidates(g, lv, root, fl, full, offset, f);
  }

  /** Attempt the conversion until it succeeds. */
  method EmitAll(g: Graph, ghost lv: seq<nat>, root: nat)
    returns (fp: array<Insn>, fl: Flags, ghost offset: seq<nat>, ghost tries: nat)
    requires Levelled(g, lv) && root < |g|
    ensures tries <= 2 * |g| + 1 && fresh(fp) && FlagsFor(g, fl)
    ensures var full := Order(g, lv, root, []);
            Topological(g, full) && FlagsNeeded(g, fl, full) && Emitted(g, fl, full, full, offset, fp[..], 0)
  {
    var e := new Emitter(g);
    ghost var full := Order(g, lv, root, []);
    OrderTopological(g, lv, root, []);
    var ok := false;
    tries := 0;
    UnsetAtMost(e.fl.jt);
    UnsetAtMost(e.fl.jf);
    while !ok
      invariant tries + Unset(e.fl.jt) + Unset(e.fl.jf) <= 2 * |g| + if ok then 1 else 0
      invariant fresh(e) && e.g == g && e.Planned(full)
      invariant ok ==> fresh(e.fp) && Emitted(g, e.fl, full, full, e.offset, e.fp[..], 0)
      decreases Unset(e.fl.jt) + Unset(e.fl.jf), !ok
    {
      ghost var x, d, fl0 := 0, true, e.fl;
      ok, x, d := e.Attempt(lv, full, root);
      tries := tries + 1;
      if !ok {
        FlagsStayNeeded(g, fl0, full, x, d);
        if d { UnsetDrops(fl0.jt, x); } else { UnsetDrops(fl0.jf, x); }
      }
    }
    fp, fl, offset := e.fp, e.fl, e.offset;
  }
}
