/** Comparisons of arithmetic expressions and the protocol checks in front of them (gen_relation). */
module Relation {
  import opened Machine
  import opened Composition
  import opened Arithmetic
  import opened Graph
  import opened Liveness

  // Conditions whose conclusion depends on the packet alone

  /** What a filter concludes, without the registers it leaves behind. */
  ghost function Conclusion(v: Verdict): Option<bool> { if v.Faulted? then None else Some(v.holds) }

  /** On packet `p` the condition concludes `v`, whatever the registers hold. */
  ghost predicate Says(c: Cond, p: Packet, v: Option<bool>) {
    forall r :: Conclusion(Eval(c, p, r)) == v
  }

  function AndThen(v: Option<bool>, w: Option<bool>): Option<bool> { if v == Some(true) then w else v }

  function OrElse(v: Option<bool>, w: Option<bool>): Option<bool> { if v == Some(false) then w else v }

  function Negated(v: Option<bool>): Option<bool> { if v.None? then None else Some(!v.value) }

  lemma SaysConj(c: Cond, d: Cond, p: Packet, v: Option<bool>, w: Option<bool>)
    requires Says(c, p, v) && Says(d, p, w)
    ensures Says(Conj(c, d), p, AndThen(v, w))
  {
    forall r ensures Conclusion(Eval(Conj(c, d), p, r)) == AndThen(v, w) {
      var x := Eval(c, p, r);
      assert Conclusion(x) == v;
      if x.Decided? && x.holds { assert Conclusion(Eval(d, p, x.regs)) == w; }
    }
  }

  lemma SaysDisj(c: Cond, d: Cond, p: Packet, v: Option<bool>, w: Option<bool>)
    requires Says(c, p, v) && Says(d, p, w)
    ensures Says(Disj(c, d), p, OrElse(v, w))
  {
    forall r ensures Conclusion(Eval(Disj(c, d), p, r)) == OrElse(v, w) {
      var x := Eval(c, p, r);
      assert Conclusion(x) == v;
      if x.Decided? && !x.holds { assert Conclusion(Eval(d, p, x.regs)) == w; }
    }
  }

  lemma SaysInv(c: Cond, p: Packet, v: Option<bool>)
    requires Says(c, p, v)
    ensures Says(Inv(c), p, Negated(v))
  {
    forall r ensures Conclusion(Eval(Inv(c), p, r)) == Negated(v) { assert Conclusion(Eval(c, p, r)) == v; }
  }

  // Sequences of checks

  /** Make the checks in order, stopping at the first that does not hold. */
  ghost function EvalAll(cs: seq<Cond>, p: Packet, r: Regs): Verdict {
    if cs == [] then Decided(true, r)
    else
      var v := Eval(cs[0], p, r);
      if v.Decided? && v.holds then EvalAll(cs[1..], p, v.regs) else v
  }

  lemma {:induction false} EvalAllAppend(cs: seq<Cond>, ds: seq<Cond>, p: Packet, r: Regs)
    ensures var v := EvalAll(cs, p, r);
            EvalAll(cs + ds, p, r) == if v.Decided? && v.holds then EvalAll(ds, p, v.regs) else v
    decreases cs
  {
    if cs == [] {
      assert cs + ds == ds;
    } else {
      assert (cs + ds)[1..] == cs[1..] + ds;
      var v := Eval(cs[0], p, r);
      if v.Decided? && v.holds { EvalAllAppend(cs[1..], ds, p, v.regs); }
    }
  }

  lemma EvalOne(c: Cond, p: Packet, r: Regs)
    ensures EvalAll([c], p, r) == Eval(c, p, r)
  {
    var v := Eval(c, p, r);
    if v.Decided? && v.holds { assert EvalAll([c][1..], p, v.regs) == Decided(true, v.regs); }
  }

  /** A check `g` that may be absent makes the checks `cs`. */
  ghost predicate MakesChecks(g: Option<Cond>, cs: seq<Cond>) {
    && (g.None? <==> cs == [])
    && (g.Some? ==> forall p, r :: Eval(g.value, p, r) == EvalAll(cs, p, r))
  }

  lemma MakesConj(c: Cond, cs: seq<Cond>, d: Cond, ds: seq<Cond>)
    requires MakesChecks(Some(c), cs) && MakesChecks(Some(d), ds)
    ensures MakesChecks(Some(Conj(c, d)), cs + ds)
  {
    forall p, r ensures Eval(Conj(c, d), p, r) == EvalAll(cs + ds, p, r) {
      EvalAllAppend(cs, ds, p, r);
      assert Eval(c, p, r) == EvalAll(cs, p, r);
      var v := Eval(c, p, r);
      if v.Decided? && v.holds { assert Eval(d, p, v.regs) == EvalAll(ds, p, v.regs); }
    }
  }

  lemma MakesOne(c: Cond)
    ensures MakesChecks(Some(c), [c])
  {
    forall p, r ensures Eval(c, p, r) == EvalAll([c], p, r) { EvalOne(c, p, r); }
  }

  lemma MakesAfter(g: Option<Cond>, cs: seq<Cond>, d: Cond, ds: seq<Cond>)
    requires MakesChecks(g, cs) && MakesChecks(Some(d), ds)
    ensures MakesChecks(Some(Behind(g, d)), cs + ds)
  {
    if g.None? { assert cs + ds == ds; } else { MakesConj(g.value, cs, d, ds); }
  }

  // Which accessors' checks are made

  /** The checks of one accessor, around those of its index. */
  function HeaderChecks(h: Header, inner: seq<Cond>): seq<Cond> {
    match h
    case Link(_) => inner
    case Net(_, proto) => inner + [proto]
    case Tran(_, ip, proto, frag) => [ip] + (inner + ([proto] + [frag]))
  }

  /** The checks of every accessor in an expression. */
  function AllChecks(e: ArithExpr): seq<Cond> {
    match e
    case Imm(_) => []
    case Len => []
    case Minus(a) => AllChecks(a)
    case Bin(_, a, b) => AllChecks(a) + AllChecks(b)
    case Access(h, _, a) => HeaderChecks(h, AllChecks(a))
  }

  /** The checks that are made: gen_arth forgets those of its right operand. */
  function MadeChecks(e: ArithExpr): seq<Cond> {
    match e
    case Imm(_) => []
    case Len => []
    case Minus(a) => MadeChecks(a)
    case Bin(_, a, b) => MadeChecks(a)
    case Access(h, _, a) => HeaderChecks(h, MadeChecks(a))
  }

  /** Some arithmetic operator has a guarded accessor in its right operand. */
  predicate RightGuarded(e: ArithExpr) {
    match e
    case Imm(_) => false
    case Len => false
    case Minus(a) => RightGuarded(a)
    case Bin(_, a, b) => RightGuarded(a) || Guarded(b)
    case Access(_, _, a) => RightGuarded(a)
  }

  predicate Guarded(e: ArithExpr) {
    match e
    case Imm(_) => false
    case Len => false
    case Minus(a) => Guarded(a)
    case Bin(_, a, b) => Guarded(a) || Guarded(b)
    case Access(h, _, a) => !h.Link? || Guarded(a)
  }

  lemma {:induction false} GuardedHasChecks(e: ArithExpr)
    ensures Guarded(e) <==> AllChecks(e) != []
  {
    match e
    case Imm(_) =>
    case Len =>
    case Minus(a) => GuardedHasChecks(a);
    case Bin(_, a, b) => GuardedHasChecks(a); GuardedHasChecks(b);
    case Access(h, _, a) => GuardedHasChecks(a);
  }

  lemma {:induction false} MadeAtMostAll(e: ArithExpr)
    ensures |MadeChecks(e)| <= |AllChecks(e)|
    ensures |MadeChecks(e)| == |AllChecks(e)| <==> !RightGuarded(e)
    ensures !RightGuarded(e) ==> MadeChecks(e) == AllChecks(e)
  {
    match e
    case Imm(_) =>
    case Len =>
    case Minus(a) => MadeAtMostAll(a);
    case Bin(_, a, b) => MadeAtMostAll(a); GuardedHasChecks(b);
    case Access(h, _, a) => MadeAtMostAll(a);
  }

  /** Every accessor's check is made exactly when no arithmetic operator has a guarded right operand. */
  lemma AllChecksMade(e: ArithExpr)
    ensures MadeChecks(e) == AllChecks(e) <==> !RightGuarded(e)
  {
    MadeAtMostAll(e);
  }

  /** The check attached to a compiled expression makes exactly these checks, in this order. */
  lemma {:induction false} GuardMakes(e: ArithExpr)
    ensures MakesChecks(Guard(e), MadeChecks(e))
  {
    match e
    case Imm(_) =>
    case Len =>
    case Minus(a) => GuardMakes(a);
    case Bin(_, a, _) => GuardMakes(a);
    case Access(h, _, a) =>
      GuardMakes(a);
      match h
      case Link(_) =>
      case Net(_, proto) => MakesOne(proto); MakesAfter(Guard(a), MadeChecks(a), proto, [proto]);
      case Tran(_, ip, proto, frag) =>
        MakesOne(proto); MakesOne(frag); MakesConj(proto, [proto], frag, [frag]);
        MakesAfter(Guard(a), MadeChecks(a), Conj(proto, frag), [proto] + [frag]);
        MakesOne(ip);
        MakesConj(ip, [ip], Behind(Guard(a), Conj(proto, frag)), MadeChecks(a) + ([proto] + [frag]));
  }

  // Comparisons

  /** The meaning of a comparison: the checks first, then the comparison of the two 32-bit values. */
  ghost function RelationMeans(op: JmpOp, reversed: bool, e0: ArithExpr, e1: ArithExpr, p: Packet,
                               r: Regs): Option<bool> {
    var v := EvalAll(MadeChecks(e0) + MadeChecks(e1), p, r);
    if v.Faulted? then None
    else if !v.holds then Some(false)
    else Compared(op, reversed, e0, e1, p)
  }

  function Compared(op: JmpOp, reversed: bool, e0: ArithExpr, e1: ArithExpr, p: Packet): Option<bool> {
    var v0, v1 := Value(e0, p), Value(e1, p);
    if v0.None? || v1.None? then None else Some(Compare(op, v0.value, v1.value) != reversed)
  }

  function RelationStmts(op: JmpOp, a0: Arth, a1: Arth): seq<Stmt> {
    a0.s + a1.s + ([LdxMem(a1.regno)] + ([LdMem(a0.regno)] + if op == Jeq then [AluX(Sub)] + [] else []))
  }

  function RelationTest(op: JmpOp): Test { if op == Jeq then JmpK(Jeq, 0) else JmpX(op) }

  lemma RelationTailRun(op: JmpOp, r0: Reg, r1: Reg, p: Packet, q: Regs)
    ensures var tail := [LdxMem(r1)] + ([LdMem(r0)] + if op == Jeq then [AluX(Sub)] + [] else []);
            var q' := ExecAll(tail, p, q);
            q'.Some? && Holds(RelationTest(op), q'.value) == Compare(op, q[r0], q[r1])
  {
    var rest := if op == Jeq then [AluX(Sub)] + [] else [];
    var q1 := q[X_ATOM := q[r1]];
    var q2 := q1[A_ATOM := q1[r0]];
    ExecCons(LdxMem(r1), [LdMem(r0)] + rest, p, q);
    ExecCons(LdMem(r0), rest, p, q1);
    if op == Jeq { ExecCons(AluX(Sub), [], p, q2); }
  }

  /** The comparison block alone compares the two values. */
  lemma CompareRight(op: JmpOp, a0: Arth, a1: Arth, e0: ArithExpr, e1: ArithExpr, busy: RegTable, p: Packet, r: Regs)
    requires !busy[a0.regno] && Computes(a0.s, a0.regno, e0, busy)
    requires Computes(a1.s, a1.regno, e1, busy[a0.regno := true])
    ensures var v := Eval(Check(RelationStmts(op, a0, a1), RelationTest(op)), p, r);
            Conclusion(v) == Compared(op, false, e0, e1, p)
  {
    var tail := [LdxMem(a1.regno)] + ([LdMem(a0.regno)] + if op == Jeq then [AluX(Sub)] + [] else []);
    ExecAppend(a0.s + a1.s, tail, p, r);
    ExecAppend(a0.s, a1.s, p, r);
    assert Delivers(ExecAll(a0.s, p, r), Value(e0, p), r, a0.regno, busy);
    if Value(e0, p).Some? {
      var q0 := ExecAll(a0.s, p, r).value;
      assert Delivers(ExecAll(a1.s, p, q0), Value(e1, p), q0, a1.regno, busy[a0.regno := true]);
      if Value(e1, p).Some? {
        RelationTailRun(op, a0.regno, a1.regno, p, ExecAll(a1.s, p, q0).value);
      }
    }
  }

  function Guarding(g: Option<Cond>, c: Cond): Cond { if g.None? then c else Conj(g.value, c) }

  function Reversed(c: Cond, reversed: bool): Cond { if reversed then Inv(c) else c }

  lemma MakesBoth(g0: Option<Cond>, cs: seq<Cond>, g1: Option<Cond>, ds: seq<Cond>)
    requires MakesChecks(g0, cs) && MakesChecks(g1, ds)
    ensures MakesChecks(Both(g0, g1), cs + ds)
  {
    if g0.None? { assert cs + ds == ds; }
    else if g1.None? { assert cs + ds == cs; }
    else { MakesConj(g0.value, cs, g1.value, ds); }
  }

  /** Joining two checks either of which may be absent. */
  function Both(g0: Option<Cond>, g1: Option<Cond>): Option<Cond> {
    if g0.Some? then if g1.Some? then Some(Conj(g0.value, g1.value)) else g0 else g1
  }

  lemma RelationRight(op: JmpOp, reversed: bool, a0: Arth, a1: Arth, e0: ArithExpr, e1: ArithExpr, busy: RegTable,
                      p: Packet, r: Regs)
    requires Ready(a0, e0, busy, busy[a0.regno := true]) && Computes(a1.s, a1.regno, e1, busy[a0.regno := true])
    requires a1.b == Guard(e1)
    ensures var check := Check(RelationStmts(op, a0, a1), RelationTest(op));
            Conclusion(Eval(Guarding(Both(a0.b, a1.b), Reversed(check, reversed)), p, r)) ==
            RelationMeans(op, reversed, e0, e1, p, r)
  {
    var check := Check(RelationStmts(op, a0, a1), RelationTest(op));
    GuardMakes(e0);
    GuardMakes(e1);
    MakesBoth(a0.b, MadeChecks(e0), a1.b, MadeChecks(e1));
    GuardingConclusion(Both(a0.b, a1.b), MadeChecks(e0) + MadeChecks(e1), Reversed(check, reversed), p, r);
    var v := EvalAll(MadeChecks(e0) + MadeChecks(e1), p, r);
    if v.Decided? && v.holds { CompareReversed(op, reversed, a0, a1, e0, e1, busy, p, v.regs); }
  }

  lemma CompareReversed(op: JmpOp, reversed: bool, a0: Arth, a1: Arth, e0: ArithExpr, e1: ArithExpr, busy: RegTable,
                        p: Packet, r: Regs)
    requires !busy[a0.regno] && Computes(a0.s, a0.regno, e0, busy)
    requires Computes(a1.s, a1.regno, e1, busy[a0.regno := true])
    ensures Conclusion(Eval(Reversed(Check(RelationStmts(op, a0, a1), RelationTest(op)), reversed), p, r)) ==
            Compared(op, reversed, e0, e1, p)
  {
    CompareRight(op, a0, a1, e0, e1, busy, p, r);
  }

  lemma GuardingConclusion(g: Option<Cond>, cs: seq<Cond>, c: Cond, p: Packet, r: Regs)
    requires MakesChecks(g, cs)
    ensures var v := EvalAll(cs, p, r);
            Conclusion(Eval(Guarding(g, c), p, r)) ==
            if v.Faulted? then None else if !v.holds then Some(false) else Conclusion(Eval(c, p, v.regs))
  {
    if g.Some? { assert Eval(g.value, p, r) == EvalAll(cs, p, r); }
  }

  /** The comparison block reads nothing it has not computed itself. */
  lemma RelationClosed(op: JmpOp, a0: Arth, a1: Arth)
    requires NoInputs(a0.s, a0.regno) && NoInputs(a1.s, a1.regno) && Tidy(a0.s) && Tidy(a1.s)
    ensures ClosedTest(RelationStmts(op, a0, a1), RelationTest(op))
  {
    var use := TermUse(Br(RelationTest(op), 0, 0));
    var rest := if op == Jeq then [AluX(Sub)] + [] else [];
    var tail := [LdxMem(a1.regno)] + ([LdMem(a0.regno)] + rest);
    if op == Jeq { LiveInCons(AluX(Sub), [], use); }
    LiveInCons(LdMem(a0.regno), rest, use);
    LiveInCons(LdxMem(a1.regno), [LdMem(a0.regno)] + rest, use);
    assert LiveIn(tail, use) <= {a0.regno, a1.regno};
    LiveInConcat(a0.s + a1.s, tail, use);
    LiveInConcat(a0.s, a1.s, LiveIn(tail, use));
    assert LiveIn(a1.s, LiveIn(tail, use)) <= LiveIn(tail, use) - {a1.regno};
    assert LiveIn(a0.s, LiveIn(a1.s, LiveIn(tail, use))) <= LiveIn(a1.s, LiveIn(tail, use)) - {a0.regno};
    forall keep: set<Atom> ensures NoLocalUse(RelationStmts(op, a0, a1), keep) { RelationNoLocalUse(op, a0, a1, keep); }
  }

  /** X is set anew before the comparison, so no access's index is used again. */
  lemma RelationNoLocalUse(op: JmpOp, a0: Arth, a1: Arth, keep: set<Atom>)
    requires NoInputs(a1.s, a1.regno) && Tidy(a0.s) && Tidy(a1.s)
    ensures NoLocalUse(RelationStmts(op, a0, a1), keep)
  {
    var rest := if op == Jeq then [AluX(Sub)] + [] else [];
    var tail := [LdxMem(a1.regno)] + ([LdMem(a0.regno)] + rest);
    if op == Jeq { LiveInCons(AluX(Sub), [], keep); }
    LiveInCons(LdMem(a0.regno), rest, keep);
    LiveInCons(LdxMem(a1.regno), [LdMem(a0.regno)] + rest, keep);
    assert forall i | 0 <= i < |tail| :: !tail[i].LdInd?;
    NoLocalConcat(a1.s, tail, keep);
    LiveInConcat(a1.s, tail, keep);
    NoLocalConcat(a0.s, a1.s + tail, keep);
    assert a0.s + a1.s + tail == a0.s + (a1.s + tail);
  }

  ghost predicate AllClosed(cs: seq<Cond>) { forall c | c in cs :: Closed(c) }

  lemma {:induction false} GuardClosed(e: ArithExpr)
    requires AllClosed(MadeChecks(e))
    ensures Guard(e).Some? ==> Closed(Guard(e).value)
  {
    match e
    case Imm(_) =>
    case Len =>
    case Minus(a) => GuardClosed(a);
    case Bin(_, a, _) => GuardClosed(a);
    case Access(h, _, a) =>
      assert AllClosed(MadeChecks(a)) by {
        forall c | c in MadeChecks(a) ensures Closed(c) { assert c in HeaderChecks(h, MadeChecks(a)); }
      }
      GuardClosed(a);
      match h
      case Link(_) =>
      case Net(_, proto) => assert proto in HeaderChecks(h, MadeChecks(a));
      case Tran(_, ip, proto, frag) =>
        assert ip in HeaderChecks(h, MadeChecks(a)) && proto in HeaderChecks(h, MadeChecks(a))
            && frag in HeaderChecks(h, MadeChecks(a));
  }

  // The tests of a comparison

  /** A test that one of the checks of an expression makes. */
  ghost predicate CheckTest(e: ArithExpr, ss: seq<Stmt>, t: Test) {
    exists d :: d in MadeChecks(e) && HasTest(d, ss, t)
  }

  lemma {:induction false} GuardTests(e: ArithExpr, ss: seq<Stmt>, t: Test)
    requires Guard(e).Some? && HasTest(Guard(e).value, ss, t)
    ensures CheckTest(e, ss, t)
  {
    match e
    case Minus(a) => GuardTests(a, ss, t);
    case Bin(_, a, _) => GuardTests(a, ss, t);
    case Access(h, _, a) =>
      if Guard(a).Some? && HasTest(Guard(a).value, ss, t) {
        GuardTests(a, ss, t);
        var d :| d in MadeChecks(a) && HasTest(d, ss, t);
        assert d in HeaderChecks(h, MadeChecks(a));
      } else {
        match h
        case Net(_, proto) => assert proto in HeaderChecks(h, MadeChecks(a));
        case Tran(_, ip, proto, frag) =>
          assert HasTest(Behind(Guard(a), Conj(proto, frag)), ss, t) ==> HasTest(Conj(proto, frag), ss, t);
          assert ip in HeaderChecks(h, MadeChecks(a)) && proto in HeaderChecks(h, MadeChecks(a))
              && frag in HeaderChecks(h, MadeChecks(a));
      }
  }

  /** The block of the comparison itself: it decides as the values compare, and tests for equality by a subtraction. */
  ghost predicate ComparisonTest(op: JmpOp, e0: ArithExpr, e1: ArithExpr, ss: seq<Stmt>, t: Test) {
    && t == RelationTest(op) && ClosedTest(ss, t)
    && (op == Jeq ==> |ss| >= 2 && ss[|ss| - 2].LdMem? && ss[|ss| - 1] == AluX(Sub))
    && forall p, r :: Conclusion(Eval(Check(ss, t), p, r)) == Compared(op, false, e0, e1, p)
  }

  ghost predicate RelationHasTest(op: JmpOp, e0: ArithExpr, e1: ArithExpr, ss: seq<Stmt>, t: Test) {
    CheckTest(e0, ss, t) || CheckTest(e1, ss, t) || ComparisonTest(op, e0, e1, ss, t)
  }

  lemma ComparisonIs(op: JmpOp, a0: Arth, a1: Arth, e0: ArithExpr, e1: ArithExpr, busy: RegTable)
    requires Ready(a0, e0, busy, busy[a0.regno := true]) && Computes(a1.s, a1.regno, e1, busy[a0.regno := true])
    requires ClosedTest(RelationStmts(op, a0, a1), RelationTest(op))
    ensures ComparisonTest(op, e0, e1, RelationStmts(op, a0, a1), RelationTest(op))
  {
    forall p, r
      ensures Conclusion(Eval(Check(RelationStmts(op, a0, a1), RelationTest(op)), p, r))
              == Compared(op, false, e0, e1, p)
    {
      CompareRight(op, a0, a1, e0, e1, busy, p, r);
    }
  }

  /** The comparison behind its checks makes these tests and no others. */
  lemma RelationTests(op: JmpOp, reversed: bool, a0: Arth, a1: Arth, e0: ArithExpr, e1: ArithExpr, busy: RegTable)
    requires Ready(a0, e0, busy, busy[a0.regno := true]) && Computes(a1.s, a1.regno, e1, busy[a0.regno := true])
    requires a1.b == Guard(e1)
    requires ClosedTest(RelationStmts(op, a0, a1), RelationTest(op))
    ensures var check := Check(RelationStmts(op, a0, a1), RelationTest(op));
            forall ss, t | HasTest(Guarding(Both(a0.b, a1.b), Reversed(check, reversed)), ss, t) ::
              RelationHasTest(op, e0, e1, ss, t)
  {
    var check := Check(RelationStmts(op, a0, a1), RelationTest(op));
    ComparisonIs(op, a0, a1, e0, e1, busy);
    forall ss, t | HasTest(Guarding(Both(a0.b, a1.b), Reversed(check, reversed)), ss, t)
      ensures RelationHasTest(op, e0, e1, ss, t)
    {
      assert !HasTest(Reversed(check, reversed), ss, t) ==>
        Both(a0.b, a1.b).Some? && HasTest(Both(a0.b, a1.b).value, ss, t);
      assert HasTest(Reversed(check, reversed), ss, t) ==> HasTest(check, ss, t);
      if a0.b.Some? && HasTest(a0.b.value, ss, t) {
        GuardTests(e0, ss, t);
      } else if a1.b.Some? && HasTest(a1.b.value, ss, t) {
        GuardTests(e1, ss, t);
      }
    }
  }

  /** Compare two compiled expressions, behind the protocol checks, and give the registers back. */
  method GenRelation(regs: Allocator, op: JmpOp, a0: Arth, a1: Arth, reversed: bool,
                     ghost e0: ArithExpr, ghost e1: ArithExpr, ghost busy: RegTable)
    returns (c: Cond)
    requires regs.Valid()
    requires Ready(a0, e0, busy, busy[a0.regno := true]) && Ready(a1, e1, busy[a0.regno := true], regs.Regused())
    modifies regs.regused
    ensures regs.Valid() && regs.Regused() == busy
    ensures forall p, r :: Conclusion(Eval(c, p, r)) == RelationMeans(op, reversed, e0, e1, p, r)
    ensures AllClosed(MadeChecks(e0)) && AllClosed(MadeChecks(e1)) ==> Closed(c)
    ensures forall ss, t | HasTest(c, ss, t) :: RelationHasTest(op, e0, e1, ss, t)
  {
    if AllClosed(MadeChecks(e0)) && AllClosed(MadeChecks(e1)) {
      GuardClosed(e0);
      GuardClosed(e1);
    }
    RelationClosed(op, a0, a1);
    var s1, test := [LdMem(a0.regno)], JmpX(op);
    if op == Jeq {
      test := JmpK(op, 0);
      s1 := s1 + [AluX(Sub)];
    }
    c := Check(a0.s + (a1.s + ([LdxMem(a1.regno)] + s1)), test);
    assert c == Check(RelationStmts(op, a0, a1), RelationTest(op));
    if reversed { c := Inv(c); }
    regs.FreeReg(a0.regno);
    regs.FreeReg(a1.regno);
    var tmp;
    if a0.b.Some? {
      if a1.b.Some? { tmp := Some(Conj(a0.b.value, a1.b.value)); } else { tmp := a0.b; }
    } else {
      tmp := a1.b;
    }
    if tmp.Some? { c := Conj(tmp.value, c); }
    RelationTests(op, reversed, a0, a1, e0, e1, busy);
    forall p, r ensures Conclusion(Eval(c, p, r)) == RelationMeans(op, reversed, e0, e1, p, r) {
      RelationRight(op, reversed, a0, a1, e0, e1, busy, p, r);
    }
  }

  /** A comparison from its two expressions: it compiles exactly when 16 registers are enough, and then means
      the comparison of their values. */
  method CompileRelation(regs: Allocator, op: JmpOp, e0: ArithExpr, e1: ArithExpr, reversed: bool)
    returns (c: Option<Cond>)
    requires regs.Valid()
    modifies regs`curreg, regs.regused
    ensures regs.Valid()
    ensures c.Some? <==> SizesOk(e0) && SizesOk(e1) && Busy(old(regs.Regused())) + Max(Need(e0), 1 + Need(e1)) <= 16
    ensures c.Some? ==> regs.Regused() == old(regs.Regused())
    ensures c.Some? ==> forall p, r :: Conclusion(Eval(c.value, p, r)) == RelationMeans(op, reversed, e0, e1, p, r)
    ensures c.Some? && AllClosed(MadeChecks(e0)) && AllClosed(MadeChecks(e1)) ==> Closed(c.value)
    ensures c.Some? ==> forall ss, t | HasTest(c.value, ss, t) :: RelationHasTest(op, e0, e1, ss, t)
  {
    ghost var busy := regs.Regused();
    var a0 := regs.Compile(e0);
    if a0.None? { return None; }
    BusyUpdate(busy, a0.value.regno, true);
    var a1 := regs.Compile(e1);
    if a1.None? { return None; }
    var c' := GenRelation(regs, op, a0.value, a1.value, reversed, e0, e1, busy);
    c := Some(c');
  }

  /** A comparison without a guarded right operand accepts only packets that pass every accessor's check. */
  lemma AcceptedIsChecked(op: JmpOp, reversed: bool, e0: ArithExpr, e1: ArithExpr, p: Packet, r: Regs)
    requires !RightGuarded(e0) && !RightGuarded(e1) && RelationMeans(op, reversed, e0, e1, p, r) == Some(true)
    ensures EvalAll(AllChecks(e0) + AllChecks(e1), p, r).Decided? && EvalAll(AllChecks(e0) + AllChecks(e1), p, r).holds
  {
    AllChecksMade(e0);
    AllChecksMade(e1);
  }

  /** `0 + ip[0] = 0` accepts a frame whose type field does not say IP. */
  lemma RightCheckForgotten(r: Regs)
    ensures var p := Packet(seq(15, _ => 0), 15);
            var isIp := Check([LdAbs(H, 12)], JmpK(Jeq, 0x800));
            var e := Bin(Add, Imm(0), Access(Net(14, isIp), 1, Imm(0)));
            && RelationMeans(Jeq, false, e, Imm(0), p, r) == Some(true)
            && Conclusion(EvalAll(AllChecks(e) + AllChecks(Imm(0)), p, r)) == Some(false)
  {
    var p := Packet(seq(15, _ => 0), 15);
    var isIp := Check([LdAbs(H, 12)], JmpK(Jeq, 0x800));
    var right := Access(Net(14, isIp), 1, Imm(0));
    var e := Bin(Add, Imm(0), right);
    assert Value(right, p) == Load(p, B, 14);
    assert Value(e, p) == Some(0);
    assert AllChecks(right) == [isIp];
    assert AllChecks(e) + AllChecks(Imm(0)) == [isIp];
    assert MadeChecks(e) + MadeChecks(Imm(0)) == [];
    ExecCons(LdAbs(H, 12), [], p, r);
    assert [LdAbs(H, 12)] == [LdAbs(H, 12)] + [];
    EvalOne(isIp, p, r);
  }
}
