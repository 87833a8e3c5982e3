/** Value numbering of whole blocks and graphs: statement lists, joins and the sweep (opt_blk, opt_blks). */
module NumberingPass {
  import opened Machine
  import opened Graph
  import opened Levels
  import opened Liveness
  import opened Dominance
  import opened ValueTable
  import opened Numbering

  // Statement lists

  ghost function DefsAll(ss: seq<Stmt>): set<Atom> {
    if ss == [] then {} else Defs(ss[0]) + DefsAll(ss[1..])
  }

  lemma {:induction false} DefsAllAppend(ss: seq<Stmt>, s: Stmt)
    ensures DefsAll(ss + [s]) == DefsAll(ss) + Defs(s)
  {
    if ss == [] {
      assert ss + [s] == [s] && DefsAll([s][1..]) == {};
    } else {
      assert (ss + [s])[1..] == ss[1..] + [s];
      DefsAllAppend(ss[1..], s);
    }
  }

  /** What is live after a list but not before it is written by the list. */
  lemma {:induction false} LiveOrDefined(ss: seq<Stmt>, live: set<Atom>)
    ensures live <= LiveIn(ss, live) + DefsAll(ss)
    ensures LiveIn(ss, {}) <= LiveIn(ss, live)
  {
    if ss != [] { LiveOrDefined(ss[1..], live); }
  }

  /** Atoms that a list neither reads first nor sets pass through. */
  lemma {:induction false} PassesThrough(ss: seq<Stmt>, live: set<Atom>, more: set<Atom>, a: Atom)
    requires a in LiveIn(ss, live + more) && a !in LiveIn(ss, live)
    ensures a in more && a !in DefsAll(ss)
  {
    if ss != [] { PassesThrough(ss[1..], live, more, a); }
  }

  /** The list reads no atom numbered 0. */
  ghost predicate KnownList(ss: seq<Stmt>, val: Vals) {
    forall a: Atom | a in LiveIn(ss, {}) :: val[a] != 0
  }

  /** The numbers after the list are right, whatever the state before it, for all atoms it writes. */
  ghost predicate ListNumbers(es: seq<Expr>, ss: seq<Stmt>, val: Vals, val': Vals)
    requires WellFounded(es)
  {
    forall atoms: set<Atom>, p, r |
      LiveIn(ss, {}) <= atoms && MatchesOn(es, val, atoms, p, r) && ExecAll(ss, p, r).Some? ::
      MatchesOn(es, val', atoms + DefsAll(ss), p, ExecAll(ss, p, r).value)
  }

  /** The rewritten list does what the original does wherever the numbers hold and the original does not fault. */
  ghost predicate ListSame(es: seq<Expr>, ss: seq<Stmt>, ss': seq<Stmt>, val: Vals)
    requires WellFounded(es)
  {
    KnownList(ss, val) ==>
      forall p, r | Matches(es, val, p, r) && ExecAll(ss, p, r).Some? :: ExecAll(ss', p, r) == ExecAll(ss, p, r)
  }

  /** `vs` are the numbers before, between and after the statements of a list, each following from the one before. */
  ghost predicate NamedAlong(es: seq<Expr>, ss: seq<Stmt>, vs: seq<Vals>) {
    |vs| == |ss| + 1 && forall i | 0 <= i < |ss| :: Named(es, ss[i], vs[i], vs[i + 1])
  }

  /** The numbers after a list follow from its statements and the numbers before it. */
  ghost predicate NamedList(es: seq<Expr>, ss: seq<Stmt>, val: Vals, val': Vals) {
    exists vs :: NamedAlong(es, ss, vs) && vs[0] == val && vs[|ss|] == val'
  }

  lemma NamedListGrows(es: seq<Expr>, es': seq<Expr>, ss: seq<Stmt>, val: Vals, val': Vals)
    requires NamedList(es, ss, val, val') && es <= es'
    ensures NamedList(es', ss, val, val')
  {
    var vs :| NamedAlong(es, ss, vs) && vs[0] == val && vs[|ss|] == val';
    forall i | 0 <= i < |ss| ensures Named(es', ss[i], vs[i], vs[i + 1]) { assert Named(es, ss[i], vs[i], vs[i + 1]); }
    assert NamedAlong(es', ss, vs);
  }

  lemma NamedListSnoc(es: seq<Expr>, es': seq<Expr>, ss: seq<Stmt>, s: Stmt, val: Vals, val1: Vals, val2: Vals)
    requires NamedList(es, ss, val, val1) && es <= es' && Named(es', s, val1, val2)
    ensures NamedList(es', ss + [s], val, val2)
  {
    NamedListGrows(es, es', ss, val, val1);
    var vs :| NamedAlong(es', ss, vs) && vs[0] == val && vs[|ss|] == val1;
    var ws := vs + [val2];
    forall i | 0 <= i < |ss + [s]| ensures Named(es', (ss + [s])[i], ws[i], ws[i + 1]) {
      if i < |ss| { assert Named(es', ss[i], vs[i], vs[i + 1]); }
    }
    assert NamedAlong(es', ss + [s], ws);
  }

  /** How the list `ss` is rewritten into `ss'`, statement by statement, with the numbers `vs` in between. */
  ghost predicate FormedAlong(es: seq<Expr>, ss: seq<Stmt>, ss': seq<Stmt>, vs: seq<Vals>) {
    && |vs| == |ss| + 1 && |ss'| == |ss| && (forall i | 0 <= i <= |ss| :: InTable(es, vs[i]))
    && forall i | 0 <= i < |ss| :: FormedAt(es, ss, ss', vs, i)
  }

  ghost predicate FormedAt(es: seq<Expr>, ss: seq<Stmt>, ss': seq<Stmt>, vs: seq<Vals>, i: nat)
    requires i < |ss| == |ss'| && |vs| == |ss| + 1
  {
    Formed(es, ss[i], ss'[i], vs[i], vs[i + 1], true) && Named(es, ss'[i], vs[i], vs[i + 1])
  }

  ghost predicate FormedList(es: seq<Expr>, ss: seq<Stmt>, ss': seq<Stmt>, val: Vals, val': Vals) {
    exists vs :: FormedAlong(es, ss, ss', vs) && vs[0] == val && vs[|ss|] == val'
  }

  lemma FormedGrows(es: seq<Expr>, es': seq<Expr>, ss: seq<Stmt>, ss': seq<Stmt>, val: Vals, val': Vals)
    requires FormedList(es, ss, ss', val, val') && es <= es'
    ensures FormedList(es', ss, ss', val, val')
  {
    var vs :| FormedAlong(es, ss, ss', vs) && vs[0] == val && vs[|ss|] == val';
    forall i | 0 <= i < |ss| ensures FormedAt(es', ss, ss', vs, i) {
      assert InTable(es, vs[i]) && FormedAt(es, ss, ss', vs, i);
    }
    assert FormedAlong(es', ss, ss', vs);
  }

  lemma FormedSnoc(es: seq<Expr>, es': seq<Expr>, ss: seq<Stmt>, ss': seq<Stmt>, s: Stmt, s': Stmt, val: Vals,
                   val1: Vals, val2: Vals)
    requires FormedList(es, ss, ss', val, val1) && es <= es' && InTable(es', val2)
    requires Formed(es', s, s', val1, val2, true) && Named(es', s', val1, val2)
    ensures FormedList(es', ss + [s], ss' + [s'], val, val2)
  {
    FormedGrows(es, es', ss, ss', val, val1);
    var vs :| FormedAlong(es', ss, ss', vs) && vs[0] == val && vs[|ss|] == val1;
    var ws := vs + [val2];
    forall i | 0 <= i < |ss + [s]| ensures FormedAt(es', ss + [s], ss' + [s'], ws, i) {
      if i < |ss| { assert FormedAt(es', ss, ss', vs, i); }
    }
    assert FormedAlong(es', ss + [s], ss' + [s'], ws);
  }

  ghost predicate ListOk(es: seq<Expr>, ss: seq<Stmt>, ss': seq<Stmt>, val: Vals, val': Vals) {
    && WellFounded(es) && InTable(es, val) && InTable(es, val')
    && ListNumbers(es, ss, val, val') && ListSame(es, ss, ss', val) && NamedList(es, ss', val, val')
    && (forall a: Atom | a !in DefsAll(ss) :: val'[a] == val[a])
    && (KnownList(ss, val) ==> forall a: Atom | a in DefsAll(ss) :: val'[a] != 0)
  }

  lemma ListOkGrows(es: seq<Expr>, es': seq<Expr>, ss: seq<Stmt>, ss': seq<Stmt>, val: Vals, val': Vals)
    requires ListOk(es, ss, ss', val, val') && Grown(es, es')
    ensures ListOk(es', ss, ss', val, val')
  {
    NamedListGrows(es, es', ss', val, val');
    forall atoms: set<Atom>, p, r |
      LiveIn(ss, {}) <= atoms && MatchesOn(es', val, atoms, p, r) && ExecAll(ss, p, r).Some?
      ensures MatchesOn(es', val', atoms + DefsAll(ss), p, ExecAll(ss, p, r).value)
    {
      MatchesStable(es, es', val, p, r);
      MatchesStable(es, es', val', p, ExecAll(ss, p, r).value);
    }
    forall p, r | KnownList(ss, val) && Matches(es', val, p, r) && ExecAll(ss, p, r).Some?
      ensures ExecAll(ss', p, r) == ExecAll(ss, p, r)
    {
      MatchesStable(es, es', val, p, r);
    }
  }

  lemma MatchesFromOn(es: seq<Expr>, ss: seq<Stmt>, ss': seq<Stmt>, val: Vals, val': Vals, p: Packet, r: Regs)
    requires ListOk(es, ss, ss', val, val') && KnownList(ss, val)
    requires Matches(es, val, p, r) && ExecAll(ss, p, r).Some?
    ensures Matches(es, val', p, ExecAll(ss, p, r).value)
  {
    var atoms := set a: Atom | 0 <= a < 18 && val[a] != 0;
    assert MatchesOn(es, val, atoms, p, r);
    assert MatchesOn(es, val', atoms + DefsAll(ss), p, ExecAll(ss, p, r).value);
  }

  lemma ListEmpty(es: seq<Expr>, val: Vals)
    requires WellFounded(es) && InTable(es, val)
    ensures ListOk(es, [], [], val, val)
  {
    assert forall atoms: set<Atom> :: atoms + DefsAll([]) == atoms;
    assert NamedAlong(es, [], [val]);
  }

  /** One more statement. */
  lemma ListStep(es: seq<Expr>, es': seq<Expr>, ss: seq<Stmt>, ss': seq<Stmt>, s: Stmt, s': Stmt,
                 val: Vals, val1: Vals, val2: Vals)
    requires ListOk(es, ss, ss', val, val1) && StepOk(es, es', s, s', val1, val2) && Named(es', s', val1, val2)
    ensures ListOk(es', ss + [s], ss' + [s'], val, val2)
  {
    ListOkGrows(es, es', ss, ss', val, val1);
    NamedListSnoc(es, es', ss', s', val, val1, val2);
    DefsAllAppend(ss, s);
    LiveInAppend(ss, s, {});
    assert AtomUse(s) + ({} - Defs(s)) == AtomUse(s);
    LiveOrDefined(ss, AtomUse(s));
    forall atoms: set<Atom>, p, r |
      LiveIn(ss + [s], {}) <= atoms && MatchesOn(es', val, atoms, p, r) && ExecAll(ss + [s], p, r).Some?
      ensures MatchesOn(es', val2, atoms + DefsAll(ss + [s]), p, ExecAll(ss + [s], p, r).value)
    {
      StepNumbers(es, es', ss, s, val, val1, val2, atoms, p, r);
    }
    if KnownList(ss + [s], val) {
      assert KnownList(ss, val) && Known(s, val1);
      forall p, r | Matches(es', val, p, r) && ExecAll(ss + [s], p, r).Some?
        ensures ExecAll(ss' + [s'], p, r) == ExecAll(ss + [s], p, r)
      {
        ExecAppend(ss, [s], p, r);
        ExecAppend(ss', [s'], p, r);
        ExecOne(s, p, ExecAll(ss, p, r).value);
        ExecOne(s', p, ExecAll(ss, p, r).value);
        MatchesStable(es, es', val, p, r);
        MatchesFromOn(es, ss, ss', val, val1, p, r);
      }
    }
  }

  lemma StepNumbers(es: seq<Expr>, es': seq<Expr>, ss: seq<Stmt>, s: Stmt,
                    val: Vals, val1: Vals, val2: Vals, atoms: set<Atom>, p: Packet, r: Regs)
    requires Grown(es, es') && InTable(es, val) && ListNumbers(es, ss, val, val1)
    requires NumbersRight(es, es', s, val1, val2)
    requires LiveIn(ss, AtomUse(s)) <= atoms && MatchesOn(es', val, atoms, p, r) && ExecAll(ss + [s], p, r).Some?
    ensures MatchesOn(es', val2, atoms + (DefsAll(ss) + Defs(s)), p, ExecAll(ss + [s], p, r).value)
  {
    MatchesStable(es, es', val, p, r);
    LiveOrDefined(ss, AtomUse(s));
    ExecAppend(ss, [s], p, r);
    ExecOne(s, p, ExecAll(ss, p, r).value);
    assert MatchesOn(es, val1, atoms + DefsAll(ss), p, ExecAll(ss, p, r).value);
    assert atoms + DefsAll(ss) + Defs(s) == atoms + (DefsAll(ss) + Defs(s));
  }

  /** Evaluate the statements of a block symbolically, rewriting them if `alter`. */
  method OptStmts(t: Table, ss: seq<Stmt>, val: Vals, alter: bool) returns (ok: bool, ss': seq<Stmt>, val': Vals)
    requires t.Valid() && InTable(t.exprs, val) && t.curval + 2 * SLength(ss) < |t.vmap|
    modifies t
    ensures t.Valid() && |t.vmap| == old(|t.vmap|) && Grown(old(t.exprs), t.exprs)
    ensures |t.exprs| <= |old(t.exprs)| + 2 * SLength(ss)
    ensures ok ==> ListOk(t.exprs, ss, ss', val, val')
    ensures !ok ==> forall p, r | MatchesOn(old(t.exprs), val, LiveIn(ss, {}), p, r) :: ExecAll(ss, p, r).None?
    ensures !alter ==> ok && ss' == ss
    ensures ok && alter ==> FormedList(t.exprs, ss, ss', val, val')
  {
    ok, ss', val' := true, [], val;
    ListEmpty(t.exprs, val);
    assert FormedAlong(t.exprs, [], [], [val]);
    for i := 0 to |ss|
      invariant ok && t.Valid() && |t.vmap| == old(|t.vmap|) && Grown(old(t.exprs), t.exprs)
      invariant |t.exprs| <= |old(t.exprs)| + 2 * SLength(ss[..i])
      invariant ListOk(t.exprs, ss[..i], ss', val, val')
      invariant !alter ==> ss' == ss[..i]
      invariant alter ==> FormedList(t.exprs, ss[..i], ss', val, val')
    {
      var s, val1;
      ghost var es, pre := t.exprs, ss[..i];
      assert ss[..i + 1] == pre + [ss[i]] && (pre + [ss[i]])[..i] == pre;
      CodeAppend(pre, ss[i]);
      CodePrefix(ss, i + 1);
      ok, s, val1 := OptStmt(t, ss[i], val', alter);
      if !ok {
        FaultingStatement(old(t.exprs), es, ss, i, ss', val, val');
        return;
      }
      ListStep(es, t.exprs, pre, ss', ss[i], s, val, val', val1);
      if alter { FormedSnoc(es, t.exprs, pre, ss', ss[i], s, val, val', val1); }
      ss', val' := ss' + [s], val1;
    }
    assert ss[..|ss|] == ss;
  }

  /** If one statement always faults where the numbers hold, so does the list. */
  lemma FaultingStatement(es: seq<Expr>, es1: seq<Expr>, ss: seq<Stmt>, i: nat, pre': seq<Stmt>, val: Vals, val1: Vals)
    requires i < |ss| && Grown(es, es1) && InTable(es, val) && ListOk(es1, ss[..i], pre', val, val1)
    requires forall p, r | MatchesOn(es1, val1, AtomUse(ss[i]), p, r) :: Exec(ss[i], p, r).None?
    ensures forall p, r | MatchesOn(es, val, LiveIn(ss, {}), p, r) :: ExecAll(ss, p, r).None?
  {
    var live := LiveIn(ss, {});
    assert ss == ss[..i] + ss[i..];
    ReadOrDefined(ss[..i], ss[i..]);
    forall p, r | MatchesOn(es, val, live, p, r) ensures ExecAll(ss, p, r).None? {
      MatchesStable(es, es1, val, p, r);
      ExecAppend(ss[..i], ss[i..], p, r);
      if ExecAll(ss[..i], p, r).Some? {
        assert MatchesOn(es1, val1, live + DefsAll(ss[..i]), p, ExecAll(ss[..i], p, r).value);
        assert ss[i..][0] == ss[i] && Exec(ss[i], p, ExecAll(ss[..i], p, r).value).None?;
      }
    }
  }

  /** What a list reads first, and what its next statement reads, is live before or written by the list. */
  lemma {:induction false} ReadOrDefined(ss: seq<Stmt>, tt: seq<Stmt>)
    requires tt != []
    ensures LiveIn(ss, {}) <= LiveIn(ss + tt, {}) && AtomUse(tt[0]) <= LiveIn(ss + tt, {}) + DefsAll(ss)
  {
    if ss == [] {
      assert ss + tt == tt;
    } else {
      assert (ss + tt)[1..] == ss[1..] + tt;
      ReadOrDefined(ss[1..], tt);
    }
  }

  // Joins

  /** The edges into each block, in the order the source links them: the last one linked comes first. The levels may
      be those of an earlier graph `g0`, which the branch optimizer has changed into `g`. */
  method FindInedges(g: Graph, ghost g0: Graph, ghost lv: seq<nat>, levels: seq<seq<nat>>, root: nat, rootLevel: nat)
    returns (inEdges: seq<seq<Edge>>)
    requires LevelLists(g0, lv, root, levels) && rootLevel == lv[root] && |g| == |g0| && Levelled(g, lv)
    ensures EdgesFrom(g, Reach(g0, lv, root), inEdges)
  {
    inEdges := seq(|g|, _ => []);
    assert Above(g0, lv, root, rootLevel + 1) == {};
    for i := rootLevel + 1 downto 1
      invariant EdgesFrom(g, Above(g0, lv, root, i), inEdges)
    {
      VisitLevel(g0, lv, root, levels, i);
      for j := 0 to |levels[i]|
        invariant EdgesFrom(g, Visited(g0, lv, root, levels, i, j), inEdges)
      {
        VisitNext(g0, lv, root, levels, i, j);
        var b := levels[i][j];
        inEdges := LinkInedges(g, lv, Visited(g0, lv, root, levels, i, j), inEdges, b);
      }
    }
    EdgesAbove(g, lv, Reach(g0, lv, root), Above(g0, lv, root, 1), inEdges);
  }

  /** Add the edges of one block to the lists of its successors. */
  method LinkInedges(g: Graph, ghost lv: seq<nat>, ghost from: set<nat>, inEdges: seq<seq<Edge>>, b: nat)
    returns (inEdges': seq<seq<Edge>>)
    requires Levelled(g, lv) && EdgesFrom(g, from, inEdges) && b < |g| && b !in from
    ensures EdgesFrom(g, from + {b}, inEdges')
  {
    inEdges' := inEdges;
    if g[b].term.Br? {
      assert EdgeDown(g, lv, b, true) && EdgeDown(g, lv, b, false);
      LinkBoth(g, from, inEdges, b);
      var jt, jf := g[b].term.jt, g[b].term.jf;
      inEdges' := inEdges'[jt := [Edge(b, true)] + inEdges'[jt]];
      inEdges' := inEdges'[jf := [Edge(b, false)] + inEdges'[jf]];
    }
  }

  /** Leaves have no edges. */
  lemma EdgesAbove(g: Graph, lv: seq<nat>, from: set<nat>, above: set<nat>, inEdges: seq<seq<Edge>>)
    requires Levelled(g, lv) && EdgesFrom(g, above, inEdges) && above <= from
    requires forall x | x in from && x !in above :: x < |g| && lv[x] < 1
    ensures EdgesFrom(g, from, inEdges)
  {
    forall b, e | 0 <= b < |g|
      ensures e in inEdges[b] <==> ValidEdge(g, e) && e.src in from && Dst(g, e) == b
    {
      if ValidEdge(g, e) { assert EdgeDown(g, lv, e.src, e.dir); }
    }
  }

  /** `inEdges` lists, once each, exactly the edges from the blocks `from`, by the block they lead to. */
  ghost predicate EdgesFrom(g: Graph, from: set<nat>, inEdges: seq<seq<Edge>>) {
    && |inEdges| == |g|
    && (forall b | 0 <= b < |g| :: NoDup(inEdges[b]))
    && forall b, e | 0 <= b < |g| :: e in inEdges[b] <==> ValidEdge(g, e) && e.src in from && Dst(g, e) == b
  }

  lemma LinkBoth(g: Graph, from: set<nat>, inEdges: seq<seq<Edge>>, b: nat)
    requires EdgesFrom(g, from, inEdges) && b < |g| && g[b].term.Br? && b !in from
    requires g[b].term.jt < |g| && g[b].term.jf < |g|
    ensures var jt, jf := g[b].term.jt, g[b].term.jf;
            var in1 := inEdges[jt := [Edge(b, true)] + inEdges[jt]];
            EdgesFrom(g, from + {b}, in1[jf := [Edge(b, false)] + in1[jf]])
  {
    var jt, jf := g[b].term.jt, g[b].term.jf;
    var in1 := inEdges[jt := [Edge(b, true)] + inEdges[jt]];
    var in2 := in1[jf := [Edge(b, false)] + in1[jf]];
    forall c, e | 0 <= c < |g|
      ensures e in in2[c] <==> ValidEdge(g, e) && e.src in from + {b} && Dst(g, e) == c
    {
      assert e in inEdges[c] <==> ValidEdge(g, e) && e.src in from && Dst(g, e) == c;
    }
  }

  /** All predecessors give the atom the same number. */
  ghost predicate Agreed(preds: seq<Edge>, vals: seq<Vals>, a: Atom)
    requires forall e | e in preds :: e.src < |vals|
  {
    forall i | 0 <= i < |preds| :: vals[preds[i].src][a] == vals[preds[0].src][a]
  }

  /** The numbers on entry to a block: those on which all its predecessors agree. */
  method Inherit(preds: seq<Edge>, vals: seq<Vals>) returns (val: Vals)
    requires forall e | e in preds :: e.src < |vals|
    ensures preds == [] ==> forall a: Atom :: val[a] == 0
    ensures forall a: Atom, e | e in preds && val[a] != 0 :: vals[e.src][a] == val[a]
    ensures preds != [] ==> forall a: Atom | Agreed(preds, vals, a) :: val[a] == vals[preds[0].src][a]
  {
    if preds == [] {
      return seq(18, _ => 0);
    }
    val := vals[preds[0].src];
    for i := 1 to |preds|
      invariant forall a: Atom, e | e in preds[..i] && val[a] != 0 :: vals[e.src][a] == val[a]
      invariant forall a: Atom | Agreed(preds[..i], vals, a) :: val[a] == vals[preds[0].src][a]
    {
      var other := vals[preds[i].src];
      assert preds[..i + 1] == preds[..i] + [preds[i]];
      forall a: Atom | Agreed(preds[..i + 1], vals, a)
        ensures Agreed(preds[..i], vals, a) && other[a] == vals[preds[0].src][a]
      {
        forall m | 0 <= m < i ensures preds[..i][m] == preds[..i + 1][m] { }
        assert preds[..i + 1][i] == preds[i];
      }
      val := seq(18, a requires 0 <= a < 18 => if val[a] != other[a] then 0 else val[a]);
    }
    assert preds[..|preds|] == preds;
  }

  // The sweep over the graph

  /** The operand number of a block's test. */
  ghost predicate OperandOk(es: seq<Expr>, term: Term, val: Vals, oval: nat) {
    match term
    case Ret(k) => IsConst(es, oval, k)
    case Br(JmpK(_, k), _, _) => IsConst(es, oval, k)
    case Br(JmpX(_), _, _) => oval == val[X_ATOM]
  }

  /** Block `b` has been numbered, and rewritten into its counterpart in `g'`. */
  ghost predicate BlockDone(es: seq<Expr>, b: Block, b': Block, val: Vals, val': Vals, oval: nat) {
    && b'.term == b.term
    && ListOk(es, b.stmts, b'.stmts, val, val')
    && OperandOk(es, b.term, val', oval)
  }

  /** Edge `e` leads from a reachable block to `b`. */
  ghost predicate IsPred(g: Graph, lv: seq<nat>, root: nat, b: nat, e: Edge)
    requires Levelled(g, lv) && root < |g|
  {
    ValidEdge(g, e) && e.src in Reach(g, lv, root) && Dst(g, e) == b
  }

  /** All predecessors of `b` leave `a` with number `v`. */
  ghost predicate AllLeave(g: Graph, lv: seq<nat>, root: nat, vals: seq<Vals>, b: nat, a: Atom, v: nat)
    requires Levelled(g, lv) && root < |g| && |vals| == |g|
  {
    forall e | IsPred(g, lv, root, b, e) :: vals[e.src][a] == v
  }

  /** Entry numbers are those on which the exits of all predecessors agree. */
  ghost predicate Joined(g: Graph, lv: seq<nat>, root: nat, valIn: seq<Vals>, vals: seq<Vals>, b: nat)
    requires Levelled(g, lv) && root < |g| && |valIn| == |vals| == |g| && b < |g|
  {
    && (b == root ==> forall a: Atom :: valIn[b][a] == 0)
    && forall e, a: Atom | ValidEdge(g, e) && e.src in Reach(g, lv, root) && Dst(g, e) == b && valIn[b][a] != 0 ::
         vals[e.src][a] == valIn[b][a]
  }

  /** An atom on whose number all predecessors agree keeps it. */
  ghost predicate Inherits(g: Graph, lv: seq<nat>, root: nat, valIn: seq<Vals>, vals: seq<Vals>, b: nat)
    requires Levelled(g, lv) && root < |g| && |valIn| == |vals| == |g| && b < |g|
  {
    forall e, a: Atom | IsPred(g, lv, root, b, e) && AllLeave(g, lv, root, vals, b, a, vals[e.src][a]) ::
      valIn[b][a] == vals[e.src][a]
  }

  /** The numbering of all blocks in `done`. */
  ghost predicate Numbered(es: seq<Expr>, g: Graph, g': Graph, lv: seq<nat>, root: nat,
                           valIn: seq<Vals>, vals: seq<Vals>, oval: seq<nat>, done: set<nat>) {
    && Levelled(g, lv) && root < |g|
    && |g'| == |valIn| == |vals| == |oval| == |g| && WellFounded(es)
    && (forall b | 0 <= b < |g| :: InTable(es, vals[b]))
    && (forall b | b in done :: b < |g| && BlockDone(es, g[b], g'[b], valIn[b], vals[b], oval[b])
                                && Joined(g, lv, root, valIn, vals, b))
    && (forall b | 0 <= b < |g| && b !in done :: g'[b] == g[b])
  }

  lemma NumberedStep(es: seq<Expr>, es': seq<Expr>, g: Graph, g': Graph, lv: seq<nat>, root: nat,
                     valIn: seq<Vals>, vals: seq<Vals>, oval: seq<nat>, done: set<nat>,
                     b: nat, blk: Block, val: Vals, val': Vals, o: nat)
    requires Numbered(es, g, g', lv, root, valIn, vals, oval, done) && Grown(es, es')
    requires b < |g| && b !in done && BlockDone(es', g[b], blk, val, val', o)
    requires Joined(g, lv, root, valIn[b := val], vals, b)
    requires forall x | x in done :: lv[x] >= lv[b]
    ensures Numbered(es', g, g'[b := blk], lv, root, valIn[b := val], vals[b := val'], oval[b := o], done + {b})
  {
    forall x | x in done + {b}
      ensures BlockDone(es', g[x], g'[b := blk][x], valIn[b := val][x], vals[b := val'][x], oval[b := o][x])
      ensures Joined(g, lv, root, valIn[b := val], vals[b := val'], x)
    {
      if x != b {
        ListOkGrows(es, es', g[x].stmts, g'[x].stmts, valIn[x], vals[x]);
      }
      forall e | ValidEdge(g, e) && Dst(g, e) == x ensures e.src != b {
        assert EdgeDown(g, lv, e.src, e.dir);
      }
    }
  }

  /** How the numbers of the blocks in `done` come about: from the predecessors and, if `alter`, statement by
      statement. */
  ghost predicate Traced(es: seq<Expr>, g: Graph, g': Graph, lv: seq<nat>, root: nat, valIn: seq<Vals>, vals: seq<Vals>,
                         done: set<nat>, alter: bool)
    requires Levelled(g, lv) && root < |g| && |g'| == |valIn| == |vals| == |g|
  {
    forall b | b in done :: b < |g| && Inherits(g, lv, root, valIn, vals, b)
                            && (alter ==> FormedList(es, g[b].stmts, g'[b].stmts, valIn[b], vals[b]))
  }

  lemma TracedStep(es: seq<Expr>, es': seq<Expr>, g: Graph, g': Graph, lv: seq<nat>, root: nat, valIn: seq<Vals>,
                   vals: seq<Vals>, done: set<nat>, b: nat, blk: Block, val: Vals, val': Vals, alter: bool)
    requires Levelled(g, lv) && root < |g| && |g'| == |valIn| == |vals| == |g| && es <= es'
    requires Traced(es, g, g', lv, root, valIn, vals, done, alter) && b < |g| && b !in done
    requires Inherits(g, lv, root, valIn[b := val], vals, b)
    requires alter ==> FormedList(es', g[b].stmts, blk.stmts, val, val')
    requires forall x | x in done :: lv[x] >= lv[b]
    ensures Traced(es', g, g'[b := blk], lv, root, valIn[b := val], vals[b := val'], done + {b}, alter)
  {
    forall x | x in done + {b}
      ensures Inherits(g, lv, root, valIn[b := val], vals[b := val'], x)
      ensures alter ==> FormedList(es', g[x].stmts, g'[b := blk][x].stmts, valIn[b := val][x], vals[b := val'][x])
    {
      if x != b && alter { FormedGrows(es, es', g[x].stmts, g'[x].stmts, valIn[x], vals[x]); }
      InheritsStep(g, lv, root, valIn[b := val], vals, x, b, val', if x == b then valIn[b := val] else valIn);
    }
  }

  lemma InheritsStep(g: Graph, lv: seq<nat>, root: nat, valIn: seq<Vals>, vals: seq<Vals>, x: nat, b: nat, val': Vals,
                     valIn0: seq<Vals>)
    requires Levelled(g, lv) && root < |g| && |valIn| == |valIn0| == |vals| == |g| && x < |g| && b < |g|
    requires lv[x] >= lv[b]
    requires Inherits(g, lv, root, valIn0, vals, x) && valIn0[x] == valIn[x]
    ensures Inherits(g, lv, root, valIn, vals[b := val'], x)
  {
    forall e | IsPred(g, lv, root, x, e) ensures e.src != b { assert EdgeDown(g, lv, e.src, e.dir); }
    forall e, a: Atom | IsPred(g, lv, root, x, e)
    && AllLeave(g, lv, root, vals[b := val'], x, a, vals[b := val'][e.src][a])
      ensures valIn[x][a] == vals[b := val'][e.src][a]
    {
      assert AllLeave(g, lv, root, vals, x, a, vals[e.src][a]);
    }
  }

  lemma InheritsHere(g: Graph, lv: seq<nat>, root: nat, valIn: seq<Vals>, vals: seq<Vals>, preds: seq<Edge>, b: nat)
    requires Levelled(g, lv) && root < |g| && |valIn| == |vals| == |g| && b < |g| && Preds(g, lv, root, preds, b)
    requires preds != [] ==> forall a: Atom | Agreed(preds, vals, a) :: valIn[b][a] == vals[preds[0].src][a]
    ensures Inherits(g, lv, root, valIn, vals, b)
  {
    forall e, a: Atom | IsPred(g, lv, root, b, e) && AllLeave(g, lv, root, vals, b, a, vals[e.src][a])
      ensures valIn[b][a] == vals[e.src][a]
    {
      assert e in preds && preds[0] in preds && IsPred(g, lv, root, b, preds[0]);
      forall i | 0 <= i < |preds| ensures vals[preds[i].src][a] == vals[e.src][a] {
        assert preds[i] in preds && IsPred(g, lv, root, b, preds[i]);
      }
      assert Agreed(preds, vals, a);
    }
  }

  /** Numbers still to be allotted: two per statement and one per branch of every unvisited block. */
  ghost function Budget(g: Graph, done: set<nat>, n: nat): nat
    requires n <= |g|
  {
    if n == 0 then 0
    else Budget(g, done, n - 1) + if n - 1 in done then 0 else 2 * SLength(g[n - 1].stmts) + 1
  }

  lemma {:induction false} BudgetSpend(g: Graph, done: set<nat>, b: nat, n: nat)
    requires n <= |g| && b !in done
    ensures Budget(g, done, n) == Budget(g, done + {b}, n) + if b < n then 2 * SLength(g[b].stmts) + 1 else 0
  {
    if n != 0 { BudgetSpend(g, done, b, n - 1); }
  }

  /** The size opt_init gives the tables: three numbers per statement or branch. */
  function Maxval(g: Graph, n: nat): nat
    requires n <= |g|
  {
    if n == 0 then 0 else Maxval(g, n - 1) + 3 * (SLength(g[n - 1].stmts) + 1)
  }

  /** The tables are large enough for one pass. */
  lemma {:induction false} MaxvalSuffices(g: Graph, n: nat)
    requires n <= |g|
    ensures Budget(g, {}, n) + 2 * n <= Maxval(g, n)
  {
    if n != 0 { MaxvalSuffices(g, n - 1); }
  }

  /** Give every reachable block its entry, exit and operand numbers, from the root down; rewrite it if `alter`. */
  method NumberBlocks(t: Table, g: Graph, ghost lv: seq<nat>, levels: seq<seq<nat>>, root: nat, rootLevel: nat,
                      inEdges: seq<seq<Edge>>, alter: bool)
    returns (ok: bool, g': Graph, vals: seq<Vals>, oval: seq<nat>, valIn: seq<Vals>)
    requires LevelLists(g, lv, root, levels) && rootLevel == lv[root]
    requires EdgesFrom(g, Reach(g, lv, root), inEdges)
    requires t.Valid() && t.exprs == [] && |t.vmap| == Maxval(g, |g|)
    modifies t
    ensures t.Valid() && |t.vmap| == Maxval(g, |g|) && (ok ==> t.curval + |g| < |t.vmap|)
    ensures ok ==> Numbered(t.exprs, g, g', lv, root, valIn, vals, oval, Reach(g, lv, root))
    ensures ok ==> Traced(t.exprs, g, g', lv, root, valIn, vals, Reach(g, lv, root), alter)
    ensures !alter ==> ok && g' == g
    ensures !ok ==> exists x :: x in Reach(g, lv, root) && FaultsIfClosed(g[x])
  {
    ok, g' := true, g;
    vals, oval, valIn := NoNumbers(t, g, lv, root, rootLevel);
    for i := rootLevel + 1 downto 0
      invariant t.Valid() && |t.vmap| == Maxval(g, |g|) && ok && (!alter ==> g' == g)
      invariant Numbered(t.exprs, g, g', lv, root, valIn, vals, oval, Above(g, lv, root, i))
      invariant Traced(t.exprs, g, g', lv, root, valIn, vals, Above(g, lv, root, i), alter)
      invariant t.curval + Budget(g, Above(g, lv, root, i), |g|) + |g| < |t.vmap|
    {
      ok, g', vals, oval, valIn := NumberLevel(t, g, lv, levels, root, i, inEdges, alter, g', vals, oval, valIn);
      if !ok { return; }
    }
    assert Above(g, lv, root, 0) == Reach(g, lv, root);
  }

  /** Nothing is numbered yet, and the table has room for the whole pass. */
  method NoNumbers(t: Table, g: Graph, ghost lv: seq<nat>, ghost root: nat, ghost rootLevel: nat)
    returns (vals: seq<Vals>, oval: seq<nat>, valIn: seq<Vals>)
    requires Levelled(g, lv) && root < |g| && rootLevel == lv[root]
    requires t.Valid() && t.exprs == [] && |t.vmap| == Maxval(g, |g|)
    ensures Numbered(t.exprs, g, g, lv, root, valIn, vals, oval, Above(g, lv, root, rootLevel + 1))
    ensures Above(g, lv, root, rootLevel + 1) == {}
    ensures t.curval + Budget(g, Above(g, lv, root, rootLevel + 1), |g|) + |g| < |t.vmap|
  {
    var unknown: Vals := seq(18, _ => 0);
    vals, oval, valIn := seq(|g|, _ => unknown), seq(|g|, _ => 0), seq(|g|, _ => unknown);
    assert Above(g, lv, root, rootLevel + 1) == {};
    MaxvalSuffices(g, |g|);
  }

  /** Number all blocks of level `i`. */
  method NumberLevel(t: Table, g: Graph, ghost lv: seq<nat>, levels: seq<seq<nat>>, ghost root: nat, i: nat,
                     inEdges: seq<seq<Edge>>, alter: bool,
                     g0: Graph, vals0: seq<Vals>, oval0: seq<nat>, valIn0: seq<Vals>)
    returns (ok: bool, g': Graph, vals: seq<Vals>, oval: seq<nat>, valIn: seq<Vals>)
    requires LevelLists(g, lv, root, levels) && i < |levels| && EdgesFrom(g, Reach(g, lv, root), inEdges)
    requires t.Valid() && Numbered(t.exprs, g, g0, lv, root, valIn0, vals0, oval0, Above(g, lv, root, i + 1))
    requires Traced(t.exprs, g, g0, lv, root, valIn0, vals0, Above(g, lv, root, i + 1), alter)
    requires t.curval + Budget(g, Above(g, lv, root, i + 1), |g|) + |g| < |t.vmap| && (!alter ==> g0 == g)
    modifies t
    ensures t.Valid() && |t.vmap| == old(|t.vmap|)
    ensures ok ==> Numbered(t.exprs, g, g', lv, root, valIn, vals, oval, Above(g, lv, root, i))
    ensures ok ==> Traced(t.exprs, g, g', lv, root, valIn, vals, Above(g, lv, root, i), alter)
    ensures ok ==> t.curval + Budget(g, Above(g, lv, root, i), |g|) + |g| < |t.vmap|
    ensures !alter ==> ok && g' == g
    ensures !ok ==> exists x :: x in Reach(g, lv, root) && FaultsIfClosed(g[x])
  {
    ok, g', vals, oval, valIn := true, g0, vals0, oval0, valIn0;
    VisitLevel(g, lv, root, levels, i);
    for j := 0 to |levels[i]|
      invariant t.Valid() && |t.vmap| == old(|t.vmap|) && ok && (!alter ==> g' == g)
      invariant Numbered(t.exprs, g, g', lv, root, valIn, vals, oval, Visited(g, lv, root, levels, i, j))
      invariant Traced(t.exprs, g, g', lv, root, valIn, vals, Visited(g, lv, root, levels, i, j), alter)
      invariant t.curval + Budget(g, Visited(g, lv, root, levels, i, j), |g|) + |g| < |t.vmap|
    {
      VisitNext(g, lv, root, levels, i, j);
      ListedPreds(g, lv, root, inEdges, levels[i][j]);
      ok, g', vals, oval, valIn := NumberNext(t, g, lv, root, inEdges[levels[i][j]], alter, levels[i][j],
                                              Visited(g, lv, root, levels, i, j), g', vals, oval, valIn);
      if !ok { return; }
    }
  }

  /** `preds` are the edges into `b` that a run can take. */
  ghost predicate Preds(g: Graph, lv: seq<nat>, root: nat, preds: seq<Edge>, b: nat)
    requires Levelled(g, lv) && root < |g|
  {
    forall e :: e in preds <==> ValidEdge(g, e) && e.src in Reach(g, lv, root) && Dst(g, e) == b
  }

  lemma ListedPreds(g: Graph, lv: seq<nat>, root: nat, inEdges: seq<seq<Edge>>, b: nat)
    requires Levelled(g, lv) && root < |g| && b < |g| && EdgesFrom(g, Reach(g, lv, root), inEdges)
    ensures Preds(g, lv, root, inEdges[b], b)
  {
  }

  /** Number block `b`, whose predecessors are all done. */
  method NumberNext(t: Table, g: Graph, ghost lv: seq<nat>, ghost root: nat, preds: seq<Edge>, alter: bool, b: nat,
                    ghost done: set<nat>, g0: Graph, vals0: seq<Vals>, oval0: seq<nat>, valIn0: seq<Vals>)
    returns (ok: bool, g': Graph, vals: seq<Vals>, oval: seq<nat>, valIn: seq<Vals>)
    requires t.Valid() && Numbered(t.exprs, g, g0, lv, root, valIn0, vals0, oval0, done)
    requires Traced(t.exprs, g, g0, lv, root, valIn0, vals0, done, alter)
    requires b in Reach(g, lv, root) && b !in done && (forall x | x in done :: lv[x] >= lv[b])
    requires Preds(g, lv, root, preds, b)
    requires t.curval + Budget(g, done, |g|) + |g| < |t.vmap| && (!alter ==> g0 == g)
    modifies t
    ensures t.Valid() && |t.vmap| == old(|t.vmap|)
    ensures ok ==> Numbered(t.exprs, g, g', lv, root, valIn, vals, oval, done + {b})
    ensures ok ==> Traced(t.exprs, g, g', lv, root, valIn, vals, done + {b}, alter)
    ensures ok ==> t.curval + Budget(g, done + {b}, |g|) + |g| < |t.vmap|
    ensures !alter ==> ok && g' == g
    ensures !ok ==> FaultsIfClosed(g[b])
  {
    g', vals, oval, valIn := g0, vals0, oval0, valIn0;
    BudgetSpend(g, done, b, |g|);
    ghost var es := t.exprs;
    var val := Inherit(preds, vals);
    JoinedHere(g, lv, root, valIn[b := val], vals, preds, b);
    InheritsHere(g, lv, root, valIn[b := val], vals, preds, b);
    EntryInTable(es, vals, preds, val);
    var blk, val', o;
    ok, blk, val', o := NumberBlock(t, g[b], val, alter);
    if ok {
      NumberedStep(es, t.exprs, g, g', lv, root, valIn, vals, oval, done, b, blk, val, val', o);
      TracedStep(es, t.exprs, g, g', lv, root, valIn, vals, done, b, blk, val, val', alter);
      g', valIn, vals, oval := g'[b := blk], valIn[b := val], vals[b := val'], oval[b := o];
    }
  }

  lemma EntryInTable(es: seq<Expr>, vals: seq<Vals>, preds: seq<Edge>, val: Vals)
    requires forall e | e in preds :: e.src < |vals| && InTable(es, vals[e.src])
    requires preds == [] ==> forall a: Atom :: val[a] == 0
    requires forall a: Atom, e | e in preds && val[a] != 0 :: vals[e.src][a] == val[a]
    ensures InTable(es, val)
  {
    if preds != [] { assert preds[0] in preds; }
  }

  /** The block, if it is self-contained, faults on every packet. */
  ghost predicate FaultsIfClosed(b: Block) { SelfContained(b) ==> forall p, r :: ExecAll(b.stmts, p, r).None? }

  /** Number one block from its entry numbers. */
  method NumberBlock(t: Table, b: Block, val: Vals, alter: bool) returns (ok: bool, b': Block, val': Vals, oval: nat)
    requires t.Valid() && InTable(t.exprs, val) && t.curval + 2 * SLength(b.stmts) + 1 < |t.vmap|
    modifies t
    ensures t.Valid() && |t.vmap| == old(|t.vmap|) && Grown(old(t.exprs), t.exprs)
    ensures |t.exprs| <= |old(t.exprs)| + 2 * SLength(b.stmts) + 1
    ensures ok ==> BlockDone(t.exprs, b, b', val, val', oval)
    ensures !ok ==>
              forall p, r | MatchesOn(old(t.exprs), val, LiveIn(b.stmts, {}), p, r) :: ExecAll(b.stmts, p, r).None?
    ensures !alter ==> ok && b' == b
    ensures ok && alter ==> FormedList(t.exprs, b.stmts, b'.stmts, val, val')
    ensures !ok ==> FaultsIfClosed(b)
  {
    var ss;
    ok, ss, val' := OptStmts(t, b.stmts, val, alter);
    b', oval := Block(ss, b.term), 0;
    if !ok {
      LiveInGrows(b.stmts, {}, TermUse(b.term));
      return;
    }
    ghost var es := t.exprs;
    oval := OperandNumber(t, b.term, val');
    ListOkGrows(es, t.exprs, b.stmts, ss, val, val');
    if alter { FormedGrows(es, t.exprs, b.stmts, ss, val, val'); }
  }

  /** The number of the operand of the test, for the branch optimizer. */
  method OperandNumber(t: Table, term: Term, val: Vals) returns (oval: nat)
    requires t.Valid() && t.curval + 1 < |t.vmap|
    modifies t
    ensures t.Valid() && |t.vmap| == old(|t.vmap|) && Grown(old(t.exprs), t.exprs) && |t.exprs| <= |old(t.exprs)| + 1
    ensures OperandOk(t.exprs, term, val, oval)
  {
    match term {
      case Ret(k) => oval := t.F(VImm(k));
      case Br(JmpK(_, k), _, _) => oval := t.F(VImm(k));
      case Br(JmpX(_), _, _) => oval := val[X_ATOM];
    }
  }

  /** The numbers of the operands of all tests. */
  method OperandNumbers(t: Table, g: Graph, vals: seq<Vals>) returns (oval: seq<nat>)
    requires t.Valid() && t.curval + |g| < |t.vmap| && |vals| == |g|
    modifies t
    ensures t.Valid() && Grown(old(t.exprs), t.exprs)
    ensures |oval| == |g| && forall b | 0 <= b < |g| :: OperandOk(t.exprs, g[b].term, vals[b], oval[b])
  {
    oval := [];
    for i := 0 to |g|
      invariant t.Valid() && |t.vmap| == old(|t.vmap|) && t.curval + |g| - i < |t.vmap| && Grown(old(t.exprs), t.exprs)
      invariant |oval| == i && forall b | 0 <= b < i :: OperandOk(t.exprs, g[b].term, vals[b], oval[b])
    {
      ghost var es := t.exprs;
      var o := OperandNumber(t, g[i].term, vals[i]);
      assert Grown(es, t.exprs);
      oval := oval + [o];
    }
  }

  lemma TracedGrows(es: seq<Expr>, es': seq<Expr>, g: Graph, g': Graph, lv: seq<nat>, root: nat, valIn: seq<Vals>,
                    vals: seq<Vals>, done: set<nat>, alter: bool)
    requires Levelled(g, lv) && root < |g| && |g'| == |valIn| == |vals| == |g| && es <= es'
    requires Traced(es, g, g', lv, root, valIn, vals, done, alter)
    ensures Traced(es', g, g', lv, root, valIn, vals, done, alter)
  {
    if alter {
      forall b | b in done ensures FormedList(es', g[b].stmts, g'[b].stmts, valIn[b], vals[b]) {
        FormedGrows(es, es', g[b].stmts, g'[b].stmts, valIn[b], vals[b]);
      }
    }
  }

  lemma NumberedGrows(es: seq<Expr>, es': seq<Expr>, g: Graph, g': Graph, lv: seq<nat>, root: nat,
                      valIn: seq<Vals>, vals: seq<Vals>, oval: seq<nat>, done: set<nat>)
    requires Numbered(es, g, g', lv, root, valIn, vals, oval, done) && Grown(es, es')
    ensures Numbered(es', g, g', lv, root, valIn, vals, oval, done)
  {
    forall b | b in done ensures BlockDone(es', g[b], g'[b], valIn[b], vals[b], oval[b]) {
      assert BlockDone(es, g[b], g'[b], valIn[b], vals[b], oval[b]);
      ListOkGrows(es, es', g[b].stmts, g'[b].stmts, valIn[b], vals[b]);
    }
  }

  lemma JoinedHere(g: Graph, lv: seq<nat>, root: nat, valIn: seq<Vals>, vals: seq<Vals>, preds: seq<Edge>, b: nat)
    requires Levelled(g, lv) && root < |g| && |valIn| == |vals| == |g| && b in Reach(g, lv, root)
    requires Preds(g, lv, root, preds, b)
    requires preds == [] ==> forall a: Atom :: valIn[b][a] == 0
    requires forall a: Atom, e | e in preds && valIn[b][a] != 0 :: vals[e.src][a] == valIn[b][a]
    ensures Joined(g, lv, root, valIn, vals, b)
  {
    forall e | e in preds ensures lv[e.src] > lv[b] { assert EdgeDown(g, lv, e.src, e.dir); }
    if preds != [] { assert preds[0] in preds; }
  }

  // Soundness over every run

  /** The state in which a run from the root arrives at the end of path `es`; `None` if it does not take that path. */
  ghost function StateAt(g: Graph, p: Packet, r: Regs, es: seq<Edge>): Option<Regs>
    requires forall e | e in es :: ValidEdge(g, e)
  {
    if es == [] then Some(r)
    else
      var e := es[|es| - 1];
      assert e in es && ValidEdge(g, e);
      var q := StateAt(g, p, r, es[..|es| - 1]);
      if q.None? then None
      else
        var q1 := ExecAll(g[e.src].stmts, p, q.value);
        if q1.Some? && Holds(g[e.src].term.test, q1.value) == e.dir then q1 else None
  }

  /** No block reads an atom numbered 0. */
  ghost predicate AllKnown(g: Graph, lv: seq<nat>, root: nat, valIn: seq<Vals>)
    requires Levelled(g, lv) && root < |g| && |valIn| == |g|
  {
    forall b | b in Reach(g, lv, root) :: KnownList(g[b].stmts, valIn[b])
  }

  /** On every run, at every block it reaches, each atom with a nonzero number holds the value that number denotes. */
  lemma {:induction false} NumberingSound(es: seq<Expr>, g: Graph, g': Graph, lv: seq<nat>, root: nat,
                                          valIn: seq<Vals>, vals: seq<Vals>, oval: seq<nat>,
                                          p: Packet, r: Regs, path: seq<Edge>, b: nat)
    requires Levelled(g, lv) && root < |g| && Numbered(es, g, g', lv, root, valIn, vals, oval, Reach(g, lv, root))
    requires AllKnown(g, lv, root, valIn)
    requires IsPath(g, root, path, b) && (forall e | e in path :: ValidEdge(g, e))
    requires StateAt(g, p, r, path).Some?
    ensures b in Reach(g, lv, root) && Matches(es, valIn[b], p, StateAt(g, p, r, path).value)
    decreases |path|
  {
    PathReaches(g, lv, root, path, b);
    assert Joined(g, lv, root, valIn, vals, b);
    if path != [] {
      var e := path[|path| - 1];
      var pre := path[..|path| - 1];
      NumberingSound(es, g, g', lv, root, valIn, vals, oval, p, r, pre, e.src);
      var q := StateAt(g, p, r, pre).value;
      assert BlockDone(es, g[e.src], g'[e.src], valIn[e.src], vals[e.src], oval[e.src]);
      MatchesFromOn(es, g[e.src].stmts, g'[e.src].stmts, valIn[e.src], vals[e.src], p, q);
    }
  }

  lemma NumberedLevelled(es: seq<Expr>, g: Graph, g': Graph, lv: seq<nat>, root: nat,
                         valIn: seq<Vals>, vals: seq<Vals>, oval: seq<nat>, done: set<nat>)
    requires Numbered(es, g, g', lv, root, valIn, vals, oval, done)
    ensures Levelled(g', lv)
  {
    forall b, d | 0 <= b < |g'| && g'[b].term.Br? ensures EdgeDown(g', lv, b, d) {
      assert g'[b].term == g[b].term by { if b in done { } }
      assert EdgeDown(g, lv, b, d);
    }
  }

  /** Rewriting all statements by their numbers preserves every run that does not fault. */
  lemma {:induction false} RewritePreserves(es: seq<Expr>, g: Graph, g': Graph, lv: seq<nat>, root: nat,
                                            valIn: seq<Vals>, vals: seq<Vals>, oval: seq<nat>,
                                            b: nat, p: Packet, r: Regs)
    requires Levelled(g, lv) && root < |g| && Numbered(es, g, g', lv, root, valIn, vals, oval, Reach(g, lv, root))
    requires Levelled(g', lv) && AllKnown(g, lv, root, valIn)
    requires b in Reach(g, lv, root) && Matches(es, valIn[b], p, r) && Run(g, lv, b, p, r).Return?
    ensures Run(g', lv, b, p, r) == Run(g, lv, b, p, r)
    decreases lv[b]
  {
    assert BlockDone(es, g[b], g'[b], valIn[b], vals[b], oval[b]);
    if g[b].term.Br? {
      var q := ExecAll(g[b].stmts, p, r).value;
      var d := Holds(g[b].term.test, q);
      var e := Edge(b, d);
      assert EdgeDown(g, lv, b, d) && EdgeDown(g', lv, b, d);
      ReachClosed(g, lv, root, e);
      MatchesFromOn(es, g[b].stmts, g'[b].stmts, valIn[b], vals[b], p, r);
      assert Joined(g, lv, root, valIn, vals, Dst(g, e));
      RewritePreserves(es, g, g', lv, root, valIn, vals, oval, Dst(g, e), p, q);
    }
  }

  /** From the root nothing is assumed of the registers. */
  lemma RewritePreservesRoot(es: seq<Expr>, g: Graph, g': Graph, lv: seq<nat>, root: nat,
                             valIn: seq<Vals>, vals: seq<Vals>, oval: seq<nat>)
    requires Levelled(g, lv) && root < |g| && Numbered(es, g, g', lv, root, valIn, vals, oval, Reach(g, lv, root))
    requires AllKnown(g, lv, root, valIn)
    ensures Levelled(g', lv) && Preserves(g, g', lv, lv, root)
  {
    NumberedLevelled(es, g, g', lv, root, valIn, vals, oval, Reach(g, lv, root));
    assert Joined(g, lv, root, valIn, vals, root);
    forall p, r | Run(g, lv, root, p, r).Return? ensures Run(g', lv, root, p, r) == Run(g, lv, root, p, r) {
      RewritePreserves(es, g, g', lv, root, valIn, vals, oval, root, p, r);
    }
  }
}
