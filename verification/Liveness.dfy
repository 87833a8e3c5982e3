/** Which atoms a block reads and writes, liveness over the graph, and dead-store removal. */
module Liveness {
  import opened Machine
  import opened Graph

  /** The atoms a statement reads. */
  function AtomUse(s: Stmt): set<Atom> {
    match s
    case LdInd(_, _) => {X_ATOM}
    case LdMem(m) => {m}
    case LdxMem(m) => {m}
    case St(_) => {A_ATOM}
    case Stx(_) => {X_ATOM}
    case AluK(_, _) => {A_ATOM}
    case AluX(_) => {A_ATOM, X_ATOM}
    case Neg => {A_ATOM}
    case Tax => {A_ATOM}
    case Txa => {X_ATOM}
    case _ => {}
  }

  /** The atom a statement writes: there is at most one. */
  function AtomDef(s: Stmt): Option<Atom> {
    match s
    case Nop => None
    case LdxImm(_) => Some(X_ATOM)
    case LdxMem(_) => Some(X_ATOM)
    case LdxMsh(_) => Some(X_ATOM)
    case St(m) => Some(m)
    case Stx(m) => Some(m)
    case Tax => Some(X_ATOM)
    case _ => Some(A_ATOM)
  }

  function Defs(s: Stmt): set<Atom> { if AtomDef(s).Some? then {AtomDef(s).value} else {} }

  /** The atoms the end of a block reads: only a branch reads any. */
  function TermUse(t: Term): set<Atom> {
    match t
    case Ret(_) => {}
    case Br(JmpK(_, _), _, _) => {A_ATOM}
    case Br(JmpX(_), _, _) => {A_ATOM, X_ATOM}
  }

  ghost predicate Agree(atoms: set<Atom>, r: Regs, r': Regs) {
    forall a: Atom | a in atoms :: r[a] == r'[a]
  }

  /** `AtomUse` and `AtomDef` describe a statement completely. */
  lemma ExecUsesAndDefs(s: Stmt, p: Packet, r: Regs, r': Regs)
    requires Agree(AtomUse(s), r, r')
    ensures Exec(s, p, r).Some? == Exec(s, p, r').Some?
    ensures Exec(s, p, r).Some? ==>
              forall a: Atom | a !in Defs(s) :: Exec(s, p, r).value[a] == r[a]
    ensures Exec(s, p, r).Some? ==>
              forall a: Atom | a in Defs(s) :: Exec(s, p, r).value[a] == Exec(s, p, r').value[a]
  {
    assert forall a: Atom | a in AtomUse(s) :: r[a] == r'[a];
  }

  /** Backward liveness: what is read before it is written, given what is live afterwards. */
  ghost function LiveIn(ss: seq<Stmt>, live: set<Atom>): set<Atom> {
    if ss == [] then live else AtomUse(ss[0]) + (LiveIn(ss[1..], live) - Defs(ss[0]))
  }

  lemma {:induction false} LiveInAppend(ss: seq<Stmt>, s: Stmt, live: set<Atom>)
    ensures LiveIn(ss + [s], live) == LiveIn(ss, AtomUse(s) + (live - Defs(s)))
  {
    if ss == [] {
      assert ss + [s] == [s] && LiveIn([s][1..], live) == live;
    } else {
      assert (ss + [s])[1..] == ss[1..] + [s];
      LiveInAppend(ss[1..], s, live);
    }
  }

  lemma {:induction false} LiveInConcat(ss: seq<Stmt>, tt: seq<Stmt>, live: set<Atom>)
    ensures LiveIn(ss + tt, live) == LiveIn(ss, LiveIn(tt, live))
  {
    if ss == [] {
      assert ss + tt == tt;
    } else {
      assert (ss + tt)[1..] == ss[1..] + tt;
      LiveInConcat(ss[1..], tt, live);
    }
  }

  /** States that agree on what is live before a list fault together and agree on what is live after it. */
  lemma {:induction false} LiveInSound(ss: seq<Stmt>, live: set<Atom>, p: Packet, r: Regs, r': Regs)
    requires Agree(LiveIn(ss, live), r, r')
    ensures ExecAll(ss, p, r).Some? == ExecAll(ss, p, r').Some?
    ensures ExecAll(ss, p, r).Some? ==> Agree(live, ExecAll(ss, p, r).value, ExecAll(ss, p, r').value)
  {
    if ss != [] {
      ExecUsesAndDefs(ss[0], p, r, r');
      ExecUsesAndDefs(ss[0], p, r', r);
      if Exec(ss[0], p, r).Some? {
        LiveInSound(ss[1..], live, p, Exec(ss[0], p, r).value, Exec(ss[0], p, r').value);
      }
    }
  }

  /** Atoms live on entry to a block, over every path out of it. */
  ghost function InUse(g: Graph, lv: seq<nat>, b: nat): set<Atom>
    requires Levelled(g, lv) && b < |g|
    decreases lv[b], 1
  {
    LiveIn(g[b].stmts, TermUse(g[b].term) + OutUse(g, lv, b))
  }

  ghost function OutUse(g: Graph, lv: seq<nat>, b: nat): set<Atom>
    requires Levelled(g, lv) && b < |g|
    decreases lv[b], 0
  {
    if g[b].term.Ret? then {}
    else
      assert EdgeDown(g, lv, b, true) && EdgeDown(g, lv, b, false);
      InUse(g, lv, g[b].term.jt) + InUse(g, lv, g[b].term.jf)
  }

  /** Liveness is sound: the run from a block depends only on the atoms in its `InUse`. */
  lemma {:induction false} InUseSound(g: Graph, lv: seq<nat>, b: nat, p: Packet, r: Regs, r': Regs)
    requires Levelled(g, lv) && b < |g| && Agree(InUse(g, lv, b), r, r')
    ensures Run(g, lv, b, p, r) == Run(g, lv, b, p, r')
    decreases lv[b]
  {
    LiveInSound(g[b].stmts, TermUse(g[b].term) + OutUse(g, lv, b), p, r, r');
    var q, q' := ExecAll(g[b].stmts, p, r), ExecAll(g[b].stmts, p, r');
    if q.Some? && g[b].term.Br? {
      var d := Holds(g[b].term.test, q.value);
      assert EdgeDown(g, lv, b, d);
      assert A_ATOM in TermUse(g[b].term);
      assert d == Holds(g[b].term.test, q'.value);
      InUseSound(g, lv, Succ(g[b], d), p, q.value, q'.value);
    }
  }

  // Self-contained blocks

  /** A block that writes every atom before it reads it. */
  ghost predicate SelfContained(b: Block) { LiveIn(b.stmts, TermUse(b.term)) == {} }

  ghost predicate AllSelfContained(g: Graph) {
    forall b | 0 <= b < |g| :: SelfContained(g[b])
  }

  lemma {:induction false} LiveInGrows(ss: seq<Stmt>, live: set<Atom>, more: set<Atom>)
    requires live <= more
    ensures LiveIn(ss, live) <= LiveIn(ss, more)
  {
    if ss != [] { LiveInGrows(ss[1..], live, more); }
  }

  lemma {:induction false} LiveInMonotone(ss: seq<Stmt>, live: set<Atom>, more: set<Atom>)
    ensures LiveIn(ss, live + more) <= LiveIn(ss, live) + more
  {
    if ss != [] { LiveInMonotone(ss[1..], live, more); }
  }

  /** When every block is self-contained, nothing is live between blocks. */
  lemma {:induction false} SelfContainedNothingLive(g: Graph, lv: seq<nat>, b: nat)
    requires Levelled(g, lv) && b < |g|
    requires forall c | 0 <= c < |g| :: SelfContained(g[c])
    ensures InUse(g, lv, b) == {}
    decreases lv[b]
  {
    if g[b].term.Br? {
      assert EdgeDown(g, lv, b, true) && EdgeDown(g, lv, b, false);
      SelfContainedNothingLive(g, lv, g[b].term.jt);
      SelfContainedNothingLive(g, lv, g[b].term.jf);
    }
    LiveInMonotone(g[b].stmts, TermUse(g[b].term), OutUse(g, lv, b));
  }

  /** A self-contained block decides its branch from the packet alone. */
  lemma SelfContainedTest(b: Block, p: Packet, r: Regs, r': Regs)
    requires SelfContained(b)
    ensures ExecAll(b.stmts, p, r).Some? == ExecAll(b.stmts, p, r').Some?
    ensures ExecAll(b.stmts, p, r).Some? ==>
              Agree(TermUse(b.term), ExecAll(b.stmts, p, r).value, ExecAll(b.stmts, p, r').value)
    ensures ExecAll(b.stmts, p, r).Some? && b.term.Br? ==>
              Holds(b.term.test, ExecAll(b.stmts, p, r).value) == Holds(b.term.test, ExecAll(b.stmts, p, r').value)
  {
    LiveInSound(b.stmts, TermUse(b.term), p, r, r');
    if ExecAll(b.stmts, p, r).Some? && b.term.Br? {
      assert A_ATOM in TermUse(b.term);
    }
  }

  // Blocks as the code generator makes them

  /** X is not read after an indirect load unless it is set in between. */
  ghost predicate NoLocalUse(ss: seq<Stmt>, keep: set<Atom>) {
    forall i | 0 <= i < |ss| && ss[i].LdInd? :: X_ATOM !in LiveIn(ss[i + 1..], keep)
  }

  /** A self-contained block that does not use the index of an access again and does not divide by a constant zero. */
  ghost predicate Proper(b: Block) {
    SelfContained(b) && AluK(Div, 0) !in b.stmts && forall keep: set<Atom> :: NoLocalUse(b.stmts, keep)
  }

  ghost predicate AllProper(g: Graph) {
    forall b | 0 <= b < |g| :: Proper(g[b])
  }

  lemma ProperSelfContained(g: Graph)
    requires AllProper(g)
    ensures AllSelfContained(g)
  {
    forall b | 0 <= b < |g| ensures SelfContained(g[b]) { assert Proper(g[b]); }
  }
}
