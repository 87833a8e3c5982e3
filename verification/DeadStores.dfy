/** Local use/def sets of a block and the removal of dead stores (compute_local_ud, opt_deadstores). */
module DeadStores {
  import opened Machine
  import opened Graph
  import opened Levels
  import opened Liveness
  import opened Dominance

  /** `use` and `def` summarize a list: what it exposes, and what it overwrites. */
  ghost predicate Summary(ss: seq<Stmt>, use: set<Atom>, def: set<Atom>) {
    forall live :: LiveIn(ss, live) == use + (live - def)
  }

  lemma SummaryStep(ss: seq<Stmt>, s: Stmt, use: set<Atom>, def: set<Atom>)
    requires Summary(ss, use, def)
    ensures Summary(ss + [s], use + (AtomUse(s) - def), def + Defs(s))
  {
    forall live
      ensures LiveIn(ss + [s], live) == use + (AtomUse(s) - def) + (live - (def + Defs(s)))
    {
      LiveInAppend(ss, s, live);
    }
  }

  /** The use, def and kill sets of one block, by a forward walk over its statements. */
  method ComputeLocalUd(b: Block) returns (def: set<Atom>, kill: set<Atom>, inUse: set<Atom>)
    ensures inUse == LiveIn(b.stmts, TermUse(b.term))
    ensures forall out: set<Atom> :: inUse + (out - kill) == LiveIn(b.stmts, TermUse(b.term) + out)
  {
    var use: set<Atom>;
    def, use, kill := {}, {}, {};
    for i := 0 to |b.stmts|
      invariant def - kill <= use && kill <= def
      invariant Summary(b.stmts[..i], use, def)
    {
      var s := b.stmts[i];
      assert b.stmts[..i + 1] == b.stmts[..i] + [s];
      SummaryStep(b.stmts[..i], s, use, def);
      use := use + (AtomUse(s) - def);
      if AtomDef(s).Some? {
        var atom := AtomDef(s).value;
        if atom !in use { kill := kill + {atom}; }
        def := def + {atom};
      }
    }
    assert b.stmts[..|b.stmts|] == b.stmts;
    inUse := use + (TermUse(b.term) - def);
    assert inUse == LiveIn(b.stmts, TermUse(b.term));
    forall out: set<Atom>
      ensures inUse + (out - kill) == LiveIn(b.stmts, TermUse(b.term) + out)
    {
      assert LiveIn(b.stmts, TermUse(b.term) + out) == use + ((TermUse(b.term) + out) - def);
    }
  }

  // What happens first to an atom in a list of statements

  datatype Access = Reads | Writes | Untouched

  ghost function AccessOf(s: Stmt, a: Atom): Access {
    if a in AtomUse(s) then Reads else if a in Defs(s) then Writes else Untouched
  }

  ghost function FirstAccess(ss: seq<Stmt>, a: Atom): Access {
    if ss == [] then Untouched
    else if AccessOf(ss[0], a) != Untouched then AccessOf(ss[0], a)
    else FirstAccess(ss[1..], a)
  }

  lemma {:induction false} FirstAppend(ss: seq<Stmt>, s: Stmt, a: Atom)
    ensures FirstAccess(ss + [s], a) == if FirstAccess(ss, a) != Untouched then FirstAccess(ss, a) else AccessOf(s, a)
  {
    if ss == [] {
      assert ss + [s] == [s];
      assert FirstAccess([s][1..], a) == Untouched;
    } else {
      assert (ss + [s])[1..] == ss[1..] + [s];
      FirstAppend(ss[1..], s, a);
    }
  }

  lemma {:induction false} LiveInByFirst(ss: seq<Stmt>, live: set<Atom>, a: Atom)
    ensures a in LiveIn(ss, live) <==> FirstAccess(ss, a) == Reads || (FirstAccess(ss, a) == Untouched && a in live)
  {
    if ss != [] { LiveInByFirst(ss[1..], live, a); }
  }

  // Dead stores

  /** A statement that writes an atom nobody reads again. */
  ghost predicate Dead(ss: seq<Stmt>, j: nat, live: set<Atom>)
    requires j < |ss|
  {
    AtomDef(ss[j]).Some? && AtomDef(ss[j]).value !in LiveIn(ss[j + 1..], live)
  }

  /** `ss'` is `ss` with exactly its dead statements deleted. */
  ghost predicate Swept(ss: seq<Stmt>, ss': seq<Stmt>, live: set<Atom>) {
    && |ss'| == |ss|
    && forall j | 0 <= j < |ss| :: ss'[j] == if Dead(ss, j, live) then Nop else ss[j]
  }

  /** Deleting dead statements keeps every live atom, unless the original faults. */
  lemma {:induction false} SweptSound(ss: seq<Stmt>, ss': seq<Stmt>, live: set<Atom>, p: Packet, r: Regs, r': Regs)
    requires Swept(ss, ss', live) && Agree(LiveIn(ss, live), r, r') && ExecAll(ss, p, r).Some?
    ensures ExecAll(ss', p, r').Some? && Agree(live, ExecAll(ss, p, r).value, ExecAll(ss', p, r').value)
  {
    if ss != [] {
      ExecUsesAndDefs(ss[0], p, r, r');
      ExecUsesAndDefs(ss[0], p, r', r);
      var rest, rest' := ss[1..], ss'[1..];
      forall j | 0 <= j < |rest|
        ensures rest'[j] == if Dead(rest, j, live) then Nop else rest[j]
      {
        assert rest[j + 1..] == ss[j + 2..];
        assert ss'[j + 1] == if Dead(ss, j + 1, live) then Nop else ss[j + 1];
      }
      assert ss'[0] == if Dead(ss, 0, live) then Nop else ss[0];
      SweptSound(rest, rest', live, p, Exec(ss[0], p, r).value, Exec(ss'[0], p, r').value);
    }
  }

  /** And it makes a list read no more than before, whatever of `live` is live. */
  lemma {:induction false} SweptReads(ss: seq<Stmt>, ss': seq<Stmt>, live: set<Atom>, less: set<Atom>)
    requires Swept(ss, ss', live) && less <= live
    ensures LiveIn(ss', less) <= LiveIn(ss, less)
  {
    if ss != [] {
      var rest, rest' := ss[1..], ss'[1..];
      forall j | 0 <= j < |rest| ensures rest'[j] == if Dead(rest, j, live) then Nop else rest[j] {
        assert rest[j + 1..] == ss[j + 2..];
        assert ss'[j + 1] == if Dead(ss, j + 1, live) then Nop else ss[j + 1];
      }
      assert ss'[0] == if Dead(ss, 0, live) then Nop else ss[0];
      SweptReads(rest, rest', live, less);
      LiveInGrows(rest, less, live);
    }
  }

  /** The list without its dead statements. */
  ghost function SweptList(ss: seq<Stmt>, live: set<Atom>): (ss': seq<Stmt>)
    ensures Swept(ss, ss', live) && forall tt | Swept(ss, tt, live) :: tt == ss'
  {
    seq(|ss|, j requires 0 <= j < |ss| => if Dead(ss, j, live) then Nop else ss[j])
  }

  /** The index of the last write of each atom that has not been read since. */
  type Pending = s: seq<Option<nat>> | |s| == 18 witness seq(18, _ => None)

  /** The state of write `j` after `i` statements: deleted if overwritten, pending if untouched since. */
  ghost predicate StoreOk(ss: seq<Stmt>, cur: seq<Stmt>, last: Pending, i: nat, j: nat)
    requires |cur| == |ss| && j < i <= |ss|
  {
    if AtomDef(ss[j]).None? then cur[j] == ss[j]
    else
      var a := AtomDef(ss[j]).value;
      var f := FirstAccess(ss[j + 1..i], a);
      cur[j] == (if f == Writes then Nop else ss[j]) && (last[a] == Some(j) <==> f == Untouched)
  }

  ghost predicate PendingOk(ss: seq<Stmt>, cur: seq<Stmt>, last: Pending, i: nat) {
    && |cur| == |ss| && i <= |ss|
    && (forall j | i <= j < |ss| :: cur[j] == ss[j])
    && (forall a: Atom :: last[a].Some? ==> last[a].value < i && AtomDef(ss[last[a].value]) == Some(a))
    && (forall j | 0 <= j < i :: StoreOk(ss, cur, last, i, j))
  }

  function Forget(last: Pending, atoms: set<Atom>): (last': Pending)
    ensures forall a: Atom :: last'[a] == if a in atoms then None else last[a]
  {
    seq(18, a requires 0 <= a < 18 => if a in atoms then None else last[a])
  }

  /** The pending write that statement `s` makes dead, if there is one. */
  ghost function Killed(last: Pending, s: Stmt): Option<nat> {
    if AtomDef(s).Some? && AtomDef(s).value !in AtomUse(s) then last[AtomDef(s).value] else None
  }

  /** What is pending after statement `s` at index `i`. */
  ghost predicate PendingNext(last: Pending, last': Pending, s: Stmt, i: nat) {
    forall a: Atom :: last'[a] == if a in Defs(s) then Some(i) else if a in AtomUse(s) then None else last[a]
  }

  lemma StoreStep(ss: seq<Stmt>, cur: seq<Stmt>, last: Pending, cur': seq<Stmt>, last': Pending, i: nat, j: nat)
    requires i < |ss| == |cur| == |cur'| && j <= i && cur[i] == ss[i] == cur'[i] && PendingNext(last, last', ss[i], i)
    requires j < i ==> StoreOk(ss, cur, last, i, j)
    requires j < i ==> cur'[j] == if Killed(last, ss[i]) == Some(j) then Nop else cur[j]
    requires forall a: Atom :: last[a].Some? ==> last[a].value < i && AtomDef(ss[last[a].value]) == Some(a)
    ensures StoreOk(ss, cur', last', i + 1, j)
  {
    if j == i {
      assert ss[i + 1..i + 1] == [];
    } else if AtomDef(ss[j]).Some? {
      assert ss[j + 1..i + 1] == ss[j + 1..i] + [ss[i]];
      FirstAppend(ss[j + 1..i], ss[i], AtomDef(ss[j]).value);
    }
  }

  lemma PendingStep(ss: seq<Stmt>, cur: seq<Stmt>, last: Pending, cur': seq<Stmt>, last': Pending, i: nat)
    requires i < |ss| == |cur'| && PendingOk(ss, cur, last, i) && PendingNext(last, last', ss[i], i)
    requires forall j | 0 <= j < |ss| :: cur'[j] == if Killed(last, ss[i]) == Some(j) then Nop else cur[j]
    ensures PendingOk(ss, cur', last', i + 1)
  {
    assert Killed(last, ss[i]).Some? ==> Killed(last, ss[i]).value < i;
    ghost var next := i + 1;
    forall j | 0 <= j < next ensures StoreOk(ss, cur', last', next, j) {
      StoreStep(ss, cur, last, cur', last', i, j);
    }
  }

  /** Account for one statement: forget what it reads, delete the write it makes dead. */
  method DeadStmt(ghost ss: seq<Stmt>, cur: seq<Stmt>, last: Pending, i: nat) returns (cur': seq<Stmt>, last': Pending)
    requires i < |ss| && PendingOk(ss, cur, last, i)
    ensures PendingOk(ss, cur', last', i + 1)
  {
    var s := cur[i];
    cur', last' := cur, Forget(last, AtomUse(s));
    if AtomDef(s).Some? {
      var atom := AtomDef(s).value;
      if last'[atom].Some? { cur' := cur'[last'[atom].value := Nop]; }
      last' := last'[atom := Some(i)];
    }
    PendingStep(ss, cur, last, cur', last', i);
  }

  /** Delete the writes still pending at the end of the block, except those used on exit. */
  method DropPending(cur: seq<Stmt>, last: Pending, outUse: set<Atom>) returns (cur': seq<Stmt>)
    requires forall a: Atom :: last[a].Some? ==> last[a].value < |cur|
    ensures |cur'| == |cur|
    ensures forall j | 0 <= j < |cur| :: cur'[j] ==
              if exists a: Atom :: last[a] == Some(j) && a !in outUse then Nop else cur[j]
  {
    cur' := cur;
    for atom := 0 to 18
      invariant |cur'| == |cur|
      invariant forall j | 0 <= j < |cur| :: cur'[j] ==
                  if exists a: Atom :: a < atom && last[a] == Some(j) && a !in outUse then Nop else cur[j]
    {
      if last[atom].Some? && atom !in outUse {
        cur' := cur'[last[atom].value := Nop];
      }
    }
  }

  lemma LiveAtEnd(ss: seq<Stmt>, cur: seq<Stmt>, last: Pending, live: set<Atom>, j: nat)
    requires |cur| == |ss| && j < |ss| && StoreOk(ss, cur, last, |ss|, j)
    ensures Dead(ss, j, live) ==>
              cur[j] == Nop || (last[AtomDef(ss[j]).value] == Some(j) && AtomDef(ss[j]).value !in live)
    ensures !Dead(ss, j, live) ==>
              && cur[j] == ss[j]
              && (AtomDef(ss[j]).Some? && last[AtomDef(ss[j]).value] == Some(j) ==> AtomDef(ss[j]).value in live)
  {
    if AtomDef(ss[j]).Some? {
      assert ss[j + 1..|ss|] == ss[j + 1..];
      LiveInByFirst(ss[j + 1..], live, AtomDef(ss[j]).value);
    }
  }

  /** Delete the statements of a block whose result is never used. */
  method OptDeadstores(b: Block, outUse: set<Atom>) returns (b': Block)
    ensures b'.term == b.term
    ensures Swept(b.stmts, b'.stmts, TermUse(b.term) + outUse)
  {
    var ss := b.stmts;
    var cur, last: Pending := ss, seq(18, _ => None);
    for i := 0 to |ss|
      invariant PendingOk(ss, cur, last, i)
    {
      cur, last := DeadStmt(ss, cur, last, i);
    }
    ghost var before, pending := cur, last;
    last := Forget(last, TermUse(b.term));
    cur := DropPending(cur, last, outUse);
    forall j | 0 <= j < |ss|
      ensures cur[j] == if Dead(ss, j, TermUse(b.term) + outUse) then Nop else ss[j]
    {
      assert StoreOk(ss, before, pending, |ss|, j);
      LiveAtEnd(ss, before, pending, TermUse(b.term) + outUse, j);
    }
    b' := Block(cur, b.term);
  }

  // The whole graph

  /** `g'` is `g` after dead-store removal in the blocks of `done`. */
  ghost predicate GraphSwept(g: Graph, g': Graph, lv: seq<nat>, done: set<nat>) {
    && Levelled(g, lv) && |g'| == |g|
    && (forall b | b in done :: b < |g| && g'[b].term == g[b].term
                                && Swept(g[b].stmts, g'[b].stmts, TermUse(g[b].term) + OutUse(g, lv, b)))
    && (forall b | 0 <= b < |g| && b !in done :: g'[b] == g[b])
  }

  lemma SweptLevelled(g: Graph, g': Graph, lv: seq<nat>, done: set<nat>)
    requires GraphSwept(g, g', lv, done)
    ensures Levelled(g', lv)
  {
    forall b, d | 0 <= b < |g'| && g'[b].term.Br?
      ensures EdgeDown(g', lv, b, d)
    {
      assert b in done || b !in done;
      assert EdgeDown(g, lv, b, d);
    }
  }

  /** Dead-store removal preserves every run that does not fault. */
  lemma {:induction false} DeadStoresPreserve(g: Graph, g': Graph, lv: seq<nat>, root: nat, b: nat, p: Packet, r: Regs,
                                              r': Regs)
    requires Levelled(g, lv) && root < |g| && GraphSwept(g, g', lv, Reach(g, lv, root)) && Levelled(g', lv)
    requires b in Reach(g, lv, root) && Agree(InUse(g, lv, b), r, r') && Run(g, lv, b, p, r).Return?
    ensures Run(g', lv, b, p, r') == Run(g, lv, b, p, r)
    decreases lv[b]
  {
    SweptSound(g[b].stmts, g'[b].stmts, TermUse(g[b].term) + OutUse(g, lv, b), p, r, r');
    if g[b].term.Br? {
      var q, q' := ExecAll(g[b].stmts, p, r).value, ExecAll(g'[b].stmts, p, r').value;
      var d := Holds(g[b].term.test, q);
      assert A_ATOM in TermUse(g[b].term);
      assert EdgeDown(g, lv, b, d) && EdgeDown(g', lv, b, d);
      ReachClosed(g, lv, root, Edge(b, d));
      DeadStoresPreserve(g, g', lv, root, Succ(g[b], d), p, q, q');
    }
  }

  // Use sets over the graph

  ghost predicate UdDone(g: Graph, lv: seq<nat>, b: nat, inUse: set<Atom>, outUse: set<Atom>)
    requires Levelled(g, lv) && b < |g|
  {
    inUse == InUse(g, lv, b) && outUse == OutUse(g, lv, b)
  }

  /** The local sets, before anything is propagated. */
  ghost predicate UdLocal(b: Block, inUse: set<Atom>, outUse: set<Atom>, kill: set<Atom>) {
    && inUse == LiveIn(b.stmts, TermUse(b.term)) && outUse == {}
    && forall out: set<Atom> :: inUse + (out - kill) == LiveIn(b.stmts, TermUse(b.term) + out)
  }

  /** The blocks of `done` have their final sets, the others only their local ones. */
  ghost predicate UdInv(g: Graph, lv: seq<nat>, root: nat, done: set<nat>,
                        inUse: seq<set<Atom>>, outUse: seq<set<Atom>>, kill: seq<set<Atom>>) {
    && Levelled(g, lv) && root < |g| && |inUse| == |outUse| == |kill| == |g|
    && forall b | b in Reach(g, lv, root) ::
         if b in done then UdDone(g, lv, b, inUse[b], outUse[b]) else UdLocal(g[b], inUse[b], outUse[b], kill[b])
  }

  /** Reachable blocks below level `i`. */
  ghost function Lower(g: Graph, lv: seq<nat>, root: nat, i: nat): set<nat>
    requires Levelled(g, lv) && root < |g|
  {
    set x | x in Reach(g, lv, root) && lv[x] < i
  }

  /** Reachable blocks below level `i`, and the first `j` of level `i`. */
  ghost function Below(g: Graph, lv: seq<nat>, root: nat, levels: seq<seq<nat>>, i: nat, j: nat): set<nat>
    requires LevelLists(g, lv, root, levels) && i < |levels| && j <= |levels[i]|
  {
    Lower(g, lv, root, i) + set x | x in levels[i][..j]
  }

  lemma BelowNext(g: Graph, lv: seq<nat>, root: nat, levels: seq<seq<nat>>, i: nat, j: nat)
    requires LevelLists(g, lv, root, levels) && ExactLevels(g, lv) && 1 <= i < |levels| && j < |levels[i]|
    ensures var p, done := levels[i][j], Below(g, lv, root, levels, i, j);
            && p in Reach(g, lv, root) && p < |g| && p !in done && g[p].term.Br?
            && EdgeDown(g, lv, p, true) && EdgeDown(g, lv, p, false)
            && {g[p].term.jt, g[p].term.jf} <= done * Reach(g, lv, root)
            && Below(g, lv, root, levels, i, j + 1) == done + {p}
  {
    var p := levels[i][j];
    assert p in levels[i] && NoDup(levels[i]);
    assert p in Reach(g, lv, root) && lv[p] == i;
    assert levels[i][..j + 1] == levels[i][..j] + [p];
    assert lv[p] == HeightOver(g, lv, p);
    assert EdgeDown(g, lv, p, true) && EdgeDown(g, lv, p, false);
    ReachClosed(g, lv, root, Edge(p, true));
    ReachClosed(g, lv, root, Edge(p, false));
  }

  lemma UseOfBranch(g: Graph, lv: seq<nat>, p: nat, inUse: set<Atom>, kill: set<Atom>, out: set<Atom>)
    requires Levelled(g, lv) && p < |g| && g[p].term.Br? && UdLocal(g[p], inUse, {}, kill)
    requires EdgeDown(g, lv, p, true) && EdgeDown(g, lv, p, false)
    requires out == InUse(g, lv, g[p].term.jt) + InUse(g, lv, g[p].term.jf)
    ensures UdDone(g, lv, p, inUse + (out - kill), out)
  {
  }

  lemma PropagateUse(g: Graph, lv: seq<nat>, root: nat, done: set<nat>, p: nat,
                     inUse: seq<set<Atom>>, outUse: seq<set<Atom>>, kill: seq<set<Atom>>)
    requires UdInv(g, lv, root, done, inUse, outUse, kill) && p in Reach(g, lv, root) && p !in done && g[p].term.Br?
    requires g[p].term.jt in done && g[p].term.jf in done
    requires EdgeDown(g, lv, p, true) && EdgeDown(g, lv, p, false)
    requires g[p].term.jt in Reach(g, lv, root) && g[p].term.jf in Reach(g, lv, root)
    ensures var out := outUse[p := outUse[p] + (inUse[g[p].term.jt] + inUse[g[p].term.jf])];
            UdInv(g, lv, root, done + {p}, inUse[p := inUse[p] + (out[p] - kill[p])], out, kill)
  {
    var out := inUse[g[p].term.jt] + inUse[g[p].term.jf];
    assert UdLocal(g[p], inUse[p], outUse[p], kill[p]);
    assert UdDone(g, lv, g[p].term.jt, inUse[g[p].term.jt], outUse[g[p].term.jt]);
    assert UdDone(g, lv, g[p].term.jf, inUse[g[p].term.jf], outUse[g[p].term.jf]);
    assert outUse[p] + out == out;
    UseOfBranch(g, lv, p, inUse[p], kill[p], out);
  }

  /** Live atoms on entry to and exit from every reachable block, propagated from the leaves up. */
  method FindUd(g: Graph, ghost lv: seq<nat>, levels: seq<seq<nat>>, root: nat, rootLevel: nat)
    returns (inUse: seq<set<Atom>>, outUse: seq<set<Atom>>)
    requires LevelLists(g, lv, root, levels) && rootLevel == lv[root] && ExactLevels(g, lv)
    ensures |inUse| == |outUse| == |g|
    ensures forall b | b in Reach(g, lv, root) :: UdDone(g, lv, b, inUse[b], outUse[b])
  {
    var kill;
    inUse, outUse, kill := LocalSets(g, lv, levels, root, rootLevel);
    LeavesDone(g, lv, root, inUse, outUse, kill);
    for i := 1 to rootLevel + 1
      invariant UdInv(g, lv, root, Lower(g, lv, root, i), inUse, outUse, kill)
    {
      assert Below(g, lv, root, levels, i, 0) == Lower(g, lv, root, i);
      for j := 0 to |levels[i]|
        invariant UdInv(g, lv, root, Below(g, lv, root, levels, i, j), inUse, outUse, kill)
      {
        BelowNext(g, lv, root, levels, i, j);
        var p := levels[i][j];
        PropagateUse(g, lv, root, Below(g, lv, root, levels, i, j), p, inUse, outUse, kill);
        outUse := outUse[p := outUse[p] + (inUse[g[p].term.jt] + inUse[g[p].term.jf])];
        inUse := inUse[p := inUse[p] + (outUse[p] - kill[p])];
      }
      assert levels[i][..|levels[i]|] == levels[i];
      assert Below(g, lv, root, levels, i, |levels[i]|) == Lower(g, lv, root, i + 1);
    }
  }

  /** The local sets of all reachable blocks. */
  method LocalSets(g: Graph, ghost lv: seq<nat>, levels: seq<seq<nat>>, ghost root: nat, rootLevel: nat)
    returns (inUse: seq<set<Atom>>, outUse: seq<set<Atom>>, kill: seq<set<Atom>>)
    requires LevelLists(g, lv, root, levels) && rootLevel == lv[root]
    ensures |inUse| == |outUse| == |kill| == |g|
    ensures forall b | b in Reach(g, lv, root) :: UdLocal(g[b], inUse[b], outUse[b], kill[b])
  {
    inUse, outUse, kill := seq(|g|, _ => {}), seq(|g|, _ => {}), seq(|g|, _ => {});
    assert Above(g, lv, root, rootLevel + 1) == {};
    for i := rootLevel + 1 downto 0
      invariant |inUse| == |outUse| == |kill| == |g|
      invariant forall b | b in Above(g, lv, root, i) :: UdLocal(g[b], inUse[b], outUse[b], kill[b])
    {
      VisitLevel(g, lv, root, levels, i);
      for j := 0 to |levels[i]|
        invariant |inUse| == |outUse| == |kill| == |g|
        invariant forall b | b in Visited(g, lv, root, levels, i, j) :: UdLocal(g[b], inUse[b], outUse[b], kill[b])
      {
        VisitNext(g, lv, root, levels, i, j);
        var p := levels[i][j];
        var def, k, use := ComputeLocalUd(g[p]);
        inUse, outUse, kill := inUse[p := use], outUse[p := {}], kill[p := k];
      }
    }
    assert Above(g, lv, root, 0) == Reach(g, lv, root);
  }

  /** Blocks of level 0 are leaves and need nothing from others. */
  lemma LeavesDone(g: Graph, lv: seq<nat>, root: nat, inUse: seq<set<Atom>>, outUse: seq<set<Atom>>,
                   kill: seq<set<Atom>>)
    requires ExactLevels(g, lv) && root < |g| && |inUse| == |outUse| == |kill| == |g|
    requires forall b | b in Reach(g, lv, root) :: UdLocal(g[b], inUse[b], outUse[b], kill[b])
    ensures UdInv(g, lv, root, Lower(g, lv, root, 1), inUse, outUse, kill)
  {
    forall b | b in Reach(g, lv, root) && lv[b] == 0 ensures UdDone(g, lv, b, inUse[b], outUse[b]) {
      assert lv[b] == HeightOver(g, lv, b);
      assert TermUse(g[b].term) + {} == TermUse(g[b].term);
    }
  }

  /** Remove dead stores from every reachable block. */
  method OptDeadstoresAll(g: Graph, ghost lv: seq<nat>, levels: seq<seq<nat>>, root: nat, rootLevel: nat,
                          outUse: seq<set<Atom>>)
    returns (g': Graph)
    requires LevelLists(g, lv, root, levels) && rootLevel == lv[root] && |outUse| == |g|
    requires forall b | b in Reach(g, lv, root) :: outUse[b] == OutUse(g, lv, b)
    ensures GraphSwept(g, g', lv, Reach(g, lv, root))
    ensures Levelled(g', lv) && Preserves(g, g', lv, lv, root)
  {
    g' := g;
    assert Above(g, lv, root, rootLevel + 1) == {};
    for i := rootLevel + 1 downto 0
      invariant GraphSwept(g, g', lv, Above(g, lv, root, i))
    {
      VisitLevel(g, lv, root, levels, i);
      for j := 0 to |levels[i]|
        invariant GraphSwept(g, g', lv, Visited(g, lv, root, levels, i, j))
      {
        VisitNext(g, lv, root, levels, i, j);
        var blk := OptDeadstores(g'[levels[i][j]], outUse[levels[i][j]]);
        g' := g'[levels[i][j] := blk];
      }
    }
    assert Above(g, lv, root, 0) == Reach(g, lv, root);
    SweptLevelled(g, g', lv, Reach(g, lv, root));
    forall p, r | Run(g, lv, root, p, r).Return?
      ensures Run(g', lv, root, p, r) == Run(g, lv, root, p, r)
    {
      DeadStoresPreserve(g, g', lv, root, root, p, r, r);
    }
  }
}
