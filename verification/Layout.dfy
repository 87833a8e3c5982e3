/** The order in which blocks are emitted, their sizes, and branch distances. */
module Layout {
  import opened Machine
  import opened Graph
  import opened Levels
  import opened Flat

  /** Which branches of each block get an extra long jump. */
  datatype Flags = Flags(jt: seq<bool>, jf: seq<bool>)

  ghost predicate FlagsFor(g: Graph, fl: Flags) { |fl.jt| == |fl.jf| == |g| }

  function OneIf(b: bool): nat { if b then 1 else 0 }

  /** Statements, the branch itself, and any long jumps. */
  function BlockSize(g: Graph, fl: Flags, b: nat): nat
    requires |fl.jt| == |fl.jf| == |g| && b < |g|
  {
    |Code(g[b].stmts)| + 1 + OneIf(fl.jt[b]) + OneIf(fl.jf[b])
  }

  ghost predicate InGraph(g: Graph, order: seq<nat>) { forall i | 0 <= i < |order| :: order[i] < |g| }

  /** Total size of the blocks in `order`. */
  ghost function Total(g: Graph, fl: Flags, order: seq<nat>): nat
    requires FlagsFor(g, fl) && InGraph(g, order)
  {
    if order == [] then 0
    else Total(g, fl, order[..|order| - 1]) + BlockSize(g, fl, order[|order| - 1])
  }

  lemma TotalSnoc(g: Graph, fl: Flags, order: seq<nat>, b: nat)
    requires FlagsFor(g, fl) && InGraph(g, order) && b < |g|
    ensures Total(g, fl, order + [b]) == Total(g, fl, order) + BlockSize(g, fl, b)
  {
    assert (order + [b])[..|order|] == order;
  }

  lemma {:induction false} TotalPrefix(g: Graph, fl: Flags, order: seq<nat>, i: nat)
    requires FlagsFor(g, fl) && InGraph(g, order) && i < |order|
    ensures Total(g, fl, order[..i]) + BlockSize(g, fl, order[i]) == Total(g, fl, order[..i + 1]) <= Total(g, fl, order)
    decreases |order|
  {
    assert order[..i + 1][..i] == order[..i];
    if i + 1 < |order| {
      var pre := order[..|order| - 1];
      TotalPrefix(g, fl, pre, i);
      assert pre[..i] == order[..i] && pre[..i + 1] == order[..i + 1];
    } else {
      assert order[..i + 1] == order;
    }
  }

  // The emission order

  /** Depth first, the false branch before the true branch, a block after its successors. */
  ghost function Order(g: Graph, lv: seq<nat>, b: nat, seen: seq<nat>): seq<nat>
    requires Levelled(g, lv) && b < |g|
    decreases lv[b]
  {
    if b in seen then seen
    else if g[b].term.Ret? then seen + [b]
    else
      assert EdgeDown(g, lv, b, true) && EdgeDown(g, lv, b, false);
      Order(g, lv, g[b].term.jt, Order(g, lv, g[b].term.jf, seen)) + [b]
  }

  /** Successors come earlier. */
  ghost predicate Topological(g: Graph, order: seq<nat>) {
    && InGraph(g, order) && NoDup(order)
    && forall i | 0 <= i < |order| :: SuccsBefore(g, order, i)
  }

  ghost predicate SuccsBefore(g: Graph, order: seq<nat>, i: nat)
    requires i < |order| && order[i] < |g|
  {
    var t := g[order[i]].term;
    t.Br? ==> t.jt in order[..i] && t.jf in order[..i]
  }

  lemma TopologicalSnoc(g: Graph, order: seq<nat>, b: nat)
    requires Topological(g, order) && b < |g| && b !in order
    requires g[b].term.Br? ==> g[b].term.jt in order && g[b].term.jf in order
    ensures Topological(g, order + [b])
  {
    var order' := order + [b];
    forall i | 0 <= i < |order'| ensures SuccsBefore(g, order', i) {
      if i < |order| {
        assert order'[..i] == order[..i];
        assert SuccsBefore(g, order, i);
      } else {
        assert order'[..i] == order;
      }
    }
  }

  ghost function Elements(order: seq<nat>): set<nat> { set x | x in order }

  lemma {:induction false} TopologicalReach(g: Graph, lv: seq<nat>, order: seq<nat>, b: nat)
    requires Levelled(g, lv) && Topological(g, order) && b < |g| && b in order
    ensures Reach(g, lv, b) <= Elements(order)
    decreases lv[b]
  {
    if g[b].term.Br? {
      assert EdgeDown(g, lv, b, true) && EdgeDown(g, lv, b, false);
      var i :| 0 <= i < |order| && order[i] == b;
      assert SuccsBefore(g, order, i);
      TopologicalReach(g, lv, order, g[b].term.jt);
      TopologicalReach(g, lv, order, g[b].term.jf);
    }
  }

  /** `out` extends `seen` by the blocks reachable from `b`. */
  ghost predicate VisitsAll(g: Graph, lv: seq<nat>, b: nat, seen: seq<nat>, out: seq<nat>)
    requires Levelled(g, lv) && b < |g|
  {
    seen <= out && b in out && Elements(out) == Elements(seen) + Reach(g, lv, b)
  }

  lemma VisitsBranch(g: Graph, lv: seq<nat>, b: nat, seen: seq<nat>, s1: seq<nat>, s2: seq<nat>)
    requires Levelled(g, lv) && b < |g| && g[b].term.Br? && EdgeDown(g, lv, b, true) && EdgeDown(g, lv, b, false)
    requires b !in seen && VisitsAll(g, lv, g[b].term.jf, seen, s1) && VisitsAll(g, lv, g[b].term.jt, s1, s2)
    ensures b !in s2 && VisitsAll(g, lv, b, seen, s2 + [b])
  {
    assert b in Elements(s2) <==> b in s2;
    assert b in Elements(seen) <==> b in seen;
    assert Elements(s2 + [b]) == Elements(s2) + {b};
  }

  lemma {:induction false} OrderTopological(g: Graph, lv: seq<nat>, b: nat, seen: seq<nat>)
    requires Levelled(g, lv) && b < |g| && Topological(g, seen)
    ensures Topological(g, Order(g, lv, b, seen)) && VisitsAll(g, lv, b, seen, Order(g, lv, b, seen))
    decreases lv[b]
  {
    if b in seen {
      TopologicalReach(g, lv, seen, b);
    } else if g[b].term.Ret? {
      TopologicalSnoc(g, seen, b);
      assert Elements(seen + [b]) == Elements(seen) + {b};
    } else {
      assert EdgeDown(g, lv, b, true) && EdgeDown(g, lv, b, false);
      var s1 := Order(g, lv, g[b].term.jf, seen);
      OrderTopological(g, lv, g[b].term.jf, seen);
      var s2 := Order(g, lv, g[b].term.jt, s1);
      OrderTopological(g, lv, g[b].term.jt, s1);
      VisitsBranch(g, lv, b, seen, s1, s2);
      assert g[b].term.jf in s2;
      TopologicalSnoc(g, s2, b);
    }
  }

  // Distances

  /** The place of a block in the order. */
  ghost function Place(order: seq<nat>, b: nat): (i: nat)
    requires b in order
    ensures i < |order| && order[i] == b
  {
    var i :| 0 <= i < |order| && order[i] == b;
    i
  }

  lemma PlaceUnique(order: seq<nat>, i: nat)
    requires NoDup(order) && i < |order|
    ensures Place(order, order[i]) == i
  {
  }

  /** How far the start of a block is from the end of the program. */
  ghost function FromEnd(g: Graph, fl: Flags, order: seq<nat>, b: nat): nat
    requires FlagsFor(g, fl) && InGraph(g, order) && b in order
  {
    Total(g, fl, order[..Place(order, b) + 1])
  }

  /** Instructions between the branch of `b` and the start of `t`. */
  ghost function Distance(g: Graph, fl: Flags, order: seq<nat>, b: nat, t: nat): int
    requires FlagsFor(g, fl) && InGraph(g, order) && b in order && t in order
  {
    FromEnd(g, fl, order, b) - FromEnd(g, fl, order, t) - |Code(g[b].stmts)| - 1
  }

  /** The branch of `b` in direction `d` does not fit in a byte. */
  ghost predicate Far(g: Graph, fl: Flags, order: seq<nat>, b: nat, d: bool)
    requires FlagsFor(g, fl) && Topological(g, order) && b in order && g[b].term.Br?
  {
    assert Succ(g[b], d) in order by { SuccessorPlaced(g, order, b, d); }
    Distance(g, fl, order, b, Succ(g[b], d)) >= 256
  }

  lemma SuccessorPlaced(g: Graph, order: seq<nat>, b: nat, d: bool)
    requires Topological(g, order) && b in order && g[b].term.Br?
    ensures Succ(g[b], d) in order && Place(order, Succ(g[b], d)) < Place(order, b)
  {
    var i := Place(order, b);
    assert SuccsBefore(g, order, i);
    var j :| 0 <= j < i && order[..i][j] == Succ(g[b], d);
    PlaceUnique(order, j);
  }

  ghost predicate MoreFlags(fl: Flags, fl': Flags) {
    && |fl'.jt| == |fl.jt| && |fl'.jf| == |fl.jf|
    && (forall i | 0 <= i < |fl.jt| :: fl.jt[i] ==> fl'.jt[i])
    && (forall i | 0 <= i < |fl.jf| :: fl.jf[i] ==> fl'.jf[i])
  }

  /** With more flags, every stretch of the program gets longer or stays. */
  lemma {:induction false} StretchGrows(g: Graph, fl: Flags, fl': Flags, order: seq<nat>, i: nat, j: nat)
    requires FlagsFor(g, fl) && MoreFlags(fl, fl') && InGraph(g, order) && i <= j <= |order|
    ensures Total(g, fl, order[..j]) - Total(g, fl, order[..i]) <= Total(g, fl', order[..j]) - Total(g, fl', order[..i])
    decreases j
  {
    if i < j {
      assert order[..j][..j - 1] == order[..j - 1];
      StretchGrows(g, fl, fl', order, i, j - 1);
    }
  }

  /** Distances never shrink, so a branch that needs a long jump goes on needing it. */
  lemma FarStays(g: Graph, fl: Flags, fl': Flags, order: seq<nat>, b: nat, d: bool)
    requires FlagsFor(g, fl) && MoreFlags(fl, fl') && Topological(g, order) && b in order && g[b].term.Br?
    requires Far(g, fl, order, b, d)
    ensures Far(g, fl', order, b, d)
  {
    SuccessorPlaced(g, order, b, d);
    StretchGrows(g, fl, fl', order, Place(order, Succ(g[b], d)) + 1, Place(order, b) + 1);
  }

  /** Every flag that is set is needed. */
  ghost predicate FlagsNeeded(g: Graph, fl: Flags, order: seq<nat>)
    requires FlagsFor(g, fl) && Topological(g, order)
  {
    forall b | 0 <= b < |g| && (fl.jt[b] || fl.jf[b]) ::
      && b in order && g[b].term.Br?
      && (fl.jt[b] ==> Far(g, fl, order, b, true)) && (fl.jf[b] ==> Far(g, fl, order, b, false))
  }

  function SetFlag(fl: Flags, b: nat, d: bool): Flags
    requires b < |fl.jt| == |fl.jf|
  {
    if d then fl.(jt := fl.jt[b := true]) else fl.(jf := fl.jf[b := true])
  }

  lemma FlagsStayNeeded(g: Graph, fl: Flags, order: seq<nat>, b: nat, d: bool)
    requires FlagsFor(g, fl) && Topological(g, order) && FlagsNeeded(g, fl, order)
    requires b in order && b < |g| && g[b].term.Br? && Far(g, fl, order, b, d)
    ensures FlagsNeeded(g, SetFlag(fl, b, d), order)
  {
    var fl' := SetFlag(fl, b, d);
    forall x | 0 <= x < |g| && (fl'.jt[x] || fl'.jf[x])
      ensures x in order && g[x].term.Br?
      ensures fl'.jt[x] ==> Far(g, fl', order, x, true)
      ensures fl'.jf[x] ==> Far(g, fl', order, x, false)
    {
      if fl'.jt[x] { FarStays(g, fl, fl', order, x, true); }
      if fl'.jf[x] { FarStays(g, fl, fl', order, x, false); }
    }
  }

  /** The number of flags not yet set. */
  ghost function Unset(s: seq<bool>): nat { if s == [] then 0 else Unset(s[1..]) + OneIf(!s[0]) }

  lemma {:induction false} UnsetAtMost(s: seq<bool>)
    ensures Unset(s) <= |s|
  {
    if s != [] { UnsetAtMost(s[1..]); }
  }

  lemma {:induction false} UnsetDrops(s: seq<bool>, i: nat)
    requires i < |s| && !s[i]
    ensures Unset(s[i := true]) == Unset(s) - 1
  {
    if i == 0 {
      assert s[i := true][1..] == s[1..];
    } else {
      assert s[i := true][1..] == s[1..][i - 1 := true];
      UnsetDrops(s[1..], i - 1);
    }
  }

  // Sums over sets of blocks

  ghost function SetTotal(g: Graph, fl: Flags, s: set<nat>, n: nat): nat
    requires FlagsFor(g, fl) && n <= |g|
  {
    if n == 0 then 0 else SetTotal(g, fl, s, n - 1) + if n - 1 in s then BlockSize(g, fl, n - 1) else 0
  }

  lemma {:induction false} SetTotalAdd(g: Graph, fl: Flags, s: set<nat>, b: nat, n: nat)
    requires FlagsFor(g, fl) && n <= |g| && b !in s
    ensures SetTotal(g, fl, s + {b}, n) == SetTotal(g, fl, s, n) + if b < n then BlockSize(g, fl, b) else 0
  {
    if n != 0 { SetTotalAdd(g, fl, s, b, n - 1); }
  }

  lemma {:induction false} TotalIsSetTotal(g: Graph, fl: Flags, order: seq<nat>)
    requires FlagsFor(g, fl) && InGraph(g, order) && NoDup(order)
    ensures Total(g, fl, order) == SetTotal(g, fl, Elements(order), |g|)
  {
    if order == [] {
      assert Elements(order) == {};
      SetTotalEmpty(g, fl, |g|);
    } else {
      var pre, b := order[..|order| - 1], order[|order| - 1];
      TotalIsSetTotal(g, fl, pre);
      assert order == pre + [b];
      assert Elements(order) == Elements(pre) + {b};
      SetTotalAdd(g, fl, Elements(pre), b, |g|);
    }
  }

  lemma {:induction false} SetTotalEmpty(g: Graph, fl: Flags, n: nat)
    requires FlagsFor(g, fl) && n <= |g|
    ensures SetTotal(g, fl, {}, n) == 0
  {
    if n != 0 { SetTotalEmpty(g, fl, n - 1); }
  }
}
