/** Peephole rewriting inside a block and of the comparison that ends it (opt_peep, opt_not, this_op). */
module Peephole {
  import opened Machine
  import opened Graph
  import opened Liveness

  // Running a list from an index

  ghost predicate NopsBetween(ss: seq<Stmt>, i: nat, j: nat) { i <= j <= |ss| && forall k | i <= k < j :: ss[k].Nop? }

  /** `j` is the next real statement after `i`. */
  ghost predicate Adjacent(ss: seq<Stmt>, i: nat, j: nat) { i < j < |ss| && NopsBetween(ss, i + 1, j) }

  lemma ExecHead(ss: seq<Stmt>, i: nat, p: Packet, r: Regs)
    requires i < |ss|
    ensures ExecAll(ss[i..], p, r) == if Exec(ss[i], p, r).None? then None
            else ExecAll(ss[i + 1..], p, Exec(ss[i], p, r).value)
  {
    assert ss[i..][1..] == ss[i + 1..];
  }

  lemma {:induction false} ExecSkip(ss: seq<Stmt>, i: nat, j: nat, p: Packet, r: Regs)
    requires NopsBetween(ss, i, j)
    ensures ExecAll(ss[i..], p, r) == ExecAll(ss[j..], p, r)
    decreases j - i
  {
    if i < j {
      ExecHead(ss, i, p, r);
      ExecSkip(ss, i + 1, j, p, r);
    }
  }

  lemma ExecStep(ss: seq<Stmt>, i: nat, j: nat, p: Packet, r: Regs)
    requires i < j && NopsBetween(ss, i + 1, j)
    ensures ExecAll(ss[i..], p, r) == if Exec(ss[i], p, r).None? then None
            else ExecAll(ss[j..], p, Exec(ss[i], p, r).value)
  {
    ExecHead(ss, i, p, r);
    if Exec(ss[i], p, r).Some? { ExecSkip(ss, i + 1, j, p, Exec(ss[i], p, r).value); }
  }

  lemma LiveHead(ss: seq<Stmt>, i: nat, live: set<Atom>)
    requires i < |ss|
    ensures LiveIn(ss[i..], live) == AtomUse(ss[i]) + (LiveIn(ss[i + 1..], live) - Defs(ss[i]))
  {
    assert ss[i..][1..] == ss[i + 1..];
  }

  lemma {:induction false} LiveSkip(ss: seq<Stmt>, i: nat, j: nat, live: set<Atom>)
    requires NopsBetween(ss, i, j)
    ensures LiveIn(ss[i..], live) == LiveIn(ss[j..], live)
    decreases j - i
  {
    if i < j {
      LiveHead(ss, i, live);
      LiveSkip(ss, i + 1, j, live);
    }
  }

  lemma LiveStep(ss: seq<Stmt>, i: nat, j: nat, live: set<Atom>)
    requires i < j && NopsBetween(ss, i + 1, j)
    ensures LiveIn(ss[i..], live) == AtomUse(ss[i]) + (LiveIn(ss[j..], live) - Defs(ss[i]))
  {
    LiveHead(ss, i, live);
    LiveSkip(ss, i + 1, j, live);
  }

  /** The rewritten list needs no atom that the list did not need. */
  ghost predicate ReadsLess(ss: seq<Stmt>, ss': seq<Stmt>) {
    forall live: set<Atom> :: LiveIn(ss', live) <= LiveIn(ss, live)
  }

  lemma ReadsTrans(ss: seq<Stmt>, ss1: seq<Stmt>, ss2: seq<Stmt>)
    requires ReadsLess(ss, ss1) && ReadsLess(ss1, ss2)
    ensures ReadsLess(ss, ss2)
  {
    forall live: set<Atom> ensures LiveIn(ss2, live) <= LiveIn(ss, live) {
      assert LiveIn(ss1, live) <= LiveIn(ss, live);
    }
  }

  lemma ReadsAfter(ss: seq<Stmt>, ss': seq<Stmt>, i: nat, live: set<Atom>, live': set<Atom>)
    requires i <= |ss| == |ss'| && (forall k | 0 <= k < i :: ss'[k] == ss[k])
    requires LiveIn(ss'[i..], live') <= LiveIn(ss[i..], live)
    ensures LiveIn(ss', live') <= LiveIn(ss, live)
  {
    assert ss == ss[..i] + ss[i..] && ss' == ss[..i] + ss'[i..];
    LiveInConcat(ss[..i], ss[i..], live);
    LiveInConcat(ss[..i], ss'[i..], live');
    LiveInGrows(ss[..i], LiveIn(ss'[i..], live'), LiveIn(ss[i..], live));
  }

  /** A change from `i` on, of the list from `k` on. */
  lemma ReadsWiden(ss: seq<Stmt>, ss': seq<Stmt>, i: nat, k: nat)
    requires k <= i <= |ss| == |ss'| && (forall j | 0 <= j < i :: ss'[j] == ss[j]) && ReadsLess(ss[i..], ss'[i..])
    ensures ReadsLess(ss[k..], ss'[k..]) && (k == 0 ==> ReadsLess(ss, ss'))
  {
    assert ss[0..] == ss && ss'[0..] == ss';
    forall live: set<Atom> ensures LiveIn(ss'[k..], live) <= LiveIn(ss[k..], live) {
      assert ss[k..][i - k..] == ss[i..] && ss'[k..][i - k..] == ss'[i..];
      ReadsAfter(ss[k..], ss'[k..], i - k, live, live);
    }
  }

  /** Both runs fault, or they end in states that agree on `keep`. */
  ghost predicate Alike(q: Option<Regs>, q': Option<Regs>, keep: set<Atom>) {
    q.Some? == q'.Some? && (q.Some? ==> Agree(keep, q.value, q'.value))
  }

  ghost predicate SameFrom(ss: seq<Stmt>, ss': seq<Stmt>, i: nat, keep: set<Atom>)
    requires i <= |ss| == |ss'|
  {
    forall p, r :: Alike(ExecAll(ss[i..], p, r), ExecAll(ss'[i..], p, r), keep)
  }

  /** A change from `i` on, of the whole list. */
  lemma Widen(ss: seq<Stmt>, ss': seq<Stmt>, i: nat, keep: set<Atom>)
    requires i <= |ss| == |ss'| && ss[..i] == ss'[..i] && SameFrom(ss, ss', i, keep)
    ensures SameFrom(ss, ss', 0, keep)
  {
    forall p, r ensures Alike(ExecAll(ss[0..], p, r), ExecAll(ss'[0..], p, r), keep) {
      assert ss[0..] == ss[..i] + ss[i..] && ss'[0..] == ss'[..i] + ss'[i..];
      ExecAppend(ss[..i], ss[i..], p, r);
      ExecAppend(ss'[..i], ss'[i..], p, r);
      var q := ExecAll(ss[..i], p, r);
      if q.Some? { assert Alike(ExecAll(ss[i..], p, q.value), ExecAll(ss'[i..], p, q.value), keep); }
    }
  }

  lemma SameTrans(ss: seq<Stmt>, ss1: seq<Stmt>, ss2: seq<Stmt>, keep: set<Atom>)
    requires |ss| == |ss1| == |ss2| && SameFrom(ss, ss1, 0, keep) && SameFrom(ss1, ss2, 0, keep)
    ensures SameFrom(ss, ss2, 0, keep)
  {
    forall p, r ensures Alike(ExecAll(ss[0..], p, r), ExecAll(ss2[0..], p, r), keep) {
      assert Alike(ExecAll(ss[0..], p, r), ExecAll(ss1[0..], p, r), keep);
      assert Alike(ExecAll(ss1[0..], p, r), ExecAll(ss2[0..], p, r), keep);
    }
  }

  // The three rewritings

  /** st M[k]; ldx M[k]  becomes  st M[k]; tax. */
  lemma StoreLoad(ss: seq<Stmt>, i: nat, j: nat, keep: set<Atom>)
    requires Adjacent(ss, i, j) && ss[i].St? && ss[j] == LdxMem(ss[i].m)
    ensures SameFrom(ss, ss[j := Tax], 0, keep)
  {
    var ss' := ss[j := Tax];
    forall p, r ensures Alike(ExecAll(ss[i..], p, r), ExecAll(ss'[i..], p, r), keep) {
      ExecStep(ss, i, j, p, r);
      ExecStep(ss', i, j, p, r);
      var q := Exec(ss[i], p, r).value;
      ExecHead(ss, j, p, q);
      ExecHead(ss', j, p, q);
      assert ss'[j + 1..] == ss[j + 1..];
    }
    Widen(ss, ss', i, keep);
  }

  lemma StoreLoadReads(ss: seq<Stmt>, i: nat, j: nat)
    requires Adjacent(ss, i, j) && ss[i].St? && ss[j] == LdxMem(ss[i].m)
    ensures ReadsLess(ss[i..], ss[j := Tax][i..])
  {
    var ss' := ss[j := Tax];
    forall live: set<Atom> ensures LiveIn(ss'[i..], live) <= LiveIn(ss[i..], live) {
      LiveStep(ss, i, j, live);
      LiveStep(ss', i, j, live);
      LiveHead(ss, j, live);
      LiveHead(ss', j, live);
      assert ss'[j + 1..] == ss[j + 1..];
    }
  }

  /** ld #k; tax  becomes  ldx #k; txa. */
  lemma ImmTax(ss: seq<Stmt>, i: nat, j: nat, keep: set<Atom>)
    requires Adjacent(ss, i, j) && ss[i].LdImm? && ss[j] == Tax
    ensures SameFrom(ss, ss[i := LdxImm(ss[i].k)][j := Txa], 0, keep)
  {
    var k := ss[i].k;
    var ss' := ss[i := LdxImm(k)][j := Txa];
    forall p, r: Regs ensures Alike(ExecAll(ss[i..], p, r), ExecAll(ss'[i..], p, r), keep) {
      ExecStep(ss, i, j, p, r);
      ExecStep(ss', i, j, p, r);
      ExecHead(ss, j, p, r[A_ATOM := k]);
      ExecHead(ss', j, p, r[X_ATOM := k]);
      assert ss'[j + 1..] == ss[j + 1..];
      assert r[A_ATOM := k][X_ATOM := k] == r[X_ATOM := k][A_ATOM := k];
    }
    Widen(ss, ss', i, keep);
  }

  lemma ImmTaxReads(ss: seq<Stmt>, i: nat, j: nat)
    requires Adjacent(ss, i, j) && ss[i].LdImm? && ss[j] == Tax
    ensures ReadsLess(ss[i..], ss[i := LdxImm(ss[i].k)][j := Txa][i..])
  {
    var ss' := ss[i := LdxImm(ss[i].k)][j := Txa];
    forall live: set<Atom> ensures LiveIn(ss'[i..], live) <= LiveIn(ss[i..], live) {
      LiveStep(ss, i, j, live);
      LiveStep(ss', i, j, live);
      LiveHead(ss, j, live);
      LiveHead(ss', j, live);
      assert ss'[j + 1..] == ss[j + 1..];
    }
  }

  /** ld #k; (ldx msh;) add x; tax; ld [x + k'], with deleted statements in between. */
  ghost predicate Group(ss: seq<Stmt>, i: nat, next: nat, add: nat, tax: nat, ild: nat) {
    && Adjacent(ss, i, next) && Adjacent(ss, add, tax) && Adjacent(ss, tax, ild)
    && ss[i].LdImm? && ss[tax] == Tax && ss[ild].LdInd?
    && (if ss[next].LdxMsh? then Adjacent(ss, next, add) else add == next)
    && ss[add] == AluX(Add)
  }

  function Grouped(ss: seq<Stmt>, i: nat, add: nat, tax: nat, ild: nat): seq<Stmt>
    requires i < |ss| && add < |ss| && tax < |ss| && ild < |ss| && ss[i].LdImm? && ss[ild].LdInd?
  {
    ss[ild := LdInd(ss[ild].size, Wrap(ss[ild].k + ss[i].k))][i := Nop][add := Nop][tax := Nop]
  }

  /** X when the group has found its base: loaded by it, or as it was. */
  ghost function GroupBase(ss: seq<Stmt>, next: nat, p: Packet, r: Regs): Option<Word>
    requires next < |ss|
  {
    if ss[next].LdxMsh? then LoadMsh(p, ss[next].k) else Some(r[X_ATOM])
  }

  /** The end of the group: load from `at` with X set to `x`, and go on. */
  ghost function LoadThen(ss: seq<Stmt>, ild: nat, at: Word, x: Word, p: Packet, r: Regs): Option<Regs>
    requires ild < |ss| && ss[ild].LdInd?
  {
    var v := Load(p, ss[ild].size, at);
    if v.None? then None else ExecAll(ss[ild + 1..], p, r[X_ATOM := x][A_ATOM := v.value])
  }

  lemma LoadThenRun(ss: seq<Stmt>, ild: nat, x: Word, p: Packet, r: Regs)
    requires ild < |ss| && ss[ild].LdInd?
    ensures ExecAll(ss[ild..], p, r[X_ATOM := x]) == LoadThen(ss, ild, Wrap(x + ss[ild].k), x, p, r)
  {
    ExecHead(ss, ild, p, r[X_ATOM := x]);
  }

  /** The group before it is rewritten: X becomes the sum. */
  lemma GroupRun(ss: seq<Stmt>, i: nat, next: nat, add: nat, tax: nat, ild: nat, p: Packet, r: Regs)
    requires Group(ss, i, next, add, tax, ild)
    ensures var x := GroupBase(ss, next, p, r);
            ExecAll(ss[i..], p, r) ==
            if x.None? then None
              else ExecAll(ss[ild..], p, r[A_ATOM := Wrap(ss[i].k + x.value)][X_ATOM := Wrap(ss[i].k + x.value)])
  {
    var x := GroupBase(ss, next, p, r);
    var r1 := r[A_ATOM := ss[i].k];
    ExecStep(ss, i, next, p, r);
    if ss[next].LdxMsh? { ExecStep(ss, next, add, p, r1); }
    if x.Some? {
      assert !ss[next].LdxMsh? ==> r1[X_ATOM := x.value] == r1;
      AddTaxRun(ss, add, tax, ild, ss[i].k, x.value, p, r);
    }
  }

  lemma AddTaxRun(ss: seq<Stmt>, add: nat, tax: nat, ild: nat, k: Word, x: Word, p: Packet, r: Regs)
    requires Adjacent(ss, add, tax) && Adjacent(ss, tax, ild) && ss[add] == AluX(Add) && ss[tax] == Tax
    ensures var a := Wrap(k + x);
            ExecAll(ss[add..], p, r[A_ATOM := k][X_ATOM := x]) == ExecAll(ss[ild..], p, r[A_ATOM := a][X_ATOM := a])
  {
    var a := Wrap(k + x);
    var r2: Regs := r[A_ATOM := k][X_ATOM := x];
    ExecStep(ss, add, tax, p, r2);
    var r3: Regs := r2[A_ATOM := a];
    ExecStep(ss, tax, ild, p, r3);
    assert r3[X_ATOM := a] == r[A_ATOM := a][X_ATOM := a];
  }

  /** The rewritten group: X is only the base. */
  lemma GroupedRun(ss: seq<Stmt>, ss': seq<Stmt>, i: nat, next: nat, add: nat, tax: nat, ild: nat, p: Packet, r: Regs)
    requires Group(ss, i, next, add, tax, ild) && ss' == Grouped(ss, i, add, tax, ild)
    ensures var x := GroupBase(ss, next, p, r);
            ExecAll(ss'[i..], p, r) == if x.None? then None else ExecAll(ss'[ild..], p, r[X_ATOM := x.value])
  {
    assert NopsBetween(ss', add, ild);
    if ss[next].LdxMsh? {
      assert ss'[next] == ss[next];
      ExecSkip(ss', i, next, p, r);
      ExecStep(ss', next, ild, p, r);
    } else {
      ExecSkip(ss', i, ild, p, r);
      assert r[X_ATOM := r[X_ATOM]] == r;
    }
  }

  lemma SameAddress(k: Word, x: Word, k': Word)
    ensures Wrap(Wrap(k + x) + k') == Wrap(x + Wrap(k' + k))
  {
  }

  /** The group keeps everything but X; that is enough if X is not read afterwards. */
  lemma GroupSame(ss: seq<Stmt>, i: nat, next: nat, add: nat, tax: nat, ild: nat, keep: set<Atom>)
    requires Group(ss, i, next, add, tax, ild) && X_ATOM !in LiveIn(ss[ild + 1..], keep)
    ensures SameFrom(ss, Grouped(ss, i, add, tax, ild), 0, keep)
  {
    var ss' := Grouped(ss, i, add, tax, ild);
    forall p, r: Regs ensures Alike(ExecAll(ss[i..], p, r), ExecAll(ss'[i..], p, r), keep) {
      GroupRun(ss, i, next, add, tax, ild, p, r);
      GroupedRun(ss, ss', i, next, add, tax, ild, p, r);
      var x := GroupBase(ss, next, p, r);
      if x.Some? { GroupLoads(ss, ss', i, add, tax, ild, x.value, p, r, keep); }
    }
    Widen(ss, ss', i, keep);
  }

  lemma GroupLoads(ss: seq<Stmt>, ss': seq<Stmt>, i: nat, add: nat, tax: nat, ild: nat, x: Word, p: Packet, r: Regs,
                   keep: set<Atom>)
    requires i < add < tax < ild < |ss| && ss[i].LdImm? && ss[ild].LdInd? && ss' == Grouped(ss, i, add, tax, ild)
    requires X_ATOM !in LiveIn(ss[ild + 1..], keep)
    ensures var a := Wrap(ss[i].k + x);
            Alike(ExecAll(ss[ild..], p, r[A_ATOM := a][X_ATOM := a]), ExecAll(ss'[ild..], p, r[X_ATOM := x]), keep)
  {
    var a := Wrap(ss[i].k + x);
    LoadThenRun(ss, ild, a, p, r[A_ATOM := a]);
    LoadThenRun(ss', ild, x, p, r);
    SameAddress(ss[i].k, x, ss[ild].k);
    assert ss'[ild + 1..] == ss[ild + 1..];
    var v := Load(p, ss[ild].size, Wrap(a + ss[ild].k));
    assert v == Load(p, ss'[ild].size, Wrap(x + ss'[ild].k));
    if v.Some? {
      LiveInSound(ss[ild + 1..], keep, p, r[A_ATOM := a][X_ATOM := a][A_ATOM := v.value],
                  r[X_ATOM := x][A_ATOM := v.value]);
    }
  }

  /** What the group reads first, before and after. */
  lemma GroupReads(ss: seq<Stmt>, i: nat, next: nat, add: nat, tax: nat, ild: nat)
    requires Group(ss, i, next, add, tax, ild)
    ensures ReadsLess(ss[i..], Grouped(ss, i, add, tax, ild)[i..])
  {
    var ss' := Grouped(ss, i, add, tax, ild);
    forall live: set<Atom> ensures LiveIn(ss'[i..], live) <= LiveIn(ss[i..], live) {
      GroupLive(ss, i, next, add, tax, ild, live);
      GroupedLive(ss, ss', i, next, add, tax, ild, live);
    }
  }

  ghost function GroupUse(ss: seq<Stmt>, next: nat, ild: nat, live: set<Atom>): set<Atom>
    requires next < |ss| && ild < |ss|
  {
    var rest := LiveIn(ss[ild + 1..], live) - {A_ATOM};
    if ss[next].LdxMsh? then rest - {X_ATOM} else rest + {X_ATOM}
  }

  lemma GroupLive(ss: seq<Stmt>, i: nat, next: nat, add: nat, tax: nat, ild: nat, live: set<Atom>)
    requires Group(ss, i, next, add, tax, ild)
    ensures LiveIn(ss[i..], live) == GroupUse(ss, next, ild, live)
  {
    LiveHead(ss, ild, live);
    LiveStep(ss, tax, ild, live);
    LiveStep(ss, add, tax, live);
    if ss[next].LdxMsh? { LiveStep(ss, next, add, live); }
    LiveStep(ss, i, next, live);
  }

  lemma GroupedLive(ss: seq<Stmt>, ss': seq<Stmt>, i: nat, next: nat, add: nat, tax: nat, ild: nat, live: set<Atom>)
    requires Group(ss, i, next, add, tax, ild) && ss' == Grouped(ss, i, add, tax, ild)
    ensures LiveIn(ss'[i..], live) == GroupUse(ss, next, ild, live)
  {
    assert NopsBetween(ss', add, ild);
    assert ss'[ild + 1..] == ss[ild + 1..];
    LiveHead(ss', ild, live);
    if ss[next].LdxMsh? {
      assert ss'[next] == ss[next];
      LiveSkip(ss', i, next, live);
      LiveStep(ss', next, ild, live);
    } else {
      LiveSkip(ss', i, ild, live);
    }
  }

  // The pass over the statements

  predicate IsAlu(s: Stmt) { s.AluK? || s.AluX? }

  /** `i` is the last statement that is not deleted. */
  ghost predicate LastReal(ss: seq<Stmt>, i: nat) { i < |ss| && !ss[i].Nop? && NopsBetween(ss, i + 1, |ss|) }

  lemma {:induction false} HasLastReal(ss: seq<Stmt>, k: nat) returns (i: nat)
    requires k < |ss| && !ss[k].Nop?
    ensures k <= i && LastReal(ss, i)
    decreases |ss| - k
  {
    i := k;
    if !NopsBetween(ss, k + 1, |ss|) {
      var n :| k < n < |ss| && !ss[n].Nop?;
      i := HasLastReal(ss, n);
    }
  }

  /** One statement before and after: arithmetic is kept or deleted, never made, a deleted statement stays deleted,
      and a load from memory stays. */
  ghost predicate TameAt(s0: Stmt, s: Stmt) {
    (IsAlu(s0) || IsAlu(s) ==> s == s0 || s.Nop?) && (s0.Nop? ==> s.Nop?) && (s0.LdMem? ==> s == s0)
  }

  /** The last statement: not deleted, and if it sets the accumulator it does so in the same way. */
  ghost predicate LastAlike(s0: Stmt, s: Stmt) {
    !s.Nop? && (AtomDef(s0) == Some(A_ATOM) ==> s == s0 || (s0.LdInd? && s.LdInd?))
  }

  /** What rewriting does not do: make arithmetic, restore a deleted statement, or change the last statement's
      effect. */
  ghost predicate Tame(ss0: seq<Stmt>, ss: seq<Stmt>) {
    && |ss| == |ss0|
    && (forall i | 0 <= i < |ss| :: TameAt(ss0[i], ss[i]))
    && (forall i: nat | LastReal(ss0, i) :: LastAlike(ss0[i], ss[i]))
  }

  lemma TameUpdate(ss0: seq<Stmt>, ss: seq<Stmt>, ss': seq<Stmt>)
    requires Tame(ss0, ss) && |ss'| == |ss|
    requires forall i | 0 <= i < |ss| :: TameAt(ss[i], ss'[i])
    requires forall i: nat | LastReal(ss0, i) :: LastAlike(ss[i], ss'[i])
    ensures Tame(ss0, ss')
  {
    forall i | 0 <= i < |ss| ensures TameAt(ss0[i], ss'[i]) { assert TameAt(ss0[i], ss[i]) && TameAt(ss[i], ss'[i]); }
    forall i: nat | LastReal(ss0, i) ensures LastAlike(ss0[i], ss'[i]) { assert LastAlike(ss0[i], ss[i]); }
  }

  /** Arithmetic that ends the rewritten list ended the original one. */
  lemma LastStays(ss0: seq<Stmt>, ss: seq<Stmt>, last: nat)
    requires Tame(ss0, ss) && LastReal(ss, last) && IsAlu(ss[last])
    ensures ss0[last] == ss[last] && LastReal(ss0, last)
  {
    assert TameAt(ss0[last], ss[last]);
    var i := HasLastReal(ss0, last);
    assert LastAlike(ss0[i], ss[i]);
  }

  /** And the other way round. */
  lemma LastKept(ss0: seq<Stmt>, ss: seq<Stmt>, last: nat)
    requires Tame(ss0, ss) && LastReal(ss0, last) && IsAlu(ss0[last])
    ensures ss0[last] == ss[last] && LastReal(ss, last)
  {
    assert TameAt(ss0[last], ss[last]);
    forall k | last < k < |ss| ensures ss[k].Nop? { assert TameAt(ss0[k], ss[k]); }
  }

  /** `ss` is `ss0` rewritten before `hi`; from `s` to there no load of a constant is left. */
  ghost predicate PeepShape(ss0: seq<Stmt>, ss: seq<Stmt>, s: nat, hi: nat) {
    && Tame(ss0, ss) && ReadsLess(ss0, ss) && hi <= |ss| && ss[hi..] == ss0[hi..]
    && (forall k | s <= k < hi :: !ss[k].LdImm?)
  }

  /** If `safe`, the rewritten list keeps the atoms `keep`. */
  ghost predicate PeepInv(ss0: seq<Stmt>, ss: seq<Stmt>, s: nat, hi: nat, keep: set<Atom>, safe: bool) {
    PeepShape(ss0, ss, s, hi) && (safe ==> SameFrom(ss0, ss, 0, keep))
  }

  /** The next statement that is not deleted, from `i` on. */
  function NextReal(ss: seq<Stmt>, i: nat): (j: nat)
    requires i <= |ss|
    ensures NopsBetween(ss, i, j) && (j < |ss| ==> !ss[j].Nop?)
    decreases |ss| - i
  {
    if i < |ss| && ss[i].Nop? then NextReal(ss, i + 1) else i
  }

  method ThisOp(ss: seq<Stmt>, i: nat) returns (j: nat)
    requires i <= |ss|
    ensures j == NextReal(ss, i)
  {
    j := i;
    while j < |ss| && ss[j].Nop?
      invariant i <= j <= |ss| && NextReal(ss, j) == NextReal(ss, i)
    {
      j := j + 1;
    }
  }

  /** The addition, the move and the load of an indexed access that starts at `s`, if there is one. */
  function GroupAt(ss: seq<Stmt>, s: nat, next: nat): (r: Option<(nat, nat, nat)>)
    requires Adjacent(ss, s, next) && ss[s].LdImm?
    ensures r.Some? ==> Group(ss, s, next, r.value.0, r.value.1, r.value.2)
  {
    var add := if ss[next].LdxMsh? then NextReal(ss, next + 1) else next;
    if add == |ss| || ss[add] != AluX(Add) then None
    else
      var tax := NextReal(ss, add + 1);
      if tax == |ss| || ss[tax] != Tax then None
      else
        var ild := NextReal(ss, tax + 1);
        if ild == |ss| || !ss[ild].LdInd? then None else Some((add, tax, ild))
  }

  /** Find the group of an indexed access, if there is one. */
  method FindGroup(ss: seq<Stmt>, s: nat, next: nat) returns (found: bool, add: nat, tax: nat, ild: nat)
    requires Adjacent(ss, s, next) && ss[s].LdImm?
    ensures GroupAt(ss, s, next) == if found then Some((add, tax, ild)) else None
  {
    found, add, tax, ild := false, next, next, next;
    if ss[next].LdxMsh? { add := ThisOp(ss, next + 1); }
    if add == |ss| || ss[add] != AluX(Add) { return; }
    tax := ThisOp(ss, add + 1);
    if tax == |ss| || ss[tax] != Tax { return; }
    ild := ThisOp(ss, tax + 1);
    if ild == |ss| || !ss[ild].LdInd? { return; }
    found := true;
  }

  /** The list after the rules for statement `s` and the next one. */
  function PeepPair(ss: seq<Stmt>, s: nat, next: nat, xUsed: bool): (ss': seq<Stmt>)
    requires Adjacent(ss, s, next)
    ensures |ss'| == |ss|
  {
    if ss[s].St? && ss[next].LdxMem? && ss[s].m == ss[next].m then ss[next := Tax]
    else if ss[s].LdImm? && ss[next] == Tax then ss[s := LdxImm(ss[s].k)][next := Txa]
    else if ss[s].LdImm? && !xUsed && GroupAt(ss, s, next).Some? then
      var (add, tax, ild) := GroupAt(ss, s, next).value;
      Grouped(ss, s, add, tax, ild)
    else ss
  }

  /** The list after the pair rules from `s` on, and what the source then takes for the last statement. */
  function PeepFrom(ss: seq<Stmt>, s: nat, xUsed: bool): (r: (seq<Stmt>, nat))
    requires s < |ss|
    ensures |r.0| == |ss| && r.1 < |ss|
    decreases |ss| - s
  {
    var at := NextReal(ss, s);
    if at == |ss| then (ss, s)
    else
      var next := NextReal(ss, at + 1);
      if next == |ss| then (ss, s) else PeepFrom(PeepPair(ss, at, next, xUsed), next, xUsed)
  }

  /** The statement where the pass goes on is real, or an indexed load is the next real one. */
  ghost predicate GoesOn(ss: seq<Stmt>, next: nat) {
    next < |ss| && (!ss[next].Nop? || exists ild: nat :: NopsBetween(ss, next, ild) && ild < |ss| && ss[ild].LdInd?)
  }

  /** The rewritings at one statement and the next. */
  method PeepAt(ss: seq<Stmt>, s: nat, next: nat, xUsed: bool) returns (ss': seq<Stmt>)
    requires Adjacent(ss, s, next)
    ensures ss' == PeepPair(ss, s, next, xUsed)
  {
    ss' := ss;
    if ss[s].St? && ss[next].LdxMem? && ss[s].m == ss[next].m {
      ss' := ss[next := Tax];
    } else if ss[s].LdImm? && ss[next] == Tax {
      ss' := ss[s := LdxImm(ss[s].k)][next := Txa];
    } else if ss[s].LdImm? && !xUsed {
      var found, add, tax, ild := FindGroup(ss, s, next);
      if found {
        ss' := ss[ild := LdInd(ss[ild].size, Wrap(ss[ild].k + ss[s].k))][s := Nop][add := Nop][tax := Nop];
      }
    }
  }

  /** One pair keeps what holds of the list so far. */
  lemma PeepPairStep(ss0: seq<Stmt>, ss: seq<Stmt>, s: nat, next: nat, xUsed: bool, hi: nat, keep: set<Atom>,
                     safe: bool)
    returns (hi': nat)
    requires PeepInv(ss0, ss, s, hi, keep, safe) && Adjacent(ss, s, next) && !ss[s].Nop? && !ss[next].Nop?
    requires safe && !xUsed ==> NoLocalUse(ss0, keep)
    ensures var ss' := PeepPair(ss, s, next, xUsed); PeepInv(ss0, ss', next, hi', keep, safe) && GoesOn(ss', next)
  {
    var ss' := PeepPair(ss, s, next, xUsed);
    hi' := hi;
    if ss[s].St? && ss[next].LdxMem? && ss[s].m == ss[next].m {
      hi' := if hi > next then hi else next + 1;
      StoreLoadStep(ss0, ss, ss', s, hi, hi', next, keep, safe);
    } else if ss[s].LdImm? && ss[next] == Tax {
      hi' := next + 1;
      ImmTaxStep(ss0, ss, ss', s, hi, next, keep, safe);
    } else if ss[s].LdImm? && !xUsed && GroupAt(ss, s, next).Some? {
      var (add, tax, ild) := GroupAt(ss, s, next).value;
      hi' := ild + 1;
      GroupStep(ss0, ss, ss', s, hi, next, add, tax, ild, keep, safe);
    }
  }

  lemma StoreLoadStep(ss0: seq<Stmt>, ss: seq<Stmt>, ss': seq<Stmt>, s: nat, hi: nat, hi': nat, next: nat,
                      keep: set<Atom>, safe: bool)
    requires PeepInv(ss0, ss, s, hi, keep, safe) && Adjacent(ss, s, next) && ss[s].St? && ss[next] == LdxMem(ss[s].m)
    requires ss' == ss[next := Tax] && hi' == if hi > next then hi else next + 1
    ensures PeepInv(ss0, ss', next, hi', keep, safe)
  {
    if safe {
      StoreLoad(ss, s, next, keep);
      SameTrans(ss0, ss, ss', keep);
    }
    StoreLoadReads(ss, s, next);
    ReadsWiden(ss, ss', s, 0);
    ReadsTrans(ss0, ss, ss');
    TameUpdate(ss0, ss, ss');
    SuffixFurther(ss0, ss, ss', hi, hi');
  }

  lemma ImmTaxStep(ss0: seq<Stmt>, ss: seq<Stmt>, ss': seq<Stmt>, s: nat, hi: nat, next: nat, keep: set<Atom>,
                   safe: bool)
    requires PeepInv(ss0, ss, s, hi, keep, safe) && Adjacent(ss, s, next) && ss[s].LdImm? && ss[next] == Tax
    requires ss' == ss[s := LdxImm(ss[s].k)][next := Txa]
    ensures PeepInv(ss0, ss', next, next + 1, keep, safe)
  {
    if safe {
      ImmTax(ss, s, next, keep);
      SameTrans(ss0, ss, ss', keep);
    }
    ImmTaxReads(ss, s, next);
    ReadsWiden(ss, ss', s, 0);
    ReadsTrans(ss0, ss, ss');
    TameUpdate(ss0, ss, ss');
    SuffixFurther(ss0, ss, ss', hi, next + 1);
  }

  /** Changes before `hi'` leave the rest as it was. */
  lemma SuffixFurther(ss0: seq<Stmt>, ss: seq<Stmt>, ss': seq<Stmt>, hi: nat, hi': nat)
    requires hi <= hi' <= |ss| == |ss'| == |ss0| && ss[hi..] == ss0[hi..]
    requires forall k | hi' <= k < |ss| :: ss'[k] == ss[k]
    ensures ss'[hi'..] == ss0[hi'..]
  {
    forall k | hi' <= k < |ss| ensures ss'[k] == ss0[k] {
      assert ss[k] == ss[hi..][k - hi] && ss0[k] == ss0[hi..][k - hi];
    }
  }

  lemma GroupStep(ss0: seq<Stmt>, ss: seq<Stmt>, ss': seq<Stmt>, s: nat, hi: nat, next: nat, add: nat, tax: nat,
                  ild: nat, keep: set<Atom>, safe: bool)
    requires PeepInv(ss0, ss, s, hi, keep, safe) && Group(ss, s, next, add, tax, ild)
    requires ss' == Grouped(ss, s, add, tax, ild)
    requires safe ==> NoLocalUse(ss0, keep)
    ensures PeepInv(ss0, ss', next, ild + 1, keep, safe) && GoesOn(ss', next)
  {
    assert s >= hi;
    if safe {
      SuffixSame(ss0, ss, hi, ild);
      GroupSame(ss, s, next, add, tax, ild, keep);
      SameTrans(ss0, ss, ss', keep);
    }
    GroupReads(ss, s, next, add, tax, ild);
    ReadsWiden(ss, ss', s, 0);
    ReadsTrans(ss0, ss, ss');
    GroupTame(ss0, ss, ss', s, next, add, tax, ild);
    SuffixFurther(ss0, ss, ss', hi, ild + 1);
    GroupGoesOn(ss, ss', s, next, add, tax, ild);
  }

  lemma SuffixSame(ss0: seq<Stmt>, ss: seq<Stmt>, hi: nat, i: nat)
    requires hi <= i < |ss| == |ss0| && ss[hi..] == ss0[hi..]
    ensures ss[i] == ss0[i] && ss[i + 1..] == ss0[i + 1..]
  {
    assert ss[i] == ss[hi..][i - hi] && ss0[i] == ss0[hi..][i - hi];
    assert ss[i + 1..] == ss[hi..][i + 1 - hi..] && ss0[i + 1..] == ss0[hi..][i + 1 - hi..];
  }

  lemma GroupTame(ss0: seq<Stmt>, ss: seq<Stmt>, ss': seq<Stmt>, s: nat, next: nat, add: nat, tax: nat, ild: nat)
    requires Tame(ss0, ss) && Group(ss, s, next, add, tax, ild) && ss' == Grouped(ss, s, add, tax, ild)
    ensures Tame(ss0, ss')
  {
    assert s < add < tax < ild;
    assert TameAt(ss0[ild], ss[ild]);
    forall i | 0 <= i < |ss| ensures TameAt(ss[i], ss'[i]) {
      assert i != s && i != add && i != tax && i != ild ==> ss'[i] == ss[i];
    }
    forall i: nat | LastReal(ss0, i) ensures LastAlike(ss[i], ss'[i]) {
      assert !ss0[ild].Nop? && i >= ild && LastAlike(ss0[i], ss[i]);
      assert i != ild ==> ss'[i] == ss[i];
    }
    TameUpdate(ss0, ss, ss');
  }

  lemma GroupGoesOn(ss: seq<Stmt>, ss': seq<Stmt>, s: nat, next: nat, add: nat, tax: nat, ild: nat)
    requires Group(ss, s, next, add, tax, ild) && ss' == Grouped(ss, s, add, tax, ild) && !ss[next].Nop?
    ensures GoesOn(ss', next) && forall k | next <= k <= ild :: !ss'[k].LdImm?
  {
    assert ss'[ild].LdInd?;
    if ss'[next].Nop? { assert NopsBetween(ss', next, ild); }
  }

  /** `last` is the last real statement, or a deleted one. */
  ghost predicate LastOk(ss: seq<Stmt>, last: nat) {
    last < |ss| && (ss[last].Nop? || NopsBetween(ss, last + 1, |ss|))
  }

  ghost predicate RealBefore(ss: seq<Stmt>, i: nat) { exists k :: 0 <= k < i && k < |ss| && !ss[k].Nop? }

  /** The arithmetic that the end of the block can be merged with: it is the last statement, and the first of the list
      or not the only one. */
  ghost predicate EndsIn(ss: seq<Stmt>, i: nat) { LastReal(ss, i) && IsAlu(ss[i]) && (i == 0 || RealBefore(ss, i)) }

  /** The pass stands at its start, or at a statement with another one before it. */
  ghost predicate AtLast(ss0: seq<Stmt>, ss: seq<Stmt>, s: nat) {
    s < |ss0| && (if s == 0 then ss == ss0 else RealBefore(ss0, s) && !ss0[s].Nop?)
  }

  lemma NoneLeft(ss0: seq<Stmt>, ss: seq<Stmt>, s: nat)
    requires Tame(ss0, ss) && AtLast(ss0, ss, s) && (s == 0 || GoesOn(ss, s)) && NopsBetween(ss, s, |ss|)
    ensures ss[s].Nop? && forall i: nat :: !EndsIn(ss0, i)
  {
  }

  /** The pass ends at the last real statement; if that is arithmetic, it is the one the pass stands at. */
  lemma LastFound(ss0: seq<Stmt>, ss: seq<Stmt>, s: nat, at: nat)
    requires Tame(ss0, ss) && AtLast(ss0, ss, s) && (s == 0 || GoesOn(ss, s))
    requires NopsBetween(ss, s, at) && LastReal(ss, at)
    ensures IsAlu(ss[s]) ==> EndsIn(ss0, s) && ss[s] == ss0[s]
    ensures forall i: nat | EndsIn(ss0, i) :: s == i
  {
    if IsAlu(ss[s]) { LastStays(ss0, ss, s); }
    forall i: nat | EndsIn(ss0, i) ensures s == i {
      LastKept(ss0, ss, i);
      assert i == at;
    }
  }

  /** What the pair rules make of a list. `last` is what the source takes for the last statement. */
  ghost predicate Peeped(ss0: seq<Stmt>, ss: seq<Stmt>, last: nat, keep: set<Atom>, safe: bool) {
    && Tame(ss0, ss) && ReadsLess(ss0, ss) && LastOk(ss, last) && (safe ==> SameFrom(ss0, ss, 0, keep))
    && (IsAlu(ss[last]) ==> EndsIn(ss0, last) && ss[last] == ss0[last])
    && (forall i: nat | EndsIn(ss0, i) :: last == i)
  }

  lemma {:induction false} PeepFromRight(ss0: seq<Stmt>, ss: seq<Stmt>, s: nat, xUsed: bool, hi: nat, keep: set<Atom>,
                                         safe: bool)
    requires s < |ss| == |ss0| && PeepInv(ss0, ss, s, hi, keep, safe) && (s == 0 || GoesOn(ss, s)) && AtLast(ss0, ss, s)
    requires safe && !xUsed ==> NoLocalUse(ss0, keep)
    ensures Peeped(ss0, PeepFrom(ss, s, xUsed).0, PeepFrom(ss, s, xUsed).1, keep, safe)
    decreases |ss| - s
  {
    var at := NextReal(ss, s);
    if at == |ss| {
      NoneLeft(ss0, ss, s);
    } else {
      var next := NextReal(ss, at + 1);
      if next == |ss| {
        LastFound(ss0, ss, s, at);
      } else {
        assert TameAt(ss0[at], ss[at]) && TameAt(ss0[next], ss[next]);
        var hi' := PeepPairStep(ss0, ss, at, next, xUsed, hi, keep, safe);
        PeepFromRight(ss0, PeepPair(ss, at, next, xUsed), next, xUsed, hi', keep, safe);
      }
    }
  }

  /** The pair rules keep the effect of a list on `keep`, and find the arithmetic that ends it exactly if there is
      one. */
  lemma PeepListRight(ss: seq<Stmt>, xUsed: bool, keep: set<Atom>)
    requires ss != []
    ensures Peeped(ss, PeepFrom(ss, 0, xUsed).0, PeepFrom(ss, 0, xUsed).1, keep, xUsed || NoLocalUse(ss, keep))
  {
    PeepFromRight(ss, ss, 0, xUsed, 0, keep, xUsed || NoLocalUse(ss, keep));
  }

  /** The pair rules over the whole list. */
  method PeepStmts(ss0: seq<Stmt>, xUsed: bool) returns (ss: seq<Stmt>, last: nat)
    requires ss0 != []
    ensures (ss, last) == PeepFrom(ss0, 0, xUsed)
    ensures LastOk(ss, last)
  {
    ss, last := ss0, 0;
    var s := 0;
    while true
      invariant s < |ss| == |ss0| && last == s && PeepFrom(ss, s, xUsed) == PeepFrom(ss0, 0, xUsed)
      decreases |ss| - s
    {
      var at := ThisOp(ss, s);
      if at == |ss| { break; }
      var next := ThisOp(ss, at + 1);
      if next == |ss| { break; }
      last := next;
      ss := PeepAt(ss, at, next, xUsed);
      s := next;
    }
    PeepListRight(ss0, xUsed, {});
  }

  // The comparison at the end

  const MAX_WORD: Word := 0xffff_ffff

  function Target(t: Term, q: Regs): nat
    requires t.Br?
  {
    if Holds(t.test, q) then t.jt else t.jf
  }

  function AllAtoms(): set<Atom> { {0, 1, 2, 3, 4, 5, 6, 7, 8, 9, 10, 11, 12, 13, 14, 15, A_ATOM, X_ATOM} }

  /** States that differ at most in the accumulator. */
  ghost predicate ButA(q: Regs, q': Regs) { forall a: Atom | a != A_ATOM :: q[a] == q'[a] }

  /** Two block ends choose alike after their lists, on runs of the first list that leave `constX` in X. */
  ghost predicate SameEnd(ss: seq<Stmt>, t: Term, ss': seq<Stmt>, t': Term, constX: Option<Word>)
    requires t.Br? && t'.Br?
  {
    forall p, r | ExecAll(ss, p, r).Some? && (constX.Some? ==> ExecAll(ss, p, r).value[X_ATOM] == constX.value) ::
      && ExecAll(ss', p, r).Some? && ButA(ExecAll(ss, p, r).value, ExecAll(ss', p, r).value)
      && Target(t', ExecAll(ss', p, r).value) == Target(t, ExecAll(ss, p, r).value)
      && Holds(t'.test, ExecAll(ss', p, r).value) == (Holds(t.test, ExecAll(ss, p, r).value) != Turned(t, t'))
  }

  /** The test has been turned round: a comparison with 0 has become a bit test. */
  predicate Turned(t: Term, t': Term)
    requires t.Br? && t'.Br?
  {
    t'.test.op != t.test.op
  }

  /** Without its last real statement a list ends in the state before it. */
  lemma DropLast(ss: seq<Stmt>, last: nat, p: Packet, r: Regs)
    requires last < |ss| && NopsBetween(ss, last + 1, |ss|) && ExecAll(ss, p, r).Some?
    ensures ExecAll(ss[last := Nop], p, r).Some?
    ensures Exec(ss[last], p, ExecAll(ss[last := Nop], p, r).value) == ExecAll(ss, p, r)
  {
    var ss' := ss[last := Nop];
    assert ss == ss[..last] + ss[last..] && ss' == ss[..last] + ss'[last..];
    ExecAppend(ss[..last], ss[last..], p, r);
    ExecAppend(ss[..last], ss'[last..], p, r);
    var q := ExecAll(ss[..last], p, r).value;
    ExecStep(ss, last, |ss|, p, q);
    ExecSkip(ss', last, |ss|, p, q);
  }

  lemma SubCompare(a: Word, x: Word, k: Word)
    ensures Wrap(a - x) == k <==> a == Wrap(k + x)
  {
  }

  /** The known X matters only to the merging of a subtraction of X. */
  ghost function UsedX(merged: bool, s: Stmt, constX: Option<Word>): Option<Word> {
    if merged && s == AluX(Sub) then constX else None
  }

  /** The test after arithmetic `s` before it has been merged into it. */
  function MergedTerm(t: Term, s: Option<Stmt>, aUsed: bool, constX: Option<Word>): Term
    requires t.Br?
  {
    if s.None? || !t.test.JmpK? || t.test.op != Jeq || aUsed then t
    else
      match s.value
      case AluX(Sub) =>
        if constX.Some? then t.(test := JmpK(Jeq, Wrap(t.test.k + constX.value)))
        else if t.test.k == 0 then t.(test := JmpX(Jeq))
        else t
      case AluK(Sub, x) => t.(test := JmpK(Jeq, Wrap(t.test.k + x)))
      case AluK(And, x) => if t.test.k == 0 then Br(JmpK(Jset, x), t.jf, t.jt) else t
      case _ => t
  }

  function AluOnly(s: Stmt): Option<Stmt> { if IsAlu(s) then Some(s) else None }

  /** Arithmetic `s` is merged into the test that follows it. */
  predicate Merging(t: Term, s: Stmt, aUsed: bool, constX: Option<Word>)
    requires t.Br?
  {
    && !aUsed && t.test.JmpK? && t.test.op == Jeq
    && match s
       case AluX(Sub) => constX.Some? || t.test.k == 0
       case AluK(Sub, _) => true
       case AluK(And, _) => t.test.k == 0
       case _ => false
  }

  /** The list without the arithmetic that is merged. */
  function MergedList(ss: seq<Stmt>, last: nat, t: Term, aUsed: bool, constX: Option<Word>): seq<Stmt>
    requires t.Br? && last < |ss|
  {
    if Merging(t, ss[last], aUsed, constX) then ss[last := Nop] else ss
  }

  /** What is needed, beside any `more`, before and after. */
  ghost predicate NeedsLess(ss: seq<Stmt>, t: Term, ss': seq<Stmt>, t': Term) {
    forall more: set<Atom> :: LiveIn(ss', TermUse(t') + more) <= LiveIn(ss, TermUse(t) + more)
  }

  /** A subtraction or a mask merged into the test takes the same branch on every run. */
  lemma MergedRight(ss: seq<Stmt>, last: nat, t: Term, aUsed: bool, constX: Option<Word>)
    requires t.Br? && LastOk(ss, last)
    ensures var merged, ss', t' := Merging(t, ss[last], aUsed, constX), MergedList(ss, last, t, aUsed, constX),
                                   MergedTerm(t, AluOnly(ss[last]), aUsed, constX);
            && SameEnd(ss, t, ss', t', UsedX(merged, ss[last], constX)) && NeedsLess(ss, t, ss', t')
            && (!merged ==> t' == t) && (merged ==> NopsBetween(ss, last + 1, |ss|))
  {
    var t' := MergedTerm(t, AluOnly(ss[last]), aUsed, constX);
    if Merging(t, ss[last], aUsed, constX) {
      MergeRight(ss, last, t, t', UsedX(true, ss[last], constX));
      MergeReads(ss, last, t, t');
    }
  }

  /** Merge a subtraction or a mask before an equality test into the test. */
  method MergeEnd(ss: seq<Stmt>, last: nat, t: Term, aUsed: bool, constX: Option<Word>)
    returns (ss': seq<Stmt>, t': Term)
    requires t.Br? && LastOk(ss, last)
    ensures t' == MergedTerm(t, AluOnly(ss[last]), aUsed, constX) && ss' == MergedList(ss, last, t, aUsed, constX)
    ensures SameEnd(ss, t, ss', t', UsedX(Merging(t, ss[last], aUsed, constX), ss[last], constX))
    ensures NeedsLess(ss, t, ss', t')
  {
    ss', t' := ss, t;
    if t.test.JmpK? && t.test.op == Jeq && !aUsed {
      var k := t.test.k;
      if ss[last] == AluX(Sub) {
        if constX.Some? {
          ss', t' := ss[last := Nop], t.(test := JmpK(Jeq, Wrap(k + constX.value)));
        } else if k == 0 {
          ss', t' := ss[last := Nop], t.(test := JmpX(Jeq));
        }
      } else if ss[last].AluK? && ss[last].op == Sub {
        ss', t' := ss[last := Nop], t.(test := JmpK(Jeq, Wrap(k + ss[last].k)));
      } else if ss[last].AluK? && ss[last].op == And && k == 0 {
        ss', t' := ss[last := Nop], Br(JmpK(Jset, ss[last].k), t.jf, t.jt);
      }
    }
    MergedRight(ss, last, t, aUsed, constX);
  }

  /** What was read by the arithmetic is now read by the test. */
  lemma MergeReads(ss: seq<Stmt>, last: nat, t: Term, t': Term)
    requires last < |ss| && NopsBetween(ss, last + 1, |ss|) && t.Br? && t.test.JmpK? && IsAlu(ss[last])
    requires t'.Br? && (t'.test.JmpX? ==> ss[last].AluX?)
    ensures NeedsLess(ss, t, ss[last := Nop], t')
  {
    var ss' := ss[last := Nop];
    forall more: set<Atom> ensures LiveIn(ss', TermUse(t') + more) <= LiveIn(ss, TermUse(t) + more) {
      LiveStep(ss, last, |ss|, TermUse(t) + more);
      LiveSkip(ss', last, |ss|, TermUse(t') + more);
      ReadsAfter(ss, ss', last, TermUse(t) + more, TermUse(t') + more);
    }
  }

  /** The merged tests, case by case. */
  ghost predicate Merges(s: Stmt, t: Term, t': Term, constX: Option<Word>)
    requires t.Br? && t.test.JmpK?
  {
    var k := t.test.k;
    match s
    case AluX(Sub) =>
      if constX.Some? then t' == t.(test := JmpK(Jeq, Wrap(k + constX.value)))
        else k == 0 && t' == t.(test := JmpX(Jeq))
    case AluK(Sub, x) => t' == t.(test := JmpK(Jeq, Wrap(k + x)))
    case AluK(And, x) => k == 0 && t' == Br(JmpK(Jset, x), t.jf, t.jt)
    case _ => false
  }

  lemma MergeRight(ss: seq<Stmt>, last: nat, t: Term, t': Term, constX: Option<Word>)
    requires last < |ss| && NopsBetween(ss, last + 1, |ss|)
    requires t.Br? && t.test.JmpK? && t.test.op == Jeq && Merges(ss[last], t, t', constX)
    ensures SameEnd(ss, t, ss[last := Nop], t', constX)
  {
    forall p, r | ExecAll(ss, p, r).Some? && (constX.Some? ==> ExecAll(ss, p, r).value[X_ATOM] == constX.value)
      ensures ExecAll(ss[last := Nop], p, r).Some?
      ensures ButA(ExecAll(ss, p, r).value, ExecAll(ss[last := Nop], p, r).value)
      ensures Target(t', ExecAll(ss[last := Nop], p, r).value) == Target(t, ExecAll(ss, p, r).value)
      ensures Holds(t'.test, ExecAll(ss[last := Nop], p, r).value)
              == (Holds(t.test, ExecAll(ss, p, r).value) != Turned(t, t'))
    {
      DropLast(ss, last, p, r);
      MergeOne(ss[last], t, t', constX, p, ExecAll(ss[last := Nop], p, r).value);
    }
  }

  lemma MergeOne(s: Stmt, t: Term, t': Term, constX: Option<Word>, p: Packet, q: Regs)
    requires t.Br? && t.test.JmpK? && t.test.op == Jeq && Merges(s, t, t', constX)
    requires Exec(s, p, q).Some? && (constX.Some? ==> q[X_ATOM] == constX.value)
    ensures ButA(Exec(s, p, q).value, q) && Target(t', q) == Target(t, Exec(s, p, q).value)
    ensures Holds(t'.test, q) == (Holds(t.test, Exec(s, p, q).value) != Turned(t, t'))
  {
    match s
    case AluX(Sub) => SubCompare(q[A_ATOM], q[X_ATOM], t.test.k);
    case AluK(Sub, x) => SubCompare(q[A_ATOM], x, t.test.k);
    case AluK(And, x) =>
  }

  /** A bit test whose outcome is taken to be known: never for 0, always for all ones. */
  function FoldJset(t: Term): Term
    requires t.Br?
  {
    if t.test == JmpK(Jset, 0) then t.(jt := t.jf)
    else if t.test == JmpK(Jset, MAX_WORD) then t.(jf := t.jt)
    else t
  }

  lemma BitAndZero(a: nat)
    ensures BitAnd(a, 0) == 0
  {
  }

  lemma BitAndAll(a: Word, m: Word)
    requires m == MAX_WORD
    ensures BitAnd(a, m) == a
  {
    assert Pow2(8) == 0x100;
    assert Pow2(16) == 0x1_0000;
    assert Pow2(24) == 0x100_0000;
    assert Pow2(32) == 0x1_0000_0000;
    AndOnes(a, 32);
  }

  lemma {:induction false} AndOnes(a: nat, n: nat)
    requires a < Pow2(n)
    ensures BitAnd(a, Pow2(n) - 1) == a
    decreases n
  {
    if n > 0 {
      AndOnes(a / 2, n - 1);
      assert (Pow2(n) - 1) / 2 == Pow2(n - 1) - 1 && (Pow2(n) - 1) % 2 == 1;
    }
  }

  /** The fold is right exactly when the test is not the all-ones test of a zero accumulator with two targets. */
  lemma FoldJsetIff(t: Term, q: Regs)
    requires t.Br?
    ensures Target(FoldJset(t), q) == Target(t, q) <==>
            !(t.test == JmpK(Jset, MAX_WORD) && q[A_ATOM] == 0 && t.jt != t.jf)
  {
    BitAndZero(q[A_ATOM]);
    if t.test.JmpK? && t.test.k == MAX_WORD { BitAndAll(q[A_ATOM], t.test.k); }
  }

  /** Compare with a known X as with a constant. */
  function FoldX(t: Term, constX: Option<Word>): Term
    requires t.Br?
  {
    if constX.Some? && t.test.JmpX? then t.(test := JmpK(t.test.op, constX.value)) else t
  }

  /** Decide a comparison of a known accumulator with a constant. */
  function FoldA(t: Term, constA: Option<Word>): Term
    requires t.Br?
  {
    if constA.Some? && t.test.JmpK? then
      if Compare(t.test.op, constA.value, t.test.k) then t.(jf := t.jt) else t.(jt := t.jf)
    else t
  }

  /** The last real statement of the list is arithmetic. */
  ghost predicate EndsInAlu(ss: seq<Stmt>) { exists i: nat :: LastReal(ss, i) && IsAlu(ss[i]) }

  ghost predicate EndsInSubX(ss: seq<Stmt>) { exists i: nat :: LastReal(ss, i) && ss[i] == AluX(Sub) }

  /** What the block has to leave as it was: X only if something at or after its end reads it. */
  ghost function Kept(b: Block, outUse: set<Atom>): set<Atom>
    requires b.term.Br?
  {
    if X_ATOM in outUse || b.term.test.JmpX? || EndsInSubX(b.stmts) then AllAtoms() else AllAtoms() - {X_ATOM}
  }

  /** No read of X inside the block sees that an indexed access is rewritten. */
  ghost predicate SafeX(b: Block, outUse: set<Atom>)
    requires b.term.Br?
  {
    X_ATOM in outUse || NoLocalUse(b.stmts, Kept(b, outUse))
  }

  /** The arithmetic that the comparison at the end of the block can be merged with. */
  ghost function Closing(ss: seq<Stmt>): Option<Stmt> {
    if exists i: nat :: EndsIn(ss, i) then var i: nat :| EndsIn(ss, i); Some(ss[i]) else None
  }

  lemma ClosingIs(ss: seq<Stmt>, i: nat)
    requires EndsIn(ss, i)
    ensures Closing(ss) == Some(ss[i])
  {
    forall j: nat | EndsIn(ss, j) ensures j == i { assert LastReal(ss, i) && LastReal(ss, j); }
  }

  /** How the block ends after the rewriting. */
  ghost function PeepTerm(b: Block, outUse: set<Atom>, constX: Option<Word>, constA: Option<Word>): Term
    requires b.term.Br?
  {
    if b.stmts == [] then b.term
    else FoldA(FoldX(FoldJset(MergedTerm(b.term, Closing(b.stmts), A_ATOM in outUse, constX)), constX), constA)
  }

  /** The block ends in an all-ones bit test, or in a mask and a comparison that become one. */
  ghost predicate AllOnes(b: Block, outUse: set<Atom>)
    requires b.term.Br?
  {
    b.stmts != []
    && (b.term.test == JmpK(Jset, MAX_WORD)
        || (b.term.test == JmpK(Jeq, 0) && A_ATOM !in outUse && EndsInAllOnes(b.stmts)))
  }

  ghost predicate EndsInAllOnes(ss: seq<Stmt>) { exists i: nat :: EndsIn(ss, i) && ss[i] == AluK(And, MAX_WORD) }

  /** The all-ones test is taken to hold, and does not. */
  ghost predicate AllOnesHit(b: Block, outUse: set<Atom>, q: Regs)
    requires b.term.Br?
  {
    AllOnes(b, outUse) && q[A_ATOM] == 0 && b.term.jt != b.term.jf
  }

  /** The known values hold at the end of the run. */
  ghost predicate ConstsRight(q: Regs, constX: Option<Word>, constA: Option<Word>) {
    (constX.Some? ==> q[X_ATOM] == constX.value) && (constA.Some? ==> q[A_ATOM] == constA.value)
  }

  /** On runs on which the known values hold, both blocks leave `outUse` alike, and they go to the same successor
      exactly if the all-ones rule is not at fault. */
  ghost predicate SameBlockOn(b: Block, b': Block, outUse: set<Atom>, constX: Option<Word>, constA: Option<Word>,
                              p: Packet, r: Regs)
    requires b.term.Br? && b'.term.Br?
  {
    var q, q' := ExecAll(b.stmts, p, r), ExecAll(b'.stmts, p, r);
    q.Some? && ConstsRight(q.value, constX, constA) ==>
      && q'.Some? && Agree(outUse, q.value, q'.value)
      && (Target(b'.term, q'.value) == Target(b.term, q.value) <==> !AllOnesHit(b, outUse, q.value))
      && Holds(b'.term.test, q'.value) == (Holds(b.term.test, q.value) != Turned(b.term, b'.term))
  }

  /** A branching block after the rewriting: `outUse` is what its successors read, `constX` and `constA` the
      constants that X and the accumulator are known to hold at its end. */
  function PeepedBlock(b: Block, outUse: set<Atom>, constX: Option<Word>, constA: Option<Word>): (b': Block)
    requires b.term.Br?
    ensures b'.term.Br?
  {
    if b.stmts == [] then b
    else
      var (ss, last) := PeepFrom(b.stmts, 0, X_ATOM in outUse);
      var t := MergedTerm(b.term, AluOnly(ss[last]), A_ATOM in outUse, constX);
      Block(MergedList(ss, last, b.term, A_ATOM in outUse, constX), FoldA(FoldX(FoldJset(t), constX), constA))
  }

  /** What the rewriting promises. */
  ghost predicate PeepOk(b: Block, b': Block, outUse: set<Atom>, constX: Option<Word>, constA: Option<Word>)
    requires b.term.Br? && b'.term.Br?
  {
    && b'.term == PeepTerm(b, outUse, constX, constA) && {b'.term.jt, b'.term.jf} <= {b.term.jt, b.term.jf}
    && NeedsLess(b.stmts, b.term, b'.stmts, b'.term)
    && (SafeX(b, outUse) ==> forall p, r :: SameBlockOn(b, b', outUse, constX, constA, p, r))
    && (b.stmts != [] && constX.Some? ==> b'.term.test.JmpK?)
    && (b.stmts != [] && constA.Some? && b'.term.test.JmpK? ==> b'.term.jt == b'.term.jf)
  }

  lemma PeepedRight(b: Block, outUse: set<Atom>, constX: Option<Word>, constA: Option<Word>)
    requires b.term.Br? && (constA.Some? ==> !EndsInAlu(b.stmts))
    ensures PeepOk(b, PeepedBlock(b, outUse, constX, constA), outUse, constX, constA)
  {
    if b.stmts != [] {
      PeepedEnd(b, outUse, constX, constA);
      PeepedNeeds(b, outUse, constX, constA);
      if SafeX(b, outUse) { PeepedSame(b, outUse, constX, constA); }
    }
  }

  lemma PeepedEnd(b: Block, outUse: set<Atom>, constX: Option<Word>, constA: Option<Word>)
    requires b.term.Br? && b.stmts != []
    ensures var t := PeepedBlock(b, outUse, constX, constA).term;
            && t == PeepTerm(b, outUse, constX, constA) && {t.jt, t.jf} <= {b.term.jt, b.term.jf}
            && (constX.Some? ==> t.test.JmpK?) && (constA.Some? && t.test.JmpK? ==> t.jt == t.jf)
  {
    ClosingIn(b, outUse);
    MergedAllOnes(b, outUse, constX);
    FoldedTargets(MergedTerm(b.term, Closing(b.stmts), A_ATOM in outUse, constX), constX, constA);
  }

  lemma ClosingIn(b: Block, outUse: set<Atom>)
    requires b.stmts != []
    ensures var (ss, last) := PeepFrom(b.stmts, 0, X_ATOM in outUse); Closing(b.stmts) == AluOnly(ss[last])
  {
    var (ss, last) := PeepFrom(b.stmts, 0, X_ATOM in outUse);
    PeepListRight(b.stmts, X_ATOM in outUse, {});
    ClosingFound(b.stmts, ss, last);
  }

  /** Deciding a test leads to none but its own targets. */
  lemma FoldedTargets(t: Term, constX: Option<Word>, constA: Option<Word>)
    requires t.Br?
    ensures var t' := FoldA(FoldX(FoldJset(t), constX), constA);
            && {t'.jt, t'.jf} <= {t.jt, t.jf}
            && (constX.Some? ==> t'.test.JmpK?) && (constA.Some? && t'.test.JmpK? ==> t'.jt == t'.jf)
  {
    var t1 := FoldJset(t);
    assert {t1.jt, t1.jf} <= {t.jt, t.jf};
    var t2 := FoldX(t1, constX);
    assert t2.jt == t1.jt && t2.jf == t1.jf;
  }

  lemma PeepedNeeds(b: Block, outUse: set<Atom>, constX: Option<Word>, constA: Option<Word>)
    requires b.term.Br? && b.stmts != []
    ensures var b' := PeepedBlock(b, outUse, constX, constA); NeedsLess(b.stmts, b.term, b'.stmts, b'.term)
  {
    var b' := PeepedBlock(b, outUse, constX, constA);
    var (ss, last) := PeepFrom(b.stmts, 0, X_ATOM in outUse);
    PeepListRight(b.stmts, X_ATOM in outUse, Kept(b, outUse));
    MergedRight(ss, last, b.term, A_ATOM in outUse, constX);
    var t := MergedTerm(b.term, AluOnly(ss[last]), A_ATOM in outUse, constX);
    forall more: set<Atom>
      ensures LiveIn(b'.stmts, TermUse(b'.term) + more) <= LiveIn(b.stmts, TermUse(b.term) + more)
    {
      LiveInGrows(b'.stmts, TermUse(b'.term) + more, TermUse(t) + more);
      assert LiveIn(ss, TermUse(b.term) + more) <= LiveIn(b.stmts, TermUse(b.term) + more);
    }
  }

  lemma PeepedSame(b: Block, outUse: set<Atom>, constX: Option<Word>, constA: Option<Word>)
    requires b.term.Br? && b.stmts != [] && (constA.Some? ==> !EndsInAlu(b.stmts)) && SafeX(b, outUse)
    ensures forall p, r :: SameBlockOn(b, PeepedBlock(b, outUse, constX, constA), outUse, constX, constA, p, r)
  {
    var (ss, last) := PeepFrom(b.stmts, 0, X_ATOM in outUse);
    PeepListRight(b.stmts, X_ATOM in outUse, Kept(b, outUse));
    ClosingIn(b, outUse);
    MergedRight(ss, last, b.term, A_ATOM in outUse, constX);
    MergedAllOnes(b, outUse, constX);
    var merged, ss' := Merging(b.term, ss[last], A_ATOM in outUse, constX),
        MergedList(ss, last, b.term, A_ATOM in outUse, constX);
    var t := MergedTerm(b.term, AluOnly(ss[last]), A_ATOM in outUse, constX);
    forall p, r ensures SameBlockOn(b, PeepedBlock(b, outUse, constX, constA), outUse, constX, constA, p, r) {
      PeepRight(b, ss, last, ss', t, merged, outUse, constX, constA, p, r);
    }
  }

  /** Rewrite a branching block. */
  method PeepBlock(b: Block, outUse: set<Atom>, constX: Option<Word>, constA: Option<Word>) returns (b': Block)
    requires b.term.Br? && (constA.Some? ==> !EndsInAlu(b.stmts))
    ensures b' == PeepedBlock(b, outUse, constX, constA) && PeepOk(b, b', outUse, constX, constA)
  {
    b' := PeepOnly(b, outUse, constX, constA);
    PeepedRight(b, outUse, constX, constA);
  }

  method PeepOnly(b: Block, outUse: set<Atom>, constX: Option<Word>, constA: Option<Word>) returns (b': Block)
    requires b.term.Br?
    ensures b' == PeepedBlock(b, outUse, constX, constA)
  {
    if b.stmts == [] { return b; }
    var ss, last := PeepStmts(b.stmts, X_ATOM in outUse);
    var ss', t := MergeEnd(ss, last, b.term, A_ATOM in outUse, constX);
    b' := Block(ss', FoldA(FoldX(FoldJset(t), constX), constA));
  }

  lemma ClosingFound(ss0: seq<Stmt>, ss: seq<Stmt>, last: nat)
    requires Tame(ss0, ss) && last < |ss| && (IsAlu(ss[last]) ==> EndsIn(ss0, last) && ss[last] == ss0[last])
    requires forall i: nat | EndsIn(ss0, i) :: last == i
    ensures Closing(ss0) == AluOnly(ss[last])
  {
    if i: nat :| EndsIn(ss0, i) {
      ClosingIs(ss0, i);
      LastKept(ss0, ss, i);
    }
  }

  /** When the all-ones bit test comes up, and what it was made from. */
  lemma MergedAllOnes(b: Block, outUse: set<Atom>, constX: Option<Word>)
    requires b.term.Br? && b.stmts != []
    ensures var t := MergedTerm(b.term, Closing(b.stmts), A_ATOM in outUse, constX);
            && {t.jt, t.jf} == {b.term.jt, b.term.jf}
            && (t.test == JmpK(Jset, MAX_WORD) <==> AllOnes(b, outUse))
            && (t.test == JmpK(Jset, MAX_WORD) && t != b.term ==>
                t.jt == b.term.jf && t.jf == b.term.jt && b.term.test == JmpK(Jeq, 0))
  {
    if i: nat :| EndsIn(b.stmts, i) { ClosingIs(b.stmts, i); }
  }

  lemma PeepRight(b: Block, ss: seq<Stmt>, last: nat, ss': seq<Stmt>, t: Term, merged: bool,
                  outUse: set<Atom>, constX: Option<Word>, constA: Option<Word>, p: Packet, r: Regs)
    requires b.term.Br? && (constA.Some? ==> !EndsInAlu(b.stmts))
    requires Tame(b.stmts, ss) && SameFrom(b.stmts, ss, 0, Kept(b, outUse)) && last < |ss|
    requires t.Br? && SameEnd(ss, b.term, ss', t, UsedX(merged, ss[last], constX))
    requires !merged ==> ss' == ss && t == b.term
    requires merged ==>
               A_ATOM !in outUse && IsAlu(ss[last]) && LastReal(b.stmts, last) && ss[last] == b.stmts[last]
               && b.term.test.JmpK? && b.term.test.op == Jeq
    requires t == MergedTerm(b.term, AluOnly(ss[last]), A_ATOM in outUse, constX)
    requires t.test == JmpK(Jset, MAX_WORD) <==> AllOnes(b, outUse)
    requires t.test == JmpK(Jset, MAX_WORD) && t != b.term ==>
               t.jt == b.term.jf && t.jf == b.term.jt && b.term.test == JmpK(Jeq, 0)
    ensures SameBlockOn(b, Block(ss', FoldA(FoldX(FoldJset(t), constX), constA)), outUse, constX, constA, p, r)
  {
    if ExecAll(b.stmts, p, r).Some? && ConstsRight(ExecAll(b.stmts, p, r).value, constX, constA) {
      assert b.stmts[0..] == b.stmts && ss[0..] == ss;
      assert Alike(ExecAll(b.stmts[0..], p, r), ExecAll(ss[0..], p, r), Kept(b, outUse));
      var q, q1 := ExecAll(b.stmts, p, r).value, ExecAll(ss, p, r).value;
      assert Holds(b.term.test, q1) == Holds(b.term.test, q) && q1[A_ATOM] == q[A_ATOM];
      assert merged ==> EndsInAlu(b.stmts) && (ss[last] == AluX(Sub) ==> EndsInSubX(b.stmts));
      var q2 := ExecAll(ss', p, r).value;
      assert Target(t, q2) == Target(b.term, q);
      assert Holds(t.test, q2) == (Holds(b.term.test, q) != Turned(b.term, t));
      FoldsRight(t, q2, constX, constA, merged);
      AllOnesRight(b, t, merged, outUse, q, q2);
    }
  }

  /** Known values decide the test as it would be decided, apart from the all-ones rule. */
  lemma FoldsRight(t: Term, q: Regs, constX: Option<Word>, constA: Option<Word>, merged: bool)
    requires t.Br? && (constA.Some? ==> q[A_ATOM] == constA.value)
    requires constX.Some? && t.test.JmpX? ==> q[X_ATOM] == constX.value
    ensures Target(FoldA(FoldX(FoldJset(t), constX), constA), q) == Target(t, q) <==>
            !(t.test == JmpK(Jset, MAX_WORD) && q[A_ATOM] == 0 && t.jt != t.jf)
    ensures var t' := FoldA(FoldX(FoldJset(t), constX), constA);
            Holds(t'.test, q) == Holds(t.test, q) && t'.test.op == t.test.op
  {
    FoldJsetIff(t, q);
    var t1 := FoldJset(t);
    assert Target(FoldX(t1, constX), q) == Target(t1, q);
    assert Target(FoldA(FoldX(t1, constX), constA), q) == Target(t1, q);
  }

  lemma AllOnesRight(b: Block, t: Term, merged: bool, outUse: set<Atom>, q: Regs, q2: Regs)
    requires b.term.Br? && t.Br? && Target(t, q2) == Target(b.term, q)
    requires t.test == JmpK(Jset, MAX_WORD) <==> AllOnes(b, outUse)
    requires !merged ==> t == b.term && q2[A_ATOM] == q[A_ATOM]
    requires t.test == JmpK(Jset, MAX_WORD) && merged ==>
               t.jt == b.term.jf && t.jf == b.term.jt && b.term.test == JmpK(Jeq, 0)
    ensures t.test == JmpK(Jset, MAX_WORD) && q2[A_ATOM] == 0 && t.jt != t.jf <==> AllOnesHit(b, outUse, q)
  {
    if t.test == JmpK(Jset, MAX_WORD) && merged { BitAndAll(q2[A_ATOM], t.test.k); }
  }
}
