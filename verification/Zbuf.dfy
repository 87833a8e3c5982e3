/** The two shared capture buffers and their hand-over between kernel and reader by generation counters
    (pcap_next_zbuf_shm, pcap_ack_zbuf). */
module Zbuf {
  import opened Machine

  /** A shared buffer: the header's two generation counters and the contents, whose length is in the header too. */
  datatype Buf = Buf(kernelGen: Word, userGen: Word, data: seq<Byte>)

  /** How far the reader is. `Found` has seen a new generation, `Holding` has taken the buffer and looked at `seen`
      of its `cc` bytes, `Acking` has loaded the generation it is about to store. */
  datatype Reader =
    | Idle
    | Found(b: nat)
    | Holding(b: nat, cc: nat, seen: seq<Byte>)
    | Acking(b: nat, gen: Word, seen: seq<Byte>)

  /** The shared memory, both parties, and the history: contents handed over and contents processed. */
  datatype State = State(
    bufs: seq<Buf>, filling: nat, reader: Reader, zbuffer: Option<nat>, handed: seq<seq<Byte>>, done: seq<seq<Byte>>)

  predicate KernelOwns(b: Buf) { b.kernelGen == b.userGen }

  /** The buffer to look at next: the other one, or the first if there was none. */
  function NextOf(zbuffer: Option<nat>): nat { if zbuffer.None? || zbuffer.value == 1 then 0 else 1 }

  function Other(b: nat): nat { if b == 0 then 1 else 0 }

  // Steps

  ghost predicate Init(s: State) {
    && |s.bufs| == 2 && KernelOwns(s.bufs[0]) && KernelOwns(s.bufs[1])
    && s.filling == 0 && s.reader.Idle? && s.zbuffer.None? && s.handed == [] && s.done == []
  }

  /** The kernel writes to a buffer only while it owns it, and fills the buffers in turn. */
  ghost predicate KernelWrites(s: State, s': State) {
    && s.filling < |s.bufs| && KernelOwns(s.bufs[s.filling])
    && exists d :: s' == s.(bufs := s.bufs[s.filling := s.bufs[s.filling].(data := d)])
  }

  ghost predicate KernelHandsOver(s: State, s': State) {
    && s.filling < |s.bufs| && KernelOwns(s.bufs[s.filling])
    && var b := s.bufs[s.filling];
       s' == s.(bufs := s.bufs[s.filling := b.(kernelGen := Wrap(b.kernelGen + 1))],
                filling := Other(s.filling), handed := s.handed + [b.data])
  }

  ghost predicate ReaderLooks(s: State, s': State) {
    && s.reader.Idle? && NextOf(s.zbuffer) < |s.bufs|
    && var b := NextOf(s.zbuffer);
       s' == if KernelOwns(s.bufs[b]) then s else s.(reader := Found(b))
  }

  ghost predicate ReaderTakes(s: State, s': State) {
    && s.reader.Found? && s.reader.b < |s.bufs|
    && s' == s.(reader := Holding(s.reader.b, |s.bufs[s.reader.b].data|, []), zbuffer := Some(s.reader.b))
  }

  ghost predicate ReaderReads(s: State, s': State) {
    && s.reader.Holding? && s.reader.b < |s.bufs| && |s.reader.seen| < s.reader.cc
    && |s.reader.seen| < |s.bufs[s.reader.b].data|
    && var r := s.reader;
       s' == s.(reader := Holding(r.b, r.cc, r.seen + [s.bufs[r.b].data[|r.seen|]]))
  }

  ghost predicate ReaderLoadsGen(s: State, s': State) {
    && s.reader.Holding? && s.reader.b < |s.bufs| && |s.reader.seen| == s.reader.cc
    && s' == s.(reader := Acking(s.reader.b, s.bufs[s.reader.b].kernelGen, s.reader.seen))
  }

  ghost predicate ReaderStoresGen(s: State, s': State) {
    && s.reader.Acking? && s.reader.b < |s.bufs|
    && s' == s.(bufs := s.bufs[s.reader.b := s.bufs[s.reader.b].(userGen := s.reader.gen)],
                reader := Idle, done := s.done + [s.reader.seen])
  }

  ghost predicate Next(s: State, s': State) {
    || KernelWrites(s, s') || KernelHandsOver(s, s')
    || ReaderLooks(s, s') || ReaderTakes(s, s') || ReaderReads(s, s') || ReaderLoadsGen(s, s') || ReaderStoresGen(s, s')
  }

  // The invariant

  /** Buffer `b` holds the handed-over contents number `j`. */
  ghost predicate Carries(s: State, b: nat, j: nat)
    requires b < |s.bufs| && j < |s.handed|
  {
    s.bufs[b].kernelGen == Wrap(s.bufs[b].userGen + 1) && s.bufs[b].data == s.handed[j]
  }

  /** Contents number `j` go through buffer `j % 2`; those between `done` and `handed` are in the buffers. */
  ghost predicate BuffersOk(s: State) {
    && |s.bufs| == 2 && |s.done| <= |s.handed| <= |s.done| + 2
    && s.filling == |s.handed| % 2
    && (forall j | |s.done| <= j < |s.handed| :: Carries(s, j % 2, j))
    && (|s.handed| - |s.done| < 2 ==> KernelOwns(s.bufs[s.filling]))
    && (|s.handed| == |s.done| ==> KernelOwns(s.bufs[Other(s.filling)]))
  }

  /** What the reader has in hand is the oldest contents not yet processed. */
  ghost predicate ReaderOk(s: State) {
    var n, r := |s.done|, s.reader;
    && (r.Idle? || r.Found? ==> s.zbuffer == if n == 0 then None else Some((n - 1) % 2))
    && (r.Found? ==> r.b == n % 2 && n < |s.handed|)
    && (r.Holding? || r.Acking? ==> s.zbuffer == Some(r.b) && r.b == n % 2 && n < |s.handed| && r.seen <= s.handed[n])
    && (r.Holding? ==> r.cc == |s.handed[n]|)
    && (r.Acking? ==> r.b < |s.bufs| && r.seen == s.handed[n] && r.gen == s.bufs[r.b].kernelGen)
  }

  /** Each handed-over buffer is processed once, in order. */
  ghost predicate Inv(s: State) { BuffersOk(s) && ReaderOk(s) && s.done <= s.handed }

  lemma InitInv(s: State)
    requires Init(s)
    ensures Inv(s)
  {
  }

  lemma WrapDiffers(g: Word)
    ensures Wrap(g + 1) != g
  {
  }

  /** The buffer the kernel is filling carries nothing that is still to be processed. */
  lemma FillingIsFree(s: State)
    requires Inv(s) && KernelOwns(s.bufs[s.filling])
    ensures |s.handed| < |s.done| + 2 && forall j | |s.done| <= j < |s.handed| :: j % 2 != s.filling
  {
    WrapDiffers(s.bufs[s.filling].userGen);
    forall j | |s.done| <= j < |s.handed| ensures j % 2 != s.filling { assert Carries(s, j % 2, j); }
  }

  lemma WriteInv(s: State, s': State)
    requires Inv(s) && KernelWrites(s, s')
    ensures Inv(s')
  {
    FillingIsFree(s);
    forall j | |s.done| <= j < |s.handed| ensures Carries(s', j % 2, j) { assert Carries(s, j % 2, j); }
  }

  lemma HandOverInv(s: State, s': State)
    requires Inv(s) && KernelHandsOver(s, s')
    ensures Inv(s')
  {
    FillingIsFree(s);
    forall j | |s.done| <= j < |s'.handed| ensures Carries(s', j % 2, j) {
      if j < |s.handed| { assert Carries(s, j % 2, j); }
    }
  }

  lemma KernelStepInv(s: State, s': State)
    requires Inv(s) && (KernelWrites(s, s') || KernelHandsOver(s, s'))
    ensures Inv(s') && s'.reader == s.reader && s'.zbuffer == s.zbuffer && s'.done == s.done && s.handed <= s'.handed
    ensures forall b | 0 <= b < 2 && !KernelOwns(s.bufs[b]) :: s'.bufs[b] == s.bufs[b]
  {
    if KernelWrites(s, s') { WriteInv(s, s'); } else { HandOverInv(s, s'); }
  }

  lemma ReaderStepInv(s: State, s': State)
    requires Inv(s)
    requires ReaderLooks(s, s') || ReaderTakes(s, s') || ReaderReads(s, s') || ReaderLoadsGen(s, s')
             || ReaderStoresGen(s, s')
    ensures Inv(s') && s'.handed == s.handed && s.done <= s'.done
  {
    var n := |s.done|;
    if n < |s.handed| { assert Carries(s, n % 2, n); }
    if n + 1 < |s.handed| { assert Carries(s, (n + 1) % 2, n + 1); }
    forall j | |s'.done| <= j < |s'.handed| ensures Carries(s', j % 2, j) { assert Carries(s, j % 2, j); }
  }

  lemma StepInv(s: State, s': State)
    requires Inv(s) && Next(s, s')
    ensures Inv(s') && s.handed <= s'.handed && s.done <= s'.done
  {
    if KernelWrites(s, s') || KernelHandsOver(s, s') { KernelStepInv(s, s'); } else { ReaderStepInv(s, s'); }
  }

  // Whole runs

  ghost predicate IsRun(run: seq<State>) {
    run != [] && Init(run[0]) && forall i | 0 <= i < |run| - 1 :: Next(run[i], run[i + 1])
  }

  /** Every state of every interleaving satisfies the invariant. */
  lemma {:induction false} RunInv(run: seq<State>, i: nat)
    requires IsRun(run) && i < |run|
    ensures Inv(run[i])
    decreases i
  {
    if i == 0 {
      InitInv(run[0]);
    } else {
      RunInv(run, i - 1);
      assert Next(run[i - 1], run[i - 1 + 1]);
      StepInv(run[i - 1], run[i]);
    }
  }

  /** History only grows along a run. */
  lemma {:induction false} RunGrows(run: seq<State>, i: nat, j: nat)
    requires IsRun(run) && i <= j < |run|
    ensures run[i].handed <= run[j].handed && run[i].done <= run[j].done
    decreases j - i
  {
    if i < j {
      RunInv(run, i);
      assert Next(run[i], run[i + 1]);
      StepInv(run[i], run[i + 1]);
      RunGrows(run, i + 1, j);
    }
  }

  /** While the reader has a buffer, the kernel does not own it and its contents are the ones handed over. */
  lemma HeldIsSafe(run: seq<State>, i: nat)
    requires IsRun(run) && i < |run| && !run[i].reader.Idle?
    ensures var s := run[i];
            && s.reader.b < |s.bufs| && !KernelOwns(s.bufs[s.reader.b])
            && |s.done| < |s.handed| && s.bufs[s.reader.b].data == s.handed[|s.done|]
  {
    RunInv(run, i);
    FoundCarries(run[i]);
  }

  /** The reader's look misses nothing: it finds no new generation exactly when all contents handed over are
      processed. */
  lemma LookIsExact(run: seq<State>, i: nat)
    requires IsRun(run) && i < |run| && run[i].reader.Idle?
    ensures var s := run[i];
            && NextOf(s.zbuffer) < |s.bufs|
            && (KernelOwns(s.bufs[NextOf(s.zbuffer)]) <==> s.done == s.handed)
  {
    RunInv(run, i);
    LookExact(run[i]);
  }

  lemma LookExact(s: State)
    requires Inv(s) && s.reader.Idle?
    ensures NextOf(s.zbuffer) == |s.done| % 2 < |s.bufs|
    ensures KernelOwns(s.bufs[NextOf(s.zbuffer)]) <==> s.done == s.handed
  {
    var n := |s.done|;
    if n < |s.handed| {
      assert Carries(s, n % 2, n);
      WrapDiffers(s.bufs[n % 2].userGen);
    }
  }

  /** What is processed at any time is a prefix of what is handed over by any later time. */
  lemma InOrder(run: seq<State>, i: nat, j: nat)
    requires IsRun(run) && i <= j < |run|
    ensures run[i].done <= run[j].handed && |run[j].handed| <= |run[j].done| + 2
  {
    RunInv(run, i);
    RunInv(run, j);
    RunGrows(run, i, j);
  }

  // The reader's code, with the kernel running between any two of its steps

  class Channel {
    var bufs: seq<Buf>
    var filling: nat
    var zbuffer: Option<nat>
    var bzh: Option<nat>
    ghost var reader: Reader
    ghost var handed: seq<seq<Byte>>
    ghost var done: seq<seq<Byte>>
    /** What the kernel may hand over: whole records, say. */
    const good: seq<Byte> -> bool

    /** Everything handed over is of that kind. */
    ghost predicate AllGood()
      reads this
    {
      forall j | 0 <= j < |handed| :: good(handed[j])
    }

    ghost function Now(): State
      reads this
    {
      State(bufs, filling, reader, zbuffer, handed, done)
    }

    /** The reader holds a buffer exactly when its header pointer is set. */
    ghost predicate Valid()
      reads this
    {
      Inv(Now()) && AllGood() && (reader.Idle? || reader.Holding?)
      && bzh == if reader.Idle? then None else Some(reader.b)
    }

    constructor (first: Buf, second: Buf, allowed: seq<Byte> -> bool)
      requires KernelOwns(first) && KernelOwns(second)
      ensures Valid() && Init(Now()) && good == allowed
    {
      good := allowed;
      bufs, filling, zbuffer, bzh := [first, second], 0, None, None;
      reader, handed, done := Idle, [], [];
    }

    /** Any number of kernel steps. */
    method Interfere()
      requires Inv(Now()) && AllGood()
      modifies this`bufs, this`filling, this`handed
      ensures Inv(Now()) && AllGood() && old(handed) <= handed
      ensures forall b | 0 <= b < 2 && !KernelOwns(old(bufs)[b]) :: bufs[b] == old(bufs)[b]
    {
      var steps: nat := *;
      while steps > 0
        invariant Inv(Now()) && AllGood() && old(handed) <= handed
        invariant forall b | 0 <= b < 2 && !KernelOwns(old(bufs)[b]) :: bufs[b] == old(bufs)[b]
      {
        steps := steps - 1;
        if KernelOwns(bufs[filling]) {
          ghost var before := Now();
          if * {
            var d: seq<Byte> := *;
            bufs := bufs[filling := bufs[filling].(data := d)];
            assert KernelWrites(before, Now());
          } else if good(bufs[filling].data) {
            handed := handed + [bufs[filling].data];
            bufs := bufs[filling := bufs[filling].(kernelGen := Wrap(bufs[filling].kernelGen + 1))];
            filling := Other(filling);
            assert KernelHandsOver(before, Now());
          }
          if Now() != before { KernelStepInv(before, Now()); }
        }
      }
    }

    /** Look at the buffer whose turn it is. */
    method Look() returns (next: nat, found: bool)
      requires Valid() && reader.Idle?
      modifies this`bufs, this`filling, this`handed, this`reader
      ensures Inv(Now()) && AllGood() && old(handed) <= handed
      ensures if found then reader == Found(next) else reader.Idle? && old(handed) == done
    {
      next := if zbuffer.None? || zbuffer.value == 1 then 0 else 1;
      Interfere();
      LookExact(Now());
      found := bufs[next].userGen != bufs[next].kernelGen;
      if found {
        StepInv(Now(), Now().(reader := Found(next)));
        reader := Found(next);
      }
    }

    /** Remember the buffer just found as the current one, and read its length. */
    method Take(next: nat) returns (cc: nat)
      requires Inv(Now()) && AllGood() && reader == Found(next)
      modifies this
      ensures Valid() && done == old(done) && old(handed) <= handed
      ensures |done| < |handed| && cc == |handed[|done|]| && reader == Holding(next, cc, [])
    {
      Interfere();
      FoundCarries(Now());
      bzh := Some(next);
      ReaderStepInv(Now(), Now().(reader := Holding(next, |bufs[next].data|, []), zbuffer := Some(next)));
      zbuffer := Some(next);
      reader := Holding(next, |bufs[next].data|, []);
      Interfere();
      cc := |bufs[next].data|;
    }

    /** Look for a new buffer and take it: 1 and its length, or 0 if all that was handed over is processed. */
    method NextZbufShm() returns (i: int, cc: nat)
      requires Valid() && reader.Idle?
      modifies this
      ensures Valid() && done == old(done) && old(handed) <= handed
      ensures i == 0 || i == 1
      ensures i == 1 ==>
                |done| < |handed| && cc == |handed[|done|]| && reader.Holding? && reader.cc == cc && reader.seen == []
      ensures i == 0 ==> reader.Idle? && zbuffer == old(zbuffer) && old(handed) == done && cc == 0
    {
      var next, found := Look();
      if found {
        cc := Take(next);
        i := 1;
      } else {
        i, cc := 0, 0;
      }
    }

    /** Look at one byte of the buffer in hand: it is the byte handed over, whatever the kernel does meanwhile. */
    method ReadByte(k: nat) returns (x: Byte)
      requires Valid() && reader.Holding? && k == |reader.seen| < reader.cc
      modifies this`bufs, this`filling, this`handed, this`reader
      ensures Valid() && old(handed) <= handed && |done| < |handed| && k < |handed[|done|]| && x == handed[|done|][k]
      ensures reader == Holding(old(reader).b, old(reader).cc, old(reader).seen + [x])
    {
      Interfere();
      FoundCarries(Now());
      x := bufs[bzh.value].data[k];
      ReaderStepInv(Now(), Now().(reader := Holding(reader.b, reader.cc, reader.seen + [x])));
      reader := Holding(reader.b, reader.cc, reader.seen + [x]);
    }

    /** Give a processed buffer back. */
    method AckZbuf()
      requires Valid() && reader.Holding? && |reader.seen| == reader.cc
      modifies this
      ensures Valid() && reader.Idle? && zbuffer == old(zbuffer) && old(handed) <= handed
      ensures |old(done)| < |handed| && done == old(done) + [handed[|old(done)|]]
    {
      Interfere();
      FoundCarries(Now());
      var b := bzh.value;
      var gen := bufs[b].kernelGen;
      StepInv(Now(), Now().(reader := Acking(b, gen, reader.seen)));
      reader := Acking(b, gen, reader.seen);
      Interfere();
      FoundCarries(Now());
      StoreGen(b, gen);
      bzh := None;
    }

    method StoreGen(b: nat, gen: Word)
      requires Inv(Now()) && reader.Acking? && reader.b == b < |bufs| && reader.gen == gen
      modifies this`bufs, this`reader, this`done
      ensures Inv(Now()) && reader.Idle? && |old(done)| < |handed| && done == old(done) + [handed[|old(done)|]]
    {
      ReaderStepInv(Now(),
                    Now().(bufs := bufs[b := bufs[b].(userGen := gen)], reader := Idle, done := done + [reader.seen]));
      bufs := bufs[b := bufs[b].(userGen := gen)];
      done := done + [reader.seen];
      reader := Idle;
    }
  }

  /** The buffer in the reader's hands carries the oldest contents not yet processed. */
  lemma FoundCarries(s: State)
    requires Inv(s) && !s.reader.Idle?
    ensures |s.done| < |s.handed| && s.reader.b == |s.done| % 2 < |s.bufs|
    ensures !KernelOwns(s.bufs[s.reader.b]) && s.bufs[s.reader.b].data == s.handed[|s.done|]
  {
    assert Carries(s, |s.done| % 2, |s.done|);
    WrapDiffers(s.bufs[s.reader.b].userGen);
  }
}
