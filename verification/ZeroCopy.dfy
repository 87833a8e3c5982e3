/** The read call over the shared buffers: acknowledge, look for the next buffer, walk its records (pcap_read_bpf with
    zero-copy, pcap_next_zbuf). */
module ZeroCopy {
  import opened Machine
  import opened Zbuf
  import opened ReadLoop

  ghost predicate AllWhole(bs: seq<seq<Byte>>) { forall i | 0 <= i < |bs| :: WellFormedFrom(bs[i], 0, |bs[i]|) }

  /** The records of all the buffers, in order. */
  ghost function AllRecords(bs: seq<seq<Byte>>): seq<Record>
    requires AllWhole(bs)
  {
    if bs == [] then [] else AllRecords(bs[..|bs| - 1]) + Records(bs[|bs| - 1], 0, |bs[|bs| - 1]|)
  }

  lemma AllRecordsNext(bs: seq<seq<Byte>>, b: seq<Byte>)
    requires AllWhole(bs) && WellFormedFrom(b, 0, |b|)
    ensures AllWhole(bs + [b]) && AllRecords(bs + [b]) == AllRecords(bs) + Records(b, 0, |b|)
  {
    assert (bs + [b])[..|bs|] == bs;
  }

  /** How a wait for data ends: a signal comes, a system call fails, or the buffers are looked at again. */
  datatype Wait = Interrupted | Fails | Woken | RotationFails

  /** `taken` are the processed buffers and the one in hand, which has been looked at entirely. */
  ghost predicate TakenUpTo(s: State, taken: seq<seq<Byte>>) {
    && (s.reader.Idle? ==> taken == s.done)
    && (s.reader.Holding? ==>
        |s.done| < |s.handed| && taken == s.done + [s.handed[|s.done|]] && |s.reader.seen| == s.reader.cc)
  }

  /** What a call reports: the packets it delivered, or an error and nothing delivered. */
  ghost predicate Reported(n: int, cnt: int, calls: seq<Record>, calls': seq<Record>, before: bool, asked: bool,
                           after: bool) {
    && (if n < 0 then calls' == calls else calls <= calls' && n == |calls'| - |calls|)
    && BreakAnswered(n, before, asked, after) && (cnt > 0 ==> n <= cnt)
  }

  /** One more buffer has been taken: the next one handed over. */
  ghost predicate OneMore(taken: seq<seq<Byte>>, taken': seq<seq<Byte>>, handed: seq<seq<Byte>>) {
    |taken| < |handed| && taken' == taken + [handed[|taken|]]
  }

  class Capture {
    const ch: Channel
    const hd: Handle
    /** The buffers taken from the kernel so far, in the order in which they were handed over. */
    ghost var taken: seq<seq<Byte>>

    /** What the walk has been given is what was taken from the kernel; a buffer in hand has been looked at entirely. */
    ghost predicate Valid()
      reads this, ch, hd
    {
      && ch.Valid() && hd.Valid() && (forall d :: ch.good(d) ==> WellFormedFrom(d, 0, |d|))
      && AllWhole(taken) && hd.handed == AllRecords(taken)
      && TakenUpTo(ch.Now(), taken) && (ch.reader.Idle? ==> hd.cc == 0)
    }

    constructor (channel: Channel, handle: Handle)
      requires channel.Valid() && handle.Valid() && (forall d :: channel.good(d) ==> WellFormedFrom(d, 0, |d|))
      requires channel.reader.Idle? && channel.done == [] && handle.handed == [] && handle.cc == 0
      ensures Valid() && ch == channel && hd == handle && taken == []
    {
      ch, hd, taken := channel, handle, [];
    }

    /** Look for a buffer; if there is none, wait and look again, at last after asking the kernel to hand over what
        it has. */
    method NextZbuf(w: Wait) returns (i: int, cc: nat)
      requires ch.Valid() && ch.reader.Idle?
      modifies ch
      ensures ch.Valid() && ch.done == old(ch.done) && old(ch.handed) <= ch.handed
      ensures i == 1 ==>
                |ch.done| < |ch.handed| && cc == |ch.handed[|ch.done|]| && ch.reader.Holding? && ch.reader.seen == []
                && ch.reader.cc == cc
      ensures i != 1 ==> ch.reader.Idle? && old(ch.handed) == ch.done && (i == 0 || i == PCAP_ERROR)
    {
      i, cc := ch.NextZbufShm();
      if i != 0 { return; }
      match w
      case Interrupted =>
      case Fails => i := PCAP_ERROR;
      case Woken =>
        i, cc := ch.NextZbufShm();
        if i == 0 { i, cc := ch.NextZbufShm(); }
      case RotationFails =>
        i, cc := ch.NextZbufShm();
        if i == 0 { i := PCAP_ERROR; }
    }

    /** Look at every byte of the buffer in hand. */
    method Contents(cc: nat) returns (data: seq<Byte>)
      requires ch.Valid() && ch.reader.Holding? && ch.reader.seen == [] && ch.reader.cc == cc && |ch.done| < |ch.handed|
      requires cc == |ch.handed[|ch.done|]|
      modifies ch
      ensures ch.Valid() && ch.done == old(ch.done) && old(ch.handed) <= ch.handed && ch.reader.Holding?
      ensures |ch.done| < |ch.handed| && data == ch.handed[|ch.done|] && |ch.reader.seen| == ch.reader.cc
    {
      data := [];
      for k := 0 to cc
        invariant ch.Valid() && ch.done == old(ch.done) && old(ch.handed) <= ch.handed
        invariant ch.reader.Holding? && ch.reader.seen == data && |data| == k && ch.reader.cc == cc
        invariant |ch.done| < |ch.handed| && |ch.handed[|ch.done|]| == cc && data == ch.handed[|ch.done|][..k]
      {
        var x := ch.ReadByte(k);
        data := data + [x];
      }
    }

    /** Give the buffer in hand back, if there is one. */
    method Release()
      requires Valid() && hd.cc == 0
      modifies ch
      ensures Valid() && ch.reader.Idle? && old(ch.handed) <= ch.handed
    {
      if ch.bzh.Some? { ch.AckZbuf(); }
    }

    /** Walk over the buffer that was just taken. */
    method WalkTaken(cnt: int, cc: nat) returns (n: int, ghost asked: bool)
      requires ch.Valid() && hd.Valid() && (forall d :: ch.good(d) ==> WellFormedFrom(d, 0, |d|))
      requires ch.reader.Holding? && ch.reader.seen == [] && ch.reader.cc == cc && |ch.done| < |ch.handed|
      requires cc == |ch.handed[|ch.done|]|
      requires hd.cc == 0 && taken == ch.done && AllWhole(taken) && hd.handed == AllRecords(taken)
      modifies this`taken, ch, hd
      ensures Valid() && old(ch.handed) <= ch.handed && OneMore(old(taken), taken, ch.handed) && n != PCAP_ERROR
      ensures Reported(n, cnt, old(hd.calls), hd.calls, old(hd.breakLoop), asked, hd.breakLoop)
      ensures LeavesOnly(n, cnt, hd.cc, hd.breakLoop)
    {
      var data := Contents(cc);
      assert ch.good(ch.handed[|ch.done|]);
      AllRecordsNext(taken, data);
      taken := taken + [data];
      n, asked := hd.WalkNew(cnt, data);
    }

    /** Answer a break request, or walk over what is left of the buffer in hand. */
    method ReadOrBreak(cnt: int) returns (done: bool, n: int, ghost asked: bool)
      requires Valid()
      modifies hd
      ensures Valid() && (done ==> Reported(n, cnt, old(hd.calls), hd.calls, old(hd.breakLoop), asked, hd.breakLoop))
      ensures done ==> n != PCAP_ERROR && (n >= 0 ==> old(hd.cc) > 0 && LeavesOnly(n, cnt, hd.cc, hd.breakLoop))
      ensures old(hd.breakLoop) ==> done && n == PCAP_ERROR_BREAK
      ensures !done ==> hd.calls == old(hd.calls) && hd.cc == old(hd.cc) == 0 && !hd.breakLoop
    {
      n, asked := 0, false;
      if * { hd.breakLoop, asked := true, true; }
      if hd.breakLoop {
        hd.breakLoop := false;
        return true, PCAP_ERROR_BREAK, asked;
      }
      if hd.cc != 0 {
        n, asked := hd.Resume(cnt);
        return true, n, asked;
      }
      done := false;
    }

    /** Give the used buffer back; take another if there is one, and walk over it. */
    method Fetch(cnt: int, w: Wait) returns (done: bool, n: int, ghost asked: bool)
      requires Valid() && hd.cc == 0 && !hd.breakLoop
      modifies this`taken, ch, hd
      ensures Valid() && old(ch.handed) <= ch.handed
      ensures done ==>
                Reported(n, cnt, old(hd.calls), hd.calls, false, asked, hd.breakLoop)
                && LeavesOnly(n, cnt, hd.cc, hd.breakLoop)
      ensures if done && n != PCAP_ERROR then OneMore(old(taken), taken, ch.handed) else taken == old(taken)
      ensures !done || n == PCAP_ERROR ==> old(ch.handed) <= taken
      ensures !done ==> hd.calls == old(hd.calls) && !hd.breakLoop && hd.cc == 0
    {
      asked := false;
      Release();
      var k, cc := NextZbuf(w);
      if k < 0 { return true, PCAP_ERROR, asked; }
      if k == 0 { return false, 0, asked; }
      n, asked := WalkTaken(cnt, cc);
      done := true;
    }

    /** One read call; `waits` says how the wait for data ends at each attempt to get a buffer. While there is none
        the call goes on looking: `returned` is false if it still does after these attempts. */
    method Read(cnt: int, waits: seq<Wait>) returns (returned: bool, n: int, ghost asked: bool)
      requires Valid()
      modifies this`taken, ch, hd
      ensures Valid() && old(ch.handed) <= ch.handed
      ensures returned ==> Reported(n, cnt, old(hd.calls), hd.calls, old(hd.breakLoop), asked, hd.breakLoop)
      ensures old(hd.breakLoop) ==> returned && n == PCAP_ERROR_BREAK && taken == old(taken)
      ensures old(hd.cc) > 0 ==> returned && taken == old(taken) && n != PCAP_ERROR
      ensures returned && n >= 0 ==> LeavesOnly(n, cnt, hd.cc, hd.breakLoop)
      ensures returned && n >= 0 ==> old(hd.cc) > 0 || OneMore(old(taken), taken, ch.handed)
      ensures !returned || n == PCAP_ERROR ==> taken == old(taken)
      ensures n == PCAP_ERROR_BREAK ==> taken == old(taken) || OneMore(old(taken), taken, ch.handed)
      ensures !returned ==> hd.calls == old(hd.calls) && hd.cc == 0 && (waits != [] ==> old(ch.handed) <= taken)
    {
      returned, n, asked := ReadOrBreak(cnt);
      var i := 0;
      while !returned && i < |waits|
        invariant Valid() && i <= |waits| && old(ch.handed) <= ch.handed
        invariant returned ==> Reported(n, cnt, old(hd.calls), hd.calls, old(hd.breakLoop), asked, hd.breakLoop)
        invariant old(hd.breakLoop) ==> returned && n == PCAP_ERROR_BREAK && taken == old(taken)
        invariant old(hd.cc) > 0 ==> returned && taken == old(taken) && n != PCAP_ERROR
        invariant returned && n >= 0 ==> LeavesOnly(n, cnt, hd.cc, hd.breakLoop)
        invariant returned && n >= 0 ==> old(hd.cc) > 0 || OneMore(old(taken), taken, ch.handed)
        invariant !returned || n == PCAP_ERROR ==> taken == old(taken)
        invariant n == PCAP_ERROR_BREAK ==> taken == old(taken) || OneMore(old(taken), taken, ch.handed)
        invariant !returned ==>
                    hd.calls == old(hd.calls) && hd.cc == 0 && !hd.breakLoop && (i > 0 ==> old(ch.handed) <= taken)
      {
        returned, n, asked := Fetch(cnt, waits[i]);
        if !returned { returned, n, asked := ReadOrBreak(cnt); }
        i := i + 1;
      }
    }

    /** Nothing is lost, repeated or out of order: when nothing is pending, the callback has been called for exactly the
        passing records of all buffers taken, and those are the first ones the kernel handed over. */
    lemma Delivered()
      requires Valid() && hd.cc == 0
      ensures hd.calls == Passing(hd.filter, AllRecords(taken)) && taken <= ch.handed
    {
      if ch.reader.Holding? { assert taken == ch.handed[..|taken|]; }
    }
  }
}
