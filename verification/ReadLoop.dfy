/** Walking the records of a capture buffer, stopping and resuming at any packet (pcap_read_bpf). */
module ReadLoop {
  import opened Machine
  import opened Flat

  const PCAP_ERROR := -1
  const PCAP_ERROR_BREAK := -2

  // Records in a buffer

  /** One captured packet as the callback sees it. */
  datatype Record = Record(sec: nat, usec: nat, len: Word, data: seq<Byte>)

  function Half(m: seq<Byte>, i: nat): nat
    requires i + 2 <= |m|
  {
    Octet(m, i) + 0x100 * Octet(m, i + 1)
  }

  function Long(m: seq<Byte>, i: nat): Word
    requires i + 4 <= |m|
  {
    Octet(m, i) + 0x100 * Octet(m, i + 1) + 0x1_0000 * Octet(m, i + 2) + 0x100_0000 * Octet(m, i + 3)
  }

  /** The record header: time stamp, captured length, packet length, header length, in host byte order. */
  const HDR_SIZE := 18

  function Caplen(m: seq<Byte>, bp: nat): Word
    requires bp + HDR_SIZE <= |m|
  {
    Long(m, bp + 8)
  }

  function Hdrlen(m: seq<Byte>, bp: nat): nat
    requires bp + HDR_SIZE <= |m|
  {
    Half(m, bp + 16)
  }

  function WordAlign(x: nat): (r: nat)
    ensures x <= r
  {
    (x + 3) / 4 * 4
  }

  /** A whole record lies between `bp` and `ep`. */
  predicate RecordFits(m: seq<Byte>, bp: nat, ep: nat) {
    && ep <= |m| && bp + HDR_SIZE <= ep
    && Hdrlen(m, bp) >= HDR_SIZE && bp + Hdrlen(m, bp) + Caplen(m, bp) <= ep
  }

  function RecordAt(m: seq<Byte>, bp: nat, ep: nat): Record
    requires RecordFits(m, bp, ep)
  {
    var start := bp + Hdrlen(m, bp);
    Record(Long(m, bp), Long(m, bp + 4), Long(m, bp + 12), m[start..start + Caplen(m, bp)])
  }

  /** Where the next record starts; after the last one this can be past the end. */
  function NextRecord(m: seq<Byte>, bp: nat, ep: nat): (next: nat)
    requires RecordFits(m, bp, ep)
    ensures next > bp
  {
    bp + WordAlign(Caplen(m, bp) + Hdrlen(m, bp))
  }

  /** Whole records follow one another from `bp` to `ep`; `ep` need not be aligned. */
  predicate WellFormedFrom(m: seq<Byte>, bp: nat, ep: nat)
    decreases ep - bp
  {
    ep <= |m| && (bp >= ep || (RecordFits(m, bp, ep) && WellFormedFrom(m, NextRecord(m, bp, ep), ep)))
  }

  function Records(m: seq<Byte>, bp: nat, ep: nat): seq<Record>
    requires WellFormedFrom(m, bp, ep)
    decreases ep - bp
  {
    if bp >= ep then [] else [RecordAt(m, bp, ep)] + Records(m, NextRecord(m, bp, ep), ep)
  }

  // The filter

  /** What decides about a record: the kernel already has, or a program does. */
  datatype Filter = InKernel | Program(prog: seq<Insn>)

  ghost predicate FilterOk(f: Filter) { f.Program? ==> WellFormed(f.prog) }

  predicate Passes(f: Filter, rec: Record)
    requires FilterOk(f)
  {
    match f
    case InKernel => true
    case Program(prog) => RunFlat(prog, 0, Packet(rec.data, rec.len), ZeroRegs()).Verdict() != 0
  }

  function Select(keep: Record -> bool, rs: seq<Record>): seq<Record> {
    if rs == [] then [] else (if keep(rs[0]) then [rs[0]] else []) + Select(keep, rs[1..])
  }

  lemma SelectCons(keep: Record -> bool, rec: Record, rest: seq<Record>)
    ensures Select(keep, [rec] + rest) == if keep(rec) then [rec] + Select(keep, rest) else Select(keep, rest)
  {
    assert ([rec] + rest)[1..] == rest;
  }

  lemma RegroupRecords(rs: seq<Record>, ss: seq<Record>, ts: seq<Record>)
    ensures rs + (ss + ts) == (rs + ss) + ts
  {
  }

  lemma {:induction false} SelectAppend(keep: Record -> bool, rs: seq<Record>, ts: seq<Record>)
    ensures Select(keep, rs + ts) == Select(keep, rs) + Select(keep, ts)
    decreases rs
  {
    if rs == [] {
      assert rs + ts == ts;
    } else {
      var rest := rs[1..];
      assert (rs + ts)[1..] == rest + ts && (rs + ts)[0] == rs[0];
      SelectAppend(keep, rest, ts);
      RegroupRecords(if keep(rs[0]) then [rs[0]] else [], Select(keep, rest), Select(keep, ts));
    }
  }

  function Passer(f: Filter): Record -> bool
    requires FilterOk(f)
  {
    rec => Passes(f, rec)
  }

  /** The records that pass, in order. */
  function Passing(f: Filter, rs: seq<Record>): seq<Record>
    requires FilterOk(f)
  {
    Select(Passer(f), rs)
  }

  /** Exactly once: the records delivered, followed by those between `bp` and `ep` that pass, are all that pass. */
  ghost predicate Owed(f: Filter, calls: seq<Record>, m: seq<Byte>, bp: nat, ep: nat, handed: seq<Record>) {
    && FilterOk(f) && WellFormedFrom(m, bp, ep)
    && calls + Passing(f, Records(m, bp, ep)) == Passing(f, handed)
  }

  /** One record is passed over or delivered; the rest are still owed. */
  lemma OwedStep(f: Filter, calls: seq<Record>, m: seq<Byte>, bp: nat, ep: nat, handed: seq<Record>)
    requires Owed(f, calls, m, bp, ep, handed) && bp < ep
    ensures RecordFits(m, bp, ep)
    ensures var rec := RecordAt(m, bp, ep);
            Owed(f, if Passes(f, rec) then calls + [rec] else calls, m, NextRecord(m, bp, ep), ep, handed)
  {
    assert RecordFits(m, bp, ep);
    var rec, next := RecordAt(m, bp, ep), NextRecord(m, bp, ep);
    OwedRest(f, calls, rec, Records(m, next, ep), Records(m, bp, ep), Passing(f, handed));
  }

  lemma OwedRest(f: Filter, calls: seq<Record>, rec: Record, rest: seq<Record>, all: seq<Record>, passing: seq<Record>)
    requires FilterOk(f) && all == [rec] + rest && calls + Passing(f, all) == passing
    ensures (if Passes(f, rec) then calls + [rec] else calls) + Passing(f, rest) == passing
  {
    SelectCons(Passer(f), rec, rest);
    assert Passes(f, rec) ==> calls + ([rec] + Passing(f, rest)) == calls + [rec] + Passing(f, rest);
  }

  lemma OwedNothing(f: Filter, calls: seq<Record>, m: seq<Byte>, bp: nat, ep: nat, handed: seq<Record>)
    requires Owed(f, calls, m, bp, ep, handed) && bp >= ep
    ensures calls == Passing(f, handed)
  {
  }

  /** A new buffer when nothing is owed: its records are. */
  lemma OwedBuffer(f: Filter, calls: seq<Record>, m: seq<Byte>, handed: seq<Record>)
    requires FilterOk(f) && calls == Passing(f, handed) && WellFormedFrom(m, 0, |m|)
    ensures Owed(f, calls, m, 0, |m|, handed + Records(m, 0, |m|))
  {
    SelectAppend(Passer(f), handed, Records(m, 0, |m|));
  }

  /** Between calls: what was delivered and what is pending make up exactly what passes. */
  ghost predicate Accounted(f: Filter, calls: seq<Record>, m: seq<Byte>, bp: nat, cc: int, handed: seq<Record>) {
    && FilterOk(f) && cc >= 0
    && if cc == 0 then calls == Passing(f, handed) else Owed(f, calls, m, bp, bp + cc, handed)
  }

  // Reading

  /** What an attempt to get a buffer gives. */
  datatype Event = Data(bytes: seq<Byte>) | Again | WouldBlock | Failed

  ghost predicate EventsOk(es: seq<Event>) {
    forall i | 0 <= i < |es| && es[i].Data? :: WellFormedFrom(es[i].bytes, 0, |es[i].bytes|)
  }

  /** A break request is answered by one `PCAP_ERROR_BREAK`, in this call or, the flag staying set, in a later one. */
  ghost predicate BreakAnswered(n: int, before: bool, asked: bool, after: bool) {
    if n == PCAP_ERROR_BREAK then (before || asked) && !after else after == (before || asked)
  }

  /** A call leaves records behind only for a break or because it has delivered as many as it may. */
  ghost predicate LeavesOnly(n: int, cnt: int, cc: int, breaking: bool) {
    cc > 0 ==> n == PCAP_ERROR_BREAK || (cnt > 0 && n == cnt) || (breaking && n > 0)
  }

  /** The number of the first attempt that is not to be repeated. */
  function FirstEnd(es: seq<Event>): (i: nat)
    ensures i <= |es| && (forall j | 0 <= j < i :: es[j].Again?) && (i < |es| ==> !es[i].Again?)
  {
    if es == [] || !es[0].Again? then 0 else FirstEnd(es[1..]) + 1
  }

  /** The records an attempt gives. */
  function Given(es: seq<Event>, i: nat): seq<Record>
    requires EventsOk(es)
  {
    if i < |es| && es[i].Data? then Records(es[i].bytes, 0, |es[i].bytes|) else []
  }

  class Handle {
    var buffer: seq<Byte>
    var bp: nat
    var cc: int
    var breakLoop: bool
    /** The calls made of the callback. */
    var calls: seq<Record>
    /** All records of all buffers obtained so far. */
    ghost var handed: seq<Record>
    const filter: Filter

    constructor (f: Filter)
      requires FilterOk(f)
      ensures Valid() && calls == [] && handed == [] && filter == f
    {
      filter := f;
      buffer, bp, cc, breakLoop, calls, handed := [], 0, 0, false, [], [];
    }

    ghost predicate Valid()
      reads this
    {
      Accounted(filter, calls, buffer, bp, cc, handed)
    }

    /** Remember where to go on; stepping past the end leaves nothing. */
    method Stop(at: nat, ep: nat)
      requires Owed(filter, calls, buffer, at, ep, handed)
      modifies this`bp, this`cc
      ensures Valid() && (at < ep <==> cc > 0)
    {
      bp := at;
      cc := ep - at;
      if cc < 0 { cc := 0; }
      if at >= ep { OwedNothing(filter, calls, buffer, at, ep, handed); }
    }

    /** Deliver or skip the record at `at`. */
    method Deliver(at: nat, ep: nat) returns (next: nat, passed: bool)
      requires Owed(filter, calls, buffer, at, ep, handed) && at < ep
      modifies this`calls
      ensures next > at && Owed(filter, calls, buffer, next, ep, handed)
      ensures if passed then calls == old(calls) + [RecordAt(buffer, at, ep)] else calls == old(calls)
    {
      OwedStep(filter, calls, buffer, at, ep, handed);
      var rec := RecordAt(buffer, at, ep);
      passed := Passes(filter, rec);
      if passed { calls := calls + [rec]; }
      next := NextRecord(buffer, at, ep);
    }

    /** The loop over the records from `start` to `ep`. A break request may arrive at any time. */
    method Walk(cnt: int, start: nat, ep: nat) returns (n: int, ghost asked: bool)
      requires Owed(filter, calls, buffer, start, ep, handed)
      modifies this`bp, this`cc, this`breakLoop, this`calls
      ensures Valid()
      ensures old(calls) <= calls && n == if n == PCAP_ERROR_BREAK then n else |calls| - |old(calls)|
      ensures n == PCAP_ERROR_BREAK ==> calls == old(calls)
      ensures BreakAnswered(n, old(breakLoop), asked, breakLoop)
      ensures cnt > 0 ==> n <= cnt
      ensures LeavesOnly(n, cnt, cc, breakLoop)
    {
      n, asked := 0, false;
      var at := start;
      while at < ep
        invariant Owed(filter, calls, buffer, at, ep, handed)
        invariant old(calls) <= calls && n == |calls| - |old(calls)| && (cnt > 0 ==> n < cnt)
        invariant breakLoop == (old(breakLoop) || asked)
        decreases ep - at
      {
        if * { breakLoop, asked := true, true; }
        if breakLoop {
          Stop(at, ep);
          if n == 0 {
            breakLoop := false;
            n := PCAP_ERROR_BREAK;
          }
          return;
        }
        var passed;
        at, passed := Deliver(at, ep);
        if passed {
          n := n + 1;
          if n >= cnt && cnt > 0 {
            Stop(at, ep);
            return;
          }
        }
      }
      OwedNothing(filter, calls, buffer, at, ep, handed);
      cc := 0;
    }

    /** One read call; `events` says how each attempt to get a buffer ends. If it does not answer a break request at
        once, it goes on with the buffer at hand, or, if that is used up, with what the first attempt that is not to be
        repeated gives. */
    method Read(cnt: int, events: seq<Event>) returns (n: int, ghost broke: bool, ghost asked: bool)
      requires Valid() && EventsOk(events)
      modifies this
      ensures Valid()
      ensures old(calls) <= calls && n == if n < 0 then n else |calls| - |old(calls)|
      ensures n < 0 ==> calls == old(calls)
      ensures BreakAnswered(n, old(breakLoop), asked, breakLoop)
      ensures cnt > 0 ==> n <= cnt
      ensures LeavesOnly(n, cnt, cc, breakLoop)
      ensures old(breakLoop) ==> broke
      ensures broke ==> n == PCAP_ERROR_BREAK && handed == old(handed) && cc == old(cc)
      ensures !broke && old(cc) > 0 ==> handed == old(handed) && n != PCAP_ERROR
      ensures !broke && old(cc) == 0 ==>
                var used := FirstEnd(events);
                && handed == old(handed) + Given(events, used)
                && (used == |events| || events[used].WouldBlock? ==> n == 0)
                && (n == PCAP_ERROR <==> used < |events| && events[used].Failed?)
    {
      var atOnce, i;
      atOnce, i, asked := Await(events);
      broke := atOnce;
      if atOnce {
        n := PCAP_ERROR_BREAK;
      } else if cc != 0 {
        n, asked := Resume(cnt);
      } else if i == |events| || events[i].WouldBlock? {
        n := 0;
      } else if events[i].Failed? {
        n := PCAP_ERROR;
      } else {
        n, asked := WalkNew(cnt, events[i].bytes);
      }
    }

    /** Answer a break request, or, if the buffer is used up, try until an attempt to get another one ends. */
    method Await(events: seq<Event>) returns (broke: bool, i: nat, ghost asked: bool)
      modifies this`breakLoop
      ensures i <= |events| && (!broke && cc == 0 ==> i == FirstEnd(events))
      ensures !breakLoop && broke == (old(breakLoop) || asked)
    {
      i, asked := 0, false;
      while true
        invariant i <= |events| && breakLoop == (old(breakLoop) || asked)
        invariant FirstEnd(events) == i + FirstEnd(events[i..])
        decreases |events| - i
      {
        if * { breakLoop, asked := true, true; }
        if breakLoop {
          breakLoop := false;
          return true, i, asked;
        }
        if cc != 0 || i == |events| || !events[i].Again? { return false, i, asked; }
        assert events[i..][1..] == events[i + 1..];
        i := i + 1;
      }
    }

    /** Walk over what is left of the buffer. */
    method Resume(cnt: int) returns (n: int, ghost asked: bool)
      requires Valid() && cc != 0
      modifies this`bp, this`cc, this`breakLoop, this`calls
      ensures Valid()
      ensures old(calls) <= calls && n == if n == PCAP_ERROR_BREAK then n else |calls| - |old(calls)|
      ensures n == PCAP_ERROR_BREAK ==> calls == old(calls)
      ensures BreakAnswered(n, old(breakLoop), asked, breakLoop)
      ensures cnt > 0 ==> n <= cnt
      ensures LeavesOnly(n, cnt, cc, breakLoop)
    {
      n, asked := Walk(cnt, bp, bp + cc);
    }

    /** Walk over a newly obtained buffer. */
    method WalkNew(cnt: int, bytes: seq<Byte>) returns (n: int, ghost asked: bool)
      requires Valid() && cc == 0 && WellFormedFrom(bytes, 0, |bytes|)
      modifies this
      ensures Valid() && handed == old(handed) + Records(bytes, 0, |bytes|)
      ensures old(calls) <= calls && n == if n == PCAP_ERROR_BREAK then n else |calls| - |old(calls)|
      ensures n == PCAP_ERROR_BREAK ==> calls == old(calls)
      ensures BreakAnswered(n, old(breakLoop), asked, breakLoop)
      ensures cnt > 0 ==> n <= cnt
      ensures LeavesOnly(n, cnt, cc, breakLoop)
    {
      buffer := bytes;
      OwedBuffer(filter, calls, bytes, handed);
      handed := handed + Records(bytes, 0, |bytes|);
      n, asked := Walk(cnt, 0, |bytes|);
    }
  }
}
