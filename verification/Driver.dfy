/** The receive half of the kernel driver (struct PgpDevice) on top of the card's descriptor queues. */
module DriverRx {
  import opened AxiStream
  import opened BufferPlaces
  import opened DriverRing

  /** The driver's record of one receive buffer. */
  datatype RxBuffer = RxBuffer(dma: nat, lengthError: nat, fifoError: nat, eofe: nat, lane: nat, vc: nat, length: nat)

  /** What a read returns to the user besides the data. */
  datatype PgpCardRx = PgpCardRx(rxSize: nat, eofe: nat, fifoErr: nat, lengthErr: nat, pgpLane: nat, pgpVc: nat)

  const LANES := 8

  const NO_BUFFERS: seq<seq<nat>> := [[], [], [], [], [], [], [], []]

  function Flag(b: bool): (n: nat)
    ensures n < 2
  {
    if b then 1 else 0
  }

  /** The first done word: flags, lane, virtual channel and length; bit 29 is unused. */
  function DescA(e: Entry): nat {
    Flag(e.lengthErr) * 0x8000_0000 + Flag(e.eofe) * 0x4000_0000 + e.lane * 0x400_0000 + e.vc * 0x100_0000 + e.length
  }

  /** The second done word: the address with the valid flag in bit 0. */
  function DescB(e: Entry): nat {
    e.addr + 1
  }

  /** The fields of a report fit their bit positions. */
  predicate EntryOk(e: Entry) {
    e.lane < LANES && e.vc < 4 && e.length < 0x100_0000 && e.addr % 4 == 0
  }

  /** Bit extraction recovers every field; the card's length error arrives in the driver's fifoError. */
  lemma DescFields(e: Entry)
    requires EntryOk(e)
    ensures DescA(e) / 0x8000_0000 == Flag(e.lengthErr)
    ensures DescA(e) / 0x4000_0000 % 2 == Flag(e.eofe)
    ensures DescA(e) / 0x400_0000 % 8 == e.lane
    ensures DescA(e) / 0x100_0000 % 4 == e.vc
    ensures DescA(e) % 0x100_0000 == e.length
    ensures DescB(e) % 2 == 1 && DescB(e) - DescB(e) % 4 == e.addr && DescB(e) / 2 % 2 == 0
  {
    var q := Flag(e.lengthErr) * 128 + Flag(e.eofe) * 64 + e.lane * 4 + e.vc;
    assert DescA(e) == q * 0x100_0000 + e.length;
    LowBits(e.addr);
    hide DescA, Flag;
    Upper(DescA(e), q, e.length);
    UpperFields(Flag(e.lengthErr), Flag(e.eofe), e.lane, e.vc);
  }

  /** The byte above the 24-bit length. */
  lemma Upper(a: nat, q: nat, length: nat)
    requires a == q * 0x100_0000 + length && length < 0x100_0000
    ensures a / 0x100_0000 == q && a % 0x100_0000 == length
    ensures a / 0x400_0000 == q / 4 && a / 0x4000_0000 == q / 64 && a / 0x8000_0000 == q / 128
  {
  }

  lemma UpperFields(err: nat, eofe: nat, lane: nat, vc: nat)
    requires err < 2 && eofe < 2 && lane < 8 && vc < 4
    ensures var q := err * 128 + eofe * 64 + lane * 4 + vc;
            q / 128 == err && q / 64 % 2 == eofe && q / 4 % 8 == lane && q % 4 == vc
  {
    var q := err * 128 + eofe * 64 + lane * 4 + vc;
    By128(q, err, eofe * 64 + lane * 4 + vc);
    By64(q, err * 2 + eofe, lane * 4 + vc);
    By4(q, err * 32 + eofe * 16 + lane, vc);
    By2(err * 2 + eofe, err, eofe);
    By8(err * 32 + eofe * 16 + lane, err * 4 + eofe * 2, lane);
  }

  lemma By128(n: nat, q: nat, r: nat)
    requires n == q * 128 + r && r < 128
    ensures n / 128 == q
  {
  }

  lemma By64(n: nat, q: nat, r: nat)
    requires n == q * 64 + r && r < 64
    ensures n / 64 == q
  {
  }

  lemma By8(n: nat, q: nat, r: nat)
    requires n == q * 8 + r && r < 8
    ensures n / 8 == q && n % 8 == r
  {
  }

  lemma By4(n: nat, q: nat, r: nat)
    requires n == q * 4 + r && r < 4
    ensures n / 4 == q && n % 4 == r
  {
  }

  lemma By2(n: nat, q: nat, r: nat)
    requires n == q * 2 + r && r < 2
    ensures n % 2 == r
  {
  }

  /** The driver's record agrees with the report. */
  predicate Records(b: RxBuffer, e: Entry) {
    && b.dma == e.addr && b.lane == e.lane && b.vc == e.vc && b.length == e.length
    && b.eofe == Flag(e.eofe) && b.fifoError == Flag(e.lengthErr) && b.lengthError == 0
  }

  function Dmas(bs: seq<RxBuffer>): (d: seq<nat>)
    ensures |d| == |bs| && forall i :: 0 <= i < |bs| ==> d[i] == bs[i].dma
  {
    seq(|bs|, i requires 0 <= i < |bs| => bs[i].dma)
  }

  /** Distinct addresses, multiples of four. */
  ghost predicate AddressesOk(dmas: seq<nat>) {
    && (forall i :: 0 <= i < |dmas| ==> dmas[i] % 4 == 0)
    && (forall i, j :: 0 <= i < j < |dmas| ==> dmas[i] != dmas[j])
  }

  /** Buffer i belongs to lane i % 8. */
  ghost predicate HomeOf(home: map<nat, nat>, dmas: seq<nat>) {
    && (forall a :: a in home <==> a in dmas)
    && (forall i :: 0 <= i < |dmas| ==> dmas[i] in home && home[dmas[i]] == i % LANES)
  }

  /** The ring as buffer indices: slot contents, and the record behind each of them. */
  ghost predicate RingOk(bufs: seq<RxBuffer>, slots: seq<nat>, read: nat, write: nat, ids: seq<nat>, p: Places) {
    && Holds(slots, read, write, ids) && |ids| == |p.ring|
    && (forall k :: 0 <= k < |ids| ==> ids[k] < |bufs| && bufs[ids[k]].dma == p.ring[k].addr)
    && (forall k :: 0 <= k < |ids| && (k > 0 || !p.handing) ==> Records(bufs[ids[k]], p.ring[k]))
  }

  ghost predicate PlacesOk(p: Places, dmas: seq<nat>, home: map<nat, nat>) {
    && |p.free| == |p.dma| == LANES
    && AddressesOk(dmas) && HomeOf(home, dmas)
    && Conserved(p, multiset(dmas)) && AtHome(p, home)
    && (forall i :: 0 <= i < |p.done| ==> EntryOk(p.done[i]))
  }

  lemma MultisetSeq(s: seq<nat>, a: nat)
    ensures a in s <==> multiset(s)[a] > 0
  {
  }

  lemma {:induction false} Once(s: seq<nat>, a: nat)
    requires forall i, j :: 0 <= i < j < |s| ==> s[i] != s[j]
    ensures multiset(s)[a] <= 1
  {
    if s == [] {
    } else {
      var n := |s| - 1;
      Once(s[..n], a);
      assert s == s[..n] + [s[n]];
      if s[n] == a {
        assert a !in s[..n];
      }
    }
  }

  /** A reported buffer can be in the ring only as the entry being handed back. */
  lemma ReportedOnce(p: Places, dmas: seq<nat>, k: nat)
    requires AddressesOk(dmas) && Conserved(p, multiset(dmas))
    requires p.done != [] && k < |p.ring| && p.ring[k].addr == p.done[0].addr
    ensures k == 0 && p.handing
  {
    var a := p.done[0].addr;
    Once(dmas, a);
    var done, ring := Addrs(p.done), Addrs(p.ring);
    assert done[0] == a && ring[k] == a;
    MultisetSeq(done, a);
    MultisetSeq(ring, a);
    assert Total(p)[a] >= multiset(done)[a] + multiset(ring)[a] >= 2;
    assert p.handing && p.ring[0].addr == a;
    if k > 0 {
      Twice(ring, 0, k);
    }
  }

  /** While nothing is being handed back the ring holds every buffer at most once. */
  lemma RingedOnce(p: Places, dmas: seq<nat>, k: nat)
    requires AddressesOk(dmas) && Conserved(p, multiset(dmas))
    requires !p.handing && 0 < k < |p.ring|
    ensures p.ring[k].addr != p.ring[0].addr
  {
    var a := p.ring[0].addr;
    Once(dmas, a);
    var ring := Addrs(p.ring);
    assert Total(p)[a] >= multiset(ring)[a];
    if ring[k] == a {
      Twice(ring, 0, k);
    }
  }

  lemma Twice(s: seq<nat>, i: nat, j: nat)
    requires i < j < |s| && s[i] == s[j]
    ensures multiset(s)[s[i]] >= 2
  {
    assert s == s[..j] + [s[j]] + s[j + 1..];
    assert s[i] in s[..j];
  }

  /** Every possible move keeps every buffer accounted for, in its lane. */
  lemma PlacesStep(p: Places, m: Move, dmas: seq<nat>, home: map<nat, nat>)
    requires PlacesOk(p, dmas, home) && RxMove(p, m) && Apply(p, m).Some?
    requires m.Finish? ==> EntryOk(m.entry)
    ensures PlacesOk(After(p, m), dmas, home)
  {
    hide Apply;
    ApplyConserves(p, m, multiset(dmas));
    ApplyAtHome(p, m, home);
    hide Conserved, AtHome, AddressesOk, HomeOf, EntryOk;
    DoneKept(p, m);
  }

  lemma DoneKept(p: Places, m: Move)
    requires forall i :: 0 <= i < |p.done| ==> EntryOk(p.done[i])
    requires m.Finish? ==> EntryOk(m.entry)
    ensures forall i :: 0 <= i < |After(p, m).done| ==> EntryOk(After(p, m).done[i])
  {
    hide EntryOk;
  }

  /** The ring after the interrupt handler files a report in slot write. */
  lemma RingEnqueued(bufs: seq<RxBuffer>, slots: seq<nat>, read: nat, write: nat, ids: seq<nat>, p: Places, idx: nat,
                     b: RxBuffer, home: map<nat, nat>)
    requires PlacesOk(p, Dmas(bufs), home) && RingOk(bufs, slots, read, write, ids, p)
    requires |slots| == |bufs| + 2 && p.done != [] && idx < |bufs|
    requires bufs[idx].dma == p.done[0].addr && Records(b, p.done[0])
    ensures write < |slots| && (write + 1) % |slots| != read
    ensures Dmas(bufs[idx := b]) == Dmas(bufs)
    ensures RingOk(bufs[idx := b], slots[write := idx], read, (write + 1) % |slots|, ids + [idx], After(p, Enqueue))
  {
    Occupancy(p, multiset(Dmas(bufs)));
    Enqueued(slots, read, write, ids, idx);
    forall k | 0 <= k < |ids| && ids[k] == idx
      ensures k == 0 && p.handing
    {
      ReportedOnce(p, Dmas(bufs), k);
    }
    hide Holds, Conserved, AtHome;
  }

  /** Other moves leave the ring alone. */
  lemma RingKept(bufs: seq<RxBuffer>, slots: seq<nat>, read: nat, write: nat, ids: seq<nat>, p: Places, m: Move)
    requires RingOk(bufs, slots, read, write, ids, p) && Apply(p, m).Some?
    requires m.Grant? || m.Finish? || m.Return? || m.HandBack?
    ensures RingOk(bufs, slots, read, write, ids, After(p, m))
  {
    hide Holds, Records;
  }

  lemma RingAdvanced(bufs: seq<RxBuffer>, slots: seq<nat>, read: nat, write: nat, ids: seq<nat>, p: Places)
    requires RingOk(bufs, slots, read, write, ids, p) && Apply(p, Advance).Some?
    ensures ids != [] && RingOk(bufs, slots, (read + 1) % |slots|, write, ids[1..], After(p, Advance))
  {
    Dequeued(slots, read, write, ids);
    hide Holds, Records;
  }

  class PgpDevice {
    const rxBuffCnt: nat
    const rxBuffer: array<RxBuffer>
    const rxQueue: array<nat>
    var rxRead: nat
    var rxWrite: nat
    var isOpen: bool
    var collided: bool                  // an "Rx queue pointer collision" was reported
    var free: seq<seq<nat>>             // the card: free lists, buffers in use, done queue
    var dma: seq<seq<nat>>
    var done: seq<Entry>
    ghost var ring: seq<Entry>
    ghost var ids: seq<nat>
    ghost var handing: bool
    ghost const home: map<nat, nat>

    /** Probe: one record per buffer, the free lists filled, and an empty ring. */
    constructor Probe(dmas: seq<nat>, lists: seq<seq<nat>>, ghost home: map<nat, nat>)
      requires AddressesOk(dmas) && HomeOf(home, dmas) && Spread(lists, dmas) && All(lists) == multiset(dmas)
      ensures Valid() && !isOpen && P() == Places(lists, NO_BUFFERS, [], [], false)
      ensures Dmas(rxBuffer[..]) == dmas && fresh(rxBuffer) && fresh(rxQueue)
    {
      rxBuffCnt := |dmas|;
      rxBuffer := new RxBuffer[|dmas|](i requires 0 <= i < |dmas| => RxBuffer(dmas[i], 0, 0, 0, 0, 0, 0));
      rxQueue := new nat[|dmas| + 2];
      rxRead, rxWrite, isOpen, collided := 0, 0, false, false;
      free, dma, done := lists, NO_BUFFERS, [];
      ring, ids, handing := [], [], false;
      this.home := home;
      new;
      hide PlacesOk, HomeOf, RingOk, Spread, AddressesOk, All;
      assert Dmas(rxBuffer[..]) == dmas;
      Probed(P(), dmas, home);
      RingEmpty(rxBuffer[..], rxQueue[..], P());
    }

    ghost function P(): Places
      reads this
    {
      Places(free, dma, done, ring, handing)
    }

    ghost predicate Valid()
      reads this, rxBuffer, rxQueue
    {
      && rxBuffer.Length == rxBuffCnt && rxQueue.Length == rxBuffCnt + 2
      && PlacesOk(P(), Dmas(rxBuffer[..]), home)
      && RingOk(rxBuffer[..], rxQueue[..], rxRead, rxWrite, ids, P())
      && !collided
    }

    /** Linear search for the buffer with a given DMA address. */
    method FindRx(addr: nat) returns (idx: nat)
      requires rxBuffer.Length == rxBuffCnt
      ensures idx <= rxBuffCnt
      ensures idx < rxBuffCnt ==> rxBuffer[idx].dma == addr
      ensures idx == rxBuffCnt ==> addr !in Dmas(rxBuffer[..])
    {
      idx := 0;
      while idx < rxBuffCnt && rxBuffer[idx].dma != addr
        invariant idx <= rxBuffCnt
        invariant forall i :: 0 <= i < idx ==> rxBuffer[i].dma != addr
      {
        idx := idx + 1;
      }
    }

    /** The two register reads of the done queue; both words are zero when it is empty. */
    method ReadDone() returns (descA: nat, descB: nat)
      modifies this`done
      ensures if old(done) == [] then descA == descB == 0 && done == []
              else descA == DescA(old(done)[0]) && descB == DescB(old(done)[0]) && done == old(done)[1..]
    {
      descA, descB := 0, 0;
      if done != [] {
        descA, descB := DescA(done[0]), DescB(done[0]);
        done := done[1..];
      }
    }

    /** A report found in the open device: fill the record and put the buffer on the ring. p is the state
        before the report was taken from the done queue. */
    method FileReport(ghost p: Places, idx: nat, descA: nat, descB: nat)
      requires rxBuffer.Length == rxBuffCnt && rxQueue.Length == rxBuffCnt + 2 && !collided
      requires PlacesOk(p, Dmas(rxBuffer[..]), home) && RingOk(rxBuffer[..], rxQueue[..], rxRead, rxWrite, ids, p)
      requires p.done != [] && P() == p.(done := p.done[1..])
      requires descA == DescA(p.done[0]) && descB == DescB(p.done[0]) && EntryOk(p.done[0])
      requires idx < rxBuffCnt && rxBuffer[idx].dma == p.done[0].addr
      modifies this`rxWrite, this`collided, this`ring, this`ids, rxBuffer, rxQueue
      ensures Valid() && Dmas(rxBuffer[..]) == old(Dmas(rxBuffer[..]))
      ensures P() == After(p, Enqueue)
      ensures collided == ((old(rxWrite) + 1) % (rxBuffCnt + 2) == rxRead)
    {
      hide PlacesOk, RingOk, Dmas, DescA, DescB, Filled, Records, EntryOk;
      ghost var bufs, slots := rxBuffer[..], rxQueue[..];
      FilledRecords(bufs[idx], p.done[0]);
      RingEnqueued(bufs, slots, rxRead, rxWrite, ids, p, idx, Filled(bufs[idx], descA, descB), home);
      PlacesStep(p, Enqueue, Dmas(bufs), home);
      rxBuffer[idx] := Filled(rxBuffer[idx], descA, descB);
      var next := (rxWrite + 1) % (rxBuffCnt + 2);
      collided := collided || next == rxRead;
      rxQueue[rxWrite] := idx;
      rxWrite := next;
      ring, ids := ring + [p.done[0]], ids + [idx];
      assert rxBuffer[..] == bufs[idx := Filled(bufs[idx], descA, descB)];
      assert rxQueue[..] == slots[old(rxWrite) := idx];
    }

    /** One pass of the interrupt handler's receive loop; more is the loop condition. */
    method IrqRx() returns (more: bool)
      requires Valid()
      modifies this, rxBuffer, rxQueue
      ensures Valid() && Dmas(rxBuffer[..]) == old(Dmas(rxBuffer[..]))
      ensures more == (old(done) != []) && isOpen == old(isOpen)
      ensures collided == (more && isOpen && (old(rxWrite) + 1) % (rxBuffCnt + 2) == rxRead)
      ensures P() == if more then After(old(P()), if isOpen then Enqueue else Return) else old(P())
    {
      hide PlacesOk, RingOk, Dmas, DescA, Filled, Records, EntryOk;
      ghost var p, bufs, slots := P(), rxBuffer[..], rxQueue[..];
      var descA, descB := ReadDone();
      assert p.done != [] ==> descB % 2 == 1 by { DescValid(p, Dmas(bufs), home); }
      more := descB % 2 == 1;
      if more {
        DoneFacts(p, Dmas(bufs), home);
        DescFields(p.done[0]);
        var idx := FindRx(descB - descB % 4);
        if isOpen {
          FileReport(p, idx, descA, descB);
        } else {
          PlacesStep(p, Return, Dmas(bufs), home);
          RingKept(bufs, slots, rxRead, rxWrite, ids, p, Return);
          var lane := descA / 0x400_0000 % 8;
          free := free[lane := free[lane] + [descB - descB % 4]];
        }
      }
    }

    /** The receive loop of the interrupt handler: it runs until the done queue is empty. In an open device the
        reports go to the ring in order; otherwise the buffers go back to their lanes' lists. */
    method IrqHandler()
      requires Valid()
      modifies this, rxBuffer, rxQueue
      ensures Valid() && Dmas(rxBuffer[..]) == old(Dmas(rxBuffer[..])) && done == [] && isOpen == old(isOpen)
      ensures P() == if isOpen then old(P()).(done := [], ring := old(ring) + old(done))
                     else old(P()).(done := [], free := Returned(old(free), old(done)))
    {
      hide PlacesOk, RingOk, Dmas, After, Apply, Returned;
      ReturnedNone(free);
      if done != [] {
        var more := true;
        ghost var n := 0;
        while more
          invariant Valid() && Dmas(rxBuffer[..]) == old(Dmas(rxBuffer[..])) && isOpen == old(isOpen)
          invariant n <= |old(done)| && done == old(done)[n..]
          invariant !more ==> done == []
          invariant P() == if isOpen then old(P()).(done := old(done)[n..], ring := old(ring) + old(done)[..n])
                           else old(P()).(done := old(done)[n..], free := Returned(old(free), old(done)[..n]))
          decreases |done|, more
        {
          if done != [] {
            assert old(done)[..n + 1] == old(done)[..n] + [old(done)[n]];
            assert done[0] == old(done)[n];
            DoneFacts(P(), Dmas(rxBuffer[..]), home);
            AfterEnqueue(P());
            AfterReturn(P(), old(free), old(done)[..n]);
            n := n + 1;
          }
          more := IrqRx();
        }
        assert old(done)[..n] == old(done);
      }
    }

    /** The first half of a read: report the oldest ring entry to the user and give its buffer back to its lane. */
    method ReadBegin(maxSize: nat) returns (rx: PgpCardRx, ret: nat)
      requires Valid() && !handing && rxRead != rxWrite
      modifies this, rxBuffer
      ensures Valid() && Dmas(rxBuffer[..]) == old(Dmas(rxBuffer[..])) && isOpen == old(isOpen)
      ensures old(ring) != [] && P() == After(old(P()), HandBack(old(ring)[0].lane)) && handing
      ensures var e := old(ring)[0];
              && ret == (if maxSize < e.length then maxSize else e.length)
              && rx.rxSize == e.length && rx.eofe == Flag(e.eofe) && rx.fifoErr == Flag(e.lengthErr)
              && rx.pgpLane == e.lane && rx.pgpVc == e.vc && rx.lengthErr == Flag(maxSize < e.length)
    {
      hide PlacesOk, Dmas;
      EmptyTest(rxQueue[..], rxRead, rxWrite, ids);
      ghost var bufs, p := rxBuffer[..], P();
      var idx := rxQueue[rxRead];
      if maxSize < rxBuffer[idx].length {
        var err := rxBuffer[idx].lengthError;
        rxBuffer[idx] := rxBuffer[idx].(lengthError := err + 1 - err % 2);
        ret := maxSize;
      } else {
        ret := rxBuffer[idx].length;
      }
      var b := rxBuffer[idx];
      rx := PgpCardRx(b.length, b.eofe, b.fifoError, b.lengthError, b.lane, b.vc);
      assert rxBuffer[..] == bufs[idx := b];
      HandedOut(bufs, rxQueue[..], rxRead, rxWrite, ids, p, home, b);
      free := free[b.lane := free[b.lane] + [b.dma]];
      handing := true;
    }

    /** The second half of a read: advance the ring's read pointer. */
    method ReadEnd()
      requires Valid() && handing
      modifies this
      ensures Valid() && isOpen == old(isOpen)
      ensures P() == After(old(P()), Advance) && !handing
    {
      hide PlacesOk, RingOk, Dmas;
      ghost var p := P();
      CanAdvance(p, Dmas(rxBuffer[..]), home);
      PlacesStep(p, Advance, Dmas(rxBuffer[..]), home);
      RingAdvanced(rxBuffer[..], rxQueue[..], rxRead, rxWrite, ids, p);
      rxRead := (rxRead + 1) % (rxBuffCnt + 2);
      ring, ids, handing := ring[1..], ids[1..], false;
    }

    /** A move of the card: an engine takes a buffer, or reports one. */
    method CardMove(m: Move)
      requires Valid() && (m.Grant? || (m.Finish? && EntryOk(m.entry)))
      modifies this
      ensures Valid() && isOpen == old(isOpen) && P() == After(old(P()), m)
    {
      hide PlacesOk, RingOk, Dmas, EntryOk;
      ghost var p := P();
      match Apply(Places(free, dma, done, [], false), m) {
        case None =>
        case Some(q) =>
          PlacesStep(p, m, Dmas(rxBuffer[..]), home);
          RingKept(rxBuffer[..], rxQueue[..], rxRead, rxWrite, ids, p, m);
          free, dma, done := q.free, q.dma, q.done;
      }
    }

    /** Open and release. */
    method SetOpen(open: bool)
      requires Valid()
      modifies this`isOpen
      ensures Valid() && isOpen == open
    {
      isOpen := open;
    }
  }

  /** Buffers of a list of reports appended to their lanes' lists. */
  function Returned(free: seq<seq<nat>>, es: seq<Entry>): (r: seq<seq<nat>>)
    ensures |r| == |free|
  {
    if es == [] then free
    else
      var r, e := Returned(free, es[..|es| - 1]), es[|es| - 1];
      if e.lane < |r| then r[e.lane := r[e.lane] + [e.addr]] else r
  }

  /** The buffer at the head of the ring can go back to its lane. */
  lemma HandedHead(bufs: seq<RxBuffer>, slots: seq<nat>, read: nat, write: nat, ids: seq<nat>, p: Places,
                   home: map<nat, nat>)
    requires PlacesOk(p, Dmas(bufs), home) && RingOk(bufs, slots, read, write, ids, p)
    requires ids != [] && !p.handing
    ensures var b := bufs[ids[0]];
            && p.ring != [] && Records(b, p.ring[0]) && b.lane < |p.free| && RxMove(p, HandBack(b.lane))
            && Apply(p, HandBack(b.lane)).Some?
    ensures forall k :: 0 < k < |ids| ==> ids[k] != ids[0]
  {
    hide Holds, AtHome, HomeOf, EntryOk;
    forall k | 0 < k < |ids|
      ensures ids[k] != ids[0]
    {
      RingedOnce(p, Dmas(bufs), k);
    }
    HeadLane(bufs, slots, read, write, ids, p, home);
  }

  lemma HeadLane(bufs: seq<RxBuffer>, slots: seq<nat>, read: nat, write: nat, ids: seq<nat>, p: Places,
                 home: map<nat, nat>)
    requires PlacesOk(p, Dmas(bufs), home) && RingOk(bufs, slots, read, write, ids, p)
    requires ids != [] && !p.handing
    ensures p.ring != [] && Records(bufs[ids[0]], p.ring[0]) && p.ring[0].lane < |p.free|
  {
    hide Holds, Conserved, AddressesOk, HomeOf, EntryOk;
  }

  /** The error flag of the buffer being handed back may change. */
  lemma RingFlagged(bufs: seq<RxBuffer>, slots: seq<nat>, read: nat, write: nat, ids: seq<nat>, p: Places, b: RxBuffer)
    requires RingOk(bufs, slots, read, write, ids, p) && p.handing && ids != []
    requires b == bufs[ids[0]].(lengthError := b.lengthError) && forall k :: 0 < k < |ids| ==> ids[k] != ids[0]
    ensures RingOk(bufs[ids[0] := b], slots, read, write, ids, p)
    ensures Dmas(bufs[ids[0] := b]) == Dmas(bufs)
  {
    hide Holds, Records;
  }

  lemma ReturnedNone(free: seq<seq<nat>>)
    ensures Returned(free, []) == free
  {
  }

  lemma AfterReturn(p: Places, free: seq<seq<nat>>, es: seq<Entry>)
    requires p.done != [] && p.done[0].lane < |p.free|
    ensures p.free == Returned(free, es) ==>
              After(p, Return) == p.(done := p.done[1..], free := Returned(free, es + [p.done[0]]))
  {
    assert (es + [p.done[0]])[..|es|] == es;
  }

  /** What the read call relies on to hand a buffer back, with its error flag changed. */
  lemma HandedOut(bufs: seq<RxBuffer>, slots: seq<nat>, read: nat, write: nat, ids: seq<nat>, p: Places,
                  home: map<nat, nat>, b: RxBuffer)
    requires PlacesOk(p, Dmas(bufs), home) && RingOk(bufs, slots, read, write, ids, p)
    requires ids != [] && !p.handing && b == bufs[ids[0]].(lengthError := b.lengthError)
    ensures p.ring != [] && Records(bufs[ids[0]], p.ring[0]) && b.lane < |p.free| && Apply(p, HandBack(b.lane)).Some?
    ensures Dmas(bufs[ids[0] := b]) == Dmas(bufs)
    ensures PlacesOk(After(p, HandBack(b.lane)), Dmas(bufs), home)
    ensures RingOk(bufs[ids[0] := b], slots, read, write, ids, After(p, HandBack(b.lane)))
  {
    HandedHead(bufs, slots, read, write, ids, p, home);
    var q := After(p, HandBack(b.lane));
    assert q.handing;
    hide PlacesOk, Dmas, Records, RxMove, Apply, After;
    PlacesStep(p, HandBack(b.lane), Dmas(bufs), home);
    RingKept(bufs, slots, read, write, ids, p, HandBack(b.lane));
    RingFlagged(bufs, slots, read, write, ids, q, b);
    hide RingOk;
  }

  ghost function Homes(dmas: seq<nat>): (home: map<nat, nat>)
    requires AddressesOk(dmas)
    ensures HomeOf(home, dmas)
  {
    map i | 0 <= i < |dmas| :: dmas[i] := i % LANES
  }

  lemma RingEmpty(bufs: seq<RxBuffer>, slots: seq<nat>, p: Places)
    requires slots != [] && p.ring == []
    ensures RingOk(bufs, slots, 0, 0, [], p)
  {
  }

  /** Every address on list l is that of some buffer k with k % 8 == l. */
  ghost predicate Spread(lists: seq<seq<nat>>, dmas: seq<nat>) {
    && |lists| == LANES
    && forall l, i :: 0 <= l < |lists| && 0 <= i < |lists[l]| ==> InLane(lists[l][i], l, dmas)
  }

  ghost predicate InLane(addr: nat, lane: nat, dmas: seq<nat>) {
    exists k :: 0 <= k < |dmas| && dmas[k] == addr && k % LANES == lane
  }

  lemma NoneSpread(dmas: seq<nat>)
    ensures Spread(NO_BUFFERS, dmas) && All(NO_BUFFERS) == multiset(dmas[..0])
  {
    AllEmpty(NO_BUFFERS);
  }

  function LaneOf(idx: nat): (l: nat)
    ensures l < LANES
  {
    idx % LANES
  }

  lemma SpreadPush(lists: seq<seq<nat>>, dmas: seq<nat>, idx: nat)
    requires Spread(lists, dmas) && idx < |dmas|
    ensures |lists| == LANES
    ensures Spread(lists[LaneOf(idx) := lists[LaneOf(idx)] + [dmas[idx]]], dmas)
  {
    assert InLane(dmas[idx], LaneOf(idx), dmas);
    hide InLane, LaneOf;
  }

  /** The first n buffers dealt out to the lanes, one after the other. */
  function Dealt(dmas: seq<nat>, n: nat): (lists: seq<seq<nat>>)
    requires n <= |dmas|
    ensures |lists| == LANES
  {
    if n == 0 then NO_BUFFERS
    else
      var lists, lane := Dealt(dmas, n - 1), LaneOf(n - 1);
      lists[lane := lists[lane] + [dmas[n - 1]]]
  }

  /** The probe writes buffer idx to the free list of lane idx % 8. */
  method FreeLists(dmas: seq<nat>) returns (free: seq<seq<nat>>)
    ensures Spread(free, dmas) && All(free) == multiset(dmas)
    ensures free == Dealt(dmas, |dmas|)
  {
    hide All, Spread, LaneOf;
    free := NO_BUFFERS;
    NoneSpread(dmas);
    for idx := 0 to |dmas|
      invariant Spread(free, dmas) && All(free) == multiset(dmas[..idx])
      invariant free == Dealt(dmas, idx)
    {
      var lane := LaneOf(idx);
      SpreadPush(free, dmas, idx);
      PushTail(free, lane, dmas[idx]);
      assert dmas[..idx + 1] == dmas[..idx] + [dmas[idx]];
      free := free[lane := free[lane] + [dmas[idx]]];
    }
    assert dmas[..|dmas|] == dmas;
  }

  lemma Probed(p: Places, dmas: seq<nat>, home: map<nat, nat>)
    requires AddressesOk(dmas) && HomeOf(home, dmas)
    requires Spread(p.free, dmas) && p.dma == NO_BUFFERS
    requires All(p.free) == multiset(dmas) && p.done == [] && p.ring == [] && !p.handing
    ensures PlacesOk(p, dmas, home)
  {
    AllEmpty(p.dma);
    forall l, i | 0 <= l < |p.free| && 0 <= i < |p.free[l]|
      ensures p.free[l][i] in home && home[p.free[l][i]] == l
    {
      assert InLane(p.free[l][i], l, dmas);
    }
  }

  /** What the home lanes say about the buffers' indices. */
  lemma LaneIndices(p: Places, dmas: seq<nat>, home: map<nat, nat>)
    requires PlacesOk(p, dmas, home)
    ensures Spread(p.free, dmas) && Spread(p.dma, dmas)
    ensures forall i :: 0 <= i < |p.done| ==> InLane(p.done[i].addr, p.done[i].lane, dmas)
    ensures forall i :: 0 <= i < |p.ring| ==> InLane(p.ring[i].addr, p.ring[i].lane, dmas)
  {
    forall a | a in home
      ensures InLane(a, home[a], dmas)
    {
      var k :| 0 <= k < |dmas| && dmas[k] == a;
    }
  }

  lemma CanAdvance(p: Places, dmas: seq<nat>, home: map<nat, nat>)
    requires PlacesOk(p, dmas, home) && p.handing
    ensures Apply(p, Advance).Some?
  {
  }

  /** The record the interrupt handler fills from the two done words. */
  function Filled(b: RxBuffer, descA: nat, descB: nat): RxBuffer {
    RxBuffer(b.dma, descB / 2 % 2, descA / 0x8000_0000, descA / 0x4000_0000 % 2,
             descA / 0x400_0000 % 8, descA / 0x100_0000 % 4, descA % 0x100_0000)
  }

  /** Any two words, also with the unused bits set: each field comes from its own bits. */
  lemma AnyWords(b: RxBuffer, e: RxBuffer, bit29: nat, addr: nat, valid: nat)
    requires e.fifoError < 2 && e.eofe < 2 && e.lengthError < 2 && e.lane < 8 && e.vc < 4 && e.length < 0x100_0000
    requires bit29 < 2 && valid < 2 && addr % 4 == 0
    ensures var descA := e.fifoError * 0x8000_0000 + e.eofe * 0x4000_0000 + bit29 * 0x2000_0000
                         + e.lane * 0x400_0000 + e.vc * 0x100_0000 + e.length;
            Filled(b, descA, addr + e.lengthError * 2 + valid) == e.(dma := b.dma)
  {
    var q := e.fifoError * 128 + e.eofe * 64 + bit29 * 32 + e.lane * 4 + e.vc;
    By128(q, e.fifoError, e.eofe * 64 + bit29 * 32 + e.lane * 4 + e.vc);
    By64(q, e.fifoError * 2 + e.eofe, bit29 * 32 + e.lane * 4 + e.vc);
    By4(q, e.fifoError * 32 + e.eofe * 16 + bit29 * 8 + e.lane, e.vc);
    By2(e.fifoError * 2 + e.eofe, e.fifoError, e.eofe);
    By8(e.fifoError * 32 + e.eofe * 16 + bit29 * 8 + e.lane, e.fifoError * 4 + e.eofe * 2 + bit29, e.lane);
    Upper(q * 0x100_0000 + e.length, q, e.length);
    Legacy(addr, e.lengthError, valid);
  }

  lemma Legacy(addr: nat, legacy: nat, valid: nat)
    requires addr % 4 == 0 && legacy < 2 && valid < 2
    ensures (addr + legacy * 2 + valid) / 2 % 2 == legacy
  {
    var k := addr / 4;
    assert addr + legacy * 2 + valid == 2 * (2 * k + legacy) + valid;
  }

  lemma FilledRecords(b: RxBuffer, e: Entry)
    requires EntryOk(e) && b.dma == e.addr
    ensures Records(Filled(b, DescA(e), DescB(e)), e) && Filled(b, DescA(e), DescB(e)).lengthError == 0
    ensures DescB(e) - DescB(e) % 4 == e.addr && DescA(e) / 0x400_0000 % 8 == e.lane
  {
    DescFields(e);
  }

  lemma DescValid(p: Places, dmas: seq<nat>, home: map<nat, nat>)
    requires PlacesOk(p, dmas, home)
    ensures p.done != [] ==> DescB(p.done[0]) % 2 == 1
  {
    if p.done != [] {
      DescFields(p.done[0]);
    }
  }

  lemma DoneFacts(p: Places, dmas: seq<nat>, home: map<nat, nat>)
    requires PlacesOk(p, dmas, home) && p.done != []
    ensures EntryOk(p.done[0]) && p.done[0].addr in dmas && p.done[0].lane < |p.free|
    ensures Apply(p, Enqueue).Some? && Apply(p, Return).Some?
  {
  }

  datatype Event =
    | Begin(maxSize: nat) | End | Irq | IrqAll | Card(move: Move) | Open(open: bool)

  /** Where the buffers are, and whether the device is open. */
  datatype World = World(p: Places, open: bool)

  /** What an event does. A read is possible if a buffer is on the ring and no other read is being finished. */
  function Happens(w: World, e: Event): World {
    match e
    case Begin(_) => if w.p.ring != [] && !w.p.handing then w.(p := After(w.p, HandBack(w.p.ring[0].lane))) else w
    case End => w.(p := After(w.p, Advance))
    case Irq => w.(p := After(w.p, if w.open then Enqueue else Return))
    case IrqAll =>
      if w.open then w.(p := w.p.(done := [], ring := w.p.ring + w.p.done))
      else w.(p := w.p.(done := [], free := Returned(w.p.free, w.p.done)))
    case Card(move) => w.(p := After(w.p, move))
    case Open(open) => w.(open := open)
  }

  function Outcome(dmas: seq<nat>, events: seq<Event>): World {
    if events == [] then World(Places(Dealt(dmas, |dmas|), NO_BUFFERS, [], [], false), false)
    else Happens(Outcome(dmas, events[..|events| - 1]), events[|events| - 1])
  }

  lemma OutcomePush(dmas: seq<nat>, events: seq<Event>, n: nat)
    requires n < |events|
    ensures Outcome(dmas, events[..n + 1]) == Happens(Outcome(dmas, events[..n]), events[n])
  {
    assert events[..n + 1][..n] == events[..n];
  }

  lemma AtProbe(dmas: seq<nat>)
    ensures Outcome(dmas, []) == World(Places(Dealt(dmas, |dmas|), NO_BUFFERS, [], [], false), false)
  {
  }

  /** Any interleaving of user reads, interrupt passes, open and release, and card activity. The buffers are where the
      events put them, the ring pointers never collide, no buffer is lost or duplicated, and every buffer stays in its
      lane. */
  method Run(dmas: seq<nat>, events: seq<Event>)
    returns (collided: bool, free: seq<seq<nat>>, dma: seq<seq<nat>>, done: seq<Entry>,
             ghost ring: seq<Entry>, ghost handing: bool)
    requires AddressesOk(dmas)
    requires forall i :: 0 <= i < |events| && events[i].Card? ==>
               events[i].move.Grant? || (events[i].move.Finish? && EntryOk(events[i].move.entry))
    ensures !collided
    ensures Places(free, dma, done, ring, handing) == Outcome(dmas, events).p
    ensures Conserved(Places(free, dma, done, ring, handing), multiset(dmas))
    ensures Spread(free, dmas) && Spread(dma, dmas)
    ensures forall i :: 0 <= i < |done| ==> InLane(done[i].addr, done[i].lane, dmas)
    ensures forall i :: 0 <= i < |ring| ==> InLane(ring[i].addr, ring[i].lane, dmas)
  {
    hide PlacesOk, RingOk, EntryOk, Dmas, Conserved, AtHome, Spread, All, AddressesOk, HomeOf, Outcome, Dealt,
      Returned, Apply, After;
    var lists := FreeLists(dmas);
    ghost var home := Homes(dmas);
    var d := new PgpDevice.Probe(dmas, lists, home);
    var busy := false;
    AtProbe(dmas);
    for n := 0 to |events|
      invariant d.Valid() && fresh(d) && fresh(d.rxBuffer) && fresh(d.rxQueue)
      invariant Dmas(d.rxBuffer[..]) == dmas && d.handing == busy
      invariant World(d.P(), d.isOpen) == Outcome(dmas, events[..n])
    {
      OutcomePush(dmas, events, n);
      ghost var p := d.P();
      RingShown(d.rxBuffer[..], d.rxQueue[..], d.rxRead, d.rxWrite, d.ids, p);
      Kept(p);
      match events[n] {
        case Begin(maxSize) =>
          if d.rxRead != d.rxWrite && !busy {
            var _, _ := d.ReadBegin(maxSize);
            busy := true;
          }
        case End =>
          if busy {
            d.ReadEnd();
            busy := false;
          }
        case Irq => var _ := d.IrqRx();
        case IrqAll => d.IrqHandler();
        case Card(move) =>
          d.CardMove(move);
          CardKept(p, move);
        case Open(open) => d.SetOpen(open);
      }
    }
    assert events[..|events|] == events;
    collided, free, dma, done := d.collided, d.free, d.dma, d.done;
    ring, handing := d.ring, d.handing;
    LaneIndices(d.P(), dmas, d.home);
    AllPlaced(d.P(), dmas, d.home);
  }

  lemma RingShown(bufs: seq<RxBuffer>, slots: seq<nat>, read: nat, write: nat, ids: seq<nat>, p: Places)
    requires RingOk(bufs, slots, read, write, ids, p)
    ensures read != write <==> p.ring != []
  {
    EmptyTest(slots, read, write, ids);
  }

  /** What impossible moves leave alone, and who is being handed back. */
  lemma Kept(p: Places)
    ensures !p.handing ==> After(p, Advance) == p
    ensures p.done == [] ==> After(p, Enqueue) == p && After(p, Return) == p
    ensures After(p, Enqueue).handing == p.handing == After(p, Return).handing
  {
  }

  lemma CardKept(p: Places, m: Move)
    requires m.Grant? || m.Finish?
    ensures After(p, m).handing == p.handing
  {
  }

  lemma AllPlaced(p: Places, dmas: seq<nat>, home: map<nat, nat>)
    requires PlacesOk(p, dmas, home)
    ensures Conserved(p, multiset(dmas))
  {
  }
}
