/** The transmit half of the kernel driver on top of the card's descriptor queues. */
module DriverTx {
  import opened AxiStream
  import opened BufferPlaces
  import opened DriverRing

  const LANES := 8

  /** One list per lane, and one for buffers the driver advanced past without telling the card. */
  const NO_BUFFERS: seq<seq<nat>> := [[], [], [], [], [], [], [], [], []]

  /** A transmit request: size in words. */
  datatype PgpCardTx = PgpCardTx(pgpLane: nat, pgpVc: nat, size: nat)

  /** The first descriptor word: lane, virtual channel (three bits) and length. */
  function DescA(tx: PgpCardTx): nat {
    (tx.pgpLane % 32) * 0x800_0000 + (tx.pgpVc % 8) * 0x100_0000 + tx.size % 0x100_0000
  }

  /** The bytes of a request, as the driver computes them: in 32 bits. */
  function Bytes(tx: PgpCardTx): (n: nat)
    ensures n < 0x1_0000_0000
  {
    tx.size * 4 % 0x1_0000_0000
  }

  /** The size test lets a request through that is longer than the buffer exactly if its size does not fit 30 bits and
      the low 30 bits pass. Whatever the size, the card is told no more words than are copied. */
  lemma SizeTest(tx: PgpCardTx, buffSize: nat)
    ensures DescA(tx) % 0x100_0000 * 4 <= Bytes(tx)
    ensures buffSize < 0x1_0000_0000 ==>
              (Bytes(tx) <= buffSize < tx.size * 4
               <==> tx.size >= 0x4000_0000 && tx.size % 0x4000_0000 * 4 <= buffSize)
  {
    var k, m := tx.size / 0x4000_0000, tx.size % 0x4000_0000;
    FourTimes(tx.size, k, m);
    LowPart(tx.size, k, m);
    LengthField(tx);
  }

  lemma FourTimes(n: nat, k: nat, m: nat)
    requires n == k * 0x4000_0000 + m && m < 0x4000_0000
    ensures n * 4 % 0x1_0000_0000 == m * 4
  {
    assert n * 4 == k * 0x1_0000_0000 + m * 4;
  }

  lemma LowPart(n: nat, k: nat, m: nat)
    requires n == k * 0x4000_0000 + m
    ensures n % 0x100_0000 <= m
  {
    var j, t := m / 0x100_0000, m % 0x100_0000;
    assert n == (k * 64 + j) * 0x100_0000 + t;
    Remainder(n, k * 64 + j, t);
  }

  lemma Remainder(n: nat, q: nat, t: nat)
    requires n == q * 0x100_0000 + t && t < 0x100_0000
    ensures n % 0x100_0000 == t
  {
  }

  lemma LengthField(tx: PgpCardTx)
    ensures DescA(tx) % 0x100_0000 == tx.size % 0x100_0000
  {
  }

  /** Bits 31..2 of the transmit status word. */
  function AddressBits(stat: nat): (a: nat)
    ensures a <= stat
  {
    stat - stat % 4
  }

  lemma AddressWord(addr: nat)
    requires addr % 4 == 0
    ensures Odd(addr + 1) && AddressBits(addr + 1) == addr
  {
    LowBits(addr);
  }

  ghost predicate PlacesOk(p: Places, dmas: seq<nat>) {
    && |p.free| == |p.dma| == LANES + 1
    && Conserved(p, multiset(dmas))
    && forall i :: 0 <= i < |dmas| ==> dmas[i] % 4 == 0
  }

  /** The ring as buffer indices. */
  ghost predicate RingOk(dmas: seq<nat>, slots: seq<nat>, read: nat, write: nat, ids: seq<nat>, p: Places) {
    && Holds(slots, read, write, ids) && |ids| == |p.ring|
    && forall k :: 0 <= k < |ids| ==> ids[k] < |dmas| && dmas[ids[k]] == p.ring[k].addr
  }

  lemma PlacesStep(p: Places, m: Move, dmas: seq<nat>)
    requires PlacesOk(p, dmas) && Apply(p, m).Some?
    ensures PlacesOk(After(p, m), dmas)
  {
    hide Conserved, Apply;
    ApplyConserves(p, m, multiset(dmas));
    AfterShape(p, m);
  }

  lemma RingStep(dmas: seq<nat>, slots: seq<nat>, read: nat, write: nat, ids: seq<nat>, p: Places, m: Move)
    requires RingOk(dmas, slots, read, write, ids, p) && Apply(p, m).Some?
    ensures m.Grant? || m.Finish? || m.HandBack? ==> RingOk(dmas, slots, read, write, ids, After(p, m))
    ensures m.Advance? ==> ids != [] && RingOk(dmas, slots, (read + 1) % |slots|, write, ids[1..], After(p, m))
  {
    if m.Advance? {
      Dequeued(slots, read, write, ids);
    }
    hide Holds;
  }

  /** The ring after the interrupt handler returns buffer idx in slot write. */
  lemma RingEnqueued(dmas: seq<nat>, slots: seq<nat>, read: nat, write: nat, ids: seq<nat>, p: Places, idx: nat)
    requires PlacesOk(p, dmas) && RingOk(dmas, slots, read, write, ids, p)
    requires |slots| == |dmas| + 2 && p.done != [] && idx < |dmas| && dmas[idx] == p.done[0].addr
    ensures write < |slots| && (write + 1) % |slots| != read
    ensures RingOk(dmas, slots[write := idx], read, (write + 1) % |slots|, ids + [idx], After(p, Enqueue))
  {
    Occupancy(p, multiset(dmas));
    Enqueued(slots, read, write, ids, idx);
    hide Holds, Conserved;
  }

  /** A reported address is that of a buffer. */
  lemma DoneKnown(p: Places, dmas: seq<nat>)
    requires PlacesOk(p, dmas) && p.done != []
    ensures p.done[0].addr in dmas && p.done[0].addr % 4 == 0 && Apply(p, Enqueue).Some?
  {
    var a := p.done[0].addr;
    assert Addrs(p.done)[0] == a;
    assert multiset(Addrs(p.done))[a] > 0;
    assert p.handing ==> multiset(Addrs(p.ring))[p.ring[0].addr] > 0 by {
      if p.handing {
        assert Addrs(p.ring)[0] == p.ring[0].addr;
      }
    }
    assert Total(p)[a] >= multiset(Addrs(p.done))[a] + multiset(Addrs(p.ring))[a];
    assert multiset(dmas)[a] > 0;
  }

  class PgpDevice {
    const txBuffCnt: nat
    const txBuffSize: nat
    const txBuffer: array<nat>          // the DMA address of each buffer
    const txQueue: array<nat>
    var txRead: nat
    var txWrite: nat
    var collided: bool                  // a "Tx queue pointer collision" was reported
    var free: seq<seq<nat>>             // the card: descriptor queues, buffers in use, done queue
    var dma: seq<seq<nat>>
    var done: seq<Entry>
    ghost var ring: seq<Entry>
    ghost var ids: seq<nat>
    ghost var handing: bool

    ghost function P(): Places
      reads this
    {
      Places(free, dma, done, ring, handing)
    }

    ghost predicate Valid()
      reads this, txBuffer, txQueue
    {
      && txBuffer.Length == txBuffCnt && txQueue.Length == txBuffCnt + 2 && txBuffer != txQueue
      && PlacesOk(P(), txBuffer[..])
      && RingOk(txBuffer[..], txQueue[..], txRead, txWrite, ids, P())
      && !collided
    }

    /** Probe: every buffer on the ring. */
    constructor Probe(dmas: seq<nat>, size: nat)
      requires forall i :: 0 <= i < |dmas| ==> dmas[i] % 4 == 0
      ensures Valid() && txBuffer[..] == dmas && txBuffSize == size
      ensures P() == Places(NO_BUFFERS, NO_BUFFERS, [], Idle(dmas), false)
      ensures fresh(txBuffer) && fresh(txQueue)
    {
      txBuffCnt, txBuffSize := |dmas|, size;
      txBuffer := new nat[|dmas|](i requires 0 <= i < |dmas| => dmas[i]);
      txQueue := new nat[|dmas| + 2];
      txRead, txWrite, collided := 0, |dmas|, false;
      free, dma, done := NO_BUFFERS, NO_BUFFERS, [];
      ring, ids, handing := Idle(dmas), seq(|dmas|, i => i), false;
      new;
      for idx := 0 to |dmas|
        invariant forall i :: 0 <= i < idx ==> txQueue[i] == i
        invariant P() == Places(NO_BUFFERS, NO_BUFFERS, [], Idle(dmas), false) && !collided && txRead == 0
        invariant txWrite == |dmas|
        invariant ids == seq(|dmas|, i => i) && txBuffer[..] == dmas
        modifies txQueue
      {
        txQueue[idx] := idx;
      }
      IdlePlaces(dmas);
    }

    /** Linear search for the buffer with a given DMA address. */
    method FindTx(addr: nat) returns (idx: nat)
      requires txBuffer.Length == txBuffCnt
      ensures idx <= txBuffCnt
      ensures idx < txBuffCnt ==> txBuffer[idx] == addr
      ensures idx == txBuffCnt ==> addr !in txBuffer[..]
    {
      idx := 0;
      while idx < txBuffCnt && txBuffer[idx] != addr
        invariant idx <= txBuffCnt
        invariant forall i :: 0 <= i < idx ==> txBuffer[i] != addr
      {
        idx := idx + 1;
      }
    }

    /** One pass of the interrupt handler's transmit loop; more is the loop condition. */
    method IrqTx() returns (more: bool)
      requires Valid()
      modifies this, txQueue
      ensures Valid() && more == (old(done) != [])
      ensures collided == (more && (old(txWrite) + 1) % (txBuffCnt + 2) == txRead)
      ensures P() == if more then After(old(P()), Enqueue) else old(P())
    {
      hide PlacesOk, RingOk, After, Apply, Odd, AddressBits;
      ghost var p, slots := P(), txQueue[..];
      var stat := if done != [] then done[0].addr + 1 else 0;
      if done != [] {
        DoneKnown(p, txBuffer[..]);
        AddressWord(done[0].addr);
      }
      more := Odd(stat);
      if more {
        var idx := FindTx(AddressBits(stat));
        RingEnqueued(txBuffer[..], slots, txRead, txWrite, ids, p, idx);
        PlacesStep(p, Enqueue, txBuffer[..]);
        AfterEnqueue(p);
        var next := (txWrite + 1) % (txBuffCnt + 2);
        collided := collided || next == txRead;
        txQueue[txWrite] := idx;
        assert txQueue[..] == slots[txWrite := idx];
        txWrite := next;
        ring, ids, done := ring + [done[0]], ids + [idx], done[1..];
      }
    }

    /** The transmit loop of the interrupt handler: it runs until the done queue is empty. */
    method IrqHandler()
      requires Valid()
      modifies this, txQueue
      ensures Valid() && P() == old(P()).(done := [], ring := old(ring) + old(done))
    {
      hide PlacesOk, RingOk, After, Apply;
      if done != [] {
        var more := true;
        ghost var n := 0;
        while more
          invariant Valid() && n <= |old(done)|
          invariant !more ==> done == []
          invariant P() == old(P()).(done := old(done)[n..], ring := old(ring) + old(done)[..n])
          decreases |done|, more
        {
          if done != [] {
            assert old(done)[..n + 1] == old(done)[..n] + [old(done)[n]];
            assert done[0] == old(done)[n];
            AfterEnqueue(P());
            n := n + 1;
          }
          more := IrqTx();
        }
        assert old(done)[..n] == old(done);
      }
    }

    /** The first half of a write: fill the oldest ring buffer and, for a valid lane, push its descriptor. */
    method WriteBegin(tx: PgpCardTx) returns (ok: bool, descA: nat, descB: nat)
      requires Valid() && !handing && txRead != txWrite
      modifies this
      ensures Valid() && ok == (Bytes(tx) <= txBuffSize)
      ensures if ok then
                && old(ring) != [] && handing
                && P() == After(old(P()), HandBack(if tx.pgpLane < LANES then tx.pgpLane else LANES))
                && descA == DescA(tx) && descB == old(ring)[0].addr
              else P() == old(P())
    {
      hide PlacesOk;
      EmptyTest(txQueue[..], txRead, txWrite, ids);
      descA, descB := DescA(tx), txBuffer[txQueue[txRead]];
      ok := Bytes(tx) <= txBuffSize;
      if ok {
        ghost var p := P();
        var lane := if tx.pgpLane < LANES then tx.pgpLane else LANES;
        CanHandBack(p, txBuffer[..], lane);
        PlacesStep(p, HandBack(lane), txBuffer[..]);
        RingStep(txBuffer[..], txQueue[..], txRead, txWrite, ids, p, HandBack(lane));
        free := free[lane := free[lane] + [descB]];
        handing := true;
      }
    }

    /** The second half of a write: advance the ring's read pointer. */
    method WriteEnd()
      requires Valid() && handing
      modifies this
      ensures Valid() && P() == After(old(P()), Advance) && !handing
    {
      hide PlacesOk, RingOk;
      ghost var p := P();
      CanAdvance(p, txBuffer[..]);
      PlacesStep(p, Advance, txBuffer[..]);
      RingStep(txBuffer[..], txQueue[..], txRead, txWrite, ids, p, Advance);
      txRead := (txRead + 1) % (txBuffCnt + 2);
      ring, ids, handing := ring[1..], ids[1..], false;
    }

    /** A move of the card: a lane takes a descriptor, or reports its buffer. */
    method CardMove(m: Move)
      requires Valid() && (m.Grant? || m.Finish?)
      modifies this
      ensures Valid() && P() == After(old(P()), m)
    {
      hide PlacesOk, RingOk;
      ghost var p := P();
      match Apply(Places(free, dma, done, [], false), m) {
        case None =>
        case Some(q) =>
          PlacesStep(p, m, txBuffer[..]);
          RingStep(txBuffer[..], txQueue[..], txRead, txWrite, ids, p, m);
          free, dma, done := q.free, q.dma, q.done;
      }
    }
  }

  function Idle(dmas: seq<nat>): (es: seq<Entry>)
    ensures |es| == |dmas| && forall i :: 0 <= i < |dmas| ==> es[i].addr == dmas[i]
  {
    seq(|dmas|, i requires 0 <= i < |dmas| => Entry(dmas[i], 0, 0, 0, false, false))
  }

  lemma IdlePlaces(dmas: seq<nat>)
    requires forall i :: 0 <= i < |dmas| ==> dmas[i] % 4 == 0
    ensures PlacesOk(Places(NO_BUFFERS, NO_BUFFERS, [], Idle(dmas), false), dmas)
  {
    AllEmpty(NO_BUFFERS);
    assert Addrs(Idle(dmas)) == dmas;
  }

  lemma CanHandBack(p: Places, dmas: seq<nat>, lane: nat)
    requires PlacesOk(p, dmas) && p.ring != [] && !p.handing && lane <= LANES
    ensures Apply(p, HandBack(lane)).Some?
  {
  }

  lemma CanAdvance(p: Places, dmas: seq<nat>)
    requires PlacesOk(p, dmas) && p.handing
    ensures Apply(p, Advance).Some?
  {
  }

  datatype Event =
    | Begin(tx: PgpCardTx) | End | Irq | IrqAll | Card(move: Move)

  /** What the card can do: its lanes are 0 to 7. */
  predicate CardEvent(m: Move) {
    (m.Grant? && m.lane < LANES) || (m.Finish? && m.entry.lane < LANES)
  }

  /** Only a write to an invalid lane adds to the last list, and nothing ever leaves it. */
  lemma LostKept(p: Places, m: Move)
    requires |p.free| == LANES + 1
    requires CardEvent(m) || m.Enqueue? || m.Advance? || (m.HandBack? && m.lane <= LANES && Apply(p, m).Some?)
    ensures |After(p, m).free| == LANES + 1
    ensures |After(p, m).free[LANES]| == |p.free[LANES]| + (if m == HandBack(LANES) then 1 else 0)
    ensures CardEvent(m) || m.Enqueue? ==> After(p, m).handing == p.handing
  {
  }

  lemma Shape(p: Places, dmas: seq<nat>)
    requires PlacesOk(p, dmas)
    ensures |p.free| == LANES + 1 && Conserved(p, multiset(dmas))
    ensures p.ring != [] && !p.handing ==> forall l :: 0 <= l <= LANES ==> Apply(p, HandBack(l)).Some?
  {
  }

  /** The list a buffer goes to: that of its lane, or the last one if the card has no such lane. */
  function ListOf(tx: PgpCardTx): (l: nat)
    ensures l <= LANES
  {
    if tx.pgpLane < LANES then tx.pgpLane else LANES
  }

  /** A write is accepted if it passes the size test, a buffer is on the ring, and no other write is being finished. */
  predicate Accepts(p: Places, size: nat, tx: PgpCardTx) {
    Bytes(tx) <= size && p.ring != [] && !p.handing
  }

  /** What an event does to the places of the buffers. */
  function Happens(p: Places, size: nat, e: Event): Places {
    match e
    case Begin(tx) => if Accepts(p, size, tx) then After(p, HandBack(ListOf(tx))) else p
    case End => After(p, Advance)
    case Irq => After(p, Enqueue)
    case IrqAll => p.(done := [], ring := p.ring + p.done)
    case Card(move) => After(p, move)
  }

  function Start(dmas: seq<nat>): Places {
    Places(NO_BUFFERS, NO_BUFFERS, [], Idle(dmas), false)
  }

  function Outcome(dmas: seq<nat>, size: nat, events: seq<Event>): Places {
    if events == [] then Start(dmas)
    else
      var n := |events| - 1;
      Happens(Outcome(dmas, size, events[..n]), size, events[n])
  }

  /** A write to a lane above 7, accepted by the driver. */
  predicate Stray(p: Places, size: nat, e: Event) {
    e.Begin? && e.tx.pgpLane >= LANES && Accepts(p, size, e.tx)
  }

  /** The number of accepted writes to a lane above 7. */
  function Strays(dmas: seq<nat>, size: nat, events: seq<Event>): nat {
    if events == [] then 0
    else
      var n := |events| - 1;
      Strays(dmas, size, events[..n]) + if Stray(Outcome(dmas, size, events[..n]), size, events[n]) then 1 else 0
  }

  predicate CardOk(events: seq<Event>) {
    forall i :: 0 <= i < |events| && events[i].Card? ==> CardEvent(events[i].move)
  }

  lemma OutcomePush(dmas: seq<nat>, size: nat, events: seq<Event>, n: nat)
    requires n < |events|
    ensures Outcome(dmas, size, events[..n + 1]) == Happens(Outcome(dmas, size, events[..n]), size, events[n])
  {
    assert events[..n + 1][..n] == events[..n];
  }

  /** Exactly the accepted writes to a lane above 7 take a buffer out of circulation, each of them one. */
  lemma {:induction false} LostExactly(dmas: seq<nat>, size: nat, events: seq<Event>)
    requires CardOk(events)
    ensures var p := Outcome(dmas, size, events);
            |p.free| == LANES + 1 && |p.free[LANES]| == Strays(dmas, size, events)
  {
    hide Apply, After, CardEvent;
    if events == [] {
      assert Start(dmas).free == NO_BUFFERS;
    } else {
      var n := |events| - 1;
      LostExactly(dmas, size, events[..n]);
      LostStep(Outcome(dmas, size, events[..n]), size, events[n]);
    }
  }

  /** Every write that passes the size test is for a lane of the card. */
  predicate LanesExist(size: nat, events: seq<Event>) {
    forall i :: 0 <= i < |events| && events[i].Begin? && Bytes(events[i].tx) <= size ==>
      events[i].tx.pgpLane < LANES
  }

  lemma {:induction false} NoneStray(dmas: seq<nat>, size: nat, events: seq<Event>)
    ensures LanesExist(size, events) ==> Strays(dmas, size, events) == 0
  {
    if events == [] {
    } else {
      NoneStray(dmas, size, events[..|events| - 1]);
    }
  }

  lemma LostStep(p: Places, size: nat, e: Event)
    requires |p.free| == LANES + 1 && (e.Card? ==> CardEvent(e.move))
    ensures |Happens(p, size, e).free| == LANES + 1
    ensures |Happens(p, size, e).free[LANES]| == |p.free[LANES]| + if Stray(p, size, e) then 1 else 0
  {
    match e {
      case Begin(tx) =>
        if Accepts(p, size, tx) {
          LostKept(p, HandBack(ListOf(tx)));
        }
      case End => LostKept(p, Advance);
      case Irq => LostKept(p, Enqueue);
      case IrqAll =>
      case Card(move) => LostKept(p, move);
    }
  }

  /** One buffer, one write to lane 8: the buffer is gone. */
  lemma OneLost(a: nat)
    ensures var p := Outcome([a], 4, [Begin(PgpCardTx(8, 0, 1)), End]);
            p == Places(NO_BUFFERS[LANES := [a]], NO_BUFFERS, [], [], false)
  {
    var write := Begin(PgpCardTx(8, 0, 1));
    var es := [write, End];
    assert es[..0] == [] && es[..1] == [write] && es[..2] == es;
    OutcomePush([a], 4, es, 0);
    OutcomePush([a], 4, es, 1);
    var p0 := Start([a]);
    assert Outcome([a], 4, es[..0]) == p0;
    var p1 := After(p0, HandBack(LANES));
    assert p1 == p0.(free := NO_BUFFERS[LANES := NO_BUFFERS[LANES] + [a]], handing := true);
    assert NO_BUFFERS[LANES] + [a] == [a] && p0.ring[1..] == [];
    assert After(p1, Advance) == p1.(ring := [], handing := false);
  }

  /** Any interleaving of writes, interrupt passes and card activity. The buffers are where the events put them, the
      ring pointers never collide, no buffer is duplicated, and those that leave circulation are those of the accepted
      writes to a lane above 7. */
  method Run(dmas: seq<nat>, size: nat, events: seq<Event>)
    returns (collided: bool, free: seq<seq<nat>>, dma: seq<seq<nat>>, done: seq<Entry>,
             ghost ring: seq<Entry>, ghost handing: bool)
    requires CardOk(events) && forall i :: 0 <= i < |dmas| ==> dmas[i] % 4 == 0
    ensures !collided
    ensures Places(free, dma, done, ring, handing) == Outcome(dmas, size, events)
    ensures Conserved(Places(free, dma, done, ring, handing), multiset(dmas))
    ensures |free| == LANES + 1 && |free[LANES]| == Strays(dmas, size, events)
    ensures LanesExist(size, events) ==> free[LANES] == []
  {
    hide PlacesOk, RingOk, Conserved, Apply, After, CardEvent, Outcome, Strays;
    var d := new PgpDevice.Probe(dmas, size);
    var busy := false;
    NothingYet(dmas, size);
    for n := 0 to |events|
      invariant d.Valid() && fresh(d) && fresh(d.txBuffer) && fresh(d.txQueue)
      invariant d.txBuffer[..] == dmas && d.txBuffSize == size && d.handing == busy
      invariant d.P() == Outcome(dmas, size, events[..n])
    {
      ghost var p := d.P();
      Shape(p, dmas);
      OutcomePush(dmas, size, events, n);
      RingEmpty(d.txQueue[..], d.txRead, d.txWrite, d.ids, dmas, p);
      match events[n] {
        case Begin(tx) =>
          if d.txRead != d.txWrite && !busy {
            var ok, _, _ := d.WriteBegin(tx);
            busy := ok;
          }
        case End =>
          if busy {
            d.WriteEnd();
            busy := false;
          } else {
            NoAdvance(p);
          }
        case Irq =>
          var _ := d.IrqTx();
          EnqueueKeepsBusy(p);
        case IrqAll => d.IrqHandler();
        case Card(move) =>
          MoveKind(move, events, n);
          d.CardMove(move);
          CardKeepsBusy(p, move);
      }
    }
    assert events[..|events|] == events;
    Shape(d.P(), dmas);
    LostExactly(dmas, size, events);
    NoneStray(dmas, size, events);
    collided, free, dma, done := d.collided, d.free, d.dma, d.done;
    ring, handing := d.ring, d.handing;
  }

  lemma NothingYet(dmas: seq<nat>, size: nat)
    ensures Outcome(dmas, size, []) == Start(dmas)
  {
  }

  lemma RingEmpty(slots: seq<nat>, read: nat, write: nat, ids: seq<nat>, dmas: seq<nat>, p: Places)
    requires RingOk(dmas, slots, read, write, ids, p)
    ensures read != write <==> p.ring != []
  {
    EmptyTest(slots, read, write, ids);
  }

  lemma NoAdvance(p: Places)
    requires !p.handing
    ensures After(p, Advance) == p
  {
  }

  lemma EnqueueKeepsBusy(p: Places)
    ensures After(p, Enqueue).handing == p.handing && (p.done == [] ==> After(p, Enqueue) == p)
  {
  }

  lemma CardKeepsBusy(p: Places, m: Move)
    requires m.Grant? || m.Finish?
    ensures After(p, m).handing == p.handing
  {
  }

  lemma MoveKind(m: Move, events: seq<Event>, n: nat)
    requires n < |events| && events[n] == Card(m)
    requires CardOk(events)
    ensures CardEvent(m) && (m.Grant? || m.Finish?)
  {
  }
}
