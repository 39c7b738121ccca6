/** One lane's transmit descriptor queue and its handshake with the memory requester. */
module TxDescFifo {
  import opened AxiStream
  import opened TxReads
  import opened TxMemReq

  /** A queue entry: the two words the driver writes. */
  datatype Raw = Raw(descA: nat, descB: nat)

  /** The fields of an entry; the address is in words, control bit 2 is the continue flag, bits 1..0 the channel. */
  function Split(w: Raw): TxDesc {
    TxDesc(w.descB / 4, w.descA % 0x100_0000, w.descA / 0x400_0000 % 2 == 1, w.descA / 0x100_0000 % 4)
  }

  function SplitAll(ws: seq<Raw>): (ds: seq<TxDesc>)
    ensures |ds| == |ws| && forall i :: 0 <= i < |ws| ==> ds[i] == Split(ws[i])
  {
    seq(|ws|, i requires 0 <= i < |ws| => Split(ws[i]))
  }

  datatype FifoState = IdleS | AckS

  datatype FifoReg = FifoReg(newAck: bool, desc: TxDesc, state: FifoState)

  const NO_DESC := TxDesc(0, 0, false, 0)

  const FIFO_INIT := FifoReg(false, NO_DESC, FifoState.IdleS)

  /** The acknowledge is up for one cycle, with the fields of the oldest entry, while the request is still up. */
  ghost predicate Handshake(q: FifoReg, queue: seq<Raw>, reqIdle: bool, newReq: bool) {
    && (newReq ==> reqIdle)
    && (q.state.IdleS? ==> !q.newAck)
    && (q.newAck ==> queue != [] && q.desc == Split(queue[0]) && newReq)
    && (q.state.AckS? && !q.newAck ==> !newReq)
  }

  class PciTxDescFifo {
    var r: FifoReg
    var queue: seq<Raw>
    ghost var writes: seq<Raw>
    ghost var pops: seq<Raw>

    constructor ()
      ensures r == FIFO_INIT && queue == [] && writes == [] && pops == []
    {
      r, queue, writes, pops := FIFO_INIT, [], [], [];
    }

    /** One cycle; seen says that the oldest entry is visible. The entry leaves the queue in the cycle of its
        acknowledge, which is the cycle in which the requester takes it. */
    method Step(newReq: bool, seen: bool, write: Option<Raw>, ghost reqIdle: bool)
      requires Handshake(r, queue, reqIdle, newReq) && writes == pops + queue
      modifies this
      ensures pops == old(pops) + (if old(r.newAck) then [old(queue[0])] else []) && writes == pops + queue
      ensures writes == old(writes) + if write.Some? then [write.value] else []
      ensures Handshake(r, queue, reqIdle && !old(r.newAck), newReq && !old(r.newAck))
      ensures !newReq && reqIdle ==> Handshake(r, queue, true, true)
      ensures queue == (if old(r.newAck) then old(queue[1..]) else old(queue))
              + (if write.Some? then [write.value] else [])
      ensures old(r.state.IdleS?) && newReq && seen && old(queue) != [] ==> r.newAck
    {
      hide Split;
      var v := r.(newAck := false);
      match r.state {
        case IdleS =>
          if newReq && seen && queue != [] {
            v := FifoReg(true, Split(queue[0]), AckS);
          }
        case AckS =>
          if !newReq {
            v := v.(state := FifoState.IdleS);
          }
      }
      if r.newAck {
        assert pops + queue == (pops + [queue[0]]) + queue[1..];
        pops, queue := pops + [queue[0]], queue[1..];
      }
      if write.Some? {
        assert pops + (queue + [write.value]) == (pops + queue) + [write.value];
        writes, queue := writes + [write.value], queue + [write.value];
      }
      r := v;
    }
  }
}

/** One lane's transmit path: descriptor queue, memory requester, collector, and the host answering its reads. */
module TxChannel {
  import opened AxiStream
  import opened TxReads
  import opened TxMemReq
  import opened TxCompletions
  import opened TxCollect
  import opened TxDescFifo

  /** The words in flight are those between the collector's position and the requester's. */
  ghost predicate FlightInv(mem: Memory, r: RegType, ds: seq<TxDesc>, c: ColReg, f: Flight) {
    if c.state.CollectS? then
      && ds != [] && r.reqLength <= c.remLength <= r.newLength
      && Carries(mem, f, ds[|ds| - 1].addr + (r.newLength - c.remLength), c.remLength - r.reqLength)
      && (c.remLength == r.newLength ==> HeadSof(f))
    else Carries(mem, f, 0, 0)
  }

  /** The requester: its registers and what it has done. */
  datatype Requester = Requester(r: RegType, h: History)

  /** What a cycle passes through the requester: its inputs, the request it hands on, and its report. */
  datatype Passage = Passage(i: Inputs, tx: Option<ReadHdr>, report: Option<nat>)

  predicate Passes(a: Requester, b: Requester, s: Passage) {
    Stepped(a.r, a.h, b.r, b.h, s.i, s.tx, s.report)
  }

  /** The descriptor queue: its registers, what it holds, and all entries written and popped. */
  datatype DescQueue = DescQueue(q: FifoReg, queue: seq<Raw>, writes: seq<Raw>, pops: seq<Raw>)

  /** What the collector may rely on when it sees the head beat. */
  lemma SeesHead(mem: Memory, r: RegType, ds: seq<TxDesc>, c: ColReg, f: Flight)
    requires FlightInv(mem, r, ds, c, f) && f.idx == c.idx
    ensures c.idx < 4
    ensures f.fifo != [] ==>
              && c.state.CollectS? && ds != [] && r.reqLength < c.remLength
              && (c.remLength == r.newLength ==> f.fifo[0].sof)
              && HeadWord(f.fifo[0], c.idx) == mem(Wrap(ds[|ds| - 1].addr + (r.newLength - c.remLength)))
  {
    hide HeadWord, Wrap, Slice, Gather, Payload, InFlight;
    IdxSmall(f);
    if !c.state.CollectS? {
      Landed(mem, f, 0);
    } else if f.fifo != [] {
      Takes(mem, f, ds[|ds| - 1].addr + (r.newLength - c.remLength), c.remLength - r.reqLength);
    }
  }

  lemma IdxSmall(f: Flight)
    requires FlightOk(f)
    ensures f.idx < 4
  {
  }

  lemma Nothing(mem: Memory, f: Flight, a: nat)
    requires Carries(mem, f, a, 0)
    ensures Carries(mem, f, 0, 0)
  {
    assert Slice(mem, a, 0) == Slice(mem, 0, 0);
  }

  /** The collector's half of a cycle. */
  lemma CollectorMoves(mem: Memory, r: RegType, ds: seq<TxDesc>, c: ColReg, c': ColReg, f: Flight, took: bool)
    requires FlightInv(mem, r, ds, c, f) && f.idx == c.idx
    requires Control(r, PeerOf(c)) && PeerMove(r, PeerOf(c), PeerOf(c'))
    requires took ==> c.state.CollectS? && f.fifo != []
    requires c'.remLength == if took then c.remLength - 1 else if r.start then r.newLength else c.remLength
    requires c'.state.CollectS? == if c.state.CollectS? then !took || c'.remLength > 0 else r.start
    requires r.start ==> ds != []
    ensures FlightInv(mem, r, ds, c', if took then Taken(f) else f)
  {
    hide HeadWord, Wrap, Slice, Gather, Payload, InFlight, FlightOk, NextIdx;
    if c.state.CollectS? {
      var a, n := ds[|ds| - 1].addr + (r.newLength - c.remLength), c.remLength - r.reqLength;
      if took {
        Takes(mem, f, a, n);
        if c.remLength == 1 {
          Nothing(mem, Taken(f), a + 1);
        }
      }
    } else {
      Landed(mem, f, 0);
      if r.start {
        Nowhere(mem, f, ds[|ds| - 1].addr);
      }
    }
  }

  lemma Nowhere(mem: Memory, f: Flight, a: nat)
    requires Carries(mem, f, 0, 0)
    ensures Carries(mem, f, a, 0)
  {
    assert Slice(mem, a, 0) == Slice(mem, 0, 0);
  }

  /** The host takes the request in the output register. */
  function Accepted(f: Flight, txReady: bool): Flight {
    if txReady && f.tx.Some? then f.(tx := None, waiting := f.waiting + [Span(f.tx.value.addr, f.tx.value.length)])
    else f
  }

  lemma HostAccepts(mem: Memory, r: RegType, ds: seq<TxDesc>, c: ColReg, f: Flight, txReady: bool)
    requires FlightInv(mem, r, ds, c, f)
    ensures FlightInv(mem, r, ds, c, Accepted(f, txReady))
  {
    hide Carries;
    if txReady && f.tx.Some? {
      if c.state.CollectS? {
        Accepts(mem, f, ds[|ds| - 1].addr + (r.newLength - c.remLength), c.remLength - r.reqLength);
      } else {
        Accepts(mem, f, 0, 0);
      }
    }
  }

  /** The requester's half of a cycle; p and c are the collector before and after it. */
  lemma RequesterMoves(mem: Memory, a: Requester, b: Requester, s: Passage, p: Peer, c: ColReg, f: Flight)
    requires FlightInv(mem, a.r, a.h.descs, c, f) && f.tx == if s.i.txReady then None else a.r.tx
    requires Control(a.r, p) && PeerMove(a.r, p, PeerOf(c)) && Kept(a.r, a.h) && Passes(a, b, s)
    ensures FlightInv(mem, b.r, b.h.descs, c, f.(tx := b.r.tx))
  {
    hide Carries, Chunks, AllChunks, Spans, Wrap;
    var ds, r := a.h.descs, a.r;
    if r.state.SendIoReqHdrS? && (s.i.txReady || r.tx.None?) {
      var d := ds[|ds| - 1];
      Issues(mem, f, d.addr + (r.newLength - c.remLength), c.remLength - r.reqLength, b.r.tx.value);
    } else {
      assert f.(tx := b.r.tx) == f;
    }
  }

  /** A beat of the host's answer arrives. */
  function Delivered(f: Flight, deliver: bool): Flight {
    if deliver && f.cur != [] then Arrived(f) else f
  }

  /** The host answers part of a request, if it is done with the answer before. */
  function Replied(mem: Memory, f: Flight, answer: nat, hdr: Lanes): Flight {
    if f.cur == [] && f.waiting != [] && 0 < answer <= f.waiting[0].length then Answered(mem, f, hdr, answer) else f
  }

  /** The host's part of a cycle: it delivers a beat, and starts the next answer once the last beat of one is out. */
  function HostMoves(mem: Memory, f: Flight, e: Edge): Flight {
    Replied(mem, Delivered(f, e.deliver), e.answer, e.hdr)
  }

  lemma DeliverKeeps(mem: Memory, r: RegType, ds: seq<TxDesc>, c: ColReg, f: Flight, deliver: bool)
    requires FlightInv(mem, r, ds, c, f)
    ensures FlightInv(mem, r, ds, c, Delivered(f, deliver))
    ensures Delivered(f, deliver).idx == f.idx && Delivered(f, deliver).tx == f.tx
  {
    hide Carries;
    if deliver && f.cur != [] {
      var a := if c.state.CollectS? then ds[|ds| - 1].addr + (r.newLength - c.remLength) else 0;
      Arrives(mem, f, a, if c.state.CollectS? then c.remLength - r.reqLength else 0);
    }
  }

  lemma ReplyKeeps(mem: Memory, r: RegType, ds: seq<TxDesc>, c: ColReg, f: Flight, answer: nat, hdr: Lanes)
    requires FlightInv(mem, r, ds, c, f)
    ensures FlightInv(mem, r, ds, c, Replied(mem, f, answer, hdr))
    ensures Replied(mem, f, answer, hdr).idx == f.idx && Replied(mem, f, answer, hdr).tx == f.tx
  {
    hide Carries, Completion;
    if f.cur == [] && f.waiting != [] && 0 < answer <= f.waiting[0].length {
      var a := if c.state.CollectS? then ds[|ds| - 1].addr + (r.newLength - c.remLength) else 0;
      Answers(mem, f, a, if c.state.CollectS? then c.remLength - r.reqLength else 0, hdr, answer);
    }
  }

  lemma HostKeeps(mem: Memory, r: RegType, ds: seq<TxDesc>, c: ColReg, f: Flight, e: Edge)
    requires FlightInv(mem, r, ds, c, f)
    ensures FlightInv(mem, r, ds, c, Delivered(f, e.deliver)) && FlightInv(mem, r, ds, c, HostMoves(mem, f, e))
    ensures HostMoves(mem, f, e).idx == f.idx && HostMoves(mem, f, e).tx == f.tx
  {
    hide FlightInv, Delivered, Replied;
    DeliverKeeps(mem, r, ds, c, f, e.deliver);
    ReplyKeeps(mem, r, ds, c, Delivered(f, e.deliver), e.answer, e.hdr);
  }

  /** The inputs of one pciClk edge. seenDesc and seenBeat say whether the queues show their oldest entry. */
  datatype Edge = Edge(write: Option<Raw>, seenDesc: bool, seenBeat: bool, reqPause: bool, outPause: bool,
                       txReady: bool, doneAck: bool, reqId: nat, tag: nat, deliver: bool, answer: nat, hdr: Lanes)

  ghost predicate WritesOk(ws: seq<Raw>) {
    forall i :: 0 <= i < |ws| ==> DescOk(Split(ws[i]))
  }

  /** Entries written, popped and still queued, and the descriptors the requester has taken. */
  ghost predicate QueueInv(q: FifoReg, queue: seq<Raw>, writes: seq<Raw>, pops: seq<Raw>, r: RegType, ds: seq<TxDesc>) {
    writes == pops + queue && WritesOk(writes) && Handshake(q, queue, r.state.IdleS?, r.newReq) && ds == SplitAll(pops)
  }

  ghost predicate LaneInv(mem: Memory, q: PciTxDescFifo, m: PciTxDmaMemReq, d: PciTxDma, f: Flight)
    reads q, m, d
  {
    && QueueInv(q.r, q.queue, q.writes, q.pops, m.r, m.h.descs)
    && m.Valid(PeerOf(d.c))
    && Written(mem, d.c, m.r.start, m.h.descs, d.out)
    && FlightInv(mem, m.r, m.h.descs, d.c, f)
    && f.idx == d.c.idx && f.tx == m.r.tx
  }

  /** What the three state machines may rely on at the start of a cycle. */
  lemma Ready(r: RegType, h: History, c: ColReg)
    requires Control(r, PeerOf(c)) && Kept(r, h)
    ensures !r.state.IdleS? ==> h.descs != [] && Current(r, h.descs[|h.descs| - 1])
    ensures r.start || c.state.CollectS? ==> !r.state.IdleS?
    ensures r.start ==> c.state.IdleS? && h.descs != []
    ensures r.newReq ==> r.state.IdleS?
    ensures r.start ==> r.newLength > 0
  {
    hide Chunks, AllChunks, Spans;
  }

  lemma AckOk(q: FifoReg, queue: seq<Raw>, writes: seq<Raw>, pops: seq<Raw>, r: RegType, ds: seq<TxDesc>)
    requires QueueInv(q, queue, writes, pops, r, ds)
    ensures Handshake(q, queue, r.state.IdleS?, r.newReq) && writes == pops + queue
    ensures q.newAck ==> r.state.IdleS? && r.newReq && queue != [] && q.desc == Split(queue[0]) && DescOk(q.desc)
  {
    hide Split, DescOk;
    if q.newAck {
      assert writes[|pops|] == queue[0];
    }
  }

  /** The requester's next state and request flag, as the queue's handshake sees them. */
  lemma Handed(a: DescQueue, b: DescQueue, write: Option<Raw>, m: Requester, n: Requester, s: Passage)
    requires QueueInv(a.q, a.queue, a.writes, a.pops, m.r, m.h.descs) && Passes(m, n, s)
    requires s.i.newAck == a.q.newAck && s.i.desc == a.q.desc && (n.r.newReq ==> n.r.state.IdleS?)
    requires write.Some? ==> DescOk(Split(write.value))
    requires b.writes == a.writes + if write.Some? then [write.value] else []
    requires a.queue != [] || !a.q.newAck
    requires b.pops == a.pops + (if a.q.newAck then [a.queue[0]] else []) && b.writes == b.pops + b.queue
    requires Handshake(b.q, b.queue, m.r.state.IdleS? && !a.q.newAck, m.r.newReq && !a.q.newAck)
    requires !m.r.newReq && m.r.state.IdleS? ==> Handshake(b.q, b.queue, true, true)
    ensures QueueInv(b.q, b.queue, b.writes, b.pops, n.r, n.h.descs)
  {
    hide Header, Split, DescOk;
    AckOk(a.q, a.queue, a.writes, a.pops, m.r, m.h.descs);
    assert SplitAll(b.pops) == SplitAll(a.pops) + if a.q.newAck then [Split(a.queue[0])] else [];
  }

  lemma StillWritten(mem: Memory, c: ColReg, a: Requester, b: Requester, s: Passage, p: Peer, out: seq<TxWord>)
    requires Written(mem, c, false, a.h.descs, out) && Passes(a, b, s)
    requires Control(a.r, p) && PeerMove(a.r, p, PeerOf(c))
    ensures Written(mem, c, b.r.start, b.h.descs, out)
  {
    hide Output, Starts, Header;
    if a.r.state.IdleS? && s.i.newAck {
      assert b.h.descs[..|a.h.descs|] == a.h.descs;
    } else {
      assert b.h.descs == a.h.descs;
    }
  }

  // ---------------------------------------------------------------------------------------
  // Progress: with everything visible and ready every cycle leaves less to do.
  // ---------------------------------------------------------------------------------------

  /** Nothing holds the lane up, nothing new is written, and the host answers word by word. */
  predicate Up(e: Edge) {
    && e.write.None? && e.seenDesc && e.seenBeat && !e.reqPause && !e.outPause && e.txReady && e.doneAck
    && e.deliver && e.answer == 1
  }

  /** The lane has nothing to do. */
  predicate Idle(r: RegType, queue: seq<Raw>) {
    r.state.IdleS? && queue == []
  }

  /** The words that queued descriptors ask for. */
  function Bulk(queue: seq<Raw>): nat {
    if queue == [] then 0 else Split(queue[0]).length + Bulk(queue[1..])
  }

  /** The cycles that the words in flight are worth: fewer the further they have come. */
  function Load(f: Flight): nat {
    if FlightOk(f) then
      |Unread(f)| + 2 * |Payload(f.cur)| + 3 * Total(f.waiting) + 4 * (if f.tx.Some? then f.tx.value.length else 0)
    else 0
  }

  /** The cycles that the state of the requester is worth. */
  function Steps(r: RegType): nat {
    match r.state
    case IdleS => if r.newReq then 0 else 1
    case SendIoReqHdrS => 1
    case CheckThreshS => 2
    case TrDoneS => 2
    case CheckLengthS => 3
    case CalcPipelineDlyS => if r.cnt < 16 then 19 - r.cnt else 4
  }

  /** The cycles that queued descriptors and words not yet requested are worth. */
  function Owed(q: FifoReg, queue: seq<Raw>, r: RegType): int {
    23 * (Bulk(queue) + r.reqLength) + 4 * |queue| - (if q.newAck then 1 else 0) + Steps(r)
  }

  function Work(q: FifoReg, queue: seq<Raw>, r: RegType, f: Flight): int {
    Owed(q, queue, r) + Load(f)
  }

  /** The requester waits for words in flight. */
  predicate Stalls(r: RegType, p: Peer) {
    || (r.state.CheckThreshS? && r.pendLength >= THRESHOLD)
    || (r.state.CheckLengthS? && !p.done && r.reqLength == 0)
  }

  lemma StallsOnWords(r: RegType, p: Peer)
    requires Control(r, p) && Stalls(r, p)
    ensures p.collecting && r.reqLength < p.rem
  {
  }

  /** What leaves the queue and the requester in a cycle: n words are requested. */
  lemma Paced(a: DescQueue, b: DescQueue, m: Requester, m': Requester, s: Passage, p: Peer, n: nat)
    requires Control(m.r, p) && Handshake(a.q, a.queue, m.r.state.IdleS?, m.r.newReq) && !Idle(m.r, a.queue)
    requires Passes(m, m', s) && Moves(m.r, s.i, p, m'.r)
    requires s.i.newAck == a.q.newAck && s.i.desc == a.q.desc && s.i.txReady && s.i.doneAck && !s.i.pause
    requires b.queue == if a.q.newAck then a.queue[1..] else a.queue
    requires a.q.state.IdleS? && m.r.newReq && a.queue != [] ==> b.q.newAck
    requires n == if m.r.state.SendIoReqHdrS? then m.r.tranLength else 0
    ensures Owed(b.q, b.queue, m'.r) + 4 * n <= Owed(a.q, a.queue, m.r) - (if Stalls(m.r, p) then 0 else 1)
  {
    hide Split, Header, Going, Recent, PeerMove;
    if m.r.state.IdleS? && a.q.newAck {
      assert Bulk(a.queue) == Split(a.queue[0]).length + Bulk(a.queue[1..]);
    }
  }

  /** A word taken, or a request accepted, is worth its progress. */
  lemma TakeLoad(f: Flight, took: bool, f1: Flight)
    requires FlightOk(f) && (took ==> f.fifo != []) && f1 == Accepted(if took then Taken(f) else f, true)
    ensures FlightOk(f1) && f1.cur == f.cur && f1.tx == None && |f1.waiting| >= |f.waiting|
    ensures Load(f1) + (if took then 1 else 0) + (if f.tx.Some? then 1 else 0) <= Load(f)
  {
    hide Payload, HeadWord, NextIdx, Unread;
    if took {
      TakenUnread(f);
    }
    if f.tx.Some? {
      TotalConcat(f.waiting, [Span(f.tx.value.addr, f.tx.value.length)]);
      assert Total([Span(f.tx.value.addr, f.tx.value.length)]) == f.tx.value.length by {
        TotalOne(Span(f.tx.value.addr, f.tx.value.length));
      }
      var g := if took then Taken(f) else f;
      SameUnread(g, f1);
    }
  }

  lemma TotalOne(s: Span)
    ensures Total([s]) == s.length
  {
    assert [s][1..] == [];
  }

  lemma SameUnread(f: Flight, g: Flight)
    requires FlightOk(f) && FlightOk(g) && f.fifo == g.fifo && f.idx == g.idx
    ensures Unread(f) == Unread(g)
  {
  }

  /** A beat delivered is worth its progress. */
  lemma DeliverLoad(f: Flight)
    requires FlightOk(f) && FlightOk(Delivered(f, true))
    ensures Load(Delivered(f, true)) + (if f.cur != [] then 1 else 0) <= Load(f)
  {
    hide Completion, Words;
    if f.cur != [] {
      PayloadPush(f.fifo, f.cur[0]);
      assert Payload(f.cur) == Words(f.cur[0]) + Payload(f.cur[1..]);
      IdxShort(f);
    }
  }

  /** A word answered is worth its progress. */
  lemma ReplyLoad(mem: Memory, f: Flight, hdr: Lanes)
    requires FlightOk(f) && FlightOk(Replied(mem, f, 1, hdr))
    ensures Load(Replied(mem, f, 1, hdr)) + (if f.cur == [] && f.waiting != [] then 1 else 0) <= Load(f)
  {
    hide Completion, Words;
    if f.cur == [] && f.waiting != [] {
      var s := f.waiting[0];
      CompletionPayload(hdr, Slice(mem, s.addr, 1));
      SameUnread(f, Replied(mem, f, 1, hdr));
      TotalRest(f.waiting);
    }
  }

  lemma HostLoad(mem: Memory, f: Flight, e: Edge)
    requires FlightOk(f) && FlightOk(Delivered(f, true)) && FlightOk(HostMoves(mem, f, e)) && e.deliver && e.answer == 1
    ensures Load(HostMoves(mem, f, e)) + (if f.cur != [] || f.waiting != [] then 1 else 0) <= Load(f)
  {
    hide Load, FlightOk, Arrived, Answered;
    DeliverLoad(f);
    ReplyLoad(mem, Delivered(f, true), e.hdr);
  }

  lemma TotalRest(ss: seq<Span>)
    requires ss != [] && ss[0].length > 0
    ensures var s := ss[0];
            Total((if s.length == 1 then [] else [Span(s.addr + 1, s.length - 1)]) + ss[1..]) == Total(ss) - 1
  {
    var s := ss[0];
    if s.length == 1 {
      assert [] + ss[1..] == ss[1..];
    } else {
      assert ([Span(s.addr + 1, s.length - 1)] + ss[1..])[1..] == ss[1..];
    }
  }

  /** Words in flight are somewhere. */
  lemma SomewhereLoaded(mem: Memory, f: Flight, addr: nat, n: nat)
    requires Carries(mem, f, addr, n) && n > 0
    ensures f.fifo != [] || f.cur != [] || f.waiting != [] || f.tx.Some?
  {
  }

  lemma {:induction false} GatherTotal(mem: Memory, ss: seq<Span>)
    ensures |Gather(mem, ss)| == Total(ss)
  {
    if ss == [] {
    } else {
      GatherTotal(mem, ss[1..]);
    }
  }

  lemma LoadBound(mem: Memory, f: Flight, addr: nat, n: nat)
    requires Carries(mem, f, addr, n)
    ensures Load(f) <= 4 * n
  {
    hide Payload, Gather, Slice, Unread, Total;
    GatherTotal(mem, f.waiting);
    assert |InFlight(mem, f)| == n;
  }

  /** The words in flight in the course of a cycle: at its start, after collector and host have taken theirs, with the
      new request, and at its end. */
  datatype Journey = Journey(f0: Flight, f1: Flight, f2: Flight, f3: Flight)

  ghost predicate Travels(mem: Memory, j: Journey, took: bool, tx: Option<ReadHdr>, e: Edge) {
    && (took ==> j.f0.fifo != []) && j.f1 == Accepted(if took then Taken(j.f0) else j.f0, e.txReady)
    && j.f2 == j.f1.(tx := tx) && j.f3 == HostMoves(mem, j.f2, e)
    && FlightOk(j.f2) && FlightOk(Delivered(j.f2, e.deliver)) && FlightOk(j.f3)
  }

  /** The words in flight come closer in a cycle: n words are requested. */
  lemma Flows(mem: Memory, r: RegType, ds: seq<TxDesc>, c: ColReg, j: Journey, tx: Option<ReadHdr>, e: Edge, n: nat)
    requires FlightInv(mem, r, ds, c, j.f0) && Travels(mem, j, c.state.CollectS? && j.f0.fifo != [], tx, e)
    requires e.txReady && e.deliver && e.answer == 1 && n == if tx.Some? then tx.value.length else 0
    ensures Load(j.f3) <= Load(j.f0) + 4 * n - (if c.state.CollectS? && r.reqLength < c.remLength then 1 else 0)
  {
    hide HeadSof, Payload, Gather, Slice, Total, HostMoves, FlightOk, Unread, Taken;
    if c.state.CollectS? && r.reqLength < c.remLength {
      SomewhereLoaded(mem, j.f0, ds[|ds| - 1].addr + (r.newLength - c.remLength), c.remLength - r.reqLength);
    }
    FlightFine(mem, r, ds, c, j.f0);
    TakeLoad(j.f0, c.state.CollectS? && j.f0.fifo != [], j.f1);
    SameUnread(j.f1, j.f2);
    HostLoad(mem, j.f2, e);
  }

  lemma WorkDone(mem: Memory, a: DescQueue, b: DescQueue, m: Requester, m': Requester, s: Passage, c: ColReg,
                 j: Journey, e: Edge)
    requires Control(m.r, PeerOf(c)) && Handshake(a.q, a.queue, m.r.state.IdleS?, m.r.newReq)
    requires FlightInv(mem, m.r, m.h.descs, c, j.f0) && Passes(m, m', s) && Moves(m.r, s.i, PeerOf(c), m'.r)
    requires s.i == Inputs(a.q.newAck, a.q.desc, e.doneAck, e.reqPause, e.txReady, e.reqId, e.tag)
    requires b.queue == (if a.q.newAck then a.queue[1..] else a.queue) + Opt(e.write)
    requires a.q.state.IdleS? && m.r.newReq && e.seenDesc && a.queue != [] ==> b.q.newAck
    requires Travels(mem, j, c.state.CollectS? && e.seenBeat && j.f0.fifo != [] && !e.outPause, m'.r.tx, e)
    ensures Up(e) && !Idle(m.r, a.queue) ==> Work(b.q, b.queue, m'.r, j.f3) < Work(a.q, a.queue, m.r, j.f0)
  {
    hide Control, FlightInv, Owed, Load, Travels, Idle, Stalls, Moves;
    if Up(e) && !Idle(m.r, a.queue) {
      var n := if m.r.state.SendIoReqHdrS? then m.r.tranLength else 0;
      assert b.queue == if a.q.newAck then a.queue[1..] else a.queue;
      Paced(a, b, m, m', s, PeerOf(c), n);
      Flows(mem, m.r, m.h.descs, c, j, m'.r.tx, e, n);
      if Stalls(m.r, PeerOf(c)) {
        StallsOnWords(m.r, PeerOf(c));
      }
    }
  }

  /** The collector's part of an edge: it may take a word from the head beat, and the host may take the request
      in the requester's output register. */
  method Collects(mem: Memory, m: PciTxDmaMemReq, d: PciTxDma, f: Flight, e: Edge)
    returns (f': Flight, word: Option<TxWord>)
    requires m.Valid(PeerOf(d.c)) && Written(mem, d.c, m.r.start, m.h.descs, d.out)
    requires FlightInv(mem, m.r, m.h.descs, d.c, f) && f.idx == d.c.idx && f.tx == m.r.tx
    modifies d
    ensures Written(mem, d.c, false, m.h.descs, d.out) && PeerMove(m.r, PeerOf(old(d.c)), PeerOf(d.c))
    ensures FlightInv(mem, m.r, m.h.descs, d.c, f') && f'.idx == d.c.idx && f'.tx == if e.txReady then None else m.r.tx
    ensures d.out == old(d.out) + Opt(word) && word == d.c.tx
    ensures word.Some? == (old(d.c.state.CollectS?) && e.seenBeat && f.fifo != [] && !e.outPause)
    ensures f' == Accepted(if word.Some? then Taken(f) else f, e.txReady)
  {
    hide Written, Control, Kept, FlightInv, Current, PeerMove, HeadSof, HeadWord, Wrap, NextIdx, Carries;
    ghost var c := d.c;
    Ready(m.r, m.h, c);
    SeesHead(mem, m.r, m.h.descs, c, f);
    var head := if e.seenBeat && f.fifo != [] then Some(f.fifo[0]) else None;
    var ready := d.Step(m.r, head, e.outPause, mem, m.h.descs);
    var f1 := f.(idx := d.c.idx, fifo := if ready && head.Some? then f.fifo[1..] else f.fifo);
    ghost var took := d.c.tx.Some?;
    assert f1 == if took then Taken(f) else f;
    CollectorMoves(mem, m.r, m.h.descs, c, d.c, f, took);
    HostAccepts(mem, m.r, m.h.descs, d.c, f1, e.txReady);
    f' := Accepted(f1, e.txReady);
    word := d.c.tx;
  }

  function Opt<T>(o: Option<T>): (s: seq<T>) {
    if o.Some? then [o.value] else []
  }

  /** One edge of pciClk for the whole lane: what it takes, passes on, writes and reports. passed holds the requests the
      host has taken so far. */
  method Clock(mem: Memory, q: PciTxDescFifo, m: PciTxDmaMemReq, d: PciTxDma, f: Flight, e: Edge,
               ghost passed: seq<ReadHdr>)
    returns (f': Flight, granted: Option<TxDesc>, request: Option<ReadHdr>, word: Option<TxWord>, report: Option<nat>)
    requires LaneInv(mem, q, m, d, f) && m.h.reqs == passed + Opt(m.r.tx)
    requires e.write.Some? ==> DescOk(Split(e.write.value))
    modifies q, m, d
    ensures LaneInv(mem, q, m, d, f')
    ensures q.writes == old(q.writes) + Opt(e.write)
    ensures m.h.descs == old(m.h.descs) + Opt(granted) && m.h.reports == old(m.h.reports) + Opt(report)
    ensures m.h.reqs == passed + Opt(request) + Opt(m.r.tx) && (request.Some? ==> e.txReady && request == old(m.r.tx))
    ensures d.out == old(d.out) + Opt(word) && word == d.c.tx
    ensures OneMore(old(m.h.reqs), m.h.reqs, e)
    ensures Up(e) && !Idle(old(m.r), old(q.queue)) ==>
              Work(q.r, q.queue, m.r, f') < Work(old(q.r), old(q.queue), old(m.r), f)
  {
    hide Written, Control, Kept, FlightInv, Current, DescOk, Split, PeerMove, HostMoves, Handshake, Stepped, QueueInv,
      Opt, Moves, Work, Idle, Up, Taken, Accepted, FlightOk, Delivered, OneMore;
    OptFacts<Raw>(e.write);
    ghost var c, before, m0 := d.c, DescQueue(q.r, q.queue, q.writes, q.pops), Requester(m.r, m.h);
    Ready(m.r, m.h, c);
    AckOk(q.r, q.queue, q.writes, q.pops, m.r, m.h.descs);
    var i := Inputs(q.r.newAck, q.r.desc, e.doneAck, e.reqPause, e.txReady, e.reqId, e.tag);
    granted := if q.r.newAck then Some(q.r.desc) else None;
    var peer := PeerOf(d.c);
    q.Step(m.r.newReq, e.seenDesc, e.write, m.r.state.IdleS?);
    var f1;
    f1, word := Collects(mem, m, d, f, e);
    request, report := m.Step(i, peer, PeerOf(d.c));
    ghost var after, m1 := DescQueue(q.r, q.queue, q.writes, q.pops), Requester(m.r, m.h);
    ghost var s := Passage(i, request, report);
    RequesterMoves(mem, m0, m1, s, peer, d.c, f1);
    StillWritten(mem, d.c, m0, m1, s, peer, d.out);
    var f2 := f1.(tx := m.r.tx);
    HostKeeps(mem, m.r, m.h.descs, d.c, f2, e);
    f' := HostMoves(mem, f2, e);
    FlightFine(mem, m.r, m.h.descs, d.c, f2);
    FlightFine(mem, m.r, m.h.descs, d.c, Delivered(f2, e.deliver));
    FlightFine(mem, m.r, m.h.descs, d.c, f');
    WorkDone(mem, before, after, m0, m1, s, c, Journey(f, f1, f2, f'), e);
    Ready(m.r, m.h, d.c);
    Handed(before, after, e.write, m0, m1, s);
    Recorded(m0, m1, s, passed);
    Composes(m0, m1, s, e);
  }

  /** At most one request is composed at an edge, with the requester and the tag that are on the lines then. */
  predicate OneMore(reqs: seq<ReadHdr>, reqs': seq<ReadHdr>, e: Edge) {
    reqs' == reqs || (|reqs'| > 0 && reqs' == reqs + [reqs'[|reqs'| - 1]] && reqs'[|reqs'| - 1].reqId == e.reqId
                      && reqs'[|reqs'| - 1].tag == e.tag)
  }

  lemma Composes(a: Requester, b: Requester, s: Passage, e: Edge)
    requires Passes(a, b, s) && s.i.reqId == e.reqId && s.i.tag == e.tag
    ensures OneMore(a.h.reqs, b.h.reqs, e)
  {
  }

  /** Request k was composed at edge at[k]. */
  ghost predicate ComposedAt(edges: seq<Edge>, at: seq<nat>, reqs: seq<ReadHdr>) {
    && |at| == |reqs| && (forall j, k :: 0 <= j < k < |at| ==> at[j] < at[k])
    && forall k :: 0 <= k < |at| ==>
         at[k] < |edges| && edges[at[k]].reqId == reqs[k].reqId && edges[at[k]].tag == reqs[k].tag
  }

  /** Every request carries the requester and the tag of an edge of its own. */
  ghost predicate Tagged(edges: seq<Edge>, reqs: seq<ReadHdr>) {
    exists at :: ComposedAt(edges, at, reqs)
  }

  lemma TaggedNext(edges: seq<Edge>, reqs: seq<ReadHdr>, e: Edge, reqs': seq<ReadHdr>)
    requires Tagged(edges, reqs) && OneMore(reqs, reqs', e)
    ensures Tagged(edges + [e], reqs')
  {
    var at: seq<nat> :| ComposedAt(edges, at, reqs);
    var es: seq<Edge>, more: seq<nat> := edges + [e], [|edges|];
    if reqs' == reqs {
      assert ComposedAt(es, at, reqs');
    } else {
      var now := at + more;
      forall k | 0 <= k < |now|
        ensures now[k] < |es| && es[now[k]].reqId == reqs'[k].reqId && es[now[k]].tag == reqs'[k].tag
      {
        if k < |at| {
          assert es[at[k]] == edges[at[k]];
        }
      }
      assert ComposedAt(es, now, reqs');
    }
  }

  lemma TaggedNone()
    ensures Tagged([], [])
  {
    assert ComposedAt([], [], []);
  }

  /** With constant lines, all requests carry their values. */
  lemma OneTag(edges: seq<Edge>, reqs: seq<ReadHdr>, reqId: nat, tag: nat)
    requires Tagged(edges, reqs) && forall k :: 0 <= k < |edges| ==> edges[k].reqId == reqId && edges[k].tag == tag
    ensures forall k :: 0 <= k < |reqs| ==> reqs[k].reqId == reqId && reqs[k].tag == tag
  {
    var at :| ComposedAt(edges, at, reqs);
    assert forall k :: 0 <= k < |reqs| ==> edges[at[k]].reqId == reqId && edges[at[k]].tag == tag;
  }

  lemma FlightFine(mem: Memory, r: RegType, ds: seq<TxDesc>, c: ColReg, f: Flight)
    requires FlightInv(mem, r, ds, c, f)
    ensures FlightOk(f)
  {
    hide FlightOk;
  }

  lemma OptFacts<T>(o: Option<T>)
    ensures Opt(o) == if o.Some? then [o.value] else []
  {
  }

  lemma Recorded(a: Requester, b: Requester, s: Passage, passed: seq<ReadHdr>)
    requires Passes(a, b, s) && (s.i.newAck ==> a.r.state.IdleS?) && a.h.reqs == passed + Opt(a.r.tx)
    ensures b.h.descs == a.h.descs + Opt(if s.i.newAck then Some(s.i.desc) else None)
    ensures b.h.reports == a.h.reports + Opt(s.report)
    ensures b.h.reqs == passed + Opt(s.tx) + Opt(b.r.tx) && (s.tx.Some? ==> s.i.txReady && s.tx == a.r.tx)
  {
    hide Header;
  }

  // ---------------------------------------------------------------------------------------
  // Counting words
  // ---------------------------------------------------------------------------------------

  /** The number of words that some requests ask for. */
  function Total(ss: seq<Span>): nat {
    if ss == [] then 0 else ss[0].length + Total(ss[1..])
  }

  function Lengths(ds: seq<TxDesc>): nat {
    if ds == [] then 0 else Lengths(ds[..|ds| - 1]) + ds[|ds| - 1].length
  }

  lemma {:induction false} TotalConcat(a: seq<Span>, b: seq<Span>)
    ensures Total(a + b) == Total(a) + Total(b)
  {
    if a == [] {
      assert a + b == b;
    } else {
      TotalConcat(a[1..], b);
      assert (a + b)[1..] == a[1..] + b;
    }
  }

  lemma {:induction false} TotalChunks(addr: nat, length: nat)
    ensures Total(Chunks(addr, length)) == length
    decreases length
  {
    if length == 0 {
    } else {
      var n := Least(length, MAX_TX_TRANS);
      ChunksFirst(addr, length);
      TotalChunks(Wrap(addr + n), length - n);
      assert Chunks(addr, length)[1..] == Chunks(Wrap(addr + n), length - n);
    }
  }

  lemma {:induction false} TotalAll(mem: Memory, ds: seq<TxDesc>)
    ensures Total(AllChunks(ds)) == Lengths(ds) == |Output(mem, ds)|
  {
    if ds == [] {
    } else {
      var n := |ds| - 1;
      TotalAll(mem, ds[..n]);
      TotalChunks(ds[n].addr, ds[n].length);
      TotalConcat(AllChunks(ds[..n]), Chunks(ds[n].addr, ds[n].length));
    }
  }

  /** Requested and not yet written words, counted over the whole history, are at most 383. */
  lemma Outstanding(mem: Memory, r: RegType, h: History, c: ColReg, out: seq<TxWord>)
    requires Control(r, PeerOf(c)) && Kept(r, h) && Written(mem, c, r.start, h.descs, out)
    ensures |out| <= Total(Spans(h.reqs)) <= |out| + 383
  {
    hide Output, Spans, Chunks, AllChunks, Starts, Wrap, Recent;
    var ds := h.descs;
    TotalConcat(Spans(h.reqs), Chunks(r.newAddr, r.reqLength));
    TotalChunks(r.newAddr, r.reqLength);
    TotalAll(mem, ds);
    if ds != [] {
      TotalAll(mem, ds[..|ds| - 1]);
    }
    Ready(r, h, c);
  }

  /** The reported descriptors are written completely, and nothing beyond the descriptors taken is written. */
  lemma Between(mem: Memory, r: RegType, h: History, c: ColReg, out: seq<TxWord>)
    requires Control(r, PeerOf(c)) && Kept(r, h) && Written(mem, c, r.start, h.descs, out)
    ensures |h.descs| - 1 <= |h.reports| <= |h.descs| && (r.state.IdleS? ==> |h.reports| == |h.descs|)
    ensures Output(mem, h.descs[..|h.reports|]) <= out <= Output(mem, h.descs)
    ensures Spans(h.reqs) <= AllChunks(h.descs)
    ensures r.state.IdleS? ==> out == Output(mem, h.descs) && Spans(h.reqs) == AllChunks(h.descs)
  {
    hide Part, Spans, Chunks, AllChunks, Starts, Wrap, Recent;
    var ds := h.descs;
    assert ds[..|ds|] == ds;
    if !r.state.IdleS? && c.state.CollectS? {
      var d := ds[|ds| - 1];
      PartPrefix(mem, d, Starts(ds[..|ds| - 1]), d.length - c.remLength, d.length);
    }
  }

  function Writes(es: seq<Edge>): seq<Raw> {
    if es == [] then []
    else
      Writes(es[..|es| - 1]) + if es[|es| - 1].write.Some? then [es[|es| - 1].write.value] else []
  }

  lemma WritesPush(es: seq<Edge>, n: nat)
    requires n < |es|
    ensures Writes(es[..n + 1]) == Writes(es[..n]) + Opt(es[n].write)
  {
    assert es[..n + 1][..n] == es[..n];
  }

  method NewLane(mem: Memory) returns (q: PciTxDescFifo, m: PciTxDmaMemReq, d: PciTxDma, f: Flight)
    ensures fresh(q) && fresh(m) && fresh(d) && LaneInv(mem, q, m, d, f) && q.writes == [] && m.h == History([], [], [])
    ensures m.r.tx == None && d.out == []
  {
    q := new PciTxDescFifo();
    m := new PciTxDmaMemReq();
    d := new PciTxDma();
    f := Flight([], 0, [], [], None);
  }

  /** What a run has shown to the outside: descriptors taken, requests passed on, words written, and reports. */
  datatype Log = Log(descs: seq<TxDesc>, reqs: seq<ReadHdr>, out: seq<TxWord>, reports: seq<nat>)

  ghost predicate Running(mem: Memory, q: PciTxDescFifo, m: PciTxDmaMemReq, d: PciTxDma, f: Flight, edges: seq<Edge>,
                          g: Log)
    reads q, m, d
  {
    && LaneInv(mem, q, m, d, f)
    && q.writes == Writes(edges) && m.h.reports == g.reports && m.h.descs == g.descs
    && m.h.reqs == g.reqs + Opt(m.r.tx) && d.out == g.out && Tagged(edges, m.h.reqs)
  }

  /** One more edge of a run. */
  method OneEdge(mem: Memory, q: PciTxDescFifo, m: PciTxDmaMemReq, d: PciTxDma, f: Flight, edges: seq<Edge>, g: Log,
                 e: Edge)
    returns (edges': seq<Edge>, f': Flight, g': Log)
    requires Running(mem, q, m, d, f, edges, g) && (e.write.Some? ==> DescOk(Split(e.write.value)))
    modifies q, m, d
    ensures edges' == edges + [e] && Running(mem, q, m, d, f', edges', g')
    ensures Up(e) && !Idle(old(m.r), old(q.queue)) ==>
              Work(q.r, q.queue, m.r, f') < Work(old(q.r), old(q.queue), old(m.r), f)
  {
    hide LaneInv, DescOk, Split, Up, Idle, Work, Writes, Tagged, OneMore;
    ghost var reqs := m.h.reqs;
    edges' := edges + [e];
    WritesPush(edges', |edges|);
    assert edges'[..|edges|] == edges && edges'[..|edges| + 1] == edges';
    var granted, request, word, report;
    f', granted, request, word, report := Clock(mem, q, m, d, f, e, g.reqs);
    TaggedNext(edges, reqs, e, m.h.reqs);
    g' := Log(g.descs + Opt(granted), g.reqs + Opt(request), g.out + Opt(word), g.reports + Opt(report));
  }

  ghost predicate EdgesOk(edges: seq<Edge>) {
    forall i :: 0 <= i < |edges| && edges[i].write.Some? ==> DescOk(Split(edges[i].write.value))
  }

  /** A run from reset. */
  method Follow(mem: Memory, edges: seq<Edge>)
    returns (q: PciTxDescFifo, m: PciTxDmaMemReq, d: PciTxDma, f: Flight, g: Log)
    requires EdgesOk(edges)
    ensures fresh(q) && fresh(m) && fresh(d) && Running(mem, q, m, d, f, edges, g)
  {
    hide LaneInv, DescOk, Split, Work, Up, Idle, Tagged;
    q, m, d, f := NewLane(mem);
    g := Log([], [], [], []);
    TaggedNone();
    var done := [];
    for n := 0 to |edges|
      invariant fresh(q) && fresh(m) && fresh(d) && done == edges[..n] && Running(mem, q, m, d, f, done, g)
    {
      done, f, g := OneEdge(mem, q, m, d, f, done, g, edges[n]);
    }
    assert edges[..|edges|] == edges;
  }

  /** Any run of a transmit lane. Descriptors are taken in the order written; the requests, with the one in the output
      register, are those of the descriptors, at most 383 words ahead of the output; the words written are the
      descriptors' memory, complete for every reported descriptor; and if requester and queue are idle nothing is
      missing. */
  method Transmit(mem: Memory, edges: seq<Edge>) returns (g: Log, end: RegType, queue: seq<Raw>)
    requires EdgesOk(edges)
    ensures Truthful(mem, SplitAll(Writes(edges)), g, end.tx) && Tagged(edges, g.reqs + Opt(end.tx))
    ensures Idle(end, queue) ==> Finished(mem, SplitAll(Writes(edges)), g) && end.tx.None?
  {
    hide LaneInv, DescOk, Split, Truthful, Finished, Tagged;
    var q, m, d, f;
    q, m, d, f, g := Follow(mem, edges);
    end, queue := m.r, q.queue;
    Tell(mem, q, m, d, f, edges, g);
  }

  /** A log of a run in which the descriptors all were written, with the request in the output register. */
  ghost predicate Truthful(mem: Memory, all: seq<TxDesc>, g: Log, pending: Option<ReadHdr>) {
    var sent := Spans(g.reqs + Opt(pending));
    && g.descs <= all
    && |g.descs| - 1 <= |g.reports| <= |g.descs|
    && (forall i :: 0 <= i < |g.reports| ==> g.reports[i] == g.descs[i].addr)
    && sent <= AllChunks(g.descs) && (forall i :: 0 <= i < |g.reqs| ==> HdrOk(g.reqs[i]))
    && Output(mem, g.descs[..|g.reports|]) <= g.out <= Output(mem, g.descs)
    && |g.out| <= Total(sent) <= |g.out| + 383
  }

  /** Every descriptor has been read, written and reported. */
  ghost predicate Finished(mem: Memory, all: seq<TxDesc>, g: Log) {
    && g.descs == all
    && |g.reports| == |all| && (forall i :: 0 <= i < |all| ==> g.reports[i] == all[i].addr)
    && g.out == Output(mem, all)
    && Spans(g.reqs) == AllChunks(all)
  }

  lemma Tell(mem: Memory, q: PciTxDescFifo, m: PciTxDmaMemReq, d: PciTxDma, f: Flight, edges: seq<Edge>, g: Log)
    requires Running(mem, q, m, d, f, edges, g)
    ensures Truthful(mem, SplitAll(Writes(edges)), g, m.r.tx)
    ensures Idle(m.r, q.queue) ==> Finished(mem, SplitAll(Writes(edges)), g) && m.r.tx.None?
  {
    hide LaneInv, Written, Control, Kept, HdrOk, Output, Split, Chunks, AllChunks, FlightInv, Total, Tagged;
    Facts(mem, q, m, d, f);
    Popped(q.writes, q.pops, q.queue);
    Between(mem, m.r, m.h, d.c, g.out);
    Outstanding(mem, m.r, m.h, d.c, g.out);
    Sound(m.r, m.h);
    assert forall i :: 0 <= i < |g.reqs| ==> g.reqs[i] == m.h.reqs[i];
    if Idle(m.r, q.queue) {
      NothingSent(mem, m.r, m.h, d.c, f);
      assert g.reqs + Opt(m.r.tx) == g.reqs;
    }
  }

  /** An idle requester has no request in its output register. */
  lemma NothingSent(mem: Memory, r: RegType, h: History, c: ColReg, f: Flight)
    requires Control(r, PeerOf(c)) && FlightInv(mem, r, h.descs, c, f) && r.state.IdleS? && f.tx == r.tx
    ensures r.tx.None?
  {
    hide Carries;
    Landed(mem, f, 0);
  }

  const NO_LANES: Lanes := [ZERO_DW, ZERO_DW, ZERO_DW, ZERO_DW]

  const ALL_UP := Edge(None, true, true, false, false, true, true, 0, 0, true, 1, NO_LANES)

  /** However a run has gone so far, edges that write nothing new, with everything visible and ready and the host
      answering word by word, finish every descriptor: at most 23 for each word, 4 for each descriptor and 19 more. */
  method Deliver(mem: Memory, edges: seq<Edge>) returns (whole: seq<Edge>, g: Log)
    requires EdgesOk(edges)
    ensures edges <= whole && (forall i :: |edges| <= i < |whole| ==> Up(whole[i]))
    ensures |whole| <= |edges| + 23 * Lengths(SplitAll(Writes(edges))) + 4 * |Writes(edges)| + 19
    ensures Finished(mem, SplitAll(Writes(edges)), g)
  {
    hide LaneInv, DescOk, Split, Truthful, Finished, Work, Idle, Writes, Running, Tagged;
    var q, m, d, f;
    q, m, d, f, g := Follow(mem, edges);
    whole := edges;
    WorkAhead(mem, q, m, d, f, edges, g);
    while !Idle(m.r, q.queue)
      invariant fresh(q) && fresh(m) && fresh(d) && Running(mem, q, m, d, f, whole, g) && Writes(whole) == Writes(edges)
      invariant edges <= whole && forall i :: |edges| <= i < |whole| ==> Up(whole[i])
      invariant |whole| + Work(q.r, q.queue, m.r, f)
                <= |edges| + 23 * Lengths(SplitAll(Writes(edges))) + 4 * |Writes(edges)| + 19
      decreases Work(q.r, q.queue, m.r, f)
    {
      WorkLeft(mem, q, m, d, f, whole, g);
      NoWrite(whole, ALL_UP);
      whole, f, g := OneEdge(mem, q, m, d, f, whole, g, ALL_UP);
    }
    Tell(mem, q, m, d, f, whole, g);
    WorkLeft(mem, q, m, d, f, whole, g);
  }

  lemma NoWrite(edges: seq<Edge>, e: Edge)
    requires e.write.None?
    ensures Writes(edges + [e]) == Writes(edges)
  {
    assert (edges + [e])[..|edges|] == edges;
  }

  lemma WorkLeft(mem: Memory, q: PciTxDescFifo, m: PciTxDmaMemReq, d: PciTxDma, f: Flight, edges: seq<Edge>, g: Log)
    requires Running(mem, q, m, d, f, edges, g)
    ensures Work(q.r, q.queue, m.r, f) >= 0
  {
    hide Written, Control, Kept, FlightInv, Load, Split, Bulk, Writes;
  }

  lemma WorkAhead(mem: Memory, q: PciTxDescFifo, m: PciTxDmaMemReq, d: PciTxDma, f: Flight, edges: seq<Edge>, g: Log)
    requires Running(mem, q, m, d, f, edges, g)
    ensures Work(q.r, q.queue, m.r, f) <= 23 * Lengths(SplitAll(Writes(edges))) + 4 * |Writes(edges)| + 19
  {
    hide Written, Control, Kept, FlightInv, Load, Split, Bulk, Writes, Lengths, SplitAll, Spans, Chunks, AllChunks;
    BulkBound(q.writes, q.pops, q.queue);
    Ahead(mem, m.r, m.h, d.c, f);
    hide Steps;
  }

  /** Words to be requested and words in flight belong to the last descriptor taken. */
  lemma Ahead(mem: Memory, r: RegType, h: History, c: ColReg, f: Flight)
    requires Control(r, PeerOf(c)) && Kept(r, h) && FlightInv(mem, r, h.descs, c, f)
    ensures 23 * r.reqLength + Load(f) <= 23 * Lengths(h.descs) && Steps(r) <= 19
  {
    hide Load, Spans, Chunks, AllChunks, Carries;
    if c.state.CollectS? {
      LoadBound(mem, f, h.descs[|h.descs| - 1].addr + (r.newLength - c.remLength), c.remLength - r.reqLength);
    } else {
      LoadBound(mem, f, 0, 0);
    }
  }

  lemma {:induction false} BulkIs(ws: seq<Raw>)
    ensures Bulk(ws) == Lengths(SplitAll(ws))
    decreases |ws|
  {
    hide Split;
    if ws == [] {
    } else {
      LengthsConcat(SplitAll(ws[..1]), SplitAll(ws[1..]));
      SplitConcat(ws[..1], ws[1..]);
      assert ws[..1] + ws[1..] == ws;
      BulkIs(ws[1..]);
      assert SplitAll(ws[..1])[..0] == [];
    }
  }

  lemma {:induction false} LengthsConcat(a: seq<TxDesc>, b: seq<TxDesc>)
    ensures Lengths(a + b) == Lengths(a) + Lengths(b)
  {
    if b == [] {
      assert a + b == a;
    } else {
      var n := |b| - 1;
      LengthsConcat(a, b[..n]);
      assert (a + b)[..|a + b| - 1] == a + b[..n];
    }
  }

  lemma BulkBound(writes: seq<Raw>, pops: seq<Raw>, queue: seq<Raw>)
    requires writes == pops + queue
    ensures Lengths(SplitAll(writes)) == Lengths(SplitAll(pops)) + Bulk(queue) && |queue| <= |writes|
  {
    hide Split, SplitAll, Bulk, Lengths;
    BulkIs(queue);
    LengthsConcat(SplitAll(pops), SplitAll(queue));
    SplitConcat(pops, queue);
  }

  lemma SplitConcat(a: seq<Raw>, b: seq<Raw>)
    ensures SplitAll(a + b) == SplitAll(a) + SplitAll(b)
  {
    hide Split;
  }

  lemma Facts(mem: Memory, q: PciTxDescFifo, m: PciTxDmaMemReq, d: PciTxDma, f: Flight)
    requires LaneInv(mem, q, m, d, f)
    ensures q.writes == q.pops + q.queue && m.h.descs == SplitAll(q.pops)
    ensures FlightInv(mem, m.r, m.h.descs, d.c, f) && f.tx == m.r.tx
    ensures Control(m.r, PeerOf(d.c)) && Kept(m.r, m.h) && Written(mem, d.c, m.r.start, m.h.descs, d.out)
  {
    hide Control, Kept, Written, FlightInv;
  }

  lemma Popped(writes: seq<Raw>, pops: seq<Raw>, queue: seq<Raw>)
    requires writes == pops + queue
    ensures SplitAll(pops) <= SplitAll(writes) && (queue == [] ==> pops == writes)
  {
    hide Split;
    assert SplitAll(writes)[..|pops|] == SplitAll(pops);
  }

  lemma Sound(r: RegType, h: History)
    requires Kept(r, h)
    ensures forall i :: 0 <= i < |h.reqs| ==> HdrOk(h.reqs[i])
    ensures forall i :: 0 <= i < |h.reports| ==> i < |h.descs| && h.reports[i] == h.descs[i].addr
  {
  }
}

/** The register writes that make transmit descriptors, from the driver's words to the fields the lane works with. */
module TxDescWrites {
  import opened AxiStream
  import opened TxReads
  import opened TxDescFifo
  import D = DriverTx
  import Rx = DriverRx

  const LANES := 8

  /** A register write: the descriptor words of lane i are at word addresses i and i + 32. */
  datatype RegWrite = RegWrite(addr: nat, data: nat)

  /** A queue entry for a lane. */
  datatype Push = Push(lane: nat, entry: Raw)

  class PciTxDesc {
    var low: nat                       // the lower half of the word shared by all lanes' queues
    var high: nat

    constructor ()
      ensures low == 0
    {
      low, high := 0, 0;
    }

    method Write(w: RegWrite) returns (push: seq<Push>)
      modifies this
      ensures w.addr < 8 ==> low == w.data && push == []
      ensures 32 <= w.addr < 40 ==> push == [Push(w.addr - 32, Raw(old(low), w.data))] && low == old(low)
      ensures 8 <= w.addr < 32 || 40 <= w.addr ==> push == [] && low == old(low)
    {
      push := [];
      for i := 0 to LANES
        invariant push == if 32 <= w.addr < 32 + i then [Push(w.addr - 32, Raw(low, w.data))] else []
        invariant low == if w.addr < i then w.data else old(low)
      {
        if w.addr == i {
          low, high := w.data, 0;
        }
        if w.addr == i + 32 {
          high := w.data;
          push := push + [Push(i, Raw(low, high))];
        }
      }
    }
  }

  /** The two writes of the driver for each descriptor. */
  function Issued(ps: seq<Push>): (ws: seq<RegWrite>)
    ensures |ws| == 2 * |ps|
  {
    if ps == [] then []
    else
      var p := ps[|ps| - 1];
      Issued(ps[..|ps| - 1]) + [RegWrite(p.lane, p.entry.descA), RegWrite(p.lane + 32, p.entry.descB)]
  }

  lemma {:induction false} IssuedAt(ps: seq<Push>, k: nat)
    requires k < |ps|
    ensures Issued(ps)[2 * k] == RegWrite(ps[k].lane, ps[k].entry.descA)
    ensures Issued(ps)[2 * k + 1] == RegWrite(ps[k].lane + 32, ps[k].entry.descB)
  {
    if k == |ps| - 1 {
    } else {
      IssuedAt(ps[..|ps| - 1], k);
    }
  }

  /** Descriptors written one after the other reach the queues of their lanes unmixed and in order. */
  method WriteAll(ps: seq<Push>) returns (pushed: seq<Push>)
    requires forall i :: 0 <= i < |ps| ==> ps[i].lane < 8
    ensures pushed == ps
  {
    hide Issued;
    var d := new PciTxDesc();
    var ws := Issued(ps);
    pushed := [];
    for k := 0 to |ps|
      invariant fresh(d) && pushed == ps[..k]
    {
      IssuedAt(ps, k);
      var none := d.Write(ws[2 * k]);
      var one := d.Write(ws[2 * k + 1]);
      pushed := pushed + one;
    }
  }

  /** The lane works on the descriptor the driver meant; the top bit of the driver's 3-bit channel is the continue
      flag. */
  lemma DriverFields(tx: D.PgpCardTx, dma: nat)
    requires dma % 4 == 0
    ensures D.DescA(tx) / 0x800_0000 == tx.pgpLane % 32
    ensures Split(Raw(D.DescA(tx), dma))
            == TxDesc(dma / 4, tx.size % 0x100_0000, tx.pgpVc % 8 >= 4, tx.pgpVc % 8 % 4)
  {
    var vc, size := tx.pgpVc % 8, tx.size % 0x100_0000;
    Word(tx);
    hide D.DescA;
    Upper(D.DescA(tx), tx.pgpLane % 32 * 8 + vc, size);
    Fields(tx.pgpLane % 32, vc);
  }

  lemma Word(tx: D.PgpCardTx)
    ensures D.DescA(tx) == (tx.pgpLane % 32 * 8 + tx.pgpVc % 8) * 0x100_0000 + tx.size % 0x100_0000
  {
  }

  lemma Fields(lane: nat, vc: nat)
    requires vc < 8
    ensures var q := lane * 8 + vc; q / 8 == lane && q % 4 == vc % 4 && (q / 4 % 2 == 1 <==> vc >= 4)
  {
    var q, top := lane * 8 + vc, if vc >= 4 then 1 else 0;
    Rx.By8(q, lane, vc);
    Rx.By4(q, lane * 2 + top, vc - top * 4);
    Rx.By4(vc, top, vc - top * 4);
    Rx.By2(lane * 2 + top, lane, top);
  }

  lemma Upper(a: nat, q: nat, size: nat)
    requires a == q * 0x100_0000 + size && size < 0x100_0000
    ensures a % 0x100_0000 == size && a / 0x100_0000 == q && a / 0x400_0000 == q / 4 && a / 0x800_0000 == q / 8
  {
  }
}

/** The receive and the transmit path over the same buffer. */
module Loopback {
  import opened AxiStream
  import opened RxFrames
  import opened RxMemory
  import opened TxReads
  import opened TxCollect

  /** Memory after some writes, in order. */
  function After(mem: Memory, ws: seq<Write>): Memory {
    if ws == [] then mem
    else
      var w := ws[|ws| - 1];
      var before := After(mem, ws[..|ws| - 1]);
      (a: nat) => if a == w.addr then w.data else before(a)
  }

  /** A buffer shorter than the address space keeps every word stored in it. */
  lemma {:induction false} Holds(mem: Memory, f: Frame, base: nat, n: nat, k: nat)
    requires k < n <= |f| <= 0x4000_0000
    ensures After(mem, Stored(f, base)[..n])((base + k) % 0x4000_0000) == Mirrored(base + k, f[k].data).data
  {
    hide After;
    var all := Stored(f, base);
    assert all[..n] == all[..n - 1] + [all[n - 1]];
    AfterPush(mem, all[..n - 1], all[n - 1], (base + k) % 0x4000_0000);
    if k == n - 1 {
    } else {
      Holds(mem, f, base, n - 1, k);
      Distinct(base, k, n - 1);
    }
  }

  lemma AfterPush(mem: Memory, ws: seq<Write>, w: Write, a: nat)
    ensures After(mem, ws + [w])(a) == if a == w.addr then w.data else After(mem, ws)(a)
  {
    assert (ws + [w])[..|ws|] == ws;
  }

  lemma Distinct(base: nat, i: nat, j: nat)
    requires i < j < i + 0x4000_0000
    ensures (base + i) % 0x4000_0000 != (base + j) % 0x4000_0000
  {
    var p, q := (base + i) / 0x4000_0000, (base + j) / 0x4000_0000;
    assert base + i == p * 0x4000_0000 + (base + i) % 0x4000_0000;
    assert base + j == q * 0x4000_0000 + (base + j) % 0x4000_0000;
  }

  /** A received frame, sent from the buffer it was stored in, goes out with the words it came in with. */
  lemma SentBack(mem: Memory, f: Frame, d: TxDesc, starts: bool, k: nat)
    requires |f| == d.length <= 0x4000_0000 && k < d.length
    ensures Part(After(mem, Stored(f, d.addr)), d, starts, d.length)[k].data == f[k].data
  {
    hide After, Stored;
    var ws := Stored(f, d.addr);
    assert ws[..|f|] == ws;
    PartAt(After(mem, ws), d, starts, d.length, k);
    Holds(mem, f, d.addr, |f|, k);
  }
}
