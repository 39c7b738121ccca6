/** The memory as the transmit engine reads it, and how a descriptor is cut into read requests. */
module TxReads {
  import opened AxiStream

  /** Host memory: the 32-bit word at each word address, in PCIe byte order. */
  type Memory = nat -> Dw

  /** Some consecutive words of memory. */
  datatype Span = Span(addr: nat, length: nat)

  /** The words of a span, in address order; addresses wrap at 30 bits. */
  function Slice(mem: Memory, addr: nat, n: nat): (ws: seq<Dw>)
    ensures |ws| == n
    decreases n
  {
    if n == 0 then [] else [mem(addr % 0x4000_0000)] + Slice(mem, addr + 1, n - 1)
  }

  lemma {:induction false} SliceAt(mem: Memory, addr: nat, n: nat, k: nat)
    requires k < n
    ensures Slice(mem, addr, n)[k] == mem((addr + k) % 0x4000_0000)
    decreases n
  {
    if k == 0 {
    } else {
      SliceAt(mem, addr + 1, n - 1, k - 1);
    }
  }

  lemma SliceSplit(mem: Memory, addr: nat, m: nat, n: nat)
    ensures Slice(mem, addr, m + n) == Slice(mem, addr, m) + Slice(mem, addr + m, n)
  {
    var all, parts := Slice(mem, addr, m + n), Slice(mem, addr, m) + Slice(mem, addr + m, n);
    forall k | 0 <= k < m + n
      ensures all[k] == parts[k]
    {
      SliceAt(mem, addr, m + n, k);
      if k < m {
        SliceAt(mem, addr, m, k);
      } else {
        SliceAt(mem, addr + m, n, k - m);
      }
    }
  }

  lemma SliceWrap(mem: Memory, addr: nat, n: nat)
    ensures Slice(mem, Wrap(addr), n) == Slice(mem, addr, n)
  {
    forall k | 0 <= k < n
      ensures Slice(mem, Wrap(addr), n)[k] == Slice(mem, addr, n)[k]
    {
      SliceAt(mem, Wrap(addr), n, k);
      SliceAt(mem, addr, n, k);
      WrapTwice(addr);
      WrapAdd(Wrap(addr), addr, k);
    }
  }

  /** The words of several spans. */
  function Gather(mem: Memory, ss: seq<Span>): (ws: seq<Dw>) {
    if ss == [] then [] else Slice(mem, ss[0].addr, ss[0].length) + Gather(mem, ss[1..])
  }

  lemma {:induction false} GatherPush(mem: Memory, ss: seq<Span>, s: Span)
    ensures Gather(mem, ss + [s]) == Gather(mem, ss) + Slice(mem, s.addr, s.length)
  {
    hide Slice;
    var all, last := ss + [s], Slice(mem, s.addr, s.length);
    if ss == [] {
      assert all[0] == s && all[1..] == [];
    } else {
      GatherPush(mem, ss[1..], s);
      assert all[0] == ss[0] && all[1..] == ss[1..] + [s];
      var first, rest := Slice(mem, ss[0].addr, ss[0].length), Gather(mem, ss[1..]);
      assert first + (rest + last) == (first + rest) + last;
    }
  }

  function Least(a: nat, b: nat): nat {
    if a < b then a else b
  }

  /** The requests for length words from addr: as many full ones as fit, then the rest. */
  function Chunks(addr: nat, length: nat): (ss: seq<Span>)
    ensures length == 0 ==> ss == []
    decreases length
  {
    if length == 0 then []
    else
      var n := Least(length, 256);
      [Span(addr, n)] + Chunks((addr + n) % 0x4000_0000, length - n)
  }

  /** On a 1 KB boundary. */
  predicate TxAligned(addr: nat) {
    addr % 256 == 0
  }

  /** Within a 4 KB page. */
  predicate InPage(s: Span) {
    s.addr % 1024 + s.length <= 1024
  }

  lemma TxAlignedNext(addr: nat)
    requires TxAligned(addr)
    ensures TxAligned(Wrap(addr + MAX_TX_TRANS))
  {
  }

  lemma TxAlignedInPage(s: Span)
    requires TxAligned(s.addr) && s.length <= MAX_TX_TRANS
    ensures InPage(s)
  {
  }

  /** One full or final request and the requests after it. */
  lemma ChunksFirst(addr: nat, length: nat)
    requires length > 0
    ensures var n := Least(length, MAX_TX_TRANS);
            Chunks(addr, length) == [Span(addr, n)] + Chunks(Wrap(addr + n), length - n)
  {
  }

  /** The requests read exactly the wanted words, in order, in pieces of 1 to 256 words; from a 1 KB boundary on,
      none of them crosses a 4 KB boundary. */
  lemma {:induction false} ChunksPartition(mem: Memory, addr: nat, length: nat)
    ensures Gather(mem, Chunks(addr, length)) == Slice(mem, addr, length)
    ensures forall i :: 0 <= i < |Chunks(addr, length)| ==> 1 <= Chunks(addr, length)[i].length <= 256
    ensures TxAligned(addr) ==> forall i :: 0 <= i < |Chunks(addr, length)| ==> InPage(Chunks(addr, length)[i])
    decreases length
  {
    hide Wrap, TxAligned, InPage, Slice, Chunks;
    if length == 0 {
      assert Slice(mem, addr, length) == [] == Gather(mem, []);
    } else {
      var n := Least(length, MAX_TX_TRANS);
      ChunksFirst(addr, length);
      ChunksPartition(mem, Wrap(addr + n), length - n);
      SliceSplit(mem, addr, n, length - n);
      SliceWrap(mem, addr + n, length - n);
      var rest := Chunks(Wrap(addr + n), length - n);
      assert Chunks(addr, length)[1..] == rest;
      if TxAligned(addr) {
        TxAlignedInPage(Span(addr, n));
        TxAlignedNext(addr);
      }
    }
  }

  /** A transmit descriptor: the control byte is split into the continue flag and the destination. */
  datatype TxDesc = TxDesc(addr: nat, length: nat, contEn: bool, dest: nat)

  function AllChunks(ds: seq<TxDesc>): seq<Span> {
    if ds == [] then [] else AllChunks(ds[..|ds| - 1]) + Chunks(ds[|ds| - 1].addr, ds[|ds| - 1].length)
  }

  lemma AllChunksPush(ds: seq<TxDesc>, d: TxDesc)
    ensures AllChunks(ds + [d]) == AllChunks(ds) + Chunks(d.addr, d.length)
  {
    assert (ds + [d])[..|ds|] == ds;
  }
}

/** The memory requester: one descriptor at a time, with a bound on the words requested but not yet collected. */
module TxMemReq {
  import opened AxiStream
  import opened TxReads

  const LENGTH_SPACE := 0x100_0000

  /** The threshold below which the next request may go out. */
  const THRESHOLD := MAX_TX_TRANS / 2

  /** At most this many words are requested and not yet collected. */
  const MAX_OUTSTANDING := THRESHOLD - 1 + MAX_TX_TRANS

  /** A 3-DW memory read request. */
  datatype ReadHdr = ReadHdr(addr: nat, length: nat, firstBe: nat, lastBe: nat, reqId: nat, tag: nat)

  datatype StateType = IdleS | CheckThreshS | SendIoReqHdrS | CalcPipelineDlyS | CheckLengthS | TrDoneS

  datatype RegType = RegType(
    start: bool, cnt: nat, contEn: bool, dest: nat, tranLength: nat, newLength: nat, pendLength: nat, reqLength: nat,
    newAddr: nat, newReq: bool, doneReq: bool, doneAddr: nat, tx: Option<ReadHdr>, state: StateType)

  const REG_INIT := RegType(false, 0, false, 0, 0, 0, 0, 0, 0, false, false, 0, None, IdleS)

  /** What the requester sees of the collector: its state, its done strobe and its remaining length. */
  datatype Peer = Peer(collecting: bool, done: bool, rem: nat)

  /** The inputs of one cycle. */
  datatype Inputs = Inputs(newAck: bool, desc: TxDesc, doneAck: bool, pause: bool, txReady: bool, reqId: nat, tag: nat)

  /** 24-bit subtraction. */
  function Sub24(a: nat, b: nat): (d: nat)
    requires a < LENGTH_SPACE && b < LENGTH_SPACE
    ensures d < LENGTH_SPACE && (b <= a ==> d == a - b)
  {
    (a - b) % LENGTH_SPACE
  }

  // ---------------------------------------------------------------------------------------
  // Flow control
  // ---------------------------------------------------------------------------------------

  predicate Resting(r: RegType, p: Peer) {
    !r.start && p == Peer(false, false, 0) && r.reqLength == 0
  }

  /** Between start and the done strobe. */
  predicate Going(r: RegType, p: Peer) {
    && !r.start
    && r.reqLength <= p.rem <= r.reqLength + MAX_OUTSTANDING
    && (if p.collecting then p.rem > 0 && !p.done else p.rem == 0 && p.done)
  }

  /** The registered difference is at most one word too large. */
  predicate Recent(r: RegType, p: Peer) {
    p.rem <= r.reqLength + r.pendLength <= p.rem + 1
  }

  predicate Control(r: RegType, p: Peer) {
    && p.rem <= r.newLength < LENGTH_SPACE && r.reqLength <= r.newLength && r.pendLength < LENGTH_SPACE && r.cnt < 16
    && (r.newReq ==> r.state.IdleS?) && r.doneReq == r.state.TrDoneS?
    && (r.state.CheckThreshS? || r.state.SendIoReqHdrS? || r.state.CheckLengthS? ==> r.cnt == 0)
    && match r.state
       case IdleS => Resting(r, p)
       case TrDoneS => Resting(r, p)
       case CheckThreshS =>
         r.reqLength > 0 &&
         if r.start then p == Peer(false, false, 0) && r.reqLength == r.newLength && r.pendLength == 0
         else Going(r, p) && Recent(r, p)
       case SendIoReqHdrS =>
         && Going(r, p) && p.rem < r.reqLength + THRESHOLD
         && r.tranLength == Least(r.reqLength, MAX_TX_TRANS) && r.reqLength > 0
       case CalcPipelineDlyS => Going(r, p) && (r.cnt > 0 ==> Recent(r, p))
       case CheckLengthS => Going(r, p) && Recent(r, p)
  }

  /** What the collector may do in one cycle: latch the length, stay, or take a requested word. */
  predicate PeerMove(r: RegType, p: Peer, p': Peer) {
    if p.collecting then
      || p' == p.(done := false)
      || (r.reqLength < p.rem && p' == Peer(p.rem > 1, p.rem == 1, p.rem - 1))
    else
      p' == if r.start then Peer(true, false, r.newLength) else Peer(false, false, p.rem)
  }

  // ---------------------------------------------------------------------------------------
  // Descriptors, requests and reports
  // ---------------------------------------------------------------------------------------

  datatype History = History(descs: seq<TxDesc>, reqs: seq<ReadHdr>, reports: seq<nat>)

  predicate DescOk(d: TxDesc) {
    0 < d.length < 0x100_0000 && d.addr < ADDR_SPACE
  }

  /** Section 2.2.5 of the PCI Express Base Specification: the last byte enables are zero for one word. */
  predicate HdrOk(q: ReadHdr) {
    1 <= q.length <= 256 && q.firstBe == 15 && q.lastBe == if q.length == 1 then 0 else 15
  }

  function Spans(qs: seq<ReadHdr>): (ss: seq<Span>)
    ensures |ss| == |qs| && forall i :: 0 <= i < |qs| ==> ss[i] == Span(qs[i].addr, qs[i].length)
  {
    seq(|qs|, i requires 0 <= i < |qs| => Span(qs[i].addr, qs[i].length))
  }

  /** Requests sent and requests to go are those of the descriptors taken; reports name them in order. */
  ghost predicate Kept(r: RegType, h: History) {
    && Spans(h.reqs) + Chunks(r.newAddr, r.reqLength) == AllChunks(h.descs)
    && (forall i :: 0 <= i < |h.reqs| ==> HdrOk(h.reqs[i]))
    && |h.descs| == |h.reports| + (if r.state.IdleS? then 0 else 1)
    && (forall i :: 0 <= i < |h.reports| ==> h.reports[i] == h.descs[i].addr)
    && (!r.state.IdleS? ==> Current(r, h.descs[|h.descs| - 1]))
  }

  predicate Current(r: RegType, d: TxDesc) {
    && DescOk(d) && r.reqLength <= r.newLength
    && r.newLength == d.length && r.doneAddr == d.addr && r.contEn == d.contEn && r.dest == d.dest
    && r.newAddr == Wrap(d.addr + (r.newLength - r.reqLength))
  }

  lemma IssueKeeps(r: RegType, h: History, q: ReadHdr, addr': nat)
    requires Kept(r, h) && r.reqLength > 0 && HdrOk(q)
    requires q.addr == r.newAddr && q.length == Least(r.reqLength, MAX_TX_TRANS) && addr' == Wrap(r.newAddr + q.length)
    ensures Spans(h.reqs + [q]) + Chunks(addr', r.reqLength - q.length) == AllChunks(h.descs)
  {
    assert Spans(h.reqs + [q]) == Spans(h.reqs) + [Span(q.addr, q.length)];
  }

  lemma NextAddr(addr: nat, done: nat, n: nat)
    ensures Wrap(Wrap(addr + done) + n) == Wrap(addr + (done + n))
  {
    WrapTwice(addr + done);
    WrapAdd(Wrap(addr + done), addr + done, n);
  }

  lemma TakeKeeps(h: History, d: TxDesc)
    requires Spans(h.reqs) == AllChunks(h.descs) && DescOk(d)
    ensures Spans(h.reqs) + Chunks(d.addr, d.length) == AllChunks(h.descs + [d]) && Wrap(d.addr + 0) == d.addr
  {
    AllChunksPush(h.descs, d);
  }

  /** The last data word enables of a request. */
  function LastBe(length: nat): nat {
    if length == 1 then 0 else 15
  }

  // ---------------------------------------------------------------------------------------
  // The arms of the state machine. v is r with the strobes reset and the difference registered.
  // ---------------------------------------------------------------------------------------

  function Base(r: RegType, p: Peer, i: Inputs): RegType
    requires p.rem < LENGTH_SPACE && r.reqLength < LENGTH_SPACE
  {
    r.(start := false, tx := if i.txReady then None else r.tx, pendLength := Sub24(p.rem, r.reqLength))
  }

  function Start(v: RegType, d: TxDesc): RegType {
    v.(newReq := false, start := true, doneAddr := d.addr, newLength := d.length, contEn := d.contEn, dest := d.dest,
       newAddr := d.addr, reqLength := d.length, pendLength := 0, cnt := 0, state := CheckThreshS)
  }

  function Size(v: RegType, r: RegType): RegType {
    if r.pendLength < THRESHOLD then
      v.(tranLength := if r.reqLength < MAX_TX_TRANS then r.reqLength else MAX_TX_TRANS, state := SendIoReqHdrS)
    else v
  }

  function Header(r: RegType, i: Inputs): ReadHdr {
    ReadHdr(r.newAddr, r.tranLength, 15, LastBe(r.tranLength), i.reqId, i.tag)
  }

  function Issue(v: RegType, r: RegType, i: Inputs): RegType
    requires r.tranLength <= r.reqLength
  {
    v.(tx := Some(Header(r, i)), newAddr := Wrap(r.newAddr + r.tranLength), reqLength := r.reqLength - r.tranLength,
       state := CalcPipelineDlyS)
  }

  function Delay(v: RegType, r: RegType): RegType {
    if r.cnt == 15 then v.(cnt := 0, state := CheckLengthS) else v.(cnt := r.cnt + 1)
  }

  function Finish(v: RegType, done: bool): RegType {
    if done then v.(doneReq := true, state := TrDoneS) else v
  }

  lemma StartKeeps(r: RegType, h: History, p: Peer, p': Peer, i: Inputs)
    requires Control(r, p) && Kept(r, h) && PeerMove(r, p, p') && r.state.IdleS? && DescOk(i.desc)
    ensures var u := Start(Base(r, p, i), i.desc);
            Control(u, p') && Kept(u, h.(descs := h.descs + [i.desc]))
  {
    hide Spans, Chunks, AllChunks, Wrap;
    TakeKeeps(h, i.desc);
  }

  lemma IdleKeeps(r: RegType, h: History, p: Peer, p': Peer, i: Inputs)
    requires Control(r, p) && Kept(r, h) && PeerMove(r, p, p') && r.state.IdleS?
    ensures !p.done && Control(Base(r, p, i).(newReq := true), p') && Kept(Base(r, p, i).(newReq := true), h)
  {
    hide Spans, Chunks, AllChunks, Wrap;
  }

  lemma SizeKeeps(r: RegType, h: History, p: Peer, p': Peer, i: Inputs)
    requires Control(r, p) && Kept(r, h) && PeerMove(r, p, p') && r.state.CheckThreshS?
    ensures !p.done && Control(Size(Base(r, p, i), r), p') && Kept(Size(Base(r, p, i), r), h)
    ensures Size(Base(r, p, i), r).state.SendIoReqHdrS? <==> r.pendLength < 128
  {
    hide Spans, Chunks, AllChunks, Wrap;
  }

  lemma SendKeeps(r: RegType, h: History, p: Peer, p': Peer, i: Inputs)
    requires Control(r, p) && Kept(r, h) && PeerMove(r, p, p') && r.state.SendIoReqHdrS?
    ensures !p.done && Control(Base(r, p, i), p') && Kept(Base(r, p, i), h)
    ensures 0 < r.tranLength <= r.reqLength
    ensures var u := Issue(Base(r, p, i), r, i);
            Control(u, p') && Kept(u, h.(reqs := h.reqs + [Header(r, i)]))
  {
    hide Spans, Chunks, AllChunks, Wrap;
    IssueKeeps(r, h, Header(r, i), Wrap(r.newAddr + r.tranLength));
    NextAddr(h.descs[|h.descs| - 1].addr, r.newLength - r.reqLength, r.tranLength);
  }

  lemma WaitKeeps(r: RegType, h: History, p: Peer, p': Peer, i: Inputs)
    requires Control(r, p) && Kept(r, h) && PeerMove(r, p, p')
    ensures r.state.CalcPipelineDlyS? ==> var u := Finish(Delay(Base(r, p, i), r), p.done); Control(u, p') && Kept(u, h)
    ensures r.state.CheckLengthS? ==>
              var v := Base(r, p, i);
              var u := Finish(if r.reqLength != 0 && !i.pause then v.(state := CheckThreshS) else v, p.done);
              Control(u, p') && Kept(u, h)
  {
    hide Control, Kept, PeerMove;
    InRange(r, p);
    if r.state.CalcPipelineDlyS? {
      DelayKeeps(r, h, p, p', i);
    } else if r.state.CheckLengthS? {
      LengthKeeps(r, h, p, p', i);
    }
  }

  lemma DelayKeeps(r: RegType, h: History, p: Peer, p': Peer, i: Inputs)
    requires Control(r, p) && Kept(r, h) && PeerMove(r, p, p') && r.state.CalcPipelineDlyS?
    ensures var u := Finish(Delay(Base(r, p, i), r), p.done); Control(u, p') && Kept(u, h)
  {
    hide Spans, Chunks, AllChunks, Wrap, HdrOk, DescOk;
  }

  lemma LengthKeeps(r: RegType, h: History, p: Peer, p': Peer, i: Inputs)
    requires Control(r, p) && Kept(r, h) && PeerMove(r, p, p') && r.state.CheckLengthS?
    ensures var v := Base(r, p, i);
            var u := Finish(if r.reqLength != 0 && !i.pause then v.(state := CheckThreshS) else v, p.done);
            Control(u, p') && Kept(u, h)
  {
    hide Spans, Chunks, AllChunks, Wrap, HdrOk, DescOk;
  }

  lemma AckKeeps(r: RegType, h: History, p: Peer, p': Peer, i: Inputs)
    requires Control(r, p) && Kept(r, h) && PeerMove(r, p, p') && r.state.TrDoneS?
    ensures !p.done && |h.descs| > 0 && r.doneAddr == h.descs[|h.descs| - 1].addr
    ensures Control(Base(r, p, i), p') && Kept(Base(r, p, i), h)
    ensures var u := Base(r, p, i).(doneReq := false, state := IdleS);
            Control(u, p') && Kept(u, h.(reports := h.reports + [r.doneAddr]))
  {
    hide Spans, Chunks, AllChunks, Wrap;
  }

  /** What one cycle does to the histories and to the registers its neighbours read. */
  predicate Stepped(r: RegType, h: History, r': RegType, h': History, i: Inputs, tx: Option<ReadHdr>,
                    report: Option<nat>) {
    var took := r.state.IdleS? && i.newAck;
    var sent := r.state.SendIoReqHdrS? && (i.txReady || r.tx.None?);
    && tx == (if i.txReady then r.tx else None)
    && report == (if r.state.TrDoneS? && i.doneAck && h.descs != [] then Some(h.descs[|h.descs| - 1].addr) else None)
    && h'.reports == h.reports + (if report.Some? then [report.value] else [])
    && h'.descs == h.descs + (if took then [i.desc] else [])
    && r'.start == took && r'.newReq == (r.state.IdleS? && !took)
    && (!took ==> r'.newLength == r.newLength && r'.contEn == r.contEn && r'.dest == r.dest)
    && (if sent then
          && 0 < r.tranLength <= r.reqLength
          && r'.tx == Some(Header(r, i)) && h'.reqs == h.reqs + [Header(r, i)]
          && r'.reqLength == r.reqLength - r.tranLength
        else
          && r'.tx == (if i.txReady then None else r.tx) && h'.reqs == h.reqs
          && (!took ==> r'.reqLength == r.reqLength))
  }

  /** The next state of the machine. */
  predicate Moves(r: RegType, i: Inputs, p: Peer, r': RegType) {
    match r.state
    case IdleS =>
      if i.newAck then r'.state.CheckThreshS? && r'.reqLength == i.desc.length else r'.state.IdleS? && r'.newReq
    case CheckThreshS => if r.pendLength < 128 then r'.state.SendIoReqHdrS? else r'.state.CheckThreshS?
    case SendIoReqHdrS =>
      if i.txReady || r.tx.None? then r'.state.CalcPipelineDlyS? && r'.cnt == r.cnt else r'.state.SendIoReqHdrS?
    case CalcPipelineDlyS =>
      if p.done then r'.state.TrDoneS?
      else if r.cnt == 15 then r'.state.CheckLengthS?
      else r'.state.CalcPipelineDlyS? && r'.cnt == r.cnt + 1
    case CheckLengthS =>
      if p.done then r'.state.TrDoneS?
      else if r.reqLength != 0 && !i.pause then r'.state.CheckThreshS?
      else r'.state.CheckLengthS?
    case TrDoneS => if i.doneAck then r'.state.IdleS? && !r'.newReq else r'.state.TrDoneS?
  }

  class PciTxDmaMemReq {
    var r: RegType
    ghost var h: History

    ghost predicate Valid(p: Peer)
      reads this
    {
      Control(r, p) && Kept(r, h)
    }

    constructor ()
      ensures Valid(Peer(false, false, 0)) && r == REG_INIT && h == History([], [], [])
    {
      r := REG_INIT;
      h := History([], [], []);
    }

    /** One cycle; p' is what the collector becomes in the same cycle. */
    method Step(i: Inputs, p: Peer, ghost p': Peer) returns (tx: Option<ReadHdr>, report: Option<nat>)
      requires Valid(p) && PeerMove(r, p, p') && (r.state.IdleS? && i.newAck ==> DescOk(i.desc))
      modifies this
      ensures Valid(p')
      ensures Stepped(old(r), old(h), r, h, i, tx, report) && Moves(old(r), i, p, r)
    {
      hide Control, Kept, PeerMove, Header, LastBe, Sub24;
      InRange(r, p);
      tx := if i.txReady then r.tx else None;
      report := None;
      var v := Base(r, p, i);
      match r.state {
        case IdleS =>
          IdleKeeps(r, h, p, p', i);
          v := v.(newReq := true);
          if i.newAck {
            StartKeeps(r, h, p, p', i);
            v := Start(v, i.desc);
            h := h.(descs := h.descs + [i.desc]);
          }
        case CheckThreshS =>
          SizeKeeps(r, h, p, p', i);
          v := Size(v, r);
        case SendIoReqHdrS =>
          SendKeeps(r, h, p, p', i);
          if v.tx.None? {
            v := Issue(v, r, i);
            h := h.(reqs := h.reqs + [Header(r, i)]);
          }
        case CalcPipelineDlyS =>
          WaitKeeps(r, h, p, p', i);
          v := Delay(v, r);
        case CheckLengthS =>
          WaitKeeps(r, h, p, p', i);
          if r.reqLength != 0 && !i.pause {
            v := v.(state := CheckThreshS);
          }
        case TrDoneS =>
          AckKeeps(r, h, p, p', i);
          if i.doneAck {
            v := v.(doneReq := false, state := IdleS);
            report := Some(r.doneAddr);
            h := h.(reports := h.reports + [r.doneAddr]);
          }
      }
      r := Finish(v, p.done);
    }
  }

  lemma InRange(r: RegType, p: Peer)
    requires Control(r, p)
    ensures p.rem < LENGTH_SPACE && r.reqLength < LENGTH_SPACE
    ensures p.done ==> r.state.CalcPipelineDlyS? || r.state.CheckLengthS?
    ensures r.newReq ==> r.state.IdleS?
  {
  }
}
