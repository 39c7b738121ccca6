/** Completion packets, and where requested words are until the collector takes them. */
module TxCompletions {
  import opened AxiStream
  import opened TxReads
  import opened TxMemReq

  /** One beat of a completion: the first beat is a 3-DW header with one word above it, the others hold up to
      four words in their lowest lanes. */
  datatype CplBeat = CplBeat(sof: bool, lanes: Lanes, keep: nat)

  predicate BeatOk(b: CplBeat) {
    1 <= b.keep <= 4
  }

  /** The words a beat carries. */
  function Words(b: CplBeat): (ws: seq<Dw>)
    requires BeatOk(b)
    ensures |ws| == if b.sof then 1 else b.keep
  {
    if b.sof then [b.lanes[3]] else b.lanes[..b.keep]
  }

  predicate BeatsOk(bs: seq<CplBeat>) {
    forall i :: 0 <= i < |bs| ==> BeatOk(bs[i])
  }

  function Payload(bs: seq<CplBeat>): (ws: seq<Dw>)
    requires BeatsOk(bs)
    ensures |ws| >= |bs|
  {
    if bs == [] then [] else Words(bs[0]) + Payload(bs[1..])
  }

  lemma {:induction false} PayloadPush(bs: seq<CplBeat>, b: CplBeat)
    requires BeatsOk(bs) && BeatOk(b)
    ensures Payload(bs + [b]) == Payload(bs) + Words(b)
  {
    if bs == [] {
      assert Payload([b][1..]) == [];
    } else {
      PayloadPush(bs[1..], b);
      assert (bs + [b])[1..] == bs[1..] + [b];
    }
  }

  /** Up to four words in the lowest lanes. */
  function Pad(ws: seq<Dw>): (l: Lanes)
    requires |ws| <= 4
    ensures l[..|ws|] == ws
  {
    var z := ws + [ZERO_DW, ZERO_DW, ZERO_DW, ZERO_DW];
    assert z[..4][..|ws|] == ws;
    z[..4]
  }

  function Body(ws: seq<Dw>): (bs: seq<CplBeat>) {
    if ws == [] then []
    else if |ws| <= 4 then [CplBeat(false, Pad(ws), |ws|)]
    else [CplBeat(false, Pad(ws[..4]), 4)] + Body(ws[4..])
  }

  /** A completion with data (section 2.2.9 of the PCI Express Base Specification) as a list of beats. */
  function Completion(hdr: Lanes, ws: seq<Dw>): (bs: seq<CplBeat>)
    requires ws != []
  {
    [CplBeat(true, hdr[..3] + [ws[0]], 4)] + Body(ws[1..])
  }

  lemma {:induction false} BodyPayload(ws: seq<Dw>)
    ensures BeatsOk(Body(ws)) && Payload(Body(ws)) == ws
  {
    if |ws| > 4 {
      BodyPayload(ws[4..]);
      assert Body(ws)[1..] == Body(ws[4..]);
      assert ws == ws[..4] + ws[4..];
    } else if ws != [] {
      assert Body(ws)[1..] == [];
    }
  }

  /** The beats of a completion carry exactly its words, and its first beat is marked. */
  lemma CompletionPayload(hdr: Lanes, ws: seq<Dw>)
    requires ws != []
    ensures BeatsOk(Completion(hdr, ws)) && Payload(Completion(hdr, ws)) == ws && Completion(hdr, ws)[0].sof
  {
    BodyPayload(ws[1..]);
    assert Completion(hdr, ws)[1..] == Body(ws[1..]);
  }

  // ---------------------------------------------------------------------------------------
  // The words in flight, oldest first: queued beats, the completion being sent, the requests waiting at the host,
  // and the request in the output register.
  // ---------------------------------------------------------------------------------------

  datatype Flight = Flight(fifo: seq<CplBeat>, idx: nat, cur: seq<CplBeat>, waiting: seq<Span>, tx: Option<ReadHdr>)

  predicate FlightOk(f: Flight) {
    && BeatsOk(f.fifo) && BeatsOk(f.cur)
    && (if f.fifo != [] && !f.fifo[0].sof then f.idx < f.fifo[0].keep else f.idx == 0)
    && (forall i :: 0 <= i < |f.waiting| ==> f.waiting[i].length > 0)
    && (f.tx.Some? ==> f.tx.value.length > 0)
  }

  function Unread(f: Flight): (ws: seq<Dw>)
    requires FlightOk(f)
  {
    Payload(f.fifo)[f.idx..]
  }

  function Asked(mem: Memory, tx: Option<ReadHdr>): (ws: seq<Dw>) {
    if tx.Some? then Slice(mem, tx.value.addr, tx.value.length) else []
  }

  function InFlight(mem: Memory, f: Flight): (ws: seq<Dw>)
    requires FlightOk(f)
  {
    Unread(f) + Payload(f.cur) + Gather(mem, f.waiting) + Asked(mem, f.tx)
  }

  /** The words in flight are the n words of memory from addr on. */
  predicate Carries(mem: Memory, f: Flight, addr: nat, n: nat) {
    FlightOk(f) && InFlight(mem, f) == Slice(mem, addr, n)
  }

  /** The word the collector reads from the head beat, and the index it goes to. */
  function HeadWord(b: CplBeat, idx: nat): Dw
    requires idx < 4
  {
    if b.sof then b.lanes[3] else b.lanes[idx]
  }

  function NextIdx(b: CplBeat, idx: nat): (n: nat)
    ensures n < 4
  {
    if b.sof then 0
    else match idx
      case 0 => if b.keep >= 2 then 1 else 0
      case 1 => if b.keep >= 3 then 2 else 0
      case 2 => if b.keep >= 4 then 3 else 0
      case _ => 0
  }

  /** Taking one word from the queue. */
  function Taken(f: Flight): Flight
    requires f.fifo != []
  {
    var n := NextIdx(f.fifo[0], f.idx);
    f.(idx := n, fifo := if n == 0 then f.fifo[1..] else f.fifo)
  }

  lemma TakenUnread(f: Flight)
    requires FlightOk(f) && f.fifo != []
    ensures f.idx < 4 && FlightOk(Taken(f))
    ensures Unread(f) == [HeadWord(f.fifo[0], f.idx)] + Unread(Taken(f))
  {
    var b := f.fifo[0];
    assert Payload(f.fifo) == Words(b) + Payload(f.fifo[1..]);
    assert Words(b)[f.idx] == HeadWord(b, f.idx);
    assert f.idx + 1 == |Words(b)| <==> NextIdx(b, f.idx) == 0;
  }

  lemma SliceHead(mem: Memory, addr: nat, n: nat, w: Dw, rest: seq<Dw>)
    requires n > 0 && Slice(mem, addr, n) == [w] + rest
    ensures w == mem(Wrap(addr)) && rest == Slice(mem, addr + 1, n - 1)
  {
    assert Slice(mem, addr, n)[0] == w;
    assert rest == ([w] + rest)[1..] == Slice(mem, addr, n)[1..];
  }

  lemma Takes(mem: Memory, f: Flight, addr: nat, n: nat)
    requires Carries(mem, f, addr, n) && f.fifo != []
    ensures n > 0 && f.idx < 4 && HeadWord(f.fifo[0], f.idx) == mem(Wrap(addr))
    ensures Carries(mem, Taken(f), addr + 1, n - 1)
  {
    hide Payload, Gather, Wrap, HeadWord, NextIdx, Unread, FlightOk, Asked;
    TakenUnread(f);
    var w := HeadWord(f.fifo[0], f.idx);
    var rest := InFlight(mem, Taken(f));
    assert InFlight(mem, f) == [w] + rest;
    hide InFlight, Taken;
    assert n > 0;
    SliceHead(mem, addr, n, w, rest);
  }

  lemma Issues(mem: Memory, f: Flight, addr: nat, n: nat, q: ReadHdr)
    requires Carries(mem, f, addr, n) && f.tx.None? && q.addr == Wrap(addr + n) && q.length > 0
    ensures Carries(mem, f.(tx := Some(q)), addr, n + q.length)
  {
    hide Payload, Gather, Wrap;
    SliceSplit(mem, addr, n, q.length);
    SliceWrap(mem, addr + n, q.length);
    assert Unread(f.(tx := Some(q))) == Unread(f);
  }

  lemma Accepts(mem: Memory, f: Flight, addr: nat, n: nat)
    requires Carries(mem, f, addr, n) && f.tx.Some?
    ensures Carries(mem, f.(tx := None, waiting := f.waiting + [Span(f.tx.value.addr, f.tx.value.length)]), addr, n)
  {
    hide Payload, Gather, Wrap;
    var s := Span(f.tx.value.addr, f.tx.value.length);
    GatherPush(mem, f.waiting, s);
    var g := f.(tx := None, waiting := f.waiting + [s]);
    assert Unread(g) == Unread(f);
    assert InFlight(mem, g) == InFlight(mem, f);
  }

  /** The host answers the first k words of the oldest request. */
  function Answered(mem: Memory, f: Flight, hdr: Lanes, k: nat): Flight
    requires f.waiting != [] && 0 < k <= f.waiting[0].length
  {
    var s := f.waiting[0];
    f.(cur := Completion(hdr, Slice(mem, s.addr, k)),
       waiting := (if k == s.length then [] else [Span(s.addr + k, s.length - k)]) + f.waiting[1..])
  }

  lemma Answers(mem: Memory, f: Flight, addr: nat, n: nat, hdr: Lanes, k: nat)
    requires Carries(mem, f, addr, n) && f.cur == [] && f.waiting != [] && 0 < k <= f.waiting[0].length
    ensures Carries(mem, Answered(mem, f, hdr, k), addr, n)
    ensures Answered(mem, f, hdr, k).cur[0].sof
  {
    hide Payload, Completion, Wrap, Asked;
    var s := f.waiting[0];
    var g := Answered(mem, f, hdr, k);
    CompletionPayload(hdr, Slice(mem, s.addr, k));
    SliceSplit(mem, s.addr, k, s.length - k);
    assert Payload(f.cur) == [] by { CurEmpty(f); }
    if k < s.length {
      assert g.waiting[1..] == f.waiting[1..];
    } else {
      assert g.waiting == f.waiting[1..];
    }
    assert Payload(g.cur) + Gather(mem, g.waiting) == Gather(mem, f.waiting) by {
      assert Slice(mem, s.addr, s.length) == Slice(mem, s.addr, k) + Slice(mem, s.addr + k, s.length - k);
    }
    assert Unread(g) == Unread(f);
    Regroup(Unread(f), Payload(g.cur), Gather(mem, g.waiting), Gather(mem, f.waiting), Asked(mem, f.tx));
  }

  lemma CurEmpty(f: Flight)
    requires FlightOk(f) && f.cur == []
    ensures Payload(f.cur) == []
  {
  }

  lemma Regroup(a: seq<Dw>, b: seq<Dw>, c: seq<Dw>, bc: seq<Dw>, d: seq<Dw>)
    requires b + c == bc
    ensures a + b + c + d == a + [] + bc + d
  {
    assert a + b + c == a + bc;
  }

  /** A beat arrives in the queue. */
  function Arrived(f: Flight): Flight
    requires f.cur != []
  {
    f.(fifo := f.fifo + [f.cur[0]], cur := f.cur[1..])
  }

  lemma Arrives(mem: Memory, f: Flight, addr: nat, n: nat)
    requires Carries(mem, f, addr, n) && f.cur != []
    ensures Carries(mem, Arrived(f), addr, n)
  {
    hide Gather, Wrap, Asked, Words;
    var g := Arrived(f);
    PayloadPush(f.fifo, f.cur[0]);
    assert Payload(f.cur) == Words(f.cur[0]) + Payload(f.cur[1..]);
    IdxShort(f);
    assert (Payload(f.fifo) + Words(f.cur[0]))[f.idx..] == Payload(f.fifo)[f.idx..] + Words(f.cur[0]);
    assert Unread(g) + Payload(g.cur) == Unread(f) + Payload(f.cur);
  }

  lemma IdxShort(f: Flight)
    requires FlightOk(f)
    ensures f.idx <= |Payload(f.fifo)|
    ensures f.fifo == [] ==> f.idx == 0
  {
  }

  /** With no word in flight everything is empty. */
  lemma Landed(mem: Memory, f: Flight, addr: nat)
    requires Carries(mem, f, addr, 0)
    ensures f.fifo == [] && f.idx == 0 && f.cur == [] && f.waiting == [] && f.tx == None
  {
    if f.fifo != [] {
      TakenUnread(f);
    }
  }

  /** While nothing of a descriptor has been taken, the first beat in flight is the first of its packet. */
  predicate HeadSof(f: Flight) {
    && (f.fifo != [] ==> f.fifo[0].sof)
    && (f.fifo == [] && f.cur != [] ==> f.cur[0].sof)
  }
}

/** The collector: it turns completion beats into the 32-bit word stream of the lane. */
module TxCollect {
  import opened AxiStream
  import opened TxReads
  import opened TxMemReq
  import opened TxCompletions

  /** One word of the outgoing stream. */
  datatype TxWord = TxWord(data: Dw, dest: nat, sof: bool, last: bool)

  datatype ColState = IdleS | CollectS

  datatype ColReg = ColReg(sof: bool, contEn: bool, done: bool, remLength: nat, idx: nat, dest: nat,
                           tx: Option<TxWord>, state: ColState)

  const COL_INIT := ColReg(true, false, false, 0, 0, 0, None, ColState.IdleS)

  function PeerOf(c: ColReg): Peer {
    Peer(c.state.CollectS?, c.done, c.remLength)
  }

  // ---------------------------------------------------------------------------------------
  // What a descriptor's words should be.
  // ---------------------------------------------------------------------------------------

  /** Word k of a descriptor: byte-swapped memory, marked at the start of a frame and at its end. */
  function WordAt(mem: Memory, d: TxDesc, starts: bool, k: nat): TxWord {
    var m := mem((d.addr + k) % 0x4000_0000);
    TxWord(Dw(m.b3, m.b2, m.b1, m.b0), d.dest, starts && k == 0, !d.contEn && k + 1 == d.length)
  }

  /** The first n words. */
  function Part(mem: Memory, d: TxDesc, starts: bool, n: nat): (ws: seq<TxWord>)
    ensures |ws| == n
  {
    if n == 0 then [] else Part(mem, d, starts, n - 1) + [WordAt(mem, d, starts, n - 1)]
  }

  /** A frame starts unless the descriptor before was marked to be continued. */
  predicate Starts(before: seq<TxDesc>) {
    before == [] || !before[|before| - 1].contEn
  }

  function Output(mem: Memory, ds: seq<TxDesc>): seq<TxWord> {
    if ds == [] then []
    else
      var n := |ds| - 1;
      Output(mem, ds[..n]) + Part(mem, ds[n], Starts(ds[..n]), ds[n].length)
  }

  lemma {:induction false} PartPrefix(mem: Memory, d: TxDesc, starts: bool, m: nat, n: nat)
    requires m <= n
    ensures Part(mem, d, starts, m) <= Part(mem, d, starts, n)
  {
    if m == n {
    } else {
      PartPrefix(mem, d, starts, m, n - 1);
    }
  }

  lemma {:induction false} PartAt(mem: Memory, d: TxDesc, starts: bool, n: nat, k: nat)
    requires k < n
    ensures Part(mem, d, starts, n)[k] == WordAt(mem, d, starts, k)
  {
    if k == n - 1 {
    } else {
      PartAt(mem, d, starts, n - 1, k);
    }
  }

  // ---------------------------------------------------------------------------------------
  // The state machine. Each arm works on c with the strobes reset.
  // ---------------------------------------------------------------------------------------

  function ColBase(c: ColReg): ColReg {
    c.(done := false, tx := None)
  }

  function Latch(v: ColReg, r: RegType): ColReg {
    v.(remLength := r.newLength, contEn := r.contEn, dest := r.dest, state := CollectS)
  }

  /** One word from the head beat b; first says that remLength still equals the full length. */
  function Collect(v: ColReg, c: ColReg, b: CplBeat, first: bool): ColReg
    requires c.idx < 4 && c.remLength > 0
  {
    var sof := b.sof && c.sof && first;
    var last := c.remLength == 1;
    var over := last && !c.contEn;
    v.(tx := Some(TxWord(Swap(HeadWord(b, c.idx)), c.dest, sof, over)),
       sof := over || (c.sof && !sof),
       idx := NextIdx(b, c.idx),
       remLength := c.remLength - 1,
       done := last,
       state := if last then ColState.IdleS else CollectS)
  }

  /** The words written so far, against the descriptors taken by the requester. */
  ghost predicate Written(mem: Memory, c: ColReg, starting: bool, ds: seq<TxDesc>, out: seq<TxWord>) {
    var m := |ds| - 1;
    if c.state.CollectS? then
      && m >= 0
      && var d := ds[m];
      && 0 < c.remLength <= d.length && c.contEn == d.contEn && c.dest == d.dest
      && out == Output(mem, ds[..m]) + Part(mem, d, Starts(ds[..m]), d.length - c.remLength)
      && c.sof == (Starts(ds[..m]) && c.remLength == d.length)
    else if starting then
      m >= 0 && out == Output(mem, ds[..m]) && c.sof == Starts(ds[..m])
    else
      out == Output(mem, ds) && c.sof == Starts(ds)
  }

  lemma LatchWrites(mem: Memory, c: ColReg, r: RegType, ds: seq<TxDesc>, out: seq<TxWord>)
    requires c.state.IdleS? && Written(mem, c, true, ds, out)
    requires var d := ds[|ds| - 1]; r.newLength == d.length > 0 && r.contEn == d.contEn && r.dest == d.dest
    ensures Written(mem, Latch(ColBase(c), r), false, ds, out)
  {
    hide Output;
  }

  lemma WordIs(mem: Memory, d: TxDesc, starts: bool, n: nat)
    ensures WordAt(mem, d, starts, n) == TxWord(Swap(mem(Wrap(d.addr + n))), d.dest, starts && n == 0,
                                                !d.contEn && n + 1 == d.length)
  {
  }

  lemma CollectWrites(mem: Memory, c: ColReg, b: CplBeat, first: bool, ds: seq<TxDesc>, out: seq<TxWord>)
    requires c.state.CollectS? && Written(mem, c, false, ds, out) && c.idx < 4
    requires var d := ds[|ds| - 1];
             && first == (c.remLength == d.length) && (first ==> b.sof)
             && HeadWord(b, c.idx) == mem(Wrap(d.addr + (d.length - c.remLength)))
    ensures var u := Collect(ColBase(c), c, b, first);
            u.tx.Some? && Written(mem, u, false, ds, out + [u.tx.value])
  {
    hide HeadWord, NextIdx, Wrap, Swap, WordAt;
    var m := |ds| - 1;
    var d := ds[m];
    var n := d.length - c.remLength;
    var u := Collect(ColBase(c), c, b, first);
    var before, starts := Output(mem, ds[..m]), Starts(ds[..m]);
    WordIs(mem, d, starts, n);
    assert u.tx.value == WordAt(mem, d, starts, n);
    assert out + [u.tx.value] == before + (Part(mem, d, starts, n) + [WordAt(mem, d, starts, n)]);
    assert Part(mem, d, starts, n + 1) == Part(mem, d, starts, n) + [WordAt(mem, d, starts, n)];
    if c.remLength == 1 {
      assert Output(mem, ds) == before + Part(mem, d, starts, d.length);
    }
  }

  class PciTxDma {
    var c: ColReg
    ghost var out: seq<TxWord>

    constructor ()
      ensures c == COL_INIT && out == []
    {
      c := COL_INIT;
      out := [];
    }

    /** One cycle. r is the requester's register record, head the visible head of the completion queue; ready says
        that the head beat is finished with. */
    method Step(r: RegType, head: Option<CplBeat>, pause: bool, ghost mem: Memory, ghost ds: seq<TxDesc>)
      returns (ready: bool)
      requires Written(mem, c, r.start, ds, out) && c.idx < 4
      requires !r.state.IdleS? ==> ds != [] && Current(r, ds[|ds| - 1])
      requires r.start || c.state.CollectS? ==> !r.state.IdleS?
      requires r.start ==> c.state.IdleS?
      requires c.state.CollectS? && head.Some? ==>
                 && r.reqLength < c.remLength
                 && (c.remLength == r.newLength ==> head.value.sof)
                 && HeadWord(head.value, c.idx) == mem(Wrap(ds[|ds| - 1].addr + (r.newLength - c.remLength)))
      modifies this
      ensures Written(mem, c, false, ds, out) && PeerMove(r, PeerOf(old(c)), PeerOf(c))
      ensures var took := old(c.state.CollectS?) && head.Some? && !pause;
              && c.tx.Some? == took && out == old(out) + (if took then [c.tx.value] else [])
              && c.remLength == (if took then old(c.remLength) - 1
                                  else if r.start then r.newLength else old(c.remLength))
              && c.idx == (if took then NextIdx(head.value, old(c.idx)) else old(c.idx))
              && ready == (if old(c.state.CollectS?) then took && c.idx == 0 else !r.start)
              && c.state.CollectS? == if old(c.state.CollectS?) then !took || c.remLength > 0 else r.start
    {
      hide Output, Part, HeadWord, NextIdx, Wrap, Starts, Written;
      ready := false;
      Facts(mem, c, r.start, ds, out);
      var v := ColBase(c);
      match c.state {
        case IdleS =>
          if r.start {
            LatchWrites(mem, c, r, ds, out);
            v := Latch(v, r);
          } else {
            IdleWrites(mem, c, ds, out);
            ready := true;
          }
        case CollectS =>
          if !pause && head.Some? {
            CollectWrites(mem, c, head.value, c.remLength == r.newLength, ds, out);
            v := Collect(v, c, head.value, c.remLength == r.newLength);
            ready := v.idx == 0;
            out := out + [v.tx.value];
          } else {
            IdleWrites(mem, c, ds, out);
          }
      }
      c := v;
    }
  }

  lemma Facts(mem: Memory, c: ColReg, starting: bool, ds: seq<TxDesc>, out: seq<TxWord>)
    requires Written(mem, c, starting, ds, out)
    ensures c.state.CollectS? ==> ds != [] && 0 < c.remLength <= ds[|ds| - 1].length
    ensures c.state.CollectS? ==> Written(mem, c, false, ds, out)
  {
  }

  lemma IdleWrites(mem: Memory, c: ColReg, ds: seq<TxDesc>, out: seq<TxWord>)
    requires Written(mem, c, false, ds, out)
    ensures Written(mem, ColBase(c), false, ds, out)
  {
  }
}
