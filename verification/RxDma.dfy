/** The memory side of the receive path: what a list of write packets does to host memory. */
module RxMemory {
  import opened AxiStream
  import opened RxFrames

  /** The fields of a 3-DW memory write header that the card fills in; the others are zero. */
  datatype WriteHdr = WriteHdr(
    fmt: nat, xType: nat, length: nat, reqId: nat, tag: nat, lastBe: nat, firstBe: nat, addr: nat)

  datatype TlpBody = Header(hdr: WriteHdr, d0: Dw) | Payload(lanes: Lanes, keep: nat)

  datatype TlpBeat = TlpBeat(body: TlpBody, last: bool)

  datatype Write = Write(addr: nat, data: Dw)

  /** A receiver of write packets: the stores so far, the open packet, and whether every packet
      so far was well formed and stayed inside one 4 KB page. */
  datatype Receiver = Receiver(writes: seq<Write>, next: nat, left: nat, ok: bool, inPage: bool)

  const RECEIVER_INIT := Receiver([], 0, 0, true, true)

  /** 4 KB in words. */
  const PAGE := 1024

  /** Memory write with data, 1 to 32 words, all bytes enabled; the last-word byte enables are
      zero exactly for a packet of one word. */
  predicate HdrOk(h: WriteHdr) {
    && h.fmt == 2 && h.xType == 0
    && 1 <= h.length <= MAX_RX_TRANS
    && h.firstBe == 0xF
    && h.lastBe == if h.length == 1 then 0 else 0xF
  }

  /** Lanes of words for consecutive addresses. */
  function Run(addr: nat, lanes: seq<Dw>): (w: seq<Write>)
    ensures |w| == |lanes|
  {
    seq(|lanes|, i requires 0 <= i < |lanes| => Write(Wrap(addr + i), lanes[i]))
  }

  function Receive(m: Receiver, b: TlpBeat): Receiver {
    match b.body
    case Header(h, d0) =>
      Receiver(m.writes + [Write(Wrap(h.addr), d0)], h.addr + 1, if h.length == 0 then 0 else h.length - 1,
               m.ok && m.left == 0 && HdrOk(h) && b.last == (h.length == 1),
               m.inPage && h.addr % PAGE + h.length <= PAGE)
    case Payload(lanes, keep) =>
      if 1 <= keep <= 4 && keep <= m.left then
        Receiver(m.writes + Run(m.next, lanes[..keep]), m.next + keep, m.left - keep,
                 m.ok && b.last == (keep == m.left), m.inPage)
      else m.(ok := false)
  }

  function ReceiveAll(bs: seq<TlpBeat>): Receiver {
    if bs == [] then RECEIVER_INIT else Receive(ReceiveAll(bs[..|bs| - 1]), bs[|bs| - 1])
  }

  lemma ReceivePush(bs: seq<TlpBeat>, b: TlpBeat)
    ensures ReceiveAll(bs + [b]) == Receive(ReceiveAll(bs), b)
  {
    assert (bs + [b])[..|bs + [b]| - 1] == bs;
  }

  /** What the receiver's two flags say about the packets: no packet leaves its 4 KB page, and every beat after a header
      keeps one to four words. */
  lemma {:induction false} FlagsMean(bs: seq<TlpBeat>)
    ensures ReceiveAll(bs).inPage ==> forall k :: 0 <= k < |bs| && bs[k].body.Header? ==>
              bs[k].body.hdr.addr % 1024 + bs[k].body.hdr.length <= 1024
    ensures ReceiveAll(bs).ok ==> forall k :: 0 <= k < |bs| && bs[k].body.Payload? ==> 1 <= bs[k].body.keep <= 4
    ensures ReceiveAll(bs).ok ==> forall k :: 0 <= k < |bs| && bs[k].body.Header? ==>
              && bs[k].body.hdr.fmt == 2 && bs[k].body.hdr.xType == 0 && 1 <= bs[k].body.hdr.length <= 32
              && bs[k].body.hdr.firstBe == 15 && bs[k].body.hdr.lastBe == if bs[k].body.hdr.length == 1 then 0 else 15
  {
    if bs == [] {
    } else {
      FlagsMean(bs[..|bs| - 1]);
    }
  }

  /** A word at a 30-bit address, its bytes in the reverse order. */
  ghost function Mirrored(addr: nat, d: Dw): Write {
    Write(addr % 0x4000_0000, Dw(d.b3, d.b2, d.b1, d.b0))
  }

  /** Word k of a frame, in PCIe byte order, at base + k. */
  ghost function Stored(f: Frame, base: nat): (w: seq<Write>)
    ensures |w| == |f| && forall k :: 0 <= k < |w| ==> w[k] == Mirrored(base + k, f[k].data)
  {
    seq(|f|, k requires 0 <= k < |f| => Mirrored(base + k, f[k].data))
  }

  ghost function AllStored(fs: seq<Frame>, bases: seq<nat>): seq<Write>
    requires |fs| <= |bases|
  {
    if fs == [] then [] else AllStored(fs[..|fs| - 1], bases) + Stored(fs[|fs| - 1], bases[|fs| - 1])
  }

  lemma {:induction false} AllStoredBases(fs: seq<Frame>, bases: seq<nat>, more: seq<nat>)
    requires |fs| <= |bases|
    ensures AllStored(fs, bases + more) == AllStored(fs, bases)
  {
    if fs == [] {
    } else {
      AllStoredBases(fs[..|fs| - 1], bases, more);
    }
  }

  lemma AllStoredPush(fs: seq<Frame>, f: Frame, bases: seq<nat>)
    requires |fs| < |bases|
    ensures AllStored(fs + [f], bases) == AllStored(fs, bases) + Stored(f, bases[|fs|])
  {
    assert (fs + [f])[..|fs + [f]| - 1] == fs;
  }

  lemma StoredAppend(f: Frame, g: Frame, base: nat, addr: nat, lanes: seq<Dw>)
    requires Wrap(addr) == Wrap(base + |f|)
    requires |lanes| == |g|
    requires forall i :: 0 <= i < |g| ==> lanes[i] == Swap(g[i].data)
    ensures Stored(f + g, base) == Stored(f, base) + Run(addr, lanes)
  {
    var a := Stored(f + g, base);
    var b := Stored(f, base) + Run(addr, lanes);
    forall k | 0 <= k < |a|
      ensures a[k] == b[k]
    {
      if k >= |f| {
        WrapAdd(addr, base + |f|, k - |f|);
      }
    }
  }
}

/** PciRxDma: turns transactions into write packets and reports finished frames. */
module RxDma {
  import opened AxiStream
  import opened RxFrames
  import opened RxTransactions
  import opened RxMemory

  datatype DmaState = IdleS | AckWaitS | ReadTransS | SendHdrS | CollectS | TrDoneS

  /** The report of a finished descriptor. */
  datatype Done = Done(addr: nat, length: nat, lengthErr: bool, eofe: bool, channel: nat, subId: nat)

  datatype RegType = RegType(
    lengthErr: bool, tranEof: bool, tranEofe: bool, tranSubId: nat,
    tranLength: nat, tranCnt: nat, cnt: nat, newAddr: nat, maxFrame: nat,
    newReq: bool, doneReq: bool, done: Done,
    txValid: bool, tx: TlpBeat, state: DmaState)

  /** What the descriptor logic drives towards the engine in one cycle. */
  datatype DescFromPci = DescFromPci(newAck: bool, newAddr: nat, maxFrame: nat, doneAck: bool)

  /** A usable descriptor: a word address and a positive 24-bit frame bound. */
  predicate DescOk(d: DescFromPci) {
    d.newAddr < ADDR_SPACE && 0 < d.maxFrame < LENGTH_SPACE
  }

  const LENGTH_SPACE := 0x100_0000

  const TX_INIT := TlpBeat(Payload([ZERO_DW, ZERO_DW, ZERO_DW, ZERO_DW], 0), false)

  function RegInit(channel: nat): RegType {
    RegType(false, false, false, 0, 0, 0, 0, 0, 0, false, false,
            Done(0, 0, false, false, channel, 0), false, TX_INIT, IdleS)
  }

  /** Ghost history: finished frames, descriptors granted, words of the current frame already sent,
      words of the current transaction, and every beat put into the output register. */
  datatype History = History(frames: seq<Frame>, bases: seq<nat>, got: Frame, words: seq<RxWord>, out: seq<TlpBeat>)

  /** The report for the words f of a frame written at base. */
  ghost function Report(f: Frame, base: nat, lengthErr: bool, channel: nat): Done
    requires |f| > 0
  {
    Done(base, |f|, lengthErr, Damaged(f), channel, f[0].dest % 4)
  }

  // ---------------------------------------------------------------------------------------
  // The length bound. The engine compares it with the count after every body word but before every header word, so the
  // count just after a header word is never compared; it stops at the end of the transaction in which a count has hit.
  // ---------------------------------------------------------------------------------------

  /** A bound that only the count just after a header word could hit. */
  predicate Unguarded(bound: nat) {
    bound % 32 == 1
  }

  predicate Hit(bound: nat, n: nat) {
    bound <= n && !Unguarded(bound)
  }

  /** The bound, rounded up to whole transactions. */
  function Ceiling(bound: nat): (c: nat)
    ensures bound <= c < bound + 32 && Aligned(c)
  {
    (bound + 31) / 32 * 32
  }

  /** The words sent of a frame of n words. */
  function Allowed(bound: nat, n: nat): nat {
    if Unguarded(bound) || n < bound || n < Ceiling(bound) then n else Ceiling(bound)
  }

  /** No word is sent at or beyond the bound, for all frames, exactly if the bound is a multiple of 32. */
  lemma BoundExact(bound: nat)
    requires bound > 0
    ensures Aligned(bound) <==> forall n: nat :: Allowed(bound, n) <= bound
  {
    if Aligned(bound) {
      CeilingAt(bound, bound - MAX_RX_TRANS);
    } else {
      assert Allowed(bound, Ceiling(bound) + 1) > bound;
    }
  }

  lemma CeilingAt(bound: nat, a: int)
    requires Aligned(a) && a < bound <= a + MAX_RX_TRANS
    ensures Ceiling(bound) == a + MAX_RX_TRANS
  {
    AlignedNext(a);
    AlignedApart(Ceiling(bound), a + MAX_RX_TRANS);
  }

  lemma AlignedApart(a: int, b: int)
    requires Aligned(a) && Aligned(b) && a - MAX_RX_TRANS < b < a + MAX_RX_TRANS
    ensures a == b
  {
    var i, j := a / MAX_RX_TRANS, b / MAX_RX_TRANS;
    assert a == i * MAX_RX_TRANS && b == j * MAX_RX_TRANS;
  }

  lemma CeilingAbove(bound: nat, a: nat)
    requires Aligned(a) && a < bound
    ensures a + MAX_RX_TRANS <= Ceiling(bound)
  {
    AlignedBelow(a, Ceiling(bound));
  }

  /** The header word of a transaction. */
  lemma HitStart(bound: nat, a: nat)
    requires Aligned(a) && !Hit(bound, a)
    ensures a != bound && !Hit(bound, a + 1)
  {
  }

  /** Further words of a transaction that starts at a. */
  lemma HitWithin(bound: nat, a: nat, n: nat, m: nat)
    requires Aligned(a) && a < n <= m <= a + MAX_RX_TRANS
    ensures Hit(bound, m) <==> Hit(bound, n) || n < bound <= m
  {
    if n < bound <= m {
      NotNext(a, bound);
    }
  }

  lemma HitStop(bound: nat, a: nat, n: nat)
    requires Aligned(a) && !Hit(bound, a) && Hit(bound, n) && a < n <= a + MAX_RX_TRANS
    ensures Ceiling(bound) == a + MAX_RX_TRANS
  {
    CeilingAt(bound, a);
  }

  lemma NotNext(a: nat, b: nat)
    requires Aligned(a) && a + 1 < b <= a + MAX_RX_TRANS
    ensures !Unguarded(b)
  {
    var i := a / MAX_RX_TRANS;
    assert a == i * MAX_RX_TRANS;
    if b == a + MAX_RX_TRANS {
      AlignedNext(a);
    } else {
      assert b == i * MAX_RX_TRANS + (b - a);
      assert b % MAX_RX_TRANS == b - a;
    }
  }

  /** A frame that was stopped. */
  ghost predicate Fits(bound: nat, got: Frame) {
    |got| > 0 && |got| <= Ceiling(bound) && (!got[|got| - 1].last ==> |got| == Ceiling(bound))
  }

  /** The words of one transaction that continues the words got of its frame. */
  ghost predicate TranWords(words: seq<RxWord>, got: Frame) {
    && 1 <= |words| <= MAX_RX_TRANS && |got| + |words| < LENGTH_SPACE
    && (forall i :: 0 <= i < |words| - 1 ==> !words[i].last)
    && (!words[|words| - 1].last ==> |words| == MAX_RX_TRANS)
  }

  /** The queue entry q describes the transaction words that continues got. */
  ghost predicate Describes(q: Tran, words: seq<RxWord>, got: Frame)
    requires |words| > 0
  {
    && q.eof == words[|words| - 1].last
    && q.length == |words|
    && (|words| >= 2 ==> q.cnt == BodyCount(|words|) - 1)
    && q.eofe == Damaged(got + words)
    && q.subId == (got + words)[0].dest % 4
  }

  // ---------------------------------------------------------------------------------------
  // The invariant: got holds the words of the current frame already sent, and words the
  // current transaction, of which the first sent words are part of got.
  // ---------------------------------------------------------------------------------------

  ghost predicate Latched(r: RegType, words: seq<RxWord>, before: Frame) {
    && TranWords(words, before)
    && r.tranLength == |words|
    && (|words| >= 2 ==> r.tranCnt == BodyCount(|words|) - 1)
    && r.tranEof == words[|words| - 1].last
    && r.tranEofe == Damaged(before + words)
    && r.tranSubId == (before + words)[0].dest % 4
  }

  ghost predicate InFrame(r: RegType, base: nat, got: Frame) {
    && r.done.addr == base
    && r.done.length == |got|
    && 0 < r.maxFrame < LENGTH_SPACE && |got| < LENGTH_SPACE
    && r.newReq == false
  }

  ghost predicate StateInv(r: RegType, base: nat, got: Frame, words: seq<RxWord>, m: Receiver) {
    match r.state {
      case IdleS => !r.newReq && !r.doneReq && got == [] && m.left == 0
      case AckWaitS => r.newReq && !r.doneReq && got == [] && m.left == 0
      case ReadTransS =>
        && InFrame(r, base, got) && !r.doneReq && !r.lengthErr
        && Aligned(|got|) && !Hit(r.maxFrame, |got|)
        && r.newAddr == Wrap(base + |got|) && m.left == 0
        && (got != [] ==> !got[|got| - 1].last)
      case SendHdrS =>
        && InFrame(r, base, got) && !r.doneReq && !r.lengthErr
        && Aligned(|got|) && !Hit(r.maxFrame, |got|)
        && r.newAddr == Wrap(base + |got|) && m.left == 0
        && Latched(r, words, got) && r.cnt == 0
      case CollectS =>
        var p := 1 + 4 * r.cnt;
        && InFrame(r, base, got) && !r.doneReq && r.lengthErr == Hit(r.maxFrame, |got|)
        && p < |words| && p <= |got|
        && Aligned(|got| - p) && !Hit(r.maxFrame, |got| - p)
        && Latched(r, words, got[..|got| - p])
        && got[|got| - p..] == words[..p]
        && r.newAddr == Wrap(base + |got| - p + |words|)
        && m.left == |words| - p && Wrap(m.next) == Wrap(base + |got|)
      case TrDoneS =>
        && InFrame(r, base, got) && r.doneReq && |got| > 0
        && m.left == 0
        && r.lengthErr == Hit(r.maxFrame, |got|)
        && (if r.lengthErr then Fits(r.maxFrame, got) else got[|got| - 1].last)
        && r.tranEofe == Damaged(got) && r.tranSubId == got[0].dest % 4
        && r.done.eofe == Damaged(got) && r.done.subId == got[0].dest % 4
        && r.done.lengthErr == r.lengthErr
    }
  }

  ghost predicate Busy(r: RegType) {
    !r.state.IdleS? && !r.state.AckWaitS?
  }

  ghost predicate DmaInv(r: RegType, channel: nat, h: History) {
    var History(frames, bases, got, words, out) := h;
    var m := ReceiveAll(out);
    && |bases| == |frames| + (if Busy(r) then 1 else 0)
    && r.done.channel == channel
    && StateInv(r, if Busy(r) then bases[|frames|] else 0, got, words, m)
    && m.ok
    && m.writes == AllStored(frames, bases) + (if Busy(r) then Stored(got, bases[|frames|]) else [])
    && ((forall i :: 0 <= i < |bases| ==> Aligned(bases[i])) ==> m.inPage)
    && (r.txValid ==> |out| > 0 && out[|out| - 1] == r.tx)
    && (!r.txValid ==> !r.tx.last)
  }

  // ---------------------------------------------------------------------------------------
  // What one accepted beat does to the register.
  // ---------------------------------------------------------------------------------------

  function WriteHeader(r: RegType, reqId: nat, tag: nat): WriteHdr {
    WriteHdr(2, 0, if r.lengthErr then 1 else r.tranLength, reqId, tag,
             if r.lengthErr || r.tranLength == 1 then 0 else 0xF, 0xF, r.newAddr)
  }

  /** The header beat carries the first word of the transaction. */
  function SendHdr(v: RegType, r: RegType, b: Beat, reqId: nat, tag: nat): RegType {
    var lengthErr := v.lengthErr || r.done.length == r.maxFrame;
    var last := lengthErr || r.tranLength == 1;
    v.(txValid := true,
       tx := TlpBeat(Header(WriteHeader(r, reqId, tag), b.lanes[0]), last || v.tx.last),
       newAddr := Wrap(r.newAddr + r.tranLength),
       done := v.done.(length := (r.done.length + 1) % LENGTH_SPACE),
       lengthErr := lengthErr,
       doneReq := v.doneReq || lengthErr || (r.tranLength == 1 && (b.last || r.tranEof)),
       state := if lengthErr || (r.tranLength == 1 && (b.last || r.tranEof)) then TrDoneS
                else if r.tranLength == 1 then ReadTransS
                else CollectS)
  }

  /** A bound of zero: the first header word hits it, and the packet ends there. It is what its header says only if
      a single word was announced. */
  lemma ZeroBound(r: RegType, b: Beat, reqId: nat, tag: nat)
    requires r.state.SendHdrS? && !r.lengthErr && r.done.length == 0 && 1 <= r.tranLength <= 32
    ensures var u := SendHdr(r, r, b, reqId, tag);
            && (r.maxFrame == 0 <==> u.lengthErr) && (u.lengthErr ==> u.doneReq && u.state.TrDoneS? && u.tx.last)
            && (u.lengthErr ==> (ReceiveAll([u.tx]).ok <==> r.tranLength == 1))
  {
    var u := SendHdr(r, r, b, reqId, tag);
    assert [u.tx][..0] == [];
  }

  /** The length has 24 bits. */
  lemma LengthWraps(r: RegType, b: Beat, reqId: nat, tag: nat)
    requires 1 <= b.keep <= 4 && r.done.length < 0x100_0000
    ensures SendHdr(r, r, b, reqId, tag).done.length == (r.done.length + 1) % 0x100_0000
    ensures CountWords((r.done.length, r.lengthErr), r, b).0 == (r.done.length + b.keep) % 0x100_0000
  {
  }

  /** Word k of a body beat counts towards the frame length when its lane is kept. */
  function CountWord(count: (nat, bool), r: RegType, b: Beat, k: nat): (nat, bool) {
    if b.keep >= k then
      var length := (r.done.length + k) % LENGTH_SPACE;
      (length, count.1 || length == r.maxFrame)
    else count
  }

  function CountWords(count: (nat, bool), r: RegType, b: Beat): (nat, bool) {
    CountWord(CountWord(CountWord(CountWord(count, r, b, 1), r, b, 2), r, b, 3), r, b, 4)
  }

  function Collect(v: RegType, r: RegType, b: Beat): RegType {
    var (length, lengthErr) := CountWords((v.done.length, v.lengthErr), r, b);
    var v5 := v.(txValid := true, tx := TlpBeat(Payload(b.lanes, b.keep), v.tx.last),
                 done := v.done.(length := length), lengthErr := lengthErr, cnt := r.cnt + 1);
    if r.cnt == r.tranCnt then
      var over := b.last || r.tranEof || v5.lengthErr;
      v5.(tx := v5.tx.(last := true), doneReq := v5.doneReq || over,
          state := if over then TrDoneS else ReadTransS)
    else v5
  }

  /** The done status is refreshed at the end of every cycle. */
  function Status(v: RegType, r: RegType): (u: RegType)
    ensures u.state == v.state && u.txValid == v.txValid && u.tx == v.tx && u.maxFrame == v.maxFrame
    ensures u.cnt == v.cnt && u.lengthErr == v.lengthErr
  {
    v.(done := v.done.(lengthErr := v.lengthErr, eofe := v.tranEofe, subId := r.tranSubId))
  }

  lemma HdrKeepsState(r: RegType, u: RegType, base: nat, got: Frame, words: seq<RxWord>, m: Receiver, m': Receiver)
    requires r.state.SendHdrS? && StateInv(r, base, got, words, m)
    requires m'.left == |words| - 1 && m'.next == r.newAddr + 1
    requires var one := |words| == 1; var over := one && r.tranEof;
             u == r.(txValid := true, tx := u.tx, newAddr := Wrap(r.newAddr + |words|), doneReq := over,
                     done := Done(r.done.addr, |got| + 1, false, r.tranEofe, r.done.channel, r.tranSubId),
                     state := if over then TrDoneS else if one then ReadTransS else CollectS)
    ensures StateInv(u, base, got + [words[0]], words, m')
  {
    hide Damaged, BodyCount, Wrap, Aligned, Hit, Fits;
    var g := got + [words[0]];
    HitStart(r.maxFrame, |got|);
    WrapTwice(base + |got|);
    WrapAdd(r.newAddr, base + |got|, |words|);
    WrapAdd(r.newAddr, base + |got|, 1);
    if |words| == 1 {
      assert got + words == g;
    } else {
      assert g[..|g| - 1] == got;
      assert g[|g| - 1..] == words[..1];
    }
  }

  lemma HdrEntry(r: RegType, base: nat, got: Frame, words: seq<RxWord>, m: Receiver)
    requires r.state.SendHdrS? && StateInv(r, base, got, words, m)
    ensures 1 <= |words| <= MAX_RX_TRANS && r.tranLength == |words| && r.tranEof == words[|words| - 1].last
    ensures r.done.length == |got| && |got| + 1 < LENGTH_SPACE && |got| != r.maxFrame && !r.lengthErr && !r.doneReq
    ensures r.newAddr == Wrap(base + |got|) && Aligned(|got|) && m.left == 0
  {
    hide Hit, Damaged, BodyCount, Wrap, Aligned;
    HitStart(r.maxFrame, |got|);
  }

  lemma InPage(base: nat, n: nat, len: nat)
    requires Aligned(base) && Aligned(n) && len <= MAX_RX_TRANS
    ensures Wrap(base + n) % PAGE + len <= PAGE
  {
    AlignedSum(base, n);
    AlignedWrap(base + n);
    hide Wrap;
    RunInPage(Wrap(base + n), len);
  }

  lemma AlignedSum(a: int, b: int)
    requires Aligned(a) && Aligned(b)
    ensures Aligned(a + b)
  {
    var i, j := a / MAX_RX_TRANS, b / MAX_RX_TRANS;
    assert a + b == (i + j) * MAX_RX_TRANS;
  }

  lemma AlignedWrap(a: nat)
    requires Aligned(a)
    ensures Aligned(Wrap(a))
  {
    var i, j := a / MAX_RX_TRANS, a / ADDR_SPACE;
    assert Wrap(a) == (i - j * (ADDR_SPACE / MAX_RX_TRANS)) * MAX_RX_TRANS;
  }

  lemma RunInPage(a: nat, len: nat)
    requires Aligned(a) && len <= MAX_RX_TRANS
    ensures a % PAGE + len <= PAGE
  {
    var i, j := a / MAX_RX_TRANS, a / PAGE;
    assert a % PAGE == (i - j * (PAGE / MAX_RX_TRANS)) * MAX_RX_TRANS;
  }

  lemma HdrKeeps(v: RegType, r: RegType, base: nat, got: Frame, words: seq<RxWord>, m: Receiver, b: Beat, reqId: nat,
                 tag: nat)
    requires r.state.SendHdrS? && StateInv(r, base, got, words, m)
    requires v == r.(txValid := false, tx := r.tx.(last := false))
    requires HeadBeat(words, b) && m.ok
    ensures var u := Status(SendHdr(v, r, b, reqId, tag), r);
            var m' := Receive(m, u.tx);
            && StateInv(u, base, got + [words[0]], words, m')
            && m'.ok
            && m'.writes == m.writes + Run(base + |got|, [Swap(words[0].data)])
            && (m.inPage && Aligned(base) ==> m'.inPage)
            && u.txValid && Busy(u) && u.done.channel == r.done.channel
  {
    hide Damaged, BodyCount, Stored, Describes, StateInv, Wrap, Aligned;
    var u := Status(SendHdr(v, r, b, reqId, tag), r);
    var m' := Receive(m, u.tx);
    HdrEntry(r, base, got, words, m);
    WrapTwice(base + |got|);
    assert m'.writes == m.writes + Run(base + |got|, [Swap(words[0].data)]);
    if Aligned(base) {
      InPage(base, |got|, |words|);
    }
    HdrKeepsState(r, u, base, got, words, m, m');
  }

  /** The four lane counts add up to the kept lanes, and hit the bound when they reach it. */
  lemma Counted(count: (nat, bool), r: RegType, b: Beat)
    requires 1 <= b.keep <= 4 && r.done.length + b.keep < LENGTH_SPACE
    ensures CountWords(count, r, b)
            == (r.done.length + b.keep, count.1 || r.done.length < r.maxFrame <= r.done.length + b.keep)
  {
  }

  lemma CollectFacts(v: RegType, r: RegType, b: Beat)
    requires v == r.(txValid := false, tx := r.tx.(last := false)) && !r.doneReq && r.state.CollectS?
    requires 1 <= b.keep <= 4 && r.done.length + b.keep < LENGTH_SPACE
    ensures var u := Status(Collect(v, r, b), r);
            var fin := r.cnt == r.tranCnt;
            var err := r.lengthErr || r.done.length < r.maxFrame <= r.done.length + b.keep;
            var over := fin && (b.last || r.tranEof || err);
            u == r.(txValid := true, tx := TlpBeat(Payload(b.lanes, b.keep), fin), cnt := r.cnt + 1,
                    lengthErr := err, doneReq := over,
                    done := r.done.(length := r.done.length + b.keep, lengthErr := err,
                                    eofe := r.tranEofe, subId := r.tranSubId),
                    state := if over then TrDoneS else if fin then ReadTransS else CollectS)
  {
    hide CountWords;
    Counted((v.done.length, v.lengthErr), r, b);
  }

  /** The transaction goes on after this body beat. */
  lemma CollectMiddle(r: RegType, u: RegType, base: nat, got: Frame, words: seq<RxWord>, m: Receiver, m': Receiver)
    requires r.state.CollectS? && StateInv(r, base, got, words, m)
    requires 5 + 4 * r.cnt < |words|
    requires m'.left == m.left - 4 && m'.next == m.next + 4
    requires var err := Hit(r.maxFrame, |got| + 4);
             u == r.(txValid := true, tx := u.tx, cnt := r.cnt + 1, lengthErr := err,
                     done := Done(r.done.addr, |got| + 4, err, r.tranEofe, r.done.channel, r.tranSubId))
    ensures StateInv(u, base, got + words[1 + 4 * r.cnt..5 + 4 * r.cnt], words, m')
  {
    hide Damaged, BodyCount, Wrap, Aligned, Hit, Fits;
    var p := 1 + 4 * r.cnt;
    var before := got[..|got| - p];
    var g := got + words[p..p + 4];
    assert got == before + words[..p];
    assert g[..|g| - (p + 4)] == before;
    assert g[|g| - (p + 4)..] == words[..p + 4];
    WrapAdd(m.next, base + |got|, 4);
  }

  /** This body beat is the last of its transaction. */
  lemma CollectFinal(r: RegType, u: RegType, base: nat, got: Frame, words: seq<RxWord>, m: Receiver, m': Receiver)
    requires r.state.CollectS? && StateInv(r, base, got, words, m)
    requires m'.left == 0
    requires var p := 1 + 4 * r.cnt;
             var n := |got| - p + |words|;
             var err := Hit(r.maxFrame, n);
             var over := r.tranEof || err;
             u == r.(txValid := true, tx := u.tx, cnt := r.cnt + 1, lengthErr := err, doneReq := over,
                     done := Done(r.done.addr, n, err, r.tranEofe, r.done.channel, r.tranSubId),
                     state := if over then TrDoneS else ReadTransS)
    ensures StateInv(u, base, got + words[1 + 4 * r.cnt..], words, m')
  {
    hide Damaged, BodyCount, Wrap, Aligned, Hit;
    var p := 1 + 4 * r.cnt;
    var before := got[..|got| - p];
    var g := got + words[p..];
    AlignedNext(|before|);
    assert got == before + words[..p];
    assert g == before + words;
    if Hit(r.maxFrame, |g|) {
      HitStop(r.maxFrame, |before|, |g|);
    }
    assert g[|g| - 1] == words[|words| - 1];
    assert u.state.ReadTransS? ==> |g| == |before| + MAX_RX_TRANS;
  }

  lemma CollectEntry(r: RegType, base: nat, got: Frame, words: seq<RxWord>, m: Receiver)
    requires r.state.CollectS? && StateInv(r, base, got, words, m)
    ensures var p := 1 + 4 * r.cnt;
            && p < |words| && p <= |got| && m.left == |words| - p
            && r.done.length == |got| && |got| - p + |words| < LENGTH_SPACE && |words| <= MAX_RX_TRANS
            && r.lengthErr == Hit(r.maxFrame, |got|) && Aligned(|got| - p) && !r.doneReq
            && r.tranEof == words[|words| - 1].last
            && Wrap(m.next) == Wrap(base + |got|)
            && (r.cnt == r.tranCnt <==> |words| <= p + 4)
            && BodyBeat(words, r.cnt).last == (|words| <= p + 4 && r.tranEof)
  {
    LastBody(|words|, r.cnt);
  }

  lemma CollectKeeps(v: RegType, r: RegType, base: nat, got: Frame, words: seq<RxWord>, m: Receiver, b: Beat)
    requires r.state.CollectS? && StateInv(r, base, got, words, m)
    requires v == r.(txValid := false, tx := r.tx.(last := false))
    requires b == BodyBeat(words, r.cnt) && m.ok
    ensures var u := Status(Collect(v, r, b), r);
            var m' := Receive(m, u.tx);
            var p := 1 + 4 * r.cnt;
            && StateInv(u, base, got + words[p..p + b.keep], words, m')
            && m'.ok
            && m'.writes == m.writes + Run(m.next, b.lanes[..b.keep])
            && m'.inPage == m.inPage
            && u.txValid && Busy(u) && u.done.channel == r.done.channel
  {
    hide Damaged, Stored, Describes, Run, Collect, Status, BodyCount, StateInv, Wrap, Aligned, Hit;
    var u := Status(Collect(v, r, b), r);
    var m' := Receive(m, u.tx);
    var p := 1 + 4 * r.cnt;
    CollectEntry(r, base, got, words, m);
    CollectFacts(v, r, b);
    HitWithin(r.maxFrame, |got| - p, |got|, |got| + b.keep);
    if r.cnt == r.tranCnt {
      assert words[p..p + b.keep] == words[p..];
      CollectFinal(r, u, base, got, words, m, m');
    } else {
      CollectMiddle(r, u, base, got, words, m, m');
    }
  }

  lemma LastBody(n: nat, c: nat)
    requires 1 + 4 * c < n
    ensures c == BodyCount(n) - 1 <==> n <= 5 + 4 * c
  {
  }

  // ---------------------------------------------------------------------------------------
  // The invariant over the whole output history.
  // ---------------------------------------------------------------------------------------

  /** A cycle in which nothing is offered and the state stays put. */
  function Quiet(r: RegType, txReady: bool): (v: RegType)
    ensures v.state == r.state && v.txValid == (r.txValid && !txReady) && v.maxFrame == r.maxFrame
    ensures v.cnt == r.cnt && v.lengthErr == r.lengthErr
  {
    if txReady then r.(txValid := false, tx := r.tx.(last := false)) else r
  }

  lemma QuietKeeps(r: RegType, base: nat, got: Frame, words: seq<RxWord>, m: Receiver, txReady: bool)
    requires StateInv(r, base, got, words, m)
    ensures StateInv(Status(Quiet(r, txReady), r), base, got, words, m)
  {
  }

  /** The descriptor in use. */
  ghost function Base(h: History): nat
    requires |h.frames| < |h.bases|
  {
    h.bases[|h.frames|]
  }

  lemma QuietInv(r: RegType, channel: nat, h: History, txReady: bool)
    requires DmaInv(r, channel, h)
    ensures DmaInv(Status(Quiet(r, txReady), r), channel, h)
  {
    hide StateInv, ReceiveAll, AllStored, Stored;
    QuietKeeps(r, if Busy(r) then Base(h) else 0, h.got, h.words, ReceiveAll(h.out), txReady);
  }

  /** A new request, sent when both queues show the start of a frame. */
  function Request(v: RegType): (u: RegType)
    ensures u.state == AckWaitS && u.txValid == v.txValid && u.maxFrame == v.maxFrame && u.lengthErr == v.lengthErr
  {
    v.(newReq := true, state := AckWaitS)
  }

  lemma RequestInv(r: RegType, channel: nat, h: History, txReady: bool)
    requires DmaInv(r, channel, h) && r.state.IdleS?
    ensures DmaInv(Status(Request(Quiet(r, txReady)), r), channel, h)
  {
    hide ReceiveAll, AllStored, Stored;
  }

  /** The acknowledge opens the descriptor. */
  function Open(v: RegType, d: DescFromPci): (u: RegType)
    ensures u.state == ReadTransS && u.txValid == v.txValid && u.maxFrame == d.maxFrame
  {
    v.(newReq := false, lengthErr := false, done := v.done.(addr := d.newAddr, length := 0),
       newAddr := d.newAddr, maxFrame := d.maxFrame, state := ReadTransS)
  }

  lemma OpenInv(r: RegType, channel: nat, h: History, d: DescFromPci, txReady: bool)
    requires DmaInv(r, channel, h) && r.state.AckWaitS? && DescOk(d)
    ensures DmaInv(Status(Open(Quiet(r, txReady), d), r), channel, h.(bases := h.bases + [d.newAddr]))
  {
    hide ReceiveAll, AllStored;
    AllStoredBases(h.frames, h.bases, [d.newAddr]);
    var bs := h.bases + [d.newAddr];
    assert forall i :: 0 <= i < |h.bases| ==> bs[i] == h.bases[i];
  }

  /** The queue entry latches the next transaction. */
  function ReadTran(v: RegType, q: Tran): (u: RegType)
    ensures u.state == SendHdrS && u.txValid == v.txValid && u.maxFrame == v.maxFrame
  {
    v.(tranSubId := q.subId, tranEof := q.eof, tranEofe := q.eofe, tranLength := q.length,
       tranCnt := q.cnt, cnt := 0, state := SendHdrS)
  }

  lemma ReadInv(r: RegType, channel: nat, h: History, q: Tran, next: seq<RxWord>, txReady: bool)
    requires DmaInv(r, channel, h) && r.state.ReadTransS?
    requires TranWords(next, h.got) && Describes(q, next, h.got)
    ensures DmaInv(Status(ReadTran(Quiet(r, txReady), q), r), channel, h.(words := next))
  {
    hide ReceiveAll, AllStored, Stored, Damaged, BodyCount;
  }

  /** The done acknowledge moves the frame to the finished ones. */
  function Close(v: RegType): (u: RegType)
    ensures u.state == IdleS && u.txValid == v.txValid && u.maxFrame == v.maxFrame && u.lengthErr == v.lengthErr
  {
    v.(doneReq := false, state := IdleS)
  }

  lemma CloseInv(r: RegType, channel: nat, h: History, txReady: bool)
    requires DmaInv(r, channel, h) && r.state.TrDoneS?
    ensures |h.got| > 0 && |h.frames| < |h.bases| && r.done == Report(h.got, Base(h), r.lengthErr, channel)
    ensures DmaInv(Status(Close(Quiet(r, txReady)), r), channel, h.(frames := h.frames + [h.got], got := []))
  {
    hide ReceiveAll, AllStored, Stored, Damaged;
    AllStoredPush(h.frames, h.got, h.bases);
  }

  /** A beat that stores the words ws of the current frame extends the write history by them. */
  lemma Sent(r: RegType, u: RegType, channel: nat, h: History, ws: seq<RxWord>, addr: nat, lanes: seq<Dw>)
    requires DmaInv(r, channel, h) && Busy(r) && Busy(u)
    requires var m := ReceiveAll(h.out); var m' := Receive(m, u.tx);
             && StateInv(u, Base(h), h.got + ws, h.words, m')
             && m'.ok
             && m'.writes == m.writes + Run(addr, lanes)
             && (m.inPage && Aligned(Base(h)) ==> m'.inPage)
    requires u.txValid && u.done.channel == channel
    requires Wrap(addr) == Wrap(Base(h) + |h.got|)
    requires |lanes| == |ws| && forall i :: 0 <= i < |ws| ==> lanes[i] == Swap(ws[i].data)
    ensures DmaInv(u, channel, h.(got := h.got + ws, out := h.out + [u.tx]))
  {
    hide StateInv, Receive, AllStored, Stored, Run, Wrap, Aligned;
    ReceivePush(h.out, u.tx);
    StoredAppend(h.got, ws, Base(h), addr, lanes);
  }

  /** The words a beat carries, and the register after it. */
  ghost function Moved(r: RegType, words: seq<RxWord>, b: Beat): seq<RxWord> {
    if r.state.SendHdrS? && |words| > 0 then [words[0]]
    else if r.state.CollectS? && 1 + 4 * r.cnt + b.keep <= |words| then words[1 + 4 * r.cnt..1 + 4 * r.cnt + b.keep]
    else []
  }

  function Move(v: RegType, r: RegType, b: Beat, reqId: nat, tag: nat): RegType {
    if r.state.SendHdrS? then SendHdr(v, r, b, reqId, tag) else Collect(v, r, b)
  }

  /** The beat the engine expects next. */
  ghost predicate Expected(r: RegType, words: seq<RxWord>, b: Beat) {
    && (r.state.SendHdrS? ==> HeadBeat(words, b))
    && (r.state.CollectS? ==> 1 + 4 * r.cnt < |words| && b == BodyBeat(words, r.cnt))
  }

  /** The engine collects until every word of the transaction is sent. */
  ghost predicate MovedTo(r: RegType, u: RegType, words: seq<RxWord>, b: Beat) {
    var p := if r.state.SendHdrS? then 1 else 1 + 4 * r.cnt + b.keep;
    && p <= |words|
    && u.cnt == (if r.state.SendHdrS? then 0 else r.cnt + 1)
    && (if p < |words| then u.state.CollectS? else u.state.ReadTransS? || u.state.TrDoneS?)
  }

  lemma BodyLanes(words: seq<RxWord>, c: nat)
    requires 1 + 4 * c < |words|
    ensures var b := BodyBeat(words, c); var j := 1 + 4 * c;
            && j + b.keep <= |words| && b.keep <= 4
            && forall i :: 0 <= i < b.keep ==> b.lanes[..b.keep][i] == Swap(words[j..j + b.keep][i].data)
  {
  }

  lemma HdrMoved(r: RegType, u: RegType, base: nat, got: Frame, words: seq<RxWord>, m: Receiver, b: Beat, reqId: nat,
                 tag: nat, v: RegType)
    requires r.state.SendHdrS? && StateInv(r, base, got, words, m) && !v.lengthErr && v.cnt == r.cnt
    requires u == Status(SendHdr(v, r, b, reqId, tag), r)
    ensures MovedTo(r, u, words, b)
  {
    HdrEntry(r, base, got, words, m);
  }

  lemma CollectMoved(r: RegType, u: RegType, base: nat, got: Frame, words: seq<RxWord>, m: Receiver, b: Beat,
                     v: RegType)
    requires r.state.CollectS? && StateInv(r, base, got, words, m) && v.state == r.state
    requires b == BodyBeat(words, r.cnt) && u == Status(Collect(v, r, b), r)
    ensures MovedTo(r, u, words, b)
  {
    hide CountWords;
    CollectEntry(r, base, got, words, m);
  }

  lemma DmaParts(r: RegType, channel: nat, h: History)
    requires DmaInv(r, channel, h) && Busy(r)
    ensures |h.frames| < |h.bases| && r.done.channel == channel && (!r.txValid ==> !r.tx.last)
    ensures StateInv(r, Base(h), h.got, h.words, ReceiveAll(h.out)) && ReceiveAll(h.out).ok
  {
    hide StateInv, ReceiveAll, AllStored, Stored;
  }

  lemma HdrMove(r: RegType, channel: nat, h: History, b: Beat, reqId: nat, tag: nat, txReady: bool)
    requires DmaInv(r, channel, h) && r.state.SendHdrS?
    requires !Quiet(r, txReady).txValid && Expected(r, h.words, b)
    ensures var u := Status(Move(Quiet(r, txReady), r, b, reqId, tag), r);
            && DmaInv(u, channel, h.(got := h.got + Moved(r, h.words, b), out := h.out + [u.tx]))
            && u.txValid && u.maxFrame == r.maxFrame
            && MovedTo(r, u, h.words, b)
  {
    hide StateInv, ReceiveAll, Receive, AllStored, Stored, Run, Status, SendHdr, Collect, Wrap, Aligned, MovedTo;
    var v := Quiet(r, txReady);
    var u := Status(Move(v, r, b, reqId, tag), r);
    var base, m := Base(h), ReceiveAll(h.out);
    BoundKept(v, r, b, reqId, tag);
    HdrEntry(r, base, h.got, h.words, m);
    HdrKeeps(v, r, base, h.got, h.words, m, b, reqId, tag);
    HdrMoved(r, u, base, h.got, h.words, m, b, reqId, tag, v);
    Sent(r, u, channel, h, [h.words[0]], base + |h.got|, [Swap(h.words[0].data)]);
  }

  lemma CollectMove(r: RegType, channel: nat, h: History, b: Beat, reqId: nat, tag: nat, txReady: bool)
    requires DmaInv(r, channel, h) && r.state.CollectS?
    requires !Quiet(r, txReady).txValid && Expected(r, h.words, b)
    ensures var u := Status(Move(Quiet(r, txReady), r, b, reqId, tag), r);
            && DmaInv(u, channel, h.(got := h.got + Moved(r, h.words, b), out := h.out + [u.tx]))
            && u.txValid && u.maxFrame == r.maxFrame
            && MovedTo(r, u, h.words, b)
  {
    hide DmaInv, StateInv, ReceiveAll, Receive, AllStored, Stored, Run, Status, SendHdr, Collect, Wrap, Aligned,
      MovedTo;
    DmaParts(r, channel, h);
    var v := Quiet(r, txReady);
    var u := Status(Move(v, r, b, reqId, tag), r);
    var base, m := Base(h), ReceiveAll(h.out);
    BoundKept(v, r, b, reqId, tag);
    CollectEntry(r, base, h.got, h.words, m);
    CollectKeeps(v, r, base, h.got, h.words, m, b);
    CollectMoved(r, u, base, h.got, h.words, m, b, v);
    BodyLanes(h.words, r.cnt);
    Sent(r, u, channel, h, Moved(r, h.words, b), m.next, b.lanes[..b.keep]);
  }

  lemma MoveInv(r: RegType, channel: nat, h: History, b: Beat, reqId: nat, tag: nat, txReady: bool)
    requires DmaInv(r, channel, h) && (r.state.SendHdrS? || r.state.CollectS?)
    requires !Quiet(r, txReady).txValid && Expected(r, h.words, b)
    ensures var u := Status(Move(Quiet(r, txReady), r, b, reqId, tag), r);
            && DmaInv(u, channel, h.(got := h.got + Moved(r, h.words, b), out := h.out + [u.tx]))
            && u.txValid && u.maxFrame == r.maxFrame
            && MovedTo(r, u, h.words, b)
  {
    hide DmaInv, Status, Move, Moved, MovedTo, Expected, Quiet;
    if r.state.SendHdrS? {
      HdrMove(r, channel, h, b, reqId, tag, txReady);
    } else {
      CollectMove(r, channel, h, b, reqId, tag, txReady);
    }
  }

  lemma BoundKept(v: RegType, r: RegType, b: Beat, reqId: nat, tag: nat)
    ensures Status(SendHdr(v, r, b, reqId, tag), r).maxFrame == v.maxFrame == Status(Collect(v, r, b), r).maxFrame
  {
  }

  /** What goes into the engine in one cycle, with the words its queue entry announces, and what comes out. */
  datatype Cycle = Cycle(
    tran: Option<Tran>, beat: Option<Beat>, desc: DescFromPci, txReady: bool, next: seq<RxWord>,
    tranRd: bool, rxReady: bool, done: Option<Done>)

  /** The whole effect of one cycle, state by state: handshakes, history and next state. */
  ghost predicate Stepped(r: RegType, h: History, r': RegType, h': History, channel: nat,
                          c: Cycle)
  {
    && (match r.state
        case IdleS =>
          && c.tranRd == (c.tran.Some? && !c.tran.value.sof)
          && c.rxReady == (c.beat.Some? && !c.beat.value.sof)
          && r'.state == (if c.tran.Some? && c.beat.Some? && c.tran.value.sof && c.beat.value.sof
                          then AckWaitS else IdleS)
          && r'.lengthErr == r.lengthErr
          && h' == h && c.done == None
        case AckWaitS =>
          && !c.tranRd && !c.rxReady
          && r'.state == (if c.desc.newAck then ReadTransS else AckWaitS)
          && h' == (if c.desc.newAck then h.(bases := h.bases + [c.desc.newAddr]) else h) && c.done == None
        case ReadTransS =>
          && c.tranRd == c.tran.Some? && !c.rxReady
          && r'.state == (if c.tran.Some? then SendHdrS else ReadTransS)
          && h' == (if c.tran.Some? then h.(words := c.next) else h) && c.done == None
        case TrDoneS =>
          && !c.tranRd && !c.rxReady
          && r'.state == (if c.desc.doneAck then IdleS else TrDoneS)
          && r'.lengthErr == r.lengthErr
          && |h.frames| < |h.bases| && |h.got| > 0
          && h' == (if c.desc.doneAck then h.(frames := h.frames + [h.got], got := []) else h)
          && c.done == if c.desc.doneAck then Some(Report(h.got, Base(h), r.lengthErr, channel)) else None
        case _ =>
          && !c.tranRd && c.rxReady == (c.beat.Some? && (c.txReady || !r.txValid))
          && h' == (if c.rxReady then h.(got := h.got + Moved(r, h.words, c.beat.value), out := h.out + [r'.tx]) else h)
          && (if c.rxReady then MovedTo(r, r', h.words, c.beat.value) else r'.state == r.state && r'.cnt == r.cnt)
          && c.done == None)
    && r'.txValid == (((r.state.SendHdrS? || r.state.CollectS?) && c.rxReady) || (r.txValid && !c.txReady))
    && r'.maxFrame == if r.state.AckWaitS? && c.desc.newAck then c.desc.maxFrame else r.maxFrame
  }

  /** Every packet carries the card's requester ID and the tag of its lane. */
  ghost predicate Marked(out: seq<TlpBeat>, reqId: nat, tag: nat) {
    forall k :: 0 <= k < |out| && out[k].body.Header? ==>
      out[k].body.hdr.reqId == reqId && out[k].body.hdr.tag == tag
  }

  lemma MarkedMove(out: seq<TlpBeat>, v: RegType, r: RegType, b: Beat, reqId: nat, tag: nat)
    requires Marked(out, reqId, tag)
    ensures Marked(out + [Status(Move(v, r, b, reqId, tag), r).tx], reqId, tag)
  {
    hide CountWords;
  }

  class PciRxDma {
    const channel: nat
    const reqId: nat
    const tag: nat
    var r: RegType
    ghost var h: History

    ghost predicate Valid()
      reads this
    {
      DmaInv(r, channel, h) && Marked(h.out, reqId, tag)
    }

    constructor (channel: nat, reqId: nat, tag: nat)
      ensures Valid() && this.channel == channel && this.reqId == reqId && this.tag == tag
      ensures r == RegInit(channel) && h == History([], [], [], [], [])
    {
      this.channel, this.reqId, this.tag := channel, reqId, tag;
      r := RegInit(channel);
      h := History([], [], [], [], []);
    }

    /** One pciClk cycle. tran and beat are the queue heads this cycle makes visible; next holds the
        words that tran announces. */
    method Step(tran: Option<Tran>, beat: Option<Beat>, desc: DescFromPci, txReady: bool, ghost next: seq<RxWord>)
      returns (tranRd: bool, rxReady: bool, tx: Option<TlpBeat>, done: Option<Done>)
      requires Valid()
      requires !(r.state.IdleS? && r.lengthErr)
      requires r.state.AckWaitS? && desc.newAck ==> DescOk(desc)
      requires r.state.ReadTransS? && tran.Some? ==> TranWords(next, h.got) && Describes(tran.value, next, h.got)
      requires beat.Some? ==> Expected(r, h.words, beat.value)
      modifies this
      ensures Valid()
      ensures tx == if old(r.txValid) && txReady then Some(old(r.tx)) else None
      ensures Stepped(old(r), old(h), r, h, channel, Cycle(tran, beat, desc, txReady, next, tranRd, rxReady, done))
    {
      hide DmaInv, Status, Quiet, Request, Open, ReadTran, Close, Move, Moved, Expected, TranWords, Describes, Report,
        DescOk, Base, MovedTo, Marked;
      tranRd, rxReady := false, false;
      tx := if r.txValid && txReady then Some(r.tx) else None;
      done := None;
      var v := Quiet(r, txReady);
      QuietInv(r, channel, h, txReady);
      match r.state {
        case IdleS =>
          if tran.Some? && beat.Some? && tran.value.sof && beat.value.sof {
            RequestInv(r, channel, h, txReady);
            v := Request(v);
          }
          tranRd := tran.Some? && !tran.value.sof;
          rxReady := beat.Some? && !beat.value.sof;
        case AckWaitS =>
          if desc.newAck {
            OpenInv(r, channel, h, desc, txReady);
            v := Open(v, desc);
            h := h.(bases := h.bases + [desc.newAddr]);
          }
        case ReadTransS =>
          if tran.Some? {
            tranRd := true;
            ReadInv(r, channel, h, tran.value, next, txReady);
            v := ReadTran(v, tran.value);
            h := h.(words := next);
          }
        case TrDoneS =>
          CloseInv(r, channel, h, txReady);
          if desc.doneAck {
            v := Close(v);
            done := Some(r.done);
            h := h.(frames := h.frames + [h.got], got := []);
          }
        case _ =>
          if !v.txValid && beat.Some? {
            rxReady := true;
            MoveInv(r, channel, h, beat.value, reqId, tag, txReady);
            MarkedMove(h.out, v, r, beat.value, reqId, tag);
            v := Move(v, r, beat.value, reqId, tag);
            h := h.(got := h.got + Moved(r, h.words, beat.value), out := h.out + [Status(v, r).tx]);
          }
      }
      r := Status(v, r);
    }
  }
}
