/** The packer and the DMA engine of one lane, coupled by the data queue and the transaction queue. */
module RxChannel {
  import opened AxiStream
  import opened RxFrames
  import opened RxTransactions
  import opened RxMemory
  import opened RxDma
  import P = RxPacker

  /** One clock edge of either side. A queue head is visible to the engine only when the schedule says so,
      which stands for any FIFO latency; pause, txReady and the descriptor answers are arbitrary too. */
  datatype Edge =
    | PackEdge(word: Option<RxWord>, pause: bool)
    | DmaEdge(seeBeat: bool, seeTran: bool, desc: DescFromPci, txReady: bool)

  /** What the queues have seen: everything packed, except the beat or entry still in a register. */
  ghost predicate QueueOf<T>(q: seq<T>, all: seq<T>, taken: nat, pending: bool) {
    var n := |all| - (if pending then 1 else 0);
    taken <= n && q == all[taken..n]
  }

  /** The engine's place in the packed stream: rT entries and rB beats consumed. */
  ghost predicate InStep(r: RegType, h: History, ts: seq<Txn>, fs: seq<Frame>, rT: nat, rB: nat) {
    var d := |h.frames|;
    && rT <= |ts|
    && match r.state {
         case IdleS => rB == BeatCount(ts[..rT]) && Resume(ts[..rT]) == (d, 0)
         case AckWaitS => rB == BeatCount(ts[..rT]) && Resume(ts[..rT]) == (d, 0) && rT < |ts|
         case ReadTransS =>
           && rB == BeatCount(ts[..rT]) && Resume(ts[..rT]) == (d, |h.got|)
           && (h.got == [] ==> rT < |ts|)
         case SendHdrS =>
           && rT > 0 && rB == BeatCount(ts[..rT - 1])
           && ts[rT - 1].words == h.words && ts[rT - 1].frame == d && ts[rT - 1].start == |h.got|
         case CollectS =>
           && rT > 0 && rB == BeatCount(ts[..rT - 1]) + 1 + r.cnt && 1 + 4 * r.cnt < |h.words|
           && ts[rT - 1].words == h.words && ts[rT - 1].frame == d && ts[rT - 1].start + 1 + 4 * r.cnt == |h.got|
         case TrDoneS =>
           && rB == BeatCount(ts[..rT])
           && (!r.lengthErr ==> Resume(ts[..rT]) == (d + 1, 0))
       }
  }

  /** The frame that hit the descriptor's bound has been reported. */
  predicate Stopped(r: RegType) {
    r.state.IdleS? && r.lengthErr
  }

  ghost predicate Closed(f: Frame) {
    |f| > 0 && f[|f| - 1].last
  }

  /** The engine has finished whole frames, in order, and is sending a prefix of the next one; only a
      frame that hit its bound may be cut short. */
  ghost predicate Delivered(r: RegType, h: History, fs: seq<Frame>) {
    var d := |h.frames|;
    && d <= |fs|
    && (forall j :: 0 <= j < d ==> |h.frames[j]| > 0 && h.frames[j] <= fs[j])
    && (forall j :: 0 <= j < d && (j < d - 1 || !Stopped(r)) ==> h.frames[j] == fs[j] && Closed(fs[j]))
    && (Stopped(r) ==> d > 0)
    && (h.got != [] ==> d < |fs| && h.got <= fs[d])
    && (r.state.TrDoneS? && !r.lengthErr ==> d < |fs| && h.got == fs[d] && Closed(fs[d]))
  }

  /** The entry at the head of the transaction queue is what the engine expects in READ_TRANS_S. */
  lemma NextTran(r: RegType, h: History, ts: seq<Txn>, fs: seq<Frame>, qs: seq<Tran>, rT: nat, rB: nat)
    requires FramesShape(fs) && ChainOk(ts, fs) && AllAnnounced(qs, ts, fs)
    requires InStep(r, h, ts, fs, rT, rB) && Delivered(r, h, fs)
    requires r.state.ReadTransS? && rT < |ts| && |h.got| + |ts[rT].words| < LENGTH_SPACE
    ensures ts[rT].frame == |h.frames| && ts[rT].start == |h.got|
    ensures TranWords(ts[rT].words, h.got) && Describes(qs[rT], ts[rT].words, h.got)
  {
    ResumeAt(ts, fs, rT);
    var t := ts[rT];
    assert TxnOk(t, fs) && Announces(qs[rT], t, fs) && FrameShape(fs[t.frame]);
    hide FramesShape, ChainOk, AllAnnounced, BeatCount, Resume, Damaged, BodyCount;
    TranFacts(fs, t, h.got, qs[rT]);
  }

  /** A transaction of a frame whose first words have been sent. */
  lemma TranFacts(fs: seq<Frame>, t: Txn, got: Frame, q: Tran)
    requires TxnOk(t, fs) && FrameShape(fs[t.frame]) && Announces(q, t, fs) && got == fs[t.frame][..t.start]
    requires t.start + |t.words| < LENGTH_SPACE
    ensures TranWords(t.words, got) && Describes(q, t.words, got)
  {
    hide Damaged, BodyCount;
    var f := fs[t.frame];
    assert got + t.words == f[..t.start + |t.words|];
    forall i | 0 <= i < |t.words| - 1
      ensures !t.words[i].last
    {
      assert t.words[i] == f[t.start + i];
    }
  }

  lemma ResumeAt(ts: seq<Txn>, fs: seq<Frame>, k: nat)
    requires ChainOk(ts, fs) && k < |ts|
    ensures Resume(ts[..k]) == (ts[k].frame, ts[k].start)
  {
    if k > 0 {
      assert Follows(ts[k - 1], ts[k]);
    }
  }

  /** The beat at the head of the data queue is what the engine expects while sending. */
  lemma NextBeat(r: RegType, h: History, ts: seq<Txn>, fs: seq<Frame>, bs: seq<Beat>, rT: nat, rB: nat)
    requires AllBeats(bs, ts) && InStep(r, h, ts, fs, rT, rB) && rB < |bs|
    ensures Expected(r, h.words, bs[rB])
  {
    if r.state.SendHdrS? || r.state.CollectS? {
      var k := rT - 1;
      assert BeatsAt(bs, BeatCount(ts[..k]), ts[k].words, BodyCount(|ts[k].words|));
      if r.state.CollectS? {
        assert bs[BeatCount(ts[..k]) + 1 + r.cnt] == BodyBeat(h.words, r.cnt);
      }
    }
  }

  /** Frames that are finished do not change when later words arrive. */
  lemma DeliveredGrows(r: RegType, h: History, fs: seq<Frame>, gs: seq<Frame>)
    requires FramesShape(fs) && FramesShape(gs) && Extends(fs, gs)
    requires Delivered(r, h, fs)
    ensures Delivered(r, h, gs)
  {
    forall j | 0 <= j < |fs| && Closed(fs[j])
      ensures fs[j] == gs[j]
    {
      assert FrameShape(gs[j]);
      assert fs[j] <= gs[j];
      assert gs[j][|fs[j]| - 1].last;
    }
  }

  lemma InStepGrows(r: RegType, h: History, ts: seq<Txn>, us: seq<Txn>, fs: seq<Frame>, gs: seq<Frame>, rT: nat,
                    rB: nat)
    requires InStep(r, h, ts, fs, rT, rB) && ts <= us
    ensures InStep(r, h, us, gs, rT, rB)
  {
    assert us[..rT] == ts[..rT];
    if rT > 0 {
      assert us[..rT - 1] == ts[..rT - 1];
    }
  }

  /** In IDLE_S the data queue shows the first beat of a frame, so nothing is thrown away. */
  lemma IdleHead(r: RegType, h: History, pr: P.RegType, ts: seq<Txn>, cur: seq<RxWord>, fs: seq<Frame>, bs: seq<Beat>,
                 qs: seq<Tran>, rT: nat, rB: nat)
    requires P.PackInv(pr, ts, cur, fs, bs, qs) && InStep(r, h, ts, fs, rT, rB) && r.state.IdleS?
    ensures rB < |bs| ==> bs[rB].sof
    ensures rT < |qs| ==> qs[rT].sof
  {
    if rT < |ts| {
      assert Announces(qs[rT], ts[rT], fs);
    }
    if rB < |bs| {
      var d := |h.frames|;
      if rT < |ts| {
        ResumeAt(ts, fs, rT);
        assert BeatsAt(bs, BeatCount(ts[..rT]), ts[rT].words, BodyCount(|ts[rT].words|));
        assert TxnOk(ts[rT], fs);
        assert ts[rT].words[0] == fs[d][0];
      } else {
        assert ts[..rT] == ts;
        assert BeatsAt(bs, rB, cur, (|cur| - 1) / 4);
        assert cur == fs[d][0..];
      }
      assert FrameShape(fs[d]);
    }
  }

  /** What the engine's own invariant says about the words sent. */
  lemma SentFacts(r: RegType, channel: nat, h: History)
    requires DmaInv(r, channel, h)
    ensures r.state.IdleS? || r.state.AckWaitS? ==> h.got == []
    ensures r.state.ReadTransS? ==> !Closed(h.got) && !r.lengthErr
    ensures r.state.TrDoneS? && !r.lengthErr ==> Closed(h.got)
  {
    hide ReceiveAll, AllStored, Stored, Damaged;
  }

  /** A beat in the middle of transaction rT - 1. */
  lemma MoveMiddle(r: RegType, h: History, r': RegType, h': History, ts: seq<Txn>, fs: seq<Frame>,
                   rT: nat, rB: nat, b: Beat)
    requires 0 < rT <= |ts| && InStep(r, h, ts, fs, rT, rB) && Delivered(r, h, fs) && TxnOk(ts[rT - 1], fs)
    requires r.state.SendHdrS? || r.state.CollectS?
    requires Expected(r, h.words, b) && MovedTo(r, r', h.words, b) && r'.state.CollectS?
    requires h'.got == h.got + Moved(r, h.words, b) && h'.words == h.words && h'.frames == h.frames
    ensures InStep(r', h', ts, fs, rT, rB + 1) && Delivered(r', h', fs)
  {
    hide BodyBeat, HeadBeat, Expected, BeatCount, BodyCount;
    var t := ts[rT - 1];
    BodyDone(r, h.words, b);
    var i := if r.state.SendHdrS? then 0 else 1 + 4 * r.cnt;
    SliceMoved(fs[t.frame], h.got, t, h'.got, i, if r.state.SendHdrS? then 1 else i + b.keep);
  }

  /** The words sent with the last beat of transaction rT - 1 complete it. */
  lemma FinalWords(r: RegType, h: History, r': RegType, h': History, ts: seq<Txn>, fs: seq<Frame>,
                   rT: nat, rB: nat, b: Beat)
    requires 0 < rT <= |ts| && InStep(r, h, ts, fs, rT, rB) && Delivered(r, h, fs) && TxnOk(ts[rT - 1], fs)
    requires FramesShape(fs)
    requires r.state.SendHdrS? || r.state.CollectS?
    requires Expected(r, h.words, b) && MovedTo(r, r', h.words, b) && !r'.state.CollectS?
    requires h'.got == h.got + Moved(r, h.words, b) && h'.words == h.words && h'.frames == h.frames
    requires r'.state.ReadTransS? ==> !Closed(h'.got)
    requires r'.state.TrDoneS? && !r'.lengthErr ==> Closed(h'.got)
    ensures var t := ts[rT - 1];
            && t.frame == |h.frames| < |fs| && t.start + |t.words| <= |fs[t.frame]|
            && h'.got == fs[t.frame][..t.start + |t.words|] && Closed(h'.got) == Ends(t)
            && (Ends(t) ==> h'.got == fs[t.frame] && Closed(fs[t.frame]))
            && |h'.got| == t.start + |t.words| > 0
    ensures rB + 1 == BeatCount(ts[..rT]) && (r'.state.ReadTransS? || r'.state.TrDoneS?)
  {
    var t := ts[rT - 1];
    BodyDone(r, h.words, b);
    BeatCountAt(ts, rT);
    hide BodyBeat, HeadBeat, Expected, BeatCount, BodyCount, Resume, FramesShape;
    var i := if r.state.SendHdrS? then 0 else 1 + 4 * r.cnt;
    SliceMoved(fs[t.frame], h.got, t, h'.got, i, |t.words|);
    FrameEnd(fs, t, h'.got);
  }

  /** The last beat of transaction rT - 1. */
  lemma MoveFinal(r: RegType, h: History, r': RegType, h': History, ts: seq<Txn>, fs: seq<Frame>,
                  rT: nat, rB: nat, b: Beat)
    requires 0 < rT <= |ts| && InStep(r, h, ts, fs, rT, rB) && Delivered(r, h, fs) && TxnOk(ts[rT - 1], fs)
    requires FramesShape(fs)
    requires r.state.SendHdrS? || r.state.CollectS?
    requires Expected(r, h.words, b) && MovedTo(r, r', h.words, b) && !r'.state.CollectS?
    requires h'.got == h.got + Moved(r, h.words, b) && h'.words == h.words && h'.frames == h.frames
    requires r'.state.ReadTransS? ==> !Closed(h'.got)
    requires r'.state.TrDoneS? && !r'.lengthErr ==> Closed(h'.got)
    ensures InStep(r', h', ts, fs, rT, rB + 1) && Delivered(r', h', fs)
  {
    hide Expected, Moved, MovedTo, BeatCount, Resume, FramesShape, TxnOk, Closed, Ends;
    FinalWords(r, h, r', h', ts, fs, rT, rB, b);
    ResumeLast(ts, rT);
  }

  /** A frame ends where a transaction's last word is marked last. */
  lemma FrameEnd(fs: seq<Frame>, t: Txn, got: Frame)
    requires FramesShape(fs) && TxnOk(t, fs) && got == fs[t.frame][..t.start + |t.words|]
    ensures Closed(got) == Ends(t)
    ensures Ends(t) ==> got == fs[t.frame] && Closed(fs[t.frame])
  {
    var f := fs[t.frame];
    assert FrameShape(f);
    assert got[|got| - 1] == t.words[|t.words| - 1] == f[t.start + |t.words| - 1];
  }

  lemma SliceMoved(f: Frame, got: Frame, t: Txn, got': Frame, i: nat, j: nat)
    requires i <= j <= |t.words| && t.start + |t.words| <= |f|
    requires t.words == f[t.start..t.start + |t.words|]
    requires |got| == t.start + i && got <= f
    requires got' == got + t.words[i..j]
    ensures got' == f[..t.start + j]
  {
    assert |got'| == t.start + j;
    forall k | 0 <= k < |got'|
      ensures got'[k] == f[k]
    {
      if k < |got| {
        assert got'[k] == got[k];
      } else {
        assert got'[k] == t.words[i..j][k - |got|] == t.words[k - t.start];
      }
    }
  }

  lemma BeatCountAt(ts: seq<Txn>, k: nat)
    requires 0 < k <= |ts|
    ensures BeatCount(ts[..k]) == BeatCount(ts[..k - 1]) + 1 + BodyCount(|ts[k - 1].words|)
  {
    assert ts[..k] == ts[..k - 1] + [ts[k - 1]];
    BeatCountPush(ts[..k - 1], ts[k - 1]);
  }

  lemma ResumeLast(ts: seq<Txn>, k: nat)
    requires 0 < k <= |ts|
    ensures Resume(ts[..k]) == if Ends(ts[k - 1]) then (ts[k - 1].frame + 1, 0)
                               else (ts[k - 1].frame, ts[k - 1].start + |ts[k - 1].words|)
  {
  }

  lemma BodyDone(r: RegType, words: seq<RxWord>, b: Beat)
    requires Expected(r, words, b) && (r.state.SendHdrS? || r.state.CollectS?)
    ensures r.state.SendHdrS? && |words| == 1 ==> BodyCount(|words|) == 0
    ensures r.state.CollectS? && 1 + 4 * r.cnt + b.keep == |words| ==> BodyCount(|words|) == r.cnt + 1
    ensures r.state.CollectS? && 1 + 4 * r.cnt + b.keep < |words| ==> b.keep == 4
  {
  }

  /** A cycle of handshakes, or of waiting. */
  lemma AdvanceWait(r: RegType, h: History, r': RegType, h': History, channel: nat, ts: seq<Txn>, fs: seq<Frame>,
                    rT: nat, rB: nat, c: Cycle)
    requires ChainOk(ts, fs) && InStep(r, h, ts, fs, rT, rB) && !Stopped(r)
    requires Stepped(r, h, r', h', channel, c)
    requires !((r.state.SendHdrS? || r.state.CollectS?) && c.rxReady)
    requires r.state.IdleS? || r.state.AckWaitS? ==> h.got == []
    requires r.state.ReadTransS? && c.tran.Some? ==> rT < |ts| && c.next == ts[rT].words
    requires r.state.IdleS? ==> !c.tranRd && !c.rxReady && (c.tran.Some? ==> rT < |ts|)
    ensures !Stopped(r') ==> InStep(r', h', ts, fs, rT + (if c.tranRd then 1 else 0), rB + (if c.rxReady then 1 else 0))
  {
    hide ChainOk, Moved, MovedTo, Report, BeatCount, Resume;
    if r.state.ReadTransS? && c.tran.Some? {
      ResumeAt(ts, fs, rT);
    }
  }

  lemma DeliveredWait(r: RegType, h: History, r': RegType, h': History, channel: nat, fs: seq<Frame>, c: Cycle)
    requires Delivered(r, h, fs) && !Stopped(r)
    requires Stepped(r, h, r', h', channel, c)
    requires !((r.state.SendHdrS? || r.state.CollectS?) && c.rxReady)
    ensures Delivered(r', h', fs)
  {
    hide Moved, MovedTo, Report, Closed;
  }

  lemma MoveFacts(r: RegType, h: History, r': RegType, h': History, channel: nat, c: Cycle)
    requires Stepped(r, h, r', h', channel, c) && (r.state.SendHdrS? || r.state.CollectS?) && c.rxReady
    ensures !c.tranRd && c.beat.Some? && MovedTo(r, r', h.words, c.beat.value)
    ensures h'.got == h.got + Moved(r, h.words, c.beat.value) && h'.words == h.words && h'.frames == h.frames
  {
    hide Moved;
  }

  lemma InTxn(r: RegType, h: History, ts: seq<Txn>, fs: seq<Frame>, rT: nat, rB: nat)
    requires ChainOk(ts, fs) && InStep(r, h, ts, fs, rT, rB) && (r.state.SendHdrS? || r.state.CollectS?)
    ensures 0 < rT <= |ts| && TxnOk(ts[rT - 1], fs)
  {
    hide TxnOk, Follows, BeatCount, Resume;
  }

  /** What has been packed. */
  datatype Packing = Packing(ts: seq<Txn>, fs: seq<Frame>, bs: seq<Beat>, qs: seq<Tran>)

  /** One engine cycle keeps the engine in step with the packed stream. */
  lemma Advance(r: RegType, h: History, r': RegType, h': History, channel: nat, k: Packing,
                rT: nat, rB: nat, c: Cycle)
    requires FramesShape(k.fs) && ChainOk(k.ts, k.fs) && AllAnnounced(k.qs, k.ts, k.fs) && AllBeats(k.bs, k.ts)
    requires InStep(r, h, k.ts, k.fs, rT, rB) && Delivered(r, h, k.fs) && !Stopped(r)
    requires Stepped(r, h, r', h', channel, c)
    requires DmaInv(r', channel, h') && DmaInv(r, channel, h)
    requires c.tran.Some? ==> rT < |k.qs| && c.tran.value == k.qs[rT]
    requires c.beat.Some? ==> rB < |k.bs| && c.beat.value == k.bs[rB]
    requires r.state.ReadTransS? && c.tran.Some? ==> c.next == k.ts[rT].words
    requires r.state.IdleS? ==> !c.tranRd && !c.rxReady
    ensures !Stopped(r') ==>
              InStep(r', h', k.ts, k.fs, rT + (if c.tranRd then 1 else 0), rB + (if c.rxReady then 1 else 0))
    ensures Delivered(r', h', k.fs)
  {
    hide FramesShape, AllBeats, AllAnnounced, ChainOk, InStep, Moved, MovedTo, Expected, Stepped, DmaInv, TxnOk, Closed,
      Delivered;
    SentFacts(r, channel, h);
    SentFacts(r', channel, h');
    AnnouncedLength(k.qs, k.ts, k.fs);
    if (r.state.SendHdrS? || r.state.CollectS?) && c.rxReady {
      MoveFacts(r, h, r', h', channel, c);
      InTxn(r, h, k.ts, k.fs, rT, rB);
      NextBeat(r, h, k.ts, k.fs, k.bs, rT, rB);
      if r'.state.CollectS? {
        MoveMiddle(r, h, r', h', k.ts, k.fs, rT, rB, c.beat.value);
      } else {
        MoveFinal(r, h, r', h', k.ts, k.fs, rT, rB, c.beat.value);
      }
    } else {
      AdvanceWait(r, h, r', h', channel, k.ts, k.fs, rT, rB, c);
      DeliveredWait(r, h, r', h', channel, k.fs, c);
    }
  }

  /** The descriptor bounds seen so far, and which frames stayed below theirs. */
  ghost predicate Bounded(r: RegType, h: History, limits: seq<nat>) {
    var d := |h.frames|;
    && |limits| == |h.bases| && d <= |limits|
    && (Busy(r) ==> d < |limits| && r.maxFrame == limits[d])
    && (forall j :: 0 <= j < d && (j < d - 1 || !Stopped(r)) ==> !Hit(limits[j], |h.frames[j]|))
    && (Stopped(r) ==> d > 0 && Hit(limits[d - 1], |h.frames[d - 1]|) && Fits(limits[d - 1], h.frames[d - 1]))
  }

  ghost predicate Reported(h: History, limits: seq<nat>, dones: seq<Done>, channel: nat) {
    && |dones| == |h.frames| <= |limits| && |h.frames| <= |h.bases|
    && forall j :: 0 <= j < |dones| ==>
         |h.frames[j]| > 0 && dones[j] == Report(h.frames[j], h.bases[j], Hit(limits[j], |h.frames[j]|), channel)
  }

  lemma BoundFacts(r: RegType, channel: nat, h: History)
    requires DmaInv(r, channel, h)
    ensures |h.bases| == |h.frames| + (if Busy(r) then 1 else 0)
    ensures r.state.TrDoneS? ==> |h.got| > 0 && r.lengthErr == Hit(r.maxFrame, |h.got|)
                                 && (r.lengthErr ==> Fits(r.maxFrame, h.got))
    ensures Busy(r) ==> Unguarded(r.maxFrame) || |h.got| <= Ceiling(r.maxFrame)
    ensures r.state.ReadTransS? ==> Unguarded(r.maxFrame) || |h.got| < r.maxFrame
  {
    hide ReceiveAll, AllStored, Stored, Damaged, BodyCount, Aligned, Wrap;
    if r.state.CollectS? && !Unguarded(r.maxFrame) {
      CeilingAbove(r.maxFrame, |h.got| - (1 + 4 * r.cnt));
    }
  }

  /** What a cycle does to the frames and descriptors: a grant, a report, or nothing. */
  lemma StepKind(r: RegType, h: History, r': RegType, h': History, channel: nat, c: Cycle)
    requires !Stopped(r) && Stepped(r, h, r', h', channel, c)
    ensures r'.maxFrame == if r.state.AckWaitS? && c.desc.newAck then c.desc.maxFrame else r.maxFrame
    ensures (c.tranRd ==> c.tran.Some?) && (c.rxReady ==> c.beat.Some?)
    ensures r.state.IdleS? ==> c.tranRd == (c.tran.Some? && !c.tran.value.sof)
                               && c.rxReady == (c.beat.Some? && !c.beat.value.sof)
    ensures if r.state.AckWaitS? && c.desc.newAck then
              h'.frames == h.frames && h'.bases == h.bases + [c.desc.newAddr] && Busy(r') && !Busy(r) && c.done == None
            else if r.state.TrDoneS? && c.desc.doneAck then
              && h'.frames == h.frames + [h.got] && h'.bases == h.bases && r'.state.IdleS?
              && r'.lengthErr == r.lengthErr
              && |h.frames| < |h.bases| && |h.got| > 0
              && c.done == Some(Report(h.got, h.bases[|h.frames|], r.lengthErr, channel))
            else h'.frames == h.frames && h'.bases == h.bases && Busy(r') == Busy(r) && !Stopped(r') && c.done == None
  {
    hide Moved, Report;
  }

  lemma BoundedStep(r: RegType, h: History, r': RegType, h': History, channel: nat, limits: seq<nat>, dones: seq<Done>,
                    c: Cycle)
    requires Bounded(r, h, limits) && Reported(h, limits, dones, channel) && !Stopped(r)
    requires DmaInv(r, channel, h)
    requires Stepped(r, h, r', h', channel, c)
    ensures var limits' := if r.state.AckWaitS? && c.desc.newAck then limits + [c.desc.maxFrame] else limits;
            var dones' := if c.done.Some? then dones + [c.done.value] else dones;
            Bounded(r', h', limits') && Reported(h', limits', dones', channel)
  {
    BoundFacts(r, channel, h);
    StepKind(r, h, r', h', channel, c);
    hide DmaInv, Report, Stepped, Hit, Fits;
    if r.state.AckWaitS? && c.desc.newAck {
      Granted(r', h, h', limits, dones, channel, c.desc);
    } else if r.state.TrDoneS? && c.desc.doneAck {
      Closes(r, h, r', h', limits, dones, channel);
    } else {
      Carries(r, h, r', h', limits, dones, channel);
    }
  }

  lemma Granted(r': RegType, h: History, h': History, limits: seq<nat>, dones: seq<Done>, channel: nat,
                desc: DescFromPci)
    requires |h.bases| == |h.frames| == |limits| && Reported(h, limits, dones, channel)
    requires forall j :: 0 <= j < |h.frames| ==> !Hit(limits[j], |h.frames[j]|)
    requires h'.frames == h.frames && h'.bases == h.bases + [desc.newAddr] && Busy(r') && r'.maxFrame == desc.maxFrame
    ensures Bounded(r', h', limits + [desc.maxFrame]) && Reported(h', limits + [desc.maxFrame], dones, channel)
  {
    hide Report, Hit, Fits;
  }

  lemma Closes(r: RegType, h: History, r': RegType, h': History, limits: seq<nat>, dones: seq<Done>, channel: nat)
    requires Bounded(r, h, limits) && Reported(h, limits, dones, channel) && Busy(r) && |h.bases| == |h.frames| + 1
    requires 0 < |h.got| && r.lengthErr == Hit(r.maxFrame, |h.got|) && (r.lengthErr ==> Fits(r.maxFrame, h.got))
    requires h'.frames == h.frames + [h.got] && h'.bases == h.bases && r'.state.IdleS? && r'.lengthErr == r.lengthErr
    ensures Bounded(r', h', limits)
    ensures Reported(h', limits, dones + [Report(h.got, h.bases[|h.frames|], r.lengthErr, channel)], channel)
  {
    hide Report, Hit, Fits;
  }

  lemma Carries(r: RegType, h: History, r': RegType, h': History, limits: seq<nat>, dones: seq<Done>, channel: nat)
    requires Bounded(r, h, limits) && Reported(h, limits, dones, channel) && !Stopped(r) && !Stopped(r')
    requires h'.frames == h.frames && h'.bases == h.bases && Busy(r') == Busy(r) && r'.maxFrame == r.maxFrame
    ensures Bounded(r', h', limits) && Reported(h', limits, dones, channel)
  {
    hide Report, Hit, Fits;
  }

  /** Where a lane stands: the two queues, with what the packer's registers still hold; the engine's place in the packed
      stream; and the bounds granted and frames reported so far. */
  datatype Stand = Stand(beatHeld: bool, tranHeld: bool, beatQ: seq<Beat>, tranQ: seq<Tran>, rB: nat, rT: nat,
                         limits: seq<nat>, dones: seq<Done>)

  /** The queues and the engine against what has been packed. */
  ghost predicate Lined(k: Packing, r: RegType, h: History, channel: nat, v: Stand) {
    && QueueOf(v.beatQ, k.bs, v.rB, v.beatHeld)
    && QueueOf(v.tranQ, k.qs, v.rT, v.tranHeld)
    && Delivered(r, h, k.fs)
    && (!Stopped(r) ==> InStep(r, h, k.ts, k.fs, v.rT, v.rB))
    && Bounded(r, h, v.limits)
    && Reported(h, v.limits, v.dones, channel)
  }

  /** Everything that holds between two clock edges. */
  ghost predicate LaneInv(p: P.PciRxTransFifo, e: PciRxDma, accepted: seq<RxWord>, v: Stand)
    reads p, e
  {
    && p.Valid() && e.Valid() && p.accepted == accepted
    && v.beatHeld == p.r.axisValid && v.tranHeld == p.r.tranWr
    && Lined(Packing(p.txns, p.frames, p.beats, p.trans), e.r, e.h, e.channel, v)
  }

  const EMPTY := Stand(false, false, [], [], 0, 0, [], [])

  method NewLane(channel: nat, reqId: nat, tag: nat) returns (p: P.PciRxTransFifo, e: PciRxDma)
    ensures fresh(p) && fresh(e)
    ensures LaneInv(p, e, [], EMPTY)
    ensures e.h == History([], [], [], [], []) && !e.r.txValid && e.r.maxFrame == 0
    ensures e.channel == channel && e.reqId == reqId && e.tag == tag
  {
    hide P.PackInv, DmaInv;
    p := new P.PciRxTransFifo();
    e := new PciRxDma(channel, reqId, tag);
    assert p.frames == [];
  }

  /** One edge of the packer's clock, with its queue writes. */
  method PackClock(p: P.PciRxTransFifo, e: PciRxDma, word: Option<RxWord>, pause: bool, accepted: seq<RxWord>, v: Stand)
    returns (accepted': seq<RxWord>, v': Stand)
    requires LaneInv(p, e, accepted, v)
    modifies p
    ensures LaneInv(p, e, accepted', v')
    ensures accepted' == accepted + if word.Some? && !pause then [word.value] else []
    ensures v'.limits == v.limits && v'.dones == v.dones
    ensures word.None? ==> !v'.beatHeld && !v'.tranHeld
  {
    hide P.PackInv, DmaInv, Delivered, InStep, Bounded, Reported, Stopped, Frames, FramesShape, P.DataOut, P.TranOut,
      Extends;
    ghost var fs, ts := p.frames, p.txns;
    assert FramesShape(fs) by { P.PackFacts(p.r, p.txns, p.cur, p.frames, p.beats, p.trans); }
    var ready, beat, tran := p.Step(word, pause);
    accepted' := accepted + if ready then [word.value] else [];
    v' := v.(beatQ := v.beatQ + (if beat.Some? then [beat.value] else []),
             tranQ := v.tranQ + (if tran.Some? then [tran.value] else []),
             beatHeld := p.r.axisValid, tranHeld := p.r.tranWr);
    assert FramesShape(p.frames) by { P.PackFacts(p.r, p.txns, p.cur, p.frames, p.beats, p.trans); }
    DeliveredGrows(e.r, e.h, fs, p.frames);
    if !Stopped(e.r) {
      InStepGrows(e.r, e.h, ts, p.txns, fs, p.frames, v.rT, v.rB);
    }
  }

  lemma HeadOf<T>(q: seq<T>, all: seq<T>, taken: nat, pending: bool)
    requires QueueOf(q, all, taken, pending) && q != []
    ensures taken < |all| && q[0] == all[taken]
    ensures QueueOf(q[1..], all, taken + 1, pending)
  {
  }

  /** The values the engine sees in a cycle meet what its step relies on. */
  lemma EngineReady(pr: P.RegType, ts: seq<Txn>, cur: seq<RxWord>, fs: seq<Frame>, bs: seq<Beat>, qs: seq<Tran>,
                    r: RegType, h: History, rT: nat, rB: nat)
    requires P.PackInv(pr, ts, cur, fs, bs, qs) && InStep(r, h, ts, fs, rT, rB) && Delivered(r, h, fs)
    requires r.state.ReadTransS? && rT < |ts| ==> |h.got| + |ts[rT].words| < LENGTH_SPACE
    ensures FramesShape(fs) && ChainOk(ts, fs) && AllAnnounced(qs, ts, fs) && AllBeats(bs, ts)
    ensures rB < |bs| ==> Expected(r, h.words, bs[rB])
    ensures r.state.ReadTransS? && rT < |qs| ==>
              TranWords(ts[rT].words, h.got) && Describes(qs[rT], ts[rT].words, h.got)
    ensures r.state.IdleS? && rB < |bs| ==> bs[rB].sof
    ensures r.state.IdleS? && rT < |qs| ==> qs[rT].sof
  {
    hide Expected, TranWords, Describes, InStep, Delivered, AllBeats, ChainOk, P.Covers, P.Flags;
    if rB < |bs| {
      NextBeat(r, h, ts, fs, bs, rT, rB);
    }
    if r.state.ReadTransS? && rT < |qs| {
      NextTran(r, h, ts, fs, qs, rT, rB);
    }
    if r.state.IdleS? {
      IdleHead(r, h, pr, ts, cur, fs, bs, qs, rT, rB);
    }
  }

  /** The output register and the beats already passed on make up the output history. */
  ghost predicate Passed(packets: seq<TlpBeat>, r: RegType, h: History) {
    h.out == packets + if r.txValid then [r.tx] else []
  }

  lemma PassedStep(packets: seq<TlpBeat>, r: RegType, h: History, r': RegType, h': History, channel: nat,
                   c: Cycle, tx: Option<TlpBeat>)
    requires Passed(packets, r, h)
    requires Stepped(r, h, r', h', channel, c)
    requires tx == if r.txValid && c.txReady then Some(r.tx) else None
    requires DmaInv(r', channel, h')
    ensures Passed(packets + (if tx.Some? then [tx.value] else []), r', h')
  {
    hide Moved, MovedTo, Report, StateInv, ReceiveAll, AllStored, Stored;
  }

  /** Bounds that do not keep the length within its 24 bits. */
  predicate Loose(bound: nat) {
    Unguarded(bound) || bound > LENGTH_SPACE - MAX_RX_TRANS
  }

  /** Frames whose length fits the report. */
  ghost predicate Short(fs: seq<Frame>) {
    forall j :: 0 <= j < |fs| ==> |fs[j]| < LENGTH_SPACE
  }

  /** There is room in the length field for the next transaction. */
  lemma RoomLeft(r: RegType, channel: nat, h: History, ts: seq<Txn>, fs: seq<Frame>, qs: seq<Tran>, rT: nat, rB: nat)
    requires DmaInv(r, channel, h) && InStep(r, h, ts, fs, rT, rB) && FramesShape(fs) && ChainOk(ts, fs)
    requires Loose(r.maxFrame) ==> Short(fs)
    ensures r.state.ReadTransS? && rT < |ts| ==> |h.got| + |ts[rT].words| < LENGTH_SPACE
  {
    if r.state.ReadTransS? && rT < |ts| {
      BoundFacts(r, channel, h);
      ResumeAt(ts, fs, rT);
      assert TxnOk(ts[rT], fs);
      hide DmaInv, ChainOk, FramesShape, BeatCount, Resume, Unguarded, Aligned;
    }
  }

  /** What the engine sees of the two queues in a cycle. */
  lemma Seen(pr: P.RegType, cur: seq<RxWord>, k: Packing, r: RegType, h: History, channel: nat, v: Stand,
             beat: Option<Beat>, tran: Option<Tran>)
    requires P.PackInv(pr, k.ts, cur, k.fs, k.bs, k.qs) && DmaInv(r, channel, h) && !Stopped(r)
    requires Lined(k, r, h, channel, v) && v.beatHeld == pr.axisValid && v.tranHeld == pr.tranWr
    requires Loose(r.maxFrame) ==> Short(k.fs)
    requires beat.Some? ==> v.beatQ != [] && beat.value == v.beatQ[0]
    requires tran.Some? ==> v.tranQ != [] && tran.value == v.tranQ[0]
    ensures Packed(k) && Heads(k, r, h, v, beat, tran)
  {
    hide P.PackInv, DmaInv, Delivered, InStep, FramesShape, AllAnnounced, ChainOk, AllBeats, Expected, TranWords,
      Describes, QueueOf, Bounded, Reported, Loose, Short;
    PackedShape(pr, k.ts, cur, k.fs, k.bs, k.qs);
    RoomLeft(r, channel, h, k.ts, k.fs, k.qs, v.rT, v.rB);
    EngineReady(pr, k.ts, cur, k.fs, k.bs, k.qs, r, h, v.rT, v.rB);
    AnnouncedLength(k.qs, k.ts, k.fs);
    if beat.Some? {
      HeadOf(v.beatQ, k.bs, v.rB, v.beatHeld);
    }
    if tran.Some? {
      HeadOf(v.tranQ, k.qs, v.rT, v.tranHeld);
    }
  }

  /** What has been packed is in order. */
  ghost predicate Packed(k: Packing) {
    && FramesShape(k.fs) && ChainOk(k.ts, k.fs) && AllAnnounced(k.qs, k.ts, k.fs) && AllBeats(k.bs, k.ts)
    && |k.qs| == |k.ts|
  }

  /** What a cycle takes from the queues and adds to the bounds and reports. */
  function Moves(granted: bool, v: Stand, maxFrame: nat, tranRd: bool, rxReady: bool, done: Option<Done>): (w: Stand)
    ensures w.beatHeld == v.beatHeld && w.tranHeld == v.tranHeld
    ensures w.limits == if granted then v.limits + [maxFrame] else v.limits
    ensures w.dones == if done.Some? then v.dones + [done.value] else v.dones
  {
    Stand(v.beatHeld, v.tranHeld,
          if rxReady && v.beatQ != [] then v.beatQ[1..] else v.beatQ,
          if tranRd && v.tranQ != [] then v.tranQ[1..] else v.tranQ,
          v.rB + (if rxReady then 1 else 0), v.rT + (if tranRd then 1 else 0),
          if granted then v.limits + [maxFrame] else v.limits,
          if done.Some? then v.dones + [done.value] else v.dones)
  }

  ghost function Onward(r: RegType, v: Stand, c: Cycle): Stand {
    Moves(r.state.AckWaitS? && c.desc.newAck, v, c.desc.maxFrame, c.tranRd, c.rxReady, c.done)
  }

  /** The cycle's inputs are the heads of the queues, as far as they are visible. */
  predicate Shown(r: RegType, k: Packing, v: Stand, edge: Edge, c: Cycle)
    requires edge.DmaEdge?
  {
    && c.txReady == edge.txReady && c.desc == edge.desc
    && c.beat == (if edge.seeBeat && v.beatQ != [] then Some(v.beatQ[0]) else None)
    && c.tran == (if edge.seeTran && v.tranQ != [] then Some(v.tranQ[0]) else None)
    && (r.state.ReadTransS? && c.tran.Some? ==> v.rT < |k.ts| && c.next == k.ts[v.rT].words)
    && (r.state.IdleS? ==> (c.beat.Some? ==> c.beat.value.sof) && (c.tran.Some? ==> c.tran.value.sof))
  }

  /** What a cycle of the engine keeps. */
  lemma Settled(k: Packing, r: RegType, h: History, r': RegType, h': History, channel: nat, v: Stand, edge: Edge,
                c: Cycle)
    requires edge.DmaEdge? && Packed(k) && Lined(k, r, h, channel, v) && !Stopped(r)
    requires Stepped(r, h, r', h', channel, c) && Shown(r, k, v, edge, c)
    requires DmaInv(r', channel, h') && DmaInv(r, channel, h)
    ensures r'.maxFrame == if r.state.AckWaitS? && c.desc.newAck then c.desc.maxFrame else r.maxFrame
    ensures (c.tranRd ==> v.tranQ != []) && (c.rxReady ==> v.beatQ != [])
    ensures Lined(k, r', h', channel, Onward(r, v, c))
    ensures h'.bases == h.bases + if r.state.AckWaitS? && c.desc.newAck then [c.desc.newAddr] else []
  {
    hide DmaInv, Delivered, InStep, Bounded, Reported, FramesShape, AllAnnounced, ChainOk, AllBeats, Report, Stepped,
      QueueOf;
    StepKind(r, h, r', h', channel, c);
    if v.tranQ != [] {
      HeadOf(v.tranQ, k.qs, v.rT, v.tranHeld);
    }
    if v.beatQ != [] {
      HeadOf(v.beatQ, k.bs, v.rB, v.beatHeld);
    }
    Advance(r, h, r', h', channel, k, v.rT, v.rB, c);
    BoundedStep(r, h, r', h', channel, v.limits, v.dones, c);
  }

  lemma PackedShape(pr: P.RegType, ts: seq<Txn>, cur: seq<RxWord>, fs: seq<Frame>, bs: seq<Beat>, qs: seq<Tran>)
    requires P.PackInv(pr, ts, cur, fs, bs, qs)
    ensures FramesShape(fs) && ChainOk(ts, fs)
  {
  }

  // ---------------------------------------------------------------------------------------
  // Progress: with everything visible and ready every cycle of the engine leaves less to do.
  // ---------------------------------------------------------------------------------------

  /** The engine waits for words that have not been packed into a transaction. */
  predicate Resting(r: RegType, tranQ: seq<Tran>) {
    tranQ == [] && (r.state.IdleS? || r.state.ReadTransS?)
  }

  /** The cycles that the queues and the state are worth. */
  function Work(r: RegType, beatQ: seq<Beat>, tranQ: seq<Tran>): nat {
    4 * |tranQ| + |beatQ|
    + match r.state
      case IdleS => 2
      case AckWaitS => 1
      case ReadTransS => 0
      case _ => 3
  }

  /** Nothing holds the engine up. */
  predicate AllUp(edge: Edge) {
    edge.DmaEdge? && edge.seeBeat && edge.seeTran && edge.desc.newAck && edge.desc.doneAck && edge.txReady
  }

  /** The beats of an announced transaction have been packed. */
  lemma BeatsWaiting(r: RegType, h: History, ts: seq<Txn>, fs: seq<Frame>, bs: seq<Beat>, rT: nat, rB: nat)
    requires InStep(r, h, ts, fs, rT, rB) && AllBeats(bs, ts)
    ensures (r.state.IdleS? && rT < |ts|) || r.state.SendHdrS? || r.state.CollectS? ==> rB < |bs|
  {
    var k := if r.state.IdleS? then rT else rT - 1;
    if 0 <= k < |ts| {
      assert BeatsAt(bs, BeatCount(ts[..k]), ts[k].words, BodyCount(|ts[k].words|));
    }
  }

  lemma WorkDone(k: Packing, r: RegType, h: History, r': RegType, h': History, channel: nat, v: Stand, edge: Edge,
                 c: Cycle)
    requires edge.DmaEdge? && Packed(k) && Lined(k, r, h, channel, v) && !Stopped(r)
    requires Stepped(r, h, r', h', channel, c) && Shown(r, k, v, edge, c)
    requires (c.rxReady ==> v.beatQ != []) && (c.tranRd ==> v.tranQ != [])
    ensures AllUp(edge) && !v.beatHeld && !v.tranHeld && !Resting(r, v.tranQ) ==>
              Work(r', Onward(r, v, c).beatQ, Onward(r, v, c).tranQ) < Work(r, v.beatQ, v.tranQ)
  {
    hide AllBeats, BeatCount, Resume, Moved, Report, Delivered, Bounded, Reported;
    BeatsWaiting(r, h, k.ts, k.fs, k.bs, v.rT, v.rB);
  }

  /** What a cycle does for the outside: the grant, the beat passed on, and the work left. */
  ghost predicate Effect(edge: Edge, v: Stand, r: RegType, h: History, v': Stand, r': RegType, h': History,
                         packets: seq<TlpBeat>, tx: Option<TlpBeat>)
    requires edge.DmaEdge?
  {
    var granted := r.state.AckWaitS? && edge.desc.newAck;
    && h'.bases == h.bases + (if granted then [edge.desc.newAddr] else [])
    && r'.maxFrame == (if granted then edge.desc.maxFrame else r.maxFrame)
    && Passed(packets + (if tx.Some? then [tx.value] else []), r', h')
    && (AllUp(edge) && !v.beatHeld && !v.tranHeld && !Resting(r, v.tranQ)
        ==> Work(r', v'.beatQ, v'.tranQ) < Work(r, v.beatQ, v.tranQ))
  }

  /** A cycle of the engine: what it keeps, what it passes on, and what it leaves to do. */
  lemma Cycled(k: Packing, r: RegType, h: History, r': RegType, h': History, channel: nat, v: Stand, edge: Edge,
               c: Cycle, packets: seq<TlpBeat>, tx: Option<TlpBeat>)
    requires edge.DmaEdge? && Packed(k) && Lined(k, r, h, channel, v) && !Stopped(r)
    requires Stepped(r, h, r', h', channel, c) && Shown(r, k, v, edge, c) && Passed(packets, r, h)
    requires DmaInv(r', channel, h') && DmaInv(r, channel, h)
    requires tx == if r.txValid && c.txReady then Some(r.tx) else None
    ensures (c.tranRd ==> v.tranQ != []) && (c.rxReady ==> v.beatQ != [])
    ensures Lined(k, r', h', channel, Onward(r, v, c)) && Effect(edge, v, r, h, Onward(r, v, c), r', h', packets, tx)
  {
    hide Lined, DmaInv, Packed, Stepped, Work, Resting, AllUp, Passed, Onward;
    Settled(k, r, h, r', h', channel, v, edge, c);
    PassedStep(packets, r, h, r', h', channel, c, tx);
    WorkDone(k, r, h, r', h', channel, v, edge, c);
  }

  /** The heads of the queues are what the engine expects. */
  ghost predicate Heads(k: Packing, r: RegType, h: History, v: Stand, beat: Option<Beat>, tran: Option<Tran>) {
    && (beat.Some? ==> Expected(r, h.words, beat.value))
    && (r.state.ReadTransS? && tran.Some? ==>
          && v.rT < |k.ts| && TranWords(k.ts[v.rT].words, h.got)
          && Describes(tran.value, k.ts[v.rT].words, h.got))
    && (r.state.IdleS? ==> (beat.Some? ==> beat.value.sof) && (tran.Some? ==> tran.value.sof))
  }

  /** One edge of the engine's clock, with its queue reads, against what has been packed. */
  method EngineStep(e: PciRxDma, edge: Edge, ghost k: Packing, v: Stand,
                    beat: Option<Beat>, tran: Option<Tran>, ghost packets: seq<TlpBeat>)
    returns (v': Stand, tx: Option<TlpBeat>, done: Option<Done>, granted: bool)
    requires e.Valid() && edge.DmaEdge? && DescOk(edge.desc)
    requires Packed(k) && Lined(k, e.r, e.h, e.channel, v) && !Stopped(e.r) && Passed(packets, e.r, e.h)
    requires beat == if edge.seeBeat && v.beatQ != [] then Some(v.beatQ[0]) else None
    requires tran == if edge.seeTran && v.tranQ != [] then Some(v.tranQ[0]) else None
    requires Heads(k, e.r, e.h, v, beat, tran)
    modifies e
    ensures e.Valid() && Lined(k, e.r, e.h, e.channel, v')
    ensures granted == (old(e.r.state.AckWaitS?) && edge.desc.newAck)
    ensures v'.limits == if granted then v.limits + [edge.desc.maxFrame] else v.limits
    ensures v'.dones == if done.Some? then v.dones + [done.value] else v.dones
    ensures v'.beatHeld == v.beatHeld && v'.tranHeld == v.tranHeld
    ensures Effect(edge, v, old(e.r), old(e.h), v', e.r, e.h, packets, tx)
  {
    hide DmaInv, Lined, Packed, Expected, TranWords, Describes, DescOk, Passed, Stepped, Effect, Moves;
    ghost var r, h := e.r, e.h;
    ghost var next := if v.rT < |k.ts| then k.ts[v.rT].words else [];
    granted := e.r.state.AckWaitS? && edge.desc.newAck;
    var tranRd, rxReady;
    tranRd, rxReady, tx, done := e.Step(tran, beat, edge.desc, edge.txReady, next);
    ghost var c := Cycle(tran, beat, edge.desc, edge.txReady, next, tranRd, rxReady, done);
    Cycled(k, r, h, e.r, e.h, e.channel, v, edge, c, packets, tx);
    v' := Moves(granted, v, edge.desc.maxFrame, tranRd, rxReady, done);
  }

  /** One edge of the engine's clock. */
  method EngineClock(p: P.PciRxTransFifo, e: PciRxDma, edge: Edge, ghost accepted: seq<RxWord>,
                     v: Stand, ghost packets: seq<TlpBeat>)
    returns (v': Stand, tx: Option<TlpBeat>, done: Option<Done>, granted: bool)
    requires LaneInv(p, e, accepted, v)
    requires !Stopped(e.r) && Passed(packets, e.r, e.h)
    requires edge.DmaEdge? && DescOk(edge.desc) && (Loose(e.r.maxFrame) ==> Short(p.frames))
    modifies e
    ensures LaneInv(p, e, accepted, v')
    ensures granted == (old(e.r.state.AckWaitS?) && edge.desc.newAck)
    ensures v'.limits == if granted then v.limits + [edge.desc.maxFrame] else v.limits
    ensures v'.dones == if done.Some? then v.dones + [done.value] else v.dones
    ensures v'.beatHeld == v.beatHeld && v'.tranHeld == v.tranHeld
    ensures Effect(edge, v, old(e.r), old(e.h), v', e.r, e.h, packets, tx)
  {
    hide P.PackInv, DmaInv, Lined, Frames, Packed, Heads, DescOk, Passed, Loose, Short, Effect;
    ghost var k := Packing(p.txns, p.frames, p.beats, p.trans);
    var beat := if edge.seeBeat && v.beatQ != [] then Some(v.beatQ[0]) else None;
    var tran := if edge.seeTran && v.tranQ != [] then Some(v.tranQ[0]) else None;
    Seen(p.r, p.cur, k, e.r, e.h, e.channel, v, beat, tran);
    v', tx, done, granted := EngineStep(e, edge, k, v, beat, tran, packets);
  }

  lemma AnnouncedLength(qs: seq<Tran>, ts: seq<Txn>, fs: seq<Frame>)
    requires ChainOk(ts, fs) && FramesShape(fs) && AllAnnounced(qs, ts, fs)
    ensures |qs| == |ts|
  {
  }

  /** Nothing is left anywhere between the word stream and host memory. */
  predicate Drained(p: P.RegType, r: RegType, beatQ: seq<Beat>, tranQ: seq<Tran>) {
    && beatQ == [] && tranQ == []
    && p.state.IdleS? && p.tranEof && !p.axisValid && !p.tranWr
    && r.state.IdleS? && !r.lengthErr
  }

  /** What the history of the engine says about the outside world. */
  lemma Outcome(r: RegType, h: History, fs: seq<Frame>, limits: seq<nat>, dones: seq<Done>, channel: nat)
    requires Delivered(r, h, fs) && Bounded(r, h, limits) && Reported(h, limits, dones, channel)
    requires DmaInv(r, channel, h)
    ensures var d := |h.frames|;
            && |dones| == d <= |fs| && d <= |h.bases| == |limits| <= d + 1
            && (forall j :: 0 <= j < d ==>
                  && h.frames[j] <= fs[j] && 0 < |h.frames[j]|
                  && (if Hit(limits[j], |h.frames[j]|) then Fits(limits[j], h.frames[j])
                      else h.frames[j] == fs[j] && Closed(fs[j]))
                  && dones[j] == Report(h.frames[j], h.bases[j], Hit(limits[j], |h.frames[j]|), channel))
            && (h.got != [] ==> d < |h.bases| && d < |fs| && h.got <= fs[d]
                                && (Unguarded(limits[d]) || |h.got| <= Ceiling(limits[d])))
  {
    hide DmaInv, Report, Closed, Hit, Fits, Unguarded;
    BoundFacts(r, channel, h);
    SentFacts(r, channel, h);
  }

  lemma Memory(r: RegType, h: History, channel: nat)
    requires DmaInv(r, channel, h)
    ensures |h.bases| == |h.frames| + (if Busy(r) then 1 else 0)
    ensures var m := ReceiveAll(h.out); var d := |h.frames|;
            && m.ok
            && m.writes == AllStored(h.frames, h.bases) + (if d < |h.bases| then Stored(h.got, h.bases[d]) else [])
            && ((forall j :: 0 <= j < |h.bases| ==> Aligned(h.bases[j])) ==> m.inPage)
  {
    hide StateInv, ReceiveAll, AllStored, Stored;
  }

  lemma Summary(p: P.PciRxTransFifo, e: PciRxDma, accepted: seq<RxWord>, v: Stand)
    requires LaneInv(p, e, accepted, v)
    ensures p.frames == Frames(accepted)
    ensures Delivered(e.r, e.h, p.frames) && Bounded(e.r, e.h, v.limits) && Reported(e.h, v.limits, v.dones, e.channel)
    ensures DmaInv(e.r, e.channel, e.h)
  {
    hide P.PackInv, DmaInv, Delivered, InStep, Bounded, Reported;
  }

  /** With every announced transaction sent, the engine has finished all frames that have ended. */
  lemma Caught(pr: P.RegType, cur: seq<RxWord>, k: Packing, r: RegType, h: History, rT: nat, rB: nat)
    requires P.PackInv(pr, k.ts, cur, k.fs, k.bs, k.qs) && InStep(r, h, k.ts, k.fs, rT, rB) && Delivered(r, h, k.fs)
    requires !Stopped(r) && rT == |k.ts| && (r.state.IdleS? || r.state.ReadTransS?)
    ensures |h.frames| == |k.fs| - (if IsOpen(k.fs) then 1 else 0)
    ensures forall j :: 0 <= j < |h.frames| ==> h.frames[j] == k.fs[j]
  {
    hide ChainOk, AllAnnounced, FramesShape, P.Counting, P.Flags, P.BeatsPacked, BeatCount;
    assert k.ts[..rT] == k.ts;
  }

  /** The parts of the frames that were reported. */
  ghost function Cut(fs: seq<Frame>, dones: seq<Done>): (cs: seq<Frame>)
    requires |dones| <= |fs| && forall j :: 0 <= j < |dones| ==> dones[j].length <= |fs[j]|
    ensures |cs| == |dones| && forall j :: 0 <= j < |dones| ==> cs[j] == fs[j][..dones[j].length]
  {
    seq(|dones|, j requires 0 <= j < |dones| => fs[j][..dones[j].length])
  }

  /** Frames are reported in order, each to the next descriptor, with the words the bound allows and the error flag
      exactly if the count has hit the bound. */
  ghost predicate Reports(fs: seq<Frame>, bases: seq<nat>, limits: seq<nat>, dones: seq<Done>, channel: nat) {
    && |dones| <= |fs| && |dones| <= |bases| == |limits| <= |dones| + 1
    && forall j :: 0 <= j < |dones| ==>
         var n := dones[j].length;
         && 0 < n <= |fs[j]| && n == Allowed(limits[j], |fs[j]|)
         && dones[j] == RxDma.Report(fs[j][..n], bases[j], Hit(limits[j], n), channel)
         && (Hit(limits[j], n) || Closed(fs[j]))
  }

  /** A stopped or finished frame has the allowed length. */
  lemma AllowedLength(bound: nat, f: Frame, g: Frame)
    requires FrameShape(f) && g <= f && |g| > 0
    requires if Hit(bound, |g|) then Fits(bound, g) else g == f
    ensures |g| == Allowed(bound, |f|)
  {
    if Hit(bound, |g|) && |g| < |f| {
      assert g[|g| - 1] == f[|g| - 1];
    }
  }

  /** The packets are well formed and store the words of the reported frames, and the first progress words of the next
      frame, byte-swapped from their descriptors' addresses on, each once and in order. */
  ghost predicate Stores(packets: seq<TlpBeat>, fs: seq<Frame>, bases: seq<nat>, limits: seq<nat>, dones: seq<Done>,
                         progress: nat)
    requires |dones| <= |fs| && forall j :: 0 <= j < |dones| ==> dones[j].length <= |fs[j]|
    requires |dones| <= |bases| == |limits|
  {
    var m, d := ReceiveAll(packets), |dones|;
    && m.ok
    && (progress > 0 ==> d < |bases| && d < |fs| && progress <= |fs[d]|)
    && (progress > 0 ==> Unguarded(limits[d]) || progress <= Ceiling(limits[d]))
    && m.writes == AllStored(Cut(fs, dones), bases) + (if progress > 0 then Stored(fs[d][..progress], bases[d]) else [])
    && ((forall j :: 0 <= j < |bases| ==> Aligned(bases[j])) ==> m.inPage)
  }

  /** The words the packer was offered and not told to hold back. */
  function Offered(edges: seq<Edge>): seq<RxWord> {
    if edges == [] then []
    else
      var e := edges[|edges| - 1];
      Offered(edges[..|edges| - 1]) + if e.PackEdge? && e.word.Some? && !e.pause then [e.word.value] else []
  }

  lemma OfferedPush(edges: seq<Edge>, n: nat)
    requires n < |edges|
    ensures var e := edges[n];
            Offered(edges[..n + 1]) == Offered(edges[..n])
            + if e.PackEdge? && e.word.Some? && !e.pause then [e.word.value] else []
  {
    assert edges[..n + 1][..n] == edges[..n];
  }

  /** From the histories of the engine to its reports and packets. */
  lemma Told(r: RegType, h: History, fs: seq<Frame>, bases: seq<nat>, limits: seq<nat>, dones: seq<Done>, channel: nat,
             progress: nat)
    requires Delivered(r, h, fs) && Bounded(r, h, limits) && Reported(h, limits, dones, channel)
    requires DmaInv(r, channel, h)
    requires h.bases == bases && progress == |h.got| && FramesShape(fs)
    ensures Reports(fs, bases, limits, dones, channel) && Stores(h.out, fs, bases, limits, dones, progress)
  {
    hide DmaInv, Delivered, Bounded, Reported, Closed, ReceiveAll, AllStored, Stored, Hit, Fits, Unguarded, Ceiling,
      Allowed;
    Outcome(r, h, fs, limits, dones, channel);
    Memory(r, h, channel);
    forall j | 0 <= j < |dones|
      ensures dones[j].length == |h.frames[j]| && fs[j][..dones[j].length] == h.frames[j]
      ensures |h.frames[j]| == Allowed(limits[j], |fs[j]|)
    {
      AllowedLength(limits[j], fs[j], h.frames[j]);
    }
    assert Cut(fs, dones) == h.frames;
    var d := |dones|;
    if progress > 0 {
      assert fs[d][..progress] == h.got;
    } else if d < |bases| {
      NoneStored(bases[d]);
    }
  }

  lemma NoneStored(base: nat)
    ensures Stored([], base) == []
  {
  }

  /** The engine's length register counts the words sent of the current frame. */
  lemma Progress(r: RegType, channel: nat, h: History)
    requires DmaInv(r, channel, h)
    ensures |h.got| == if r.state.IdleS? || r.state.AckWaitS? then 0 else r.done.length
  {
    hide ReceiveAll, AllStored, Stored, Damaged;
  }

  lemma FramesOf(p: P.PciRxTransFifo, e: PciRxDma, accepted: seq<RxWord>, v: Stand)
    requires LaneInv(p, e, accepted, v)
    ensures p.frames == Frames(accepted) && FramesShape(p.frames)
  {
    hide DmaInv, Delivered, InStep, Bounded, Reported;
  }

  lemma LastError(r: RegType, h: History, limits: seq<nat>, dones: seq<Done>, channel: nat)
    requires Stopped(r) && Bounded(r, h, limits) && Reported(h, limits, dones, channel)
    ensures dones != [] && dones[|dones| - 1].lengthErr
  {
  }

  /** Bounds that may be loose need frames whose length fits the report. */
  ghost predicate InputsOk(edges: seq<Edge>) {
    && (forall i :: 0 <= i < |edges| && edges[i].DmaEdge? ==> DescOk(edges[i].desc))
    && (Tight(edges) || forall n :: 0 <= n <= |edges| ==> Short(Frames(Offered(edges[..n]))))
  }

  ghost predicate Tight(edges: seq<Edge>) {
    forall i :: 0 <= i < |edges| && edges[i].DmaEdge? ==> !Loose(edges[i].desc.maxFrame)
  }

  /** What a run has shown to the outside: the words taken in, the edges that granted a descriptor with its address and
      bound, the packets passed on, and the reports. */
  datatype Log = Log(accepted: seq<RxWord>, grants: seq<nat>, bases: seq<nat>, limits: seq<nat>,
                     packets: seq<TlpBeat>, dones: seq<Done>)

  /** Descriptors are those offered at the granting edges, in order. */
  ghost predicate GrantsOk(edges: seq<Edge>, g: Log) {
    && |g.grants| == |g.bases| == |g.limits|
    && (forall j :: 0 <= j < |g.grants| ==> GrantAt(edges, g.grants[j], g.bases[j], g.limits[j]))
    && forall i, j :: 0 <= i < j < |g.grants| ==> g.grants[i] < g.grants[j]
  }

  predicate GrantAt(edges: seq<Edge>, n: nat, base: nat, bound: nat) {
    && n < |edges| && edges[n].DmaEdge? && edges[n].desc.newAck
    && edges[n].desc.newAddr == base && edges[n].desc.maxFrame == bound
  }

  lemma GrantsPush(edges: seq<Edge>, n: nat, g: Log, g': Log, granted: bool)
    requires n < |edges| && GrantsOk(edges[..n], g) && edges[n].DmaEdge? && (granted ==> edges[n].desc.newAck)
    requires var d := edges[n].desc;
             g'.grants == (if granted then g.grants + [n] else g.grants)
             && g'.bases == (if granted then g.bases + [d.newAddr] else g.bases)
             && g'.limits == (if granted then g.limits + [d.maxFrame] else g.limits)
    ensures GrantsOk(edges[..n + 1], g')
  {
    forall j | 0 <= j < |g'.grants|
      ensures GrantAt(edges[..n + 1], g'.grants[j], g'.bases[j], g'.limits[j])
    {
      if j < |g.grants| {
        assert GrantAt(edges[..n], g.grants[j], g.bases[j], g.limits[j]);
      }
    }
    forall i, j | 0 <= i < j < |g'.grants|
      ensures g'.grants[i] < g'.grants[j]
    {
      assert GrantAt(edges[..n], g.grants[i], g.bases[i], g.limits[i]);
    }
  }

  lemma GrantsStay(edges: seq<Edge>, n: nat, g: Log, g': Log)
    requires n < |edges| && GrantsOk(edges[..n], g)
    requires g'.grants == g.grants && g'.bases == g.bases && g'.limits == g.limits
    ensures GrantsOk(edges[..n + 1], g')
  {
    forall j | 0 <= j < |g.grants|
      ensures GrantAt(edges[..n + 1], g.grants[j], g.bases[j], g.limits[j])
    {
      assert GrantAt(edges[..n], g.grants[j], g.bases[j], g.limits[j]);
    }
  }

  /** The state of a run after its first n edges. */
  ghost predicate Going(p: P.PciRxTransFifo, e: PciRxDma, edges: seq<Edge>, n: nat, g: Log, v: Stand)
    reads p, e
  {
    && n <= |edges|
    && LaneInv(p, e, g.accepted, v) && v.limits == g.limits && v.dones == g.dones
    && e.h.bases == g.bases && Passed(g.packets, e.r, e.h)
    && g.accepted == Offered(edges[..n]) && GrantsOk(edges[..n], g)
    && (Tight(edges) ==> !Loose(e.r.maxFrame))
  }

  lemma ShortNow(edges: seq<Edge>, n: nat, bound: nat)
    requires InputsOk(edges) && n <= |edges| && (Tight(edges) ==> !Loose(bound))
    ensures Loose(bound) ==> Short(Frames(Offered(edges[..n])))
  {
    hide Loose, Short, Frames, Offered, Tight, DescOk;
  }

  lemma DescAt(edges: seq<Edge>, n: nat)
    requires InputsOk(edges) && n < |edges| && edges[n].DmaEdge?
    ensures DescOk(edges[n].desc) && (Tight(edges) ==> !Loose(edges[n].desc.maxFrame))
  {
    hide Loose, Short, Frames, Offered, DescOk;
  }

  /** One edge of a run. */
  method OneEdge(p: P.PciRxTransFifo, e: PciRxDma, edges: seq<Edge>, n: nat, g: Log, v: Stand)
    returns (g': Log, v': Stand)
    requires Going(p, e, edges, n, g, v) && n < |edges| && InputsOk(edges)
    requires edges[n].DmaEdge? ==> !Stopped(e.r)
    modifies p, e
    ensures Going(p, e, edges, n + 1, g', v')
    ensures edges[n] == PackEdge(None, false) ==> !v'.beatHeld && !v'.tranHeld && e.r == old(e.r)
    ensures edges[n].DmaEdge? ==> v'.beatHeld == v.beatHeld && v'.tranHeld == v.tranHeld
    ensures AllUp(edges[n]) && !v.beatHeld && !v.tranHeld && !Resting(old(e.r), v.tranQ) ==>
              Work(e.r, v'.beatQ, v'.tranQ) < Work(old(e.r), v.beatQ, v.tranQ)
  {
    hide LaneInv, DescOk, InputsOk, Tight, Loose, Short, Frames, Offered, GrantsOk, Passed, Work, Resting, AllUp,
      FramesShape;
    FramesOf(p, e, g.accepted, v);
    OfferedPush(edges, n);
    match edges[n] {
      case PackEdge(word, pause) =>
        var accepted;
        accepted, v' := PackClock(p, e, word, pause, g.accepted, v);
        g' := g.(accepted := accepted);
        GrantsStay(edges, n, g, g');
        NotUp(edges[n]);
      case DmaEdge(_, _, desc, _) =>
        ShortNow(edges, n, e.r.maxFrame);
        DescAt(edges, n);
        var tx, done, granted;
        v', tx, done, granted := EngineClock(p, e, edges[n], g.accepted, v, g.packets);
        g' := g.(packets := g.packets + (if tx.Some? then [tx.value] else []),
                 dones := if done.Some? then g.dones + [done.value] else g.dones,
                 grants := if granted then g.grants + [n] else g.grants,
                 bases := if granted then g.bases + [desc.newAddr] else g.bases,
                 limits := if granted then g.limits + [desc.maxFrame] else g.limits);
        GrantsPush(edges, n, g, g', granted);
    }
  }

  lemma NotUp(edge: Edge)
    requires edge.PackEdge?
    ensures !AllUp(edge)
  {
  }

  /** A run from reset, up to the report of the first length error. */
  method Follow(edges: seq<Edge>, channel: nat, reqId: nat, tag: nat)
    returns (p: P.PciRxTransFifo, e: PciRxDma, n: nat, g: Log, v: Stand)
    requires InputsOk(edges)
    ensures fresh(p) && fresh(e) && e.channel == channel && e.reqId == reqId && e.tag == tag
    ensures Going(p, e, edges, n, g, v)
    ensures n <= |edges| && (n < |edges| ==> Stopped(e.r) && edges[n].DmaEdge?)
  {
    hide Going, InputsOk, Work, Resting, AllUp;
    p, e := NewLane(channel, reqId, tag);
    n, g, v := 0, Log([], [], [], [], [], []), EMPTY;
    AtReset(p, e, edges);
    while n < |edges| && !(edges[n].DmaEdge? && e.r.state.IdleS? && e.r.lengthErr)
      invariant n <= |edges| && fresh(p) && fresh(e) && e.channel == channel
      invariant Going(p, e, edges, n, g, v)
    {
      g, v := OneEdge(p, e, edges, n, g, v);
      n := n + 1;
    }
  }

  lemma AtReset(p: P.PciRxTransFifo, e: PciRxDma, edges: seq<Edge>)
    requires LaneInv(p, e, [], EMPTY)
    requires e.h == History([], [], [], [], []) && !e.r.txValid && e.r.maxFrame == 0
    ensures Going(p, e, edges, 0, Log([], [], [], [], [], []), EMPTY)
  {
    hide LaneInv;
  }

  /** What a log says about a run of n edges, when the output register is counted as passed on. */
  ghost predicate Truthful(edges: seq<Edge>, n: nat, g: Log, channel: nat, progress: nat) {
    && n <= |edges| && g.accepted == Offered(edges[..n])
    && GrantsOk(edges[..n], g)
    && Reports(Frames(g.accepted), g.bases, g.limits, g.dones, channel)
    && Stores(g.packets, Frames(g.accepted), g.bases, g.limits, g.dones, progress)
  }

  /** The log of a run, completed by the packet beat in the output register, is truthful. */
  lemma Tell(p: P.PciRxTransFifo, e: PciRxDma, edges: seq<Edge>, n: nat, g: Log, v: Stand, g': Log, progress: nat)
    requires Going(p, e, edges, n, g, v)
    requires g' == g.(packets := g.packets + if e.r.txValid then [e.r.tx] else [])
    requires progress == if e.r.state.IdleS? || e.r.state.AckWaitS? then 0 else e.r.done.length
    ensures Truthful(edges, n, g', e.channel, progress)
    ensures Stopped(e.r) ==> g.dones != [] && g.dones[|g.dones| - 1].lengthErr
  {
    hide LaneInv, Delivered, Bounded, Reported, DmaInv, Offered, GrantsOk, Frames, Reports, Stores, FramesShape, Loose,
      Tight;
    Summary(p, e, g.accepted, v);
    FramesOf(p, e, g.accepted, v);
    Progress(e.r, e.channel, e.h);
    Told(e.r, e.h, p.frames, g.bases, g.limits, g.dones, e.channel, progress);
    GrantsSame(edges[..n], g, g');
    if Stopped(e.r) {
      LastError(e.r, e.h, g.limits, g.dones, e.channel);
    }
  }

  /** All packets carry the requester ID and the tag of the lane. */
  lemma TellMarked(p: P.PciRxTransFifo, e: PciRxDma, edges: seq<Edge>, n: nat, g: Log, v: Stand, packets: seq<TlpBeat>)
    requires Going(p, e, edges, n, g, v) && packets == g.packets + if e.r.txValid then [e.r.tx] else []
    ensures Marked(packets, e.reqId, e.tag)
  {
    hide P.PackInv, DmaInv, Lined, Frames, Offered, GrantsOk, Loose, Tight, Marked;
  }

  lemma GrantsSame(edges: seq<Edge>, g: Log, g': Log)
    requires GrantsOk(edges, g) && g'.grants == g.grants && g'.bases == g.bases && g'.limits == g.limits
    ensures GrantsOk(edges, g')
  {
  }

  /** The registers and queues at the end of a run. */
  datatype Lane = Lane(packer: P.RegType, engine: RegType, beatQ: seq<Beat>, tranQ: seq<Tran>)

  lemma Rests(p: P.PciRxTransFifo, e: PciRxDma, edges: seq<Edge>, n: nat, g: Log, v: Stand)
    requires Going(p, e, edges, n, g, v)
    requires Resting(e.r, v.tranQ) && !Stopped(e.r) && !v.tranHeld
    ensures AllReported(g.accepted, g.dones)
  {
    hide P.PackInv, DmaInv, InStep, Delivered, Bounded, Frames, Offered, GrantsOk, Passed, Loose, Tight, IsOpen;
    ghost var k := Packing(p.txns, p.frames, p.beats, p.trans);
    QueueLengths(p.r, k, p.cur);
    Caught(p.r, p.cur, k, e.r, e.h, v.rT, v.rB);
  }

  lemma HeldBy(p: P.PciRxTransFifo, e: PciRxDma, edges: seq<Edge>, n: nat, g: Log, v: Stand)
    requires Going(p, e, edges, n, g, v)
    ensures v.tranHeld == p.r.tranWr
  {
    hide Lined, Offered, GrantsOk, Passed, Loose, Tight;
  }

  lemma QueueLengths(pr: P.RegType, k: Packing, cur: seq<RxWord>)
    requires P.PackInv(pr, k.ts, cur, k.fs, k.bs, k.qs)
    ensures |k.qs| == |k.ts|
  {
  }

  lemma AtIdle(p: P.PciRxTransFifo, e: PciRxDma, edges: seq<Edge>, n: nat, g: Log, v: Stand)
    requires Going(p, e, edges, n, g, v) && e.r.state.IdleS?
    ensures |g.bases| == |g.dones|
  {
    hide P.PackInv, DmaInv, InStep, Delivered, Bounded, Frames, Offered, GrantsOk, Passed, Loose, Tight, Report;
    BoundFacts(e.r, e.channel, e.h);
  }

  /** Any run of the receive path up to the report of the first length error, with any bounds. The packets, completed by
      the one in the output register, store every reported frame and the part of the next one already sent; if nothing
      is left in the registers and queues, all frames have been reported. */
  method Receive(edges: seq<Edge>, channel: nat, reqId: nat, tag: nat)
    returns (steps: nat, g: Log, progress: nat, end: Lane)
    requires InputsOk(edges)
    ensures Truthful(edges, steps, g, channel, progress) && Marked(g.packets, reqId, tag)
    ensures steps < |edges| ==> g.dones != [] && g.dones[|g.dones| - 1].lengthErr
    ensures Drained(end.packer, end.engine, end.beatQ, end.tranQ) ==>
              AllReported(g.accepted, g.dones) && |g.bases| == |g.dones| && progress == 0
  {
    hide Going, InputsOk, Truthful, AllReported, Marked;
    var p, e, v;
    p, e, steps, g, v := Follow(edges, channel, reqId, tag);
    end := Lane(p.r, e.r, v.beatQ, v.tranQ);
    progress := if e.r.state.IdleS? || e.r.state.AckWaitS? then 0 else e.r.done.length;
    ghost var g0 := g;
    g := g.(packets := g.packets + if e.r.txValid then [e.r.tx] else []);
    Tell(p, e, edges, steps, g0, v, g, progress);
    TellMarked(p, e, edges, steps, g0, v, g.packets);
    if Drained(p.r, e.r, v.beatQ, v.tranQ) {
      HeldBy(p, e, edges, steps, g0, v);
      Rests(p, e, edges, steps, g0, v);
      AtIdle(p, e, edges, steps, g0, v);
    }
  }

  /** Every frame that has ended is reported, whole. */
  ghost predicate AllReported(accepted: seq<RxWord>, dones: seq<Done>) {
    var fs := Frames(accepted);
    && |dones| == |fs| - (if IsOpen(fs) then 1 else 0)
    && forall j :: 0 <= j < |dones| ==> dones[j].length == |fs[j]|
  }

  // ---------------------------------------------------------------------------------------
  // Completion: from any point of any run everything is delivered in a bounded number of edges.
  // ---------------------------------------------------------------------------------------

  ghost predicate AllShort(edges: seq<Edge>) {
    forall n :: 0 <= n <= |edges| ==> Short(Frames(Offered(edges[..n])))
  }

  /** Descriptors that are granted and acknowledged at once. */
  ghost predicate SupplyOk(edges: seq<Edge>, supply: nat -> DescFromPci) {
    && (forall i :: 0 <= i < |edges| && edges[i].DmaEdge? ==> DescOk(edges[i].desc))
    && (forall n :: DescOk(supply(n)) && supply(n).newAck && supply(n).doneAck)
    && ((Tight(edges) && forall n :: !Loose(supply(n).maxFrame)) || AllShort(edges))
  }

  /** An edge without a new word: the packer's registers move on, or the engine runs with nothing to hold it up. */
  ghost predicate Idles(edge: Edge, supply: nat -> DescFromPci, n: nat) {
    edge == PackEdge(None, false) || edge == DmaEdge(true, true, supply(n), true)
  }

  lemma OfferedSame(edges: seq<Edge>, edge: Edge)
    requires edge.DmaEdge? || edge.word.None?
    ensures Offered(edges + [edge]) == Offered(edges)
  {
    assert (edges + [edge])[..|edges|] == edges;
  }

  lemma SupplyGrows(edges: seq<Edge>, supply: nat -> DescFromPci, edge: Edge)
    requires SupplyOk(edges, supply) && Idles(edge, supply, |edges|)
    ensures SupplyOk(edges + [edge], supply) && InputsOk(edges + [edge])
    ensures edge.DmaEdge? ==> AllUp(edge)
  {
    hide Short, Frames, DescOk, Loose, Offered;
    var es := edges + [edge];
    assert forall i :: 0 <= i < |edges| ==> es[i] == edges[i];
    if AllShort(edges) {
      forall n | 0 <= n <= |es|
        ensures Short(Frames(Offered(es[..n])))
      {
        if n <= |edges| {
          assert es[..n] == edges[..n];
        } else {
          assert es[..n] == es && edges[..|edges|] == edges;
          OfferedSame(edges, edge);
        }
      }
    }
  }

  lemma GoingOn(p: P.PciRxTransFifo, e: PciRxDma, edges: seq<Edge>, g: Log, v: Stand, edge: Edge)
    requires Going(p, e, edges, |edges|, g, v)
    ensures Going(p, e, edges + [edge], |edges|, g, v)
  {
    hide LaneInv, Passed, Loose, GrantsOk, Offered;
    var es := edges + [edge];
    assert es[..|edges|] == edges[..|edges|];
    if Tight(es) {
      forall i | 0 <= i < |edges| && edges[i].DmaEdge?
        ensures !Loose(edges[i].desc.maxFrame)
      {
        assert es[i] == edges[i];
      }
    }
  }

  lemma WorkAhead(p: P.PciRxTransFifo, e: PciRxDma, edges: seq<Edge>, g: Log, v: Stand)
    requires Going(p, e, edges, |edges|, g, v)
    ensures Work(e.r, v.beatQ, v.tranQ) <= 5 * |Offered(edges)| + 3
  {
    hide DmaInv, P.PackInv, InStep, Delivered, Bounded, Reported, Passed, GrantsOk, Offered, Loose, Tight;
    assert edges[..|edges|] == edges;
  }

  /** One more edge after the run so far. */
  method Extend(p: P.PciRxTransFifo, e: PciRxDma, edges: seq<Edge>, supply: nat -> DescFromPci, edge: Edge, g: Log,
                v: Stand)
    returns (edges': seq<Edge>, g': Log, v': Stand)
    requires Going(p, e, edges, |edges|, g, v) && SupplyOk(edges, supply) && !Stopped(e.r)
    requires Idles(edge, supply, |edges|)
    modifies p, e
    ensures edges' == edges + [edge] && SupplyOk(edges', supply) && Offered(edges') == Offered(edges)
    ensures Going(p, e, edges', |edges'|, g', v')
    ensures edge.PackEdge? ==> !v'.beatHeld && !v'.tranHeld
    ensures edge.DmaEdge? ==> v'.beatHeld == v.beatHeld && v'.tranHeld == v.tranHeld
    ensures edge.DmaEdge? && !v.beatHeld && !v.tranHeld && !Resting(old(e.r), v.tranQ) ==>
              Work(e.r, v'.beatQ, v'.tranQ) < Work(old(e.r), v.beatQ, v.tranQ)
  {
    hide Going, SupplyOk, InputsOk, Work, Resting, Offered, AllUp;
    edges' := edges + [edge];
    SupplyGrows(edges, supply, edge);
    GoingOn(p, e, edges, g, v, edge);
    OfferedSame(edges, edge);
    g', v' := OneEdge(p, e, edges', |edges|, g, v);
  }

  lemma SupplyMeans(edges: seq<Edge>, supply: nat -> DescFromPci)
    requires SupplyOk(edges, supply)
    ensures InputsOk(edges)
  {
    hide Short, Frames, DescOk, Loose, Offered;
  }

  /** However a run has gone so far, edges that bring no new word, with everything visible and ready, deliver all that
      is owed: at most five for each word taken in and four more. */
  method Deliver(edges: seq<Edge>, supply: nat -> DescFromPci, channel: nat, reqId: nat, tag: nat)
    returns (whole: seq<Edge>, steps: nat, g: Log, progress: nat)
    requires SupplyOk(edges, supply)
    ensures edges <= whole && |whole| <= |edges| + 5 * |Offered(edges)| + 4
    ensures forall i :: |edges| <= i < |whole| ==> Idles(whole[i], supply, i)
    ensures Offered(whole) == Offered(edges) && (steps == |whole| || (steps < |edges| && edges[steps].DmaEdge?))
    ensures Truthful(whole, steps, g, channel, progress) && Marked(g.packets, reqId, tag)
    ensures (g.dones != [] && g.dones[|g.dones| - 1].lengthErr) || AllReported(Offered(edges), g.dones)
  {
    hide Going, SupplyOk, InputsOk, Truthful, AllReported, Work, Resting, Offered, Idles, Marked;
    SupplyMeans(edges, supply);
    var p, e, v;
    p, e, steps, g, v := Follow(edges, channel, reqId, tag);
    whole := edges;
    if steps == |edges| && !Stopped(e.r) {
      IdleEdges(supply, |whole|);
      whole, g, v := Extend(p, e, whole, supply, PackEdge(None, false), g, v);
      WorkAhead(p, e, whole, g, v);
      while !Stopped(e.r) && !Resting(e.r, v.tranQ)
        invariant fresh(p) && fresh(e) && e.channel == channel && !v.beatHeld && !v.tranHeld
        invariant Going(p, e, whole, |whole|, g, v) && SupplyOk(whole, supply)
        invariant edges <= whole && Offered(whole) == Offered(edges)
        invariant forall i :: |edges| <= i < |whole| ==> Idles(whole[i], supply, i)
        invariant |whole| + Work(e.r, v.beatQ, v.tranQ) <= |edges| + 5 * |Offered(edges)| + 4
        decreases Work(e.r, v.beatQ, v.tranQ)
      {
        IdleEdges(supply, |whole|);
        whole, g, v := Extend(p, e, whole, supply, DmaEdge(true, true, supply(|whole|), true), g, v);
      }
      steps := |whole|;
    }
    ghost var g0 := g;
    progress := if e.r.state.IdleS? || e.r.state.AckWaitS? then 0 else e.r.done.length;
    g := g.(packets := g.packets + if e.r.txValid then [e.r.tx] else []);
    Tell(p, e, whole, steps, g0, v, g, progress);
    TellMarked(p, e, whole, steps, g0, v, g.packets);
    if !Stopped(e.r) {
      Rests(p, e, whole, steps, g0, v);
      TakenIn(p, e, whole, g0, v);
    }
  }

  lemma IdleEdges(supply: nat -> DescFromPci, n: nat)
    ensures Idles(PackEdge(None, false), supply, n) && Idles(DmaEdge(true, true, supply(n), true), supply, n)
  {
  }

  lemma TakenIn(p: P.PciRxTransFifo, e: PciRxDma, edges: seq<Edge>, g: Log, v: Stand)
    requires Going(p, e, edges, |edges|, g, v)
    ensures g.accepted == Offered(edges)
  {
    hide LaneInv, Passed, Loose, GrantsOk, Offered, Tight;
    assert edges[..|edges|] == edges;
  }
}

/** One frame through an idle lane: what the length bound lets through. */
module RxBound {
  import opened AxiStream
  import opened RxFrames
  import opened RxMemory
  import opened RxDma
  import opened RxChannel

  /** The words of a frame, one at each edge. */
  function Fed(f: Frame): (es: seq<Edge>)
    ensures |es| == |f| && forall i :: 0 <= i < |f| ==> es[i] == PackEdge(Some(f[i]), false)
  {
    seq(|f|, i requires 0 <= i < |f| => PackEdge(Some(f[i]), false))
  }

  lemma {:induction false} FedFrames(f: Frame, n: nat)
    requires FrameShape(f) && n <= |f|
    ensures Offered(Fed(f)[..n]) == f[..n] && Frames(f[..n]) == if n == 0 then [] else [f[..n]]
  {
    hide Push, IsOpen, FrameShape, Fed;
    if n == 0 {
      assert Fed(f)[..n] == [] && f[..n] == [];
    } else {
      FedFrames(f, n - 1);
      assert Fed(f)[..n][..n - 1] == Fed(f)[..n - 1];
      assert f[..n][..n - 1] == f[..n - 1] && f[..n] == f[..n - 1] + [f[n - 1]];
      FedPush(f, n);
    }
  }

  lemma FedPush(f: Frame, n: nat)
    requires FrameShape(f) && 0 < n <= |f|
    ensures Push(if n == 1 then [] else [f[..n - 1]], f[n - 1]) == [f[..n]]
  {
    assert f[..n] == f[..n - 1] + [f[n - 1]];
    if n == 1 {
      assert f[..1] == [f[0]];
    } else {
      var g := [f[..n - 1]];
      assert IsOpen(g) && g[..0] == [];
      assert Push(g, f[n - 1]) == g[..0] + [g[0] + [f[n - 1]]];
    }
  }

  lemma {:induction false} FedOk(f: Frame, d: DescFromPci, supply: nat -> DescFromPci)
    requires FrameShape(f) && |f| < LENGTH_SPACE && DescOk(d) && d.newAck && d.doneAck && supply == (n => d)
    ensures SupplyOk(Fed(f), supply) && Offered(Fed(f)) == f && Frames(f) == [f]
  {
    hide Offered, Frames;
    forall n | 0 <= n <= |f|
      ensures Short(Frames(Offered(Fed(f)[..n])))
    {
      FedFrames(f, n);
    }
    FedFrames(f, |f|);
    assert f[..|f|] == f && Fed(f)[..|f|] == Fed(f);
  }

  /** A whole frame, put into an idle lane, is stored and reported up to the length its bound allows; none of it lies
      beyond a bound that is a multiple of 32 words. */
  method OneFrame(f: Frame, base: nat, bound: nat, channel: nat, reqId: nat, tag: nat)
    returns (packets: seq<TlpBeat>, report: Done)
    requires FrameShape(f) && Closed(f) && |f| < LENGTH_SPACE
    requires base < ADDR_SPACE && 0 < bound < LENGTH_SPACE
    ensures 0 < report.length <= |f| && report.length == Allowed(bound, |f|)
    ensures report == Report(f[..report.length], base, Hit(bound, report.length), channel)
    ensures ReceiveAll(packets).ok && ReceiveAll(packets).writes == Stored(f[..report.length], base)
    ensures Marked(packets, reqId, tag)
    ensures Aligned(bound) ==> report.length <= bound
  {
    hide FrameShape, Frames, Offered, Closed, Report, Allowed, Hit, Unguarded, ReceiveAll, Stored, Truthful, SupplyOk,
      Marked;
    var d := DescFromPci(true, base, bound, true);
    var supply: nat -> DescFromPci := n => d;
    FedOk(f, d, supply);
    var whole, steps, g, progress := Deliver(Fed(f), supply, channel, reqId, tag);
    TheFrame(f, base, bound, channel, supply, whole, steps, g, progress);
    packets, report := g.packets, g.dones[0];
    BoundExact(bound);
  }

  lemma TheFrame(f: Frame, base: nat, bound: nat, channel: nat, supply: nat -> DescFromPci,
                 whole: seq<Edge>, steps: nat, g: Log, progress: nat)
    requires FrameShape(f) && Closed(f) && Frames(f) == [f] && supply == (n => DescFromPci(true, base, bound, true))
    requires Fed(f) <= whole && (forall i :: |f| <= i < |whole| ==> Idles(whole[i], supply, i))
    requires Offered(whole) == Offered(Fed(f)) == f && (steps == |whole| || (steps < |f| && Fed(f)[steps].DmaEdge?))
    requires Truthful(whole, steps, g, channel, progress)
    requires (g.dones != [] && g.dones[|g.dones| - 1].lengthErr) || AllReported(f, g.dones)
    ensures |g.dones| == 1
    ensures var r := g.dones[0];
            && 0 < r.length <= |f| && r.length == Allowed(bound, |f|)
            && r == Report(f[..r.length], base, Hit(bound, r.length), channel)
            && ReceiveAll(g.packets).ok && ReceiveAll(g.packets).writes == Stored(f[..r.length], base)
  {
    hide FrameShape, Offered, GrantsOk, Reports, Stores, Frames, Idles, AllReported, ReceiveAll, Stored, Report,
      Allowed, Hit;
    assert whole[..|whole|] == whole;
    assert g.accepted == f && Reports([f], g.bases, g.limits, g.dones, channel);
    OneReport(f, g, channel);
    GrantOf(f, base, bound, supply, whole, g);
    OneStored(f, g, channel, progress);
    assert |g.bases| >= 1 && g.bases[0] == base && g.limits[0] == bound by {
      OneGrant(f, g, channel);
    }
  }

  lemma OneReport(f: Frame, g: Log, channel: nat)
    requires |f| > 0 && Closed(f) && Frames(f) == [f] && g.accepted == f
    requires Reports([f], g.bases, g.limits, g.dones, channel)
    requires (g.dones != [] && g.dones[|g.dones| - 1].lengthErr) || AllReported(f, g.dones)
    ensures |g.dones| == 1
  {
    hide Frames, Report, Allowed, Hit;
    assert !IsOpen([f]);
  }

  lemma OneGrant(f: Frame, g: Log, channel: nat)
    requires |g.dones| == 1 && Reports([f], g.bases, g.limits, g.dones, channel)
    ensures 1 <= |g.bases| == |g.limits|
  {
    hide Report, Allowed, Hit;
  }

  lemma OneStored(f: Frame, g: Log, channel: nat, progress: nat)
    requires |g.dones| == 1 && Reports([f], g.bases, g.limits, g.dones, channel)
    requires Stores(g.packets, [f], g.bases, g.limits, g.dones, progress)
    ensures var r, bound := g.dones[0], g.limits[0];
            && 0 < r.length <= |f| && r.length == Allowed(bound, |f|)
            && r == Report(f[..r.length], g.bases[0], Hit(bound, r.length), channel)
            && ReceiveAll(g.packets).ok && ReceiveAll(g.packets).writes == Stored(f[..r.length], g.bases[0])
  {
    hide Report, Allowed, Hit, ReceiveAll, Stored, Unguarded;
    var c := Cut([f], g.dones);
    assert AllStored(c, g.bases) == Stored(c[0], g.bases[0]) by {
      assert c[..0] == [];
    }
  }

  lemma GrantOf(f: Frame, base: nat, bound: nat, supply: nat -> DescFromPci, whole: seq<Edge>, g: Log)
    requires supply == (n => DescFromPci(true, base, bound, true))
    requires Fed(f) <= whole && (forall i :: |f| <= i < |whole| ==> Idles(whole[i], supply, i))
    requires GrantsOk(whole, g)
    ensures forall j :: 0 <= j < |g.bases| ==> g.bases[j] == base && g.limits[j] == bound
  {
    forall j | 0 <= j < |g.bases|
      ensures g.bases[j] == base && g.limits[j] == bound
    {
      assert GrantAt(whole, g.grants[j], g.bases[j], g.limits[j]);
    }
  }

  /** n words of one frame. */
  function Numbered(n: nat): (f: Frame)
    requires n > 0
    ensures |f| == n && FrameShape(f) && Closed(f)
  {
    seq(n, i => RxWord(ZERO_DW, i == 0, i == n - 1, false, 0))
  }

  /** For every bound that is not a multiple of 32 there is a frame of which the word at base + bound is stored; without
      any error in the report if the bound leaves remainder 1. */
  method Overrun(bound: nat, base: nat, channel: nat, reqId: nat, tag: nat)
    returns (f: Frame, packets: seq<TlpBeat>, report: Done)
    requires !Aligned(bound) && bound + 1 < LENGTH_SPACE && base < ADDR_SPACE
    ensures FrameShape(f) && Closed(f) && |f| == report.length == bound + 1
    ensures ReceiveAll(packets).ok && ReceiveAll(packets).writes == Stored(f, base)
    ensures ReceiveAll(packets).writes[bound].addr == Wrap(base + bound)
    ensures report.lengthErr == !Unguarded(bound)
  {
    hide ReceiveAll;
    f := Numbered(bound + 1);
    packets, report := OneFrame(f, base, bound, channel, reqId, tag);
    assert f[..|f|] == f;
  }
}
