/** PciRxTransFifo: packs the 32-bit receive stream into 128-bit beats and transactions. */
module RxPacker {
  import opened AxiStream
  import opened RxFrames
  import opened RxTransactions

  datatype PackState = IdleS | SendS

  datatype RegType = RegType(
    tranWr: bool, tranSubId: nat, tranCnt: nat, tranLength: nat,
    tranSof: bool, tranEof: bool, tranEofe: bool, cnt: nat,
    axisValid: bool, axis: Beat, state: PackState)

  const REG_INIT := RegType(false, 0, 0, 0, true, true, false, 1,
                            false, Beat([ZERO_DW, ZERO_DW, ZERO_DW, ZERO_DW], 0, false, false), IdleS)

  /** What the registers offer to the data queue and to the transaction queue. */
  function DataOut(r: RegType): Beat {
    r.axis.(lanes := SwapLanes(r.axis.lanes))
  }

  function TranOut(r: RegType): Tran {
    Tran(r.tranSubId, r.tranSof, r.tranEof, r.tranEofe, r.tranLength, r.tranCnt)
  }

  // ---------------------------------------------------------------------------------------
  // The invariant: cur holds the words of the transaction being packed.
  // ---------------------------------------------------------------------------------------

  /** Every frame word belongs to a finished transaction or to the current one. */
  ghost predicate Covers(ts: seq<Txn>, cur: seq<RxWord>, fs: seq<Frame>) {
    var (f, s) := Resume(ts);
    && Aligned(s)
    && (if IsOpen(fs) then f == |fs| - 1 && s <= |fs[f]| && cur == fs[f][s..]
        else f == |fs| && s == 0 && cur == [])
  }

  ghost predicate Counting(r: RegType, cur: seq<RxWord>) {
    match r.state {
      case IdleS => cur == [] && r.cnt == 1
      case SendS => 1 <= |cur| < MAX_RX_TRANS && r.cnt == |cur| + 1 && !r.tranEof
                    && !cur[|cur| - 1].last && r.tranCnt == (|cur| - 1) / 4
    }
  }

  /** The unfinished beat in the register holds the words packed since the last full beat. */
  ghost predicate PartialBeat(axis: Beat, cur: seq<RxWord>)
    requires |cur| > 0
  {
    var n := (|cur| - 1) / 4;
    var p := (|cur| - 1) % 4;
    && axis.keep == (if p == 0 then 4 else p)
    && forall i :: 0 <= i < 4 && p > 0 ==> axis.lanes[i] == if i < p then cur[1 + 4 * n + i].data else ZERO_DW
  }

  ghost predicate BeatsPacked(r: RegType, ts: seq<Txn>, cur: seq<RxWord>, bs: seq<Beat>) {
    && AllBeats(bs, ts)
    && (if |cur| == 0 then |bs| == BeatCount(ts)
        else
          && PartialBeat(r.axis, cur)
          && |bs| == BeatCount(ts) + 1 + (|cur| - 1) / 4
          && BeatsAt(bs, BeatCount(ts), cur, (|cur| - 1) / 4))
    && (r.axisValid ==> |bs| > 0 && bs[|bs| - 1] == DataOut(r))
  }

  /** The flags in the register describe the open frame. */
  ghost predicate Flags(r: RegType, fs: seq<Frame>)
    requires FramesShape(fs)
  {
    && r.tranSof
    && r.tranEof == !IsOpen(fs)
    && (IsOpen(fs) ==>
          && r.tranSubId == fs[|fs| - 1][0].dest % 4
          && r.tranEofe == Damaged(fs[|fs| - 1]))
  }

  ghost predicate PackInv(r: RegType, ts: seq<Txn>, cur: seq<RxWord>, fs: seq<Frame>, bs: seq<Beat>, qs: seq<Tran>) {
    && FramesShape(fs)
    && ChainOk(ts, fs) && AllAnnounced(qs, ts, fs)
    && Covers(ts, cur, fs)
    && Counting(r, cur)
    && Flags(r, fs)
    && BeatsPacked(r, ts, cur, bs)
    && (r.tranWr ==> |qs| > 0 && qs[|qs| - 1] == TranOut(r))
  }

  // ---------------------------------------------------------------------------------------
  // What one word does to the register.
  // ---------------------------------------------------------------------------------------

  /** The register before the word is examined: strobes cleared, length latched. */
  function Ready(r: RegType): RegType {
    r.(tranWr := false, axisValid := false, axis := r.axis.(sof := false, last := false), tranLength := r.cnt)
  }

  /** The frame flags at the start of a transaction. */
  function Opening(r: RegType, w: RxWord): RegType {
    if r.tranEof then
      Ready(r).(tranSof := true, tranEof := false, tranEofe := false, tranSubId := w.dest % 4)
    else
      Ready(r).(tranEofe := r.tranEofe || (w.sof && !w.last))
  }

  /** A word that opens a transaction goes out as a beat of its own. */
  function LatchFirst(v: RegType, w: RxWord): RegType {
    var axis := Beat([w.data, ZERO_DW, ZERO_DW, ZERO_DW], 1, w.sof, w.last);
    if w.last then
      v.(axisValid := true, axis := axis, tranEofe := v.tranEofe || w.eofe,
         tranWr := true, cnt := 1, tranEof := true)
    else
      v.(axisValid := true, axis := axis.(keep := 4), tranCnt := 0, cnt := 2, state := SendS)
  }

  /** A further word fills the next lane. */
  function NextLane(axis: Beat, d: Dw): Beat {
    if axis.keep == 4 then axis.(lanes := [d, ZERO_DW, ZERO_DW, ZERO_DW], keep := 1)
    else if axis.keep == 1 then axis.(lanes := axis.lanes[1 := d], keep := 2)
    else if axis.keep == 2 then axis.(lanes := axis.lanes[2 := d], keep := 3)
    else axis.(lanes := axis.lanes[3 := d], keep := 4)
  }

  /** A full beat is written; the last word of a transaction flushes the beat. */
  function LatchNext(v: RegType, w: RxWord): RegType {
    var axis := NextLane(v.axis, w.data);
    var eofe := v.tranEofe || (w.sof && !w.last) || (w.last && w.eofe);
    if v.cnt == MAX_RX_TRANS || w.last then
      v.(axisValid := true, axis := axis.(last := w.last), tranEofe := eofe, tranEof := w.last || v.tranEof,
         tranWr := true, cnt := 1, state := IdleS)
    else if axis.keep == 4 then
      v.(axisValid := true, axis := axis, tranEofe := eofe, tranCnt := v.tranCnt + 1, cnt := v.cnt + 1)
    else
      v.(axis := axis, tranEofe := eofe, cnt := v.cnt + 1)
  }

  // ---------------------------------------------------------------------------------------
  // Growth of the ghost histories.
  // ---------------------------------------------------------------------------------------

  lemma ChainGrows(ts: seq<Txn>, fs: seq<Frame>, gs: seq<Frame>, qs: seq<Tran>)
    requires FramesShape(fs) && FramesShape(gs) && Extends(fs, gs)
    requires ChainOk(ts, fs) && AllAnnounced(qs, ts, fs)
    ensures ChainOk(ts, gs) && AllAnnounced(qs, ts, gs)
  {
    forall k | 0 <= k < |ts|
      ensures TxnOk(ts[k], gs) && Announces(qs[k], ts[k], gs)
    {
      var t := ts[k];
      assert TxnOk(t, fs) && Announces(qs[k], t, fs);
      var e := t.start + |t.words|;
      assert fs[t.frame][..e] == gs[t.frame][..e];
      assert fs[t.frame][t.start..e] == gs[t.frame][t.start..e];
    }
  }

  /** Closing the current transaction adds it to the list. */
  lemma ChainPush(ts: seq<Txn>, t: Txn, fs: seq<Frame>, qs: seq<Tran>, q: Tran)
    requires FramesShape(fs) && ChainOk(ts, fs) && AllAnnounced(qs, ts, fs)
    requires TxnOk(t, fs) && Resume(ts) == (t.frame, t.start)
    requires Announces(q, t, fs)
    ensures ChainOk(ts + [t], fs) && AllAnnounced(qs + [q], ts + [t], fs)
    ensures Resume(ts + [t]) == if Ends(t) then (t.frame + 1, 0) else (t.frame, t.start + |t.words|)
  {
    var us := ts + [t];
    forall i | 0 <= i < |us| - 1
      ensures Follows(us[i], us[i + 1])
    {
      if i < |ts| - 1 {
        assert Follows(ts[i], ts[i + 1]);
      }
    }
  }

  lemma BeatsAtGrows(bs: seq<Beat>, cs: seq<Beat>, p: nat, words: seq<RxWord>, n: nat)
    requires BeatsAt(bs, p, words, n) && bs <= cs
    ensures BeatsAt(cs, p, words, n)
  {
    assert bs[p] == cs[p];
    forall i | 0 <= i < n
      ensures cs[p + 1 + i] == BodyBeat(words, i)
    {
      assert bs[p + 1 + i] == cs[p + 1 + i];
    }
  }

  lemma AllBeatsGrows(bs: seq<Beat>, cs: seq<Beat>, ts: seq<Txn>)
    requires AllBeats(bs, ts) && bs <= cs
    ensures AllBeats(cs, ts)
  {
    forall k | 0 <= k < |ts|
      ensures BeatsAt(cs, BeatCount(ts[..k]), ts[k].words, BodyCount(|ts[k].words|))
    {
      BeatsAtGrows(bs, cs, BeatCount(ts[..k]), ts[k].words, BodyCount(|ts[k].words|));
    }
  }

  lemma AllBeatsPush(bs: seq<Beat>, ts: seq<Txn>, t: Txn)
    requires AllBeats(bs, ts)
    requires BeatsAt(bs, BeatCount(ts), t.words, BodyCount(|t.words|))
    ensures AllBeats(bs, ts + [t])
    ensures BeatCount(ts + [t]) == BeatCount(ts) + 1 + BodyCount(|t.words|)
  {
    var us := ts + [t];
    BeatCountPush(ts, t);
    forall k | 0 <= k < |us|
      ensures BeatsAt(bs, BeatCount(us[..k]), us[k].words, BodyCount(|us[k].words|))
    {
      assert us[..k] == ts[..k];
      if k == |ts| {
        assert ts[..k] == ts;
      }
    }
  }

  /** Full beats stay as they are when the transaction grows by a word. */
  lemma BeatsAtPush(bs: seq<Beat>, p: nat, words: seq<RxWord>, n: nat, w: RxWord)
    requires BeatsAt(bs, p, words, n) && 4 * n < |words|
    ensures BeatsAt(bs, p, words + [w], n)
  {
    forall i | 0 <= i < n
      ensures BodyBeat(words, i) == BodyBeat(words + [w], i)
    {
      assert 1 + 4 * i + 3 < |words|;
    }
  }

  lemma BeatsAtNext(bs: seq<Beat>, p: nat, words: seq<RxWord>, n: nat)
    requires BeatsAt(bs, p, words, n) && 1 + 4 * n < |words|
    requires p + 2 + n <= |bs| && bs[p + 1 + n] == BodyBeat(words, n)
    ensures BeatsAt(bs, p, words, n + 1)
  {
  }

  /** The current transaction grows by one word. */
  lemma CoversPush(ts: seq<Txn>, cur: seq<RxWord>, fs: seq<Frame>, w: RxWord)
    requires FramesShape(fs) && Covers(ts, cur, fs)
    requires IsOpen(fs) || w.sof
    ensures var gs := Push(fs, w); var (f, s) := Resume(ts);
            && f == |gs| - 1
            && Aligned(s) && s <= |gs[f]|
            && cur + [w] == gs[f][s..]
            && IsOpen(gs) == !w.last
  {
    PushKeeps(fs, w);
    var (f, s) := Resume(ts);
    if IsOpen(fs) {
      assert (fs[f] + [w])[s..] == fs[f][s..] + [w];
    }
  }

  /** A transaction that reaches the end of the newest frame, announced by the entry q. */
  lemma Closes(ts: seq<Txn>, gs: seq<Frame>, qs: seq<Tran>, t: Txn, q: Tran)
    requires FramesShape(gs) && ChainOk(ts, gs) && AllAnnounced(qs, ts, gs)
    requires |gs| > 0 && Resume(ts) == (t.frame, t.start) && t.frame == |gs| - 1
    requires Aligned(t.start) && t.start <= |gs[t.frame]|
    requires t.words == gs[t.frame][t.start..]
    requires 1 <= |t.words| <= MAX_RX_TRANS && (Ends(t) || |t.words| == MAX_RX_TRANS)
    requires q.sof && q.eof == Ends(t) && q.length == |t.words|
    requires |t.words| >= 2 ==> q.cnt == BodyCount(|t.words|) - 1
    requires q.subId == gs[t.frame][0].dest % 4
    requires q.eofe == Damaged(gs[t.frame])
    ensures ChainOk(ts + [t], gs) && AllAnnounced(qs + [q], ts + [t], gs)
    ensures Covers(ts + [t], [], gs)
  {
    var f := gs[t.frame];
    assert f[..t.start + |t.words|] == f;
    assert f[t.start..t.start + |t.words|] == f[t.start..];
    assert TxnOk(t, gs) && Announces(q, t, gs);
    ChainPush(ts, t, gs, qs, q);
    hide ChainOk, AllAnnounced, TxnOk, Announces, FramesShape, Resume, Damaged;
    ClosedCover(gs, t);
  }

  /** After its last transaction a frame is covered. */
  lemma ClosedCover(gs: seq<Frame>, t: Txn)
    requires |gs| > 0 && t.frame == |gs| - 1 && Aligned(t.start) && t.start <= |gs[t.frame]|
    requires t.words == gs[t.frame][t.start..] && 1 <= |t.words|
    requires Ends(t) || |t.words| == MAX_RX_TRANS
    ensures Ends(t) ==> !IsOpen(gs)
    ensures !Ends(t) ==> IsOpen(gs) && Aligned(t.start + |t.words|) && gs[t.frame][t.start + |t.words|..] == []
  {
    var f := gs[t.frame];
    assert t.words[|t.words| - 1] == f[|f| - 1];
    if !Ends(t) {
      AlignedNext(t.start);
    }
  }

  lemma FlagsPush(r: RegType, fs: seq<Frame>, w: RxWord)
    requires FramesShape(fs) && Flags(r, fs)
    requires IsOpen(fs) || w.sof
    ensures FramesShape(Push(fs, w))
    ensures var gs := Push(fs, w);
            && |gs| > 0
            && IsOpen(gs) == !w.last
            && gs[|gs| - 1][0].dest % 4 == (if r.tranEof then w.dest % 4 else r.tranSubId)
            && Damaged(gs[|gs| - 1]) ==
                 ((!r.tranEof && (r.tranEofe || (w.sof && !w.last))) || (w.last && w.eofe))
  {
    PushKeeps(fs, w);
    if IsOpen(fs) {
      DamagedPush(fs[|fs| - 1], w);
    }
  }

  lemma LaneFilled(axis: Beat, cur: seq<RxWord>, w: RxWord)
    requires |cur| > 0 && PartialBeat(axis, cur)
    ensures var n := (|cur| - 1) / 4; var p := (|cur| - 1) % 4;
            var a := NextLane(axis, w.data);
            && a.keep == p + 1 && a.sof == axis.sof && a.last == axis.last
            && (forall i :: 0 <= i < 4 ==> a.lanes[i] == if i <= p then (cur + [w])[1 + 4 * n + i].data else ZERO_DW)
  {
  }

  /** The lane just filled completes body beat n when the beat is written. */
  lemma BodyFilled(axis: Beat, cur: seq<RxWord>, w: RxWord, b: Beat)
    requires |cur| > 0 && PartialBeat(axis, cur)
    requires var a := NextLane(axis, w.data); b == a.(lanes := SwapLanes(a.lanes), sof := false, last := w.last)
    ensures b == BodyBeat(cur + [w], (|cur| - 1) / 4)
  {
    LaneFilled(axis, cur, w);
    var n := (|cur| - 1) / 4;
    var c := BodyBeat(cur + [w], n);
    assert b.lanes[0] == c.lanes[0] && b.lanes[1] == c.lanes[1] && b.lanes[2] == c.lanes[2] && b.lanes[3] == c.lanes[3];
    assert b.lanes == c.lanes;
  }

  lemma PartialPush(axis: Beat, cur: seq<RxWord>, w: RxWord)
    requires |cur| > 0 && PartialBeat(axis, cur)
    ensures PartialBeat(NextLane(axis, w.data), cur + [w])
  {
    LaneFilled(axis, cur, w);
  }

  /** A further word, whether or not its beat is written. */
  lemma NextBeat(p: nat, cur: seq<RxWord>, bs: seq<Beat>, axis: Beat, w: RxWord, b: Beat)
    requires |cur| > 0 && PartialBeat(axis, cur)
    requires |bs| == p + 1 + (|cur| - 1) / 4 && BeatsAt(bs, p, cur, (|cur| - 1) / 4)
    requires var a := NextLane(axis, w.data); b == a.(lanes := SwapLanes(a.lanes), sof := false, last := w.last)
    ensures BeatsAt(bs, p, cur + [w], (|cur| - 1) / 4)
    ensures BeatsAt(bs + [b], p, cur + [w], (|cur| - 1) / 4 + 1)
  {
    var n := (|cur| - 1) / 4;
    BeatsAtPush(bs, p, cur, n, w);
    BeatsAtGrows(bs, bs + [b], p, cur + [w], n);
    BodyFilled(axis, cur, w, b);
    BeatsAtNext(bs + [b], p, cur + [w], n);
  }

  /** The register after a word of a frame. */
  function Taken(r: RegType, w: RxWord): RegType {
    if r.state.IdleS? then LatchFirst(Opening(r, w), w) else LatchNext(Ready(r), w)
  }

  ghost function Beats(v: RegType, bs: seq<Beat>): seq<Beat> {
    if v.axisValid then bs + [DataOut(v)] else bs
  }

  lemma TakenFacts(r: RegType, cur: seq<RxWord>, w: RxWord)
    requires Counting(r, cur)
    requires cur != [] ==> PartialBeat(r.axis, cur)
    ensures var v := Taken(r, w);
            && Counting(v, if v.tranWr then [] else cur + [w])
            && v.tranWr == (w.last || |cur| + 1 == MAX_RX_TRANS)
            && (v.tranWr ==> v.tranLength == |cur| + 1 && v.axisValid)
            && (v.tranWr && cur != [] ==> v.tranCnt == BodyCount(|cur| + 1) - 1)
  {
    if cur != [] {
      LaneFilled(r.axis, cur, w);
    }
  }

  lemma TakenFlags(r: RegType, fs: seq<Frame>, w: RxWord)
    requires FramesShape(fs) && Flags(r, fs)
    requires IsOpen(fs) || w.sof
    requires r.state.SendS? ==> !r.tranEof
    ensures FramesShape(Push(fs, w)) && Flags(Taken(r, w), Push(fs, w))
    ensures var v := Taken(r, w); var gs := Push(fs, w);
            && |gs| > 0
            && v.tranEof == w.last
            && v.tranSubId == gs[|gs| - 1][0].dest % 4
            && v.tranEofe == Damaged(gs[|gs| - 1])
  {
    FlagsPush(r, fs, w);
  }

  /** The beats after a word: the packed words, or all beats of a finished transaction. */
  ghost predicate BeatsAfter(v: RegType, ts: seq<Txn>, words: seq<RxWord>, cs: seq<Beat>) {
    && AllBeats(cs, ts)
    && (v.axisValid ==> |cs| > 0 && cs[|cs| - 1] == DataOut(v))
    && (if v.tranWr then
          && BeatsAt(cs, BeatCount(ts), words, BodyCount(|words|))
          && |cs| == BeatCount(ts) + 1 + BodyCount(|words|)
        else
          |words| > 0 && BeatsPacked(v, ts, words, cs))
  }

  lemma TakeFirst(r: RegType, ts: seq<Txn>, bs: seq<Beat>, w: RxWord)
    requires AllBeats(bs, ts) && |bs| == BeatCount(ts)
    ensures var v := LatchFirst(Opening(r, w), w); BeatsAfter(v, ts, [w], Beats(v, bs))
  {
    hide AllBeats, BeatCount;
    AllBeatsGrows(bs, Beats(LatchFirst(Opening(r, w), w), bs), ts);
  }

  lemma TakeNext(r: RegType, ts: seq<Txn>, cur: seq<RxWord>, bs: seq<Beat>, w: RxWord)
    requires Counting(r, cur) && BeatsPacked(r, ts, cur, bs) && cur != []
    ensures var v := LatchNext(Ready(r), w); BeatsAfter(v, ts, cur + [w], Beats(v, bs))
  {
    hide AllBeats, BeatsAt, BeatCount, BodyBeat, HeadBeat, NextLane, PartialBeat;
    var v := LatchNext(Ready(r), w);
    var axis := Ready(r).axis;
    AllBeatsGrows(bs, Beats(v, bs), ts);
    SameLanes(r.axis, axis, cur);
    var a := NextLane(axis, w.data);
    var b := a.(lanes := SwapLanes(a.lanes), sof := false, last := w.last);
    NextBeat(BeatCount(ts), cur, bs, axis, w, b);
    PartialPush(axis, cur, w);
    PartialPush(axis.(last := w.last), cur, w);
    LaneFilled(axis, cur, w);
  }

  lemma SameLanes(a: Beat, b: Beat, cur: seq<RxWord>)
    requires cur != [] && PartialBeat(a, cur) && a.lanes == b.lanes && a.keep == b.keep
    ensures PartialBeat(b, cur) && PartialBeat(b.(last := true), cur) && PartialBeat(b.(last := false), cur)
  {
  }

  lemma TakeBeats(r: RegType, ts: seq<Txn>, cur: seq<RxWord>, bs: seq<Beat>, w: RxWord)
    requires Counting(r, cur) && BeatsPacked(r, ts, cur, bs)
    ensures BeatsAfter(Taken(r, w), ts, cur + [w], Beats(Taken(r, w), bs))
  {
    hide BeatsAfter, AllBeats, BeatsAt, BeatCount, PartialBeat, LatchFirst, LatchNext;
    if r.state.IdleS? {
      assert cur + [w] == [w];
      TakeFirst(r, ts, bs, w);
    } else {
      TakeNext(r, ts, cur, bs, w);
    }
  }

  lemma TakeChain(r: RegType, ts: seq<Txn>, cur: seq<RxWord>, fs: seq<Frame>, qs: seq<Tran>, w: RxWord)
    requires FramesShape(fs) && ChainOk(ts, fs) && AllAnnounced(qs, ts, fs)
    requires Covers(ts, cur, fs) && Counting(r, cur) && Flags(r, fs)
    requires cur != [] ==> PartialBeat(r.axis, cur)
    requires IsOpen(fs) || w.sof
    ensures FramesShape(Push(fs, w)) && Flags(Taken(r, w), Push(fs, w))
    ensures var v := Taken(r, w); var gs := Push(fs, w);
            if v.tranWr then
              var t := Txn(Resume(ts).0, Resume(ts).1, cur + [w]);
              && ChainOk(ts + [t], gs)
              && AllAnnounced(qs + [TranOut(v)], ts + [t], gs)
              && Covers(ts + [t], [], gs)
            else
              ChainOk(ts, gs) && AllAnnounced(qs, ts, gs) && Covers(ts, cur + [w], gs)
  {
    hide ChainOk, AllAnnounced, FramesShape, Push, Damaged, BodyCount, Flags, Resume;
    var v := Taken(r, w);
    var gs := Push(fs, w);
    TakenFacts(r, cur, w);
    TakenFlags(r, fs, w);
    PushKeeps(fs, w);
    CoversPush(ts, cur, fs, w);
    ChainGrows(ts, fs, gs, qs);
    if v.tranWr {
      Closes(ts, gs, qs, Txn(Resume(ts).0, Resume(ts).1, cur + [w]), TranOut(v));
    }
  }

  /** What a step reads off the invariant before it looks at the word. */
  lemma PackFacts(r: RegType, ts: seq<Txn>, cur: seq<RxWord>, fs: seq<Frame>, bs: seq<Beat>, qs: seq<Tran>)
    requires PackInv(r, ts, cur, fs, bs, qs)
    ensures FramesShape(fs) && r.tranEof == !IsOpen(fs) && (r.state.SendS? ==> !r.tranEof)
    ensures r.axisValid ==> |bs| > 0 && bs[|bs| - 1] == DataOut(r)
    ensures r.tranWr ==> |qs| > 0 && qs[|qs| - 1] == TranOut(r)
    ensures PackInv(Ready(r), ts, cur, fs, bs, qs)
  {
    hide AllBeats, BeatsAt, ChainOk, AllAnnounced, FramesShape, Covers, Push, Resume, BeatCount;
  }

  class PciRxTransFifo {
    var r: RegType
    ghost var accepted: seq<RxWord>
    ghost var frames: seq<Frame>
    ghost var txns: seq<Txn>
    ghost var cur: seq<RxWord>
    ghost var beats: seq<Beat>
    ghost var trans: seq<Tran>

    ghost predicate Valid()
      reads this
    {
      && frames == Frames(accepted)
      && PackInv(r, txns, cur, frames, beats, trans)
      && |beats| <= |accepted| && |trans| <= |accepted|
    }

    constructor ()
      ensures Valid()
      ensures accepted == [] && txns == [] && beats == [] && trans == []
      ensures !r.axisValid && !r.tranWr
    {
      r := REG_INIT;
      accepted, frames, txns, cur, beats, trans := [], [], [], [], [], [];
    }

    /** Ghost bookkeeping for one word of a frame. */
    ghost method Take(w: RxWord, v: RegType)
      requires Valid()
      requires IsOpen(frames) || w.sof
      requires v == Taken(r, w)
      modifies this
      ensures PackInv(v, txns, cur, frames, beats, trans)
      ensures accepted == old(accepted) && r == old(r) && frames == Push(old(frames), w)
      ensures beats == old(beats) + (if v.axisValid then [DataOut(v)] else [])
      ensures trans == old(trans) + (if v.tranWr then [TranOut(v)] else [])
      ensures old(txns) <= txns
    {
      hide AllBeats, BeatsAt, ChainOk, AllAnnounced, FramesShape, Covers, Counting, Flags, PartialBeat, Push, Resume,
        BeatCount, DataOut, TranOut, Taken;
      TakenFacts(r, cur, w);
      TakeBeats(r, txns, cur, beats, w);
      TakeChain(r, txns, cur, frames, trans, w);
      frames, beats := Push(frames, w), Beats(v, beats);
      if v.tranWr {
        var t := Txn(Resume(txns).0, Resume(txns).1, cur + [w]);
        AllBeatsPush(beats, txns, t);
        txns, cur, trans := txns + [t], [], trans + [TranOut(v)];
      } else {
        cur := cur + [w];
      }
    }

    /** One sAxisClk cycle. beat and tran are the queue writes made by the registers in this cycle. */
    method Step(word: Option<RxWord>, pause: bool)
      returns (ready: bool, beat: Option<Beat>, tran: Option<Tran>)
      requires Valid()
      modifies this
      ensures Valid()
      ensures ready == (word.Some? && !pause)
      ensures !ready ==> !r.axisValid && !r.tranWr
      ensures accepted == old(accepted) + (if ready then [word.value] else [])
      ensures Extends(old(frames), frames)
      ensures old(txns) <= txns
      ensures beat == if old(r).axisValid then Some(old(beats)[|old(beats)| - 1]) else None
      ensures beats == old(beats) + (if r.axisValid then [DataOut(r)] else [])
      ensures tran == if old(r).tranWr then Some(old(trans)[|old(trans)| - 1]) else None
      ensures trans == old(trans) + (if r.tranWr then [TranOut(r)] else [])
    {
      hide PackInv, Frames, FramesShape, Push;
      PackFacts(r, txns, cur, frames, beats, trans);
      beat := if r.axisValid then Some(DataOut(r)) else None;
      tran := if r.tranWr then Some(TranOut(r)) else None;
      var v := Ready(r);
      ready := word.Some? && !pause;
      if ready {
        var w := word.value;
        FramesPush(accepted, w);
        PushKeeps(frames, w);
        match r.state {
          case IdleS =>
            if r.tranEof && !w.sof {
              // outside a frame: the word is thrown away
            } else {
              v := LatchFirst(Opening(r, w), w);
              Take(w, v);
            }
          case SendS =>
            v := LatchNext(v, w);
            Take(w, v);
        }
        accepted := accepted + [w];
      }
      r := v;
    }
  }
}
