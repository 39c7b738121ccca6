/** What the receive path promises to carry: frames cut out of a stream of 32-bit words. */
module RxFrames {
  import opened AxiStream

  datatype RxWord = RxWord(data: Dw, sof: bool, last: bool, eofe: bool, dest: nat)

  type Frame = seq<RxWord>

  ghost predicate IsOpen(fs: seq<Frame>) {
    |fs| > 0 && |fs[|fs| - 1]| > 0 && !fs[|fs| - 1][|fs[|fs| - 1]| - 1].last
  }

  /** One more word: it extends the open frame, opens a new one, or is thrown away. */
  ghost function Push(fs: seq<Frame>, w: RxWord): seq<Frame> {
    if IsOpen(fs) then fs[..|fs| - 1] + [fs[|fs| - 1] + [w]]
    else if w.sof then fs + [[w]]
    else fs
  }

  /** The frames of a word stream; only the last one may still be open. */
  ghost function Frames(ws: seq<RxWord>): seq<Frame> {
    if ws == [] then [] else Push(Frames(ws[..|ws| - 1]), ws[|ws| - 1])
  }

  /** A frame is damaged when an interior word restarts it or its last word carries the error flag. */
  ghost predicate Damaged(f: Frame) {
    || (exists i :: 0 < i < |f| && f[i].sof && !f[i].last)
    || (|f| > 0 && f[|f| - 1].last && f[|f| - 1].eofe)
  }

  /** A frame starts with a start-of-frame word and only its final word may be marked last. */
  ghost predicate FrameShape(f: Frame) {
    && |f| > 0
    && f[0].sof
    && forall i :: 0 <= i < |f| - 1 ==> !f[i].last
  }

  ghost predicate FramesShape(fs: seq<Frame>) {
    && (forall j :: 0 <= j < |fs| ==> FrameShape(fs[j]))
    && (forall j :: 0 <= j < |fs| - 1 ==> fs[j][|fs[j]| - 1].last)
  }

  /** Later frames only extend earlier ones. */
  ghost predicate Extends(fs: seq<Frame>, gs: seq<Frame>) {
    && |fs| <= |gs|
    && forall j :: 0 <= j < |fs| ==> fs[j] <= gs[j]
  }

  lemma PushKeeps(fs: seq<Frame>, w: RxWord)
    requires FramesShape(fs)
    ensures FramesShape(Push(fs, w)) && Extends(fs, Push(fs, w))
    ensures IsOpen(fs) ==> IsOpen(Push(fs, w)) == !w.last
    ensures !IsOpen(fs) && w.sof ==> IsOpen(Push(fs, w)) == !w.last
    ensures !IsOpen(fs) && !w.sof ==> Push(fs, w) == fs
  {
    if IsOpen(fs) {
      var n := |fs| - 1;
      var gs := Push(fs, w);
      assert gs[n] == fs[n] + [w];
      forall j | 0 <= j < |fs| - 1 ensures gs[j] == fs[j] {}
    }
  }

  lemma FramesPush(ws: seq<RxWord>, w: RxWord)
    ensures Frames(ws + [w]) == Push(Frames(ws), w)
  {
    assert (ws + [w])[..|ws + [w]| - 1] == ws;
  }

  lemma DamagedPush(f: Frame, w: RxWord)
    requires FrameShape(f) && !f[|f| - 1].last
    ensures Damaged(f + [w]) <==> Damaged(f) || (w.sof && !w.last) || (w.last && w.eofe)
  {
    var g := f + [w];
    if w.sof && !w.last {
      assert g[|f|] == w;
    }
    if Damaged(f) {
      var i :| 0 < i < |f| && f[i].sof && !f[i].last;
      assert g[i] == f[i];
    }
  }
}

/** How frames travel between the packer and the DMA engine: transactions of at most 32 words,
    each a header beat, body beats of up to four words, and one entry in a parallel queue. */
module RxTransactions {
  import opened AxiStream
  import opened RxFrames

  datatype Beat = Beat(lanes: Lanes, keep: nat, sof: bool, last: bool)

  datatype Tran = Tran(subId: nat, sof: bool, eof: bool, eofe: bool, length: nat, cnt: nat)

  /** Words [start, start + |words|) of one frame. */
  datatype Txn = Txn(frame: nat, start: nat, words: seq<RxWord>)

  ghost predicate Ends(t: Txn) {
    |t.words| > 0 && t.words[|t.words| - 1].last
  }

  /** A transaction is a slice of its frame, cut at a multiple of 32 words; only the one that
      ends the frame may be shorter than 32 words. */
  ghost predicate TxnOk(t: Txn, fs: seq<Frame>) {
    && t.frame < |fs|
    && Aligned(t.start)
    && 1 <= |t.words| <= 32
    && t.start + |t.words| <= |fs[t.frame]|
    && t.words == fs[t.frame][t.start..t.start + |t.words|]
    && (!Ends(t) ==> |t.words| == 32)
  }

  ghost predicate Follows(t: Txn, u: Txn) {
    if Ends(t) then u.frame == t.frame + 1 && u.start == 0
    else u.frame == t.frame && u.start == t.start + |t.words|
  }

  ghost predicate ChainOk(ts: seq<Txn>, fs: seq<Frame>) {
    && (forall i :: 0 <= i < |ts| ==> TxnOk(ts[i], fs))
    && (|ts| > 0 ==> ts[0].frame == 0 && ts[0].start == 0)
    && (forall i :: 0 <= i < |ts| - 1 ==> Follows(ts[i], ts[i + 1]))
  }

  /** The frame and the offset in it at which the next transaction starts. */
  ghost function Resume(ts: seq<Txn>): (nat, nat) {
    if ts == [] then (0, 0)
    else
      var t := ts[|ts| - 1];
      if Ends(t) then (t.frame + 1, 0) else (t.frame, t.start + |t.words|)
  }

  ghost function BodyCount(n: nat): nat {
    if n == 0 then 0 else (n + 2) / 4
  }

  ghost function Lane(words: seq<RxWord>, k: nat): Dw {
    if k < |words| then Swap(words[k].data) else ZERO_DW
  }

  /** Body beat i carries words 1 + 4i and up to three more. */
  ghost function BodyBeat(words: seq<RxWord>, i: nat): Beat
    requires 1 + 4 * i < |words|
  {
    var j := 1 + 4 * i;
    var keep := if |words| - j < 4 then |words| - j else 4;
    Beat([Lane(words, j), Lane(words, j + 1), Lane(words, j + 2), Lane(words, j + 3)],
         keep, false, words[j + keep - 1].last)
  }

  ghost predicate HeadBeat(words: seq<RxWord>, b: Beat) {
    && |words| > 0
    && b.lanes[0] == Swap(words[0].data)
    && b.sof == words[0].sof
    && b.last == words[0].last
    && b.keep == if words[0].last then 1 else 4
  }

  /** Beats bs, from position p on, are the beats of the first n body beats of a transaction. */
  ghost predicate BeatsAt(bs: seq<Beat>, p: nat, words: seq<RxWord>, n: nat) {
    && |words| > 0
    && 4 * n <= |words| + 2
    && p + 1 + n <= |bs|
    && HeadBeat(words, bs[p])
    && forall i :: 0 <= i < n ==> bs[p + 1 + i] == BodyBeat(words, i)
  }

  /** The number of beats of a list of transactions. */
  ghost function BeatCount(ts: seq<Txn>): nat {
    if ts == [] then 0
    else BeatCount(ts[..|ts| - 1]) + 1 + BodyCount(|ts[|ts| - 1].words|)
  }

  lemma BeatCountPush(ts: seq<Txn>, t: Txn)
    ensures BeatCount(ts + [t]) == BeatCount(ts) + 1 + BodyCount(|t.words|)
  {
    assert (ts + [t])[..|ts + [t]| - 1] == ts;
  }

  /** Transaction k occupies the beats just after those of transactions 0 .. k-1. */
  ghost predicate AllBeats(bs: seq<Beat>, ts: seq<Txn>) {
    forall k :: 0 <= k < |ts| ==>
      BeatsAt(bs, BeatCount(ts[..k]), ts[k].words, BodyCount(|ts[k].words|))
  }

  /** The queue entry that announces transaction t of frames fs. */
  ghost predicate Announces(q: Tran, t: Txn, fs: seq<Frame>)
    requires t.frame < |fs| && t.start + |t.words| <= |fs[t.frame]|
    requires |fs[t.frame]| > 0
  {
    && q.sof
    && q.eof == Ends(t)
    && q.subId == fs[t.frame][0].dest % 4
    && q.eofe == Damaged(fs[t.frame][..t.start + |t.words|])
    && q.length == |t.words|
    && (|t.words| >= 2 ==> q.cnt == BodyCount(|t.words|) - 1)
  }

  ghost predicate AllAnnounced(qs: seq<Tran>, ts: seq<Txn>, fs: seq<Frame>)
    requires ChainOk(ts, fs) && FramesShape(fs)
  {
    && |qs| == |ts|
    && forall k :: 0 <= k < |ts| ==> Announces(qs[k], ts[k], fs)
  }
}
