/** What leaves of a frame is settled by the words, the edges and the times of acceptance; and what the check line does
    when it is held up or down. */
module TriggerVerdict {
  import opened AxiStream
  import opened RxFrames
  import opened TriggerTable
  import opened TriggerTrace
  import opened Trigger
  import H = HeaderCheck

  /** Frames only grow, and only the open one. */
  lemma {:induction false} Grow(ws: seq<RxWord>, a: nat, b: nat)
    requires a <= b <= |ws|
    ensures Extends(Frames(ws[..a]), Frames(ws[..b]))
    decreases b
  {
    hide Frames, Push, Extends;
    if a == b {
      Same(Frames(ws[..a]));
    } else {
      Grow(ws, a, b - 1);
      assert ws[..b] == ws[..b - 1] + [ws[b - 1]];
      FramesPush(ws[..b - 1], ws[b - 1]);
      Further(Frames(ws[..a]), Frames(ws[..b - 1]), ws[b - 1]);
    }
  }

  lemma Same(fs: seq<Frame>)
    ensures Extends(fs, fs)
  {
  }

  lemma Further(fs: seq<Frame>, gs: seq<Frame>, w: RxWord)
    requires Extends(fs, gs)
    ensures Extends(fs, Push(gs, w))
  {
    forall j | 0 <= j < |fs|
      ensures fs[j] <= Push(gs, w)[j]
    {
      assert fs[j] <= gs[j];
    }
  }

  /** Frame j starts with one word only. */
  lemma StartsOnce(words: seq<RxWord>, p: nat, q: nat, j: nat)
    requires Starts(words, p, j) && Starts(words, q, j) && p <= q
    ensures p == q
  {
    hide Frames, IsOpen;
    if p < q {
      assert words[..p + 1] == words[..p] + [words[p]];
      FramesPush(words[..p], words[p]);
      Grow(words, p + 1, q);
    }
  }

  /** One number of words only has a frame open with its two header words read. */
  lemma TwoReadOnce(words: seq<RxWord>, a: nat, b: nat, j: nat)
    requires a <= b <= |words| && H.TwoRead(Frames(words[..a]), j) && H.TwoRead(Frames(words[..b]), j)
    ensures a == b
  {
    hide Frames;
    if a < b {
      assert words[..a + 1] == words[..a] + [words[a]];
      FramesPush(words[..a], words[a]);
      Grow(words, a + 1, b);
    }
  }

  /** An edge of the receive clock that waits with n words accepted is counted at every later one. */
  lemma WaitedMore(t: Trace, a: nat, b: nat, n: nat)
    requires t.Formed() && a < b < |t.edges| && t.edges[a].RxEdge? && t.accepted[a] == n
    ensures Waited(t.edges[..a], t.accepted[..a], n) < Waited(t.edges[..b], t.accepted[..b], n)
  {
    var es, acc := t.edges[..a + 1], t.accepted[..a + 1];
    assert es[..a] == t.edges[..a] && acc[..a] == t.accepted[..a] && es[a] == t.edges[a] && acc[a] == n;
    assert Waited(es, acc, n) == Waited(t.edges[..a], t.accepted[..a], n) + 1;
    WaitedGrows(t.edges[..b], t.accepted[..b], n, a + 1);
    assert t.edges[..b][..a + 1] == es && t.accepted[..b][..a + 1] == acc;
  }

  lemma ReadOnce(words: seq<RxWord>, t: Trace, j: nat, m: H.Moment, m': H.Moment)
    requires t.Formed() && ReadAt(words, t, j, m) && ReadAt(words, t, j, m')
    ensures m == m'
  {
    hide Waited, Frames, H.TwoRead;
    if m.words <= m'.words {
      TwoReadOnce(words, m.words, m'.words, j);
    } else {
      TwoReadOnce(words, m'.words, m.words, j);
    }
    if m.edge < m'.edge {
      WaitedMore(t, m.edge, m'.edge, m.words);
    } else if m'.edge < m.edge {
      WaitedMore(t, m'.edge, m.edge, m.words);
    }
  }

  /** Whether a frame is checked is up to the check line. */
  lemma OnIff(words: seq<RxWord>, t: Trace, j: nat, c: H.Check)
    requires t.Formed() && Begun(words, t, j, c)
    ensures c.on <==> !LineDown(words, t, c.start.words)
  {
    hide Sees, Starts;
  }

  lemma OnOnce(words: seq<RxWord>, t: Trace, j: nat, c: H.Check, d: H.Check)
    requires t.Formed() && Begun(words, t, j, c) && Begun(words, t, j, d)
    ensures c.on == d.on
  {
    hide Starts, LineDown, TurnedTo;
    OnIff(words, t, j, c);
    OnIff(words, t, j, d);
    if c.start.words <= d.start.words {
      StartsOnce(words, c.start.words, d.start.words, j);
    } else {
      StartsOnce(words, d.start.words, c.start.words, j);
    }
  }

  /** Frame j is complete: all its words are there. */
  predicate Complete(f: Frame) {
    f != [] && f[|f| - 1].last
  }

  lemma {:induction false} PacedRises(words: seq<RxWord>, t: Trace, a: nat, b: nat)
    requires Paced(words, t) && a <= b <= |t.edges|
    ensures t.accepted[a] <= t.accepted[b]
    decreases b
  {
    hide Sees;
    if a == b {
    } else {
      PacedRises(words, t, a, b - 1);
      assert Accepts(words, t, b - 1);
    }
  }

  /** A complete frame of fewer than three words is not judged. */
  lemma ShortUnjudged(words: seq<RxWord>, t: Trace, j: nat, f: Frame, c: H.Check)
    requires Paced(words, t) && t.Formed() && t.Count() <= |words|
    requires j < |Frames(words[..t.Count()])| && f == Frames(words[..t.Count()])[j]
    requires Judged(words, t, j, f, c) && Complete(f) && |f| < 3
    ensures c.entry.None?
  {
    hide Frames, Waited, Begun, EntryOk, Cycles, Before, Paced;
    if c.entry.Some? {
      PacedRises(words, t, c.read.edge, |t.edges|);
      Grow(words, c.read.words, t.Count());
    }
  }

  /** What leaves of a frame is settled by the words, the edges and the times of acceptance, once the frame is complete
      or its third word has been read. */
  lemma Settled(words: seq<RxWord>, t: Trace, j: nat, f: Frame, c: H.Check, d: H.Check, p: H.Port)
    requires Paced(words, t) && t.Formed() && t.Count() <= |words|
    requires j < |Frames(words[..t.Count()])| && f == Frames(words[..t.Count()])[j]
    requires Judged(words, t, j, f, c) && Judged(words, t, j, f, d) && (Complete(f) || |f| >= 3)
    ensures c.on == d.on && c.entry == d.entry && H.Emit(f, c, p) == H.Emit(f, d, p)
  {
    hide Frames, Begun, EntryOk, Cycles, Before, Waited, H.TwoRead, Paced;
    OnOnce(words, t, j, c, d);
    if |f| < 3 {
      ShortUnjudged(words, t, j, f, c);
      ShortUnjudged(words, t, j, f, d);
    } else if c.on {
      ReadOnce(words, t, j, c.read, d.read);
      EntryUnique(c.entry.value, d.entry.value, Before(Cycles(t.edges[..c.read.edge])), f[1].data.b2 as nat);
    }
  }

  lemma {:induction false} SameOuts(fs: seq<Frame>, cs: seq<H.Check>, ds: seq<H.Check>, p: H.Port)
    requires |cs| == |ds| == |fs| && forall j :: 0 <= j < |fs| ==> H.Emit(fs[j], cs[j], p) == H.Emit(fs[j], ds[j], p)
    ensures H.Outs(fs, cs, p) == H.Outs(fs, ds, p)
  {
    hide H.Emit;
    if fs == [] {
    } else {
      var m := |fs| - 1;
      assert H.Emit(fs[m], cs[m], p) == H.Emit(fs[m], ds[m], p);
      SameOuts(fs[..m], cs[..m], ds[..m], p);
    }
  }

  /** All frames but an open last one are complete. */
  ghost predicate Whole(fs: seq<Frame>) {
    forall j :: 0 <= j < |fs| ==> fs[j] != [] && (j < |fs| - 1 || !IsOpen(fs) ==> Complete(fs[j]))
  }

  lemma {:induction false} AllWhole(ws: seq<RxWord>)
    ensures Whole(Frames(ws))
  {
    if ws == [] {
    } else {
      AllWhole(ws[..|ws| - 1]);
      WholePush(Frames(ws[..|ws| - 1]), ws[|ws| - 1]);
    }
  }

  lemma WholePush(fs: seq<Frame>, w: RxWord)
    requires Whole(fs)
    ensures Whole(Push(fs, w))
  {
    if IsOpen(fs) {
      assert Push(fs, w)[|fs| - 1] == fs[|fs| - 1] + [w];
    }
  }

  /** The output of a run is settled by the words, the edges and the times of acceptance, except while no more than the
      header of a frame has been read. */
  lemma Determined(words: seq<RxWord>, t: Trace, out: seq<H.OutWord>, cs: seq<H.Check>, out': seq<H.OutWord>,
                   cs': seq<H.Check>, p: H.Port)
    requires Stamped(words, t, out, cs, p) && Stamped(words, t, out', cs', p)
    requires var fs := Frames(words[..t.Count()]); IsOpen(fs) ==> |fs[|fs| - 1]| >= 3
    ensures out == out'
  {
    hide Judged, Frames, H.Emit, Complete, Paced;
    Bounded(words, t);
    var fs := Frames(words[..t.Count()]);
    AllWhole(words[..t.Count()]);
    forall j | 0 <= j < |fs|
      ensures H.Emit(fs[j], cs[j], p) == H.Emit(fs[j], cs'[j], p)
    {
      assert Judged(words, t, j, fs[j], cs[j]) && Judged(words, t, j, fs[j], cs'[j]);
      Settled(words, t, j, fs[j], cs[j], cs'[j], p);
    }
    SameOuts(fs, cs, cs', p);
  }

  // ---------------------------------------------------------------------------------------
  // The check line held up, or down
  // ---------------------------------------------------------------------------------------

  /** The check line is the same at all edges of the receive clock. */
  predicate Held(es: seq<Edge>, check: bool) {
    forall k :: 0 <= k < |es| && es[k].RxEdge? ==> es[k].check == check
  }

  /** The share of a frame when everything is checked: stamped with an entry that agrees with the triggers, or nothing,
      as that entry is accepted or not; and nothing of a frame of fewer than three words. */
  ghost predicate Gated(words: seq<RxWord>, t: Trace, j: nat, f: Frame, c: H.Check, p: H.Port)
    requires t.Formed()
  {
    if |f| < 3 then H.Emit(f, c, p) == []
    else
      && c.entry.Some? && ReadAt(words, t, j, c.read)
      && EntryOk(c.entry.value, Before(Cycles(t.edges[..c.read.edge])), f[1].data.b2 as nat)
      && H.Emit(f, c, p) == if c.entry.value.accept then H.Rewritten(f, c.entry.value, p) else []
  }

  /** With the check line up, no complete frame leaves without having been judged. */
  lemma AllGated(words: seq<RxWord>, t: Trace, out: seq<H.OutWord>, cs: seq<H.Check>, p: H.Port)
    requires Stamped(words, t, out, cs, p) && Held(t.edges, true)
    ensures var fs := Frames(words[..t.Count()]);
            |cs| == |fs| && forall j :: 0 <= j < |fs| && Complete(fs[j]) ==> Gated(words, t, j, fs[j], cs[j], p)
  {
    hide IsOpen, Frames, H.Outs, Complete, Paced, Starts, LineDown, ReadAt, EntryOk, Cycles, Before, Sees,
      H.Rewritten, H.Passed;
    Bounded(words, t);
    var fs := Frames(words[..t.Count()]);
    forall j | 0 <= j < |fs| && Complete(fs[j])
      ensures Gated(words, t, j, fs[j], cs[j], p)
    {
      assert Judged(words, t, j, fs[j], cs[j]);
      assert cs[j].on;
      if |fs[j]| < 3 {
        ShortUnjudged(words, t, j, fs[j], cs[j]);
      }
    }
  }

  /** The words of all frames, as they came. */
  ghost function Through(fs: seq<Frame>): seq<H.OutWord> {
    if fs == [] then [] else Through(fs[..|fs| - 1]) + H.Passed(fs[|fs| - 1])
  }

  lemma {:induction false} OutsThrough(fs: seq<Frame>, cs: seq<H.Check>, p: H.Port)
    requires |cs| == |fs| && forall j :: 0 <= j < |fs| ==> !cs[j].on
    ensures H.Outs(fs, cs, p) == Through(fs)
  {
    if fs == [] {
    } else {
      OutsThrough(fs[..|fs| - 1], cs[..|fs| - 1], p);
    }
  }

  /** With the check line down, the output is the words of the frames, as they came. */
  lemma AllThrough(words: seq<RxWord>, t: Trace, out: seq<H.OutWord>, cs: seq<H.Check>, p: H.Port)
    requires Stamped(words, t, out, cs, p) && Held(t.edges, false)
    ensures out == Through(Frames(words[..t.Count()]))
  {
    hide Frames, Paced, Starts, LineDown, ReadAt, EntryOk, Cycles, Before, Sees;
    Bounded(words, t);
    var fs := Frames(words[..t.Count()]);
    forall j | 0 <= j < |fs|
      ensures !cs[j].on
    {
      assert Judged(words, t, j, fs[j], cs[j]);
    }
    if IsOpen(fs) {
      OutsThrough(fs[..|fs| - 1], cs[..|fs| - 1], p);
    } else {
      OutsThrough(fs, cs, p);
    }
  }
}
