/** The edges of a run of trigger table and receive buffer, and the times at which words are accepted, frames are turned
    to and the table is read. */
module TriggerTrace {
  import opened AxiStream
  import opened RxFrames
  import opened TriggerTable
  import H = HeaderCheck

  /** An edge of the transmit clock (triggers) or of the receive clock (frames). */
  datatype Edge =
    | TxEdge(cycle: Cycle)
    | RxEdge(offer: bool, check: bool, txReady: bool, countRst: bool)

  function Cycles(es: seq<Edge>): seq<Cycle> {
    if es == [] then []
    else Cycles(es[..|es| - 1]) + if es[|es| - 1].TxEdge? then [es[|es| - 1].cycle] else []
  }

  /** Frames arrive one after the other: a frame starts only when the one before has ended. */
  ghost predicate Separate(ws: seq<RxWord>) {
    forall k :: 0 <= k < |ws| && ws[k].sof ==> !IsOpen(Frames(ws[..k]))
  }

  lemma {:induction false} ClashFree(es: seq<Edge>, n: nat)
    requires NoClash(Cycles(es)) && n <= |es|
    ensures NoClash(Cycles(es[..n]))
    ensures n < |es| && es[n].TxEdge? ==> !Clash(Cycles(es[..n]), es[n].cycle)
    decreases |es|
  {
    hide Clash;
    if n == |es| {
      assert es[..n] == es;
    } else {
      var m := |es| - 1;
      if es[m].TxEdge? {
        assert Cycles(es)[..|Cycles(es[..m])|] == Cycles(es[..m]);
      } else {
        assert Cycles(es) == Cycles(es[..m]);
      }
      ClashFree(es[..m], n);
      assert es[..m][..n] == es[..n];
    }
  }

  lemma CyclesPush(es: seq<Edge>, e: Edge)
    ensures Cycles(es + [e]) == Cycles(es) + if e.TxEdge? then [e.cycle] else []
  {
    assert (es + [e])[..|es|] == es;
  }

  lemma Apart(ws: seq<RxWord>, n: nat)
    requires Separate(ws)
    ensures n < |ws| && ws[n].sof ==> !IsOpen(Frames(ws[..n]))
  {
  }

  // ---------------------------------------------------------------------------------------
  // When words are accepted
  // ---------------------------------------------------------------------------------------

  /** The edges of a run, and the number of words accepted before each of them and after the last. */
  datatype Trace = Trace(edges: seq<Edge>, accepted: seq<nat>) {
    predicate Formed() {
      |accepted| == |edges| + 1
    }

    function Count(): nat
      requires Formed()
    {
      accepted[|edges|]
    }

    function Then(e: Edge, n: nat): Trace {
      Trace(edges + [e], accepted + [n])
    }
  }

  /** Edge i offers word n. */
  predicate Offers(t: Trace, i: nat, n: nat)
    requires t.Formed()
  {
    i < |t.edges| && t.edges[i].RxEdge? && t.edges[i].offer && t.accepted[i] == n
  }

  /** At edge k the buffer sees the next word: it is offered, or has been and is not yet accepted. */
  ghost predicate Sees(words: seq<RxWord>, t: Trace, k: nat)
    requires t.Formed()
  {
    && k < |t.edges| && t.edges[k].RxEdge? && t.accepted[k] < |words|
    && exists i: nat :: i <= k && Offers(t, i, t.accepted[k])
  }

  /** An edge accepts one word or none, and only a word the buffer sees. */
  ghost predicate Accepts(words: seq<RxWord>, t: Trace, k: nat)
    requires t.Formed() && k < |t.edges|
  {
    t.accepted[k + 1] == t.accepted[k] || (t.accepted[k + 1] == t.accepted[k] + 1 && Sees(words, t, k))
  }

  ghost predicate Paced(words: seq<RxWord>, t: Trace) {
    && t.Formed() && t.accepted[0] == 0 && t.Count() <= |words|
    && forall k :: 0 <= k < |t.edges| ==> Accepts(words, t, k)
  }

  /** A word is waiting: it has been offered and is not yet accepted. */
  ghost predicate Pending(words: seq<RxWord>, t: Trace)
    requires t.Formed()
  {
    t.Count() < |words| && exists i: nat :: Offers(t, i, t.Count())
  }

  ghost predicate Rising(t: Trace) {
    t.Formed() && forall k :: 0 <= k < |t.accepted| ==> t.accepted[k] <= t.Count()
  }

  /** Edges of the receive clock at which exactly n words had been accepted. */
  function Waited(es: seq<Edge>, accepted: seq<nat>, n: nat): nat
    requires |es| == |accepted|
  {
    if es == [] then 0
    else
      var m := |es| - 1;
      Waited(es[..m], accepted[..m], n) + if es[m].RxEdge? && accepted[m] == n then 1 else 0
  }

  lemma {:induction false} NoneWaited(es: seq<Edge>, accepted: seq<nat>, n: nat)
    requires |es| == |accepted| && forall k :: 0 <= k < |es| ==> accepted[k] != n
    ensures Waited(es, accepted, n) == 0
  {
    if es == [] {
    } else {
      var m := |es| - 1;
      assert accepted[m] != n;
      NoneWaited(es[..m], accepted[..m], n);
    }
  }

  lemma {:induction false} WaitedGrows(es: seq<Edge>, accepted: seq<nat>, n: nat, a: nat)
    requires |es| == |accepted| && a <= |es|
    ensures Waited(es[..a], accepted[..a], n) <= Waited(es, accepted, n)
  {
    if a == |es| {
      assert es[..a] == es && accepted[..a] == accepted;
    } else {
      var m := |es| - 1;
      WaitedGrows(es[..m], accepted[..m], n, a);
      assert es[..m][..a] == es[..a] && accepted[..m][..a] == accepted[..a];
    }
  }

  lemma SeesKept(words: seq<RxWord>, t: Trace, e: Edge, n: nat, k: nat)
    requires t.Formed() && k < |t.edges|
    ensures Sees(words, t.Then(e, n), k) == Sees(words, t, k)
  {
    var u := t.Then(e, n);
    assert u.edges[k] == t.edges[k] && u.accepted[k] == t.accepted[k];
    forall i: nat | i <= k
      ensures Offers(u, i, t.accepted[k]) == Offers(t, i, t.accepted[k])
    {
      assert u.edges[i] == t.edges[i] && u.accepted[i] == t.accepted[i];
    }
  }

  /** Whether the next word is seen at one more edge of the receive clock. */
  lemma SeesNow(words: seq<RxWord>, t: Trace, e: Edge, n: nat)
    requires t.Formed() && e.RxEdge? && t.Count() < |words|
    ensures Sees(words, t.Then(e, n), |t.edges|) <==> e.offer || Pending(words, t)
  {
    var u, k, c := t.Then(e, n), |t.edges|, t.Count();
    assert u.edges[k] == e && u.accepted[k] == c;
    forall i: nat | i < k
      ensures Offers(u, i, c) == Offers(t, i, c)
    {
      assert u.edges[i] == t.edges[i] && u.accepted[i] == t.accepted[i];
    }
    assert e.offer ==> Offers(u, k, c);
    if Pending(words, t) {
      var i: nat :| Offers(t, i, c);
      assert Offers(u, i, c);
    }
  }

  /** A word is waiting after an edge at which it is seen and not accepted. */
  lemma PendingNext(words: seq<RxWord>, t: Trace, e: Edge, n: nat)
    requires Rising(t) && (n == t.Count() || (n == t.Count() + 1 && e.RxEdge?))
    ensures Pending(words, t.Then(e, n)) <==>
              n == t.Count() && if e.RxEdge? then Sees(words, t.Then(e, n), |t.edges|) else Pending(words, t)
  {
    var u, k := t.Then(e, n), |t.edges|;
    assert u.edges[k] == e && u.accepted[k] == t.Count() && u.Count() == n;
    forall i: nat | i < k
      ensures Offers(u, i, n) == Offers(t, i, n)
    {
      assert u.edges[i] == t.edges[i] && u.accepted[i] == t.accepted[i];
    }
    if Pending(words, t) && n == t.Count() {
      var i: nat :| Offers(t, i, n);
      assert Offers(u, i, n);
    }
    if Pending(words, u) {
      var i: nat :| Offers(u, i, n);
      assert t.accepted[i] == n;
      assert n == t.Count();
    }
  }

  lemma PacedNext(words: seq<RxWord>, t: Trace, e: Edge, n: nat)
    requires Paced(words, t) && Rising(t) && n <= |words|
    requires n == t.Count() || (n == t.Count() + 1 && Sees(words, t.Then(e, n), |t.edges|))
    ensures Paced(words, t.Then(e, n)) && Rising(t.Then(e, n))
  {
    hide Sees;
    var u, m := t.Then(e, n), |t.edges|;
    assert u.accepted[m] == t.Count() && u.accepted[m + 1] == n;
    forall k | 0 <= k < |u.edges|
      ensures Accepts(words, u, k)
    {
      if k < m {
        SeesKept(words, t, e, n, k);
        assert Accepts(words, t, k) && u.accepted[k] == t.accepted[k] && u.accepted[k + 1] == t.accepted[k + 1];
      }
    }
  }

  // ---------------------------------------------------------------------------------------
  // When frames are turned to and looked up
  // ---------------------------------------------------------------------------------------

  /** The check line is down whenever word p is seen before it is accepted. */
  ghost predicate LineDown(words: seq<RxWord>, t: Trace, p: nat)
    requires t.Formed()
  {
    forall k :: 0 <= k < |t.edges| && t.edges[k].RxEdge? && t.accepted[k] == p && Sees(words, t, k) ==>
      !t.edges[k].check
  }

  /** Frame j starts with word p. */
  ghost predicate Starts(words: seq<RxWord>, p: nat, j: nat) {
    p < |words| && words[p].sof && !IsOpen(Frames(words[..p])) && |Frames(words[..p])| == j
  }

  /** At edge k the first word p of a frame is seen, and the check line says whether the frame is checked. */
  ghost predicate TurnedTo(words: seq<RxWord>, t: Trace, k: nat, p: nat, on: bool)
    requires t.Formed()
  {
    k < |t.edges| && t.edges[k].RxEdge? && t.accepted[k] == p && t.edges[k].check == on && Sees(words, t, k)
  }

  /** Frame j is checked exactly if the check line is up at an edge at which its first word is seen. */
  ghost predicate Begun(words: seq<RxWord>, t: Trace, j: nat, c: H.Check)
    requires t.Formed()
  {
    && Starts(words, c.start.words, j) && TurnedTo(words, t, c.start.edge, c.start.words, c.on)
    && (!c.on ==> LineDown(words, t, c.start.words))
  }

  /** The sixth edge of the receive clock at which exactly the two header words of frame j have been read. */
  ghost predicate ReadAt(words: seq<RxWord>, t: Trace, j: nat, m: H.Moment)
    requires t.Formed()
  {
    && m.edge < |t.edges| && t.edges[m.edge].RxEdge? && t.accepted[m.edge] == m.words
    && m.words <= |words| && H.TwoRead(Frames(words[..m.words]), j)
    && Waited(t.edges[..m.edge], t.accepted[..m.edge], m.words) == 5
  }

  /** What a frame's check says about the run. */
  ghost predicate Traced(words: seq<RxWord>, t: Trace, j: nat, c: H.Check)
    requires t.Formed()
  {
    && Begun(words, t, j, c) && c.start.words < t.Count()
    && (c.table != [] ==>
          ReadAt(words, t, j, c.read) && TableOk(c.table, Before(Cycles(t.edges[..c.read.edge]))))
  }

  ghost predicate AllTraced(words: seq<RxWord>, t: Trace, cs: seq<H.Check>) {
    t.Formed() && forall j :: 0 <= j < |cs| ==> Traced(words, t, j, cs[j])
  }

  lemma LineDownNext(words: seq<RxWord>, t: Trace, e: Edge, n: nat, p: nat)
    requires t.Formed() && LineDown(words, t, p)
    requires t.Count() != p || e.TxEdge? || !e.check || !Sees(words, t.Then(e, n), |t.edges|)
    ensures LineDown(words, t.Then(e, n), p)
  {
    hide Sees;
    var u := t.Then(e, n);
    forall k | 0 <= k < |u.edges| && u.edges[k].RxEdge? && u.accepted[k] == p && Sees(words, u, k)
      ensures !u.edges[k].check
    {
      if k < |t.edges| {
        SeesKept(words, t, e, n, k);
        assert u.edges[k] == t.edges[k] && u.accepted[k] == t.accepted[k];
      } else {
        assert u.edges[k] == e && u.accepted[k] == t.Count();
      }
    }
  }

  lemma TurnedKept(words: seq<RxWord>, t: Trace, e: Edge, n: nat, k: nat, p: nat, on: bool)
    requires t.Formed() && TurnedTo(words, t, k, p, on)
    ensures TurnedTo(words, t.Then(e, n), k, p, on)
  {
    hide Sees;
    SeesKept(words, t, e, n, k);
  }

  lemma ReadKept(words: seq<RxWord>, t: Trace, e: Edge, n: nat, j: nat, m: H.Moment)
    requires t.Formed() && ReadAt(words, t, j, m)
    ensures ReadAt(words, t.Then(e, n), j, m)
    ensures t.Then(e, n).edges[..m.edge] == t.edges[..m.edge]
  {
    hide H.TwoRead, Frames, Waited;
    var u := t.Then(e, n);
    assert u.edges[..m.edge] == t.edges[..m.edge] && u.accepted[..m.edge] == t.accepted[..m.edge];
  }

  /** What a check says stays true as the run goes on. */
  lemma TracedKept(words: seq<RxWord>, t: Trace, e: Edge, n: nat, j: nat, c: H.Check)
    requires t.Formed() && Traced(words, t, j, c) && n >= t.Count()
    ensures Traced(words, t.Then(e, n), j, c)
  {
    hide Starts, TurnedTo, LineDown, ReadAt, TableOk, Cycles, Before;
    TurnedKept(words, t, e, n, c.start.edge, c.start.words, c.on);
    if !c.on {
      LineDownNext(words, t, e, n, c.start.words);
    }
    if c.table != [] {
      ReadKept(words, t, e, n, j, c.read);
    }
  }

  lemma AllKept(words: seq<RxWord>, t: Trace, e: Edge, n: nat, cs: seq<H.Check>)
    requires AllTraced(words, t, cs) && n >= t.Count()
    ensures AllTraced(words, t.Then(e, n), cs)
  {
    hide Traced;
    forall j | 0 <= j < |cs|
      ensures Traced(words, t.Then(e, n), j, cs[j])
    {
      TracedKept(words, t, e, n, j, cs[j]);
    }
  }

  /** The state of the buffer against the run: while it waits for a frame's first word it has turned to that frame,
      while it waits for the table it counts, and while it is idle the check line has been down. */
  ghost predicate Stage(words: seq<RxWord>, t: Trace, r: H.RegType, begun: nat)
    requires t.Formed()
  {
    && (r.state.RdHdr0S? ==> TurnedTo(words, t, begun, t.Count(), true))
    && (r.state.LutWaitS? ==> Waited(t.edges, t.accepted[..|t.edges|], t.Count()) == r.lutWaitCnt)
    && (r.state.IdleS? && t.Count() < |words| && words[t.Count()].sof ==> LineDown(words, t, t.Count()))
  }

  lemma WaitedNext(t: Trace, e: Edge, n: nat)
    requires Rising(t) && e.RxEdge?
    ensures n == t.Count() ==>
              Waited(t.Then(e, n).edges, t.Then(e, n).accepted[..|t.edges| + 1], n)
              == Waited(t.edges, t.accepted[..|t.edges|], n) + 1
    ensures n == t.Count() + 1 ==> Waited(t.Then(e, n).edges, t.Then(e, n).accepted[..|t.edges| + 1], n) == 0
  {
    var u, m := t.Then(e, n), |t.edges|;
    var acc := u.accepted[..m + 1];
    assert acc == t.accepted && acc[..m] == t.accepted[..m] && u.edges[..m] == t.edges && acc[m] == t.Count();
    if n == t.Count() + 1 {
      NoneWaited(u.edges, acc, n);
    }
  }

  /** The inputs of an edge of the receive clock. */
  ghost predicate Feeds(words: seq<RxWord>, t: Trace, e: Edge, i: H.Inputs)
    requires t.Formed()
  {
    && e.RxEdge? && i.check == e.check && t.Count() <= |words|
    && i.word == (if t.Count() < |words| && (e.offer || Pending(words, t)) then Some(words[t.Count()]) else None)
  }

  lemma StageNext(words: seq<RxWord>, t: Trace, e: Edge, i: H.Inputs, ready: bool, r: H.RegType, r': H.RegType,
                  begun: nat, begun': nat)
    requires Rising(t) && Stage(words, t, r, begun) && Feeds(words, t, e, i) && (ready ==> i.word.Some?)
    requires H.Course(r, r', i, ready) && (r'.state.RdHdr0S? ==> begun' == |t.edges|)
    requires Separate(words) && (r.state != H.IdleS && !r.state.RdHdr0S? ==> IsOpen(Frames(words[..t.Count()])))
    ensures Stage(words, t.Then(e, if ready then t.Count() + 1 else t.Count()), r', begun')
  {
    hide Sees, Pending, Waited, Frames, IsOpen;
    var c, m := t.Count(), |t.edges|;
    var n := if ready then c + 1 else c;
    var u := t.Then(e, n);
    assert u.edges[m] == e && u.accepted[m] == c && u.Count() == n;
    WaitedNext(t, e, n);
    if c < |words| {
      SeesNow(words, t, e, n);
    }
    if r'.state.IdleS? && n < |words| && words[n].sof {
      if ready {
        NotYet(words, u, n);
      } else {
        assert !IsOpen(Frames(words[..n]));
        LineDownNext(words, t, e, n, n);
      }
    }
  }

  lemma NotYet(words: seq<RxWord>, t: Trace, p: nat)
    requires t.Formed() && forall k :: 0 <= k < |t.edges| ==> t.accepted[k] < p
    ensures LineDown(words, t, p)
  {
    hide Sees;
  }

  lemma NewTraced(words: seq<RxWord>, t: Trace, e: Edge, i: H.Inputs, r: H.RegType, begun: nat, j: nat, c: H.Check)
    requires t.Formed() && Stage(words, t, r, begun) && Feeds(words, t, e, i) && i.word.Some? && i.word.value.sof
    requires |Frames(words[..t.Count()])| == j && !IsOpen(Frames(words[..t.Count()]))
    requires (r.state.IdleS? && !i.check && c == H.NewCheck(false, H.Moment(|t.edges|, t.Count())))
          || (r.state.RdHdr0S? && c == H.NewCheck(true, H.Moment(begun, t.Count())))
    ensures Traced(words, t.Then(e, t.Count() + 1), j, c)
  {
    hide Sees, Pending, Waited, Frames, IsOpen, LineDown, ReadAt, Cycles;
    var n, m := t.Count(), |t.edges|;
    var u := t.Then(e, n + 1);
    assert u.edges[m] == e && u.accepted[m] == n && u.Count() == n + 1;
    if c.on {
      TurnedKept(words, t, e, n + 1, begun, n, true);
    } else {
      SeesNow(words, t, e, n + 1);
      LineDownNext(words, t, e, n + 1, n);
    }
  }

  lemma Renewed(words: seq<RxWord>, t: Trace, e: Edge, n: nat, i: H.Inputs, r: H.RegType, begun: nat, j: nat,
                c: H.Check, c': H.Check)
    requires t.Formed() && Stage(words, t, r, begun) && Feeds(words, t, e, i) && Traced(words, t.Then(e, n), j, c)
    requires TableOk(i.table, Before(Cycles(t.edges)))
    requires c' == c.(entry := c'.entry)
          || (r.state.LutWaitS? && r.lutWaitCnt == 5 && H.TwoRead(Frames(words[..t.Count()]), j)
              && c' == c.(table := i.table, read := H.Moment(|t.edges|, t.Count())))
    ensures Traced(words, t.Then(e, n), j, c')
  {
    hide Sees, Pending, Waited, Frames, IsOpen, LineDown, TableOk, Before, Cycles, Starts, TurnedTo, H.TwoRead;
    var m := |t.edges|;
    var u := t.Then(e, n);
    assert u.edges[m] == e && u.accepted[m] == t.Count();
    assert u.edges[..m] == t.edges && u.accepted[..m] == t.accepted[..m];
  }

  lemma TracedNext(words: seq<RxWord>, t: Trace, e: Edge, i: H.Inputs, ready: bool, r: H.RegType, begun: nat,
                   cs: seq<H.Check>, cs': seq<H.Check>)
    requires Rising(t) && Stage(words, t, r, begun) && Feeds(words, t, e, i) && AllTraced(words, t, cs)
    requires TableOk(i.table, Before(Cycles(t.edges)))
    requires H.ChecksMore(cs, cs', r, Frames(words[..t.Count()]), i, H.Moment(|t.edges|, t.Count()), begun)
    requires |cs'| > |cs| ==> ready
    ensures AllTraced(words, t.Then(e, if ready then t.Count() + 1 else t.Count()), cs')
  {
    hide Sees, Pending, Waited, Frames, IsOpen, TableOk, Before, Cycles, Traced, H.TwoRead;
    var c, m := t.Count(), |t.edges|;
    var n := if ready then c + 1 else c;
    var u := t.Then(e, n);
    AllKept(words, t, e, n, cs);
    if |cs'| > |cs| {
      NewTraced(words, t, e, i, r, begun, |cs|, cs'[|cs|]);
    } else if cs' != cs {
      var j := |cs| - 1;
      assert Traced(words, u, j, cs[j]);
      Renewed(words, t, e, n, i, r, begun, j, cs[j], cs'[j]);
    }
  }
}
