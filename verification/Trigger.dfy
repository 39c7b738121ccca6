/** The trigger table and a receive buffer together: frames are stamped with the run they belong to. */
module Trigger {
  import opened AxiStream
  import opened RxFrames
  import opened TriggerTable
  import opened TriggerTrace
  import H = HeaderCheck

  /** What a run has done: its edges with the words accepted, the words passed on, and whether a word is waiting. */
  datatype Log = Log(trace: Trace, out: seq<H.OutWord>, busy: bool)

  /** What holds between the run so far and the buffer's registers and checks. */
  ghost predicate Kept(words: seq<RxWord>, t: Trace, r: H.RegType, begun: nat, cs: seq<H.Check>) {
    Paced(words, t) && Rising(t) && AllTraced(words, t, cs) && Stage(words, t, r, begun)
  }

  /** The buffer: registers, the edge it last turned to a frame at, histories, and the word presented. */
  datatype Buffer = Buffer(r: H.RegType, begun: nat, h: H.History, held: Option<RxWord>, sent: seq<H.OutWord>)

  ghost predicate Tracks(words: seq<RxWord>, g: Log, b: Buffer) {
    && g.trace.Formed() && g.trace.Count() <= |words|
    && Kept(words, g.trace, b.r, b.begun, b.h.checks)
    && b.h.ins == words[..g.trace.Count()] && b.sent == g.out && g.busy == Pending(words, g.trace)
    && b.held == (if g.busy then Some(words[g.trace.Count()]) else None)
  }

  ghost predicate Running(b: H.PgpVcRxBuffer, words: seq<RxWord>, g: Log)
    reads b
  {
    b.Valid() && Tracks(words, g, Buffer(b.r, b.begun, b.h, b.held, b.sent))
  }

  ghost predicate Going(t: PgpOpCode, b: H.PgpVcRxBuffer, words: seq<RxWord>, g: Log)
    reads t, b
  {
    Running(b, words, g) && t.Valid() && t.cycles == Cycles(g.trace.edges)
  }

  /** An edge that offers the next word to a ready buffer. */
  predicate Up(e: Edge) {
    e.RxEdge? && e.offer && e.txReady
  }

  function Ups(es: seq<Edge>): nat {
    if es == [] then 0 else Ups(es[..|es| - 1]) + if Up(es[|es| - 1]) then 1 else 0
  }

  /** Edges left until all words are accepted, if nothing holds the buffer up. */
  function Left(r: H.RegType, k: nat): nat {
    12 * k + H.Weight(r)
  }

  lemma WaitedTx(t: Trace, e: Edge)
    requires t.Formed() && e.TxEdge?
    ensures Waited(t.edges + [e], t.accepted, t.Count()) == Waited(t.edges, t.accepted[..|t.edges|], t.Count())
  {
    assert (t.edges + [e])[..|t.edges|] == t.edges;
  }

  /** An edge of the transmit clock leaves the buffer alone. */
  lemma TxNext(words: seq<RxWord>, t: Trace, e: Edge, r: H.RegType, begun: nat, cs: seq<H.Check>)
    requires Kept(words, t, r, begun, cs) && e.TxEdge?
    ensures t.Formed()
    ensures var u := t.Then(e, t.Count()); Kept(words, u, r, begun, cs) && Pending(words, u) == Pending(words, t)
  {
    hide Sees, Pending, Waited, LineDown, Paced, AllTraced;
    Bounded(words, t);
    var n := t.Count();
    var u := t.Then(e, n);
    assert u.edges[..|t.edges|] == t.edges && u.accepted[..|t.edges| + 1] == t.accepted;
    PacedNext(words, t, e, n);
    AllKept(words, t, e, n, cs);
    PendingNext(words, t, e, n);
    if r.state.RdHdr0S? {
      TurnedKept(words, t, e, n, begun, n, true);
    }
    WaitedTx(t, e);
    if r.state.IdleS? && n < |words| && words[n].sof {
      LineDownNext(words, t, e, n, n);
    }
  }

  lemma PaceNext(words: seq<RxWord>, t: Trace, e: Edge, i: H.Inputs, ready: bool)
    requires Paced(words, t) && Rising(t) && Feeds(words, t, e, i) && (ready ==> i.word.Some?)
    ensures var n := if ready then t.Count() + 1 else t.Count();
            var u := t.Then(e, n);
            && Paced(words, u) && Rising(u) && u.Count() == n && Pending(words, u) == (i.word.Some? && !ready)
  {
    hide Sees, Pending;
    var c := t.Count();
    var n := if ready then c + 1 else c;
    if c < |words| {
      SeesNow(words, t, e, n);
    } else {
      SeesOnly(words, t.Then(e, n), |t.edges|);
    }
    PacedNext(words, t, e, n);
    PendingNext(words, t, e, n);
  }

  lemma SeesOnly(words: seq<RxWord>, t: Trace, k: nat)
    requires t.Formed() && k < |t.edges| && t.accepted[k] >= |words|
    ensures !Sees(words, t, k)
  {
  }

  lemma Bounded(words: seq<RxWord>, t: Trace)
    requires Paced(words, t)
    ensures t.Formed() && t.Count() <= |words|
  {
  }

  /** The inputs an edge of the receive clock gives the buffer, and what is known after it. */
  function InputsAt(words: seq<RxWord>, g: Log, e: Edge, table: seq<Entry>): (i: H.Inputs)
    requires e.RxEdge? && g.trace.Formed()
    ensures i.table == table && i.txReady == e.txReady
  {
    var n := g.trace.Count();
    H.Inputs(if n < |words| && (e.offer || g.busy) then Some(words[n]) else None, e.check, table, e.txReady, e.countRst)
  }

  function LogAfter(g: Log, e: Edge, i: H.Inputs, r: H.RegType, ready: bool): Log
    requires g.trace.Formed()
  {
    var n := g.trace.Count();
    Log(g.trace.Then(e, if ready then n + 1 else n),
        g.out + if i.txReady && r.tx.Some? then [r.tx.value] else [], i.word.Some? && !ready)
  }

  /** An edge of the receive clock. */
  lemma RxNext(words: seq<RxWord>, g: Log, e: Edge, i: H.Inputs, ready: bool, a: Buffer, b: Buffer)
    requires Separate(words) && Tracks(words, g, a) && e.RxEdge? && TableOk(i.table, Before(Cycles(g.trace.edges)))
    requires i == InputsAt(words, g, e, i.table) && (ready ==> i.word.Some?)
    requires a.r.state != H.IdleS && !a.r.state.RdHdr0S? ==> IsOpen(Frames(a.h.ins))
    requires H.ChecksMore(a.h.checks, b.h.checks, a.r, Frames(a.h.ins), i, H.Moment(|g.trace.edges|, g.trace.Count()),
                          a.begun)
    requires (|b.h.checks| > |a.h.checks| ==> ready) && H.Course(a.r, b.r, i, ready)
    requires b.r.state.RdHdr0S? ==> b.begun == |g.trace.edges|
    requires b.h.ins == a.h.ins + (if ready then [i.word.value] else []) && b.held == if ready then None else i.word
    requires b.sent == a.sent + if i.txReady && a.r.tx.Some? then [a.r.tx.value] else []
    ensures Tracks(words, LogAfter(g, e, i, a.r, ready), b)
  {
    hide Paced, Rising, Stage, AllTraced, H.ChecksMore, H.Course, TableOk, Frames, IsOpen, Cycles, Pending, Before,
      Separate;
    var t := g.trace;
    PaceNext(words, t, e, i, ready);
    TracedNext(words, t, e, i, ready, a.r, a.begun, a.h.checks, b.h.checks);
    StageNext(words, t, e, i, ready, a.r, b.r, a.begun, b.begun);
    assert ready ==> words[..t.Count() + 1] == words[..t.Count()] + [words[t.Count()]];
  }

  lemma Seen(words: seq<RxWord>, g: Log, b: Buffer, e: Edge, table: seq<Entry>)
    requires Tracks(words, g, b) && Separate(words) && e.RxEdge?
    ensures g.trace.Formed()
    ensures var w := InputsAt(words, g, e, table).word;
            (b.held.Some? ==> w == b.held) && (w.Some? && w.value.sof ==> !IsOpen(Frames(b.h.ins)))
    ensures g.trace.Count() <= |words|
    ensures InputsAt(words, g, e, table).word.Some? ==> g.trace.Count() < |words|
    ensures Up(e) && g.trace.Count() < |words| ==> InputsAt(words, g, e, table).word.Some?
  {
    hide Frames, IsOpen, Kept, Pending;
    Waiting(words, g.trace);
    Apart(words, g.trace.Count());
  }

  lemma Waiting(words: seq<RxWord>, t: Trace)
    requires t.Formed()
    ensures Pending(words, t) ==> t.Count() < |words|
  {
  }

  /** While words remain, an edge takes a buffer no further from the end, and nearer if it offers a word to a ready
      buffer. */
  predicate Nearer(total: nat, r: H.RegType, n: nat, r': H.RegType, n': nat, e: Edge)
    requires n' <= total
  {
    n < total ==> Left(r', total - n') + (if Up(e) then 1 else 0) <= Left(r, total - n)
  }

  method ReceiveEdge(b: H.PgpVcRxBuffer, words: seq<RxWord>, g: Log, e: Edge, table: seq<Entry>) returns (g': Log)
    requires Running(b, words, g) && Separate(words) && e.RxEdge? && TableOk(table, Before(Cycles(g.trace.edges)))
    modifies b
    ensures Running(b, words, g') && g'.trace.edges == g.trace.edges + [e] && g.trace.Count() <= g'.trace.Count()
    ensures Nearer(|words|, old(b.r), g.trace.Count(), b.r, g'.trace.Count(), e)
  {
    hide Separate, Frames, IsOpen, EntryOk, H.Inv, H.ChecksMore, H.Course, H.Weight, Cycles, Before, Tracks, InputsAt;
    ghost var before := Buffer(b.r, b.begun, b.h, b.held, b.sent);
    Seen(words, g, before, e, table);
    H.Addressed(b.r, b.h, b.held, b.port);
    var i, r := InputsAt(words, g, e, table), b.r;
    var ready := b.Step(i, H.Moment(|g.trace.edges|, g.trace.Count()));
    g' := LogAfter(g, e, i, r, ready);
    RxNext(words, g, e, i, ready, before, Buffer(b.r, b.begun, b.h, b.held, b.sent));
  }

  method OneEdge(t: PgpOpCode, b: H.PgpVcRxBuffer, words: seq<RxWord>, g: Log, e: Edge) returns (g': Log)
    requires Going(t, b, words, g) && Separate(words)
    requires e.TxEdge? ==> !Clash(Cycles(g.trace.edges), e.cycle)
    modifies t, b
    ensures Going(t, b, words, g') && g'.trace.edges == g.trace.edges + [e] && g.trace.Count() <= g'.trace.Count()
    ensures Nearer(|words|, old(b.r), g.trace.Count(), b.r, g'.trace.Count(), e)
  {
    hide Separate, Clash, TableOk, RegsOk, H.Inv, H.Weight, Cycles, Before, Pending, Kept;
    CyclesPush(g.trace.edges, e);
    if e.TxEdge? {
      TxNext(words, g.trace, e, b.r, b.begun, b.h.checks);
      g' := g.(trace := g.trace.Then(e, g.trace.Count()));
      t.Step(e.cycle);
    } else {
      g' := ReceiveEdge(b, words, g, e, t.ram);
    }
  }

  lemma Start(words: seq<RxWord>)
    ensures words[..0] == [] && Cycles([]) == [] && !Pending(words, Trace([], [0]))
    ensures forall begun: nat :: Kept(words, Trace([], [0]), H.BUFFER_INIT, begun, [])
    ensures Ups([]) == 0 && H.Weight(H.BUFFER_INIT) == 1
  {
  }

  lemma UpsNext(es: seq<Edge>, n: nat)
    requires n < |es|
    ensures es[..n] + [es[n]] == es[..n + 1]
    ensures Ups(es[..n + 1]) == Ups(es[..n]) + if Up(es[n]) then 1 else 0
  {
    assert es[..n + 1][..n] == es[..n];
  }

  /** A run from reset. */
  method Follow(words: seq<RxWord>, edges: seq<Edge>, port: H.Port) returns (t: PgpOpCode, b: H.PgpVcRxBuffer, g: Log)
    requires Separate(words) && NoClash(Cycles(edges))
    ensures fresh(t) && fresh(b) && b.port == port && Going(t, b, words, g) && g.trace.edges == edges
    ensures g.trace.Count() == |words| || Ups(edges) <= 12 * g.trace.Count() + 1
  {
    hide Separate, NoClash, Clash, Frames, Cycles, Up, Ups, Pending, Kept, H.Inv, H.Weight;
    t := new PgpOpCode();
    b := new H.PgpVcRxBuffer(port);
    g := Log(Trace([], [0]), [], false);
    Start(words);
    assert edges[..0] == [];
    for k := 0 to |edges|
      invariant fresh(t) && fresh(b) && b.port == port && Going(t, b, words, g) && g.trace.edges == edges[..k]
      invariant g.trace.Count() == |words|
             || Left(b.r, |words| - g.trace.Count()) + Ups(edges[..k]) <= 12 * |words| + 1
    {
      ClashFree(edges, k);
      UpsNext(edges, k);
      g := OneEdge(t, b, words, g, edges[k]);
    }
    assert edges[..|edges|] == edges;
  }

  /** Frame j is checked exactly if the check line was up when its first word was seen, and judged by the entry that
      agrees with the triggers before the sixth edge after its header was read. */
  ghost predicate Judged(words: seq<RxWord>, t: Trace, j: nat, f: Frame, c: H.Check)
    requires t.Formed()
  {
    && Begun(words, t, j, c) && (c.on && |f| >= 3 ==> c.entry.Some?)
    && (c.entry.Some? ==>
          && c.on && |f| >= 2 && ReadAt(words, t, j, c.read)
          && EntryOk(c.entry.value, Before(Cycles(t.edges[..c.read.edge])), f[1].data.b2 as nat))
  }

  /** Of the open frame a part has left, and all that is due once its third word is read or if it is not checked. */
  predicate PartOf(f: Frame, c: H.Check, part: seq<H.OutWord>, p: H.Port) {
    part <= H.Emit(f, c, p) && (!c.on || |f| >= 3 ==> part == H.Emit(f, c, p))
  }

  ghost predicate Written(fs: seq<Frame>, checks: seq<H.Check>, out: seq<H.OutWord>, p: H.Port) {
    && |fs| == |checks|
    && if IsOpen(fs) then
         var m := |fs| - 1;
         exists part :: PartOf(fs[m], checks[m], part, p) && out == H.Outs(fs[..m], checks[..m], p) + part
       else out == H.Outs(fs, checks, p)
  }

  /** What has become of the words read, with the word in the output register counted as passed on. Every complete frame
      leaves unchanged if it was not checked, stamped with the count, offset and seconds of the latest run of its opcode
      if that run was accepted, and not at all otherwise; nothing else leaves. */
  ghost predicate Stamped(words: seq<RxWord>, t: Trace, out: seq<H.OutWord>, checks: seq<H.Check>, port: H.Port) {
    && Paced(words, t)
    && var fs := Frames(words[..t.Count()]);
       Written(fs, checks, out, port) && forall j :: 0 <= j < |fs| ==> Judged(words, t, j, fs[j], checks[j])
  }

  lemma Tell(words: seq<RxWord>, t: Trace, begun: nat, r: H.RegType, h: H.History, held: Option<RxWord>, p: H.Port)
    requires t.Formed() && Kept(words, t, r, begun, h.checks) && t.Count() <= |words| && h.ins == words[..t.Count()]
    requires H.Inv(r, h, held, p)
    ensures Stamped(words, t, h.out, h.checks, p)
  {
    hide Frames, Begun, ReadAt, H.Emit, EntryOk, Cycles, Before, Paced, H.Outs;
    var fs := Frames(h.ins);
    forall j | 0 <= j < |fs|
      ensures Judged(words, t, j, fs[j], h.checks[j])
    {
      assert H.CheckOk(fs[j], h.checks[j]) && Traced(words, t, j, h.checks[j]);
    }
    if IsOpen(fs) {
      PartDue(r, fs[|fs| - 1], H.CurCheck(h), held, p);
    }
  }

  lemma PartDue(r: H.RegType, f: Frame, c: H.Check, held: Option<RxWord>, p: H.Port)
    requires H.StateOk(r, f, c, held) && f != []
    ensures PartOf(f, c, H.Part(r.state, f, c, p), p)
  {
    if r.state.WrHdr1S? {
      assert f == f[..1] + [f[1]];
      H.EmitMore(f[..1], f[1], c, p);
    }
  }

  function Opt(o: Option<H.OutWord>): (ws: seq<H.OutWord>) {
    if o.Some? then [o.value] else []
  }

  /** Any interleaving of triggers and frames. While words remain, there have been at most twelve edges with the word
      offered and the output ready for each word accepted, and one more. */
  method Run(words: seq<RxWord>, edges: seq<Edge>, port: H.Port)
    returns (trace: Trace, out: seq<H.OutWord>, pending: Option<H.OutWord>, ghost checks: seq<H.Check>)
    requires Separate(words) && NoClash(Cycles(edges))
    ensures trace.edges == edges && Stamped(words, trace, out + Opt(pending), checks, port)
    ensures trace.Count() == |words| || Ups(edges) <= 12 * trace.Count() + 1
  {
    hide Stamped, Separate, NoClash, Kept, Pending, H.Inv, Frames, Cycles, Ups;
    var t, b, g;
    t, b, g := Follow(words, edges, port);
    Tell(words, g.trace, b.begun, b.r, b.h, b.held, b.port);
    trace, out, pending, checks := g.trace, g.out, b.r.tx, b.h.checks;
  }

  /** However a run has gone so far, edges that offer the next word to a ready buffer get all words through: at most
      twelve for each word and eleven more. */
  method Deliver(words: seq<RxWord>, edges: seq<Edge>, port: H.Port, check: bool)
    returns (trace: Trace, out: seq<H.OutWord>, ghost checks: seq<H.Check>)
    requires Separate(words) && NoClash(Cycles(edges))
    ensures edges <= trace.edges && |trace.edges| <= |edges| + 12 * |words| + 11
    ensures forall k :: |edges| <= k < |trace.edges| ==> trace.edges[k] == RxEdge(true, check, true, false)
    ensures Stamped(words, trace, out, checks, port) && trace.Count() == |words|
  {
    hide Stamped, Separate, NoClash, Kept, Pending, H.Inv, H.Weight, Frames, Cycles, Ups;
    var t, b, g;
    t, b, g := Follow(words, edges, port);
    var up := RxEdge(true, check, true, false);
    while g.trace.Count() < |words|
      invariant fresh(t) && fresh(b) && b.port == port && Going(t, b, words, g)
      invariant edges <= g.trace.edges
      invariant |g.trace.edges| + Left(b.r, |words| - g.trace.Count()) <= |edges| + 12 * |words| + 11
      invariant forall k :: |edges| <= k < |g.trace.edges| ==> g.trace.edges[k] == up
      decreases Left(b.r, |words| - g.trace.Count())
    {
      g := OneEdge(t, b, words, g, up);
    }
    Tell(words, g.trace, b.begun, b.r, b.h, b.held, b.port);
    trace, out, checks := g.trace, g.out + Opt(b.r.tx), b.h.checks;
  }
}
