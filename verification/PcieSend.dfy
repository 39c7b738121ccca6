/** The arbiter of the transmit interface: it merges the register block, the read requests of the transmit lanes and
    the write packets of the receive lanes into one stream. */
module Inbound {
  import opened AxiStream

  datatype Beat = Beat(data: Lanes, last: bool)

  datatype Source = Reg | Tx(lane: nat) | Rx(lane: nat)

  /** One accepted beat and where it came from. */
  datatype Entry = Entry(src: Source, beat: Beat)

  datatype StateType = IdleS | DmaRxS

  datatype RegType = RegType(trnPending: bool, arbCnt: nat, chPntr: nat, tx: Option<Beat>, state: StateType)

  /** The valid beats at the inputs. */
  datatype Inputs = Inputs(reg: Option<Beat>, tx: seq<Option<Beat>>, rx: seq<Option<Beat>>)

  predicate Shaped(i: Inputs, n: nat) {
    |i.tx| == |i.rx| == n
  }

  /** The beat a source offers. */
  function Offer(i: Inputs, s: Source): Option<Beat> {
    match s
    case Reg => i.reg
    case Tx(l) => if l < |i.tx| then i.tx[l] else None
    case Rx(l) => if l < |i.rx| then i.rx[l] else None
  }

  function Beats(log: seq<Entry>): (bs: seq<Beat>)
    ensures |bs| == |log| && forall k :: 0 <= k < |log| ==> bs[k] == log[k].beat
  {
    seq(|log|, k requires 0 <= k < |log| => log[k].beat)
  }

  /** The beats of one source, in the order of the merged stream. */
  function From(log: seq<Entry>, s: Source): seq<Beat> {
    if log == [] then []
    else
      var n := |log| - 1;
      From(log[..n], s) + if log[n].src == s then [log[n].beat] else []
  }

  lemma FromPush(log: seq<Entry>, e: Entry, s: Source)
    ensures From(log + [e], s) == From(log, s) + if e.src == s then [e.beat] else []
  {
    assert (log + [e])[..|log|] == log;
  }

  /** A packet of a receive lane is not interrupted. */
  predicate Contiguous(log: seq<Entry>) {
    forall k :: 0 <= k < |log| - 1 && log[k].src.Rx? && !log[k].beat.last ==> log[k + 1].src == log[k].src
  }

  /** The last entry leaves a packet of this lane open. */
  predicate Open(log: seq<Entry>) {
    log != [] && log[|log| - 1].src.Rx? && !log[|log| - 1].beat.last
  }

  ghost predicate LogInv(r: RegType, log: seq<Entry>, sent: seq<Beat>, n: nat) {
    && Contiguous(log)
    && r.arbCnt < n && r.chPntr < n
    && (r.state.DmaRxS? <==> Open(log)) && (Open(log) ==> log != [] && log[|log| - 1].src == Rx(r.chPntr))
    && Beats(log) == sent + Opt(r.tx)
  }

  function Opt(o: Option<Beat>): (bs: seq<Beat>) {
    if o.Some? then [o.value] else []
  }

  /** How far the round-robin counter is from lane w. */
  function Distance(a: nat, w: nat, n: nat): nat
    requires a < n && w < n
  {
    if a <= w then w - a else w + n - a
  }

  /** Packets started by other receive lanes while lane w was waiting: none has started two. */
  ghost predicate Fair(overtakes: seq<nat>, arbCnt: nat, w: nat, n: nat) {
    && |overtakes| == n && arbCnt < n && w < n && overtakes[w] == 0
    && forall j :: 0 <= j < n ==>
         && overtakes[j] <= 1
         && (overtakes[j] == 1 ==> j != w && Distance(arbCnt, w, n) < Distance(j, w, n))
  }

  function NextArb(a: nat, n: nat): (b: nat)
    requires a < n
    ensures b < n
  {
    if a == n - 1 then 0 else a + 1
  }

  /** A poll that starts a packet of lane a, or finds it without one. */
  lemma FairPoll(overtakes: seq<nat>, a: nat, w: nat, n: nat, started: bool)
    requires Fair(overtakes, a, w, n) && a != w
    ensures Fair(if started then overtakes[a := overtakes[a] + 1] else overtakes, NextArb(a, n), w, n)
  {
    var b := NextArb(a, n);
    assert Distance(b, w, n) == Distance(a, w, n) - 1;
    assert overtakes[a] == 0;
  }

  function NoOvertakes(n: nat): (z: seq<nat>)
    ensures |z| == n && forall j :: 0 <= j < n ==> z[j] == 0
  {
    seq(n, _ => 0)
  }

  /** The tallies of all lanes. */
  ghost predicate AllFair(tallies: seq<seq<nat>>, arbCnt: nat, n: nat) {
    |tallies| == n && forall w :: 0 <= w < n ==> Fair(tallies[w], arbCnt, w, n)
  }

  class PciTlpInbound {
    const lanes: nat
    var r: RegType
    ghost var log: seq<Entry>
    ghost var sent: seq<Beat>
    ghost var tallies: seq<seq<nat>>      // for each waiting lane, the packets others have started meanwhile

    ghost predicate Valid()
      reads this
    {
      LogInv(r, log, sent, lanes) && AllFair(tallies, r.arbCnt, lanes)
    }

    constructor (lanes: nat)
      requires lanes > 0
      ensures Valid() && this.lanes == lanes && log == [] && sent == []
      ensures tallies == seq(lanes, _ => NoOvertakes(lanes))
    {
      this.lanes := lanes;
      r := RegType(false, 0, 0, None, IdleS);
      log, sent, tallies := [], [], seq(lanes, _ => NoOvertakes(lanes));
    }

    /** One cycle: the source whose ready line is raised, if any. */
    method Step(i: Inputs, mReady: bool) returns (ready: Option<Source>)
      requires Valid() && Shaped(i, lanes)
      modifies this
      ensures Valid()
      ensures ready.Some? ==> Offer(i, ready.value).Some?
      ensures log == old(log) + if ready.Some? then [Entry(ready.value, Offer(i, ready.value).value)] else []
      ensures sent == old(sent) + if mReady then Opt(old(r.tx)) else []
      ensures var free := mReady || old(r.tx.None?);
              && (old(r.state.IdleS?) && free && i.reg.Some? ==> ready == Some(Reg))
              && (old(r.state.IdleS?) && free && i.reg.None? && i.tx[old(r.arbCnt)].Some?
                  ==> ready == Some(Tx(old(r.arbCnt))))
              && (old(r.state.IdleS?) && ready.None? && free
                  ==> i.rx[old(r.arbCnt)].None? && r.arbCnt == NextArb(old(r.arbCnt), lanes))
      ensures (mReady || old(r.tx.None?)) && old(r.state.DmaRxS?) && i.rx[old(r.chPntr)].Some? ==> ready.Some?
      ensures old(r.state.DmaRxS?) && ready.Some? ==> ready.value == Rx(old(r.chPntr))
      ensures r.trnPending <==> exists s: Source :: Offer(i, s).Some?
      ensures tallies == Tallies(old(tallies), old(r), i, ready)
    {
      hide LogInv, AllFair, AnyValid, Tallies;
      ready := None;
      InRange(r, log, sent, lanes);
      var v := r.(trnPending := AnyValid(i), tx := if mReady then None else r.tx);
      match r.state {
        case IdleS =>
          if v.tx.None? {
            var a := r.arbCnt;
            if i.reg.Some? {
              ready := Some(Reg);
            } else if i.tx[a].Some? {
              ready := Some(Tx(a));
            } else {
              if i.rx[a].Some? {
                ready := Some(Rx(a));
                v := v.(chPntr := a, state := if i.rx[a].value.last then IdleS else DmaRxS);
              }
              v := v.(arbCnt := NextArb(a, lanes));
            }
          }
        case DmaRxS =>
          if v.tx.None? && i.rx[r.chPntr].Some? {
            ready := Some(Rx(r.chPntr));
            v := v.(state := if i.rx[r.chPntr].value.last then IdleS else DmaRxS);
          }
      }
      if ready.Some? {
        v := v.(tx := Offer(i, ready.value));
      }
      SomeOffer(i);
      LogStep(r, v, log, sent, i, ready, mReady, lanes);
      AllFairStep(tallies, r, v.arbCnt, i, ready, lanes);
      log := log + if ready.Some? then [Entry(ready.value, Offer(i, ready.value).value)] else [];
      sent := sent + if mReady then Opt(r.tx) else [];
      tallies := Tallies(tallies, r, i, ready);
      r := v;
    }
  }

  lemma InRange(r: RegType, log: seq<Entry>, sent: seq<Beat>, n: nat)
    requires LogInv(r, log, sent, n)
    ensures r.arbCnt < n && r.chPntr < n && Beats(log) == sent + Opt(r.tx)
  {
  }

  /** Packets started by each receive lane since lane w was last without a packet, or was last served. */
  ghost function Overtaken(overtakes: seq<nat>, r: RegType, i: Inputs, ready: Option<Source>, w: nat): seq<nat> {
    if Offer(i, Rx(w)).None? || ready == Some(Rx(w)) then NoOvertakes(|overtakes|)
    else if r.state.IdleS? && ready.Some? && ready.value.Rx? && ready.value.lane < |overtakes| then
      overtakes[ready.value.lane := overtakes[ready.value.lane] + 1]
    else overtakes
  }

  lemma FairStep(overtakes: seq<nat>, r: RegType, arb': nat, i: Inputs, ready: Option<Source>, w: nat, n: nat)
    requires Fair(overtakes, r.arbCnt, w, n) && Shaped(i, n) && arb' < n
    requires r.state.DmaRxS? ==> arb' == r.arbCnt
    requires r.state.IdleS? ==>
               || (arb' == r.arbCnt && (ready.None? || ready.value.Reg? || ready.value.Tx?))
               || (arb' == NextArb(r.arbCnt, n) && ready == if i.rx[r.arbCnt].Some? then Some(Rx(r.arbCnt)) else None)
    ensures Fair(Overtaken(overtakes, r, i, ready, w), arb', w, n)
  {
    hide Distance;
    if Offer(i, Rx(w)).None? || ready == Some(Rx(w)) {
      FairStart(NoOvertakes(n), arb', w, n);
    } else if r.state.IdleS? && arb' == NextArb(r.arbCnt, n) && r.arbCnt != w {
      FairPoll(overtakes, r.arbCnt, w, n, ready.Some?);
    }
  }

  ghost function Tallies(tallies: seq<seq<nat>>, r: RegType, i: Inputs, ready: Option<Source>): (ts: seq<seq<nat>>)
    ensures |ts| == |tallies| && forall w :: 0 <= w < |ts| ==> ts[w] == Overtaken(tallies[w], r, i, ready, w)
  {
    seq(|tallies|, w requires 0 <= w < |tallies| => Overtaken(tallies[w], r, i, ready, w))
  }

  lemma AllFairStep(tallies: seq<seq<nat>>, r: RegType, arb': nat, i: Inputs, ready: Option<Source>, n: nat)
    requires AllFair(tallies, r.arbCnt, n) && Shaped(i, n) && arb' < n && r.arbCnt < n
    requires r.state.DmaRxS? ==> arb' == r.arbCnt
    requires r.state.IdleS? ==>
               || (arb' == r.arbCnt && (ready.None? || ready.value.Reg? || ready.value.Tx?))
               || (arb' == NextArb(r.arbCnt, n) && ready == if i.rx[r.arbCnt].Some? then Some(Rx(r.arbCnt)) else None)
    ensures AllFair(Tallies(tallies, r, i, ready), arb', n)
  {
    hide Fair, Overtaken, Tallies;
    forall w | 0 <= w < n
      ensures Fair(Overtaken(tallies[w], r, i, ready, w), arb', w, n)
    {
      FairStep(tallies[w], r, arb', i, ready, w, n);
    }
  }

  lemma LogStep(r: RegType, v: RegType, log: seq<Entry>, sent: seq<Beat>, i: Inputs, ready: Option<Source>,
                mReady: bool, n: nat)
    requires LogInv(r, log, sent, n) && Shaped(i, n) && v.arbCnt < n
    requires ready.None? ==> v.tx == (if mReady then None else r.tx) && v.state == r.state && v.chPntr == r.chPntr
    requires ready.Some? ==> (mReady || r.tx.None?) && Offer(i, ready.value).Some? && v.tx == Offer(i, ready.value)
    requires ready.Some? && r.state.DmaRxS? ==> ready.value == Rx(r.chPntr) && v.chPntr == r.chPntr
    requires ready.Some? && ready.value.Rx? ==>
               && v.chPntr == ready.value.lane < n
               && v.state == if Offer(i, ready.value).value.last then IdleS else DmaRxS
    requires ready.Some? && !ready.value.Rx? ==> v.state == IdleS && v.chPntr == r.chPntr
    ensures LogInv(v, log + (if ready.Some? then [Entry(ready.value, Offer(i, ready.value).value)] else []),
                   sent + (if mReady then Opt(r.tx) else []), n)
  {
    hide Contiguous, Open, Beats;
    if ready.Some? {
      assert sent + (if mReady then Opt(r.tx) else []) == Beats(log);
      Pushed(log, ready.value, Offer(i, ready.value).value);
    } else {
      assert log + [] == log;
    }
  }

  predicate AnyValid(i: Inputs) {
    i.reg.Some? || (exists l :: 0 <= l < |i.tx| && i.tx[l].Some?) || (exists l :: 0 <= l < |i.rx| && i.rx[l].Some?)
  }

  lemma SomeOffer(i: Inputs)
    ensures AnyValid(i) <==> exists s: Source :: Offer(i, s).Some?
  {
    assert i.reg.Some? ==> Offer(i, Reg).Some?;
    assert forall l :: 0 <= l < |i.tx| && i.tx[l].Some? ==> Offer(i, Tx(l)).Some?;
    assert forall l :: 0 <= l < |i.rx| && i.rx[l].Some? ==> Offer(i, Rx(l)).Some?;
  }

  lemma FairStart(overtakes: seq<nat>, a: nat, w: nat, n: nat)
    requires overtakes == NoOvertakes(n) && a < n && w < n
    ensures Fair(overtakes, a, w, n)
  {
  }

  /** An accepted beat goes to the end of the merged stream. */
  lemma Pushed(log: seq<Entry>, s: Source, b: Beat)
    requires Contiguous(log) && (Open(log) ==> s == log[|log| - 1].src)
    ensures Contiguous(log + [Entry(s, b)]) && Beats(log + [Entry(s, b)]) == Beats(log) + [b]
    ensures Open(log + [Entry(s, b)]) <==> s.Rx? && !b.last
  {
  }

  // ---------------------------------------------------------------------------------------
  // Whole runs
  // ---------------------------------------------------------------------------------------

  /** What each source has to send. */
  datatype Queues = Queues(reg: seq<Beat>, tx: seq<seq<Beat>>, rx: seq<seq<Beat>>)

  function Queue(q: Queues, s: Source): seq<Beat> {
    match s
    case Reg => q.reg
    case Tx(l) => if l < |q.tx| then q.tx[l] else []
    case Rx(l) => if l < |q.rx| then q.rx[l] else []
  }

  /** One cycle: which sources are valid, and whether the PCIe core is ready. */
  datatype Edge = Edge(reg: bool, tx: seq<bool>, rx: seq<bool>, mReady: bool)

  /** The next unsent beat. */
  function Head(q: seq<Beat>, pos: nat, valid: bool): (o: Option<Beat>)
    ensures o.Some? ==> pos < |q| && o.value == q[pos]
  {
    if valid && pos < |q| then Some(q[pos]) else None
  }

  function Heads(qs: seq<seq<Beat>>, pos: seq<nat>, valid: seq<bool>): (os: seq<Option<Beat>>)
    requires |qs| == |pos| == |valid|
    ensures |os| == |qs| && forall l :: 0 <= l < |qs| ==> os[l] == Head(qs[l], pos[l], valid[l])
  {
    seq(|qs|, l requires 0 <= l < |qs| => Head(qs[l], pos[l], valid[l]))
  }

  function Pos(regPos: nat, txPos: seq<nat>, rxPos: seq<nat>, s: Source): nat {
    match s
    case Reg => regPos
    case Tx(l) => if l < |txPos| then txPos[l] else 0
    case Rx(l) => if l < |rxPos| then rxPos[l] else 0
  }

  /** Every source's share of the merged stream is what it has sent so far. */
  ghost predicate InOrder(log: seq<Entry>, q: Queues, regPos: nat, txPos: seq<nat>, rxPos: seq<nat>) {
    forall s: Source {:trigger From(log, s)} ::
      Pos(regPos, txPos, rxPos, s) <= |Queue(q, s)| && From(log, s) == Queue(q, s)[..Pos(regPos, txPos, rxPos, s)]
  }

  /** Counting an accepted beat at its source. */
  lemma Counted(log: seq<Entry>, q: Queues, regPos: nat, txPos: seq<nat>, rxPos: seq<nat>, s: Source, b: Beat,
                regPos': nat, txPos': seq<nat>, rxPos': seq<nat>)
    requires InOrder(log, q, regPos, txPos, rxPos)
    requires Pos(regPos, txPos, rxPos, s) < |Queue(q, s)| && b == Queue(q, s)[Pos(regPos, txPos, rxPos, s)]
    requires forall t: Source {:trigger Pos(regPos', txPos', rxPos', t)} ::
               Pos(regPos', txPos', rxPos', t) == Pos(regPos, txPos, rxPos, t) + if t == s then 1 else 0
    ensures InOrder(log + [Entry(s, b)], q, regPos', txPos', rxPos')
  {
    hide From, Pos, Queue;
    forall t: Source
      ensures Pos(regPos', txPos', rxPos', t) <= |Queue(q, t)|
      ensures From(log + [Entry(s, b)], t) == Queue(q, t)[..Pos(regPos', txPos', rxPos', t)]
    {
      FromPush(log, Entry(s, b), t);
      var k, beats := Pos(regPos, txPos, rxPos, t), Queue(q, t);
      assert From(log, t) == beats[..k];
      if t == s {
        assert beats[..k + 1] == beats[..k] + [beats[k]];
      }
    }
  }

  /** Every packet of the merged stream is in one piece. */
  predicate Whole(log: seq<Entry>) {
    forall k :: 0 <= k < |log| - 1 && !log[k].beat.last ==> log[k + 1].src == log[k].src
  }

  /** The register block and the read requesters send packets of one beat. */
  predicate SingleBeats(q: Queues) {
    && (forall k :: 0 <= k < |q.reg| ==> q.reg[k].last)
    && (forall l, k :: 0 <= l < |q.tx| && 0 <= k < |q.tx[l]| ==> q.tx[l][k].last)
  }

  lemma {:induction false} FromAt(log: seq<Entry>, k: nat)
    requires k < |log|
    ensures log[k].beat in From(log, log[k].src)
  {
    if k == |log| - 1 {
    } else {
      FromAt(log[..|log| - 1], k);
    }
  }

  lemma MergedWhole(log: seq<Entry>, q: Queues, regPos: nat, txPos: seq<nat>, rxPos: seq<nat>)
    requires Contiguous(log) && SingleBeats(q) && InOrder(log, q, regPos, txPos, rxPos)
    ensures Whole(log)
  {
    forall k | 0 <= k < |log| - 1 && !log[k].beat.last
      ensures log[k + 1].src == log[k].src
    {
      FromAt(log, k);
      assert log[k].beat in Queue(q, log[k].src);
    }
  }

  /** How many beats each source has sent. */
  datatype Place = Place(reg: nat, tx: seq<nat>, rx: seq<nat>)

  /** Whether an edge marks the beat of a source valid. */
  predicate Marks(e: Edge, s: Source) {
    match s
    case Reg => e.reg
    case Tx(l) => l < |e.tx| && e.tx[l]
    case Rx(l) => l < |e.rx| && e.rx[l]
  }

  /** How often a source has been served, if took says which source each edge served. */
  function Served(took: seq<Option<Source>>, s: Source): nat {
    if took == [] then 0
    else
      var n := |took| - 1;
      Served(took[..n], s) + if took[n] == Some(s) then 1 else 0
  }

  /** Before edge k lane w has a beat to send, and edge k does not serve it. */
  predicate Waits(q: Queues, edges: seq<Edge>, took: seq<Option<Source>>, k: nat, w: nat)
    requires k < |took| == |edges|
  {
    Marks(edges[k], Rx(w)) && Served(took[..k], Rx(w)) < |Queue(q, Rx(w))| && took[k] != Some(Rx(w))
  }

  /** Edge k sends the first beat of a packet of lane l. */
  predicate Begins(q: Queues, took: seq<Option<Source>>, k: nat, l: nat)
    requires k < |took|
  {
    var n := Served(took[..k], Rx(l));
    took[k] == Some(Rx(l)) && n <= |Queue(q, Rx(l))| && (n > 0 ==> Queue(q, Rx(l))[n - 1].last)
  }

  /** No lane begins two packets while lane w waits. */
  ghost predicate FairTo(q: Queues, edges: seq<Edge>, took: seq<Option<Source>>, w: nat)
    requires |took| == |edges|
  {
    forall l: nat, i, j :: 0 <= i < j < |took| && Begins(q, took, i, l) && Begins(q, took, j, l) ==>
      Broken(q, edges, took, i, j + 1, w)
  }

  /** Lane w does not wait at all edges from i to j. */
  ghost predicate Broken(q: Queues, edges: seq<Edge>, took: seq<Option<Source>>, i: nat, j: nat, w: nat)
    requires |took| == |edges|
  {
    exists k :: i <= k < j && k < |took| && !Waits(q, edges, took, k, w)
  }

  /** The tally of lane w has every packet begun since it started to wait. */
  ghost predicate Tallied(q: Queues, edges: seq<Edge>, took: seq<Option<Source>>, tally: seq<nat>, w: nat)
    requires |took| == |edges|
  {
    forall l, i :: 0 <= l < |tally| && 0 <= i < |took| && Begins(q, took, i, l) ==>
      Broken(q, edges, took, i, |took|, w) || tally[l] >= 1
  }

  lemma WaitsKept(q: Queues, edges: seq<Edge>, took: seq<Option<Source>>, e: Edge, t: Option<Source>, k: nat)
    requires k < |took| == |edges|
    ensures forall w: nat :: Waits(q, edges + [e], took + [t], k, w) == Waits(q, edges, took, k, w)
    ensures forall l: nat :: Begins(q, took + [t], k, l) == Begins(q, took, k, l)
  {
    assert (took + [t])[..k] == took[..k];
  }

  lemma BrokenKept(q: Queues, edges: seq<Edge>, took: seq<Option<Source>>, e: Edge, t: Option<Source>, i: nat, j: nat,
                   w: nat)
    requires |took| == |edges| && Broken(q, edges, took, i, j, w)
    ensures forall m: nat :: m >= j ==> Broken(q, edges + [e], took + [t], i, m, w)
  {
    hide Waits;
    var k :| i <= k < j && k < |took| && !Waits(q, edges, took, k, w);
    WaitsKept(q, edges, took, e, t, k);
  }

  /** One more edge. A lane that begins a second packet while lane w waits would have a tally of two. */
  lemma FairNext(q: Queues, edges: seq<Edge>, took: seq<Option<Source>>, e: Edge, t: Option<Source>, tally: seq<nat>,
                 tally': seq<nat>, w: nat)
    requires |took| == |edges| && |tally| == |tally'|
    requires FairTo(q, edges, took, w) && Tallied(q, edges, took, tally, w)
    requires forall l :: 0 <= l < |tally'| ==> tally'[l] <= 1
    requires var n := |took|;
             Waits(q, edges + [e], took + [t], n, w) ==> forall l: nat :: Begins(q, took + [t], n, l) ==>
               l < |tally| && tally' == tally[l := tally[l] + 1]
    requires Waits(q, edges + [e], took + [t], |took|, w) ==>
               tally' == tally || exists l :: 0 <= l < |tally| && tally' == tally[l := tally[l] + 1]
    ensures FairTo(q, edges + [e], took + [t], w) && Tallied(q, edges + [e], took + [t], tally', w)
  {
    hide Waits, Begins;
    var es, ts, n := edges + [e], took + [t], |took|;
    forall l: nat, i, j | 0 <= i < j < |ts| && Begins(q, ts, i, l) && Begins(q, ts, j, l)
      ensures Broken(q, es, ts, i, j + 1, w)
    {
      WaitsKept(q, edges, took, e, t, i);
      if j < n {
        WaitsKept(q, edges, took, e, t, j);
        BrokenKept(q, edges, took, e, t, i, j + 1, w);
      } else if Broken(q, edges, took, i, n, w) {
        BrokenKept(q, edges, took, e, t, i, n, w);
      } else {
        assert Begins(q, took, i, l) && (l < |tally| ==> tally[l] >= 1 && tally'[l] <= 1);
      }
    }
    forall l, i | 0 <= l < |tally'| && 0 <= i < |ts| && Begins(q, ts, i, l)
      ensures Broken(q, es, ts, i, |ts|, w) || tally'[l] >= 1
    {
      if !Waits(q, es, ts, n, w) {
        assert Broken(q, es, ts, i, |ts|, w);
      } else if i < n {
        WaitsKept(q, edges, took, e, t, i);
        if Broken(q, edges, took, i, n, w) {
          BrokenKept(q, edges, took, e, t, i, n, w);
        }
      }
    }
  }

  /** Every source offers its next beat, and the PCIe core is ready. */
  predicate Up(e: Edge) {
    e.reg && e.mReady && (forall l :: 0 <= l < |e.tx| ==> e.tx[l]) && forall l :: 0 <= l < |e.rx| ==> e.rx[l]
  }

  /** Beats not yet sent. */
  function Rest(qs: seq<seq<Beat>>, pos: seq<nat>): nat
    requires |qs| == |pos|
  {
    if qs == [] then 0
    else
      var n := |qs| - 1;
      Rest(qs[..n], pos[..n]) + if pos[n] <= |qs[n]| then |qs[n]| - pos[n] else 0
  }

  function Remaining(q: Queues, p: Place): nat
    requires |q.tx| == |p.tx| && |q.rx| == |p.rx|
  {
    (if p.reg <= |q.reg| then |q.reg| - p.reg else 0) + Rest(q.tx, p.tx) + Rest(q.rx, p.rx)
  }

  lemma {:induction false} RestSent(qs: seq<seq<Beat>>, pos: seq<nat>, l: nat)
    requires |qs| == |pos| && l < |qs| && pos[l] < |qs[l]|
    ensures Rest(qs, pos[l := pos[l] + 1]) == Rest(qs, pos) - 1
  {
    var n, next := |qs| - 1, pos[l := pos[l] + 1];
    if l == n {
      assert next[..n] == pos[..n];
    } else {
      RestSent(qs[..n], pos[..n], l);
      assert next[..n] == pos[..n][l := pos[l] + 1];
    }
  }

  /** Nothing is left exactly if every queue is at its end; otherwise some lane has a beat. */
  lemma {:induction false} RestNone(qs: seq<seq<Beat>>, pos: seq<nat>)
    requires |qs| == |pos| && forall l :: 0 <= l < |qs| ==> pos[l] <= |qs[l]|
    ensures Rest(qs, pos) == 0 <==> forall l :: 0 <= l < |qs| ==> pos[l] == |qs[l]|
  {
    if qs == [] {
    } else {
      var n := |qs| - 1;
      RestNone(qs[..n], pos[..n]);
      assert Rest(qs, pos) == 0 ==> forall l :: 0 <= l < n ==> pos[..n][l] == |qs[..n][l]|;
    }
  }

  lemma PlaceOf(log: seq<Entry>, q: Queues, p: Place, s: Source)
    requires InOrder(log, q, p.reg, p.tx, p.rx)
    ensures Pos(p.reg, p.tx, p.rx, s) <= |Queue(q, s)| && From(log, s) == Queue(q, s)[..Pos(p.reg, p.tx, p.rx, s)]
  {
    assert From(log, s) == Queue(q, s)[..Pos(p.reg, p.tx, p.rx, s)];
  }

  lemma Places(log: seq<Entry>, q: Queues, p: Place)
    requires InOrder(log, q, p.reg, p.tx, p.rx) && |p.tx| == |q.tx| && |p.rx| == |q.rx|
    ensures p.reg <= |q.reg| && (forall l :: 0 <= l < |q.tx| ==> p.tx[l] <= |q.tx[l]|)
    ensures forall l :: 0 <= l < |q.rx| ==> p.rx[l] <= |q.rx[l]|
  {
    assert From(log, Reg) == Queue(q, Reg)[..Pos(p.reg, p.tx, p.rx, Reg)];
    forall l | 0 <= l < |q.tx|
      ensures p.tx[l] <= |q.tx[l]|
    {
      PlaceOf(log, q, p, Tx(l));
    }
    forall l | 0 <= l < |q.rx|
      ensures p.rx[l] <= |q.rx[l]|
    {
      PlaceOf(log, q, p, Rx(l));
    }
  }

  /** Every packet of the receive lanes is complete. */
  predicate Complete(q: Queues) {
    forall l :: 0 <= l < |q.rx| && q.rx[l] != [] ==> q.rx[l][|q.rx[l]| - 1].last
  }

  /** While a packet of lane c is open, the lane has another beat. */
  lemma MoreToCome(log: seq<Entry>, q: Queues, p: Place, c: nat)
    requires InOrder(log, q, p.reg, p.tx, p.rx) && Complete(q) && c < |q.rx| == |p.rx|
    requires Open(log) && log[|log| - 1].src == Rx(c)
    ensures p.rx[c] < |q.rx[c]|
  {
    assert From(log, Rx(c)) == Queue(q, Rx(c))[..Pos(p.reg, p.tx, p.rx, Rx(c))];
    assert From(log, Rx(c))[|From(log, Rx(c))| - 1] == log[|log| - 1].beat;
  }

  /** A lane with something to send. */
  predicate Waiting(q: Queues, p: Place, l: nat) {
    l < |q.tx| == |q.rx| == |p.tx| == |p.rx| && (p.tx[l] < |q.tx[l]| || p.rx[l] < |q.rx[l]|)
  }

  /** A run so far: its edges and the source each has served, the places in the queues, and the merged stream. */
  datatype Course = Course(edges: seq<Edge>, took: seq<Option<Source>>, p: Place, log: seq<Entry>, sent: seq<Beat>)

  function Sources(log: seq<Entry>): (ss: seq<Source>)
    ensures |ss| == |log| && forall k :: 0 <= k < |log| ==> ss[k] == log[k].src
  {
    seq(|log|, k requires 0 <= k < |log| => log[k].src)
  }

  /** The sources served, in order. */
  function Chosen(took: seq<Option<Source>>): seq<Source> {
    if took == [] then []
    else
      var n := |took| - 1;
      Chosen(took[..n]) + if took[n].Some? then [took[n].value] else []
  }

  /** Only a source with a valid beat is served. */
  ghost predicate Offered(q: Queues, edges: seq<Edge>, took: seq<Option<Source>>) {
    && |edges| == |took|
    && forall k :: 0 <= k < |took| && took[k].Some? ==>
         Marks(edges[k], took[k].value) && Served(took[..k], took[k].value) < |Queue(q, took[k].value)|
  }

  ghost predicate Placed(p: Place, took: seq<Option<Source>>) {
    forall s: Source {:trigger Served(took, s)} :: Pos(p.reg, p.tx, p.rx, s) == Served(took, s)
  }

  ghost predicate AllEven(q: Queues, edges: seq<Edge>, took: seq<Option<Source>>, tallies: seq<seq<nat>>)
    requires |edges| == |took|
  {
    forall w :: 0 <= w < |tallies| ==> FairTo(q, edges, took, w) && Tallied(q, edges, took, tallies[w], w)
  }

  ghost predicate Tracks(q: Queues, lanes: nat, c: Course, tallies: seq<seq<nat>>) {
    && |q.tx| == |q.rx| == |c.p.tx| == |c.p.rx| == |tallies| == lanes && |c.edges| == |c.took|
    && InOrder(c.log, q, c.p.reg, c.p.tx, c.p.rx) && Placed(c.p, c.took) && Sources(c.log) == Chosen(c.took)
    && Offered(q, c.edges, c.took) && AllEven(q, c.edges, c.took, tallies)
  }

  ghost predicate Going(m: PciTlpInbound, q: Queues, lanes: nat, c: Course)
    reads m
  {
    m.Valid() && m.lanes == lanes && Tracks(q, lanes, c, m.tallies) && c.log == m.log && c.sent == m.sent
  }

  function NextPlace(p: Place, s: Source): Place {
    match s
    case Reg => p.(reg := p.reg + 1)
    case Tx(l) => if l < |p.tx| then p.(tx := p.tx[l := p.tx[l] + 1]) else p
    case Rx(l) => if l < |p.rx| then p.(rx := p.rx[l := p.rx[l] + 1]) else p
  }

  function InputsAt(q: Queues, p: Place, e: Edge): Inputs
    requires |q.tx| == |p.tx| == |e.tx| && |q.rx| == |p.rx| == |e.rx|
  {
    Inputs(Head(q.reg, p.reg, e.reg), Heads(q.tx, p.tx, e.tx), Heads(q.rx, p.rx, e.rx))
  }

  /** A source has a valid beat exactly if the edge marks it and its queue is not at its end. */
  lemma OfferIs(q: Queues, p: Place, e: Edge, s: Source)
    requires |q.tx| == |p.tx| == |e.tx| && |q.rx| == |p.rx| == |e.rx|
    ensures var n := Pos(p.reg, p.tx, p.rx, s);
            Offer(InputsAt(q, p, e), s) == if Marks(e, s) && n < |Queue(q, s)| then Some(Queue(q, s)[n]) else None
  {
  }

  function CourseAfter(c: Course, e: Edge, ready: Option<Source>, beat: Option<Beat>, out: seq<Beat>): Course {
    Course(c.edges + [e], c.took + [ready], if ready.Some? then NextPlace(c.p, ready.value) else c.p,
           c.log + (if ready.Some? && beat.Some? then [Entry(ready.value, beat.value)] else []), c.sent + out)
  }

  lemma PlaceNext(p: Place, q: Queues, e: Edge, s: Source)
    requires |q.tx| == |p.tx| == |e.tx| && |q.rx| == |p.rx| == |e.rx| && Offer(InputsAt(q, p, e), s).Some?
    ensures var n := NextPlace(p, s);
            && |n.tx| == |p.tx| && |n.rx| == |p.rx|
            && forall t: Source {:trigger Pos(n.reg, n.tx, n.rx, t)} ::
                 Pos(n.reg, n.tx, n.rx, t) == Pos(p.reg, p.tx, p.rx, t) + if t == s then 1 else 0
  {
    OfferIs(q, p, e, s);
  }

  lemma ServedPush(took: seq<Option<Source>>, t: Option<Source>, s: Source)
    ensures Served(took + [t], s) == Served(took, s) + if t == Some(s) then 1 else 0
  {
    assert (took + [t])[..|took|] == took;
  }

  lemma PlacedNext(p: Place, p': Place, took: seq<Option<Source>>, t: Option<Source>)
    requires Placed(p, took)
    requires forall s: Source {:trigger Pos(p'.reg, p'.tx, p'.rx, s)} ::
               Pos(p'.reg, p'.tx, p'.rx, s) == Pos(p.reg, p.tx, p.rx, s) + if t == Some(s) then 1 else 0
    ensures Placed(p', took + [t])
  {
    hide Pos, Served;
    forall s: Source
      ensures Pos(p'.reg, p'.tx, p'.rx, s) == Served(took + [t], s)
    {
      ServedPush(took, t, s);
      assert Pos(p.reg, p.tx, p.rx, s) == Served(took, s);
    }
  }

  lemma OfferedNext(q: Queues, edges: seq<Edge>, took: seq<Option<Source>>, e: Edge, t: Option<Source>)
    requires Offered(q, edges, took)
    requires t.Some? ==> Marks(e, t.value) && Served(took, t.value) < |Queue(q, t.value)|
    ensures Offered(q, edges + [e], took + [t])
  {
    hide Marks, Served, Queue;
    var ts := took + [t];
    assert ts[..|took|] == took;
    assert forall k :: 0 <= k < |took| ==> ts[..k] == took[..k];
  }

  lemma ChosenPush(took: seq<Option<Source>>, t: Option<Source>)
    ensures Chosen(took + [t]) == Chosen(took) + if t.Some? then [t.value] else []
  {
    assert (took + [t])[..|took|] == took;
  }

  /** While a packet is open, its lane does not begin another. */
  lemma NotBegun(q: Queues, c: Course, r: RegType, n: nat, l: nat, t: Option<Source>)
    requires InOrder(c.log, q, c.p.reg, c.p.tx, c.p.rx) && Placed(c.p, c.took) && LogInv(r, c.log, c.sent, n)
    requires r.state.DmaRxS? && (t.Some? ==> t.value == Rx(r.chPntr))
    ensures !Begins(q, c.took + [t], |c.took|, l)
  {
    hide Contiguous, Beats, Pos, Queue, Served;
    assert (c.took + [t])[..|c.took|] == c.took;
    var s := Rx(r.chPntr);
    PlaceOf(c.log, q, c.p, s);
    assert From(c.log, s)[|From(c.log, s)| - 1] == c.log[|c.log| - 1].beat;
    assert Pos(c.p.reg, c.p.tx, c.p.rx, s) == Served(c.took, s);
  }

  /** Fairness to all lanes after one more edge. */
  lemma EvenNext(q: Queues, lanes: nat, c: Course, e: Edge, r: RegType, ready: Option<Source>, tallies: seq<seq<nat>>,
                 arb': nat)
    requires Tracks(q, lanes, c, tallies) && |e.tx| == |e.rx| == lanes && LogInv(r, c.log, c.sent, lanes)
    requires ready.Some? ==> Offer(InputsAt(q, c.p, e), ready.value).Some?
    requires ready.Some? && r.state.DmaRxS? ==> ready.value == Rx(r.chPntr)
    requires AllFair(Tallies(tallies, r, InputsAt(q, c.p, e), ready), arb', lanes)
    ensures AllEven(q, c.edges + [e], c.took + [ready], Tallies(tallies, r, InputsAt(q, c.p, e), ready))
  {
    hide LogInv, FairTo, Tallied, InputsAt, InOrder, Distance, Queue, Served, Tallies, Pos, Offered;
    var i := InputsAt(q, c.p, e);
    var tallies' := Tallies(tallies, r, i, ready);
    forall w | 0 <= w < lanes
      ensures FairTo(q, c.edges + [e], c.took + [ready], w)
      ensures Tallied(q, c.edges + [e], c.took + [ready], tallies'[w], w)
    {
      assert Fair(tallies'[w], arb', w, lanes);
      EvenOne(q, lanes, c, e, r, ready, tallies[w], w);
      FairNext(q, c.edges, c.took, e, ready, tallies[w], tallies'[w], w);
    }
  }

  lemma EvenOne(q: Queues, lanes: nat, c: Course, e: Edge, r: RegType, ready: Option<Source>, tally: seq<nat>, w: nat)
    requires |q.tx| == |q.rx| == |c.p.tx| == |c.p.rx| == |e.tx| == |e.rx| == lanes && w < lanes == |tally|
    requires |c.edges| == |c.took| && Placed(c.p, c.took) && InOrder(c.log, q, c.p.reg, c.p.tx, c.p.rx)
    requires LogInv(r, c.log, c.sent, lanes) && (ready.Some? ==> Offer(InputsAt(q, c.p, e), ready.value).Some?)
    requires ready.Some? && r.state.DmaRxS? ==> ready.value == Rx(r.chPntr)
    ensures var tally' := Overtaken(tally, r, InputsAt(q, c.p, e), ready, w);
            var n, took := |c.took|, c.took + [ready];
            Waits(q, c.edges + [e], took, n, w) ==>
              && (forall l: nat :: Begins(q, took, n, l) ==> l < lanes && tally' == tally[l := tally[l] + 1])
              && (tally' == tally || exists l :: 0 <= l < lanes && tally' == tally[l := tally[l] + 1])
  {
    hide LogInv, InOrder, Queue, Served, Pos, InputsAt;
    var n, took := |c.took|, c.took + [ready];
    assert took[..n] == c.took;
    OfferIs(q, c.p, e, Rx(w));
    if ready.Some? {
      OfferIs(q, c.p, e, ready.value);
    }
    assert Pos(c.p.reg, c.p.tx, c.p.rx, Rx(w)) == Served(c.took, Rx(w));
    if r.state.DmaRxS? {
      forall l: nat
        ensures !Begins(q, took, n, l)
      {
        NotBegun(q, c, r, lanes, l, ready);
      }
    }
  }

  /** The run after one more edge. */
  lemma TracksNext(q: Queues, lanes: nat, c: Course, e: Edge, r: RegType, ready: Option<Source>, out: seq<Beat>,
                   tallies: seq<seq<nat>>, arb': nat)
    requires Tracks(q, lanes, c, tallies) && |e.tx| == |e.rx| == lanes && LogInv(r, c.log, c.sent, lanes)
    requires ready.Some? ==> Offer(InputsAt(q, c.p, e), ready.value).Some?
    requires ready.Some? && r.state.DmaRxS? ==> ready.value == Rx(r.chPntr)
    requires AllFair(Tallies(tallies, r, InputsAt(q, c.p, e), ready), arb', lanes)
    ensures var i := InputsAt(q, c.p, e);
            Tracks(q, lanes, CourseAfter(c, e, ready, if ready.Some? then Offer(i, ready.value) else None, out),
                   Tallies(tallies, r, i, ready))
  {
    EvenNext(q, lanes, c, e, r, ready, tallies, arb');
    hide LogInv, InOrder, Queue, Served, Pos, InputsAt, AllFair, Tallies, Offer, AllEven, Offered, Placed, NextPlace;
    ChosenPush(c.took, ready);
    if ready.Some? {
      var s := ready.value;
      OfferIs(q, c.p, e, s);
      PlaceNext(c.p, q, e, s);
      PlacedNow(c.p, c.took, s);
      var b, p := Offer(InputsAt(q, c.p, e), s).value, NextPlace(c.p, s);
      Counted(c.log, q, c.p.reg, c.p.tx, c.p.rx, s, b, p.reg, p.tx, p.rx);
      PlacedNext(c.p, p, c.took, ready);
      OfferedNext(q, c.edges, c.took, e, ready);
    } else {
      PlacedNext(c.p, c.p, c.took, ready);
      OfferedNext(q, c.edges, c.took, e, ready);
      assert c.log + [] == c.log;
    }
  }

  lemma PlacedNow(p: Place, took: seq<Option<Source>>, s: Source)
    requires Placed(p, took)
    ensures Pos(p.reg, p.tx, p.rx, s) == Served(took, s)
  {
    hide Pos, Served;
    assert Served(took, s) == Pos(p.reg, p.tx, p.rx, s);
  }

  /** Sending a beat leaves one less to send. */
  lemma Sooner(q: Queues, p: Place, e: Edge, s: Source)
    requires |q.tx| == |p.tx| == |e.tx| && |q.rx| == |p.rx| == |e.rx| && Offer(InputsAt(q, p, e), s).Some?
    ensures |NextPlace(p, s).tx| == |p.tx| && |NextPlace(p, s).rx| == |p.rx|
    ensures Remaining(q, NextPlace(p, s)) == Remaining(q, p) - 1
  {
    hide Rest;
    match s {
      case Reg =>
      case Tx(l) => RestSent(q.tx, p.tx, l);
      case Rx(l) => RestSent(q.rx, p.rx, l);
    }
  }

  /** Either a beat is sent, or the counter passes a lane that has nothing to send. */
  predicate Progress(q: Queues, p: Place, a: nat, p': Place, a': nat, n: nat)
    requires |q.tx| == |p.tx| == |p'.tx| && |q.rx| == |p.rx| == |p'.rx|
  {
    || Remaining(q, p') == Remaining(q, p) - 1
    || (p' == p && p.reg == |q.reg| && a < n && !Waiting(q, p, a) && a' == NextArb(a, n))
  }

  /** One edge of a run. With everything offered and ready either a beat is sent, or the counter passes a lane that has
      nothing to send. */
  method OneEdge(m: PciTlpInbound, q: Queues, lanes: nat, c: Course, e: Edge) returns (c': Course)
    requires Going(m, q, lanes, c) && |e.tx| == |e.rx| == lanes
    modifies m
    ensures Going(m, q, lanes, c') && c'.edges == c.edges + [e]
    ensures m.r.arbCnt < lanes && old(m.r.arbCnt) < lanes
    ensures Up(e) && Complete(q) ==> Progress(q, c.p, old(m.r.arbCnt), c'.p, m.r.arbCnt, lanes)
  {
    hide LogInv, AllFair, Tallies, AnyValid, InOrder, Complete, Up, Open, InputsAt, Offer, AllEven, Offered, Placed,
      NextPlace, Remaining, Waiting, NextArb;
    var i := InputsAt(q, c.p, e);
    ghost var r, tallies := m.r, m.tallies;
    Points(r, c.log, c.sent, q, c.p, e, lanes);
    var out := if e.mReady then Opt(m.r.tx) else [];
    var ready := m.Step(i, e.mReady);
    c' := CourseAfter(c, e, ready, if ready.Some? then Offer(i, ready.value) else None, out);
    TracksNext(q, lanes, c, e, r, ready, out, tallies, m.r.arbCnt);
    InRange(m.r, m.log, m.sent, lanes);
    assert ready.None? ==> c'.log == c.log + [];
    if ready.Some? {
      Sooner(q, c.p, e, ready.value);
    }
  }

  /** What the inputs of an edge say about the queues. */
  lemma Points(r: RegType, log: seq<Entry>, sent: seq<Beat>, q: Queues, p: Place, e: Edge, lanes: nat)
    requires LogInv(r, log, sent, lanes) && InOrder(log, q, p.reg, p.tx, p.rx)
    requires |q.tx| == |q.rx| == |p.tx| == |p.rx| == |e.tx| == |e.rx| == lanes
    ensures r.arbCnt < lanes && r.chPntr < lanes && Shaped(InputsAt(q, p, e), lanes)
    ensures var i := InputsAt(q, p, e);
            Up(e) ==> e.mReady && (i.reg.None? ==> p.reg == |q.reg|)
                      && (i.tx[r.arbCnt].None? && i.rx[r.arbCnt].None? ==> !Waiting(q, p, r.arbCnt))
                      && (r.state.DmaRxS? && Complete(q) ==> i.rx[r.chPntr].Some?)
  {
    hide InOrder, Contiguous, Complete, Beats;
    Places(log, q, p);
    if r.state.DmaRxS? && Complete(q) {
      MoreToCome(log, q, p, r.chPntr);
    }
  }

  /** Any run of the arbiter. The stream to the PCIe core is an interleaving of the sources in which each keeps its
      order and every packet is in one piece; took says which source each edge served, which then had a valid beat, and
      while a receive lane waits no other begins two packets. */
  method Merge(q: Queues, edges: seq<Edge>, lanes: nat)
    returns (took: seq<Option<Source>>, log: seq<Entry>, sent: seq<Beat>, pending: Option<Beat>)
    requires |q.tx| == |q.rx| == lanes > 0 && SingleBeats(q)
    requires forall k :: 0 <= k < |edges| ==> |edges[k].tx| == |edges[k].rx| == lanes
    ensures Beats(log) == sent + Opt(pending) && Offered(q, edges, took) && Sources(log) == Chosen(took)
    ensures forall s: Source :: From(log, s) <= Queue(q, s)
    ensures Whole(log)
    ensures forall w :: 0 <= w < lanes ==> FairTo(q, edges, took, w)
  {
    hide LogInv, AllFair, SingleBeats, InOrder, Whole, Up, Remaining, Offered, FairTo, Tallied, Placed;
    var m, c;
    m, c := Follow(q, edges, lanes);
    took, log, sent, pending := c.took, c.log, c.sent, m.r.tx;
    Outcome(m.r, log, sent, lanes);
    MergedWhole(log, q, c.p.reg, c.p.tx, c.p.rx);
    Shares(log, q, c.p.reg, c.p.tx, c.p.rx);
  }

  /** A run from reset. */
  method Follow(q: Queues, edges: seq<Edge>, lanes: nat) returns (m: PciTlpInbound, c: Course)
    requires |q.tx| == |q.rx| == lanes > 0
    requires forall k :: 0 <= k < |edges| ==> |edges[k].tx| == |edges[k].rx| == lanes
    ensures fresh(m) && Going(m, q, lanes, c) && c.edges == edges
    ensures Remaining(q, c.p) <= Remaining(q, Start(lanes))
  {
    hide LogInv, AllFair, Tracks, Rest, Up, Complete;
    m := new PciTlpInbound(lanes);
    c := Course([], [], Start(lanes), [], []);
    StartTracks(q, lanes);
    assert edges[..0] == [];
    for k := 0 to |edges|
      invariant fresh(m) && Going(m, q, lanes, c) && c.edges == edges[..k]
    {
      c := OneEdge(m, q, lanes, c, edges[k]);
      assert edges[..k + 1] == edges[..k] + [edges[k]];
    }
    assert edges[..|edges|] == edges;
    Shape(q, lanes, c, m.tallies);
    NoMore(q, c.p, lanes);
  }

  lemma Shape(q: Queues, lanes: nat, c: Course, tallies: seq<seq<nat>>)
    requires Tracks(q, lanes, c, tallies)
    ensures |q.tx| == |q.rx| == |c.p.tx| == |c.p.rx| == lanes && InOrder(c.log, q, c.p.reg, c.p.tx, c.p.rx)
  {
  }

  lemma StartTracks(q: Queues, lanes: nat)
    requires |q.tx| == |q.rx| == lanes
    ensures Tracks(q, lanes, Course([], [], Start(lanes), [], []), seq(lanes, _ => NoOvertakes(lanes)))
  {
    StartInOrder(q, Start(lanes).tx, Start(lanes).rx);
  }

  function Start(lanes: nat): Place {
    Place(0, seq(lanes, _ => 0), seq(lanes, _ => 0))
  }

  lemma NoMore(q: Queues, p: Place, lanes: nat)
    requires |q.tx| == |q.rx| == |p.tx| == |p.rx| == lanes
    ensures Remaining(q, p) <= Remaining(q, Start(lanes))
  {
    RestLess(q.tx, p.tx, Start(lanes).tx);
    RestLess(q.rx, p.rx, Start(lanes).rx);
  }

  lemma {:induction false} RestLess(qs: seq<seq<Beat>>, pos: seq<nat>, start: seq<nat>)
    requires |qs| == |pos| == |start| && forall l :: 0 <= l < |qs| ==> start[l] == 0
    ensures Rest(qs, pos) <= Rest(qs, start)
  {
    if qs == [] {
    } else {
      var n := |qs| - 1;
      RestLess(qs[..n], pos[..n], start[..n]);
    }
  }

  /** However a run has gone so far, edges with everything offered and ready send all that is left: at most one edge for
      each lane and beat, and one for each lane. */
  method Deliver(q: Queues, edges: seq<Edge>, lanes: nat) returns (whole: seq<Edge>, log: seq<Entry>, out: seq<Beat>)
    requires |q.tx| == |q.rx| == lanes > 0 && SingleBeats(q) && Complete(q)
    requires forall k :: 0 <= k < |edges| ==> |edges[k].tx| == |edges[k].rx| == lanes
    ensures edges <= whole && |whole| <= |edges| + (Remaining(q, Start(lanes)) + 1) * lanes
    ensures forall k :: |edges| <= k < |whole| ==> Up(whole[k]) && |whole[k].tx| == |whole[k].rx| == lanes
    ensures out == Beats(log) && Whole(log) && forall s: Source :: From(log, s) == Queue(q, s)
  {
    hide LogInv, AllFair, SingleBeats, Tracks, InOrder, Whole, Rest, Complete, Waiting, NextArb, Beats;
    var m, c;
    m, c := Follow(q, edges, lanes);
    whole := edges;
    Shape(q, lanes, c, m.tallies);
    ghost var w: nat := Next(c.log, q, c.p, lanes);
    ghost var bound := |edges| + (Remaining(q, Start(lanes)) + 1) * lanes;
    InRange(m.r, m.log, m.sent, lanes);
    Far(m.r.arbCnt, w, lanes);
    Product(Remaining(q, c.p), Remaining(q, Start(lanes)), lanes);
    while Remaining(q, c.p) > 0
      invariant fresh(m) && Going(m, q, lanes, c) && m.r.arbCnt < lanes && w < lanes
      invariant |q.tx| == |q.rx| == |c.p.tx| == |c.p.rx| == lanes
      invariant edges <= whole && |whole| + Remaining(q, c.p) * lanes + Distance(m.r.arbCnt, w, lanes) <= bound
      invariant forall k :: |edges| <= k < |whole| ==> Up(whole[k]) && |whole[k].tx| == |whole[k].rx| == lanes
      invariant Remaining(q, c.p) == 0 || c.p.reg < |q.reg| || Waiting(q, c.p, w)
      decreases Remaining(q, c.p), Distance(m.r.arbCnt, w, lanes)
    {
      var up := Edge(true, seq(lanes, _ => true), seq(lanes, _ => true), true);
      ghost var a, n := m.r.arbCnt, Remaining(q, c.p);
      c := OneEdge(m, q, lanes, c, up);
      Shape(q, lanes, c, m.tallies);
      whole := whole + [up];
      if Remaining(q, c.p) == n - 1 {
        w := Next(c.log, q, c.p, lanes);
        Far(m.r.arbCnt, w, lanes);
        Times(n - 1, lanes);
      } else {
        Nearer(a, w, lanes);
      }
    }
    Shape(q, lanes, c, m.tallies);
    Outcome(m.r, c.log, c.sent, lanes);
    MergedWhole(c.log, q, c.p.reg, c.p.tx, c.p.rx);
    AllSent(c.log, q, c.p);
    log, out := c.log, c.sent + Opt(m.r.tx);
  }

  lemma Times(n: nat, f: nat)
    ensures (n + 1) * f == n * f + f
  {
  }

  lemma Product(a: nat, b: nat, f: nat)
    requires a <= b
    ensures a * f + f <= (b + 1) * f
  {
    assert (b + 1) * f == (b - a) * f + a * f + f;
  }

  lemma Far(a: nat, w: nat, n: nat)
    requires a < n && w < n
    ensures Distance(a, w, n) < n
  {
  }

  lemma Nearer(a: nat, w: nat, n: nat)
    requires a < n && w < n && a != w
    ensures Distance(NextArb(a, n), w, n) == Distance(a, w, n) - 1
  {
  }

  /** A lane with something to send, unless only the register block has. */
  ghost function Next(log: seq<Entry>, q: Queues, p: Place, lanes: nat): (w: nat)
    requires |q.tx| == |q.rx| == |p.tx| == |p.rx| == lanes > 0 && InOrder(log, q, p.reg, p.tx, p.rx)
    ensures w < lanes && (Remaining(q, p) == 0 || p.reg < |q.reg| || Waiting(q, p, w))
  {
    SomeWaits(log, q, p);
    if w: nat :| Waiting(q, p, w) then w else 0
  }

  lemma SomeWaits(log: seq<Entry>, q: Queues, p: Place)
    requires |q.tx| == |q.rx| == |p.tx| == |p.rx| && InOrder(log, q, p.reg, p.tx, p.rx)
    ensures Remaining(q, p) == 0 || p.reg < |q.reg| || exists w: nat :: Waiting(q, p, w)
  {
    Places(log, q, p);
    RestNone(q.tx, p.tx);
    RestNone(q.rx, p.rx);
    if Rest(q.tx, p.tx) > 0 {
      var l :| 0 <= l < |q.tx| && p.tx[l] != |q.tx[l]|;
      assert Waiting(q, p, l);
    } else if Rest(q.rx, p.rx) > 0 {
      var l :| 0 <= l < |q.rx| && p.rx[l] != |q.rx[l]|;
      assert Waiting(q, p, l);
    }
  }

  lemma AllSent(log: seq<Entry>, q: Queues, p: Place)
    requires |q.tx| == |q.rx| == |p.tx| == |p.rx| && InOrder(log, q, p.reg, p.tx, p.rx) && Remaining(q, p) == 0
    ensures forall s: Source :: From(log, s) == Queue(q, s)
  {
    Places(log, q, p);
    RestNone(q.tx, p.tx);
    RestNone(q.rx, p.rx);
    forall s: Source
      ensures From(log, s) == Queue(q, s)
    {
      assert From(log, s) == Queue(q, s)[..Pos(p.reg, p.tx, p.rx, s)];
      assert Pos(p.reg, p.tx, p.rx, s) == |Queue(q, s)|;
    }
  }

  lemma StartInOrder(q: Queues, txPos: seq<nat>, rxPos: seq<nat>)
    requires forall l :: 0 <= l < |txPos| ==> txPos[l] == 0
    requires forall l :: 0 <= l < |rxPos| ==> rxPos[l] == 0
    ensures InOrder([], q, 0, txPos, rxPos)
  {
    forall s: Source
      ensures Pos(0, txPos, rxPos, s) == 0 && From([], s) == Queue(q, s)[..0]
    {
    }
  }

  lemma Outcome(r: RegType, log: seq<Entry>, sent: seq<Beat>, n: nat)
    requires LogInv(r, log, sent, n)
    ensures Contiguous(log) && Beats(log) == sent + Opt(r.tx)
  {
  }

  lemma Shares(log: seq<Entry>, q: Queues, regPos: nat, txPos: seq<nat>, rxPos: seq<nat>)
    requires InOrder(log, q, regPos, txPos, rxPos)
    ensures forall s: Source :: From(log, s) <= Queue(q, s)
  {
    forall s: Source
      ensures From(log, s) <= Queue(q, s)
    {
      var f := From(log, s);
      assert f == Queue(q, s)[..Pos(regPos, txPos, rxPos, s)];
    }
  }
}
