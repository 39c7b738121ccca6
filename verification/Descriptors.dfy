/** One lane's free list of receive descriptors. */
module FreeList {
  import opened AxiStream

  /** The queue, the acknowledge (which is also its read strobe), the address register and the pending write. */
  datatype RegType = RegType(fifo: seq<nat>, newAck: bool, newAddr: nat, wr: seq<nat>)

  const REG_INIT := RegType([], false, 0, [])

  datatype History = History(writes: seq<nat>, grants: seq<nat>, requests: nat)

  /** Every descriptor written is granted once, in order, or still queued; the engine's request stays up until it
      sees the acknowledge, and then the address is that of the oldest descriptor. */
  predicate Inv(r: RegType, newReq: bool, h: History) {
    && h.writes == h.grants + r.fifo + r.wr
    && (r.newAck ==> newReq && r.fifo != [] && r.newAddr == r.fifo[0])
    && h.requests == |h.grants| + (if newReq then 1 else 0)
  }

  /** One cycle: the driver may write a descriptor, the engine may raise its request; seen says that the queue shows
      its oldest entry. */
  datatype Inputs = Inputs(write: Option<nat>, request: bool, seen: bool)

  /** The registers of a lane: those of the list, and the engine's request. */
  datatype State = State(r: RegType, newReq: bool)

  /** One clock edge. The acknowledge is up for one cycle; it goes with the oldest descriptor, which then leaves. */
  function Next(s: State, i: Inputs): State {
    var r := s.r;
    var shown := !r.newAck && r.fifo != [];
    State(RegType((if r.newAck && r.fifo != [] then r.fifo[1..] else r.fifo) + r.wr,
                  shown && s.newReq && i.seen,
                  if shown then r.fifo[0] else r.newAddr,
                  if i.write.Some? then [i.write.value] else []),
          !r.newAck && (s.newReq || i.request))
  }

  function After(ins: seq<Inputs>): State {
    if ins == [] then State(REG_INIT, false) else Next(After(ins[..|ins| - 1]), ins[|ins| - 1])
  }

  function Writes(ins: seq<Inputs>): seq<nat> {
    if ins == [] then []
    else Writes(ins[..|ins| - 1]) + if ins[|ins| - 1].write.Some? then [ins[|ins| - 1].write.value] else []
  }

  /** The addresses that went out with an acknowledge. */
  function Granted(ins: seq<Inputs>): seq<nat> {
    if ins == [] then []
    else
      var s := After(ins[..|ins| - 1]);
      Granted(ins[..|ins| - 1]) + if s.r.newAck then [s.r.newAddr] else []
  }

  /** The number of times the engine raised its request. */
  function Raised(ins: seq<Inputs>): nat {
    if ins == [] then 0
    else
      var n := |ins| - 1;
      Raised(ins[..n]) + if ins[n].request && !After(ins[..n]).newReq then 1 else 0
  }

  lemma Push(ins: seq<Inputs>, n: nat)
    requires n < |ins|
    ensures After(ins[..n + 1]) == Next(After(ins[..n]), ins[n])
    ensures Writes(ins[..n + 1]) == Writes(ins[..n]) + if ins[n].write.Some? then [ins[n].write.value] else []
    ensures Granted(ins[..n + 1]) == Granted(ins[..n])
            + if After(ins[..n]).r.newAck then [After(ins[..n]).r.newAddr] else []
    ensures Raised(ins[..n + 1]) == Raised(ins[..n]) + if ins[n].request && !After(ins[..n]).newReq then 1 else 0
  {
    assert ins[..n + 1][..n] == ins[..n];
  }

  class FreeLane {
    var r: RegType
    var newReq: bool                  // the engine's request, as a register
    ghost var h: History

    ghost predicate Valid()
      reads this
    {
      Inv(r, newReq, h)
    }

    constructor ()
      ensures Valid() && h == History([], [], 0) && State(r, newReq) == State(REG_INIT, false)
    {
      r, newReq, h := REG_INIT, false, History([], [], 0);
    }

    method Step(i: Inputs) returns (granted: Option<nat>)
      requires Valid()
      modifies this
      ensures Valid() && State(r, newReq) == Next(old(State(r, newReq)), i)
      ensures granted == if old(r.newAck) then Some(old(r.newAddr)) else None
      ensures h.grants == old(h.grants) + if granted.Some? then [granted.value] else []
      ensures h.writes == old(h.writes) + if i.write.Some? then [i.write.value] else []
      ensures h.requests == old(h.requests) + if i.request && !old(newReq) then 1 else 0
    {
      hide Inv;
      AckFits(r, newReq, h);
      NextInv(State(r, newReq), i, h);
      var v := r.(newAck := false, wr := if i.write.Some? then [i.write.value] else []);
      granted := if r.newAck then Some(r.newAddr) else None;
      if !r.newAck {
        if r.fifo != [] {
          v := v.(newAddr := r.fifo[0]);
        }
        if newReq && i.seen && r.fifo != [] {
          v := v.(newAck := true);
        }
      }
      v := v.(fifo := (if r.newAck then r.fifo[1..] else r.fifo) + r.wr);
      h := History(h.writes + v.wr, h.grants + (if r.newAck then [r.newAddr] else []),
                   h.requests + if i.request && !newReq then 1 else 0);
      newReq := !r.newAck && (newReq || i.request);
      r := v;
    }
  }

  /** Any run of a lane: the requests are answered one by one with the descriptors in the order they were written. */
  method Run(ins: seq<Inputs>) returns (grants: seq<nat>)
    ensures grants == Granted(ins) <= Writes(ins)
    ensures |grants| <= Raised(ins) <= |grants| + 1
    ensures Raised(ins) == |grants| <==> !After(ins).newReq
  {
    hide Next;
    var l := new FreeLane();
    grants := [];
    for k := 0 to |ins|
      invariant fresh(l) && l.Valid() && l.h == History(Writes(ins[..k]), grants, Raised(ins[..k]))
      invariant grants == Granted(ins[..k]) && State(l.r, l.newReq) == After(ins[..k])
    {
      Push(ins, k);
      var g := l.Step(ins[k]);
      grants := grants + if g.Some? then [g.value] else [];
    }
    assert ins[..|ins|] == ins;
  }

  lemma {:induction false} RunInv(ins: seq<Inputs>)
    ensures Inv(After(ins).r, After(ins).newReq, History(Writes(ins), Granted(ins), Raised(ins)))
  {
    if ins == [] {
    } else {
      hide Next, Inv;
      var n := |ins| - 1;
      RunInv(ins[..n]);
      NextInv(After(ins[..n]), ins[n], History(Writes(ins[..n]), Granted(ins[..n]), Raised(ins[..n])));
    }
  }

  lemma AckFits(r: RegType, newReq: bool, h: History)
    requires Inv(r, newReq, h)
    ensures r.newAck ==> r.fifo != []
  {
  }

  lemma NextInv(s: State, i: Inputs, h: History)
    requires Inv(s.r, s.newReq, h)
    ensures Inv(Next(s, i).r, Next(s, i).newReq,
                History(h.writes + (if i.write.Some? then [i.write.value] else []),
                        h.grants + (if s.r.newAck then [s.r.newAddr] else []),
                        h.requests + if i.request && !s.newReq then 1 else 0))
  {
    if s.r.newAck {
      assert s.r.fifo == [s.r.newAddr] + s.r.fifo[1..];
    }
  }

  /** A request is answered: while it is up and a descriptor is there, three edges at which the queue shows its oldest
      entry grant one, whatever else they do. */
  lemma Answered(ins: seq<Inputs>, a: Inputs, b: Inputs, c: Inputs)
    requires After(ins).newReq && |Granted(ins)| < |Writes(ins)| && a.seen && b.seen
    ensures Granted(ins + [a]) == Granted(ins) + [Writes(ins)[|Granted(ins)|]]
         || Granted(ins + [a, b]) == Granted(ins) + [Writes(ins)[|Granted(ins)|]]
         || Granted(ins + [a, b, c]) == Granted(ins) + [Writes(ins)[|Granted(ins)|]]
  {
    hide Writes, After, Granted, Raised, Next;
    RunInv(ins);
    Soon(After(ins), a, b);
    var one, two, three := ins + [a], ins + [a, b], ins + [a, b, c];
    Push(three, |ins|);
    Push(three, |ins| + 1);
    Push(three, |ins| + 2);
    assert three[..|ins|] == ins && three[..|ins| + 1] == one && three[..|ins| + 2] == two;
    assert three[..|ins| + 3] == three;
    var s := After(ins).r;
    assert Writes(ins) == Granted(ins) + (s.fifo + s.wr);
  }

  /** The acknowledge comes in one of the next three cycles, with the oldest descriptor. */
  lemma Soon(s: State, a: Inputs, b: Inputs)
    requires s.newReq && s.r.fifo + s.r.wr != [] && a.seen && b.seen
    requires s.r.newAck ==> s.r.fifo != [] && s.r.newAddr == s.r.fifo[0]
    ensures var d, t := (s.r.fifo + s.r.wr)[0], Next(s, a);
            var u := Next(t, b);
            || (s.r.newAck && s.r.newAddr == d)
            || (!s.r.newAck && t.r.newAck && t.r.newAddr == d)
            || (!s.r.newAck && !t.r.newAck && u.r.newAck && u.r.newAddr == d)
  {
    if s.r.fifo == [] {
      assert [] + s.r.wr == s.r.wr;
    }
  }
}

/** Polling the lanes for finished transfers: the receive descriptors (unguarded) and the transmit descriptors
    (guarded by the write strobe of the done queue). */
module DonePolling {
  import opened AxiStream
  import opened BufferPlaces

  datatype PollReg = PollReg(doneCnt: nat, doneAck: seq<bool>, wr: Option<Entry>, count: nat)

  function NoAcks(n: nat): (a: seq<bool>)
    ensures |a| == n && forall i :: 0 <= i < n ==> !a[i]
  {
    seq(n, _ => false)
  }

  function NextLane(i: nat, n: nat): (j: nat)
    requires i < n
    ensures j < n
    ensures n >= 2 ==> j != i
  {
    if i == n - 1 then 0 else i + 1
  }

  /** One cycle of the polling process. */
  function Poll(r: PollReg, reqs: seq<Option<Entry>>, almostFull: bool, countReset: bool, guarded: bool): (v: PollReg)
    requires r.doneCnt < |reqs|
    ensures v.doneCnt < |reqs|
  {
    var n := |reqs|;
    var b := r.(wr := None, doneAck := NoAcks(n));
    if countReset then b.(count := 0)
    else if !almostFull && (guarded ==> r.wr.None?) then
      var v := b.(doneCnt := NextLane(r.doneCnt, n));
      if reqs[r.doneCnt].Some? then
        v.(doneAck := b.doneAck[r.doneCnt := true], wr := reqs[r.doneCnt], count := (r.count + 1) % 0x1_0000_0000)
      else v
    else b
  }

  /** The polling process, the lanes' done requests, and what has happened so far: the reports each lane raised, the
      reports acknowledged to it, and the entries written to the done queue. */
  datatype Sys = Sys(r: PollReg, reqs: seq<Option<Entry>>, raised: seq<seq<Entry>>, acked: seq<seq<Entry>>,
                     written: seq<Entry>)

  datatype Inputs = Inputs(raise: seq<Option<Entry>>, almostFull: bool, countReset: bool)

  predicate InputsOk(i: Inputs, n: nat) {
    |i.raise| == n && forall l :: 0 <= l < n && i.raise[l].Some? ==> i.raise[l].value.lane == l
  }

  function Opt(o: Option<Entry>): (es: seq<Entry>) {
    if o.Some? then [o.value] else []
  }

  function Init(n: nat): Sys
    requires n > 0
  {
    Sys(PollReg(0, NoAcks(n), None, 0), seq(n, _ => None), seq(n, _ => []), seq(n, _ => []), [])
  }

  predicate Shaped(s: Sys, n: nat) {
    n > 0 && s.r.doneCnt < n && |s.r.doneAck| == |s.reqs| == |s.raised| == |s.acked| == n
  }

  /** A lane's done request: it falls when the lane sees the acknowledge, and may rise when it is down. */
  function NextReq(req: Option<Entry>, ack: bool, raise: Option<Entry>): Option<Entry> {
    if ack then None else if req.Some? then req else raise
  }

  function Next(s: Sys, i: Inputs, n: nat, guarded: bool): (t: Sys)
    requires Shaped(s, n) && InputsOk(i, n)
    ensures Shaped(t, n)
  {
    var v := Poll(s.r, s.reqs, i.almostFull, i.countReset, guarded);
    Sys(v,
        seq(n, l requires 0 <= l < n => NextReq(s.reqs[l], s.r.doneAck[l], i.raise[l])),
        seq(n, l requires 0 <= l < n =>
            s.raised[l] + if s.reqs[l].None? && !s.r.doneAck[l] then Opt(i.raise[l]) else []),
        seq(n, l requires 0 <= l < n => s.acked[l] + if s.r.doneAck[l] then Opt(s.reqs[l]) else []),
        s.written + Opt(v.wr))
  }

  function Run(n: nat, guarded: bool, ins: seq<Inputs>): (s: Sys)
    requires n > 0 && AllInputsOk(ins, n)
    ensures Shaped(s, n)
  {
    if ins == [] then Init(n) else Next(Run(n, guarded, ins[..|ins| - 1]), ins[|ins| - 1], n, guarded)
  }

  /** The done entries of one lane. */
  function From(es: seq<Entry>, l: nat): seq<Entry> {
    if es == [] then [] else From(es[..|es| - 1], l) + if es[|es| - 1].lane == l then [es[|es| - 1]] else []
  }

  lemma FromPush(es: seq<Entry>, o: Option<Entry>, l: nat)
    ensures From(es + Opt(o), l) == From(es, l) + if o.Some? && o.value.lane == l then Opt(o) else []
  {
    if o.Some? {
      assert (es + [o.value])[..|es|] == es;
    } else {
      assert es + Opt(o) == es;
    }
  }

  /** Each report a lane raises is acknowledged once and written once: at any time only the current one may
      be missing. */
  predicate ExactlyOnce(s: Sys, l: nat)
    requires l < |s.raised| && l < |s.acked| && l < |s.reqs| && l < |s.r.doneAck|
  {
    && s.raised[l] == s.acked[l] + Opt(s.reqs[l])
    && From(s.written, l) == s.acked[l] + if s.r.doneAck[l] then Opt(s.reqs[l]) else []
  }

  predicate LaneInv(s: Sys, l: nat, n: nat)
    requires Shaped(s, n) && l < n
  {
    && ExactlyOnce(s, l)
    && (s.reqs[l].Some? ==> s.reqs[l].value.lane == l)
    && (s.r.doneAck[l] ==> s.reqs[l].Some? && s.r.wr.Some? && s.r.doneCnt == NextLane(l, n))
  }

  /** With two lanes or more, or with the guard, a request whose acknowledge is up is not polled again. */
  lemma LaneKeeps(s: Sys, i: Inputs, l: nat, n: nat, guarded: bool)
    requires Shaped(s, n) && InputsOk(i, n) && l < n && LaneInv(s, l, n)
    requires guarded || n >= 2
    requires s.reqs[s.r.doneCnt].Some? ==> s.reqs[s.r.doneCnt].value.lane == s.r.doneCnt
    ensures LaneInv(Next(s, i, n, guarded), l, n)
  {
    hide From;
    var v := Poll(s.r, s.reqs, i.almostFull, i.countReset, guarded);
    FromPush(s.written, v.wr, l);
  }

  predicate AllInv(s: Sys, n: nat)
    requires Shaped(s, n)
  {
    forall l :: 0 <= l < n ==> LaneInv(s, l, n)
  }

  lemma {:induction false} RunKeeps(n: nat, guarded: bool, ins: seq<Inputs>)
    requires n > 0 && AllInputsOk(ins, n) && (guarded || n >= 2)
    ensures AllInv(Run(n, guarded, ins), n)
  {
    hide From, Poll;
    if ins == [] {
      InitOk(n);
    } else {
      RunKeeps(n, guarded, ins[..|ins| - 1]);
      AllKeep(Run(n, guarded, ins[..|ins| - 1]), ins[|ins| - 1], n, guarded);
    }
  }

  lemma InitOk(n: nat)
    requires n > 0
    ensures AllInv(Init(n), n)
  {
  }

  predicate AllOnce(s: Sys, n: nat)
    requires Shaped(s, n)
  {
    forall l :: 0 <= l < n ==> ExactlyOnce(s, l)
  }

  predicate AllInputsOk(ins: seq<Inputs>, n: nat) {
    forall k :: 0 <= k < |ins| ==> InputsOk(ins[k], n)
  }

  /** In every run, whatever the stalls and counter resets, each report is written exactly once; this holds exactly
      if the polling is guarded or there are two lanes or more. */
  lemma OnceExactlyIf(n: nat, guarded: bool)
    requires n > 0
    ensures guarded || n >= 2 <==>
      forall ins: seq<Inputs> {:trigger AllInputsOk(ins, n)} :: AllInputsOk(ins, n) ==> AllOnce(Run(n, guarded, ins), n)
  {
    if guarded || n >= 2 {
      forall ins: seq<Inputs> | AllInputsOk(ins, n)
        ensures AllOnce(Run(n, guarded, ins), n)
      {
        RunKeeps(n, guarded, ins);
        AllOfThem(Run(n, guarded, ins), n);
      }
    } else {
      Doubled(Entry(0, 0, 0, 0, false, false));
    }
  }

  lemma AllOfThem(s: Sys, n: nat)
    requires Shaped(s, n) && AllInv(s, n)
    ensures AllOnce(s, n)
  {
    hide From;
    forall l | 0 <= l < n
      ensures ExactlyOnce(s, l)
    {
      assert LaneInv(s, l, n);
    }
  }

  lemma RunPush(n: nat, guarded: bool, ins: seq<Inputs>, i: Inputs)
    requires n > 0 && AllInputsOk(ins, n) && InputsOk(i, n)
    ensures AllInputsOk(ins + [i], n) && Run(n, guarded, ins + [i]) == Next(Run(n, guarded, ins), i, n, guarded)
  {
    hide Next;
    assert (ins + [i])[..|ins|] == ins;
  }

  const QUIET := Inputs([None], false, false)

  /** One lane has raised a report, and in the next cycle it is polled. */
  lemma Polled(e: Entry)
    requires e.lane == 0
    ensures var ins := [Inputs([Some(e)], false, false), QUIET];
            && AllInputsOk(ins, 1)
            && var s := Run(1, false, ins);
               s.reqs == [Some(e)] && s.acked == [[]] && s.written == [e] && s.r.doneCnt == 0 && s.r.doneAck == [true]
  {
    var up := Inputs([Some(e)], false, false);
    assert Run(1, false, []) == Init(1);
    assert [] + [up] == [up] && [up] + [QUIET] == [up, QUIET];
    RunPush(1, false, [], up);
    RunPush(1, false, [up], QUIET);
    var s := Run(1, false, [up]);
    assert s.reqs == [Some(e)] && s.acked == [[]] && s.written == [] && s.r == PollReg(0, [false], None, 0);
  }

  /** With one unguarded lane a report is written twice: once more while the lane is seeing the acknowledge. */
  lemma Doubled(e: Entry)
    requires e.lane == 0
    ensures var ins := [Inputs([Some(e)], false, false), QUIET, QUIET];
            AllInputsOk(ins, 1) && !AllOnce(Run(1, false, ins), 1)
  {
    hide Run, Next, From;
    var two := [Inputs([Some(e)], false, false), QUIET];
    Polled(e);
    assert two + [QUIET] == [Inputs([Some(e)], false, false), QUIET, QUIET];
    RunPush(1, false, two, QUIET);
    PolledAgain(Run(1, false, two), e);
    BothFrom(e);
    assert !ExactlyOnce(Run(1, false, two + [QUIET]), 0);
  }

  lemma PolledAgain(s: Sys, e: Entry)
    requires Shaped(s, 1) && InputsOk(QUIET, 1) && s.reqs == [Some(e)] && s.acked == [[]] && s.written == [e]
    requires s.r.doneCnt == 0 && s.r.doneAck == [true]
    ensures var t := Next(s, QUIET, 1, false); t.reqs == [None] && t.acked == [[e]] && t.written == [e, e]
  {
    var t := Next(s, QUIET, 1, false);
    assert s.acked[0] == [] && [] + Opt(s.reqs[0]) == [e];
    assert |t.acked| == 1 && t.acked[0] == s.acked[0] + Opt(s.reqs[0]);
    assert |t.reqs| == 1 && t.reqs[0] == None;
  }

  lemma BothFrom(e: Entry)
    requires e.lane == 0
    ensures From([e, e], 0) == [e, e]
  {
    assert [e, e][..1] == [e] && [e][..0] == [];
    assert From([e], 0) == [e];
  }

  class PciDonePolling {
    const lanes: nat
    const guarded: bool
    var r: PollReg
    var reqs: seq<Option<Entry>>         // the lanes' done requests
    ghost var raised: seq<seq<Entry>>
    ghost var acked: seq<seq<Entry>>
    ghost var written: seq<Entry>

    ghost function S(): Sys
      reads this
    {
      Sys(r, reqs, raised, acked, written)
    }

    /** With the guard, or with two lanes, every report is acknowledged and written once. */
    ghost predicate Valid()
      reads this
    {
      Shaped(S(), lanes) && (guarded || lanes >= 2 ==> AllInv(S(), lanes))
    }

    constructor (lanes: nat, guarded: bool)
      requires lanes > 0
      ensures Valid() && this.lanes == lanes && this.guarded == guarded && S() == Init(lanes) && written == []
    {
      this.lanes, this.guarded := lanes, guarded;
      r := PollReg(0, NoAcks(lanes), None, 0);
      reqs, raised, acked, written := seq(lanes, _ => None), seq(lanes, _ => []), seq(lanes, _ => []), [];
      new;
      InitOk(lanes);
    }

    /** One cycle: the polling process, and the lanes' requests. */
    method Step(i: Inputs) returns (wr: Option<Entry>)
      requires Valid() && InputsOk(i, lanes)
      modifies this
      ensures Valid() && S() == Next(old(S()), i, lanes, guarded)
      ensures written == old(written) + Opt(wr)
    {
      hide AllInv;
      ghost var s := S();
      var v := r.(wr := None, doneAck := NoAcks(lanes));
      if i.countReset {
        v := v.(count := 0);
      } else if !i.almostFull && !(guarded && r.wr.Some?) {
        if reqs[r.doneCnt].Some? {
          v := v.(doneAck := v.doneAck[r.doneCnt := true], count := (r.count + 1) % 0x1_0000_0000,
                  wr := reqs[r.doneCnt]);
        }
        v := v.(doneCnt := NextLane(r.doneCnt, lanes));
      }
      wr := v.wr;
      ghost var t := Next(s, i, lanes, guarded);
      raised, acked, written := t.raised, t.acked, t.written;
      var n, before, acks := lanes, reqs, r.doneAck;
      reqs := seq(n, l requires 0 <= l < n && |before| == |acks| == |i.raise| == n =>
                  NextReq(before[l], acks[l], i.raise[l]));
      r := v;
      assert reqs == t.reqs && S() == t;
      if guarded || lanes >= 2 {
        AllKeep(s, i, lanes, guarded);
      }
    }
  }

  lemma AllKeep(s: Sys, i: Inputs, n: nat, guarded: bool)
    requires Shaped(s, n) && InputsOk(i, n) && AllInv(s, n) && (guarded || n >= 2)
    ensures AllInv(Next(s, i, n, guarded), n)
  {
    hide From, Poll;
    var t := Next(s, i, n, guarded);
    assert LaneInv(s, s.r.doneCnt, n);
    forall l | 0 <= l < n
      ensures LaneInv(t, l, n)
    {
      LaneKeeps(s, i, l, n, guarded);
    }
  }

  /** Any run of the polling process: the entries written to the done queue; those of a lane are its reports, each once,
      except perhaps the one just raised. */
  method PollAll(n: nat, guarded: bool, ins: seq<Inputs>) returns (written: seq<Entry>, reqs: seq<Option<Entry>>)
    requires n > 0 && AllInputsOk(ins, n)
    ensures |reqs| == n && written == Run(n, guarded, ins).written
    ensures guarded || n >= 2 ==> forall l :: 0 <= l < n ==>
              From(written, l) <= Run(n, guarded, ins).raised[l] <= From(written, l) + Opt(reqs[l])
  {
    hide AllInv, Next, Init, From;
    var p := new PciDonePolling(n, guarded);
    written := [];
    NoneYet(n, guarded);
    for k := 0 to |ins|
      invariant fresh(p) && p.Valid() && p.lanes == n && p.guarded == guarded
      invariant p.written == written && p.S() == Run(n, guarded, ins[..k])
    {
      assert ins[..k + 1] == ins[..k] + [ins[k]];
      RunPush(n, guarded, ins[..k], ins[k]);
      var wr := p.Step(ins[k]);
      written := written + if wr.Some? then [wr.value] else [];
    }
    assert ins[..|ins|] == ins;
    reqs := p.reqs;
    if guarded || n >= 2 {
      AllOfThem(p.S(), n);
      forall l | 0 <= l < n
        ensures From(written, l) <= p.raised[l] <= From(written, l) + Opt(reqs[l])
      {
        assert ExactlyOnce(p.S(), l);
      }
    }
  }

  /** While the done queue is almost full, or the counter is being reset, nothing is written, no lane is acknowledged,
      and the polling does not move on. */
  lemma Paused(n: nat, guarded: bool, ins: seq<Inputs>, i: Inputs)
    requires n > 0 && AllInputsOk(ins, n) && InputsOk(i, n) && (i.almostFull || i.countReset)
    ensures AllInputsOk(ins + [i], n)
    ensures var s, t := Run(n, guarded, ins), Run(n, guarded, ins + [i]);
            && t.written == s.written && t.r.doneCnt == s.r.doneCnt && t.r.wr.None?
            && forall l :: 0 <= l < n ==> !t.r.doneAck[l]
  {
    RunPush(n, guarded, ins, i);
    hide Run;
  }

  /** A cycle in which the done queue has room and the counter is not reset. */
  predicate Free(i: Inputs) {
    !i.almostFull && !i.countReset
  }

  /** How far the polling counter is from lane l. */
  function Distance(a: nat, l: nat, n: nat): nat
    requires a < n && l < n
  {
    if a <= l then l - a else l + n - a
  }

  /** The free cycles until lane l has been polled; with the guard every write costs one more. */
  function Until(s: Sys, l: nat, n: nat, guarded: bool): nat
    requires Shaped(s, n) && l < n
  {
    if guarded then 2 * Distance(s.r.doneCnt, l, n) + (if s.r.wr.Some? then 1 else 0) + 1
    else Distance(s.r.doneCnt, l, n) + 1
  }

  /** The first reports of lane l are written, or the last of them is still up and will be polled in time. */
  predicate Due(s: Sys, l: nat, n: nat, guarded: bool, reports: seq<Entry>, left: nat)
    requires Shaped(s, n) && l < n
  {
    || reports <= From(s.written, l)
    || (reports == s.raised[l] && s.reqs[l].Some? && !s.r.doneAck[l] && Until(s, l, n, guarded) <= left)
  }

  lemma DueNext(s: Sys, i: Inputs, l: nat, n: nat, guarded: bool, reports: seq<Entry>, left: nat)
    requires Shaped(s, n) && InputsOk(i, n) && l < n && AllInv(s, n) && (guarded || n >= 2) && Free(i)
    requires left > 0 && Due(s, l, n, guarded, reports, left)
    ensures Due(Next(s, i, n, guarded), l, n, guarded, reports, left - 1)
  {
    hide From;
    assert LaneInv(s, l, n) && LaneInv(s, s.r.doneCnt, n);
    FromPush(s.written, Poll(s.r, s.reqs, i.almostFull, i.countReset, guarded).wr, l);
  }

  lemma {:induction false} DueRun(n: nat, guarded: bool, ins: seq<Inputs>, more: seq<Inputs>, l: nat,
                                  reports: seq<Entry>, left: nat)
    requires n > 0 && AllInputsOk(ins + more, n) && (guarded || n >= 2) && l < n && AllInputsOk(ins, n)
    requires (forall k :: 0 <= k < |more| ==> Free(more[k])) && |more| <= left
    requires Due(Run(n, guarded, ins), l, n, guarded, reports, left)
    ensures Due(Run(n, guarded, ins + more), l, n, guarded, reports, left - |more|)
    decreases |more|
  {
    hide Due, Next, AllInv;
    if more == [] {
      assert ins + more == ins;
    } else {
      var m := |more| - 1;
      var before := ins + more[..m];
      assert ins + more == before + [more[m]];
      assert forall k :: 0 <= k < |before| ==> before[k] == (ins + more)[k];
      assert (ins + more)[|before|] == more[m];
      DueRun(n, guarded, ins, more[..m], l, reports, left);
      RunKeeps(n, guarded, before);
      RunPush(n, guarded, before, more[m]);
      DueNext(Run(n, guarded, before), more[m], l, n, guarded, reports, left - m);
    }
  }

  /** Every report is written in time: n free cycles after it has been raised, or 2n with the guard. */
  lemma InTime(n: nat, guarded: bool, ins: seq<Inputs>, more: seq<Inputs>, l: nat)
    requires n > 0 && AllInputsOk(ins + more, n) && (guarded || n >= 2) && l < n && AllInputsOk(ins, n)
    requires (forall k :: 0 <= k < |more| ==> Free(more[k])) && |more| == (if guarded then 2 * n else n)
    ensures Run(n, guarded, ins).raised[l] <= From(Run(n, guarded, ins + more).written, l)
  {
    hide From, Next, Run, AllInv, Due, Until;
    RunKeeps(n, guarded, ins);
    DueFirst(Run(n, guarded, ins), l, n, guarded);
    DueRun(n, guarded, ins, more, l, Run(n, guarded, ins).raised[l], |more|);
    DueLast(Run(n, guarded, ins + more), l, n, guarded, Run(n, guarded, ins).raised[l]);
  }

  lemma DueFirst(s: Sys, l: nat, n: nat, guarded: bool)
    requires Shaped(s, n) && l < n && AllInv(s, n)
    ensures Due(s, l, n, guarded, s.raised[l], if guarded then 2 * n else n)
  {
    hide From;
    assert LaneInv(s, l, n);
  }

  lemma DueLast(s: Sys, l: nat, n: nat, guarded: bool, reports: seq<Entry>)
    requires Shaped(s, n) && l < n && Due(s, l, n, guarded, reports, 0)
    ensures reports <= From(s.written, l)
  {
  }

  lemma NoneYet(n: nat, guarded: bool)
    requires n > 0
    ensures Run(n, guarded, []) == Init(n)
  {
  }
}

/** Reading the done queue of the receive descriptors in two register reads. */
module DoneReads {
  import opened AxiStream
  import opened BufferPlaces
  import D = DriverRx

  /** One cycle: an entry may arrive, shows says that the queue shows its oldest entry, and the driver may read the
      low or the high word. */
  datatype Access = NoRead | Low | High

  datatype Inputs = Inputs(wr: Option<Entry>, shows: bool, access: Access)

  /** The queue, its read strobe, the word kept for the high read, and the read data register. */
  datatype RegType = RegType(queue: seq<Entry>, rd: bool, descData: nat, data: nat)

  /** What the driver got: the last low word, and the pairs whose high word had the valid bit. */
  datatype History = History(writes: seq<Entry>, low: nat, pairs: seq<(nat, nat)>)

  datatype Sys = Sys(r: RegType, h: History)

  const INIT := Sys(RegType([], false, 0, 0), History([], 0, []))

  function Opt(o: Option<Entry>): (es: seq<Entry>) {
    if o.Some? then [o.value] else []
  }

  predicate EntriesOk(es: seq<Entry>) {
    forall k :: 0 <= k < |es| ==> D.EntryOk(es[k])
  }

  /** The register read process. */
  function Read(r: RegType, i: Inputs): RegType {
    var v := r.(rd := false, queue := (if r.rd && r.queue != [] then r.queue[1..] else r.queue) + Opt(i.wr));
    match i.access
    case NoRead => v
    case Low =>
      if r.queue != [] && i.shows then v.(data := D.DescA(r.queue[0]), descData := D.DescB(r.queue[0]))
      else v.(data := 0, descData := 0)
    case High =>
      var w := v.(data := r.descData);
      if Odd(r.descData) then w.(descData := r.descData - 1, rd := true) else w
  }

  function Next(s: Sys, i: Inputs): Sys {
    var v := Read(s.r, i);
    Sys(v, History(s.h.writes + Opt(i.wr),
                   if i.access.Low? then v.data else s.h.low,
                   s.h.pairs + if i.access.High? && Odd(v.data) then [(s.h.low, v.data)] else []))
  }

  function Run(ins: seq<Inputs>): Sys {
    if ins == [] then INIT else Next(Run(ins[..|ins| - 1]), ins[|ins| - 1])
  }

  function Words(e: Entry): (nat, nat) {
    (D.DescA(e), D.DescB(e))
  }

  /** The pairs delivered are the two words of the entries written, each once and in order. */
  predicate Faithful(h: History) {
    |h.pairs| <= |h.writes| && forall k :: 0 <= k < |h.pairs| ==> h.pairs[k] == Words(h.writes[k])
  }

  /** What is left of the queue once the pending read strobe has taken effect. */
  function Rest(r: RegType): seq<Entry> {
    if r.rd && r.queue != [] then r.queue[1..] else r.queue
  }

  predicate Inv(s: Sys) {
    && Faithful(s.h) && EntriesOk(s.h.writes)
    && Rest(s.r) == s.h.writes[|s.h.pairs|..] && (s.r.rd ==> s.r.queue != [])
    && (Odd(s.r.descData) ==> !s.r.rd && s.r.queue != [] && (s.h.low, s.r.descData) == Words(s.r.queue[0]))
  }

  /** A low read at least gap cycles after the last high read before it. */
  predicate Spaced(ins: seq<Inputs>, gap: nat) {
    forall k, j :: 0 <= k < j < |ins| && ins[k].access.High? && ins[j].access.Low? ==> j >= k + gap
  }

  predicate WritesOk(ins: seq<Inputs>) {
    forall k :: 0 <= k < |ins| && ins[k].wr.Some? ==> D.EntryOk(ins[k].wr.value)
  }

  lemma BitZero(e: Entry)
    requires D.EntryOk(e)
    ensures Odd(D.DescB(e)) && !Odd(D.DescB(e) - 1)
  {
    var a := e.addr;
    assert a % 4 == 0 && D.DescB(e) == a + 1;
    hide D.DescA, D.EntryOk, D.DescB;
    OddNext(a);
  }

  lemma OddNext(a: nat)
    requires a % 4 == 0
    ensures Odd(a + 1) && !Odd(a)
  {
    LowBits(a);
    Even(a);
  }

  lemma Even(a: nat)
    requires a % 4 == 0
    ensures a % 2 == 0
  {
    var p, q, r := a / 4, a / 2, a % 2;
    assert a == 4 * p && a == 2 * q + r;
    assert r == 2 * (2 * p - q);
  }

  lemma QuietKeeps(s: Sys, i: Inputs)
    requires Inv(s) && (i.wr.Some? ==> D.EntryOk(i.wr.value)) && i.access.NoRead?
    ensures Inv(Next(s, i))
  {
    hide D.DescA, D.DescB, Odd, D.EntryOk;
    Behind(s, i);
  }

  lemma LowKeeps(s: Sys, i: Inputs)
    requires Inv(s) && (i.wr.Some? ==> D.EntryOk(i.wr.value)) && i.access.Low? && !s.r.rd
    ensures Inv(Next(s, i))
  {
    hide D.DescA, D.DescB, Odd, D.EntryOk;
    Behind(s, i);
  }

  lemma HighKeeps(s: Sys, i: Inputs)
    requires Inv(s) && (i.wr.Some? ==> D.EntryOk(i.wr.value)) && i.access.High?
    ensures Inv(Next(s, i))
  {
    hide D.DescA, D.DescB, Odd, D.EntryOk;
    var n := |s.h.pairs|;
    Behind(s, i);
    if Odd(s.r.descData) {
      assert s.r.queue[0] == s.h.writes[n];
      BitZero(s.r.queue[0]);
      var ws := s.h.writes + Opt(i.wr);
      assert ws[n + 1..] == s.h.writes[n + 1..] + Opt(i.wr);
      assert s.h.writes[n + 1..] == s.h.writes[n..][1..];
    }
  }

  /** The queue after a cycle, against the writes. */
  lemma Behind(s: Sys, i: Inputs)
    requires Inv(s)
    ensures Read(s.r, i).queue == (s.h.writes + Opt(i.wr))[|s.h.pairs|..]
  {
    hide D.DescA, D.DescB, Odd, D.EntryOk, Words;
    var n := |s.h.pairs|;
    assert (s.h.writes + Opt(i.wr))[n..] == s.h.writes[n..] + Opt(i.wr);
  }

  lemma NextKeeps(s: Sys, i: Inputs)
    requires Inv(s) && (i.wr.Some? ==> D.EntryOk(i.wr.value)) && !(s.r.rd && i.access.Low?)
    ensures Inv(Next(s, i))
  {
    hide Inv, Next, D.EntryOk;
    match i.access {
      case NoRead => QuietKeeps(s, i);
      case Low => LowKeeps(s, i);
      case High => HighKeeps(s, i);
    }
  }

  lemma Strobed(ins: seq<Inputs>)
    ensures Run(ins).r.rd ==> ins != [] && ins[|ins| - 1].access.High?
  {
  }

  lemma {:induction false} RunKeeps(ins: seq<Inputs>, gap: nat)
    requires Spaced(ins, gap) && WritesOk(ins) && gap >= 2
    ensures Inv(Run(ins))
  {
    if ins == [] {
      var none: seq<Entry> := [];
      assert none[0..] == [];
    } else {
      var m := |ins| - 1;
      RunKeeps(ins[..m], gap);
      Strobed(ins[..m]);
      hide Inv, Next;
      assert Run(ins[..m]).r.rd ==> ins[m - 1].access.High?;
      NextKeeps(Run(ins[..m]), ins[m]);
    }
  }

  /** The driver gets every entry once and in order, both words from the same entry, in all runs whose low reads keep a
      distance of gap cycles from the high read before, exactly if the distance is at least two. */
  lemma SpacingNeeded(gap: nat)
    ensures gap >= 2 <==>
      forall ins: seq<Inputs> {:trigger Spaced(ins, gap)} :: Spaced(ins, gap) && WritesOk(ins) ==> Faithful(Run(ins).h)
  {
    if gap >= 2 {
      forall ins: seq<Inputs> | Spaced(ins, gap) && WritesOk(ins)
        ensures Faithful(Run(ins).h)
      {
        RunKeeps(ins, gap);
      }
    } else {
      var e := Entry(0, 0, 0, 0, false, false);
      var ins := Hasty(e);
      assert Spaced(ins, gap) && WritesOk(ins);
      ReadTwice(e);
    }
  }

  /** A low read in the very next cycle after a high read. */
  function Hasty(e: Entry): seq<Inputs> {
    [Inputs(Some(e), true, NoRead)] + [Inputs(None, true, Low)] + [Inputs(None, true, High)] + [Inputs(None, true, Low)]
    + [Inputs(None, true, High)]
  }

  lemma RunPush(ins: seq<Inputs>, i: Inputs)
    ensures Run(ins + [i]) == Next(Run(ins), i)
  {
    assert (ins + [i])[..|ins|] == ins;
  }

  /** The states it goes through. */
  lemma HastyStates(e: Entry, a: nat, b: nat)
    requires a == D.DescA(e) && b == D.DescB(e) && Odd(b) && !Odd(b - 1)
    ensures Next(INIT, Inputs(Some(e), true, NoRead)) == Sys(RegType([e], false, 0, 0), History([e], 0, []))
    ensures Next(Sys(RegType([e], false, 0, 0), History([e], 0, [])), Inputs(None, true, Low))
            == Sys(RegType([e], false, b, a), History([e], a, []))
    ensures Next(Sys(RegType([e], false, b, a), History([e], a, [])), Inputs(None, true, High))
            == Sys(RegType([e], true, b - 1, b), History([e], a, [(a, b)]))
    ensures Next(Sys(RegType([e], true, b - 1, b), History([e], a, [(a, b)])), Inputs(None, true, Low))
            == Sys(RegType([], false, b, a), History([e], a, [(a, b)]))
    ensures Next(Sys(RegType([], false, b, a), History([e], a, [(a, b)])), Inputs(None, true, High)).h
            == History([e], a, [(a, b), (a, b)])
  {
    hide D.DescA, D.DescB, Odd;
    assert [e][1..] == [];
  }

  /** It delivers the entry a second time. */
  lemma ReadTwice(e: Entry)
    requires D.EntryOk(e)
    ensures Run(Hasty(e)).h.writes == [e] && Run(Hasty(e)).h.pairs == [Words(e), Words(e)]
  {
    hide D.DescA, D.DescB, Odd, D.EntryOk, Run, Next;
    BitZero(e);
    HastyStates(e, D.DescA(e), D.DescB(e));
    var low, high := Inputs(None, true, Low), Inputs(None, true, High);
    var h1 := [Inputs(Some(e), true, NoRead)];
    RunStart(h1[0]);
    RunPush(h1, low);
    RunPush(h1 + [low], high);
    RunPush(h1 + [low] + [high], low);
    RunPush(h1 + [low] + [high] + [low], high);
  }

  lemma RunStart(i: Inputs)
    ensures Run([i]) == Next(INIT, i)
  {
    assert [i][..0] == [];
  }

  class PciRxDescRead {
    var r: RegType
    ghost var h: History

    ghost predicate Valid()
      reads this
    {
      Inv(Sys(r, h))
    }

    constructor ()
      ensures Valid() && Sys(r, h) == INIT
    {
      r, h := INIT.r, INIT.h;
    }

    /** One cycle. A low read is answered from the oldest entry, a high read with the word kept for it. */
    method Step(i: Inputs) returns (data: nat)
      requires Valid() && (i.wr.Some? ==> D.EntryOk(i.wr.value)) && !(r.rd && i.access.Low?)
      modifies this
      ensures Valid() && Sys(r, h) == Next(old(Sys(r, h)), i) && data == r.data
    {
      hide D.EntryOk, Inv, D.DescA, D.DescB, Odd;
      ghost var s := Sys(r, h);
      NextKeeps(s, i);
      var v := r.(rd := false);
      match i.access {
        case NoRead =>
        case Low =>
          if r.queue != [] && i.shows {
            v := v.(data := D.DescA(r.queue[0]), descData := D.DescB(r.queue[0]));
          } else {
            v := v.(data := 0, descData := 0);
          }
        case High =>
          v := v.(data := r.descData);
          if Odd(r.descData) {
            v := v.(descData := r.descData - 1, rd := true);
          }
      }
      var q := if r.rd && r.queue != [] then r.queue[1..] else r.queue;
      r := v.(queue := q + Opt(i.wr));
      h := Next(s, i).h;
      data := r.data;
    }
  }

  /** The entries written to the queue. */
  function Written(ins: seq<Inputs>): seq<Entry> {
    if ins == [] then [] else Written(ins[..|ins| - 1]) + Opt(ins[|ins| - 1].wr)
  }

  lemma {:induction false} WritesOf(ins: seq<Inputs>)
    ensures Run(ins).h.writes == Written(ins)
  {
    hide Read;
    if ins == [] {
    } else {
      WritesOf(ins[..|ins| - 1]);
    }
  }

  /** The driver's reads over any run whose low reads keep their distance: a low word, then a high word with the valid
      bit, make a pair. The pairs are the words of the first entries written, each once and in order. */
  method ReadAll(ins: seq<Inputs>) returns (pairs: seq<(nat, nat)>)
    requires Spaced(ins, 2) && WritesOk(ins)
    ensures pairs == Run(ins).h.pairs
    ensures |pairs| <= |Written(ins)| && forall k :: 0 <= k < |pairs| ==> pairs[k] == Words(Written(ins)[k])
  {
    hide D.EntryOk, Inv, Odd, Read, Words;
    var p := new PciRxDescRead();
    var low := 0;
    pairs := [];
    for k := 0 to |ins|
      invariant fresh(p) && p.Valid() && Sys(p.r, p.h) == Run(ins[..k])
      invariant p.h.low == low && p.h.pairs == pairs
    {
      assert ins[..k + 1] == ins[..k] + [ins[k]];
      RunPush(ins[..k], ins[k]);
      Strobed(ins[..k]);
      var data := p.Step(ins[k]);
      if ins[k].access.Low? {
        low := data;
      } else if ins[k].access.High? && Odd(data) {
        pairs := pairs + [(low, data)];
      }
    }
    assert ins[..|ins|] == ins;
    WritesOf(ins);
    assert Faithful(p.h) by { InvFaithful(Sys(p.r, p.h)); }
  }

  /** Reading the low word, and after any number of cycles the high word, of a visible entry delivers it. */
  lemma Delivers(ins: seq<Inputs>, low: Inputs, quiet: seq<Inputs>, high: Inputs)
    requires var all := ins + [low] + quiet + [high]; Spaced(all, 2) && WritesOk(all)
    requires low.access.Low? && low.shows && high.access.High?
    requires forall k :: 0 <= k < |quiet| ==> quiet[k].access.NoRead?
    requires |Run(ins).h.pairs| < |Written(ins)|
    ensures var s := Run(ins).h;
            Run(ins + [low] + quiet + [high]).h.pairs == s.pairs + [Words(Written(ins)[|s.pairs|])]
  {
    hide Inv, Next, Words, D.EntryOk;
    var all := ins + [low] + quiet + [high];
    assert forall k :: 0 <= k < |ins| ==> ins[k] == all[k];
    assert all[|ins|] == low;
    RunKeeps(ins, 2);
    Strobed(ins);
    WritesOf(ins);
    RunPush(ins, low);
    Taken(Run(ins), low);
    Held(ins + [low], quiet, Written(ins)[|Run(ins).h.pairs|], Run(ins).h.pairs);
    RunPush(ins + [low] + quiet, high);
    Given(Run(ins + [low] + quiet), high, Written(ins)[|Run(ins).h.pairs|]);
  }

  /** The words of entry e are held: the low one by the driver, the high one by the card. */
  predicate Holds(s: Sys, e: Entry, pairs: seq<(nat, nat)>) {
    (s.h.low, s.r.descData) == Words(e) && Odd(s.r.descData) && s.h.pairs == pairs
  }

  lemma Taken(s: Sys, low: Inputs)
    requires Inv(s) && !s.r.rd && low.access.Low? && low.shows && |s.h.pairs| < |s.h.writes|
    ensures Holds(Next(s, low), s.h.writes[|s.h.pairs|], s.h.pairs)
  {
    hide D.DescA, D.DescB, Odd, D.EntryOk;
    BitZero(s.h.writes[|s.h.pairs|]);
  }

  lemma {:induction false} Held(ins: seq<Inputs>, quiet: seq<Inputs>, e: Entry, pairs: seq<(nat, nat)>)
    requires Holds(Run(ins), e, pairs) && forall k :: 0 <= k < |quiet| ==> quiet[k].access.NoRead?
    ensures Holds(Run(ins + quiet), e, pairs)
    decreases |quiet|
  {
    hide D.DescA, D.DescB, Odd, Run;
    if quiet == [] {
      assert ins + quiet == ins;
    } else {
      var m := |quiet| - 1;
      Held(ins, quiet[..m], e, pairs);
      assert ins + quiet == (ins + quiet[..m]) + [quiet[m]];
      RunPush(ins + quiet[..m], quiet[m]);
    }
  }

  lemma Given(s: Sys, high: Inputs, e: Entry)
    requires Holds(s, e, s.h.pairs) && high.access.High?
    ensures Next(s, high).h.pairs == s.h.pairs + [Words(e)]
  {
    hide D.DescA, D.DescB, Odd;
  }

  lemma InvFaithful(s: Sys)
    requires Inv(s)
    ensures Faithful(s.h)
  {
  }
}

/** From the receive engine's report to the driver's record. */
module RxReports {
  import opened AxiStream
  import opened BufferPlaces
  import opened RxFrames
  import D = DriverRx
  import E = RxDma

  /** The done entry of a report; the driver's addresses are in bytes. */
  function EntryOf(d: E.Done): Entry {
    Entry(d.addr * 4, d.channel, d.subId, d.length, d.eofe, d.lengthErr)
  }

  /** The status byte of the engine, above the length; bit 5 is the continue flag, which is off. */
  function Status(d: E.Done): nat {
    D.Flag(d.lengthErr) * 128 + D.Flag(d.eofe) * 64 + d.channel * 4 + d.subId
  }

  /** The first done word the driver reads is the engine's status and length. */
  lemma StatusWord(d: E.Done)
    ensures D.DescA(EntryOf(d)) == Status(d) * 0x100_0000 + d.length
  {
  }

  /** For a frame of the engine the driver records its buffer, lane, virtual channel, length, damage, and (in the field
      it calls fifoError) whether the frame reached the length bound. */
  lemma Delivered(f: Frame, base: nat, cut: bool, lane: nat, b: D.RxBuffer)
    requires 0 < |f| < E.LENGTH_SPACE && lane < D.LANES && base < ADDR_SPACE && b.dma == base * 4
    ensures var e := EntryOf(E.Report(f, base, cut, lane));
            var r := D.Filled(b, D.DescA(e), D.DescB(e));
            && r.lane == lane && r.vc == f[0].dest % 4 && r.length == |f| && r.dma == base * 4
            && (r.eofe == 1 <==> Damaged(f)) && (r.fifoError == 1 <==> cut) && r.lengthError == 0
  {
    hide Damaged, D.DescA, D.Filled;
    D.FilledRecords(b, EntryOf(E.Report(f, base, cut, lane)));
  }
}
