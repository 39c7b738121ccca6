/** Packets on the 128-bit receive bus: as the PCIe core delivers them, and as the card passes them on. */
module TlpBeats {
  import opened AxiStream

  /** A transaction layer packet: its 32-bit words, header first. */
  type Packet = seq<Dw>

  /** A beat of the core. first: a packet starts in this beat, at byte sof (0 or 8); last: a packet ends in it, at
      byte eof (3, 7, 11 or 15). */
  datatype CoreBeat = CoreBeat(data: Lanes, first: bool, sof: nat, last: bool, eof: nat)

  /** Kept words of a beat, lowest first. */
  datatype Keep = Keep(k0: bool, k1: bool, k2: bool, k3: bool)

  const KEEP_ALL := Keep(true, true, true, true)

  /** A beat inside the card. */
  datatype Beat = Beat(data: Lanes, keep: Keep, sof: bool, last: bool)

  /** The front end derives the kept words from the end position. */
  function KeepOf(c: CoreBeat): Keep {
    if !c.last then KEEP_ALL
    else if c.eof == 11 then Keep(true, true, true, false)
    else if c.eof == 7 then Keep(true, true, false, false)
    else if c.eof == 3 then Keep(true, false, false, false)
    else KEEP_ALL
  }

  function Words(b: Beat): (ws: seq<Dw>)
    ensures |ws| <= 4
  {
    (if b.keep.k0 then [b.data[0]] else []) + (if b.keep.k1 then [b.data[1]] else [])
    + (if b.keep.k2 then [b.data[2]] else []) + (if b.keep.k3 then [b.data[3]] else [])
  }

  /** Complete packets, and the one in progress. */
  datatype Asm = Asm(done: seq<Packet>, cur: Option<Packet>)

  const ASM_INIT := Asm([], None)

  function Put(a: Asm, p: Packet, last: bool): Asm {
    if last then Asm(a.done + [p], None) else Asm(a.done, Some(p))
  }

  /** A straddling start. */
  predicate High(c: CoreBeat) {
    c.first && c.sof != 0
  }

  /** The words of the packet that a core beat continues, or starts at word 0. */
  function Low(c: CoreBeat): seq<Dw> {
    if !c.last then c.data
    else if c.eof == 3 then c.data[..1]
    else if c.eof == 7 then c.data[..2]
    else if c.eof == 11 then c.data[..3]
    else c.data
  }

  function CoreNext(a: Asm, c: CoreBeat): Asm {
    var a' := if a.cur.Some? then Put(a, a.cur.value + Low(c), c.last)
              else if c.first && c.sof == 0 then Put(a, Low(c), c.last)
              else a;
    if High(c) then Asm(a'.done, Some(c.data[2..])) else a'
  }

  /** What the core may deliver: packets of three words or more, starting at word 0 or 2, without gaps. */
  predicate Legal(a: Asm, c: CoreBeat) {
    && (c.sof == 0 || c.sof == 8) && c.eof in {3, 7, 11, 15}
    && if a.cur.Some? then
         (c.first ==> c.sof == 8 && c.last && c.eof <= 7)
       else
         c.first && (if c.sof == 0 then c.last ==> c.eof >= 11 else !c.last)
  }

  predicate Carried(a: Asm, c: CoreBeat, a': Asm) {
    Legal(a, c) && CoreNext(a, c) == a'
  }

  /** What a legal beat can do: carry on or end the packet in progress with any number of words, the start of the next
      one behind its last one or two words; between packets, start one at word 0 or 2, or be one of three or four
      words. */
  lemma Carries(a: Asm, d: Lanes, n: nat)
    requires 1 <= n <= 4
    ensures a.cur.Some? ==>
              && Carried(a, CoreBeat(d, false, 0, false, 15), Asm(a.done, Some(a.cur.value + d)))
              && Carried(a, CoreBeat(d, false, 0, true, 4 * n - 1), Asm(a.done + [a.cur.value + d[..n]], None))
              && (n <= 2 ==> Carried(a, CoreBeat(d, true, 8, true, 4 * n - 1),
                                     Asm(a.done + [a.cur.value + d[..n]], Some(d[2..]))))
    ensures a.cur.None? ==>
              && Carried(a, CoreBeat(d, true, 0, false, 15), Asm(a.done, Some(d)))
              && Carried(a, CoreBeat(d, true, 8, false, 15), Asm(a.done, Some(d[2..])))
              && (n >= 3 ==> Carried(a, CoreBeat(d, true, 0, true, 4 * n - 1), Asm(a.done + [d[..n]], None)))
  {
    assert d[..4] == d;
  }

  /** Inside the card a marked beat starts a packet, and an unmarked one outside a packet means nothing. */
  function Next(a: Asm, b: Beat): Asm {
    if b.sof then Put(a, Words(b), b.last)
    else if a.cur.Some? then Put(a, a.cur.value + Words(b), b.last)
    else a
  }

  /** Kept words are the lowest ones, all four unless the packet ends, and a first beat holds the header. */
  predicate BeatOk(b: Beat) {
    var k := b.keep;
    && k.k0 && (k.k2 ==> k.k1) && (k.k3 ==> k.k2)
    && (!b.last ==> k == KEEP_ALL)
    && (b.sof ==> k.k2)
  }

  function CoreAll(cs: seq<CoreBeat>): Asm {
    if cs == [] then ASM_INIT else CoreNext(CoreAll(cs[..|cs| - 1]), cs[|cs| - 1])
  }

  ghost predicate AllLegal(cs: seq<CoreBeat>) {
    cs != [] ==> AllLegal(cs[..|cs| - 1]) && Legal(CoreAll(cs[..|cs| - 1]), cs[|cs| - 1])
  }

  function All(bs: seq<Beat>): Asm {
    if bs == [] then ASM_INIT else Next(All(bs[..|bs| - 1]), bs[|bs| - 1])
  }

  /** No packet is cut off by the start of another, and every beat is well formed. */
  ghost predicate AllOk(bs: seq<Beat>) {
    bs != [] ==>
      var n := |bs| - 1;
      AllOk(bs[..n]) && BeatOk(bs[n]) && (bs[n].sof ==> All(bs[..n]).cur.None?)
  }

  lemma CorePush(cs: seq<CoreBeat>, c: CoreBeat)
    ensures CoreAll(cs + [c]) == CoreNext(CoreAll(cs), c)
    ensures AllLegal(cs + [c]) <==> AllLegal(cs) && Legal(CoreAll(cs), c)
  {
    assert (cs + [c])[..|cs|] == cs;
  }

  lemma AllPush(bs: seq<Beat>, b: Beat)
    ensures All(bs + [b]) == Next(All(bs), b)
    ensures AllOk(bs + [b]) <==> AllOk(bs) && BeatOk(b) && (b.sof ==> All(bs).cur.None?)
  {
    assert (bs + [b])[..|bs|] == bs;
  }
}

/** The realigner of the receive interface: every packet leaves it starting at word 0. */
module Realigner {
  import opened AxiStream
  import opened TlpBeats

  datatype StateType = Sof00S | Sof10S | Eof10S

  datatype RegType = RegType(tx: Option<Beat>, master: Beat, state: StateType)

  const NO_BEAT := Beat([ZERO_DW, ZERO_DW, ZERO_DW, ZERO_DW], KEEP_ALL, false, false)

  const REG_INIT := RegType(None, NO_BEAT, Sof00S)

  function AsBeat(c: CoreBeat): Beat {
    Beat(c.data, KeepOf(c), c.first, c.last)
  }

  /** The saved beat of a straddling start: nothing of it has ended yet. */
  function Reopened(c: CoreBeat): Beat {
    AsBeat(c).(last := false, keep := KEEP_ALL)
  }

  /** The upper half of the saved beat below the lower half of the new one. */
  function Joined(m: Beat, b: Beat): Beat {
    Beat([m.data[2], m.data[3], b.data[0], b.data[1]], Keep(m.keep.k2, m.keep.k3, b.keep.k0, b.keep.k1), m.sof, m.last)
  }

  /** The upper half of the saved beat alone. */
  function Rest(m: Beat): Beat {
    Beat([m.data[2], m.data[3], ZERO_DW, ZERO_DW], Keep(m.keep.k2, m.keep.k3, false, false), m.sof, true)
  }

  function Straight(v: RegType, c: CoreBeat): RegType {
    var b := AsBeat(c);
    if High(c) then RegType(Some(b.(last := true, sof := false)), Reopened(c), Sof10S)
    else RegType(Some(b), b, Sof00S)
  }

  function Shifted(v: RegType, c: CoreBeat): RegType {
    var b := Joined(v.master, AsBeat(c));
    if High(c) then RegType(Some(b.(last := true)), Reopened(c), Sof10S)
    else if c.last then
      if c.eof >= 8 then RegType(Some(b), AsBeat(c), Eof10S)
      else RegType(Some(b.(last := true)), AsBeat(c), Sof00S)
    else RegType(Some(b), AsBeat(c), Sof10S)
  }

  /** The words received are those passed on and those in the saved half beat. */
  ghost predicate Rel(state: StateType, m: Beat, i: Asm, o: Asm) {
    match state
    case Sof00S => o == i
    case Sof10S =>
      && i.cur.Some? && o.done == i.done && o.cur.Some? == !m.sof
      && !m.last && m.keep == KEEP_ALL
      && i.cur.value == (if o.cur.Some? then o.cur.value else []) + m.data[2..]
    case Eof10S =>
      && i.cur.None? && o.cur.Some? && !m.sof && BeatOk(m) && m.keep.k2
      && i.done == o.done + [o.cur.value + Words(Rest(m))]
  }

  lemma StraightKeeps(r: RegType, i: Asm, o: Asm, c: CoreBeat)
    requires Rel(r.state, r.master, i, o) && Legal(i, c) && r.state.Sof00S?
    ensures var u := Straight(r, c);
            Rel(u.state, u.master, CoreNext(i, c), Next(o, u.tx.value))
            && BeatOk(u.tx.value) && (u.tx.value.sof ==> o.cur.None?)
  {
    var b := Straight(r, c).tx.value;
    assert Words(b) == Low(c);
  }

  /** The words of a joined beat: the saved upper half, then the lower half of the new beat up to its end. */
  lemma JoinedWords(m: Beat, c: CoreBeat)
    requires m.keep == KEEP_ALL && c.eof in {3, 7, 11, 15}
    ensures Words(Joined(m, AsBeat(c))) == m.data[2..] + (if c.last && c.eof == 3 then c.data[..1] else c.data[..2])
  {
  }

  /** A packet ends in the upper half: two beats are needed for its last words. */
  lemma EndsHigh(m: Beat, i: Asm, o: Asm, c: CoreBeat)
    requires Rel(Sof10S, m, i, o) && Legal(i, c) && c.last && c.eof >= 8
    ensures var b := Joined(m, AsBeat(c)); Rel(Eof10S, AsBeat(c), CoreNext(i, c), Next(o, b)) && BeatOk(b)
  {
    hide Words, Joined, Rest;
    var before := if o.cur.Some? then o.cur.value else [];
    var half := m.data[2..];
    JoinedWords(m, c);
    RestWords(c);
    assert Low(c) == c.data[..2] + Low(c)[2..];
    assert (before + half) + Low(c) == (before + (half + c.data[..2])) + Low(c)[2..];
    JoinedOk(m, c);
    assert AsBeat(c) == AsBeat(c).(sof := false);
    assert before + (half + c.data[..2]) == (if o.cur.Some? then o.cur.value else []) + (half + c.data[..2]);
    assert Next(o, Joined(m, AsBeat(c))).cur.value == before + (half + c.data[..2]);
  }

  lemma RestWords(c: CoreBeat)
    requires c.last && (c.eof == 11 || c.eof == 15)
    ensures Words(Rest(AsBeat(c))) == Low(c)[2..] && BeatOk(AsBeat(c).(sof := false)) && AsBeat(c).keep.k2
  {
  }

  lemma JoinedOk(m: Beat, c: CoreBeat)
    requires m.keep == KEEP_ALL && !m.last && c.eof in {3, 7, 11, 15}
    ensures BeatOk(Joined(m, AsBeat(c)).(last := true)) && (!c.last || c.eof >= 7 ==> BeatOk(Joined(m, AsBeat(c))))
    ensures Joined(m, AsBeat(c)).sof == m.sof && !Joined(m, AsBeat(c)).last
  {
  }

  /** A packet ends in the lower half; another may start in the upper half. */
  lemma EndsLow(m: Beat, i: Asm, o: Asm, c: CoreBeat)
    requires Rel(Sof10S, m, i, o) && Legal(i, c) && c.last && c.eof < 8
    ensures var b := Joined(m, AsBeat(c)).(last := true);
            && Rel(if High(c) then Sof10S else Sof00S, if High(c) then Reopened(c) else AsBeat(c),
                   CoreNext(i, c), Next(o, b))
            && BeatOk(b)
  {
    hide Words, Joined, BeatOk;
    var before := if o.cur.Some? then o.cur.value else [];
    JoinedWords(m, c);
    JoinedOk(m, c);
    var b := Joined(m, AsBeat(c)).(last := true);
    LastWords(Joined(m, AsBeat(c)));
    assert Words(b) == m.data[2..] + Low(c);
    assert b.sof == o.cur.None? && b.last;
    assert b.sof ==> before + Words(b) == Words(b);
    assert Next(o, b) == Asm(o.done + [before + Words(b)], None);
    assert (before + m.data[2..]) + Low(c) == before + (m.data[2..] + Low(c));
  }

  lemma LastWords(b: Beat)
    ensures Words(b.(last := true)) == Words(b)
  {
  }

  /** The packet goes on. */
  lemma GoesOn(m: Beat, i: Asm, o: Asm, c: CoreBeat)
    requires Rel(Sof10S, m, i, o) && Legal(i, c) && !c.last
    ensures var b := Joined(m, AsBeat(c)); Rel(Sof10S, AsBeat(c), CoreNext(i, c), Next(o, b)) && BeatOk(b) && !High(c)
  {
    hide Words, Joined, BeatOk;
    var before := if o.cur.Some? then o.cur.value else [];
    JoinedWords(m, c);
    JoinedOk(m, c);
    assert c.data == c.data[..2] + c.data[2..];
    assert (before + m.data[2..]) + c.data == (before + (m.data[2..] + c.data[..2])) + c.data[2..];
  }

  lemma ShiftedKeeps(r: RegType, i: Asm, o: Asm, c: CoreBeat)
    requires Rel(r.state, r.master, i, o) && Legal(i, c) && r.state.Sof10S?
    ensures var u := Shifted(r, c);
            Rel(u.state, u.master, CoreNext(i, c), Next(o, u.tx.value))
            && BeatOk(u.tx.value) && (u.tx.value.sof ==> o.cur.None?)
  {
    assert (Joined(r.master, AsBeat(c)).sof ==> o.cur.None?) && (High(c) ==> c.last && c.eof < 8);
    hide Rel, Joined, BeatOk, CoreNext, Next, Legal, High;
    if c.last && c.eof >= 8 {
      EndsHigh(r.master, i, o, c);
    } else if c.last {
      EndsLow(r.master, i, o, c);
    } else {
      GoesOn(r.master, i, o, c);
    }
  }

  lemma RestKeeps(r: RegType, i: Asm, o: Asm)
    requires Rel(r.state, r.master, i, o) && r.state.Eof10S?
    ensures Rel(Sof00S, r.master, i, Next(o, Rest(r.master))) && BeatOk(Rest(r.master)) && !Rest(r.master).sof
  {
  }

  class PciTlpCtrl {
    var r: RegType
    ghost var ins: seq<CoreBeat>
    ghost var outs: seq<Beat>

    ghost predicate Valid()
      reads this
    {
      AllLegal(ins) && AllOk(outs) && Rel(r.state, r.master, CoreAll(ins), All(outs))
    }

    constructor ()
      ensures Valid() && r == REG_INIT && ins == [] && outs == []
    {
      r, ins, outs := REG_INIT, [], [];
    }

    /** One cycle. The output register keeps its beat until it is taken. */
    method Step(c: Option<CoreBeat>, txReady: bool) returns (ready: bool)
      requires Valid() && (c.Some? ==> Legal(CoreAll(ins), c.value))
      modifies this
      ensures Valid()
      ensures ready ==> c.Some?
      ensures ins == old(ins) + if ready then [c.value] else []
      ensures old(r.tx.Some?) && !txReady ==> r.tx == old(r.tx) && outs == old(outs) && !ready
      ensures old(r.tx.None?) || txReady ==>
                && outs == old(outs) + (if r.tx.Some? then [r.tx.value] else [])
                && (c.Some? ==> ready || old(r.state.Eof10S?))
                && (r.tx.Some? <==> c.Some? || old(r.state.Eof10S?))
                && (old(r.state.Eof10S?) ==> r.state.Sof00S?) && (r.state.Eof10S? ==> ready)
    {
      hide CoreAll, All, AllOk, AllLegal, Legal, Rel, BeatOk, Straight, Shifted, Rest, CoreNext, Next;
      ready := false;
      ghost var i, o := CoreAll(ins), All(outs);
      var v := if txReady then r.(tx := None) else r;
      if v.tx.None? {
        match r.state {
          case Sof00S =>
            if c.Some? {
              StraightKeeps(r, i, o, c.value);
              StraightTx(v, r, c.value);
              v := Straight(v, c.value);
              ready := true;
            }
          case Sof10S =>
            if c.Some? {
              ShiftedKeeps(r, i, o, c.value);
              ShiftedTx(v, r, c.value);
              v := Shifted(v, c.value);
              ready := true;
            }
          case Eof10S =>
            RestKeeps(r, i, o);
            v := v.(tx := Some(Rest(r.master)), state := Sof00S);
        }
        if v.tx.Some? {
          AllPush(outs, v.tx.value);
          outs := outs + [v.tx.value];
        }
      }
      if ready {
        CorePush(ins, c.value);
        ins := ins + [c.value];
      }
      r := v;
    }
  }

  lemma StraightTx(v: RegType, r: RegType, c: CoreBeat)
    requires v == r.(tx := v.tx)
    ensures Straight(v, c) == Straight(r, c) && Straight(v, c).tx.Some?
  {
  }

  lemma ShiftedTx(v: RegType, r: RegType, c: CoreBeat)
    requires v == r.(tx := v.tx)
    ensures Shifted(v, c) == Shifted(r, c) && Shifted(v, c).tx.Some?
  {
  }
}

/** The demultiplexer: register accesses and, by tag, completions for the transmit lanes. */
module Outbound {
  import opened AxiStream
  import opened TlpBeats

  datatype Dest = Register | Lane(i: nat) | Nowhere

  /** The type field of header word 0. */
  function XType(w: Dw): nat {
    (w.b3 as int) % 32
  }

  /** The tag of a completion, in header word 2. */
  function Tag(w: Dw): nat {
    w.b1 as int
  }

  const MEM := 0
  const CPL := 10

  /** Where a packet goes: single-beat memory requests to the registers, completions with tag 2i+1 to lane i. */
  function DestOf(w0: Dw, w2: Dw, short: bool, lanes: nat): (d: Dest)
    ensures d.Lane? ==> d.i < lanes
  {
    if XType(w0) == MEM && short then Register
    else if XType(w0) == CPL && Tag(w2) % 2 == 1 && Tag(w2) / 2 < lanes then Lane(Tag(w2) / 2)
    else Nowhere
  }

  /** A packet reaches lane i exactly if it is a completion (type 10, bits 28..24) with tag 2i+1 (bits 15..8 of the
      third word), and the registers exactly if it is a memory request (type 0) of one beat. */
  lemma LaneTag(w0: Dw, w2: Dw, short: bool, lanes: nat, i: nat)
    ensures DestOf(w0, w2, short, lanes) == Lane(i)
            <==> w0.b3 as int % 32 == 10 && w2.b1 as int == 2 * i + 1 && i < lanes
    ensures DestOf(w0, w2, short, lanes) == Register <==> w0.b3 as int % 32 == 0 && short
  {
  }

  function PacketDest(p: Packet, lanes: nat): (d: Dest)
    ensures d.Lane? ==> d.i < lanes
  {
    if |p| >= 3 then DestOf(p[0], p[2], |p| <= 4, lanes) else Nowhere
  }

  /** The destination of a packet that does not end in its first beat. */
  function OpenDest(p: Packet, lanes: nat): (d: Dest)
    ensures d.Lane? ==> d.i < lanes
    ensures !d.Register?
  {
    if |p| >= 3 then DestOf(p[0], p[2], false, lanes) else Nowhere
  }

  function BeatDest(b: Beat, lanes: nat): (d: Dest)
    ensures d.Lane? ==> d.i < lanes
  {
    DestOf(b.data[0], b.data[2], b.last, lanes)
  }

  /** The packets with a given destination, in order. */
  function Sorted(ps: seq<Packet>, d: Dest, lanes: nat): seq<Packet> {
    if ps == [] then []
    else
      var n := |ps| - 1;
      Sorted(ps[..n], d, lanes) + if PacketDest(ps[n], lanes) == d then [ps[n]] else []
  }

  lemma SortedPush(ps: seq<Packet>, p: Packet, d: Dest, lanes: nat)
    ensures Sorted(ps + [p], d, lanes) == Sorted(ps, d, lanes) + if PacketDest(p, lanes) == d then [p] else []
  {
    assert (ps + [p])[..|ps|] == ps;
  }

  /** The share of destination d: its complete packets, and the one in progress if it is d's. */
  function Share(a: Asm, d: Dest, lanes: nat): Asm {
    Asm(Sorted(a.done, d, lanes), if a.cur.Some? && OpenDest(a.cur.value, lanes) == d then a.cur else None)
  }

  predicate CurOk(a: Asm) {
    a.cur.Some? ==> |a.cur.value| >= 4
  }

  /** The destination of the packet that a beat belongs to. */
  function Target(a: Asm, b: Beat, lanes: nat): (d: Dest)
    ensures d.Lane? ==> d.i < lanes
  {
    if b.sof then BeatDest(b, lanes)
    else if a.cur.Some? then OpenDest(a.cur.value, lanes)
    else Nowhere
  }

  lemma FirstWords(b: Beat)
    requires BeatOk(b) && b.sof
    ensures |Words(b)| >= 3 && Words(b)[0] == b.data[0] && Words(b)[2] == b.data[2]
    ensures !b.last ==> |Words(b)| == 4
  {
  }

  lemma SomeWords(b: Beat)
    requires BeatOk(b)
    ensures |Words(b)| >= 1
  {
  }

  /** Handing a beat to its target, and to nobody else, keeps every share. */
  lemma ShareNext(a: Asm, b: Beat, d: Dest, lanes: nat)
    requires BeatOk(b) && CurOk(a) && (b.sof ==> a.cur.None?) && !d.Nowhere?
    ensures Share(Next(a, b), d, lanes) ==
              if Target(a, b, lanes) == d then Next(Share(a, d, lanes), b) else Share(a, d, lanes)
  {
    hide Words, Sorted, DestOf;
    SomeWords(b);
    if b.sof {
      FirstWords(b);
      SortedPush(a.done, Words(b), d, lanes);
    } else if a.cur.Some? {
      var p := a.cur.value + Words(b);
      SortedPush(a.done, p, d, lanes);
      Longer(a.cur.value, p, lanes);
    }
  }

  lemma Longer(p: Packet, q: Packet, lanes: nat)
    requires |p| >= 4 && |q| > |p| && q[..|p|] == p
    ensures PacketDest(q, lanes) == OpenDest(q, lanes) == OpenDest(p, lanes)
  {
    assert q[0] == p[0] && q[2] == p[2];
  }

  /** What the packet in progress is after a beat. */
  lemma CurNext(a: Asm, b: Beat, lanes: nat)
    requires BeatOk(b) && CurOk(a) && (b.sof ==> a.cur.None?)
    ensures CurOk(Next(a, b))
    ensures Next(a, b).cur.Some? ==> !b.last && OpenDest(Next(a, b).cur.value, lanes) == Target(a, b, lanes)
    ensures b.last && (b.sof || a.cur.Some?) ==> Next(a, b).cur.None?
    ensures !b.last && b.sof ==> Next(a, b).cur.Some?
    ensures !b.last && a.cur.Some? ==> Next(a, b).cur.Some?
  {
    hide Words, DestOf;
    SomeWords(b);
    if b.sof {
      FirstWords(b);
    } else if a.cur.Some? {
      Longer(a.cur.value, a.cur.value + Words(b), lanes);
    }
  }

  datatype StateType = IdleS | DmaS

  datatype RegType = RegType(chPntr: nat, regOb: Option<Beat>, dmaOb: seq<Option<Beat>>, state: StateType)

  /** Every output has received its share of what came in. */
  ghost predicate Routed(ins: seq<Beat>, reg: seq<Beat>, out: seq<seq<Beat>>) {
    var n := |out|;
    && AllOk(ins) && CurOk(All(ins))
    && AllOk(reg) && All(reg) == Share(All(ins), Register, n)
    && forall i :: 0 <= i < n ==> AllOk(out[i]) && All(out[i]) == Share(All(ins), Lane(i), n)
  }

  /** The state and the channel pointer agree with the packet in progress, or with a first beat that is waiting. */
  ghost predicate Pointed(r: RegType, a: Asm, held: Option<Beat>, n: nat) {
    match r.state
    case IdleS => a.cur.Some? ==> OpenDest(a.cur.value, n) == Nowhere
    case DmaS =>
      && r.chPntr < n
      && if a.cur.Some? then OpenDest(a.cur.value, n) == Lane(r.chPntr)
         else held.Some? && held.value.sof && BeatDest(held.value, n) == Lane(r.chPntr)
  }

  /** A beat handed to its target. */
  lemma Hands(ins: seq<Beat>, reg: seq<Beat>, out: seq<seq<Beat>>, b: Beat, reg': seq<Beat>, out': seq<seq<Beat>>)
    requires Routed(ins, reg, out) && BeatOk(b) && (b.sof ==> All(ins).cur.None?)
    requires var t := Target(All(ins), b, |out|);
             && reg' == (if t.Register? then reg + [b] else reg)
             && out' == if t.Lane? then out[t.i := out[t.i] + [b]] else out
    ensures Routed(ins + [b], reg', out') && All(ins + [b]) == Next(All(ins), b)
  {
    hide Next, Share, Target, CurOk, BeatOk, All, AllOk;
    var n, a := |out|, All(ins);
    AllPush(ins, b);
    CurNext(a, b, n);
    ShareNext(a, b, Register, n);
    AllPush(reg, b);
    ShareCur(a, Register, n);
    forall i | 0 <= i < n
      ensures AllOk(out'[i]) && All(out'[i]) == Share(All(ins + [b]), Lane(i), n)
    {
      ShareNext(a, b, Lane(i), n);
      AllPush(out[i], b);
      ShareCur(a, Lane(i), n);
    }
  }

  lemma ShareCur(a: Asm, d: Dest, lanes: nat)
    ensures a.cur.None? ==> Share(a, d, lanes).cur.None?
  {
  }

  /** Output registers emptied by their ready lines. */
  function Drained(obs: seq<Option<Beat>>, ready: seq<bool>): (r: seq<Option<Beat>>)
    requires |ready| == |obs|
    ensures |r| == |obs|
  {
    seq(|obs|, i requires 0 <= i < |obs| => if ready[i] then None else obs[i])
  }

  function Opt(o: Option<Beat>): (bs: seq<Beat>) {
    if o.Some? then [o.value] else []
  }

  /** What leaves the output registers in one cycle. */
  function Sent(sent: seq<seq<Beat>>, obs: seq<Option<Beat>>, ready: seq<bool>): (r: seq<seq<Beat>>)
    requires |ready| == |obs| == |sent|
    ensures |r| == |obs|
  {
    seq(|obs|, i requires 0 <= i < |obs| => if ready[i] then sent[i] + Opt(obs[i]) else sent[i])
  }

  /** Each output has sent everything it was handed except the beat in its register. */
  ghost predicate Queued(out: seq<seq<Beat>>, sent: seq<seq<Beat>>, obs: seq<Option<Beat>>) {
    |out| == |sent| == |obs| && forall i :: 0 <= i < |out| ==> out[i] == sent[i] + Opt(obs[i])
  }

  lemma QueuedSent(out: seq<seq<Beat>>, sent: seq<seq<Beat>>, obs: seq<Option<Beat>>, ready: seq<bool>)
    requires Queued(out, sent, obs) && |ready| == |obs|
    ensures Queued(out, Sent(sent, obs, ready), Drained(obs, ready))
  {
  }

  lemma QueuedPut(out: seq<seq<Beat>>, sent: seq<seq<Beat>>, obs: seq<Option<Beat>>, i: nat, b: Beat)
    requires Queued(out, sent, obs) && i < |obs| && obs[i].None?
    ensures Queued(out[i := out[i] + [b]], sent, obs[i := Some(b)])
  {
  }

  /** Whether a beat is accepted, and the state after it. A completion whose lane is busy holds its place in the DMA
      state, where the register output no longer matters. */
  predicate Handshake(r: RegType, b: Option<Beat>, ready: bool, state: StateType) {
    var n := |r.dmaOb|;
    var begins := b.Some? && r.state.IdleS? && r.regOb.None? && b.value.sof && BeatDest(b.value, n).Lane?;
    && (r.state.DmaS? ==> r.chPntr < n)
    && ready == (b.Some? && if r.state.DmaS? then r.dmaOb[r.chPntr].None?
                            else r.regOb.None? && (begins ==> r.dmaOb[BeatDest(b.value, n).i].None?))
    && (state.DmaS? <==> (begins || r.state.DmaS?) && !(ready && b.value.last))
  }

  class PciTlpOutbound {
    const lanes: nat
    var r: RegType
    ghost var ins: seq<Beat>
    ghost var reg: seq<Beat>
    ghost var out: seq<seq<Beat>>
    ghost var regSent: seq<Beat>
    ghost var sent: seq<seq<Beat>>
    ghost var held: Option<Beat>         // a beat presented and not yet accepted

    ghost predicate Valid()
      reads this
    {
      && |out| == |r.dmaOb| == |sent| == lanes
      && reg == regSent + Opt(r.regOb) && Queued(out, sent, r.dmaOb)
      && Routed(ins, reg, out)
      && Pointed(r, All(ins), held, lanes)
    }

    constructor (lanes: nat)
      ensures Valid() && this.lanes == lanes && ins == [] && reg == [] && held == None
      ensures regSent == [] && |sent| == lanes && forall i :: 0 <= i < lanes ==> sent[i] == []
    {
      this.lanes := lanes;
      r := RegType(0, None, seq(lanes, _ => None), IdleS);
      ins, reg, out, held := [], [], seq(lanes, _ => []), None;
      regSent, sent := [], seq(lanes, _ => []);
    }

    /** One cycle. Output registers are emptied by their ready lines, then at most one beat is accepted. */
    method Step(b: Option<Beat>, regReady: bool, laneReady: seq<bool>) returns (ready: bool)
      requires Valid() && |laneReady| == lanes && (held.Some? ==> b == held)
      requires b.Some? ==> BeatOk(b.value) && (b.value.sof ==> All(ins).cur.None?)
      modifies this
      ensures Valid()
      ensures ready ==> b.Some?
      ensures ins == old(ins) + (if ready then [b.value] else []) && held == if ready then None else b
      ensures regSent == old(regSent) + (if regReady then Opt(old(r.regOb)) else [])
      ensures sent == Sent(old(sent), old(r.dmaOb), laneReady)
      ensures Handshake(old(r).(regOb := if regReady then None else old(r.regOb),
                                dmaOb := Drained(old(r.dmaOb), laneReady)), b, ready, r.state)
      ensures regReady && (forall i :: 0 <= i < lanes ==> laneReady[i]) ==> ready == b.Some?
    {
      hide Routed, BeatOk, Queued, Sent, All;
      QueuedSent(out, sent, r.dmaOb, laneReady);
      sent := Sent(sent, r.dmaOb, laneReady);
      regSent := regSent + if regReady then Opt(r.regOb) else [];
      r := r.(regOb := if regReady then None else r.regOb, dmaOb := Drained(r.dmaOb, laneReady));
      ready := Accept(b);
    }

    /** The state machine, after the output registers were emptied. */
    method Accept(b: Option<Beat>) returns (ready: bool)
      requires Valid() && (held.Some? ==> b == held)
      requires b.Some? ==> BeatOk(b.value) && (b.value.sof ==> All(ins).cur.None?)
      modifies this`r, this`ins, this`reg, this`out, this`held
      ensures Valid()
      ensures ready ==> b.Some?
      ensures ins == old(ins) + (if ready then [b.value] else []) && held == if ready then None else b
      ensures Handshake(old(r), b, ready, r.state)
      ensures old(r.regOb.None?) && (forall i :: 0 <= i < lanes ==> old(r.dmaOb)[i].None?) ==> ready == b.Some?
    {
      hide Routed, BeatDest, Next, BeatOk, CurOk, OpenDest, All, Queued;
      ready := false;
      var v := r;
      ghost var a, reg', out' := All(ins), reg, out;
      RoutedFacts(ins, reg, out);
      if b.Some? {
        CurNext(a, b.value, lanes);
      }
      match r.state {
        case IdleS =>
          if b.Some? && v.regOb.None? {
            if b.value.sof {
              match BeatDest(b.value, lanes) {
                case Register =>
                  ready := true;
                  v, reg' := v.(regOb := b), reg + [b.value];
                case Lane(i) =>
                  v := v.(chPntr := i);
                  if v.dmaOb[i].None? {
                    ready := true;
                    QueuedPut(out, sent, v.dmaOb, i, b.value);
                    v := v.(dmaOb := v.dmaOb[i := b], state := if b.value.last then IdleS else DmaS);
                    out' := out[i := out[i] + [b.value]];
                  } else {
                    v := v.(state := DmaS);
                  }
                case Nowhere =>
                  ready := true;
              }
            } else {
              ready := true;
            }
          }
        case DmaS =>
          if b.Some? && v.dmaOb[r.chPntr].None? {
            ready := true;
            QueuedPut(out, sent, v.dmaOb, r.chPntr, b.value);
            v := v.(dmaOb := v.dmaOb[r.chPntr := b], state := if b.value.last then IdleS else DmaS);
            out' := out[r.chPntr := out[r.chPntr] + [b.value]];
          }
      }
      if ready {
        Hands(ins, reg, out, b.value, reg', out');
        ins := ins + [b.value];
      }
      held := if ready then None else b;
      reg, out := reg', out';
      r := v;
    }
  }

  lemma RoutedFacts(ins: seq<Beat>, reg: seq<Beat>, out: seq<seq<Beat>>)
    requires Routed(ins, reg, out)
    ensures CurOk(All(ins))
  {
  }
}

/** The receive direction of the packet layer: realigner and demultiplexer in one clock domain. */
module PcieReceive {
  import opened AxiStream
  import opened TlpBeats
  import opened Outbound
  import R = Realigner

  /** One pciClk cycle: whether the core offers its next beat, and the ready lines of the outputs. */
  datatype Edge = Edge(offer: bool, regReady: bool, laneReady: seq<bool>)

  /** The core offers its next beat and every output is ready. */
  predicate AllUp(e: Edge) {
    e.offer && e.regReady && forall i :: 0 <= i < |e.laneReady| ==> e.laneReady[i]
  }

  ghost predicate Linked(t: R.PciTlpCtrl, o: PciTlpOutbound)
    reads t, o
  {
    && t.Valid() && o.Valid()
    && t.outs == o.ins + Opt(t.r.tx)
    && (o.held.Some? ==> o.held == t.r.tx)
  }

  lemma {:induction false} LegalAt(cs: seq<CoreBeat>, k: nat)
    requires AllLegal(cs) && k < |cs|
    ensures Legal(CoreAll(cs[..k]), cs[k])
  {
    if k == |cs| - 1 {
    } else {
      LegalAt(cs[..|cs| - 1], k);
      assert cs[..|cs| - 1][..k] == cs[..k];
    }
  }

  lemma TxOk(outs: seq<Beat>, ins: seq<Beat>, tx: Option<Beat>)
    requires AllOk(outs) && outs == ins + Opt(tx)
    ensures tx.Some? ==> BeatOk(tx.value) && (tx.value.sof ==> All(ins).cur.None?)
  {
    if tx.Some? {
      AllPush(ins, tx.value);
    }
  }

  method Clock(t: R.PciTlpCtrl, o: PciTlpOutbound, c: Option<CoreBeat>, e: Edge) returns (ready: bool)
    requires Linked(t, o) && |e.laneReady| == o.lanes
    requires c.Some? ==> Legal(CoreAll(t.ins), c.value)
    modifies t, o
    ensures Linked(t, o)
    ensures ready ==> c.Some?
    ensures t.ins == old(t.ins) + if ready then [c.value] else []
    ensures o.regSent == old(o.regSent) + (if e.regReady then Opt(old(o.r.regOb)) else [])
    ensures o.sent == Sent(old(o.sent), old(o.r.dmaOb), e.laneReady)
    ensures old(t.r.tx.None?) || AllUp(e) ==>
              && (c.Some? ==> ready || old(t.r.state.Eof10S?))
              && (t.r.tx.Some? <==> c.Some? || old(t.r.state.Eof10S?))
              && (old(t.r.state.Eof10S?) ==> t.r.state.Sof00S?) && (t.r.state.Eof10S? ==> ready)
  {
    hide Legal, BeatOk, All, AllOk, CoreAll, AllLegal, Routed, Pointed, Queued, R.Rel, Sent;
    TxOk(t.outs, o.ins, t.r.tx);
    var taken := o.Step(t.r.tx, e.regReady, e.laneReady);
    ready := t.Step(c, taken);
  }

  lemma {:induction false} DonePrefix(a: seq<Beat>, b: seq<Beat>)
    ensures All(a).done <= All(a + b).done
  {
    if b == [] {
      assert a + b == a;
    } else {
      var n := |b| - 1;
      DonePrefix(a, b[..n]);
      assert a + b == (a + b[..n]) + [b[n]];
      AllPush(a + b[..n], b[n]);
    }
  }

  lemma {:induction false} SortedPrefix(ps: seq<Packet>, qs: seq<Packet>, d: Dest, lanes: nat)
    requires ps <= qs
    ensures Sorted(ps, d, lanes) <= Sorted(qs, d, lanes)
  {
    if ps == qs {
    } else {
      SortedPrefix(ps, qs[..|qs| - 1], d, lanes);
    }
  }

  /** No beat is on its way between the core and the output registers. */
  predicate Quiet(r: R.RegType) {
    r.tx.None? && !r.state.Eof10S?
  }

  /** A completion (type 10, in bits 28..24 of header word 0) with tag 2i+1 (bits 15..8 of header word 2). */
  predicate Answers(p: Packet, i: nat) {
    |p| >= 3 && p[0].b3 as int % 32 == 10 && p[2].b1 as int == 2 * i + 1
  }

  /** A memory request (type 0) that fits one beat. */
  predicate Accesses(p: Packet) {
    3 <= |p| <= 4 && p[0].b3 as int % 32 == 0
  }

  /** The completions for transmit lane i among some packets, in order. */
  function ForLane(ps: seq<Packet>, i: nat): seq<Packet> {
    if ps == [] then [] else ForLane(ps[..|ps| - 1], i) + if Answers(ps[|ps| - 1], i) then [ps[|ps| - 1]] else []
  }

  /** The register accesses among some packets, in order. */
  function ForRegisters(ps: seq<Packet>): seq<Packet> {
    if ps == [] then [] else ForRegisters(ps[..|ps| - 1]) + if Accesses(ps[|ps| - 1]) then [ps[|ps| - 1]] else []
  }

  lemma {:induction false} LaneSorted(ps: seq<Packet>, i: nat, lanes: nat)
    requires i < lanes
    ensures Sorted(ps, Lane(i), lanes) == ForLane(ps, i)
  {
    if ps == [] {
    } else {
      LaneSorted(ps[..|ps| - 1], i, lanes);
    }
  }

  lemma {:induction false} RegisterSorted(ps: seq<Packet>, lanes: nat)
    ensures Sorted(ps, Register, lanes) == ForRegisters(ps)
  {
    if ps == [] {
    } else {
      RegisterSorted(ps[..|ps| - 1], lanes);
    }
  }

  /** What arrived at a destination, against what was meant for it. */
  ghost predicate Arrived(bs: seq<Beat>, meant: seq<Packet>, quiet: bool) {
    AllOk(bs) && All(bs).done <= meant && (quiet ==> All(bs).done == meant)
  }

  lemma Arrives(r: R.RegType, cs: seq<CoreBeat>, outs: seq<Beat>, ins: seq<Beat>, bs: seq<Beat>, d: Dest, lanes: nat)
    requires R.Rel(r.state, r.master, CoreAll(cs), All(outs)) && outs == ins + Opt(r.tx)
    requires AllOk(bs) && All(bs) == Share(All(ins), d, lanes)
    ensures Arrived(bs, Sorted(CoreAll(cs).done, d, lanes), Quiet(r))
  {
    hide All, CoreAll, Sorted, AllOk;
    DonePrefix(ins, Opt(r.tx));
    SortedPrefix(All(ins).done, CoreAll(cs).done, d, lanes);
    assert Quiet(r) ==> outs == ins;
  }

  /** The state of a run: n beats of the core taken in, reg and out passed on. */
  ghost predicate Going(t: R.PciTlpCtrl, o: PciTlpOutbound, cs: seq<CoreBeat>, n: nat, lanes: nat, reg: seq<Beat>,
                        out: seq<seq<Beat>>)
    reads t, o
  {
    && Linked(t, o) && o.lanes == lanes
    && n <= |cs| && t.ins == cs[..n]
    && o.regSent == reg && o.sent == out && |out| == |o.r.dmaOb| == lanes
  }

  /** What is left to do, in cycles. */
  function Left(r: R.RegType, k: nat): nat {
    4 * k + (if r.state.Eof10S? then 2 else 0) + if r.tx.Some? then 1 else 0
  }

  method OneEdge(t: R.PciTlpCtrl, o: PciTlpOutbound, cs: seq<CoreBeat>, n: nat, lanes: nat, reg: seq<Beat>,
                 out: seq<seq<Beat>>, e: Edge)
    returns (n': nat, reg': seq<Beat>, out': seq<seq<Beat>>)
    requires Going(t, o, cs, n, lanes, reg, out) && AllLegal(cs) && |e.laneReady| == lanes
    modifies t, o
    ensures Going(t, o, cs, n', lanes, reg', out')
    ensures AllUp(e) && !(n == |cs| && Quiet(old(t.r))) ==> Left(t.r, |cs| - n') < Left(old(t.r), |cs| - n)
  {
    hide Linked, Legal, AllLegal, CoreAll, AllUp;
    var c := None;
    if e.offer && n < |cs| {
      LegalAt(cs, n);
      c := Some(cs[n]);
    }
    Offers(e);
    reg' := reg + if e.regReady then Opt(o.r.regOb) else [];
    out' := Sent(out, o.r.dmaOb, e.laneReady);
    var ready := Clock(t, o, c, e);
    Shape(t, o);
    n' := n;
    if ready {
      assert cs[..n + 1] == cs[..n] + [cs[n]];
      n' := n + 1;
    }
  }

  lemma Offers(e: Edge)
    ensures AllUp(e) ==> e.offer
  {
  }

  /** Any run of the receive direction, whatever the ready lines do. Lane i is sent exactly the completions with
      tag 2i+1, and the register block the single-beat memory requests, whole, in order, each from word 0 of a
      beat; nothing else arrives anywhere, and nothing is missing if the realigner is quiet. */
  method Receive(cs: seq<CoreBeat>, edges: seq<Edge>, lanes: nat)
    returns (n: nat, end: R.RegType, reg: seq<Beat>, regPending: seq<Beat>, out: seq<seq<Beat>>,
             pending: seq<seq<Beat>>)
    requires AllLegal(cs) && forall k :: 0 <= k < |edges| ==> |edges[k].laneReady| == lanes
    ensures n <= |cs| && |out| == |pending| == lanes
    ensures |regPending| <= 1 && Arrived(reg + regPending, ForRegisters(CoreAll(cs[..n]).done), Quiet(end))
    ensures forall i :: 0 <= i < lanes ==>
              |pending[i]| <= 1 && Arrived(out[i] + pending[i], ForLane(CoreAll(cs[..n]).done, i), Quiet(end))
  {
    hide Linked, Legal, AllLegal, CoreAll, Arrived, AllUp, Quiet, Left, ForLane, ForRegisters;
    var t, o;
    t, o, n, reg, out := Follow(cs, edges, lanes);
    end := t.r;
    regPending := Opt(o.r.regOb);
    pending := Pendings(o.r.dmaOb);
    Outcome(t, o);
  }

  /** A run from reset. */
  method Follow(cs: seq<CoreBeat>, edges: seq<Edge>, lanes: nat)
    returns (t: R.PciTlpCtrl, o: PciTlpOutbound, n: nat, reg: seq<Beat>, out: seq<seq<Beat>>)
    requires AllLegal(cs) && forall k :: 0 <= k < |edges| ==> |edges[k].laneReady| == lanes
    ensures fresh(t) && fresh(o) && Going(t, o, cs, n, lanes, reg, out)
    ensures Left(t.r, |cs| - n) <= 4 * |cs| + 3
  {
    hide Linked, AllLegal, AllUp, Quiet;
    t, o := NewLayer(lanes);
    n, reg, out := 0, [], seq(lanes, _ => []);
    for k := 0 to |edges|
      invariant fresh(t) && fresh(o) && Going(t, o, cs, n, lanes, reg, out)
    {
      n, reg, out := OneEdge(t, o, cs, n, lanes, reg, out, edges[k]);
    }
  }

  /** However a run has gone so far, cycles with everything offered and ready take in every beat and deliver every
      packet: at most four for each beat of the core and three more. */
  method Deliver(cs: seq<CoreBeat>, edges: seq<Edge>, lanes: nat)
    returns (whole: seq<Edge>, reg: seq<Beat>, out: seq<seq<Beat>>)
    requires AllLegal(cs) && forall k :: 0 <= k < |edges| ==> |edges[k].laneReady| == lanes
    ensures edges <= whole && |whole| <= |edges| + 4 * |cs| + 3
    ensures forall k :: |edges| <= k < |whole| ==> AllUp(whole[k]) && |whole[k].laneReady| == lanes
    ensures |out| == lanes && Complete(reg, ForRegisters(CoreAll(cs).done))
    ensures forall i :: 0 <= i < lanes ==> Complete(out[i], ForLane(CoreAll(cs).done, i))
  {
    hide Linked, Legal, AllLegal, CoreAll, Arrived, Complete, Left, ForLane, ForRegisters;
    var t, o, n;
    t, o, n, reg, out := Follow(cs, edges, lanes);
    whole := edges;
    while !(n == |cs| && Quiet(t.r))
      invariant fresh(t) && fresh(o) && Going(t, o, cs, n, lanes, reg, out)
      invariant edges <= whole && |whole| + Left(t.r, |cs| - n) <= |edges| + 4 * |cs| + 3
      invariant forall k :: |edges| <= k < |whole| ==> AllUp(whole[k]) && |whole[k].laneReady| == lanes
      decreases Left(t.r, |cs| - n)
    {
      var up := Edge(true, true, seq(lanes, _ => true));
      n, reg, out := OneEdge(t, o, cs, n, lanes, reg, out, up);
      whole := whole + [up];
    }
    assert cs[..n] == cs;
    Outcome(t, o);
    var pending := Pendings(o.r.dmaOb);
    ArrivedAll(reg + Opt(o.r.regOb), ForRegisters(CoreAll(cs).done));
    forall i | 0 <= i < lanes
      ensures Complete(out[i] + pending[i], ForLane(CoreAll(cs).done, i))
    {
      ArrivedAll(out[i] + pending[i], ForLane(CoreAll(cs).done, i));
    }
    reg := reg + Opt(o.r.regOb);
    out := seq(lanes, i requires 0 <= i < lanes && |out| == |pending| == lanes => out[i] + pending[i]);
  }

  /** A destination has received all its packets, and nothing else. */
  ghost predicate Complete(bs: seq<Beat>, meant: seq<Packet>) {
    AllOk(bs) && All(bs).done == meant
  }

  lemma ArrivedAll(bs: seq<Beat>, meant: seq<Packet>)
    requires Arrived(bs, meant, true)
    ensures Complete(bs, meant)
  {
    hide AllOk, All;
  }

  function Pendings(obs: seq<Option<Beat>>): (p: seq<seq<Beat>>)
    ensures |p| == |obs| && forall i :: 0 <= i < |obs| ==> p[i] == Opt(obs[i])
  {
    seq(|obs|, i requires 0 <= i < |obs| => Opt(obs[i]))
  }

  lemma Shape(t: R.PciTlpCtrl, o: PciTlpOutbound)
    requires Linked(t, o)
    ensures |o.sent| == |o.r.dmaOb| == o.lanes
  {
  }

  method NewLayer(lanes: nat) returns (t: R.PciTlpCtrl, o: PciTlpOutbound)
    ensures fresh(t) && fresh(o) && Linked(t, o) && o.lanes == lanes && t.ins == []
    ensures o.regSent == [] && o.sent == seq(lanes, _ => []) && |o.r.dmaOb| == lanes
  {
    t := new R.PciTlpCtrl();
    o := new PciTlpOutbound(lanes);
  }

  lemma Outcome(t: R.PciTlpCtrl, o: PciTlpOutbound)
    requires Linked(t, o)
    ensures |o.sent| == |o.r.dmaOb| == o.lanes
    ensures Arrived(o.regSent + Opt(o.r.regOb), ForRegisters(CoreAll(t.ins).done), Quiet(t.r))
    ensures forall i :: 0 <= i < o.lanes ==>
              Arrived(o.sent[i] + Opt(o.r.dmaOb[i]), ForLane(CoreAll(t.ins).done, i), Quiet(t.r))
  {
    hide All, CoreAll, AllOk, AllLegal, Share, Arrived, Pointed, R.Rel, ForLane, ForRegisters, Sorted;
    RegisterSorted(CoreAll(t.ins).done, o.lanes);
    Arrives(t.r, t.ins, t.outs, o.ins, o.reg, Register, o.lanes);
    forall i | 0 <= i < o.lanes
      ensures Arrived(o.sent[i] + Opt(o.r.dmaOb[i]), ForLane(CoreAll(t.ins).done, i), Quiet(t.r))
    {
      LaneSorted(CoreAll(t.ins).done, i, o.lanes);
      Arrives(t.r, t.ins, t.outs, o.ins, o.out[i], Lane(i), o.lanes);
    }
  }
}
