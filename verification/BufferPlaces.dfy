/** Where the DMA buffers of the card are, and how every participant moves them. */
module BufferPlaces {
  import opened AxiStream

  /** A finished transfer: buffer address, lane, virtual channel, length and error flags. */
  datatype Entry = Entry(addr: nat, lane: nat, vc: nat, length: nat, eofe: bool, lengthErr: bool)

  /** free: the per-lane lists the driver writes; dma: the buffer each lane's engine works on (none or one);
      done: the done queue; ring: the driver's ring, oldest first. While handing is set, the oldest ring entry has
      been given back to the hardware but the ring's read pointer has not moved yet. */
  datatype Places = Places(free: seq<seq<nat>>, dma: seq<seq<nat>>, done: seq<Entry>, ring: seq<Entry>, handing: bool)

  datatype Move =
    | Grant(lane: nat)        // an engine takes the oldest buffer of its list
    | Finish(entry: Entry)    // an engine reports its buffer
    | Enqueue                 // the interrupt handler moves a report to the ring
    | Return                  // the interrupt handler gives the buffer back: the device is closed
    | HandBack(lane: nat)     // read or write hands the oldest ring buffer to a hardware list
    | Advance                 // ... and then moves the ring's read pointer

  /** Bit 0 of a register word. */
  predicate Odd(w: nat)
    ensures !Odd(0)
  {
    w % 2 == 1
  }

  /** A buffer address with the valid flag in bit 0. */
  lemma LowBits(addr: nat)
    requires addr % 4 == 0
    ensures (addr + 1) % 2 == 1 && (addr + 1) - (addr + 1) % 4 == addr && (addr + 1) / 2 % 2 == 0
  {
  }

  function Addrs(es: seq<Entry>): (a: seq<nat>)
    ensures |a| == |es| && forall i :: 0 <= i < |es| ==> a[i] == es[i].addr
  {
    seq(|es|, i requires 0 <= i < |es| => es[i].addr)
  }

  /** The effect of a move, when it is possible. */
  function Apply(p: Places, m: Move): Option<Places> {
    match m
    case Grant(l) =>
      if l < |p.free| && l < |p.dma| && p.free[l] != [] && p.dma[l] == [] then
        Some(p.(free := p.free[l := p.free[l][1..]], dma := p.dma[l := [p.free[l][0]]]))
      else None
    case Finish(e) =>
      if e.lane < |p.dma| && p.dma[e.lane] == [e.addr] then
        Some(p.(dma := p.dma[e.lane := []], done := p.done + [e]))
      else None
    case Enqueue =>
      if p.done != [] then Some(p.(done := p.done[1..], ring := p.ring + [p.done[0]])) else None
    case Return =>
      if p.done != [] && p.done[0].lane < |p.free| then
        var e := p.done[0];
        Some(p.(done := p.done[1..], free := p.free[e.lane := p.free[e.lane] + [e.addr]]))
      else None
    case HandBack(l) =>
      if p.ring != [] && !p.handing && l < |p.free| then
        Some(p.(free := p.free[l := p.free[l] + [p.ring[0].addr]], handing := true))
      else None
    case Advance =>
      if p.handing && p.ring != [] then Some(p.(ring := p.ring[1..], handing := false)) else None
  }

  /** The places after a possible move. */
  function After(p: Places, m: Move): Places {
    match Apply(p, m)
    case None => p
    case Some(q) => q
  }

  lemma AfterEnqueue(p: Places)
    requires p.done != []
    ensures After(p, Enqueue) == p.(done := p.done[1..], ring := p.ring + [p.done[0]])
  {
  }

  lemma AfterShape(p: Places, m: Move)
    ensures |After(p, m).free| == |p.free| && |After(p, m).dma| == |p.dma|
  {
  }

  function Run(p: Places, ms: seq<Move>): Option<Places> {
    if ms == [] then Some(p)
    else
      match Run(p, ms[..|ms| - 1])
      case None => None
      case Some(q) => Apply(q, ms[|ms| - 1])
  }

  // ---------------------------------------------------------------------------------------
  // Conservation
  // ---------------------------------------------------------------------------------------

  ghost function All(ls: seq<seq<nat>>): multiset<nat> {
    if ls == [] then multiset{} else All(ls[..|ls| - 1]) + multiset(ls[|ls| - 1])
  }

  ghost function Total(p: Places): multiset<nat> {
    All(p.free) + All(p.dma) + multiset(Addrs(p.done)) + multiset(Addrs(p.ring))
  }

  /** Every buffer is in exactly one place, except the one being handed back, which is in two. */
  ghost predicate Conserved(p: Places, all: multiset<nat>) {
    && (p.handing ==> p.ring != [])
    && Total(p) == all + if p.handing then multiset{p.ring[0].addr} else multiset{}
  }

  lemma Swap3(a: multiset<nat>, b: multiset<nat>, c: multiset<nat>, d: multiset<nat>, e: multiset<nat>)
    requires a + b == c + d
    ensures (a + e) + b == (c + e) + d
  {
    calc {
      (a + e) + b;
      (a + b) + e;
      (c + d) + e;
      (c + e) + d;
    }
  }

  lemma {:induction false} AllUpdate(ls: seq<seq<nat>>, i: nat, l: seq<nat>)
    requires i < |ls|
    ensures All(ls[i := l]) + multiset(ls[i]) == All(ls) + multiset(l)
    decreases |ls|
  {
    var n := |ls| - 1;
    var ks := ls[i := l];
    if i < n {
      AllUpdate(ls[..n], i, l);
      assert ks[..n] == ls[..n][i := l];
      Swap3(All(ks[..n]), multiset(ls[i]), All(ls[..n]), multiset(l), multiset(ls[n]));
    } else {
      assert ks[..n] == ls[..n];
    }
  }

  lemma Cancel(a: multiset<nat>, b: multiset<nat>, c: multiset<nat>, x: multiset<nat>)
    requires a + (x + b) == c + b
    ensures a + x == c
  {
    forall e
      ensures (a + x)[e] == c[e]
    {
      assert (a + (x + b))[e] == (c + b)[e];
    }
  }

  /** Taking the oldest buffer from one list. */
  lemma PopHead(ls: seq<seq<nat>>, i: nat)
    requires i < |ls| && ls[i] != []
    ensures All(ls[i := ls[i][1..]]) + multiset{ls[i][0]} == All(ls)
  {
    AllUpdate(ls, i, ls[i][1..]);
    assert ls[i] == [ls[i][0]] + ls[i][1..];
    Cancel(All(ls[i := ls[i][1..]]), multiset(ls[i][1..]), All(ls), multiset{ls[i][0]});
  }

  /** Adding a buffer to one list. */
  lemma PushTail(ls: seq<seq<nat>>, i: nat, x: nat)
    requires i < |ls|
    ensures All(ls[i := ls[i] + [x]]) == All(ls) + multiset{x}
  {
    AllUpdate(ls, i, ls[i] + [x]);
    Cancel(All(ls), multiset(ls[i]), All(ls[i := ls[i] + [x]]), multiset{x});
  }

  /** Entries added at the end of a queue and taken from its front. */
  lemma EntryParts(es: seq<Entry>, e: Entry)
    ensures multiset(Addrs(es + [e])) == multiset(Addrs(es)) + multiset{e.addr}
    ensures es != [] ==> multiset(Addrs(es)) == multiset{es[0].addr} + multiset(Addrs(es[1..]))
  {
    assert Addrs(es + [e]) == Addrs(es) + [e.addr];
    if es != [] {
      assert Addrs(es) == [es[0].addr] + Addrs(es[1..]);
    }
  }

  lemma Moved(a': multiset<nat>, b': multiset<nat>, a: multiset<nat>, b: multiset<nat>, x: multiset<nat>)
    requires a' + x == a && b' == b + x
    ensures a' + b' == a + b
  {
    assert a' + (b + x) == (a' + x) + b;
  }

  /** The hardware's moves keep the total. */
  lemma TotalCard(p: Places, m: Move)
    requires Apply(p, m).Some? && (m.Grant? || m.Finish?)
    ensures Total(Apply(p, m).value) == Total(p)
  {
    hide All, Addrs;
    var q := Apply(p, m).value;
    match m {
      case Grant(l) =>
        PopHead(p.free, l);
        PushTail(p.dma, l, p.free[l][0]);
        assert p.dma[l] + [p.free[l][0]] == [p.free[l][0]];
        Moved(All(q.free), All(q.dma), All(p.free), All(p.dma), multiset{p.free[l][0]});
      case Finish(e) =>
        PopHead(p.dma, e.lane);
        assert p.dma[e.lane][1..] == [];
        EntryParts(p.done, e);
        Moved(All(q.dma), multiset(Addrs(q.done)), All(p.dma), multiset(Addrs(p.done)), multiset{e.addr});
    }
  }

  /** The interrupt handler's moves keep the total. */
  lemma TotalIrq(p: Places, m: Move)
    requires Apply(p, m).Some? && (m.Enqueue? || m.Return?)
    ensures Total(Apply(p, m).value) == Total(p)
  {
    hide All, Addrs;
    var q := Apply(p, m).value;
    var e := p.done[0];
    EntryParts(p.done, e);
    if m.Enqueue? {
      EntryParts(p.ring, e);
      Moved(multiset(Addrs(q.done)), multiset(Addrs(q.ring)), multiset(Addrs(p.done)), multiset(Addrs(p.ring)),
            multiset{e.addr});
    } else {
      PushTail(p.free, e.lane, e.addr);
      Moved(multiset(Addrs(q.done)), All(q.free), multiset(Addrs(p.done)), All(p.free), multiset{e.addr});
    }
  }

  /** Handing back puts the buffer in a second place; advancing takes it out of the first. */
  lemma TotalHanded(p: Places, m: Move)
    requires Apply(p, m).Some? && (m.HandBack? || m.Advance?)
    ensures m.HandBack? ==> Total(Apply(p, m).value) == Total(p) + multiset{p.ring[0].addr}
    ensures m.Advance? ==> Total(Apply(p, m).value) + multiset{p.ring[0].addr} == Total(p)
  {
    hide All, Addrs;
    match m {
      case HandBack(l) =>
        PushTail(p.free, l, p.ring[0].addr);
      case Advance =>
        EntryParts(p.ring, p.ring[0]);
    }
  }

  /** No move creates, loses or duplicates a buffer. */
  lemma ApplyConserves(p: Places, m: Move, all: multiset<nat>)
    requires Conserved(p, all) && Apply(p, m).Some?
    ensures Conserved(Apply(p, m).value, all)
  {
    hide Total;
    if m.HandBack? || m.Advance? {
      TotalHanded(p, m);
      if m.Advance? {
        var q := Apply(p, m).value;
        Cancel(Total(q), multiset{p.ring[0].addr}, all, multiset{});
      }
    } else if m.Grant? || m.Finish? {
      TotalCard(p, m);
    } else {
      TotalIrq(p, m);
    }
  }

  lemma {:induction false} RunConserves(p: Places, ms: seq<Move>, all: multiset<nat>)
    requires Conserved(p, all) && Run(p, ms).Some?
    ensures Conserved(Run(p, ms).value, all)
  {
    if ms == [] {
    } else {
      RunConserves(p, ms[..|ms| - 1], all);
      ApplyConserves(Run(p, ms[..|ms| - 1]).value, ms[|ms| - 1], all);
    }
  }

  // ---------------------------------------------------------------------------------------
  // Ring occupancy
  // ---------------------------------------------------------------------------------------

  /** n buffers: the ring holds at most n + 1 entries, and at most n when a report is still to be enqueued. */
  lemma Occupancy(p: Places, all: multiset<nat>)
    requires Conserved(p, all)
    ensures |p.ring| <= |all| + 1
    ensures p.done != [] ==> |p.ring| <= |all|
    ensures !p.handing ==> |p.ring| <= |all|
  {
    assert |Total(p)| == |All(p.free)| + |All(p.dma)| + |p.done| + |p.ring|;
  }

  /** A ring of n + spare slots collides when a report arrives with every usable slot taken. */
  predicate Collides(p: Places, n: nat, spare: nat) {
    p.done != [] && |p.ring| + 1 == n + spare
  }

  /** All buffers in the ring, nothing in the hardware: the transmit side after the probe. */
  function FullRing(ring: seq<Entry>, lanes: nat): Places {
    Places(seq(lanes, _ => []), seq(lanes, _ => []), [], ring, false)
  }

  lemma {:induction false} AllEmpty(ls: seq<seq<nat>>)
    requires forall i :: 0 <= i < |ls| ==> ls[i] == []
    ensures All(ls) == multiset{}
  {
    if ls == [] {
    } else {
      AllEmpty(ls[..|ls| - 1]);
    }
  }

  lemma FullRingConserved(ring: seq<Entry>, lanes: nat)
    ensures Conserved(FullRing(ring, lanes), multiset(Addrs(ring)))
  {
    AllEmpty(seq(lanes, _ => []));
  }

  /** Two spare slots are exactly enough: with two or more no run collides, with fewer some run does. */
  lemma TwoSpareSlots(ring: seq<Entry>, lanes: nat, spare: nat)
    requires ring != [] && lanes > 0 && spare > 0
    ensures spare >= 2 <==>
      forall ms: seq<Move> {:trigger Run(FullRing(ring, lanes), ms)} ::
        Run(FullRing(ring, lanes), ms).Some? ==> !Collides(Run(FullRing(ring, lanes), ms).value, |ring|, spare)
  {
    var p := FullRing(ring, lanes);
    var all := multiset(Addrs(ring));
    FullRingConserved(ring, lanes);
    if spare >= 2 {
      forall ms: seq<Move> | Run(p, ms).Some?
        ensures !Collides(Run(p, ms).value, |ring|, spare)
      {
        RunConserves(p, ms, all);
        Occupancy(Run(p, ms).value, all);
      }
    } else {
      var e := Entry(ring[0].addr, 0, 0, 0, false, false);
      var m1, m2, m3 := HandBack(0), Grant(0), Finish(e);
      var p1 := Apply(p, m1).value;
      var p2 := Apply(p1, m2).value;
      RunPush(p, [], m1);
      RunPush(p, [m1], m2);
      RunPush(p, [m1, m2], m3);
      assert [] + [m1] == [m1] && [m1] + [m2] == [m1, m2];
      var ms := [m1, m2] + [m3];
      assert Run(p, ms) == Apply(p2, m3);
      assert Collides(Run(p, ms).value, |ring|, spare);
    }
  }

  lemma RunPush(p: Places, ms: seq<Move>, m: Move)
    requires Run(p, ms).Some?
    ensures Run(p, ms + [m]) == Apply(Run(p, ms).value, m)
  {
    assert (ms + [m])[..|ms|] == ms;
  }

  // ---------------------------------------------------------------------------------------
  // Lane affinity
  // ---------------------------------------------------------------------------------------

  /** Every buffer sits in a place of its home lane, and every report names that lane. */
  ghost predicate ListsHome(ls: seq<seq<nat>>, home: map<nat, nat>) {
    forall l, i :: 0 <= l < |ls| && 0 <= i < |ls[l]| ==> ls[l][i] in home && home[ls[l][i]] == l
  }

  ghost predicate EntriesHome(es: seq<Entry>, lanes: nat, home: map<nat, nat>) {
    forall i :: 0 <= i < |es| ==> es[i].addr in home && home[es[i].addr] == es[i].lane < lanes
  }

  ghost predicate AtHome(p: Places, home: map<nat, nat>) {
    && ListsHome(p.free, home) && ListsHome(p.dma, home)
    && EntriesHome(p.done, |p.free|, home) && EntriesHome(p.ring, |p.free|, home)
  }

  lemma PutHome(ls: seq<seq<nat>>, home: map<nat, nat>, l: nat, a: nat)
    requires ListsHome(ls, home) && l < |ls| && a in home && home[a] == l
    ensures ListsHome(ls[l := ls[l] + [a]], home) && ListsHome(ls[l := [a]], home)
  {
  }

  lemma TakeHome(ls: seq<seq<nat>>, home: map<nat, nat>, l: nat)
    requires ListsHome(ls, home) && l < |ls| && ls[l] != []
    ensures ListsHome(ls[l := ls[l][1..]], home) && ListsHome(ls[l := []], home)
    ensures ls[l][0] in home && home[ls[l][0]] == l
  {
  }

  lemma EntriesMove(es: seq<Entry>, fs: seq<Entry>, lanes: nat, home: map<nat, nat>)
    requires EntriesHome(es, lanes, home) && EntriesHome(fs, lanes, home) && es != []
    ensures EntriesHome(es[1..], lanes, home) && EntriesHome(fs + [es[0]], lanes, home)
    ensures es[0].addr in home && home[es[0].addr] == es[0].lane < lanes
  {
  }

  lemma EntriesAdd(es: seq<Entry>, e: Entry, lanes: nat, home: map<nat, nat>)
    requires EntriesHome(es, lanes, home) && e.addr in home && home[e.addr] == e.lane < lanes
    ensures EntriesHome(es + [e], lanes, home)
  {
  }

  /** The receive side hands a buffer back to the lane recorded with it. */
  predicate RxMove(p: Places, m: Move) {
    m.HandBack? && p.ring != [] ==> m.lane == p.ring[0].lane
  }

  predicate RxMoves(p: Places, ms: seq<Move>) {
    ms != [] ==>
      && RxMoves(p, ms[..|ms| - 1])
      && (Run(p, ms[..|ms| - 1]).Some? ==> RxMove(Run(p, ms[..|ms| - 1]).value, ms[|ms| - 1]))
  }

  lemma ApplyAtHome(p: Places, m: Move, home: map<nat, nat>)
    requires AtHome(p, home) && RxMove(p, m) && |p.free| == |p.dma| && Apply(p, m).Some?
    ensures AtHome(Apply(p, m).value, home)
    ensures |Apply(p, m).value.free| == |p.free| == |Apply(p, m).value.dma|
  {
    hide ListsHome, EntriesHome;
    match m {
      case Grant(l) =>
        TakeHome(p.free, home, l);
        PutHome(p.dma, home, l, p.free[l][0]);
      case Finish(e) =>
        TakeHome(p.dma, home, e.lane);
        EntriesAdd(p.done, e, |p.free|, home);
      case Enqueue => EntriesMove(p.done, p.ring, |p.free|, home);
      case Return =>
        EntriesMove(p.done, p.ring, |p.free|, home);
        PutHome(p.free, home, p.done[0].lane, p.done[0].addr);
      case HandBack(l) =>
        EntriesMove(p.ring, p.ring, |p.free|, home);
        PutHome(p.free, home, l, p.ring[0].addr);
      case Advance => EntriesMove(p.ring, p.ring, |p.free|, home);
    }
  }

  lemma {:induction false} RunAtHome(p: Places, ms: seq<Move>, home: map<nat, nat>)
    requires AtHome(p, home) && RxMoves(p, ms) && |p.free| == |p.dma| && Run(p, ms).Some?
    ensures AtHome(Run(p, ms).value, home)
    ensures |Run(p, ms).value.free| == |p.free| == |Run(p, ms).value.dma|
  {
    if ms == [] {
    } else {
      RunAtHome(p, ms[..|ms| - 1], home);
      ApplyAtHome(Run(p, ms[..|ms| - 1]).value, ms[|ms| - 1], home);
    }
  }
}
