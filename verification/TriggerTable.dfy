/** The trigger look-up table: which runs were sent with which opcode, and whether they were accepted. */
module TriggerTable {
  import opened AxiStream

  /** Number of opcodes. */
  const OPCODES := 256

  const COUNT_SPACE := 0x1_0000_0000

  /** One table entry. */
  datatype Entry = Entry(accept: bool, seconds: Dw, offset: Dw, acceptCnt: nat)

  const NO_ENTRY := Entry(false, ZERO_DW, ZERO_DW, 0)

  datatype Stamp = Stamp(seconds: Dw, offset: Dw)

  /** The inputs of one clock cycle: a run trigger with its time stamp, an accept strobe, whether the sync word is
      matched (or the mode is asynchronous), the sync enable, and the counter reset. */
  datatype Cycle = Cycle(run: Option<Stamp>, accept: bool, sync: bool, syncEn: bool, cntRst: bool)

  // ---------------------------------------------------------------------------------------
  // The history
  // ---------------------------------------------------------------------------------------

  function Next8(a: nat): (b: nat)
    ensures b < OPCODES
  {
    (a + 1) % OPCODES
  }

  /** The opcode of the next run: the number of runs so far, in 8 bits. */
  function NextCode(cs: seq<Cycle>): (c: nat)
    ensures c < 256
  {
    if cs == [] then 0
    else if cs[|cs| - 1].run.Some? then (NextCode(cs[..|cs| - 1]) + 1) % 256
    else NextCode(cs[..|cs| - 1])
  }

  /** The sync enable in force: its value when the sync word was last matched. */
  function SyncEn(cs: seq<Cycle>): bool {
    if cs == [] then false
    else if cs[|cs| - 1].sync then cs[|cs| - 1].syncEn
    else SyncEn(cs[..|cs| - 1])
  }

  /** No run in cycles from..to. */
  predicate NoRun(cs: seq<Cycle>, from: nat, to: nat) {
    forall w :: from <= w < to && w < |cs| ==> cs[w].run.None?
  }

  /** Cycle t is the latest run with opcode a. */
  predicate LatestRun(cs: seq<Cycle>, a: nat, t: nat) {
    && t < |cs| && cs[t].run.Some? && NextCode(cs[..t]) == a
    && forall w :: t < w < |cs| && cs[w].run.Some? ==> NextCode(cs[..w]) != a
  }

  predicate NeverRun(cs: seq<Cycle>, a: nat) {
    forall w :: 0 <= w < |cs| && cs[w].run.Some? ==> NextCode(cs[..w]) != a
  }

  /** The run of cycle t was sent with sync enabled, and an accept followed it before the next run. */
  ghost predicate Accepted(cs: seq<Cycle>, t: nat) {
    && t < |cs| && SyncEn(cs[..t + 1])
    && exists u :: t < u < |cs| && cs[u].accept && NoRun(cs, t + 1, u + 1)
  }

  /** The latest run still waits for its accept. */
  ghost predicate Ready(cs: seq<Cycle>) {
    exists t :: 0 <= t < |cs| && cs[t].run.Some? && NoRun(cs, t + 1, |cs|) && SyncEn(cs[..t + 1]) && NoAccept(cs, t + 1)
  }

  predicate NoAccept(cs: seq<Cycle>, from: nat) {
    forall w :: from <= w < |cs| ==> !cs[w].accept
  }

  /** Accepts counted since the last counter reset, in 32 bits. */
  ghost function Counter(cs: seq<Cycle>): nat {
    if cs == [] then 0
    else
      var n := |cs| - 1;
      if cs[n].cntRst then 0
      else if cs[n].accept && Ready(cs[..n]) then (Counter(cs[..n]) + 1) % 0x1_0000_0000
      else Counter(cs[..n])
  }

  /** Cycle u holds the accept of the run of cycle t. */
  predicate FirstAccept(cs: seq<Cycle>, t: nat, u: nat) {
    && t < u < |cs| && cs[u].accept && NoRun(cs, t + 1, u + 1)
    && forall w :: t < w < u ==> !cs[w].accept
  }

  /** The count stored with a run: as it stood after the accept, or else after the run. */
  ghost predicate CountOk(e: Entry, cs: seq<Cycle>, t: nat)
    requires t < |cs|
  {
    if e.accept then exists u: nat {:trigger FirstAccept(cs, t, u)} ::
      FirstAccept(cs, t, u) && e.acceptCnt == Counter(cs[..u + 1])
    else e.acceptCnt == Counter(cs[..t + 1])
  }

  /** The table entry of opcode a agrees with the history. */
  ghost predicate EntryOk(e: Entry, cs: seq<Cycle>, a: nat) {
    (NeverRun(cs, a) && e == Entry(false, Dw(0, 0, 0, 0), Dw(0, 0, 0, 0), 0))
    || exists t: nat {:trigger LatestRun(cs, a, t)} ::
         && LatestRun(cs, a, t)
         && e.seconds == cs[t].run.value.seconds && e.offset == cs[t].run.value.offset
         && (e.accept <==> Accepted(cs, t)) && CountOk(e, cs, t)
  }

  // ---------------------------------------------------------------------------------------
  // The registers
  // ---------------------------------------------------------------------------------------

  datatype RegType = RegType(evrSyncEn: bool, ready: bool, valid: bool, we: bool, trigAddr: nat, waddr: nat,
                             acceptCnt: nat, seconds: Dw, offset: Dw)

  const REG_INIT := RegType(false, false, false, false, 0, 0, 0, ZERO_DW, ZERO_DW)

  /** The memory after the write the registers ask for. */
  function Committed(ram: seq<Entry>, r: RegType): (m: seq<Entry>)
    requires |ram| == OPCODES && r.waddr < OPCODES
    ensures |m| == OPCODES
  {
    if r.we then ram[r.waddr := Entry(r.valid, r.seconds, r.offset, r.acceptCnt)] else ram
  }

  /** The registers against the history. */
  ghost predicate RegsOk(r: RegType, cs: seq<Cycle>) {
    && r.evrSyncEn == SyncEn(cs) && r.trigAddr == NextCode(cs) && r.waddr < OPCODES
    && r.ready == Ready(cs) && r.acceptCnt == Counter(cs)
    && (r.ready ==> exists t: nat ::
          Last(cs, t) && NextCode(cs[..t]) == r.waddr && cs[t].run == Some(Stamp(r.seconds, r.offset)))
  }

  /** Cycle t holds the last run of all. */
  predicate Last(cs: seq<Cycle>, t: nat) {
    t < |cs| && cs[t].run.Some? && NoRun(cs, t + 1, |cs|)
  }

  ghost predicate TableOk(m: seq<Entry>, cs: seq<Cycle>) {
    |m| == OPCODES && forall a :: 0 <= a < OPCODES ==> EntryOk(m[a], cs, a)
  }

  /** A run in the very cycle in which an earlier run is accepted. */
  ghost predicate Clash(cs: seq<Cycle>, c: Cycle) {
    c.run.Some? && c.accept && Ready(cs)
  }

  ghost predicate NoClash(cs: seq<Cycle>) {
    cs != [] ==> NoClash(cs[..|cs| - 1]) && !Clash(cs[..|cs| - 1], cs[|cs| - 1])
  }

  function Write(r: RegType, c: Cycle): (v: RegType) {
    var s := r.(we := false, valid := false, evrSyncEn := if c.sync then c.syncEn else r.evrSyncEn);
    var v := match c.run
      case None => s
      case Some(stamp) =>
        s.(we := true, waddr := r.trigAddr, seconds := stamp.seconds, offset := stamp.offset,
           trigAddr := Next8(r.trigAddr), ready := s.evrSyncEn);
    var w := if c.accept && r.ready then
        v.(we := true, valid := true, acceptCnt := (r.acceptCnt + 1) % COUNT_SPACE, ready := false)
      else v;
    if c.cntRst then w.(acceptCnt := 0) else w
  }

  // ---------------------------------------------------------------------------------------
  // One more cycle
  // ---------------------------------------------------------------------------------------

  lemma Prefixes(cs: seq<Cycle>, c: Cycle)
    ensures (cs + [c])[..|cs|] == cs
    ensures forall t :: 0 <= t <= |cs| ==> (cs + [c])[..t] == cs[..t]
  {
  }

  /** Readiness after one more cycle. */
  lemma ReadyNext(cs: seq<Cycle>, c: Cycle)
    ensures Ready(cs + [c]) <==> if c.run.Some? then SyncEn(cs + [c]) else Ready(cs) && !c.accept
  {
    hide SyncEn;
    var ds := cs + [c];
    Prefixes(cs, c);
    if c.run.Some? {
      assert ds[..|cs| + 1] == ds;
      assert NoRun(ds, |cs| + 1, |ds|) && NoAccept(ds, |cs| + 1);
      if Ready(ds) {
        var t :| 0 <= t < |ds| && ds[t].run.Some? && NoRun(ds, t + 1, |ds|)
          && SyncEn(ds[..t + 1]) && NoAccept(ds, t + 1);
        assert t == |cs|;
      }
    } else {
      if Ready(ds) {
        var t :| 0 <= t < |ds| && ds[t].run.Some? && NoRun(ds, t + 1, |ds|)
          && SyncEn(ds[..t + 1]) && NoAccept(ds, t + 1);
        assert ds[..t + 1] == cs[..t + 1] && ds[|cs|] == c;
        assert cs[t] == ds[t];
        assert NoRun(cs, t + 1, |cs|) && NoAccept(cs, t + 1);
      }
      if Ready(cs) && !c.accept {
        var t :| 0 <= t < |cs| && cs[t].run.Some? && NoRun(cs, t + 1, |cs|)
          && SyncEn(cs[..t + 1]) && NoAccept(cs, t + 1);
        assert ds[..t + 1] == cs[..t + 1] && ds[t] == cs[t];
        assert NoRun(ds, t + 1, |ds|) && NoAccept(ds, t + 1);
      }
    }
  }

  lemma LatestNext(cs: seq<Cycle>, c: Cycle, a: nat, t: nat)
    ensures LatestRun(cs + [c], a, t) <==>
              if c.run.Some? && NextCode(cs) == a then t == |cs| else LatestRun(cs, a, t)
  {
    hide NextCode;
    var ds := cs + [c];
    Prefixes(cs, c);
    assert ds[|cs|] == c;
    assert forall w :: 0 <= w < |cs| ==> ds[w] == cs[w];
    if LatestRun(ds, a, t) && !(c.run.Some? && NextCode(cs) == a) {
      assert t < |cs|;
      forall w | t < w < |cs| && cs[w].run.Some?
        ensures NextCode(cs[..w]) != a
      {
        assert ds[..w] == cs[..w];
      }
    }
    if LatestRun(cs, a, t) && !(c.run.Some? && NextCode(cs) == a) {
      forall w | t < w < |ds| && ds[w].run.Some?
        ensures NextCode(ds[..w]) != a
      {
        assert w < |cs| ==> ds[..w] == cs[..w];
      }
    }
  }

  lemma NeverNext(cs: seq<Cycle>, c: Cycle, a: nat)
    ensures NeverRun(cs + [c], a) <==> NeverRun(cs, a) && !(c.run.Some? && NextCode(cs) == a)
  {
    hide NextCode;
    var ds := cs + [c];
    Prefixes(cs, c);
    assert ds[|cs|] == c;
    assert forall w :: 0 <= w < |cs| ==> ds[w] == cs[w] && ds[..w] == cs[..w];
  }

  /** A run waiting for its accept is the last run. */
  lemma ReadyLast(cs: seq<Cycle>, t: nat)
    requires Last(cs, t)
    ensures Ready(cs) <==> SyncEn(cs[..t + 1]) && !Accepted(cs, t)
  {
    hide SyncEn;
    if Ready(cs) {
      var s :| 0 <= s < |cs| && cs[s].run.Some? && NoRun(cs, s + 1, |cs|) && SyncEn(cs[..s + 1]) && NoAccept(cs, s + 1);
      assert s == t;
    }
    if SyncEn(cs[..t + 1]) && !Accepted(cs, t) {
      forall w | t + 1 <= w < |cs|
        ensures !cs[w].accept
      {
        assert NoRun(cs, t + 1, w + 1);
      }
      assert NoAccept(cs, t + 1);
    }
  }

  lemma NoRunSame(cs: seq<Cycle>, c: Cycle, from: nat)
    ensures forall to: nat :: to <= |cs| ==> NoRun(cs + [c], from, to) == NoRun(cs, from, to)
  {
    var ds := cs + [c];
    assert forall w :: 0 <= w < |cs| ==> cs[w] == ds[w];
  }

  /** An accept changes the state only of the run that waits for it. */
  lemma AcceptedNext(cs: seq<Cycle>, c: Cycle, t: nat)
    requires t < |cs| && cs[t].run.Some?
    ensures Accepted(cs + [c], t) <==> Accepted(cs, t) || (Last(cs, t) && Ready(cs) && c.accept && c.run.None?)
  {
    hide SyncEn;
    var ds := cs + [c];
    Prefixes(cs, c);
    assert ds[..t + 1] == cs[..t + 1];
    if Accepted(cs, t) {
      var u :| t < u < |cs| && cs[u].accept && NoRun(cs, t + 1, u + 1);
      assert ds[u].accept && NoRun(ds, t + 1, u + 1);
    }
    if Last(cs, t) && Ready(cs) && c.accept && c.run.None? {
      ReadyLast(cs, t);
      assert ds[|cs|].accept && NoRun(ds, t + 1, |cs| + 1);
    }
    if Accepted(ds, t) && !Accepted(cs, t) {
      var u :| t < u < |ds| && ds[u].accept && NoRun(ds, t + 1, u + 1);
      NoRunSame(cs, c, t + 1);
      assert u == |cs|;
      assert ds[u] == c && NoRun(cs, t + 1, |cs|);
      ReadyLast(cs, t);
    }
  }

  lemma CountKept(e: Entry, cs: seq<Cycle>, c: Cycle, t: nat)
    requires t < |cs| && CountOk(e, cs, t)
    ensures CountOk(e, cs + [c], t)
  {
    hide Counter;
    var ds := cs + [c];
    assert ds[..t + 1] == cs[..t + 1];
    assert forall w :: 0 <= w < |cs| ==> ds[w] == cs[w];
    if e.accept {
      var u: nat :| FirstAccept(cs, t, u) && e.acceptCnt == Counter(cs[..u + 1]);
      assert FirstAccept(ds, t, u) && ds[..u + 1] == cs[..u + 1];
    }
  }

  /** The run waiting for its accept finds it now. */
  lemma AcceptNow(cs: seq<Cycle>, c: Cycle, t: nat)
    requires Last(cs, t) && Ready(cs) && c.accept && c.run.None?
    ensures FirstAccept(cs + [c], t, |cs|) && (cs + [c])[..|cs| + 1] == cs + [c]
  {
    hide SyncEn;
    var s :| 0 <= s < |cs| && cs[s].run.Some? && NoRun(cs, s + 1, |cs|) && SyncEn(cs[..s + 1]) && NoAccept(cs, s + 1);
    assert s == t;
  }

  /** An entry that is not written stays right, unless its run is the one accepted now. */
  lemma EntryKept(e: Entry, cs: seq<Cycle>, c: Cycle, a: nat)
    requires EntryOk(e, cs, a) && !(c.run.Some? && NextCode(cs) == a)
    requires Ready(cs) && c.accept ==> c.run.None? && forall t: nat :: LatestRun(cs, a, t) ==> !Last(cs, t)
    ensures EntryOk(e, cs + [c], a)
  {
    hide NextCode, Accepted, NeverRun, Last, SyncEn, CountOk;
    NeverNext(cs, c, a);
    if !(NeverRun(cs, a) && e == NO_ENTRY) {
      var t: nat :| LatestRun(cs, a, t) && e.seconds == cs[t].run.value.seconds && e.offset == cs[t].run.value.offset
                    && (e.accept <==> Accepted(cs, t)) && CountOk(e, cs, t);
      CountKept(e, cs, c, t);
      LatestNext(cs, c, a, t);
      AcceptedNext(cs, c, t);
      assert (cs + [c])[t] == cs[t];
    }
  }

  /** The entry of a run just sent is right exactly if it is not marked accepted. */
  lemma EntrySent(e: Entry, cs: seq<Cycle>, c: Cycle)
    requires c.run == Some(Stamp(e.seconds, e.offset)) && e.acceptCnt == Counter(cs + [c])
    ensures EntryOk(e, cs + [c], NextCode(cs)) <==> !e.accept
  {
    hide NextCode, SyncEn, Counter;
    assert (cs + [c])[..|cs| + 1] == cs + [c];
    var ds, a := cs + [c], NextCode(cs);
    LatestNext(cs, c, a, |cs|);
    NeverNext(cs, c, a);
    forall t: nat | LatestRun(ds, a, t)
      ensures t == |cs|
    {
      LatestNext(cs, c, a, t);
    }
    assert ds[|cs|] == c && !Accepted(ds, |cs|);
  }

  lemma LastIsLatest(cs: seq<Cycle>, t: nat)
    requires Last(cs, t)
    ensures LatestRun(cs, NextCode(cs[..t]), t)
    ensures forall a, s: nat :: LatestRun(cs, a, s) && Last(cs, s) ==> a == NextCode(cs[..t])
  {
    hide NextCode;
    forall a, s: nat | LatestRun(cs, a, s) && Last(cs, s)
      ensures a == NextCode(cs[..t])
    {
      assert s == t;
    }
  }

  /** The entry of the run accepted now. */
  lemma EntryAccepted(e: Entry, cs: seq<Cycle>, c: Cycle, t: nat)
    requires Last(cs, t) && Ready(cs) && c.accept && c.run.None?
    requires e.accept && cs[t].run == Some(Stamp(e.seconds, e.offset)) && e.acceptCnt == Counter(cs + [c])
    ensures EntryOk(e, cs + [c], NextCode(cs[..t]))
  {
    hide NextCode, Accepted, SyncEn, Ready, Counter;
    AcceptNow(cs, c, t);
    LastIsLatest(cs, t);
    LatestNext(cs, c, NextCode(cs[..t]), t);
    AcceptedNext(cs, c, t);
    assert (cs + [c])[t] == cs[t];
  }

  lemma CountNext(r: RegType, cs: seq<Cycle>, c: Cycle)
    requires r.ready == Ready(cs) && r.acceptCnt == Counter(cs)
    ensures Write(r, c).acceptCnt == Counter(cs + [c])
  {
    hide Ready;
    assert (cs + [c])[..|cs|] == cs;
  }

  /** The registers keep up with the history. */
  lemma RegsNext(r: RegType, cs: seq<Cycle>, c: Cycle)
    requires RegsOk(r, cs) && !Clash(cs, c)
    ensures RegsOk(Write(r, c), cs + [c])
  {
    hide Accepted, Ready;
    Prefixes(cs, c);
    ReadyNext(cs, c);
    var ds, v := cs + [c], Write(r, c);
    assert ds[|cs|] == c;
    CountNext(r, cs, c);
    hide Counter;
    if v.ready {
      if c.run.Some? {
        assert Last(ds, |cs|);
      } else {
        var t: nat :| Last(cs, t) && NextCode(cs[..t]) == r.waddr && cs[t].run == Some(Stamp(r.seconds, r.offset));
        assert ds[t] == cs[t] && Last(ds, t) && ds[..t] == cs[..t];
      }
    }
  }

  /** The memory and its pending write keep agreeing with the history exactly if no run is sent in the cycle in which
      an earlier one is accepted: in that case the accept lands on the wrong run. */
  lemma TableNext(m: seq<Entry>, r: RegType, cs: seq<Cycle>, c: Cycle)
    requires RegsOk(r, cs) && TableOk(m, cs)
    ensures Write(r, c).waddr < OPCODES
    ensures TableOk(Committed(m, Write(r, c)), cs + [c]) <==> !Clash(cs, c)
  {
    CountNext(r, cs, c);
    hide EntryOk, NextCode, Ready, Counter, Accepted, SyncEn, LatestRun, NoRun;
    var v := Write(r, c);
    var m' := Committed(m, v);
    if Clash(cs, c) {
      EntrySent(m'[v.waddr], cs, c);
    } else {
      forall a | 0 <= a < OPCODES
        ensures EntryOk(m'[a], cs + [c], a)
      {
        if c.run.Some? && a == NextCode(cs) {
          EntrySent(m'[a], cs, c);
        } else if c.accept && r.ready {
          var t: nat :| Last(cs, t) && NextCode(cs[..t]) == r.waddr && cs[t].run == Some(Stamp(r.seconds, r.offset));
          LastIsLatest(cs, t);
          if a == r.waddr {
            EntryAccepted(m'[a], cs, c, t);
          } else {
            EntryKept(m[a], cs, c, a);
          }
        } else {
          EntryKept(m[a], cs, c, a);
        }
      }
    }
  }

  /** Such a cycle can happen, and then the memory marks the second run accepted and the first one not. */
  lemma ClashHappens(a: Stamp, b: Stamp)
    ensures var first := Cycle(Some(a), false, true, true, false);
            var both := Cycle(Some(b), true, false, true, false);
            && Clash([first], both)
            && var m := Committed(Committed(seq(OPCODES, _ => NO_ENTRY), Write(REG_INIT, first)),
                                  Write(Write(REG_INIT, first), both));
               !m[0].accept && m[1].accept && !Accepted([first, both], 1)
  {
    var first := Cycle(Some(a), false, true, true, false);
    var cs := [first];
    assert cs[..1] == cs;
    assert NoRun(cs, 1, 1) && NoAccept(cs, 1) && SyncEn(cs[..0 + 1]) && cs[0].run.Some?;
    assert Next8(0) == 1;
  }

  /** A history leaves no choice of an entry. */
  lemma EntryUnique(d: Entry, e: Entry, cs: seq<Cycle>, a: nat)
    requires EntryOk(d, cs, a) && EntryOk(e, cs, a)
    ensures d == e
  {
    hide NextCode, Accepted, Counter, NoRun;
    if NeverRun(cs, a) {
      assert forall t: nat :: !LatestRun(cs, a, t);
    } else {
      var t: nat :| LatestRun(cs, a, t) && d.seconds == cs[t].run.value.seconds && d.offset == cs[t].run.value.offset
                    && (d.accept <==> Accepted(cs, t)) && CountOk(d, cs, t);
      var u: nat :| LatestRun(cs, a, u) && e.seconds == cs[u].run.value.seconds && e.offset == cs[u].run.value.offset
                    && (e.accept <==> Accepted(cs, u)) && CountOk(e, cs, u);
      assert t == u;
    }
  }

  /** The cycles that have taken effect in the memory: all but the last. */
  function Before(cs: seq<Cycle>): seq<Cycle> {
    if cs == [] then [] else cs[..|cs| - 1]
  }

  class PgpOpCode {
    var r: RegType
    var ram: seq<Entry>
    ghost var cycles: seq<Cycle>

    /** The memory lags one cycle behind the registers. */
    ghost predicate Valid()
      reads this
    {
      && |ram| == OPCODES && RegsOk(r, cycles) && TableOk(Committed(ram, r), cycles)
      && TableOk(ram, Before(cycles))
    }

    constructor ()
      ensures Valid() && cycles == [] && r == REG_INIT
    {
      r := REG_INIT;
      ram := seq(OPCODES, _ => NO_ENTRY);
      cycles := [];
    }

    /** One cycle of the transmit clock. */
    method Step(c: Cycle)
      requires Valid() && !Clash(cycles, c)
      modifies this
      ensures Valid() && cycles == old(cycles) + [c]
    {
      hide TableOk, RegsOk, Clash, Committed, Write;
      RegsNext(r, cycles, c);
      TableNext(Committed(ram, r), r, cycles, c) by { InRange(r, cycles); }
      InRange(r, cycles);
      ram := Committed(ram, r);
      cycles := cycles + [c];
      assert cycles[..|cycles| - 1] == old(cycles);
      r := Write(r, c);
    }
  }

  lemma InRange(r: RegType, cs: seq<Cycle>)
    requires RegsOk(r, cs)
    ensures r.waddr < OPCODES
  {
  }
}
